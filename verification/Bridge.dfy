/** The two-way pump between a local byte stream and the relay's message socket. */
module Bridge {
  import opened Wrappers
  import opened Sockets

  const BUFFER := 64 * 1024

  /** One turn of the loop: what each call does if it is reached, and whether thirty seconds have brought no progress. */
  datatype Turn = Turn(flush: Progress, tcpRead: ReadProgress, send: Progress, wsRead: Progress, tcpWrite: ReadProgress, stalled: bool)

  datatype Pump = Pump(tcp: Tcp, ws: Ws, pending: seq<byte>, offset: nat, waiting: bool)

  function Fresh(tcp: Tcp, ws: Ws): Pump { Pump(tcp, ws, [], 0, false) }

  /** The pump after a part of a turn, whether the loop goes on, and whether anything moved. */
  datatype Phase = Phase(pump: Pump, goes: bool, moved: bool)

  function FlushPhase(p: Pump, k: Turn): Phase {
    if !p.waiting then Phase(p, true, false)
    else
      var (ws, r) := FlushStep(p.ws, k.flush);
      Phase(p.(ws := ws, waiting := !r.Done?), !r.Broken?, r.Done?)
  }

  function UpPhase(p: Pump, k: Turn): Phase {
    if p.waiting then Phase(p, true, false)
    else
      var (tcp, r, bytes) := TcpReadStep(p.tcp, BUFFER, k.tcpRead);
      if r.Blocked? then Phase(p.(tcp := tcp), true, false)
      else if r.Broken? || bytes == [] then Phase(p.(tcp := tcp), false, false)
      else
        var (ws, sent) := SendStep(p.ws, Binary(bytes), k.send);
        Phase(p.(tcp := tcp, ws := ws, waiting := sent.Blocked?), !sent.Broken?, true)
  }

  function InPhase(p: Pump, k: Turn): Phase {
    if p.offset != |p.pending| then Phase(p, true, false)
    else
      var (ws, r, f) := ReadStep(p.ws, k.wsRead);
      var q := p.(ws := ws, pending := [], offset := 0);
      if r.Blocked? then Phase(q, true, false)
      else if r.Broken? then Phase(q, false, false)
      else if Relayable(f.value) then Phase(q.(pending := f.value.bytes), true, true)
      else if f.value.Ping? then Phase(q.(waiting := true), true, true)
      else Phase(q, f.value.Pong?, f.value.Pong?)
  }

  function DownPhase(p: Pump, k: Turn): Phase
    requires p.offset <= |p.pending|
  {
    if p.offset == |p.pending| then Phase(p, true, false)
    else
      var (tcp, r, n) := TcpWriteStep(p.tcp, p.pending[p.offset..], k.tcpWrite);
      if r.Blocked? then Phase(p.(tcp := tcp), true, false)
      else if r.Broken? || n == 0 then Phase(p.(tcp := tcp), false, false)
      else Phase(p.(tcp := tcp, offset := p.offset + n), true, true)
  }

  predicate Busy(p: Pump) { p.waiting || p.offset < |p.pending| }

  function TurnStep(p: Pump, k: Turn): (Pump, bool)
    requires p.offset <= |p.pending|
  {
    var a := FlushPhase(p, k);
    if !a.goes then (a.pump, false)
    else
      var b := UpPhase(a.pump, k);
      if !b.goes then (b.pump, false)
      else
        var c := InPhase(b.pump, k);
        if !c.goes then (c.pump, false)
        else
          var d := DownPhase(c.pump, k);
          if !d.goes then (d.pump, false)
          else (d.pump, a.moved || b.moved || c.moved || d.moved || !Busy(d.pump) || !k.stalled)
  }

  function Run(p: Pump, turns: seq<Turn>): Pump
    requires Conserves(p)
    decreases |turns|
  {
    if turns == [] then p
    else
      TurnConserves(p, turns[0]);
      var (q, goes) := TurnStep(p, turns[0]);
      if goes then Run(q, turns[1..]) else q
  }

  /**
   Nothing is lost, repeated or put out of order. Up: the bytes read from the local socket are those of the messages the
   relay socket accepted. Down: the bytes of the messages read are those written locally and those still pending.
   */
  ghost predicate Conserves(p: Pump) {
    && p.offset <= |p.pending| <= MAX_RELAY_BYTES
    && UpBalance(Accepted(p.ws), p.tcp.consumed)
    && DownBalance(p.ws.received, p.tcp.written, p.pending[p.offset..])
  }

  ghost predicate UpBalance(accepted: seq<Frame>, consumed: seq<byte>) { Data(accepted) == consumed }

  ghost predicate DownBalance(received: seq<Frame>, written: seq<byte>, pending: seq<byte>) {
    Data(received) == written + pending
  }

  /** The socket holds frames only while the pump knows that it does. */
  ghost predicate Settled(p: Pump) { !p.waiting ==> p.ws.retained == [] }

  class Pumping {
    const tcp: TcpStream
    const websocket: WebSocket
    var pendingTcp: seq<byte>
    var tcpOffset: nat
    var pendingWebsocket: bool

    ghost function Value(): Pump
      reads this, tcp, websocket
    {
      Pump(tcp.Value(), websocket.Value(), pendingTcp, tcpOffset, pendingWebsocket)
    }

    constructor (tcp: TcpStream, websocket: WebSocket)
      ensures this.tcp == tcp && this.websocket == websocket
      ensures Value() == Fresh(tcp.Value(), websocket.Value())
    {
      this.tcp, this.websocket := tcp, websocket;
      pendingTcp, tcpOffset, pendingWebsocket := [], 0, false;
    }

    method Flush(k: Turn) returns (goes: bool, moved: bool)
      modifies this`pendingWebsocket, websocket
      ensures Phase(Value(), goes, moved) == FlushPhase(old(Value()), k)
    {
      if !pendingWebsocket { return true, false; }
      var r := websocket.Flush(k.flush);
      pendingWebsocket := !r.Done?;
      return !r.Broken?, r.Done?;
    }

    method Up(k: Turn) returns (goes: bool, moved: bool)
      modifies this`pendingWebsocket, websocket, tcp
      ensures Phase(Value(), goes, moved) == UpPhase(old(Value()), k)
    {
      if pendingWebsocket { return true, false; }
      var r, bytes := tcp.Read(BUFFER, k.tcpRead);
      if r.Blocked? { return true, false; }
      if r.Broken? || bytes == [] { return false, false; }
      var sent := websocket.Send(Binary(bytes), k.send);
      pendingWebsocket := sent.Blocked?;
      return !sent.Broken?, true;
    }

    method In(k: Turn) returns (goes: bool, moved: bool)
      modifies this`pendingWebsocket, this`pendingTcp, this`tcpOffset, websocket
      ensures Phase(Value(), goes, moved) == InPhase(old(Value()), k)
    {
      if tcpOffset != |pendingTcp| { return true, false; }
      pendingTcp, tcpOffset := [], 0;
      var r, f := websocket.Read(k.wsRead);
      if r.Blocked? { return true, false; }
      if r.Broken? { return false, false; }
      if Relayable(f.value) {
        pendingTcp := f.value.bytes;
        return true, true;
      }
      if f.value.Ping? {
        pendingWebsocket := true;
        return true, true;
      }
      return f.value.Pong?, f.value.Pong?;
    }

    method Down(k: Turn) returns (goes: bool, moved: bool)
      requires tcpOffset <= |pendingTcp|
      modifies this`tcpOffset, tcp
      ensures Phase(Value(), goes, moved) == DownPhase(old(Value()), k)
    {
      if tcpOffset == |pendingTcp| { return true, false; }
      var r, n := tcp.Write(pendingTcp[tcpOffset..], k.tcpWrite);
      if r.Blocked? { return true, false; }
      if r.Broken? || n == 0 { return false, false; }
      tcpOffset := tcpOffset + n;
      return true, true;
    }

    method Step(k: Turn) returns (goes: bool)
      requires Conserves(Value())
      modifies this, tcp, websocket
      ensures (Value(), goes) == TurnStep(old(Value()), k) && Conserves(Value())
      ensures goes && old(Settled(Value())) ==> Settled(Value())
    {
      ghost var before := Value();
      TurnConserves(before, k);
      FlushConserves(before, k);
      var progressed := false;
      var moved: bool;
      goes, moved := Flush(k);
      if !goes { return; }
      progressed := progressed || moved;
      UpConserves(Value(), k);
      goes, moved := Up(k);
      if !goes { return; }
      progressed := progressed || moved;
      InConserves(Value(), k);
      goes, moved := In(k);
      if !goes { return; }
      progressed := progressed || moved;
      goes, moved := Down(k);
      if !goes { return; }
      progressed := progressed || moved;
      goes := progressed || !(pendingWebsocket || tcpOffset < |pendingTcp|) || !k.stalled;
    }

    /** Turns until something ends the loop or no more are given. */
    method Loop(turns: seq<Turn>)
      requires Conserves(Value())
      modifies this, tcp, websocket
      ensures Conserves(Value()) && Value() == Run(old(Value()), turns)
    {
      for i := 0 to |turns|
        invariant Conserves(Value())
        invariant Run(Value(), turns[i..]) == old(Run(Value(), turns))
      {
        assert turns[i..][0] == turns[i] && turns[i..][1..] == turns[i + 1..];
        var goes := Step(turns[i]);
        if !goes { return; }
      }
    }
  }

  lemma FreshConserves(tcp: Tcp, ws: Ws)
    requires tcp.consumed == [] && tcp.written == [] && ws.received == [] && Accepted(ws) == []
    ensures Conserves(Fresh(tcp, ws)) && Settled(Fresh(tcp, ws))
  {
  }

  lemma FlushConserves(p: Pump, k: Turn)
    requires Conserves(p)
    ensures Conserves(FlushPhase(p, k).pump) && (Settled(p) ==> Settled(FlushPhase(p, k).pump))
  {
    FlushAccepts(p.ws, k.flush);
  }

  lemma SendingBalances(ws: Ws, consumed: seq<byte>, bytes: seq<byte>, k: Progress)
    requires UpBalance(Accepted(ws), consumed) && |bytes| <= BUFFER
    ensures var (after, r) := SendStep(ws, Binary(bytes), k);
            && UpBalance(Accepted(after), consumed + bytes) && after.received == ws.received
            && (r.Done? ==> after.retained == [])
  {
    SendAccepts(ws, Binary(bytes), k);
    DataAppend(Accepted(ws), Binary(bytes));
  }

  lemma SentConserves(p: Pump, tcp: Tcp, ws: Ws, waiting: bool)
    requires Conserves(p) && UpBalance(Accepted(ws), tcp.consumed)
    requires ws.received == p.ws.received && tcp.written == p.tcp.written
    ensures Conserves(Pump(tcp, ws, p.pending, p.offset, waiting))
  {
  }

  predicate Sends(p: Pump, k: Turn) {
    var (_, r, bytes) := TcpReadStep(p.tcp, BUFFER, k.tcpRead);
    !p.waiting && r.Done? && bytes != []
  }

  /** The part of the turn that reads locally either changes nothing or passes on one message. */
  lemma UpCases(p: Pump, k: Turn) returns (tcp: Tcp, ws: Ws, bytes: seq<byte>, sent: Outcome)
    ensures (tcp, Done, bytes) == TcpReadStep(p.tcp, BUFFER, k.tcpRead) || !Sends(p, k)
    ensures (ws, sent) == SendStep(p.ws, Binary(bytes), k.send)
    ensures Sends(p, k) ==>
              UpPhase(p, k) == Phase(Pump(tcp, ws, p.pending, p.offset, sent.Blocked?), !sent.Broken?, true)
              && |bytes| <= BUFFER && tcp.consumed == p.tcp.consumed + bytes && tcp.written == p.tcp.written
              && tcp.consumed + tcp.incoming == p.tcp.consumed + p.tcp.incoming
    ensures !Sends(p, k) ==> UpPhase(p, k).pump == p
  {
    var read := TcpReadStep(p.tcp, BUFFER, k.tcpRead);
    tcp, bytes := read.0, read.2;
    var out := SendStep(p.ws, Binary(bytes), k.send);
    ws, sent := out.0, out.1;
    if Sends(p, k) { assert p.tcp.consumed + p.tcp.incoming == tcp.consumed + tcp.incoming; }
  }

  lemma UpConserves(p: Pump, k: Turn)
    requires Conserves(p)
    ensures Conserves(UpPhase(p, k).pump)
    ensures Settled(p) && UpPhase(p, k).goes ==> Settled(UpPhase(p, k).pump)
  {
    var tcp, ws, bytes, sent := UpCases(p, k);
    if Sends(p, k) {
      SendingBalances(p.ws, p.tcp.consumed, bytes, k.send);
      SentConserves(p, tcp, ws, sent.Blocked?);
    }
  }

  lemma ReadingBalances(ws: Ws, consumed: seq<byte>, written: seq<byte>, k: Progress)
    requires UpBalance(Accepted(ws), consumed) && DownBalance(ws.received, written, [])
    ensures var (after, r, f) := ReadStep(ws, k);
            && UpBalance(Accepted(after), consumed)
            && DownBalance(after.received, written, if r.Done? && Relayable(f.value) then f.value.bytes else [])
  {
    ReadAccepts(ws, k);
    var (after, r, f) := ReadStep(ws, k);
    assert written + [] == written;
    if r.Done? { DataAppend(ws.received, f.value); }
  }

  lemma RefilledConserves(p: Pump, ws: Ws, pending: seq<byte>, waiting: bool)
    requires UpBalance(Accepted(ws), p.tcp.consumed) && DownBalance(ws.received, p.tcp.written, pending)
    requires |pending| <= MAX_RELAY_BYTES
    ensures Conserves(Pump(p.tcp, ws, pending, 0, waiting))
  {
    assert pending[0..] == pending;
  }

  lemma InConserves(p: Pump, k: Turn)
    requires Conserves(p)
    ensures Conserves(InPhase(p, k).pump)
    ensures Settled(p) && InPhase(p, k).goes ==> Settled(InPhase(p, k).pump)
  {
    if p.offset == |p.pending| {
      assert p.pending[p.offset..] == [];
      ReadingBalances(p.ws, p.tcp.consumed, p.tcp.written, k.wsRead);
      var (ws, r, f) := ReadStep(p.ws, k.wsRead);
      var pending := if r.Done? && Relayable(f.value) then f.value.bytes else [];
      RefilledConserves(p, ws, pending, InPhase(p, k).pump.waiting);
      assert InPhase(p, k).pump == Pump(p.tcp, ws, pending, 0, InPhase(p, k).pump.waiting);
    }
  }

  lemma DownConserves(p: Pump, k: Turn)
    requires Conserves(p)
    ensures Conserves(DownPhase(p, k).pump) && (Settled(p) ==> Settled(DownPhase(p, k).pump))
  {
    if p.offset < |p.pending| { WritingBalances(p.ws.received, p.tcp, p.pending, p.offset, k.tcpWrite); }
  }

  lemma WritingBalances(received: seq<Frame>, tcp: Tcp, pending: seq<byte>, offset: nat, k: ReadProgress)
    requires offset <= |pending| && DownBalance(received, tcp.written, pending[offset..])
    ensures var (after, r, n) := TcpWriteStep(tcp, pending[offset..], k);
            && n <= |pending| - offset && after.consumed == tcp.consumed
            && DownBalance(received, after.written, pending[offset + n..])
            && (r.Blocked? || r.Broken? ==> after == tcp && n == 0)
  {
    var rest := pending[offset..];
    var (after, r, n) := TcpWriteStep(tcp, rest, k);
    assert rest[..n] + pending[offset + n..] == rest;
    assert tcp.written + rest == tcp.written + rest[..n] + pending[offset + n..];
    assert rest[..0] == [] && tcp.written + [] == tcp.written;
  }

  lemma TurnConserves(p: Pump, k: Turn)
    requires Conserves(p)
    ensures Conserves(TurnStep(p, k).0)
    ensures Settled(p) && TurnStep(p, k).1 ==> Settled(TurnStep(p, k).0)
  {
    FlushConserves(p, k);
    var a := FlushPhase(p, k);
    if a.goes {
      UpConserves(a.pump, k);
      var b := UpPhase(a.pump, k);
      if b.goes {
        InConserves(b.pump, k);
        var c := InPhase(b.pump, k);
        if c.goes { DownConserves(c.pump, k); }
      }
    }
  }

  lemma {:induction false} RunConserves(p: Pump, turns: seq<Turn>)
    requires Conserves(p)
    ensures Conserves(Run(p, turns))
    ensures Run(p, turns).tcp.consumed + Run(p, turns).tcp.incoming == p.tcp.consumed + p.tcp.incoming
    ensures Run(p, turns).ws.received + Run(p, turns).ws.inbox == p.ws.received + p.ws.inbox
    decreases |turns|
  {
    if turns != [] {
      TurnConserves(p, turns[0]);
      TurnOnlyReads(p, turns[0]);
      var (q, goes) := TurnStep(p, turns[0]);
      if goes { RunConserves(q, turns[1..]); }
    }
  }

  /** Input is taken from the front of what arrives, and output already made is never touched again. */
  ghost predicate Advances(p: Pump, q: Pump) {
    && q.tcp.consumed + q.tcp.incoming == p.tcp.consumed + p.tcp.incoming
    && q.ws.received + q.ws.inbox == p.ws.received + p.ws.inbox
    && p.tcp.written <= q.tcp.written && p.ws.transmitted <= q.ws.transmitted
  }

  lemma FlushAdvances(p: Pump, k: Turn)
    ensures Advances(p, FlushPhase(p, k).pump)
  {
    FlushAccepts(p.ws, k.flush);
  }

  lemma UpAdvances(p: Pump, k: Turn)
    ensures Advances(p, UpPhase(p, k).pump)
  {
    var tcp, ws, bytes, sent := UpCases(p, k);
    SendAccepts(p.ws, Binary(bytes), k.send);
  }

  lemma InReads(p: Pump, k: Turn)
    ensures InPhase(p, k).pump.tcp == p.tcp
    ensures InPhase(p, k).pump.ws == if p.offset == |p.pending| then ReadStep(p.ws, k.wsRead).0 else p.ws
  {
  }

  lemma InAdvances(p: Pump, k: Turn)
    ensures Advances(p, InPhase(p, k).pump)
  {
    InReads(p, k);
    ReadAccepts(p.ws, k.wsRead);
  }

  lemma DownAdvances(p: Pump, k: Turn)
    requires p.offset <= |p.pending|
    ensures Advances(p, DownPhase(p, k).pump)
  {
  }

  lemma TurnOnlyReads(p: Pump, k: Turn)
    requires Conserves(p)
    ensures Advances(p, TurnStep(p, k).0)
  {
    FlushConserves(p, k);
    FlushAdvances(p, k);
    var a := FlushPhase(p, k);
    if a.goes {
      UpConserves(a.pump, k);
      UpAdvances(a.pump, k);
      var b := UpPhase(a.pump, k);
      if b.goes {
        InConserves(b.pump, k);
        InAdvances(b.pump, k);
        var c := InPhase(b.pump, k);
        if c.goes { DownAdvances(c.pump, k); }
      }
    }
  }

  /** A turn in which nothing stands in the way. */
  predicate Willing(p: Pump, k: Turn) {
    && k.flush.Moves? && k.flush.most >= |p.ws.retained| && k.send.Moves? && k.send.most >= 1
    && k.tcpRead.Gets? && k.tcpWrite.Gets? && k.tcpWrite.most >= MAX_RELAY_BYTES
  }

  lemma WillingFlush(p: Pump, k: Turn)
    requires Settled(p) && Willing(p, k)
    ensures var a := FlushPhase(p, k).pump;
            !a.waiting && a.ws.retained == [] && a.ws.transmitted == Accepted(p.ws) && a.tcp == p.tcp
            && a.pending == p.pending && a.offset == p.offset
  {
    FlushAccepts(p.ws, k.flush);
    assert p.ws.transmitted + [] == p.ws.transmitted;
  }

  lemma WillingDown(p: Pump, k: Turn)
    requires Conserves(p) && k.tcpWrite.Gets? && k.tcpWrite.most >= MAX_RELAY_BYTES
    ensures var d := DownPhase(p, k).pump;
            d.offset == |d.pending| && d.tcp.written == p.tcp.written + p.pending[p.offset..] && d.tcp.consumed == p.tcp.consumed
  {
    assert p.offset == |p.pending| ==> p.tcp.written + p.pending[p.offset..] == p.tcp.written;
  }

  /** Such a turn leaves nothing pending that was pending before, and takes in all the bytes it is given. */
  lemma WillingTurnMoves(p: Pump, k: Turn)
    requires Conserves(p) && Settled(p) && Willing(p, k) && TurnStep(p, k).1
    ensures var q := TurnStep(p, k).0;
            && p.tcp.written + p.pending[p.offset..] <= q.tcp.written && q.offset == |q.pending|
            && Accepted(p.ws) <= q.ws.transmitted
            && q.tcp.consumed == p.tcp.consumed + p.tcp.incoming[..Min(Min(k.tcpRead.most, BUFFER), |p.tcp.incoming|)]
  {
    var a := FlushPhase(p, k);
    FlushConserves(p, k);
    WillingFlush(p, k);
    var b := UpPhase(a.pump, k);
    UpConserves(a.pump, k);
    UpAdvances(a.pump, k);
    var c := InPhase(b.pump, k);
    WillingUp(a.pump, k);
    InConserves(b.pump, k);
    InAdvances(b.pump, k);
    WillingIn(b.pump, k);
    DownAdvances(c.pump, k);
    WillingDown(c.pump, k);
  }

  lemma WillingUp(p: Pump, k: Turn)
    requires !p.waiting && k.tcpRead.Gets?
    ensures var b := UpPhase(p, k).pump;
            && b.tcp.consumed == p.tcp.consumed + p.tcp.incoming[..Min(Min(k.tcpRead.most, BUFFER), |p.tcp.incoming|)]
            && b.tcp.written == p.tcp.written && b.pending == p.pending && b.offset == p.offset
  {
    assert p.tcp.incoming[..0] == [] && p.tcp.consumed + [] == p.tcp.consumed;
  }

  lemma WillingIn(p: Pump, k: Turn)
    requires p.offset <= |p.pending|
    ensures var c := InPhase(p, k).pump;
            c.tcp == p.tcp && (c.pending[c.offset..] == p.pending[p.offset..] || p.pending[p.offset..] == []) && c.offset <= |c.pending|
  {
  }

  /** A turn in which no call gets anything done, though none fails. */
  predicate Idle(p: Pump, k: Turn) {
    && (p.waiting ==> p.ws.retained != []) && k.flush == Moves(0) && k.tcpRead.Waits? && k.wsRead == Moves(0) && k.tcpWrite.Waits?
  }

  /** Such a turn changes nothing under way, and ends the loop if and only if something is held and the time has run out. */
  lemma StallsEndTheLoop(p: Pump, k: Turn)
    requires p.offset <= |p.pending| && Idle(p, k)
    ensures var (q, goes) := TurnStep(p, k);
            && q.tcp == p.tcp && q.ws == p.ws && q.pending[q.offset..] == p.pending[p.offset..]
            && (goes <==> !k.stalled || (!p.waiting && p.offset == |p.pending|))
  {
    assert p.ws.retained[..0] == [] && p.ws.retained[0..] == p.ws.retained && p.ws.transmitted + [] == p.ws.transmitted;
  }

  /** A failing call ends the loop in the turn that reaches it. So does a local write that takes nothing. */
  lemma FailuresEndTheLoop(p: Pump, k: Turn)
    requires p.offset <= |p.pending|
    ensures p.waiting && k.flush.Fails? ==> !TurnStep(p, k).1
    ensures !p.waiting && k.tcpRead.Gets? && k.tcpRead.most > 0 && p.tcp.incoming != [] && k.send.Fails? ==> !TurnStep(p, k).1
    ensures !p.waiting && k.tcpRead.Waits? && p.offset == |p.pending| && k.wsRead.Fails? ==> !TurnStep(p, k).1
    ensures !p.waiting && k.tcpRead.Waits? && p.offset < |p.pending| && (k.tcpWrite == Gets(0) || k.tcpWrite.Ends? || k.tcpWrite.Errs?) ==>
              !TurnStep(p, k).1
  {
  }

  predicate EndsLoop(inbox: seq<Frame>) { inbox != [] && !Relayable(inbox[0]) && !inbox[0].Ping? && !inbox[0].Pong? }

  /** The end or failure of the local stream ends the loop when it is read, and so does a frame that is no message, ping or pong. */
  lemma EndsEndTheLoop(p: Pump, k: Turn)
    requires p.offset <= |p.pending| && !p.waiting
    ensures k.tcpRead.Ends? || k.tcpRead.Errs? ==> !TurnStep(p, k).1
    ensures k.tcpRead.Waits? && p.offset == |p.pending| && k.wsRead == Moves(1) && EndsLoop(p.ws.inbox) ==> !TurnStep(p, k).1
  {
  }

  lemma UpIsPolite(p: Pump, k: Turn)
    requires Polite(p.ws)
    ensures Polite(UpPhase(p, k).pump.ws)
  {
    var tcp, ws, bytes, sent := UpCases(p, k);
    SendIsPolite(p.ws, bytes, k.send);
  }

  lemma InIsPolite(p: Pump, k: Turn)
    requires Polite(p.ws)
    ensures Polite(InPhase(p, k).pump.ws)
  {
    InReads(p, k);
    ReadIsPolite(p.ws, k.wsRead);
  }

  lemma FlushPhaseIsPolite(p: Pump, k: Turn)
    requires Polite(p.ws)
    ensures Polite(FlushPhase(p, k).pump.ws)
  {
    FlushIsPolite(p.ws, k.flush);
  }

  lemma TurnIsPolite(p: Pump, k: Turn)
    requires Conserves(p) && Polite(p.ws)
    ensures Polite(TurnStep(p, k).0.ws)
  {
    FlushConserves(p, k);
    FlushPhaseIsPolite(p, k);
    var a := FlushPhase(p, k);
    if a.goes {
      UpConserves(a.pump, k);
      UpIsPolite(a.pump, k);
      var b := UpPhase(a.pump, k);
      if b.goes {
        InConserves(b.pump, k);
        InIsPolite(b.pump, k);
        DownLeavesSocket(InPhase(b.pump, k).pump, k);
      }
    }
  }

  lemma DownLeavesSocket(p: Pump, k: Turn)
    requires p.offset <= |p.pending|
    ensures DownPhase(p, k).pump.ws == p.ws
  {
  }

  /** Every ping is answered with one pong, in every run. */
  lemma {:induction false} RunIsPolite(p: Pump, turns: seq<Turn>)
    requires Conserves(p) && Polite(p.ws)
    ensures Polite(Run(p, turns).ws)
    decreases |turns|
  {
    if turns != [] {
      TurnConserves(p, turns[0]);
      TurnIsPolite(p, turns[0]);
      var (q, goes) := TurnStep(p, turns[0]);
      if goes { RunIsPolite(q, turns[1..]); }
    }
  }
}

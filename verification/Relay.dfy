/** The relay between two message sockets: pings, pacing, and one pending message per direction. */
module Relay {
  import opened Wrappers
  import opened Sockets
  import opened Pacing

  const STALL := 5.0

  /**
   One side of the relay. `start`, `arrivals` and `forwards` are history: the limiter at the start, the sizes and times of
   the messages read, and the times at which they were handed to the other side.
   */
  datatype Side = Side(ws: Ws, pending: Option<seq<byte>>, ready: real, limiter: Limiter, writing: bool, since: real,
                       start: Limiter, arrivals: seq<Arrival>, forwards: seq<real>)

  function Fresh(ws: Ws, limit: Option<nat>, now: real): Side {
    Side(ws, None, now, Limiter(limit, now), false, now, Limiter(limit, now), [], [])
  }

  datatype Verdict = Goes | Closes | Aborts

  /** The calls of one step and the clock readings around them. */
  datatype Plan = Plan(read: Progress, readAt: real, send: Progress, sendAt: real)

  function FlushSide(e: Side, k: Progress, now: real): (Side, Verdict) {
    if !e.writing then (e, Goes)
    else
      var (ws, r) := FlushStep(e.ws, k);
      match r
      case Done => (e.(ws := ws, writing := false), Goes)
      case Blocked => (e.(ws := ws), if now - e.since > STALL then Aborts else Goes)
      case Broken => (e.(ws := ws), Aborts)
  }

  function ReadSide(source: Side, k: Plan): (Side, Verdict) {
    if source.pending.Some? then (source, Goes)
    else
      var (ws, r, f) := ReadStep(source.ws, k.read);
      var e := source.(ws := ws);
      if r.Blocked? then (e, Goes)
      else if r.Broken? then (e, Aborts)
      else if Relayable(f.value) then
        var size := |f.value.bytes|;
        var (due, limiter) := ReserveStep(e.limiter, size, k.readAt);
        (e.(pending := Some(f.value.bytes), ready := due, limiter := limiter, arrivals := e.arrivals + [Arrival(size, k.readAt)]), Goes)
      else if f.value.Ping? then (e.(writing := true, since := if e.writing then e.since else k.readAt), Goes)
      else if f.value.Pong? then (e, Goes)
      else if f.value.CloseFrame? then (e, Closes)
      else (e, Aborts)
  }

  function ForwardSide(source: Side, destination: Side, k: Plan): (Side, Side, Verdict) {
    if destination.writing || k.sendAt < source.ready || source.pending.None? then (source, destination, Goes)
    else
      var (ws, r) := SendStep(destination.ws, Binary(source.pending.value), k.send);
      var taken := source.(pending := None, forwards := source.forwards + [k.sendAt]);
      match r
      case Done => (taken, destination.(ws := ws), Goes)
      case Blocked => (taken, destination.(ws := ws, writing := true, since := k.sendAt), Goes)
      case Broken => (taken, destination.(ws := ws), Aborts)
  }

  function RelayStep(source: Side, destination: Side, k: Plan): (Side, Side, Verdict) {
    var (s, v) := ReadSide(source, k);
    if !v.Goes? then (s, destination, v) else ForwardSide(s, destination, k)
  }

  class RelayEndpoint {
    const socket: WebSocket
    const limiter: RateLimiter
    var pending: Option<seq<byte>>
    var ready: real
    var writing: bool
    var writeStarted: real
    ghost const start: Limiter
    ghost var arrivals: seq<Arrival>
    ghost var forwards: seq<real>

    ghost function Value(): Side
      reads this, socket, limiter
    {
      Side(socket.Value(), pending, ready, limiter.Value(), writing, writeStarted, start, arrivals, forwards)
    }

    constructor (socket: WebSocket, bitrate: Option<nat>, now: real)
      ensures Value() == Fresh(socket.Value(), bitrate, now) && this.socket == socket && fresh(limiter)
    {
      this.socket := socket;
      var l := new RateLimiter(bitrate, now);
      limiter, start := l, Limiter(bitrate, now);
      pending, ready, writing, writeStarted, arrivals, forwards := None, now, false, now, [], [];
    }

    method Flush(k: Progress, now: real) returns (v: Verdict)
      modifies this`writing, socket
      ensures (Value(), v) == FlushSide(old(Value()), k, now)
    {
      if !writing { return Goes; }
      var r := socket.Flush(k);
      match r
      case Done =>
        writing := false;
        return Goes;
      case Blocked => return if now - writeStarted > STALL then Aborts else Goes;
      case Broken => return Aborts;
    }

    method Read(k: Plan) returns (v: Verdict)
      modifies this, socket, limiter
      ensures (Value(), v) == ReadSide(old(Value()), k)
    {
      if pending.Some? { return Goes; }
      var r, f := socket.Read(k.read);
      if r.Blocked? { return Goes; }
      if r.Broken? { return Aborts; }
      if Relayable(f.value) {
        ready := limiter.Reserve(|f.value.bytes|, k.readAt);
        pending := Some(f.value.bytes);
        arrivals := arrivals + [Arrival(|f.value.bytes|, k.readAt)];
        return Goes;
      }
      if f.value.Ping? {
        if !writing { writeStarted := k.readAt; }
        writing := true;
        return Goes;
      }
      return if f.value.Pong? then Goes else if f.value.CloseFrame? then Closes else Aborts;
    }
  }

  method Step(source: RelayEndpoint, destination: RelayEndpoint, k: Plan) returns (v: Verdict)
    requires source != destination && source.socket != destination.socket && source.limiter != destination.limiter
    modifies source, source.socket, source.limiter, destination, destination.socket
    ensures (source.Value(), destination.Value(), v) == RelayStep(old(source.Value()), old(destination.Value()), k)
  {
    v := source.Read(k);
    if !v.Goes? { return; }
    if !destination.writing && k.sendAt >= source.ready && source.pending.Some? {
      var message := source.pending.value;
      source.pending, source.forwards := None, source.forwards + [k.sendAt];
      var r := destination.socket.Send(Binary(message), k.send);
      match r
      case Done =>
      case Blocked => destination.writing, destination.writeStarted := true, k.sendAt;
      case Broken => v := Aborts;
    }
  }

  // -----------------------------------------------------------------------------------------------------------------
  // Every message at most once, in order
  // -----------------------------------------------------------------------------------------------------------------

  function Waiting(pending: Option<seq<byte>>): seq<seq<byte>> { if pending.None? then [] else [pending.value] }

  /** What one side has read is what the other has accepted, in order, and at most one message between them. */
  ghost predicate Forwards(source: Side, destination: Side) {
    Balanced(source.ws.received, source.pending, Accepted(destination.ws))
  }

  ghost predicate Balanced(received: seq<Frame>, pending: Option<seq<byte>>, accepted: seq<Frame>) {
    && Payloads(received) == Payloads(accepted) + Waiting(pending)
    && (pending.Some? ==> |pending.value| <= MAX_RELAY_BYTES)
  }

  /** A side that is not writing holds nothing back. */
  ghost predicate Settled(e: Side) { !e.writing ==> e.ws.retained == [] }

  /** History: each message read was forwarded, or is pending; none before it was due, none read before the last was gone. */
  ghost predicate Timed(e: Side, now: real) {
    && |e.arrivals| == |e.forwards| + |Waiting(e.pending)|
    && e.limiter == After(e.start, e.arrivals)
    && (e.pending.Some? ==> e.ready == Due(e.start, e.arrivals, |e.arrivals| - 1))
    && Ordered(e.start, e.arrivals, e.forwards, now)
  }

  ghost predicate Ordered(start: Limiter, arrivals: seq<Arrival>, forwards: seq<real>, now: real)
    requires |forwards| <= |arrivals|
  {
    && (forall i | 0 <= i < |forwards| :: Due(start, arrivals, i) <= forwards[i] <= now)
    && (forall i | 0 <= i < |forwards| && i + 1 < |arrivals| :: forwards[i] <= arrivals[i + 1].at)
  }

  lemma FlushKeeps(source: Side, destination: Side, k: Progress, now: real)
    requires Forwards(source, destination)
    ensures Forwards(source, FlushSide(destination, k, now).0)
    ensures Settled(destination) ==> Settled(FlushSide(destination, k, now).0)
  {
    FlushAccepts(destination.ws, k);
  }

  /** Reading keeps both directions: the message read is pending, and a pong is no message. */
  lemma ReadKeeps(source: Side, destination: Side, k: Plan)
    requires Forwards(source, destination) && Forwards(destination, source)
    ensures Forwards(ReadSide(source, k).0, destination) && Forwards(destination, ReadSide(source, k).0)
    ensures Settled(source) && ReadSide(source, k).1.Goes? ==> Settled(ReadSide(source, k).0)
  {
    if source.pending.None? {
      ReadCases(source, k);
      var (ws, r, f) := ReadStep(source.ws, k.read);
      ReadAccepts(source.ws, k.read);
      PongBalances(destination.ws.received, destination.pending, Accepted(source.ws), Accepted(ws));
      if r.Done? { ReadBalances(source.ws.received, f.value, Accepted(destination.ws)); }
    }
  }

  lemma ReadCases(source: Side, k: Plan)
    requires source.pending.None?
    ensures var (e, v) := ReadSide(source, k);
            var (ws, r, f) := ReadStep(source.ws, k.read);
            && e.ws == ws
            && e.pending == (if r.Done? && Relayable(f.value) then Some(f.value.bytes) else None)
            && (v.Goes? && !e.writing ==> !source.writing && ws.retained == source.ws.retained)
            && (v.Goes? && !source.writing && e.writing ==> r.Done? && f.value.Ping?)
  {
    var (ws, r, f) := ReadStep(source.ws, k.read);
    if r.Done? { assert source.ws.retained + [] == source.ws.retained; }
  }

  lemma PongBalances(received: seq<Frame>, pending: Option<seq<byte>>, before: seq<Frame>, after: seq<Frame>)
    requires Balanced(received, pending, before) && Payloads(after) == Payloads(before)
    ensures Balanced(received, pending, after)
  {
  }

  lemma ReadBalances(received: seq<Frame>, f: Frame, accepted: seq<Frame>)
    requires Balanced(received, None, accepted)
    ensures Balanced(received + [f], if Relayable(f) then Some(f.bytes) else None, accepted)
  {
    PayloadsAppend(received, f);
    assert Payloads(accepted) + [] == Payloads(accepted);
  }

  lemma SendBalances(received: seq<Frame>, message: seq<byte>, ws: Ws, k: Progress)
    requires Balanced(received, Some(message), Accepted(ws))
    ensures Balanced(received, None, Accepted(SendStep(ws, Binary(message), k).0))
  {
    SendAccepts(ws, Binary(message), k);
    PayloadsAppend(Accepted(ws), Binary(message));
    assert Payloads(received) + [] == Payloads(received);
  }

  lemma ForwardKeeps(source: Side, destination: Side, k: Plan)
    requires Forwards(source, destination) && Forwards(destination, source)
    ensures var (s, d, v) := ForwardSide(source, destination, k);
            Forwards(s, d) && Forwards(d, s)
  {
    if source.pending.Some? {
      SendAccepts(destination.ws, Binary(source.pending.value), k.send);
      SendBalances(source.ws.received, source.pending.value, destination.ws, k.send);
    }
  }

  lemma ForwardSettles(source: Side, destination: Side, k: Plan)
    ensures var (s, d, v) := ForwardSide(source, destination, k);
            (Settled(source) ==> Settled(s)) && (Settled(destination) && v.Goes? ==> Settled(d))
  {
    if source.pending.Some? { SendAccepts(destination.ws, Binary(source.pending.value), k.send); }
  }

  lemma StepKeeps(source: Side, destination: Side, k: Plan)
    requires Forwards(source, destination) && Forwards(destination, source)
    ensures var (s, d, v) := RelayStep(source, destination, k);
            && Forwards(s, d) && Forwards(d, s)
            && (Settled(source) && Settled(destination) && v.Goes? ==> Settled(s) && Settled(d))
  {
    ReadKeeps(source, destination, k);
    ForwardKeeps(ReadSide(source, k).0, destination, k);
    ForwardSettles(ReadSide(source, k).0, destination, k);
  }

  /** A step in which nothing stands in the way: the next message is read, due, and handed over at once. */
  predicate Unhindered(source: Side, destination: Side, k: Plan) {
    && source.pending.None? && source.ws.inbox != [] && Relayable(source.ws.inbox[0])
    && k.read.Moves? && k.read.most > 0 && k.send.Moves? && !destination.writing
    && k.sendAt >= ReserveStep(source.limiter, |source.ws.inbox[0].bytes|, k.readAt).0
  }

  /** Such a step passes the message on; one that is still pending passes as soon as it is due and the way is free. */
  lemma MessagesPass(source: Side, destination: Side, k: Plan)
    ensures Unhindered(source, destination, k) ==>
              var (s, d, v) := RelayStep(source, destination, k);
              v.Goes? && s.pending.None? && Accepted(d.ws) == Accepted(destination.ws) + [source.ws.inbox[0]]
    ensures source.pending.Some? && k.sendAt >= source.ready && !destination.writing && k.send.Moves? ==>
              var (s, d, v) := RelayStep(source, destination, k);
              v.Goes? && s.pending.None? && Accepted(d.ws) == Accepted(destination.ws) + [Binary(source.pending.value)]
  {
    if source.pending.Some? {
      SendAccepts(destination.ws, Binary(source.pending.value), k.send);
    } else if Unhindered(source, destination, k) {
      SendAccepts(destination.ws, source.ws.inbox[0], k.send);
    }
  }

  // -----------------------------------------------------------------------------------------------------------------
  // Pacing at the time of forwarding
  // -----------------------------------------------------------------------------------------------------------------

  lemma DueStays(l: Limiter, arrivals: seq<Arrival>, a: Arrival, i: nat)
    requires i < |arrivals|
    ensures Due(l, arrivals + [a], i) == Due(l, arrivals, i)
  {
    assert (arrivals + [a])[..i] == arrivals[..i];
  }

  lemma ArrivalKeepsOrder(start: Limiter, arrivals: seq<Arrival>, forwards: seq<real>, now: real, a: Arrival)
    requires |forwards| == |arrivals| && Ordered(start, arrivals, forwards, now) && now <= a.at
    ensures Ordered(start, arrivals + [a], forwards, a.at)
  {
    forall i | 0 <= i < |forwards| ensures Due(start, arrivals + [a], i) <= forwards[i] <= a.at {
      DueStays(start, arrivals, a, i);
    }
  }

  lemma ReadKeepsTime(e: Side, k: Plan, now: real)
    requires Timed(e, now) && now <= k.readAt
    ensures Timed(ReadSide(e, k).0, k.readAt)
  {
    var (ws, r, f) := ReadStep(e.ws, k.read);
    if e.pending.None? && r.Done? && Relayable(f.value) {
      var a := Arrival(|f.value.bytes|, k.readAt);
      ArrivalKeepsOrder(e.start, e.arrivals, e.forwards, now, a);
      assert (e.arrivals + [a])[..|e.arrivals|] == e.arrivals;
    }
  }

  lemma TimePasses(e: Side, now: real, later: real)
    requires Timed(e, now) && now <= later
    ensures Timed(e, later)
  {
  }

  lemma HandOverKeepsTime(source: Side, at: real, now: real)
    requires Timed(source, now) && source.pending.Some? && source.ready <= at && now <= at
    ensures Timed(source.(pending := None, forwards := source.forwards + [at]), at)
  {
  }

  lemma ForwardKeepsTime(source: Side, destination: Side, k: Plan, now: real)
    requires Timed(source, now) && Timed(destination, now) && now <= k.sendAt
    ensures var (s, d, _) := ForwardSide(source, destination, k); Timed(s, k.sendAt) && Timed(d, k.sendAt)
  {
    TimePasses(source, now, k.sendAt);
    TimePasses(destination, now, k.sendAt);
    if source.pending.Some? && source.ready <= k.sendAt { HandOverKeepsTime(source, k.sendAt, now); }
  }

  /**
   Between two hand-overs the limit covers every message strictly between them. A window of real time so exceeds the limit
   by at most the two messages at its ends; which windows do is the subject of `HandOver`.
   */
  lemma ForwardingKeepsTheLimit(e: Side, now: real, i: nat, j: nat)
    requires Timed(e, now) && Paced(e.start) && i < j < |e.forwards|
    ensures 0.0 <= Span(e.arrivals, i + 1, j, e.start.limit.value) <= e.forwards[j] - e.forwards[i]
  {
    AfterStep(e.start, e.arrivals, i + 1);
    if i + 1 < j { DueTimesKeepTheLimit(e.start, e.arrivals, i + 1, j); }
  }

  // -----------------------------------------------------------------------------------------------------------------
  // The loop over both directions
  // -----------------------------------------------------------------------------------------------------------------

  /** One turn: both flushes, then each direction, the initiator's first. */
  datatype Turn = Turn(flushTarget: Progress, flushInitiator: Progress, at: real, up: Plan, down: Plan)

  datatype Pair = Pair(target: Side, initiator: Side)

  function TurnStep(p: Pair, k: Turn): (Pair, Verdict) {
    var (t1, v1) := FlushSide(p.target, k.flushTarget, k.at);
    if !v1.Goes? then (Pair(t1, p.initiator), v1)
    else
      var (i2, v2) := FlushSide(p.initiator, k.flushInitiator, k.at);
      if !v2.Goes? then (Pair(t1, i2), v2)
      else
        var (i3, t3, v3) := RelayStep(i2, t1, k.up);
        if !v3.Goes? then (Pair(t3, i3), v3)
        else
          var (t4, i4, v4) := RelayStep(t3, i3, k.down);
          (Pair(t4, i4), v4)
  }

  function Run(p: Pair, turns: seq<Turn>): Pair
    decreases |turns|
  {
    if turns == [] then p
    else
      var (q, v) := TurnStep(p, turns[0]);
      if v.Goes? then Run(q, turns[1..]) else q
  }

  /** Clock readings of a turn in the order they are taken. */
  predicate Clocked(k: Turn, now: real) {
    now <= k.at <= k.up.readAt <= k.up.sendAt <= k.down.readAt <= k.down.sendAt
  }

  ghost predicate PairOk(p: Pair, now: real) {
    && Forwards(p.initiator, p.target) && Forwards(p.target, p.initiator)
    && Timed(p.initiator, now) && Timed(p.target, now)
  }

  lemma FreshPairIsOk(target: Ws, initiator: Ws, limit: Option<nat>, now: real)
    requires target.received == [] && initiator.received == [] && Accepted(target) == [] && Accepted(initiator) == []
    ensures PairOk(Pair(Fresh(target, limit, now), Fresh(initiator, limit, now)), now)
  {
  }

  lemma FlushKeepsPair(p: Pair, k: Progress, at: real, now: real)
    requires PairOk(p, now)
    ensures PairOk(p.(target := FlushSide(p.target, k, at).0), now) && PairOk(p.(initiator := FlushSide(p.initiator, k, at).0), now)
  {
    FlushKeeps(p.initiator, p.target, k, at);
    FlushKeeps(p.target, p.initiator, k, at);
    FlushKeepsTheRest(p.target, k, at, now);
    FlushKeepsTheRest(p.initiator, k, at, now);
  }

  lemma FlushKeepsTheRest(e: Side, k: Progress, at: real, now: real)
    requires Timed(e, now)
    ensures var f := FlushSide(e, k, at).0; Timed(f, now) && f.ws.received == e.ws.received && f.pending == e.pending
  {
  }

  lemma StepKeepsPair(source: Side, destination: Side, k: Plan, now: real)
    requires PairOk(Pair(destination, source), now) && now <= k.readAt <= k.sendAt
    ensures var (s, d, v) := RelayStep(source, destination, k); PairOk(Pair(d, s), k.sendAt)
  {
    StepKeeps(source, destination, k);
    ReadKeepsTime(source, k, now);
    TimePasses(destination, now, k.readAt);
    TimePasses(destination, now, k.sendAt);
    var (s, v) := ReadSide(source, k);
    TimePasses(s, k.readAt, k.sendAt);
    ForwardKeepsTime(s, destination, k, k.readAt);
  }

  lemma PairTimePasses(p: Pair, now: real, later: real)
    requires PairOk(p, now) && now <= later
    ensures PairOk(p, later) && PairOk(Pair(p.initiator, p.target), later)
  {
    TimePasses(p.target, now, later);
    TimePasses(p.initiator, now, later);
  }

  /** Whatever every call does and however the turn ends, nothing is lost, repeated, reordered or sent too early. */
  lemma TurnKeeps(p: Pair, k: Turn, now: real)
    requires PairOk(p, now) && Clocked(k, now)
    ensures PairOk(TurnStep(p, k).0, k.down.sendAt)
  {
    var end := k.down.sendAt;
    var (t1, v1) := FlushSide(p.target, k.flushTarget, k.at);
    FlushKeepsPair(p, k.flushTarget, k.at, now);
    var q := Pair(t1, p.initiator);
    PairTimePasses(q, now, end);
    if v1.Goes? {
      var (i2, v2) := FlushSide(p.initiator, k.flushInitiator, k.at);
      FlushKeepsPair(q, k.flushInitiator, k.at, now);
      PairTimePasses(Pair(t1, i2), now, end);
      if v2.Goes? {
        var (i3, t3, v3) := RelayStep(i2, t1, k.up);
        StepKeepsPair(i2, t1, k.up, now);
        PairTimePasses(Pair(t3, i3), k.up.sendAt, end);
        if v3.Goes? { SecondStepKeeps(t3, i3, k.down, k.up.sendAt); }
      }
    }
  }

  lemma SecondStepKeeps(target: Side, initiator: Side, k: Plan, now: real)
    requires PairOk(Pair(target, initiator), now) && now <= k.readAt <= k.sendAt
    ensures var (t, i, _) := RelayStep(target, initiator, k); PairOk(Pair(t, i), k.sendAt)
  {
    PairTimePasses(Pair(target, initiator), now, now);
    StepKeepsPair(target, initiator, k, now);
    var (t, i, _) := RelayStep(target, initiator, k);
    PairTimePasses(Pair(i, t), k.sendAt, k.sendAt);
  }

  method FlushBoth(target: RelayEndpoint, initiator: RelayEndpoint, k: Turn) returns (v: Verdict)
    requires target != initiator && target.socket != initiator.socket
    modifies target, target.socket, initiator, initiator.socket
    ensures var (t, tv) := FlushSide(old(target.Value()), k.flushTarget, k.at);
            var (i, iv) := FlushSide(old(initiator.Value()), k.flushInitiator, k.at);
            && target.Value() == t && v == (if tv.Goes? then iv else tv)
            && initiator.Value() == if tv.Goes? then i else old(initiator.Value())
  {
    v := target.Flush(k.flushTarget, k.at);
    if v.Goes? { v := initiator.Flush(k.flushInitiator, k.at); }
  }

  method Turning(target: RelayEndpoint, initiator: RelayEndpoint, k: Turn) returns (v: Verdict)
    requires target != initiator && target.socket != initiator.socket && target.limiter != initiator.limiter
    modifies target, target.socket, target.limiter, initiator, initiator.socket, initiator.limiter
    ensures (Pair(target.Value(), initiator.Value()), v) == TurnStep(old(Pair(target.Value(), initiator.Value())), k)
  {
    v := FlushBoth(target, initiator, k);
    if v.Goes? {
      v := Step(initiator, target, k.up);
      if v.Goes? { v := Step(target, initiator, k.down); }
    }
  }

  ghost predicate AllClocked(turns: seq<Turn>, now: real)
    decreases |turns|
  {
    turns == [] || (Clocked(turns[0], now) && AllClocked(turns[1..], turns[0].down.sendAt))
  }

  /** Relays until a side closes, an error ends it, or no more turns are given. */
  method RelayPair(target: RelayEndpoint, initiator: RelayEndpoint, turns: seq<Turn>, ghost start: real)
    returns (closed: bool, ghost now: real)
    requires target != initiator && target.socket != initiator.socket && target.limiter != initiator.limiter
    requires PairOk(Pair(target.Value(), initiator.Value()), start) && AllClocked(turns, start)
    modifies target, target.socket, target.limiter, initiator, initiator.socket, initiator.limiter
    ensures PairOk(Pair(target.Value(), initiator.Value()), now) && start <= now
    ensures Pair(target.Value(), initiator.Value()) == Run(old(Pair(target.Value(), initiator.Value())), turns)
  {
    now := start;
    ghost var all := Run(Pair(target.Value(), initiator.Value()), turns);
    for i := 0 to |turns|
      invariant Run(Pair(target.Value(), initiator.Value()), turns[i..]) == all
      invariant PairOk(Pair(target.Value(), initiator.Value()), now) && start <= now && AllClocked(turns[i..], now)
    {
      assert turns[i..][0] == turns[i] && turns[i..][1..] == turns[i + 1..];
      TurnKeeps(Pair(target.Value(), initiator.Value()), turns[i], now);
      var v := Turning(target, initiator, turns[i]);
      now := turns[i].down.sendAt;
      if !v.Goes? { return v.Closes?, now; }
    }
    return false, now;
  }

  // -----------------------------------------------------------------------------------------------------------------
  // Endings
  // -----------------------------------------------------------------------------------------------------------------

  /** What is read decides how it goes on: messages, pings and pongs do, a closing frame closes, anything else is an error. */
  lemma FramesDecide(e: Side, k: Plan)
    requires e.pending.None? && e.ws.inbox != [] && k.read.Moves? && k.read.most > 0
    ensures var f, v := e.ws.inbox[0], ReadSide(e, k).1;
            && (v.Goes? <==> (f.Binary? && |f.bytes| <= MAX_RELAY_BYTES) || f.Ping? || f.Pong?)
            && (v.Closes? <==> f.CloseFrame?)
  {
  }

  /** A turn ends the relay in failure if a call fails that it reaches: the flushes of sides that are writing come first. */
  lemma FailuresAbort(p: Pair, k: Turn)
    ensures p.target.writing && k.flushTarget.Fails? ==> TurnStep(p, k) == (p, Aborts)
    ensures !p.target.writing && p.initiator.writing && k.flushInitiator.Fails? ==> TurnStep(p, k) == (p, Aborts)
    ensures !p.target.writing && !p.initiator.writing && p.initiator.pending.None? && k.up.read.Fails? ==> TurnStep(p, k) == (p, Aborts)
  {
  }

  // -----------------------------------------------------------------------------------------------------------------
  // Stalls
  // -----------------------------------------------------------------------------------------------------------------

  /** A side that cannot flush ends the relay once it has been writing for more than five seconds, and not before. */
  lemma StallsAbort(e: Side, now: real, most: nat)
    requires e.writing && most < |e.ws.retained|
    ensures FlushSide(e, Moves(most), now).1 == if now > e.since + 5.0 then Aborts else Goes
    ensures FlushSide(e, Moves(most), now).0.writing && FlushSide(e, Moves(most), now).0.since == e.since
  {
  }

  /** What a step does to the times from which sides have been writing. */
  lemma StepKeepsSince(source: Side, destination: Side, k: Plan)
    ensures var (s, d, v) := RelayStep(source, destination, k);
            && (source.writing ==> s.writing && s.since == source.since) && (destination.writing ==> d.writing && d.since == destination.since)
            && (v.Goes? && !source.writing && s.writing ==> s.since == k.readAt)
            && (v.Goes? && !destination.writing && d.writing ==> d.since == k.sendAt)
  {
  }

  /** Over a turn a side that goes on writing is timed from where it began. */
  lemma StallsAreTimedFromTheirStart(p: Pair, k: Turn)
    requires TurnStep(p, k).1.Goes?
    ensures var (q, _) := TurnStep(p, k);
            && (FlushSide(p.target, k.flushTarget, k.at).0.writing ==> q.target.writing && q.target.since == p.target.since)
            && (FlushSide(p.initiator, k.flushInitiator, k.at).0.writing ==> q.initiator.writing && q.initiator.since == p.initiator.since)
  {
    var t1, i2 := FlushSide(p.target, k.flushTarget, k.at).0, FlushSide(p.initiator, k.flushInitiator, k.at).0;
    FlushKeepsSince(p.target, k.flushTarget, k.at);
    FlushKeepsSince(p.initiator, k.flushInitiator, k.at);
    StepKeepsSince(i2, t1, k.up);
    var (i3, t3, _) := RelayStep(i2, t1, k.up);
    StepKeepsSince(t3, i3, k.down);
  }

  lemma FlushKeepsSince(e: Side, k: Progress, at: real)
    ensures var f := FlushSide(e, k, at).0; f.since == e.since && (f.writing ==> e.writing)
  {
  }

  // -----------------------------------------------------------------------------------------------------------------
  // Pings
  // -----------------------------------------------------------------------------------------------------------------

  lemma FlushSideIsPolite(e: Side, k: Progress, at: real)
    requires Polite(e.ws)
    ensures Polite(FlushSide(e, k, at).0.ws)
  {
    FlushIsPolite(e.ws, k);
  }

  /** A step reads from the one socket and sends on the other, or leaves them alone. */
  lemma ReadTouches(source: Side, k: Plan)
    ensures ReadSide(source, k).0.ws in {source.ws, ReadStep(source.ws, k.read).0}
  {
  }

  lemma ForwardTouches(source: Side, destination: Side, k: Plan)
    ensures var (s, d, _) := ForwardSide(source, destination, k);
            && s.ws == source.ws
            && (d.ws == destination.ws
                || (source.pending.Some? && d.ws == SendStep(destination.ws, Binary(source.pending.value), k.send).0))
  {
  }

  lemma ReadSideIsPolite(source: Side, k: Plan)
    requires Polite(source.ws)
    ensures Polite(ReadSide(source, k).0.ws)
  {
    ReadTouches(source, k);
    ReadIsPolite(source.ws, k.read);
  }

  lemma ForwardIsPolite(source: Side, destination: Side, k: Plan)
    requires Polite(source.ws) && Polite(destination.ws)
    ensures var (s, d, _) := ForwardSide(source, destination, k); Polite(s.ws) && Polite(d.ws)
  {
    ForwardTouches(source, destination, k);
    if source.pending.Some? { SendIsPolite(destination.ws, source.pending.value, k.send); }
  }

  lemma StepIsPolite(source: Side, destination: Side, k: Plan)
    requires Polite(source.ws) && Polite(destination.ws)
    ensures var (s, d, _) := RelayStep(source, destination, k); Polite(s.ws) && Polite(d.ws)
  {
    ReadSideIsPolite(source, k);
    ForwardIsPolite(ReadSide(source, k).0, destination, k);
  }

  lemma TurnIsPolite(p: Pair, k: Turn)
    requires Polite(p.target.ws) && Polite(p.initiator.ws)
    ensures var (q, _) := TurnStep(p, k); Polite(q.target.ws) && Polite(q.initiator.ws)
  {
    FlushSideIsPolite(p.target, k.flushTarget, k.at);
    FlushSideIsPolite(p.initiator, k.flushInitiator, k.at);
    var t1, i2 := FlushSide(p.target, k.flushTarget, k.at).0, FlushSide(p.initiator, k.flushInitiator, k.at).0;
    StepIsPolite(i2, t1, k.up);
    var (i3, t3, _) := RelayStep(i2, t1, k.up);
    StepIsPolite(t3, i3, k.down);
  }

  /** Every ping is answered with one pong, on both sides, in every run. */
  lemma {:induction false} RunIsPolite(p: Pair, turns: seq<Turn>)
    requires Polite(p.target.ws) && Polite(p.initiator.ws)
    ensures Polite(Run(p, turns).target.ws) && Polite(Run(p, turns).initiator.ws)
    decreases |turns|
  {
    if turns != [] {
      TurnIsPolite(p, turns[0]);
      var (q, v) := TurnStep(p, turns[0]);
      if v.Goes? { RunIsPolite(q, turns[1..]); }
    }
  }
}

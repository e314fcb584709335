/** Nothing stays on the way: under any schedule that goes on giving every part its turn, all that was given arrives. */
module Throughput {
  import opened Wrappers
  import opened Sockets
  import Bridge
  import Relay
  import Pacing
  import opened Tunnel
  import opened Fairness

  // -----------------------------------------------------------------------------------------------------------------
  // What is on the way, weighed by how far it still has to go
  // -----------------------------------------------------------------------------------------------------------------

  /** The bytes of a message; a ping weighs more than the pong it will be answered with. */
  function Load(f: Frame): nat { if Relayable(f) then |f.bytes| else if f.Ping? then 20 else 0 }

  function Weight(each: nat, frames: seq<Frame>): nat {
    if frames == [] then 0 else each + Load(frames[0]) + Weight(each, frames[1..])
  }

  lemma {:induction false} WeightSplit(each: nat, a: seq<Frame>, b: seq<Frame>)
    ensures Weight(each, a + b) == Weight(each, a) + Weight(each, b)
  {
    if a == [] {
      assert a + b == b;
    } else {
      assert (a + b)[0] == a[0] && (a + b)[1..] == a[1..] + b;
      WeightSplit(each, a[1..], b);
    }
  }

  lemma WeightOfOne(each: nat, f: Frame)
    ensures Weight(each, [f]) == each + Load(f)
  {
    assert [f][1..] == [];
  }

  /** One place nearer to the end each frame weighs one less. */
  lemma {:induction false} WeightDrops(each: nat, frames: seq<Frame>)
    ensures Weight(each, frames) + |frames| == Weight(each + 1, frames)
  {
    if frames != [] { WeightDrops(each, frames[1..]); }
  }

  /** What a socket holds back, and what it sent out that has not arrived. */
  function Outgoing(each: nat, ws: Ws, count: nat): nat
    requires count <= |ws.transmitted|
  {
    Weight(each + 1, ws.retained) + Weight(each, ws.transmitted[count..])
  }

  lemma FlushMoves(each: nat, ws: Ws, k: Progress, count: nat) returns (after: Ws, r: Outcome)
    requires count <= |ws.transmitted|
    ensures (after, r) == FlushStep(ws, k) && count <= |after.transmitted|
    ensures after.inbox == ws.inbox && Outgoing(each, after, count) <= Outgoing(each, ws, count)
    ensures after != ws ==> Outgoing(each, after, count) < Outgoing(each, ws, count)
    ensures k.Moves? && k.most >= 1 && ws.retained != [] ==> after != ws
    ensures r.Done? ==> after.retained == []
  {
    var t := FlushStep(ws, k);
    after, r := t.0, t.1;
    if k.Moves? {
      var n := Min(k.most, |ws.retained|);
      var moved, kept := ws.retained[..n], ws.retained[n..];
      assert ws.retained == moved + kept;
      WeightSplit(each + 1, moved, kept);
      WeightDrops(each, moved);
      assert (ws.transmitted + moved)[count..] == ws.transmitted[count..] + moved;
      WeightSplit(each, ws.transmitted[count..], moved);
      if n == 0 { assert kept == ws.retained && ws.transmitted + moved == ws.transmitted; }
    }
  }

  lemma SendMoves(each: nat, ws: Ws, f: Frame, k: Progress, count: nat) returns (after: Ws, r: Outcome)
    requires count <= |ws.transmitted|
    ensures (after, r) == SendStep(ws, f, k) && count <= |after.transmitted|
    ensures after.inbox == ws.inbox && Outgoing(each, after, count) <= Outgoing(each, ws, count) + each + 1 + Load(f)
  {
    var holding := ws.(retained := ws.retained + [f]);
    WeightSplit(each + 1, ws.retained, [f]);
    WeightOfOne(each + 1, f);
    after, r := FlushMoves(each, holding, k, count);
  }

  /** Reading takes the first frame off the inbox; a ping leaves a pong behind. */
  lemma ReadMoves(each: nat, out: nat, ws: Ws, k: Progress, count: nat) returns (after: Ws, r: Outcome, f: Option<Frame>)
    requires count <= |ws.transmitted| && out <= 10
    ensures (after, r, f) == ReadStep(ws, k) && count <= |after.transmitted| && (f.Some? <==> r.Done?)
    ensures !r.Done? ==> after == ws
    ensures r.Done? ==> Weight(each, after.inbox) + each + Load(f.value) == Weight(each, ws.inbox)
    ensures r.Done? ==> Outgoing(out, after, count) == Outgoing(out, ws, count) + if f.value.Ping? then out + 1 else 0
    ensures k.Moves? && k.most >= 1 && ws.inbox != [] ==> r.Done?
  {
    var t := ReadStep(ws, k);
    after, r, f := t.0, t.1, t.2;
    if r.Done? {
      assert ws.retained + [] == ws.retained;
      WeightSplit(out + 1, ws.retained, [Pong]);
      WeightOfOne(out + 1, Pong);
    }
  }

  // -----------------------------------------------------------------------------------------------------------------
  // A bridge
  // -----------------------------------------------------------------------------------------------------------------

  function Unwritten(p: Bridge.Pump): nat
    requires p.offset <= |p.pending|
  {
    |p.pending| - p.offset
  }

  predicate Countable(p: Bridge.Pump, count: nat) { p.offset <= |p.pending| <= MAX_RELAY_BYTES && count <= |p.ws.transmitted| }

  function EndRank(p: Bridge.Pump, count: nat): nat
    requires Countable(p, count)
  {
    9 * |p.tcp.incoming| + Outgoing(6, p.ws, count) + Weight(1, p.ws.inbox) + Unwritten(p)
  }

  predicate SameLoad(p: Bridge.Pump, q: Bridge.Pump)
    requires p.offset <= |p.pending| && q.offset <= |q.pending|
  {
    q.tcp.incoming == p.tcp.incoming && q.ws == p.ws && Unwritten(q) == Unwritten(p)
  }

  /** Either everything is where it was, or something has come nearer to its end. */
  predicate Eases(p: Bridge.Pump, q: Bridge.Pump, count: nat) {
    && Countable(p, count) && Countable(q, count)
    && (SameLoad(p, q) || EndRank(q, count) < EndRank(p, count))
  }

  predicate Lighter(p: Bridge.Pump, q: Bridge.Pump, count: nat) {
    Countable(p, count) && Countable(q, count) && EndRank(q, count) < EndRank(p, count)
  }

  lemma FlushEases(p: Bridge.Pump, k: Bridge.Turn, count: nat) returns (a: Bridge.Phase)
    requires Countable(p, count)
    ensures a == Bridge.FlushPhase(p, k) && Eases(p, a.pump, count)
    ensures a.goes && p.waiting && p.ws.retained != [] && k.flush.Moves? && k.flush.most >= 1 ==> Lighter(p, a.pump, count)
    ensures a.goes && !(p.waiting && p.ws.retained != []) ==> !a.pump.waiting
  {
    a := Bridge.FlushPhase(p, k);
    if p.waiting { var _, _ := FlushMoves(6, p.ws, k.flush, count); }
  }

  lemma UpEases(p: Bridge.Pump, k: Bridge.Turn, count: nat) returns (b: Bridge.Phase)
    requires Countable(p, count)
    ensures b == Bridge.UpPhase(p, k)
    ensures b.goes ==> Eases(p, b.pump, count)
    ensures b.goes && !p.waiting && p.tcp.incoming != [] && k.tcpRead.Gets? && k.tcpRead.most >= 1 ==> Lighter(p, b.pump, count)
  {
    b := Bridge.UpPhase(p, k);
    var (tcp, r, bytes) := TcpReadStep(p.tcp, Bridge.BUFFER, k.tcpRead);
    if !p.waiting && r.Done? && bytes != [] {
      var _, _ := SendMoves(6, p.ws, Binary(bytes), k.send, count);
      assert |tcp.incoming| + |bytes| == |p.tcp.incoming|;
    }
  }

  lemma InEases(p: Bridge.Pump, k: Bridge.Turn, count: nat) returns (c: Bridge.Phase)
    requires Countable(p, count)
    ensures c == Bridge.InPhase(p, k)
    ensures c.goes ==> Eases(p, c.pump, count)
    ensures c.goes && Unwritten(p) == 0 && p.ws.inbox != [] && k.wsRead.Moves? && k.wsRead.most >= 1 ==> Lighter(p, c.pump, count)
  {
    c := Bridge.InPhase(p, k);
    if Unwritten(p) == 0 { var _, _, _ := ReadMoves(1, 6, p.ws, k.wsRead, count); }
  }

  lemma DownEases(p: Bridge.Pump, k: Bridge.Turn, count: nat) returns (d: Bridge.Phase)
    requires Countable(p, count)
    ensures d == Bridge.DownPhase(p, k)
    ensures d.goes ==> Eases(p, d.pump, count)
    ensures d.goes && Unwritten(p) > 0 && k.tcpWrite.Gets? && k.tcpWrite.most >= 1 ==> Lighter(p, d.pump, count)
  {
    d := Bridge.DownPhase(p, k);
  }

  lemma EasesTwice(p: Bridge.Pump, q: Bridge.Pump, r: Bridge.Pump, count: nat)
    requires Eases(p, q, count) && Eases(q, r, count)
    ensures Eases(p, r, count) && (Lighter(p, q, count) || Lighter(q, r, count) ==> Lighter(p, r, count))
  {
  }

  predicate Busy(p: Bridge.Pump) { p.tcp.incoming != [] || p.ws.retained != [] || p.ws.inbox != [] || p.offset < |p.pending| }

  /** Every call of such a turn that is reached gets something done if there is anything to do. */
  predicate Willing(k: Bridge.Turn) {
    && k.flush.Moves? && k.flush.most >= 1 && k.tcpRead.Gets? && k.tcpRead.most >= 1
    && k.wsRead.Moves? && k.wsRead.most >= 1 && k.tcpWrite.Gets? && k.tcpWrite.most >= 1
  }

  /** No turn that goes on takes anything farther from its end, and a willing turn of a busy bridge takes something nearer. */
  lemma TurnEases(p: Bridge.Pump, k: Bridge.Turn, count: nat) returns (q: Bridge.Pump)
    requires Countable(p, count) && Bridge.TurnStep(p, k).1
    ensures q == Bridge.TurnStep(p, k).0 && Eases(p, q, count)
    ensures Bridge.Settled(p) && Willing(k) && Busy(p) ==> Lighter(p, q, count)
  {
    var a := FlushEases(p, k, count);
    var b := UpEases(a.pump, k, count);
    EasesTwice(p, a.pump, b.pump, count);
    var c := InEases(b.pump, k, count);
    EasesTwice(p, b.pump, c.pump, count);
    var d := DownEases(c.pump, k, count);
    EasesTwice(p, c.pump, d.pump, count);
    q := d.pump;
  }

  // -----------------------------------------------------------------------------------------------------------------
  // The relay
  // -----------------------------------------------------------------------------------------------------------------

  function Held(pending: Option<seq<byte>>): nat { if pending.Some? then 4 + |pending.value| else 0 }

  function SideRank(e: Relay.Side, count: nat): nat
    requires count <= |e.ws.transmitted|
  {
    Weight(5, e.ws.inbox) + Held(e.pending) + Outgoing(2, e.ws, count)
  }

  predicate SameSide(e: Relay.Side, f: Relay.Side) { f.ws == e.ws && f.pending == e.pending }

  predicate SideCountable(e: Relay.Side, count: nat) {
    count <= |e.ws.transmitted| && (e.pending.Some? ==> |e.pending.value| <= MAX_RELAY_BYTES)
  }

  predicate SideEases(e: Relay.Side, f: Relay.Side, count: nat) {
    && SideCountable(e, count) && SideCountable(f, count)
    && (SameSide(e, f) || SideRank(f, count) < SideRank(e, count))
  }

  predicate SideLighter(e: Relay.Side, f: Relay.Side, count: nat) {
    SideCountable(e, count) && SideCountable(f, count) && SideRank(f, count) < SideRank(e, count)
  }

  lemma SideFlushEases(e: Relay.Side, k: Progress, at: real, count: nat) returns (f: Relay.Side, v: Relay.Verdict)
    requires SideCountable(e, count)
    ensures (f, v) == Relay.FlushSide(e, k, at) && SideEases(e, f, count)
    ensures v.Goes? && e.writing && e.ws.retained != [] && k.Moves? && k.most >= 1 ==> SideLighter(e, f, count)
    ensures v.Goes? && !(e.writing && e.ws.retained != []) ==> !f.writing
    ensures f.ready == e.ready
  {
    var t := Relay.FlushSide(e, k, at);
    f, v := t.0, t.1;
    if e.writing { var _, _ := FlushMoves(2, e.ws, k, count); }
  }

  lemma SideReadEases(e: Relay.Side, k: Relay.Plan, count: nat) returns (f: Relay.Side, v: Relay.Verdict)
    requires SideCountable(e, count)
    ensures (f, v) == Relay.ReadSide(e, k)
    ensures v.Goes? ==> SideEases(e, f, count) && (SideLighter(e, f, count) || f == e.(ws := f.ws))
    ensures v.Goes? && e.pending.None? && e.ws.inbox != [] && k.read.Moves? && k.read.most >= 1 ==> SideLighter(e, f, count)
  {
    var t := Relay.ReadSide(e, k);
    f, v := t.0, t.1;
    if e.pending.None? { var _, _, _ := ReadMoves(5, 2, e.ws, k.read, count); }
  }

  predicate PairCountable(p: Relay.Pair, counts: Counts) {
    SideCountable(p.initiator, counts.nearDown) && SideCountable(p.target, counts.farDown)
  }

  function PairRank(p: Relay.Pair, counts: Counts): nat
    requires PairCountable(p, counts)
  {
    SideRank(p.initiator, counts.nearDown) + SideRank(p.target, counts.farDown)
  }

  predicate SamePair(p: Relay.Pair, q: Relay.Pair) { SameSide(p.initiator, q.initiator) && SameSide(p.target, q.target) }

  predicate PairEases(p: Relay.Pair, q: Relay.Pair, counts: Counts) {
    && PairCountable(p, counts) && PairCountable(q, counts)
    && (SamePair(p, q) || PairRank(q, counts) < PairRank(p, counts))
  }

  predicate PairLighter(p: Relay.Pair, q: Relay.Pair, counts: Counts) {
    PairCountable(p, counts) && PairCountable(q, counts) && PairRank(q, counts) < PairRank(p, counts)
  }

  lemma PairEasesTwice(p: Relay.Pair, q: Relay.Pair, r: Relay.Pair, counts: Counts)
    requires PairEases(p, q, counts) && PairEases(q, r, counts)
    ensures PairEases(p, r, counts) && (PairLighter(p, q, counts) || PairLighter(q, r, counts) ==> PairLighter(p, r, counts))
  {
  }

  /** Handing over makes the message one lighter, on the other side. */
  lemma HandOverEases(source: Relay.Side, destination: Relay.Side, k: Relay.Plan, i: nat, j: nat)
    returns (s: Relay.Side, d: Relay.Side, v: Relay.Verdict)
    requires SideCountable(source, i) && SideCountable(destination, j)
    ensures (s, d, v) == Relay.ForwardSide(source, destination, k) && SideCountable(s, i) && SideCountable(d, j)
    ensures if !destination.writing && k.sendAt >= source.ready && source.pending.Some?
            then SideRank(s, i) + SideRank(d, j) < SideRank(source, i) + SideRank(destination, j)
            else s == source && d == destination
  {
    var t := Relay.ForwardSide(source, destination, k);
    s, d, v := t.0, t.1, t.2;
    if source.pending.Some? { var _, _ := SendMoves(2, destination.ws, Binary(source.pending.value), k.send, j); }
  }

  predicate Waiting(e: Relay.Side) { e.ws.inbox != [] || e.pending.Some? }

  /** A step reads what it can, and hands over what is due if the way is free. */
  predicate WillingStep(k: Relay.Plan, source: Relay.Side) {
    k.read.Moves? && k.read.most >= 1 && (source.pending.Some? ==> k.sendAt >= source.ready)
  }

  lemma StepEases(source: Relay.Side, destination: Relay.Side, k: Relay.Plan, i: nat, j: nat)
    returns (s: Relay.Side, d: Relay.Side, v: Relay.Verdict)
    requires SideCountable(source, i) && SideCountable(destination, j)
    ensures (s, d, v) == Relay.RelayStep(source, destination, k)
    ensures v.Goes? ==>
              && SideCountable(s, i) && SideCountable(d, j)
              && (SideRank(s, i) + SideRank(d, j) < SideRank(source, i) + SideRank(destination, j)
                  || (s == source.(ws := s.ws) && SameSide(source, s) && d == destination))
    ensures v.Goes? && WillingStep(k, source) && Waiting(source) && !destination.writing ==>
              SideRank(s, i) + SideRank(d, j) < SideRank(source, i) + SideRank(destination, j)
  {
    var r, w := SideReadEases(source, k, i);
    s, d, v := r, destination, w;
    if w.Goes? { s, d, v := HandOverEases(r, destination, k, i, j); }
  }

  predicate Loaded(e: Relay.Side) { e.ws.inbox != [] || e.pending.Some? || e.ws.retained != [] }

  predicate WillingTurn(k: Relay.Turn, p: Relay.Pair) {
    && k.flushTarget.Moves? && k.flushTarget.most >= 1 && k.flushInitiator.Moves? && k.flushInitiator.most >= 1
    && WillingStep(k.up, p.initiator) && WillingStep(k.down, p.target)
  }

  lemma FlushesEase(p: Relay.Pair, k: Relay.Turn, counts: Counts) returns (q: Relay.Pair)
    requires PairCountable(p, counts) && Relay.FlushSide(p.target, k.flushTarget, k.at).1.Goes?
    requires Relay.FlushSide(p.initiator, k.flushInitiator, k.at).1.Goes?
    ensures q.target == Relay.FlushSide(p.target, k.flushTarget, k.at).0
    ensures q.initiator == Relay.FlushSide(p.initiator, k.flushInitiator, k.at).0
    ensures PairEases(p, q, counts) && q.target.ready == p.target.ready && q.initiator.ready == p.initiator.ready
    ensures Relay.Settled(p.target) && Relay.Settled(p.initiator) && WillingTurn(k, p) ==>
              PairLighter(p, q, counts)
              || (!q.target.writing && !q.initiator.writing && p.target.ws.retained == [] && p.initiator.ws.retained == [])
  {
    var t, _ := SideFlushEases(p.target, k.flushTarget, k.at, counts.farDown);
    var i, _ := SideFlushEases(p.initiator, k.flushInitiator, k.at, counts.nearDown);
    q := Relay.Pair(t, i);
  }

  lemma UpStepEases(p: Relay.Pair, k: Relay.Plan, counts: Counts) returns (q: Relay.Pair)
    requires PairCountable(p, counts) && Relay.RelayStep(p.initiator, p.target, k).2.Goes?
    ensures var (s, d, _) := Relay.RelayStep(p.initiator, p.target, k); q == Relay.Pair(d, s)
    ensures PairEases(p, q, counts)
    ensures PairLighter(p, q, counts) || (q.target == p.target && q.initiator.writing == p.initiator.writing)
    ensures WillingStep(k, p.initiator) && Waiting(p.initiator) && !p.target.writing ==> PairLighter(p, q, counts)
  {
    var s, d, _ := StepEases(p.initiator, p.target, k, counts.nearDown, counts.farDown);
    q := Relay.Pair(d, s);
  }

  lemma DownStepEases(p: Relay.Pair, k: Relay.Plan, counts: Counts) returns (q: Relay.Pair)
    requires PairCountable(p, counts) && Relay.RelayStep(p.target, p.initiator, k).2.Goes?
    ensures var (s, d, _) := Relay.RelayStep(p.target, p.initiator, k); q == Relay.Pair(s, d)
    ensures PairEases(p, q, counts)
    ensures WillingStep(k, p.target) && Waiting(p.target) && !p.initiator.writing ==> PairLighter(p, q, counts)
  {
    var s, d, _ := StepEases(p.target, p.initiator, k, counts.farDown, counts.nearDown);
    q := Relay.Pair(s, d);
  }

  lemma RelayEases(p: Relay.Pair, k: Relay.Turn, counts: Counts) returns (q: Relay.Pair)
    requires PairCountable(p, counts) && Relay.TurnStep(p, k).1.Goes?
    ensures q == Relay.TurnStep(p, k).0 && PairEases(p, q, counts)
    ensures Relay.Settled(p.target) && Relay.Settled(p.initiator) && WillingTurn(k, p) && (Loaded(p.target) || Loaded(p.initiator)) ==>
              PairLighter(p, q, counts)
  {
    var a := FlushesEase(p, k, counts);
    var b := UpStepEases(a, k.up, counts);
    PairEasesTwice(p, a, b, counts);
    q := DownStepEases(b, k.down, counts);
    PairEasesTwice(p, b, q, counts);
  }

  // -----------------------------------------------------------------------------------------------------------------
  // The whole path
  // -----------------------------------------------------------------------------------------------------------------

  predicate Running(p: Path) { p.nearRuns && p.relayRuns && p.farRuns }

  predicate Accounted(p: Path) {
    Countable(p.near, p.counts.nearUp) && Countable(p.far, p.counts.farUp) && PairCountable(p.pair, p.counts)
  }

  lemma SoundIsAccounted(p: Path)
    requires Sound(p)
    ensures Accounted(p) && Counted(p)
  {
  }

  /** A number that everything under way adds to, less the nearer it is to its end. */
  function PathRank(p: Path): nat
    requires Accounted(p)
  {
    EndRank(p.near, p.counts.nearUp) + EndRank(p.far, p.counts.farUp) + PairRank(p.pair, p.counts)
  }

  predicate SamePath(p: Path, q: Path)
    requires Accounted(p) && Accounted(q)
  {
    SameLoad(p.near, q.near) && SameLoad(p.far, q.far) && SamePair(p.pair, q.pair) && p.counts == q.counts
  }

  predicate PathEases(p: Path, q: Path) { Accounted(p) && Accounted(q) && (SamePath(p, q) || PathRank(q) < PathRank(p)) }

  predicate PathLighter(p: Path, q: Path) { Accounted(p) && Accounted(q) && PathRank(q) < PathRank(p) }

  /** The parts that can have something to do. */
  datatype Part = NearBridge | FarBridge | TheRelay | Connection(link: Link)

  predicate HasWork(p: Path, part: Part)
    requires Accounted(p)
  {
    match part
    case NearBridge => Busy(p.near)
    case FarBridge => Busy(p.far)
    case TheRelay => Loaded(p.pair.target) || Loaded(p.pair.initiator)
    case Connection(link) =>
      match link
      case NearUp => p.counts.nearUp < |p.near.ws.transmitted|
      case NearDown => p.counts.nearDown < |p.pair.initiator.ws.transmitted|
      case FarUp => p.counts.farUp < |p.far.ws.transmitted|
      case FarDown => p.counts.farDown < |p.pair.target.ws.transmitted|
  }

  /** The part gets a turn in which it can do something; for the relay, a turn that comes when what is pending is due. */
  predicate Serves(p: Path, part: Part, e: Event) {
    match part
    case NearBridge => e.NearTurn? && Willing(e.bridge)
    case FarBridge => e.FarTurn? && Willing(e.bridge)
    case TheRelay => e.RelayTurn? && Relay.Clocked(e.relay, p.now) && WillingTurn(e.relay, p.pair)
    case Connection(link) => e.Arrives? && e.link == link && e.frames >= 1
  }

  /** Nothing new is put on the way. */
  predicate Calm(e: Event) { !e.Noise? && !e.NearTypes? && !e.FarTypes? }

  lemma TailMoves(each: nat, frames: seq<Frame>, count: nat, n: nat)
    requires count <= n <= |frames|
    ensures Weight(each + 1, frames[n..]) + Weight(each, frames[count..n]) + (n - count) == Weight(each + 1, frames[count..])
  {
    assert frames[count..] == frames[count..n] + frames[n..];
    WeightSplit(each + 1, frames[count..n], frames[n..]);
    WeightDrops(each, frames[count..n]);
  }

  lemma ArrivalMoves(each: nat, sender: Ws, receiver: Ws, count: nat, frames: nat) returns (ws: Ws, n: nat)
    requires count <= |sender.transmitted|
    ensures (ws, n) == Arrival(sender, receiver, count, frames) && count <= n <= |sender.transmitted|
    ensures ws == receiver.(inbox := ws.inbox)
    ensures Outgoing(each + 1, sender, n) + Weight(each, ws.inbox) + (n - count) == Outgoing(each + 1, sender, count) + Weight(each, receiver.inbox)
    ensures (n == count ==> ws == receiver) && (frames >= 1 && count < |sender.transmitted| ==> n > count)
  {
    var t := Arrival(sender, receiver, count, frames);
    ws, n := t.0, t.1;
    TailMoves(each, sender.transmitted, count, n);
    WeightSplit(each, receiver.inbox, sender.transmitted[count..n]);
    assert n == count ==> receiver.inbox + sender.transmitted[count..n] == receiver.inbox;
  }

  lemma PumpToSide(p: Bridge.Pump, e: Relay.Side, count: nat, back: nat, frames: nat) returns (ws: Ws, n: nat)
    requires Countable(p, count) && SideCountable(e, back)
    ensures (ws, n) == Arrival(p.ws, e.ws, count, frames) && Countable(p, n) && SideCountable(e.(ws := ws), back)
    ensures (n == count && ws == e.ws) || EndRank(p, n) + SideRank(e.(ws := ws), back) < EndRank(p, count) + SideRank(e, back)
    ensures frames >= 1 && count < |p.ws.transmitted| ==> n > count
  {
    ws, n := ArrivalMoves(5, p.ws, e.ws, count, frames);
  }

  lemma SideToPump(e: Relay.Side, p: Bridge.Pump, count: nat, back: nat, frames: nat) returns (ws: Ws, n: nat)
    requires SideCountable(e, count) && Countable(p, back)
    ensures (ws, n) == Arrival(e.ws, p.ws, count, frames) && SideCountable(e, n) && Countable(p.(ws := ws), back)
    ensures (n == count && ws == p.ws) || SideRank(e, n) + EndRank(p.(ws := ws), back) < SideRank(e, count) + EndRank(p, back)
    ensures frames >= 1 && count < |e.ws.transmitted| ==> n > count
  {
    ws, n := ArrivalMoves(1, e.ws, p.ws, count, frames);
  }

  lemma NearUpReplaced(p: Path, ws: Ws, n: nat)
    requires Accounted(p) && Countable(p.near, n) && SideCountable(p.pair.initiator.(ws := ws), p.counts.nearDown)
    requires (n == p.counts.nearUp && ws == p.pair.initiator.ws)
             || EndRank(p.near, n) + SideRank(p.pair.initiator.(ws := ws), p.counts.nearDown) < EndRank(p.near, p.counts.nearUp) + SideRank(p.pair.initiator, p.counts.nearDown)
    ensures var q := InitiatorReads(p, ws).(counts := p.counts.(nearUp := n)); PathEases(p, q) && (n > p.counts.nearUp ==> PathLighter(p, q))
  {
  }

  lemma NearUpEases(p: Path, frames: nat) returns (q: Path)
    requires Accounted(p)
    ensures q == ArrivalStep(p, NearUp, frames) && PathEases(p, q)
    ensures frames >= 1 && HasWork(p, Connection(NearUp)) ==> PathLighter(p, q)
  {
    var ws, n := PumpToSide(p.near, p.pair.initiator, p.counts.nearUp, p.counts.nearDown, frames);
    NearUpReplaced(p, ws, n);
    q := InitiatorReads(p, ws).(counts := p.counts.(nearUp := n));
  }

  lemma NearDownReplaced(p: Path, ws: Ws, n: nat)
    requires Accounted(p) && SideCountable(p.pair.initiator, n) && Countable(p.near.(ws := ws), p.counts.nearUp)
    requires (n == p.counts.nearDown && ws == p.near.ws)
             || SideRank(p.pair.initiator, n) + EndRank(p.near.(ws := ws), p.counts.nearUp) < SideRank(p.pair.initiator, p.counts.nearDown) + EndRank(p.near, p.counts.nearUp)
    ensures var q := NearReads(p, ws).(counts := p.counts.(nearDown := n)); PathEases(p, q) && (n > p.counts.nearDown ==> PathLighter(p, q))
  {
  }

  lemma NearDownEases(p: Path, frames: nat) returns (q: Path)
    requires Accounted(p)
    ensures q == ArrivalStep(p, NearDown, frames) && PathEases(p, q)
    ensures frames >= 1 && HasWork(p, Connection(NearDown)) ==> PathLighter(p, q)
  {
    var ws, n := SideToPump(p.pair.initiator, p.near, p.counts.nearDown, p.counts.nearUp, frames);
    NearDownReplaced(p, ws, n);
    q := NearReads(p, ws).(counts := p.counts.(nearDown := n));
  }

  lemma FarUpReplaced(p: Path, ws: Ws, n: nat)
    requires Accounted(p) && Countable(p.far, n) && SideCountable(p.pair.target.(ws := ws), p.counts.farDown)
    requires (n == p.counts.farUp && ws == p.pair.target.ws)
             || EndRank(p.far, n) + SideRank(p.pair.target.(ws := ws), p.counts.farDown) < EndRank(p.far, p.counts.farUp) + SideRank(p.pair.target, p.counts.farDown)
    ensures var q := TargetReads(p, ws).(counts := p.counts.(farUp := n)); PathEases(p, q) && (n > p.counts.farUp ==> PathLighter(p, q))
  {
  }

  lemma FarUpEases(p: Path, frames: nat) returns (q: Path)
    requires Accounted(p)
    ensures q == ArrivalStep(p, FarUp, frames) && PathEases(p, q)
    ensures frames >= 1 && HasWork(p, Connection(FarUp)) ==> PathLighter(p, q)
  {
    var ws, n := PumpToSide(p.far, p.pair.target, p.counts.farUp, p.counts.farDown, frames);
    FarUpReplaced(p, ws, n);
    q := TargetReads(p, ws).(counts := p.counts.(farUp := n));
  }

  lemma FarDownReplaced(p: Path, ws: Ws, n: nat)
    requires Accounted(p) && SideCountable(p.pair.target, n) && Countable(p.far.(ws := ws), p.counts.farUp)
    requires (n == p.counts.farDown && ws == p.far.ws)
             || SideRank(p.pair.target, n) + EndRank(p.far.(ws := ws), p.counts.farUp) < SideRank(p.pair.target, p.counts.farDown) + EndRank(p.far, p.counts.farUp)
    ensures var q := FarReads(p, ws).(counts := p.counts.(farDown := n)); PathEases(p, q) && (n > p.counts.farDown ==> PathLighter(p, q))
  {
  }

  lemma FarDownEases(p: Path, frames: nat) returns (q: Path)
    requires Accounted(p)
    ensures q == ArrivalStep(p, FarDown, frames) && PathEases(p, q)
    ensures frames >= 1 && HasWork(p, Connection(FarDown)) ==> PathLighter(p, q)
  {
    var ws, n := SideToPump(p.pair.target, p.far, p.counts.farDown, p.counts.farUp, frames);
    FarDownReplaced(p, ws, n);
    q := FarReads(p, ws).(counts := p.counts.(farDown := n));
  }

  lemma ArrivalEases(p: Path, link: Link, frames: nat) returns (q: Path)
    requires Accounted(p)
    ensures q == ArrivalStep(p, link, frames) && PathEases(p, q)
    ensures frames >= 1 && HasWork(p, Connection(link)) ==> PathLighter(p, q)
  {
    match link
    case NearUp => q := NearUpEases(p, frames);
    case NearDown => q := NearDownEases(p, frames);
    case FarUp => q := FarUpEases(p, frames);
    case FarDown => q := FarDownEases(p, frames);
  }

  lemma NearReplaced(p: Path, near: Bridge.Pump, runs: bool)
    requires Accounted(p) && Eases(p.near, near, p.counts.nearUp)
    ensures var q := p.(near := near, nearRuns := runs); PathEases(p, q) && (Lighter(p.near, near, p.counts.nearUp) ==> PathLighter(p, q))
  {
  }

  lemma FarReplaced(p: Path, far: Bridge.Pump, runs: bool)
    requires Accounted(p) && Eases(p.far, far, p.counts.farUp)
    ensures var q := p.(far := far, farRuns := runs); PathEases(p, q) && (Lighter(p.far, far, p.counts.farUp) ==> PathLighter(p, q))
  {
  }

  lemma PairReplaced(p: Path, pair: Relay.Pair, runs: bool, now: real)
    requires Accounted(p) && PairEases(p.pair, pair, p.counts)
    ensures var q := p.(pair := pair, relayRuns := runs, now := now);
            PathEases(p, q) && (PairLighter(p.pair, pair, p.counts) ==> PathLighter(p, q))
  {
  }

  lemma NearTurnEases(p: Path, k: Bridge.Turn) returns (q: Path)
    requires Accounted(p) && Steady(p) && p.nearRuns && NearStep(p, k).nearRuns
    ensures q == NearStep(p, k) && PathEases(p, q) && (Willing(k) && Busy(p.near) ==> PathLighter(p, q))
  {
    var near := TurnEases(p.near, k, p.counts.nearUp);
    NearReplaced(p, near, true);
    q := p.(near := near, nearRuns := true);
  }

  lemma FarTurnEases(p: Path, k: Bridge.Turn) returns (q: Path)
    requires Accounted(p) && Steady(p) && p.farRuns && FarStep(p, k).farRuns
    ensures q == FarStep(p, k) && PathEases(p, q) && (Willing(k) && Busy(p.far) ==> PathLighter(p, q))
  {
    var far := TurnEases(p.far, k, p.counts.farUp);
    FarReplaced(p, far, true);
    q := p.(far := far, farRuns := true);
  }

  lemma RelayTurnEases(p: Path, k: Relay.Turn) returns (q: Path)
    requires Accounted(p) && Steady(p) && p.relayRuns && RelayStep(p, k).relayRuns
    ensures q == RelayStep(p, k) && PathEases(p, q)
    ensures Relay.Clocked(k, p.now) && WillingTurn(k, p.pair) && HasWork(p, TheRelay) ==> PathLighter(p, q)
  {
    q := p;
    if Relay.Clocked(k, p.now) {
      var pair := RelayEases(p.pair, k, p.counts);
      PairReplaced(p, pair, true, k.down.sendAt);
      q := p.(pair := pair, relayRuns := true, now := k.down.sendAt);
    }
  }

  function CalmStep(p: Path, e: Event): Path
    requires Accounted(p) && Calm(e)
  {
    match e
    case NearTurn(k) => NearStep(p, k)
    case FarTurn(k) => FarStep(p, k)
    case RelayTurn(k) => RelayStep(p, k)
    case Arrives(link, frames) => ArrivalStep(p, link, frames)
  }

  lemma CalmStepEases(p: Path, e: Event) returns (q: Path)
    requires Accounted(p) && Steady(p) && Running(p) && Calm(e) && Running(CalmStep(p, e))
    ensures q == CalmStep(p, e) && PathEases(p, q)
    ensures forall part :: Serves(p, part, e) && HasWork(p, part) ==> PathLighter(p, q)
  {
    match e
    case NearTurn(k) => q := NearTurnEases(p, k);
    case FarTurn(k) => q := FarTurnEases(p, k);
    case RelayTurn(k) => q := RelayTurnEases(p, k);
    case Arrives(link, frames) => q := ArrivalEases(p, link, frames);
  }

  lemma CalmStepIsNext(p: Path, e: Event)
    requires Sound(p) && Calm(e)
    ensures Accounted(p) && Next(p, e) == CalmStep(p, e)
  {
    SoundIsAccounted(p);
    match e
    case NearTurn(k) =>
    case FarTurn(k) =>
    case RelayTurn(k) =>
    case Arrives(link, frames) =>
  }

  /** No event of a calm schedule takes anything farther from its end, and one that serves a part with work takes something nearer. */
  lemma NextEases(p: Path, e: Event) returns (q: Path)
    requires Sound(p) && Steady(p) && Running(p) && Running(Next(p, e)) && Calm(e)
    ensures q == Next(p, e) && Sound(q) && Steady(q) && PathEases(p, q)
    ensures forall part :: Serves(p, part, e) && HasWork(p, part) ==> PathLighter(p, q)
  {
    CalmStepIsNext(p, e);
    q := CalmStepEases(p, e);
  }

  // -----------------------------------------------------------------------------------------------------------------
  // Fair schedules
  // -----------------------------------------------------------------------------------------------------------------

  ghost function Step(p: Path, e: Event): Path { if Sound(p) then Next(p, e) else p }

  /** All three loops go on. */
  ghost predicate Going(p: Path) { Sound(p) && Steady(p) && Running(p) }

  function UnderWay(p: Path): nat { if Accounted(p) then PathRank(p) else 0 }

  predicate Works(p: Path, part: Part) { Accounted(p) && HasWork(p, part) }

  /** The path as a system whose parts are given turns. */
  ghost function Parts(): System<Path, Event, Part> { System(Step, Going, Calm, UnderWay, Works, Serves) }

  lemma SamePathSameWork(p: Path, q: Path)
    requires Accounted(p) && Accounted(q) && SamePath(p, q)
    ensures PathRank(q) == PathRank(p) && forall part :: HasWork(p, part) <==> HasWork(q, part)
  {
  }

  ghost predicate Advances(p: Path, q: Path, e: Event) {
    || UnderWay(q) < UnderWay(p)
    || (UnderWay(q) == UnderWay(p) && forall part: Part :: (Works(p, part) <==> Works(q, part)) && !(Works(p, part) && Serves(p, part, e)))
  }

  lemma EasingAdvances(p: Path, q: Path, e: Event)
    requires PathEases(p, q) && forall part :: Serves(p, part, e) && HasWork(p, part) ==> PathLighter(p, q)
    ensures Advances(p, q, e)
  {
    if !PathLighter(p, q) { SamePathSameWork(p, q); }
  }

  lemma EventProgresses(p: Path, e: Event)
    requires Going(p) && Calm(e) && Going(Step(p, e))
    ensures Advances(p, Step(p, e), e)
  {
    var q := NextEases(p, e);
    EasingAdvances(p, q, e);
  }

  lemma RestedParts(p: Path)
    requires Accounted(p) && forall part :: !Works(p, part)
    ensures !Busy(p.near) && !Busy(p.far) && !Loaded(p.pair.target) && !Loaded(p.pair.initiator)
    ensures p.counts.nearUp == |p.near.ws.transmitted| && p.counts.nearDown == |p.pair.initiator.ws.transmitted|
    ensures p.counts.farUp == |p.far.ws.transmitted| && p.counts.farDown == |p.pair.target.ws.transmitted|
  {
    assert !Works(p, NearBridge) && !Works(p, FarBridge) && !Works(p, TheRelay);
    assert !Works(p, Connection(NearUp)) && !Works(p, Connection(NearDown));
    assert !Works(p, Connection(FarUp)) && !Works(p, Connection(FarDown));
  }

  lemma EndWeighsNothing(p: Bridge.Pump, count: nat)
    requires Countable(p, count) && !Busy(p) && count == |p.ws.transmitted|
    ensures EndRank(p, count) == 0
  {
  }

  lemma SideWeighsNothing(e: Relay.Side, count: nat)
    requires SideCountable(e, count) && !Loaded(e) && count == |e.ws.transmitted|
    ensures SideRank(e, count) == 0
  {
  }

  lemma RestWeighsNothing(p: Path)
    requires Accounted(p) && forall part :: !Works(p, part)
    ensures PathRank(p) == 0
  {
    RestedParts(p);
    EndWeighsNothing(p.near, p.counts.nearUp);
    EndWeighsNothing(p.far, p.counts.farUp);
    SideWeighsNothing(p.pair.initiator, p.counts.nearDown);
    SideWeighsNothing(p.pair.target, p.counts.farDown);
  }

  lemma PartsAreFair()
    ensures Fair(Parts())
  {
    var y := Parts();
    forall p: Path, e: Event {:trigger y.next(p, e)} | y.runs(p) && y.calm(e) && y.runs(y.next(p, e)) ensures Progresses(y, p, e) {
      EventProgresses(p, e);
    }
    forall p: Path {:trigger y.rank(p)} | y.runs(p) && Rests(y, p) ensures y.rank(p) == 0 {
      SoundIsAccounted(p);
      forall part: Part ensures !Works(p, part) { assert !y.work(p, part); }
      RestWeighsNothing(p);
    }
  }

  lemma LinkAtRest(sender: Ws, receiver: Ws, count: nat)
    requires Linked(sender, receiver, count) && count == |sender.transmitted| && receiver.inbox == []
    ensures Payloads(receiver.received) == Payloads(sender.transmitted)
  {
    assert receiver.received + receiver.inbox == receiver.received && sender.transmitted[..count] == sender.transmitted;
  }

  /** One direction of a path at rest. */
  lemma WayAtRest(near: Bridge.Pump, source: Relay.Side, destination: Relay.Side, far: Bridge.Pump, first: nat, second: nat)
    requires Bridge.Conserves(near) && Bridge.Conserves(far) && Relay.Forwards(source, destination)
    requires Linked(near.ws, source.ws, first) && Linked(destination.ws, far.ws, second)
    requires !Busy(near) && !Loaded(source) && !Loaded(destination) && !Busy(far)
    requires first == |near.ws.transmitted| && second == |destination.ws.transmitted|
    ensures far.tcp.written == Given(near)
  {
    LinkAtRest(near.ws, source.ws, first);
    LinkAtRest(destination.ws, far.ws, second);
    DrainedPathIsComplete(near, source, destination, far);
    assert near.tcp.consumed + [] == near.tcp.consumed;
  }

  lemma RestIsDrained(p: Path)
    requires Sound(p) && Rests(Parts(), p)
    ensures p.far.tcp.written == Given(p.near) && p.near.tcp.written == Given(p.far)
  {
    SoundIsAccounted(p);
    forall part: Part ensures !Works(p, part) { assert !Parts().work(p, part); }
    RestedParts(p);
    WayAtRest(p.near, p.pair.initiator, p.pair.target, p.far, p.counts.nearUp, p.counts.farDown);
    WayAtRest(p.far, p.pair.target, p.pair.initiator, p.near, p.counts.farUp, p.counts.nearDown);
  }

  lemma {:induction false} CalmTypesNothing(events: seq<Event>)
    requires forall e | e in events :: Calm(e)
    ensures NearTyped(events) == [] && FarTyped(events) == []
  {
    if events != [] {
      assert Calm(events[0]);
      CalmTypesNothing(events[1..]);
    }
  }

  lemma StepIsNext(p: Path, events: seq<Event>) returns (q: Path)
    requires Sound(p) && events != []
    ensures Sound(q) && q == Parts().next(p, events[0]) && Run(p, events) == Run(q, events[1..])
  {
    q := Next(p, events[0]);
  }

  lemma {:induction false} FoldIsRun(p: Path, events: seq<Event>)
    requires Sound(p)
    ensures Fold(Parts(), p, events) == Run(p, events)
    decreases |events|
  {
    if events != [] {
      var q := StepIsNext(p, events);
      FoldIsRun(q, events[1..]);
    }
  }

  lemma {:induction false} RunIsSteady(p: Path, events: seq<Event>)
    requires Sound(p) && Steady(p)
    ensures Steady(Run(p, events))
    decreases |events|
  {
    if events != [] { RunIsSteady(Next(p, events[0]), events[1..]); }
  }

  /**
   After any run from fresh ends in which no loop has ended: any schedule that goes on giving both bridges, the relay and
   every connection their turn, for more rounds than the weight of what is under way, delivers all that was given at
   either end to the other.
   */
  lemma FairSchedulesDeliver(nearGiven: seq<byte>, farGiven: seq<byte>, limit: Option<nat>, now: real, before: seq<Event>,
                             rounds: seq<seq<Event>>)
    returns (s: Path, p: Path)
    requires var s := Run(Start(nearGiven, farGiven, limit, now), before);
             Running(s) && Rounds(Parts(), s, rounds) && |rounds| > UnderWay(s)
    ensures s == Run(Start(nearGiven, farGiven, limit, now), before) && p == Run(s, Joined(rounds))
    ensures p.far.tcp.written == nearGiven + NearTyped(before) && p.near.tcp.written == farGiven + FarTyped(before)
  {
    var start := Start(nearGiven, farGiven, limit, now);
    s := RunGives(start, before);
    RunIsSteady(start, before);
    p := Drains(s, rounds);
    assert [] + nearGiven == nearGiven && [] + farGiven == farGiven;
  }

  lemma Drains(s: Path, rounds: seq<seq<Event>>) returns (p: Path)
    requires Sound(s) && Steady(s) && Running(s) && Rounds(Parts(), s, rounds) && |rounds| > UnderWay(s)
    ensures p == Run(s, Joined(rounds)) && p.far.tcp.written == Given(s.near) && p.near.tcp.written == Given(s.far)
  {
    PartsAreFair();
    p := RoundsBringRest(Parts(), s, rounds);
    FoldIsRun(s, Joined(rounds));
    RestIsDrained(p);
    RoundsAreCalm(Parts(), s, rounds);
    CalmTypesNothing(Joined(rounds));
    var q := RunGives(s, Joined(rounds));
    NothingMore(Given(s.near), Given(p.near));
    NothingMore(Given(s.far), Given(p.far));
  }

  lemma NothingMore(before: seq<byte>, after: seq<byte>)
    requires Grown(before, after, [])
    ensures after == before
  {
  }

  // -----------------------------------------------------------------------------------------------------------------
  // There are such schedules
  // -----------------------------------------------------------------------------------------------------------------

  /** Messages, pings and pongs; any other frame ends the loop that reads it. */
  predicate Orderly(frames: seq<Frame>) { forall f | f in frames :: Relayable(f) || f.Ping? || f.Pong? }

  predicate OrderlyWs(ws: Ws) { Orderly(ws.inbox) && Orderly(ws.retained) && Orderly(ws.transmitted) }

  predicate OrderlyPath(p: Path) {
    OrderlyWs(p.near.ws) && OrderlyWs(p.far.ws) && OrderlyWs(p.pair.initiator.ws) && OrderlyWs(p.pair.target.ws)
  }

  lemma FlushIsOrderly(ws: Ws, k: Progress)
    requires OrderlyWs(ws)
    ensures OrderlyWs(FlushStep(ws, k).0)
  {
  }

  lemma SendIsOrderly(ws: Ws, f: Frame, k: Progress)
    requires OrderlyWs(ws) && Relayable(f)
    ensures OrderlyWs(SendStep(ws, f, k).0)
  {
    FlushIsOrderly(ws.(retained := ws.retained + [f]), k);
  }

  lemma ReadIsOrderly(ws: Ws, k: Progress)
    requires OrderlyWs(ws)
    ensures var (after, r, f) := ReadStep(ws, k); OrderlyWs(after) && (f.Some? ==> Relayable(f.value) || f.value.Ping? || f.value.Pong?)
  {
  }

  /** Every call gets something done, and no time runs out. */
  const EAGER := Bridge.Turn(Moves(1), Gets(1), Moves(1), Moves(1), Gets(1), false)

  lemma EagerTurnGoesOn(p: Bridge.Pump)
    requires p.offset <= |p.pending| && OrderlyWs(p.ws)
    ensures Willing(EAGER) && Bridge.TurnStep(p, EAGER).1 && OrderlyWs(Bridge.TurnStep(p, EAGER).0.ws)
  {
    FlushIsOrderly(p.ws, EAGER.flush);
    var a := Bridge.FlushPhase(p, EAGER);
    EagerUp(a.pump);
    var b := Bridge.UpPhase(a.pump, EAGER);
    ReadIsOrderly(b.pump.ws, EAGER.wsRead);
  }

  lemma EagerUp(p: Bridge.Pump)
    requires OrderlyWs(p.ws)
    ensures var b := Bridge.UpPhase(p, EAGER); b.goes && OrderlyWs(b.pump.ws) && b.pump.pending == p.pending && b.pump.offset == p.offset
  {
    var (_, r, bytes) := TcpReadStep(p.tcp, Bridge.BUFFER, EAGER.tcpRead);
    if r.Done? && bytes != [] { SendIsOrderly(p.ws, Binary(bytes), EAGER.send); }
  }

  /** A relay turn that waits for whatever is pending, and flushes all that is held back. */
  function Patient(p: Relay.Pair, now: real): Relay.Turn {
    var i, t := p.initiator, p.target;
    var due := Pacing.MaxReal(now, Pacing.MaxReal(i.ready, t.ready));
    var k := Relay.Plan(Moves(1), due, Moves(1), due);
    Relay.Turn(Moves(|t.ws.retained| + 1), Moves(|i.ws.retained| + 1), due, k, k)
  }

  lemma PatientFlush(e: Relay.Side, k: Progress, at: real)
    requires OrderlyWs(e.ws) && k.Moves? && k.most >= |e.ws.retained|
    ensures var (f, v) := Relay.FlushSide(e, k, at); v.Goes? && OrderlyWs(f.ws) && f.pending == e.pending
  {
    FlushIsOrderly(e.ws, k);
  }

  lemma PatientStep(source: Relay.Side, destination: Relay.Side, k: Relay.Plan, i: nat, j: nat)
    requires OrderlyWs(source.ws) && OrderlyWs(destination.ws) && k.read.Moves? && k.send.Moves?
    requires SideCountable(source, i) && SideCountable(destination, j)
    ensures var (s, d, v) := Relay.RelayStep(source, destination, k); v.Goes? && OrderlyWs(s.ws) && OrderlyWs(d.ws)
  {
    if source.pending.None? { ReadIsOrderly(source.ws, k.read); }
    var r, w := SideReadEases(source, k, i);
    if w.Goes? && r.pending.Some? { SendIsOrderly(destination.ws, Binary(r.pending.value), k.send); }
  }

  lemma PatientTurnGoesOn(p: Relay.Pair, counts: Counts, now: real)
    requires PairCountable(p, counts) && OrderlyWs(p.initiator.ws) && OrderlyWs(p.target.ws)
    ensures Relay.Clocked(Patient(p, now), now) && WillingTurn(Patient(p, now), p)
    ensures var (q, v) := Relay.TurnStep(p, Patient(p, now)); v.Goes? && OrderlyWs(q.initiator.ws) && OrderlyWs(q.target.ws)
  {
    var k := Patient(p, now);
    PatientFlush(p.target, k.flushTarget, k.at);
    PatientFlush(p.initiator, k.flushInitiator, k.at);
    var a := FlushesEase(p, k, counts);
    PatientStep(a.initiator, a.target, k.up, counts.nearDown, counts.farDown);
    var b := UpStepEases(a, k.up, counts);
    PatientStep(b.target, b.initiator, k.down, counts.farDown, counts.nearDown);
  }

  function Serving(p: Path, part: Part): Event {
    match part
    case NearBridge => NearTurn(EAGER)
    case FarBridge => FarTurn(EAGER)
    case TheRelay => RelayTurn(Patient(p.pair, p.now))
    case Connection(link) => Arrives(link, 1)
  }

  lemma ServingIsOrderly(p: Path, part: Part) returns (q: Path)
    requires Accounted(p) && Running(p) && OrderlyPath(p)
    ensures Calm(Serving(p, part)) && Serves(p, part, Serving(p, part))
    ensures q == CalmStep(p, Serving(p, part)) && Running(q) && OrderlyPath(q)
  {
    q := CalmStep(p, Serving(p, part));
    match part
    case NearBridge => EagerTurnGoesOn(p.near);
    case FarBridge => EagerTurnGoesOn(p.far);
    case TheRelay => PatientTurnGoesOn(p.pair, p.counts, p.now);
    case Connection(link) => match link { case NearUp => case NearDown => case FarUp => case FarDown => }
  }

  /** Where schedules can go on. */
  ghost predicate Lively(p: Path) { Going(p) && OrderlyPath(p) }

  lemma PartIsServed(p: Path, part: Part)
    requires Lively(p)
    ensures var e := Serving(p, part); Calm(e) && Serves(p, part, e) && Lively(Step(p, e))
  {
    SoundIsAccounted(p);
    var q := ServingIsOrderly(p, part);
    CalmStepIsNext(p, Serving(p, part));
  }

  lemma PartsAreServable()
    ensures Servable(Parts(), Lively, Serving)
  {
    forall p: Path, part: Part ensures Lively(p) ==> var e := Serving(p, part); Calm(e) && Serves(p, part, e) && Lively(Step(p, e)) {
      if Lively(p) { PartIsServed(p, part); }
    }
  }

  const ALL := [NearBridge, FarBridge, TheRelay, Connection(NearUp), Connection(NearDown), Connection(FarUp), Connection(FarDown)]

  lemma EveryPartIsListed(part: Part)
    ensures part in ALL
  {
    match part
    case NearBridge => assert ALL[0] == part;
    case FarBridge => assert ALL[1] == part;
    case TheRelay => assert ALL[2] == part;
    case Connection(link) =>
      match link
      case NearUp => assert ALL[3] == part;
      case NearDown => assert ALL[4] == part;
      case FarUp => assert ALL[5] == part;
      case FarDown => assert ALL[6] == part;
  }

  lemma LivelyDrains(s: Path) returns (events: seq<Event>, p: Path)
    requires Lively(s)
    ensures p == Run(s, events) && p.far.tcp.written == Given(s.near) && p.near.tcp.written == Given(s.far)
  {
    PartsAreServable();
    forall part: Part ensures part in ALL { EveryPartIsListed(part); }
    var rounds := RoundsExist(Parts(), Lively, Serving, s, ALL, UnderWay(s) + 1);
    p := Drains(s, rounds);
    events := Joined(rounds);
  }

  lemma StartIsLively(nearGiven: seq<byte>, farGiven: seq<byte>, limit: Option<nat>, now: real) returns (s: Path)
    ensures s == Start(nearGiven, farGiven, limit, now) && Lively(s)
    ensures s.near.tcp == Tcp(nearGiven, [], []) && s.far.tcp == Tcp(farGiven, [], [])
  {
    s := Start(nearGiven, farGiven, limit, now);
  }

  /** So whatever two programs give at the start can reach the other end, under any limit of the relay. */
  lemma EverythingCanArrive(nearGiven: seq<byte>, farGiven: seq<byte>, limit: Option<nat>, now: real) returns (events: seq<Event>, p: Path)
    ensures p == Run(Start(nearGiven, farGiven, limit, now), events)
    ensures p.far.tcp.written == nearGiven && p.near.tcp.written == farGiven
  {
    var s := StartIsLively(nearGiven, farGiven, limit, now);
    events, p := LivelyDrains(s);
    assert [] + nearGiven == nearGiven && [] + farGiven == farGiven;
  }
}

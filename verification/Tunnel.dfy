/** The whole path between two local programs: bridge, relay, bridge, and the connections between them. */
module Tunnel {
  import opened Wrappers
  import opened Sockets
  import Bridge
  import Relay

  lemma PayloadsOfPrefix(a: seq<Frame>, b: seq<Frame>)
    requires a <= b
    ensures Payloads(a) <= Payloads(b)
  {
    assert b == a + b[|a|..];
    PayloadsSplit(a, b[|a|..]);
  }

  lemma ConcatOfPrefix(a: seq<seq<byte>>, b: seq<seq<byte>>)
    requires a <= b
    ensures Concat(a) <= Concat(b)
  {
    assert b == a + b[|a|..];
    ConcatSplit(a, b[|a|..]);
  }

  /** A reliable ordered connection: the messages one end has read are a beginning of those the other has sent out. */
  predicate Connected(sender: Ws, receiver: Ws) { Payloads(receiver.received) <= Payloads(sender.transmitted) }

  /**
   The messages the far bridge has read are a beginning of those the near bridge accepted, and the bytes written on the far
   side are a beginning of the bytes read on the near side.
   */
  lemma FarSideIsPrefix(near: Bridge.Pump, source: Relay.Side, destination: Relay.Side, far: Bridge.Pump)
    requires Bridge.Conserves(near) && Bridge.Conserves(far) && Relay.Forwards(source, destination)
    requires Connected(near.ws, source.ws) && Connected(destination.ws, far.ws)
    ensures Payloads(far.ws.received) <= Payloads(Accepted(destination.ws)) <= Payloads(source.ws.received) <= Payloads(Accepted(near.ws))
    ensures far.tcp.written <= near.tcp.consumed
  {
    PayloadsOfPrefix(destination.ws.transmitted, Accepted(destination.ws));
    PayloadsOfPrefix(near.ws.transmitted, Accepted(near.ws));
    ConcatOfPrefix(Payloads(far.ws.received), Payloads(Accepted(near.ws)));
    assert far.tcp.written <= Data(far.ws.received) <= Data(Accepted(near.ws)) == near.tcp.consumed;
  }

  /** Nothing is held anywhere on the way from one local program to the other. */
  predicate Drained(near: Bridge.Pump, source: Relay.Side, destination: Relay.Side, far: Bridge.Pump) {
    && near.ws.retained == [] && Payloads(source.ws.received) == Payloads(near.ws.transmitted) && source.pending == None
    && destination.ws.retained == [] && Payloads(far.ws.received) == Payloads(destination.ws.transmitted) && far.offset == |far.pending|
  }

  /** Then everything read on the near side has been written on the far side. */
  lemma DrainedPathIsComplete(near: Bridge.Pump, source: Relay.Side, destination: Relay.Side, far: Bridge.Pump)
    requires Bridge.Conserves(near) && Bridge.Conserves(far) && Relay.Forwards(source, destination)
    requires Drained(near, source, destination, far)
    ensures far.tcp.written == near.tcp.consumed
  {
    assert Accepted(near.ws) == near.ws.transmitted && Accepted(destination.ws) == destination.ws.transmitted;
    assert far.pending[far.offset..] == [] && far.tcp.written + [] == far.tcp.written;
    assert Payloads(Accepted(destination.ws)) + [] == Payloads(Accepted(destination.ws));
  }

  // -----------------------------------------------------------------------------------------------------------------
  // Runs of the whole path
  // -----------------------------------------------------------------------------------------------------------------

  /** The four directed connections; the count of each says how many of the frames sent out have reached its other end. */
  datatype Link = NearUp | NearDown | FarUp | FarDown

  datatype Counts = Counts(nearUp: nat, nearDown: nat, farUp: nat, farDown: nat)

  /** The initiator's side of the relay faces the near bridge, the target's side the far one. */
  datatype Path = Path(near: Bridge.Pump, pair: Relay.Pair, far: Bridge.Pump, counts: Counts, now: real,
                       nearRuns: bool, relayRuns: bool, farRuns: bool)

  datatype Event =
    | NearTurn(bridge: Bridge.Turn)
    | FarTurn(bridge: Bridge.Turn)
    | RelayTurn(relay: Relay.Turn)
    | Arrives(link: Link, frames: nat)
    | Noise(link: Link, frame: Frame)
    | NearTypes(bytes: seq<byte>)
    | FarTypes(bytes: seq<byte>)

  /** Frames the sender has put on the network reach the receiver, in order. */
  function Arrival(sender: Ws, receiver: Ws, count: nat, frames: nat): (Ws, nat)
    requires count <= |sender.transmitted|
  {
    var n := Min(frames, |sender.transmitted| - count);
    (receiver.(inbox := receiver.inbox + sender.transmitted[count..count + n]), count + n)
  }

  /** What has reached one end carries the messages of that many frames sent out by the other. */
  ghost predicate Linked(sender: Ws, receiver: Ws, count: nat) {
    && count <= |sender.transmitted|
    && Payloads(receiver.received + receiver.inbox) == Payloads(sender.transmitted[..count])
  }

  /** Nothing has been lost, repeated or reordered on either way between the two local programs. */
  ghost predicate Sound(p: Path) {
    && Bridge.Conserves(p.near) && Bridge.Conserves(p.far) && Relay.PairOk(p.pair, p.now)
    && Linked(p.near.ws, p.pair.initiator.ws, p.counts.nearUp) && Linked(p.pair.initiator.ws, p.near.ws, p.counts.nearDown)
    && Linked(p.far.ws, p.pair.target.ws, p.counts.farUp) && Linked(p.pair.target.ws, p.far.ws, p.counts.farDown)
  }

  function WithInput(p: Bridge.Pump, bytes: seq<byte>): Bridge.Pump { p.(tcp := p.tcp.(incoming := p.tcp.incoming + bytes)) }

  function WithFrames(ws: Ws, frames: seq<Frame>): Ws { ws.(inbox := ws.inbox + frames) }

  function NearReads(p: Path, ws: Ws): Path { p.(near := p.near.(ws := ws)) }

  function FarReads(p: Path, ws: Ws): Path { p.(far := p.far.(ws := ws)) }

  function InitiatorReads(p: Path, ws: Ws): Path { p.(pair := p.pair.(initiator := p.pair.initiator.(ws := ws))) }

  function TargetReads(p: Path, ws: Ws): Path { p.(pair := p.pair.(target := p.pair.target.(ws := ws))) }

  /** No connection has delivered more than was sent out. */
  predicate Counted(p: Path) {
    && p.counts.nearUp <= |p.near.ws.transmitted| && p.counts.nearDown <= |p.pair.initiator.ws.transmitted|
    && p.counts.farUp <= |p.far.ws.transmitted| && p.counts.farDown <= |p.pair.target.ws.transmitted|
  }

  function ArrivalStep(p: Path, link: Link, frames: nat): Path
    requires Counted(p)
  {
    match link
    case NearUp =>
      var (ws, n) := Arrival(p.near.ws, p.pair.initiator.ws, p.counts.nearUp, frames);
      InitiatorReads(p, ws).(counts := p.counts.(nearUp := n))
    case NearDown =>
      var (ws, n) := Arrival(p.pair.initiator.ws, p.near.ws, p.counts.nearDown, frames);
      NearReads(p, ws).(counts := p.counts.(nearDown := n))
    case FarUp =>
      var (ws, n) := Arrival(p.far.ws, p.pair.target.ws, p.counts.farUp, frames);
      TargetReads(p, ws).(counts := p.counts.(farUp := n))
    case FarDown =>
      var (ws, n) := Arrival(p.pair.target.ws, p.far.ws, p.counts.farDown, frames);
      FarReads(p, ws).(counts := p.counts.(farDown := n))
  }

  /** Frames that carry no message, such as pings, may reach an end at any time. */
  function NoiseStep(p: Path, link: Link, frame: Frame): Path {
    if Relayable(frame) then p
    else
      match link
      case NearUp => InitiatorReads(p, WithFrames(p.pair.initiator.ws, [frame]))
      case NearDown => NearReads(p, WithFrames(p.near.ws, [frame]))
      case FarUp => TargetReads(p, WithFrames(p.pair.target.ws, [frame]))
      case FarDown => FarReads(p, WithFrames(p.far.ws, [frame]))
  }

  function NearStep(p: Path, k: Bridge.Turn): Path
    requires p.near.offset <= |p.near.pending|
  {
    if !p.nearRuns then p else var (q, goes) := Bridge.TurnStep(p.near, k); p.(near := q, nearRuns := goes)
  }

  function FarStep(p: Path, k: Bridge.Turn): Path
    requires p.far.offset <= |p.far.pending|
  {
    if !p.farRuns then p else var (q, goes) := Bridge.TurnStep(p.far, k); p.(far := q, farRuns := goes)
  }

  /** The clock of the relay does not go back. */
  function RelayStep(p: Path, k: Relay.Turn): Path {
    if !p.relayRuns || !Relay.Clocked(k, p.now) then p
    else var (q, v) := Relay.TurnStep(p.pair, k); p.(pair := q, relayRuns := v.Goes?, now := k.down.sendAt)
  }

  /** A turn of a bridge or the relay keeps the path sound. */
  ghost function Turned(p: Path, e: Event): (q: Path)
    requires Sound(p) && (e.NearTurn? || e.FarTurn? || e.RelayTurn?)
    ensures Sound(q) && Gave(p, q, [], []) && (Steady(p) ==> Steady(q))
  {
    match e
    case NearTurn(k) => NearTurnKeeps(p, k); NearTurnGives(p, k); NearTurnIsSteady(p, k); NearStep(p, k)
    case FarTurn(k) => FarTurnKeeps(p, k); FarTurnGives(p, k); FarTurnIsSteady(p, k); FarStep(p, k)
    case RelayTurn(k) => RelayTurnKeeps(p, k); GaveNothing(p, RelayStep(p, k)); RelayTurnIsSteady(p, k); RelayStep(p, k)
  }

  /** So does everything that reaches an end. */
  ghost function Reached(p: Path, e: Event): (q: Path)
    requires Sound(p) && (e.Arrives? || e.Noise?)
    ensures Sound(q) && Gave(p, q, [], []) && (Steady(p) ==> Steady(q))
  {
    match e
    case Arrives(link, frames) => ArrivalKeeps(p, link, frames); ArrivalGives(p, link, frames); ArrivalIsSteady(p, link, frames); ArrivalStep(p, link, frames)
    case Noise(link, frame) => NoiseKeeps(p, link, frame); NoiseGives(p, link, frame); NoiseIsSteady(p, link, frame); NoiseStep(p, link, frame)
  }

  /** So does new input from a local program. */
  ghost function Fed(p: Path, e: Event): (q: Path)
    requires Sound(p) && (e.NearTypes? || e.FarTypes?)
    ensures Sound(q) && Gave(p, q, NearAdds(e), FarAdds(e)) && (Steady(p) ==> Steady(q))
  {
    TypingKeeps(p, e.bytes);
    TypingGives(p, e.bytes);
    if e.NearTypes? then p.(near := WithInput(p.near, e.bytes)) else p.(far := WithInput(p.far, e.bytes))
  }

  /** One event; whatever it is, it keeps the path sound. */
  ghost function Next(p: Path, e: Event): (q: Path)
    requires Sound(p)
    ensures Sound(q) && Gave(p, q, NearAdds(e), FarAdds(e)) && (Steady(p) ==> Steady(q))
  {
    if e.NearTypes? || e.FarTypes? then Fed(p, e) else if e.Arrives? || e.Noise? then Reached(p, e) else Turned(p, e)
  }

  /** Both bridges and the relay have just been set up, and the local programs have given some bytes already. */
  ghost function Start(nearGiven: seq<byte>, farGiven: seq<byte>, limit: Option<nat>, now: real): (p: Path)
    ensures Sound(p)
  {
    var ws, near, far := Ws([], [], [], []), Tcp(nearGiven, [], []), Tcp(farGiven, [], []);
    Bridge.FreshConserves(near, ws);
    Bridge.FreshConserves(far, ws);
    Relay.FreshPairIsOk(ws, ws, limit, now);
    Path(Bridge.Fresh(near, ws), Relay.Pair(Relay.Fresh(ws, limit, now), Relay.Fresh(ws, limit, now)), Bridge.Fresh(far, ws),
         Counts(0, 0, 0, 0), now, true, true, true)
  }

  /** A socket in use takes frames from the front of what reaches it, and adds to what it sends out. */
  ghost predicate Used(before: Ws, after: Ws) {
    && after.received + after.inbox == before.received + before.inbox
    && before.transmitted <= after.transmitted
  }

  lemma UseKeepsLinks(a: Ws, b: Ws, a2: Ws, b2: Ws, count: nat)
    requires Linked(a, b, count) && Used(a, a2) && Used(b, b2)
    ensures Linked(a2, b2, count)
  {
    assert a2.transmitted[..count] == a.transmitted[..count];
  }

  lemma Regroup<T>(a: seq<T>, b: seq<T>, c: seq<T>)
    ensures a + (b + c) == a + b + c
  {
  }

  lemma TakeMore<T>(all: seq<T>, count: nat, n: nat)
    requires count <= n <= |all|
    ensures all[..count] + all[count..n] == all[..n]
  {
  }

  lemma SamePayloads(a: seq<Frame>, b: seq<Frame>, more: seq<Frame>)
    requires Payloads(a) == Payloads(b)
    ensures Payloads(a + more) == Payloads(b + more)
  {
    PayloadsSplit(a, more);
    PayloadsSplit(b, more);
  }

  lemma MoreArrives(received: seq<Frame>, inbox: seq<Frame>, sent: seq<Frame>, count: nat, n: nat)
    requires count <= n <= |sent| && Payloads(received + inbox) == Payloads(sent[..count])
    ensures Payloads(received + (inbox + sent[count..n])) == Payloads(sent[..n])
  {
    SamePayloads(received + inbox, sent[..count], sent[count..n]);
    Regroup(received, inbox, sent[count..n]);
    TakeMore(sent, count, n);
  }

  lemma ArrivalLinks(sender: Ws, receiver: Ws, count: nat, frames: nat)
    requires Linked(sender, receiver, count)
    ensures var (ws, n) := Arrival(sender, receiver, count, frames); Linked(sender, ws, n)
  {
    MoreArrives(receiver.received, receiver.inbox, sender.transmitted, count, count + Min(frames, |sender.transmitted| - count));
  }

  lemma NoiseLinks(sender: Ws, receiver: Ws, count: nat, frame: Frame)
    requires Linked(sender, receiver, count) && !Relayable(frame)
    ensures Linked(sender, WithFrames(receiver, [frame]), count)
  {
    PayloadsAppend(receiver.received + receiver.inbox, frame);
    assert receiver.received + (receiver.inbox + [frame]) == receiver.received + receiver.inbox + [frame];
  }

  lemma InputConserves(p: Bridge.Pump, bytes: seq<byte>)
    requires Bridge.Conserves(p)
    ensures Bridge.Conserves(WithInput(p, bytes))
  {
  }

  // -----------------------------------------------------------------------------------------------------------------
  // The relay uses its sockets like anyone
  // -----------------------------------------------------------------------------------------------------------------

  lemma FlushUses(e: Relay.Side, k: Progress, at: real)
    ensures Used(e.ws, Relay.FlushSide(e, k, at).0.ws)
  {
    FlushAccepts(e.ws, k);
  }

  lemma ReadUses(e: Relay.Side, k: Relay.Plan)
    ensures Used(e.ws, Relay.ReadSide(e, k).0.ws)
  {
    ReadAccepts(e.ws, k.read);
  }

  lemma ForwardUses(source: Relay.Side, destination: Relay.Side, k: Relay.Plan)
    ensures var (s, d, _) := Relay.ForwardSide(source, destination, k); Used(source.ws, s.ws) && Used(destination.ws, d.ws)
  {
    if source.pending.Some? { SendAccepts(destination.ws, Binary(source.pending.value), k.send); }
  }

  lemma StepUses(source: Relay.Side, destination: Relay.Side, k: Relay.Plan)
    ensures var (s, d, _) := Relay.RelayStep(source, destination, k); Used(source.ws, s.ws) && Used(destination.ws, d.ws)
  {
    ReadUses(source, k);
    ForwardUses(Relay.ReadSide(source, k).0, destination, k);
  }

  lemma UsedTwice(a: Ws, b: Ws, c: Ws)
    requires Used(a, b) && Used(b, c)
    ensures Used(a, c)
  {
  }

  lemma TurnUses(p: Relay.Pair, k: Relay.Turn)
    ensures var (q, _) := Relay.TurnStep(p, k); Used(p.target.ws, q.target.ws) && Used(p.initiator.ws, q.initiator.ws)
  {
    var (t1, v1) := Relay.FlushSide(p.target, k.flushTarget, k.at);
    FlushUses(p.target, k.flushTarget, k.at);
    if v1.Goes? {
      var (i2, v2) := Relay.FlushSide(p.initiator, k.flushInitiator, k.at);
      FlushUses(p.initiator, k.flushInitiator, k.at);
      if v2.Goes? {
        var (i3, t3, v3) := Relay.RelayStep(i2, t1, k.up);
        StepUses(i2, t1, k.up);
        UsedTwice(p.target.ws, t1.ws, t3.ws);
        UsedTwice(p.initiator.ws, i2.ws, i3.ws);
        if v3.Goes? {
          var (t4, i4, v4) := Relay.RelayStep(t3, i3, k.down);
          StepUses(t3, i3, k.down);
          UsedTwice(p.target.ws, t3.ws, t4.ws);
          UsedTwice(p.initiator.ws, i3.ws, i4.ws);
        }
      }
    }
  }

  // -----------------------------------------------------------------------------------------------------------------
  // Frames are held back only where it is known
  // -----------------------------------------------------------------------------------------------------------------

  /** As long as a loop goes on, it holds frames back only while it knows that it has to flush. */
  ghost predicate Steady(p: Path) {
    && (p.nearRuns ==> Bridge.Settled(p.near)) && (p.farRuns ==> Bridge.Settled(p.far))
    && (p.relayRuns ==> PairSettled(p.pair))
  }

  ghost predicate PairSettled(p: Relay.Pair) { Relay.Settled(p.target) && Relay.Settled(p.initiator) }

  lemma FlushSettles(e: Relay.Side, k: Progress, at: real)
    requires Relay.Settled(e)
    ensures Relay.Settled(Relay.FlushSide(e, k, at).0)
  {
    FlushAccepts(e.ws, k);
  }

  lemma StepSettles(source: Relay.Side, destination: Relay.Side, k: Relay.Plan)
    requires Relay.Settled(source) && Relay.Settled(destination)
    ensures var (s, d, v) := Relay.RelayStep(source, destination, k); v.Goes? ==> Relay.Settled(s) && Relay.Settled(d)
  {
    if source.pending.None? { Relay.ReadCases(source, k); }
    Relay.ForwardSettles(Relay.ReadSide(source, k).0, destination, k);
  }

  lemma TurnSettles(p: Relay.Pair, k: Relay.Turn)
    requires PairSettled(p)
    ensures var (q, v) := Relay.TurnStep(p, k); v.Goes? ==> PairSettled(q)
  {
    FlushSettles(p.target, k.flushTarget, k.at);
    FlushSettles(p.initiator, k.flushInitiator, k.at);
    var t1, i2 := Relay.FlushSide(p.target, k.flushTarget, k.at).0, Relay.FlushSide(p.initiator, k.flushInitiator, k.at).0;
    StepSettles(i2, t1, k.up);
    var (i3, t3, v3) := Relay.RelayStep(i2, t1, k.up);
    if v3.Goes? { StepSettles(t3, i3, k.down); }
  }

  lemma NearTurnIsSteady(p: Path, k: Bridge.Turn)
    requires Bridge.Conserves(p.near)
    ensures Steady(p) ==> Steady(NearStep(p, k))
  {
    Bridge.TurnConserves(p.near, k);
  }

  lemma FarTurnIsSteady(p: Path, k: Bridge.Turn)
    requires Bridge.Conserves(p.far)
    ensures Steady(p) ==> Steady(FarStep(p, k))
  {
    Bridge.TurnConserves(p.far, k);
  }

  lemma RelayTurnIsSteady(p: Path, k: Relay.Turn)
    ensures Steady(p) ==> Steady(RelayStep(p, k))
  {
    if p.relayRuns && PairSettled(p.pair) { TurnSettles(p.pair, k); }
  }

  lemma ArrivalIsSteady(p: Path, link: Link, frames: nat)
    requires Counted(p)
    ensures Steady(p) ==> Steady(ArrivalStep(p, link, frames))
  {
    match link
    case NearUp => case NearDown => case FarUp => case FarDown =>
  }

  lemma NoiseIsSteady(p: Path, link: Link, frame: Frame)
    ensures Steady(p) ==> Steady(NoiseStep(p, link, frame))
  {
    match link
    case NearUp => case NearDown => case FarUp => case FarDown =>
  }

  // -----------------------------------------------------------------------------------------------------------------
  // Every event keeps the path sound
  // -----------------------------------------------------------------------------------------------------------------

  lemma NearKeeps(p: Path, near: Bridge.Pump, runs: bool)
    requires Sound(p) && Bridge.Conserves(near) && Used(p.near.ws, near.ws)
    ensures Sound(p.(near := near, nearRuns := runs))
  {
    UseKeepsLinks(p.near.ws, p.pair.initiator.ws, near.ws, p.pair.initiator.ws, p.counts.nearUp);
    UseKeepsLinks(p.pair.initiator.ws, p.near.ws, p.pair.initiator.ws, near.ws, p.counts.nearDown);
  }

  lemma FarKeeps(p: Path, far: Bridge.Pump, runs: bool)
    requires Sound(p) && Bridge.Conserves(far) && Used(p.far.ws, far.ws)
    ensures Sound(p.(far := far, farRuns := runs))
  {
    UseKeepsLinks(p.far.ws, p.pair.target.ws, far.ws, p.pair.target.ws, p.counts.farUp);
    UseKeepsLinks(p.pair.target.ws, p.far.ws, p.pair.target.ws, far.ws, p.counts.farDown);
  }

  lemma PairKeeps(p: Path, pair: Relay.Pair, runs: bool, now: real)
    requires Sound(p) && Relay.PairOk(pair, now)
    requires Used(p.pair.initiator.ws, pair.initiator.ws) && Used(p.pair.target.ws, pair.target.ws)
    ensures Sound(p.(pair := pair, relayRuns := runs, now := now))
  {
    UseKeepsLinks(p.near.ws, p.pair.initiator.ws, p.near.ws, pair.initiator.ws, p.counts.nearUp);
    UseKeepsLinks(p.pair.initiator.ws, p.near.ws, pair.initiator.ws, p.near.ws, p.counts.nearDown);
    UseKeepsLinks(p.far.ws, p.pair.target.ws, p.far.ws, pair.target.ws, p.counts.farUp);
    UseKeepsLinks(p.pair.target.ws, p.far.ws, pair.target.ws, p.far.ws, p.counts.farDown);
  }

  lemma NearTurnKeeps(p: Path, k: Bridge.Turn)
    requires Sound(p)
    ensures Sound(NearStep(p, k))
  {
    Bridge.TurnConserves(p.near, k);
    Bridge.TurnOnlyReads(p.near, k);
    NearKeeps(p, Bridge.TurnStep(p.near, k).0, Bridge.TurnStep(p.near, k).1);
  }

  lemma FarTurnKeeps(p: Path, k: Bridge.Turn)
    requires Sound(p)
    ensures Sound(FarStep(p, k))
  {
    Bridge.TurnConserves(p.far, k);
    Bridge.TurnOnlyReads(p.far, k);
    FarKeeps(p, Bridge.TurnStep(p.far, k).0, Bridge.TurnStep(p.far, k).1);
  }

  lemma RelayTurnKeeps(p: Path, k: Relay.Turn)
    requires Sound(p)
    ensures Sound(RelayStep(p, k))
  {
    if Relay.Clocked(k, p.now) {
      Relay.TurnKeeps(p.pair, k, p.now);
      TurnUses(p.pair, k);
      PairKeeps(p, Relay.TurnStep(p.pair, k).0, Relay.TurnStep(p.pair, k).1.Goes?, k.down.sendAt);
    }
  }

  // What reaches an end changes only its inbox.

  lemma InitiatorHears(p: Path, ws: Ws, count: nat)
    requires Sound(p) && ws == p.pair.initiator.ws.(inbox := ws.inbox) && Linked(p.near.ws, ws, count)
    ensures Sound(InitiatorReads(p, ws).(counts := p.counts.(nearUp := count)))
  {
  }

  lemma NearHears(p: Path, ws: Ws, count: nat)
    requires Sound(p) && ws == p.near.ws.(inbox := ws.inbox) && Linked(p.pair.initiator.ws, ws, count)
    ensures Sound(NearReads(p, ws).(counts := p.counts.(nearDown := count)))
  {
  }

  lemma TargetHears(p: Path, ws: Ws, count: nat)
    requires Sound(p) && ws == p.pair.target.ws.(inbox := ws.inbox) && Linked(p.far.ws, ws, count)
    ensures Sound(TargetReads(p, ws).(counts := p.counts.(farUp := count)))
  {
  }

  lemma FarHears(p: Path, ws: Ws, count: nat)
    requires Sound(p) && ws == p.far.ws.(inbox := ws.inbox) && Linked(p.pair.target.ws, ws, count)
    ensures Sound(FarReads(p, ws).(counts := p.counts.(farDown := count)))
  {
  }

  lemma FramesArrive(sender: Ws, receiver: Ws, count: nat, frames: nat) returns (ws: Ws, n: nat)
    requires Linked(sender, receiver, count)
    ensures (ws, n) == Arrival(sender, receiver, count, frames) && Linked(sender, ws, n) && ws == receiver.(inbox := ws.inbox)
  {
    ArrivalLinks(sender, receiver, count, frames);
    var t := Arrival(sender, receiver, count, frames);
    ws, n := t.0, t.1;
  }

  lemma ArrivalKeeps(p: Path, link: Link, frames: nat)
    requires Sound(p)
    ensures Sound(ArrivalStep(p, link, frames))
  {
    match link
    case NearUp =>
      var ws, n := FramesArrive(p.near.ws, p.pair.initiator.ws, p.counts.nearUp, frames);
      InitiatorHears(p, ws, n);
    case NearDown =>
      var ws, n := FramesArrive(p.pair.initiator.ws, p.near.ws, p.counts.nearDown, frames);
      NearHears(p, ws, n);
    case FarUp =>
      var ws, n := FramesArrive(p.far.ws, p.pair.target.ws, p.counts.farUp, frames);
      TargetHears(p, ws, n);
    case FarDown =>
      var ws, n := FramesArrive(p.pair.target.ws, p.far.ws, p.counts.farDown, frames);
      FarHears(p, ws, n);
  }

  lemma NoiseKeeps(p: Path, link: Link, frame: Frame)
    requires Sound(p)
    ensures Sound(NoiseStep(p, link, frame))
  {
    if !Relayable(frame) {
      match link
      case NearUp =>
        NoiseLinks(p.near.ws, p.pair.initiator.ws, p.counts.nearUp, frame);
        InitiatorHears(p, WithFrames(p.pair.initiator.ws, [frame]), p.counts.nearUp);
      case NearDown =>
        NoiseLinks(p.pair.initiator.ws, p.near.ws, p.counts.nearDown, frame);
        NearHears(p, WithFrames(p.near.ws, [frame]), p.counts.nearDown);
      case FarUp =>
        NoiseLinks(p.far.ws, p.pair.target.ws, p.counts.farUp, frame);
        TargetHears(p, WithFrames(p.pair.target.ws, [frame]), p.counts.farUp);
      case FarDown =>
        NoiseLinks(p.pair.target.ws, p.far.ws, p.counts.farDown, frame);
        FarHears(p, WithFrames(p.far.ws, [frame]), p.counts.farDown);
    }
  }

  lemma TypingKeeps(p: Path, bytes: seq<byte>)
    requires Sound(p)
    ensures Sound(p.(near := WithInput(p.near, bytes))) && Sound(p.(far := WithInput(p.far, bytes)))
  {
    InputConserves(p.near, bytes);
    InputConserves(p.far, bytes);
  }

  ghost function Run(p: Path, events: seq<Event>): (q: Path)
    requires Sound(p)
    ensures Sound(q)
    decreases |events|
  {
    if events == [] then p
    else
      Run(Next(p, events[0]), events[1..])
  }

  /** All that the local program at one end has handed to its bridge. */
  function Given(p: Bridge.Pump): seq<byte> { p.tcp.consumed + p.tcp.incoming }

  function NearTyped(events: seq<Event>): seq<byte> {
    if events == [] then [] else NearAdds(events[0]) + NearTyped(events[1..])
  }

  function FarTyped(events: seq<Event>): seq<byte> {
    if events == [] then [] else FarAdds(events[0]) + FarTyped(events[1..])
  }

  function NearAdds(e: Event): seq<byte> { if e.NearTypes? then e.bytes else [] }

  function FarAdds(e: Event): seq<byte> { if e.FarTypes? then e.bytes else [] }

  /** What was given at both ends has grown by so much. */
  predicate Gave(p: Path, q: Path, near: seq<byte>, far: seq<byte>) {
    Grown(Given(p.near), Given(q.near), near) && Grown(Given(p.far), Given(q.far), far)
  }

  predicate Grown(before: seq<byte>, after: seq<byte>, more: seq<byte>) { after == before + more }

  lemma GrownTwice(a: seq<byte>, b: seq<byte>, c: seq<byte>, more: seq<byte>, rest: seq<byte>)
    requires Grown(a, b, more) && Grown(b, c, rest)
    ensures Grown(a, c, more + rest)
  {
    assert a + (more + rest) == a + more + rest;
  }

  lemma GaveNothing(p: Path, q: Path)
    requires Given(q.near) == Given(p.near) && Given(q.far) == Given(p.far)
    ensures Gave(p, q, [], [])
  {
    assert Given(p.near) + [] == Given(p.near) && Given(p.far) + [] == Given(p.far);
  }

  lemma InputGives(p: Bridge.Pump, bytes: seq<byte>)
    ensures Grown(Given(p), Given(WithInput(p, bytes)), bytes) && Grown(Given(p), Given(p), [])
  {
    assert p.tcp.consumed + (p.tcp.incoming + bytes) == Given(p) + bytes;
    assert Given(p) + [] == Given(p);
  }

  lemma NearTurnGives(p: Path, k: Bridge.Turn)
    requires Bridge.Conserves(p.near)
    ensures Gave(p, NearStep(p, k), [], [])
  {
    Bridge.TurnOnlyReads(p.near, k);
    GaveNothing(p, NearStep(p, k));
  }

  lemma FarTurnGives(p: Path, k: Bridge.Turn)
    requires Bridge.Conserves(p.far)
    ensures Gave(p, FarStep(p, k), [], [])
  {
    Bridge.TurnOnlyReads(p.far, k);
    GaveNothing(p, FarStep(p, k));
  }

  lemma ArrivalGives(p: Path, link: Link, frames: nat)
    requires Counted(p)
    ensures Gave(p, ArrivalStep(p, link, frames), [], [])
  {
    match link
    case NearUp => GaveNothing(p, ArrivalStep(p, link, frames));
    case NearDown => GaveNothing(p, ArrivalStep(p, link, frames));
    case FarUp => GaveNothing(p, ArrivalStep(p, link, frames));
    case FarDown => GaveNothing(p, ArrivalStep(p, link, frames));
  }

  lemma NoiseGives(p: Path, link: Link, frame: Frame)
    ensures Gave(p, NoiseStep(p, link, frame), [], [])
  {
    GaveNothing(p, NoiseStep(p, link, frame));
  }

  lemma TypingGives(p: Path, bytes: seq<byte>)
    ensures Gave(p, p.(near := WithInput(p.near, bytes)), bytes, []) && Gave(p, p.(far := WithInput(p.far, bytes)), [], bytes)
  {
    InputGives(p.near, bytes);
    InputGives(p.far, bytes);
  }

  lemma GaveTwice(p: Path, q: Path, r: Path, events: seq<Event>)
    requires events != [] && Gave(p, q, NearAdds(events[0]), FarAdds(events[0]))
    requires Gave(q, r, NearTyped(events[1..]), FarTyped(events[1..]))
    ensures Gave(p, r, NearTyped(events), FarTyped(events))
  {
    GrownTwice(Given(p.near), Given(q.near), Given(r.near), NearAdds(events[0]), NearTyped(events[1..]));
    GrownTwice(Given(p.far), Given(q.far), Given(r.far), FarAdds(events[0]), FarTyped(events[1..]));
  }

  /** The rest of a run, and what its first event adds to what was given. */
  lemma FirstEvent(p: Path, events: seq<Event>) returns (q: Path)
    requires Sound(p) && events != []
    ensures Sound(q) && Run(p, events) == Run(q, events[1..])
    ensures Gave(p, q, NearAdds(events[0]), FarAdds(events[0]))
  {
    q := Next(p, events[0]);
  }

  lemma {:induction false} RunGives(p: Path, events: seq<Event>) returns (q: Path)
    requires Sound(p)
    ensures q == Run(p, events)
    ensures Gave(p, q, NearTyped(events), FarTyped(events))
    decreases |events|
  {
    if events == [] {
      q := p;
      GaveNothing(p, q);
    } else {
      var next := FirstEvent(p, events);
      q := RunGives(next, events[1..]);
      GaveTwice(p, next, q, events);
    }
  }

  lemma LinkIsConnected(sender: Ws, receiver: Ws, count: nat)
    requires Linked(sender, receiver, count)
    ensures Connected(sender, receiver)
  {
    PayloadsSplit(receiver.received, receiver.inbox);
    PayloadsOfPrefix(sender.transmitted[..count], sender.transmitted);
  }

  lemma SoundPathKeepsOrder(p: Path)
    requires Sound(p)
    ensures p.far.tcp.written <= p.near.tcp.consumed && p.near.tcp.written <= p.far.tcp.consumed
    ensures Drained(p.near, p.pair.initiator, p.pair.target, p.far) ==> p.far.tcp.written == p.near.tcp.consumed
    ensures Drained(p.far, p.pair.target, p.pair.initiator, p.near) ==> p.near.tcp.written == p.far.tcp.consumed
  {
    LinkIsConnected(p.near.ws, p.pair.initiator.ws, p.counts.nearUp);
    LinkIsConnected(p.pair.initiator.ws, p.near.ws, p.counts.nearDown);
    LinkIsConnected(p.far.ws, p.pair.target.ws, p.counts.farUp);
    LinkIsConnected(p.pair.target.ws, p.far.ws, p.counts.farDown);
    FarSideIsPrefix(p.near, p.pair.initiator, p.pair.target, p.far);
    FarSideIsPrefix(p.far, p.pair.target, p.pair.initiator, p.near);
    if Drained(p.near, p.pair.initiator, p.pair.target, p.far) { DrainedPathIsComplete(p.near, p.pair.initiator, p.pair.target, p.far); }
    if Drained(p.far, p.pair.target, p.pair.initiator, p.near) { DrainedPathIsComplete(p.far, p.pair.target, p.pair.initiator, p.near); }
  }

  /**
   In every run from fresh ends, however turns, deliveries, noise and input interleave: what either local program has
   received is a beginning of what the other one has given, and all of what was read from it once the way is drained.
   */
  lemma EveryRunKeepsOrder(nearGiven: seq<byte>, farGiven: seq<byte>, limit: Option<nat>, now: real, events: seq<Event>) returns (p: Path)
    ensures p == Run(Start(nearGiven, farGiven, limit, now), events)
    ensures p.far.tcp.written <= nearGiven + NearTyped(events) && p.near.tcp.written <= farGiven + FarTyped(events)
    ensures Drained(p.near, p.pair.initiator, p.pair.target, p.far) && p.near.tcp.incoming == [] ==>
              p.far.tcp.written == nearGiven + NearTyped(events)
    ensures Drained(p.far, p.pair.target, p.pair.initiator, p.near) && p.far.tcp.incoming == [] ==>
              p.near.tcp.written == farGiven + FarTyped(events)
  {
    p := RunGives(Start(nearGiven, farGiven, limit, now), events);
    SoundPathKeepsOrder(p);
    assert [] + nearGiven == nearGiven && [] + farGiven == farGiven;
    assert p.near.tcp.consumed <= Given(p.near) && p.far.tcp.consumed <= Given(p.far);
    assert p.near.tcp.incoming == [] ==> Given(p.near) == p.near.tcp.consumed;
    assert p.far.tcp.incoming == [] ==> Given(p.far) == p.far.tcp.consumed;
  }
}

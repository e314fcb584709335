/** Pacing at the time of forwarding: which hand-overs keep the limit, and one run in which it is exceeded. */
module HandOver {
  import opened Wrappers
  import opened Sockets
  import opened Pacing
  import opened Relay

  /** How much later than its due time a message was handed over. */
  function Lateness(e: Side, i: nat): real
    requires i < |e.forwards| <= |e.arrivals|
  {
    e.forwards[i] - Due(e.start, e.arrivals, i)
  }

  /** A window that opens with one hand-over exceeds the limit by at most that message's lateness. */
  lemma LatenessIsTheExcess(e: Side, now: real, i: nat, j: nat)
    requires Timed(e, now) && Paced(e.start) && i < j < |e.forwards|
    ensures Lateness(e, i) >= 0.0
    ensures Span(e.arrivals, i, j, e.start.limit.value) <= e.forwards[j] - e.forwards[i] + Lateness(e, i)
  {
    DueTimesKeepTheLimit(e.start, e.arrivals, i, j);
  }

  /** A message handed over when due opens no window that exceeds the limit, however the run goes on. */
  lemma OnTimeKeepsTheLimit(e: Side, now: real, i: nat, j: nat)
    requires Timed(e, now) && Paced(e.start) && i < j < |e.forwards| && Lateness(e, i) == 0.0
    ensures Span(e.arrivals, i, j, e.start.limit.value) <= e.forwards[j] - e.forwards[i]
  {
    LatenessIsTheExcess(e, now, i, j);
  }

  /** The message at an index and the next one went out closer together than the limit allows. */
  predicate Bunched(e: Side, i: nat) {
    && i + 1 < |e.forwards| <= |e.arrivals| && Paced(e.start)
    && e.forwards[i + 1] - e.forwards[i] < Span(e.arrivals, i, i + 1, e.start.limit.value)
  }

  /** The last message read has just been handed over, and another one follows. */
  ghost predicate JustHandedOver(e: Side, now: real) {
    && Timed(e, now) && Paced(e.start) && e.pending.None?
    && e.forwards != [] && e.forwards[|e.forwards| - 1] == now
    && e.ws.inbox != [] && Relayable(e.ws.inbox[0])
  }

  /** What one direction does in the next turn: the destination is flushed, then the next message read and handed over. */
  function Onward(source: Side, destination: Side, flush: Progress, k: Plan, now: real): Side {
    RelayStep(source, FlushSide(destination, flush, now).0, k).0
  }

  /** Some next turn puts two messages into a window too small for the first of them. */
  ghost predicate CanBunch(source: Side, destination: Side, now: real)
    requires source.forwards != []
  {
    exists flush: Progress, k: Plan :: now <= k.readAt <= k.sendAt && Bunched(Onward(source, destination, flush, k, now), |source.forwards| - 1)
  }

  lemma LimitIsKept(e: Side, now: real)
    requires Timed(e, now)
    ensures e.limiter.limit == e.start.limit
  {
    LimitStays(e.start, e.arrivals);
  }

  lemma LastSpan(arrivals: seq<Arrival>, i: nat, limit: nat)
    requires i < |arrivals| && limit > 0
    ensures Span(arrivals, i, i + 1, limit) == Duration(arrivals[i].size, limit)
  {
    assert Span(arrivals, i, i, limit) == 0.0;
  }

  /** Reading the next message at once and handing it over when due. */
  lemma Continuation(source: Side, destination: Side, now: real) returns (flush: Progress, k: Plan, due: real)
    requires JustHandedOver(source, now)
    ensures now <= k.readAt <= k.sendAt && due == MaxReal(source.limiter.next, now)
    ensures var s, a := Onward(source, destination, flush, k, now), Arrival(|source.ws.inbox[0].bytes|, now);
            s.arrivals == source.arrivals + [a] && s.forwards == source.forwards + [due] && s.start == source.start
  {
    LimitIsKept(source, now);
    due := MaxReal(source.limiter.next, now);
    flush, k := Moves(|destination.ws.retained|), Plan(Moves(1), now, Moves(0), due);
  }

  /** The limiter runs ahead of the last due time by exactly that message's time. */
  lemma NextAfterLast(e: Side, now: real)
    requires Timed(e, now) && Paced(e.start) && e.arrivals != []
    ensures var n := |e.arrivals| - 1; e.limiter.next == Due(e.start, e.arrivals, n) + Duration(e.arrivals[n].size, e.start.limit.value)
  {
    AfterStep(e.start, e.arrivals, |e.arrivals| - 1);
    assert e.arrivals[..|e.arrivals|] == e.arrivals;
  }

  /** A late hand-over of a message that takes time can be followed by another within less than that time. */
  lemma LateCanBunch(source: Side, destination: Side, now: real)
    requires JustHandedOver(source, now)
    requires var n := |source.forwards| - 1; source.arrivals[n].size > 0 && Lateness(source, n) > 0.0
    ensures CanBunch(source, destination, now)
  {
    var n, limit := |source.forwards| - 1, source.start.limit.value;
    var flush, k, due := Continuation(source, destination, now);
    NextAfterLast(source, now);
    TakesTime(source.arrivals[n].size, limit);
    var s := Onward(source, destination, flush, k, now);
    LastSpan(s.arrivals, n, limit);
    assert Bunched(s, n);
  }

  lemma TakesTime(bytes: nat, limit: nat)
    requires bytes > 0 && limit > 0
    ensures Duration(bytes, limit) > 0.0
  {
  }

  lemma ReadGrows(e: Side, k: Plan)
    ensures var r := ReadSide(e, k).0; r.start == e.start && e.arrivals <= r.arrivals && r.forwards == e.forwards
  {
  }

  lemma ForwardGrows(source: Side, destination: Side, k: Plan, now: real)
    requires Timed(source, now) && now <= k.sendAt
    ensures var s := ForwardSide(source, destination, k).0;
            Timed(s, k.sendAt) && s.start == source.start && s.arrivals == source.arrivals && source.forwards <= s.forwards
  {
    TimePasses(source, now, k.sendAt);
    if source.pending.Some? && source.ready <= k.sendAt { HandOverKeepsTime(source, k.sendAt, now); }
  }

  lemma StepGrows(source: Side, destination: Side, k: Plan, now: real) returns (s: Side)
    requires Timed(source, now) && now <= k.readAt <= k.sendAt
    ensures s == RelayStep(source, destination, k).0 && Timed(s, k.sendAt) && s.start == source.start
    ensures source.arrivals <= s.arrivals && source.forwards <= s.forwards
  {
    ReadKeepsTime(source, k, now);
    ReadGrows(source, k);
    var (r, v) := ReadSide(source, k);
    TimePasses(r, k.readAt, k.sendAt);
    if v.Goes? { ForwardGrows(r, destination, k, k.readAt); }
    s := if v.Goes? then ForwardSide(r, destination, k).0 else r;
  }

  /**
   Exactly when the limit is safe after a hand-over: for a message that takes time, some next turn bunches it with the
   following one if and only if it went out later than it was due.
   */
  lemma BunchingNeedsLateness(source: Side, destination: Side, now: real)
    requires JustHandedOver(source, now) && source.arrivals[|source.forwards| - 1].size > 0
    ensures CanBunch(source, destination, now) <==> Lateness(source, |source.forwards| - 1) > 0.0
  {
    var n := |source.forwards| - 1;
    if Lateness(source, n) > 0.0 {
      LateCanBunch(source, destination, now);
    } else if CanBunch(source, destination, now) {
      var flush: Progress, k: Plan :| now <= k.readAt <= k.sendAt && Bunched(Onward(source, destination, flush, k, now), n);
      var s := StepGrows(source, FlushSide(destination, flush, now).0, k, now);
      DueIsStable(source.start, source.arrivals, s.arrivals, n);
      OnTimeKeepsTheLimit(s, k.sendAt, n, n + 1);
      assert false;
    }
  }

  lemma DueIsStable(l: Limiter, arrivals: seq<Arrival>, later: seq<Arrival>, i: nat)
    requires i < |arrivals| && arrivals <= later
    ensures Due(l, arrivals, i) == Due(l, later, i)
  {
    assert later[..i] == arrivals[..i];
  }

  /** A pending message goes out on time exactly if the clock shows its due time while its destination is not writing. */
  lemma OnTimeIffFree(source: Side, destination: Side, k: Plan, now: real)
    requires Timed(source, now) && source.pending.Some?
    ensures var s, n := ForwardSide(source, destination, k).0, |source.forwards|;
            |s.forwards| > n && Lateness(s, n) == 0.0 <==> !destination.writing && k.sendAt == source.ready
  {
  }

  // -----------------------------------------------------------------------------------------------------------------
  // A run that exceeds the limit
  // -----------------------------------------------------------------------------------------------------------------

  const ONE: Frame := Binary([0])
  const BIT_RATE: Option<nat> := Some(8)
  const IDLE: Progress := Moves(0)

  /** The initiator pings, the target sends two messages of one second each; nothing has been read yet. */
  function AtStart(): Pair { Pair(Fresh(Ws([ONE, ONE], [], [], []), BIT_RATE, 0.0), Fresh(Ws([Ping], [], [], []), BIT_RATE, 0.0)) }

  /** At time 0 the ping makes its side busy, and the first message is due but has to wait. */
  function Busy(): Turn { Turn(IDLE, IDLE, 0.0, Plan(Moves(1), 0.0, IDLE, 0.0), Plan(Moves(1), 0.0, IDLE, 0.0)) }

  /** At time 1 the way is free, and the first message goes out a second late. */
  function Freed(): Turn { Turn(IDLE, Moves(1), 1.0, Plan(IDLE, 1.0, IDLE, 1.0), Plan(IDLE, 1.0, Moves(1), 1.0)) }

  /** Still at time 1 the second message is read, due at once, and goes out too. */
  function Again(): Turn { Turn(IDLE, IDLE, 1.0, Plan(IDLE, 1.0, IDLE, 1.0), Plan(Moves(1), 1.0, Moves(1), 1.0)) }

  function FirstWaits(): Pair {
    Pair(AtStart().target.(ws := Ws([ONE], [ONE], [], []), pending := Some([0]), ready := 0.0, limiter := Limiter(BIT_RATE, 1.0),
                           arrivals := [Arrival(1, 0.0)]),
         AtStart().initiator.(ws := Ws([], [Ping], [Pong], []), writing := true, since := 0.0))
  }

  function FirstIsOut(): Pair {
    Pair(FirstWaits().target.(pending := None, forwards := [1.0]),
         FirstWaits().initiator.(ws := Ws([], [Ping], [], [Pong, ONE]), writing := false))
  }

  lemma BusyTurn()
    ensures TurnStep(AtStart(), Busy()) == (FirstWaits(), Goes)
  {
    assert Duration(1, 8) == 1.0;
    assert [ONE, ONE][1..] == [ONE] && [Ping][1..] == [] && [] + [Ping] == [Ping] && [] + [Pong] == [Pong] && [] + [ONE] == [ONE];
    assert [] + [Arrival(1, 0.0)] == [Arrival(1, 0.0)];
    var (i, t, u) := RelayStep(AtStart().initiator, AtStart().target, Busy().up);
    assert u.Goes? && i == FirstWaits().initiator && t == AtStart().target;
    var nothing: seq<Frame> := [];
    assert nothing + nothing == nothing;
    var (a, d) := ReadSide(t, Busy().down);
    assert d.Goes? && a == FirstWaits().target;
  }

  lemma FreedTurn()
    ensures TurnStep(FirstWaits(), Freed()) == (FirstIsOut(), Goes)
  {
    assert [Pong][..1] == [Pong] && [Pong][1..] == [] && [] + [Pong] == [Pong] && [] + [ONE] == [ONE];
    assert [ONE][..1] == [ONE] && [ONE][1..] == [] && [Pong] + [ONE] == [Pong, ONE] && [] + [1.0] == [1.0];
  }

  lemma AgainTurn()
    ensures var (p, v) := TurnStep(FirstIsOut(), Again());
            v.Goes? && p.target.forwards == [1.0, 1.0] && p.target.arrivals == [Arrival(1, 0.0), Arrival(1, 1.0)] && p.target.start == AtStart().target.start
  {
  }

  lemma RunOfThree(p: Pair, a: Turn, b: Turn, c: Turn)
    requires TurnStep(p, a).1.Goes? && TurnStep(TurnStep(p, a).0, b).1.Goes?
    ensures Run(p, [a, b, c]) == TurnStep(TurnStep(TurnStep(p, a).0, b).0, c).0
  {
    assert [a, b, c][1..] == [b, c] && [b, c][1..] == [c] && [c][1..] == [];
    var q := TurnStep(TurnStep(p, a).0, b).0;
    assert Run(TurnStep(q, c).0, []) == TurnStep(q, c).0;
    assert Run(q, [c]) == TurnStep(q, c).0;
    assert Run(TurnStep(p, a).0, [b, c]) == Run(q, [c]);
  }

  /** So a window of no length can carry two messages, each of which fills a second at the limit. */
  lemma LimitCanBeExceeded() returns (turns: seq<Turn>, p: Pair)
    ensures AllClocked(turns, 0.0) && p == Run(AtStart(), turns) && PairOk(AtStart(), 0.0)
    ensures p.target.forwards == [1.0, 1.0] && |p.target.arrivals| == 2 && Span(p.target.arrivals, 0, 1, BIT_RATE.value) == 1.0
  {
    BusyTurn();
    FreedTurn();
    AgainTurn();
    turns := [Busy(), Freed(), Again()];
    RunOfThree(AtStart(), Busy(), Freed(), Again());
    p := TurnStep(FirstIsOut(), Again()).0;
    FreshPairIsOk(AtStart().target.ws, AtStart().initiator.ws, BIT_RATE, 0.0);
    LastSpan(p.target.arrivals, 0, 8);
    InOrder();
  }

  lemma InOrder()
    ensures AllClocked([Busy(), Freed(), Again()], 0.0)
  {
    var a, b, c := Busy(), Freed(), Again();
    assert [a, b, c][1..] == [b, c] && [b, c][1..] == [c] && [c][1..] == [];
  }
}

/** Systems that come to rest under any schedule that goes on giving every part its turn. */
module Fairness {

  /**
   States in which the system runs, events that put nothing new into it, a number that measures what is under way, and for
   every part whether it has work and whether an event is its turn.
   */
  datatype System<!S, !E, !P> = System(next: (S, E) -> S, runs: S -> bool, calm: E -> bool, rank: S -> nat, work: (S, P) -> bool,
                                       serves: (S, P, E) -> bool)

  /** Something comes nearer to its end, or everything stays where it is and no part with work has had its turn. */
  ghost predicate Progresses<S(!new), E, P(!new)>(y: System<S, E, P>, s: S, e: E) {
    || y.rank(y.next(s, e)) < y.rank(s)
    || (y.rank(y.next(s, e)) == y.rank(s)
        && forall p: P :: (y.work(s, p) <==> y.work(y.next(s, e), p)) && !(y.work(s, p) && y.serves(s, p, e)))
  }

  ghost predicate Rests<S, E, P(!new)>(y: System<S, E, P>, s: S) { forall p: P :: !y.work(s, p) }

  ghost predicate Fair<S(!new), E(!new), P(!new)>(y: System<S, E, P>) {
    && (forall s: S, e: E {:trigger y.next(s, e)} :: y.runs(s) && y.calm(e) && y.runs(y.next(s, e)) ==> Progresses(y, s, e))
    && (forall s: S {:trigger y.rank(s)} :: y.runs(s) && Rests(y, s) ==> y.rank(s) == 0)
  }

  function Fold<S, E, P>(y: System<S, E, P>, s: S, events: seq<E>): S
    decreases |events|
  {
    if events == [] then s else Fold(y, y.next(s, events[0]), events[1..])
  }

  lemma {:induction false} FoldInSteps<S, E, P>(y: System<S, E, P>, s: S, a: seq<E>, b: seq<E>)
    ensures Fold(y, s, a + b) == Fold(y, Fold(y, s, a), b)
    decreases |a|
  {
    if a == [] {
      assert a + b == b;
    } else {
      assert (a + b)[0] == a[0] && (a + b)[1..] == a[1..] + b;
      FoldInSteps(y, y.next(s, a[0]), a[1..], b);
    }
  }

  /** The system runs throughout, and nothing new is put into it. */
  predicate GoesOn<S, E, P>(y: System<S, E, P>, s: S, events: seq<E>)
    decreases |events|
  {
    y.runs(s) && (events == [] || (y.calm(events[0]) && GoesOn(y, y.next(s, events[0]), events[1..])))
  }

  /** At some point among these events the part gets its turn. */
  predicate Served<S, E, P>(y: System<S, E, P>, s: S, p: P, events: seq<E>)
    decreases |events|
  {
    events != [] && (y.serves(s, p, events[0]) || Served(y, y.next(s, events[0]), p, events[1..]))
  }

  /** Some events in which every part gets its turn, in any order and among any others. */
  ghost predicate Round<S, E, P(!new)>(y: System<S, E, P>, s: S, events: seq<E>) {
    GoesOn(y, s, events) && forall p: P :: Served(y, s, p, events)
  }

  ghost predicate Rounds<S, E, P(!new)>(y: System<S, E, P>, s: S, rounds: seq<seq<E>>)
    decreases |rounds|
  {
    rounds == [] || (Round(y, s, rounds[0]) && Rounds(y, Fold(y, s, rounds[0]), rounds[1..]))
  }

  function Joined<E>(rounds: seq<seq<E>>): seq<E> { if rounds == [] then [] else rounds[0] + Joined(rounds[1..]) }

  lemma {:induction false} GoingOnEases<S(!new), E(!new), P(!new)>(y: System<S, E, P>, s: S, events: seq<E>) returns (t: S)
    requires Fair(y) && GoesOn(y, s, events)
    ensures t == Fold(y, s, events) && y.runs(t) && y.rank(t) <= y.rank(s)
    ensures y.rank(t) == y.rank(s) ==> forall p: P :: (y.work(s, p) <==> y.work(t, p)) && !(y.work(s, p) && Served(y, s, p, events))
    decreases |events|
  {
    t := s;
    if events != [] {
      var u := y.next(s, events[0]);
      assert Progresses(y, s, events[0]);
      t := GoingOnEases(y, u, events[1..]);
    }
  }

  lemma RoundEases<S(!new), E(!new), P(!new)>(y: System<S, E, P>, s: S, events: seq<E>) returns (t: S)
    requires Fair(y) && Round(y, s, events)
    ensures t == Fold(y, s, events) && y.runs(t) && y.rank(t) <= y.rank(s)
    ensures y.rank(t) == y.rank(s) ==> Rests(y, s) && Rests(y, t)
  {
    t := GoingOnEases(y, s, events);
  }

  /** After more rounds than there is under way, nothing is under way. */
  lemma {:induction false} RoundsBringRest<S(!new), E(!new), P(!new)>(y: System<S, E, P>, s: S, rounds: seq<seq<E>>) returns (t: S)
    requires Fair(y) && y.runs(s) && Rounds(y, s, rounds)
    ensures t == Fold(y, s, Joined(rounds)) && y.runs(t)
    ensures Rests(y, t) || y.rank(t) + |rounds| <= y.rank(s)
    decreases |rounds|
  {
    t := s;
    if rounds != [] {
      var u := RoundEases(y, s, rounds[0]);
      t := RoundsBringRest(y, u, rounds[1..]);
      FoldInSteps(y, s, rounds[0], Joined(rounds[1..]));
    }
  }

  lemma {:induction false} GoingOnIsCalm<S, E, P>(y: System<S, E, P>, s: S, events: seq<E>)
    requires GoesOn(y, s, events)
    ensures forall e | e in events :: y.calm(e)
    decreases |events|
  {
    if events != [] { GoingOnIsCalm(y, y.next(s, events[0]), events[1..]); }
  }

  lemma {:induction false} RoundsAreCalm<S, E, P(!new)>(y: System<S, E, P>, s: S, rounds: seq<seq<E>>)
    requires Rounds(y, s, rounds)
    ensures forall e | e in Joined(rounds) :: y.calm(e)
    decreases |rounds|
  {
    if rounds != [] {
      GoingOnIsCalm(y, s, rounds[0]);
      RoundsAreCalm(y, Fold(y, s, rounds[0]), rounds[1..]);
    }
  }

  // -----------------------------------------------------------------------------------------------------------------
  // There are such schedules
  // -----------------------------------------------------------------------------------------------------------------

  /** In every lively state each part can be given its turn, and the state stays lively. */
  ghost predicate Servable<S(!new), E, P(!new)>(y: System<S, E, P>, lively: S -> bool, serve: (S, P) -> E) {
    && (forall s: S {:trigger lively(s)} :: lively(s) ==> y.runs(s))
    && (forall s: S, p: P {:trigger serve(s, p)} ::
          lively(s) ==> y.calm(serve(s, p)) && y.serves(s, p, serve(s, p)) && lively(y.next(s, serve(s, p))))
  }

  lemma {:induction false} PartsAreServed<S(!new), E, P(!new)>(y: System<S, E, P>, lively: S -> bool, serve: (S, P) -> E, s: S, parts: seq<P>)
    returns (events: seq<E>)
    requires Servable(y, lively, serve) && lively(s)
    ensures GoesOn(y, s, events) && lively(Fold(y, s, events))
    ensures forall p | p in parts :: Served(y, s, p, events)
    decreases |parts|
  {
    events := [];
    if parts != [] {
      var e := serve(s, parts[0]);
      var rest := PartsAreServed(y, lively, serve, y.next(s, e), parts[1..]);
      events := [e] + rest;
      assert events[0] == e && events[1..] == rest;
      forall p | p in parts ensures Served(y, s, p, events) {
        assert p == parts[0] || p in parts[1..];
      }
    }
  }

  lemma {:induction false} RoundsExist<S(!new), E, P(!new)>(y: System<S, E, P>, lively: S -> bool, serve: (S, P) -> E, s: S, all: seq<P>, n: nat)
    returns (rounds: seq<seq<E>>)
    requires Servable(y, lively, serve) && lively(s) && forall p: P :: p in all
    ensures |rounds| == n && Rounds(y, s, rounds)
    decreases n
  {
    rounds := [];
    if n > 0 {
      var events := PartsAreServed(y, lively, serve, s, all);
      var rest := RoundsExist(y, lively, serve, Fold(y, s, events), all, n - 1);
      rounds := [events] + rest;
      assert rounds[0] == events && rounds[1..] == rest;
    }
  }
}

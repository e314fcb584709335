/** Rate limiting: when each message of a stream may go out. Times are real seconds. */
module Pacing {
  import opened Wrappers

  datatype Limiter = Limiter(limit: Option<nat>, next: real)

  predicate Paced(l: Limiter) { l.limit.Some? && l.limit.value > 0 }

  function MaxReal(a: real, b: real): real { if a < b then b else a }

  function Duration(bytes: nat, limit: nat): real
    requires limit > 0
  {
    bytes as real * 8.0 / limit as real
  }

  function ReserveStep(l: Limiter, bytes: nat, now: real): (real, Limiter) {
    if !Paced(l) then (now, l)
    else
      var due := MaxReal(l.next, now);
      (due, l.(next := due + Duration(bytes, l.limit.value)))
  }

  class RateLimiter {
    const maxBitrate: Option<nat>
    var next: real

    ghost function Value(): Limiter reads this { Limiter(maxBitrate, next) }

    constructor (maxBitrate: Option<nat>, now: real)
      ensures Value() == Limiter(maxBitrate, now)
    {
      this.maxBitrate, next := maxBitrate, now;
    }

    method Reserve(bytes: nat, now: real) returns (due: real)
      modifies this
      ensures (due, Value()) == ReserveStep(old(Value()), bytes, now)
      ensures now <= due
      ensures Paced(Value()) ==> old(next) <= due <= next
    {
      if Paced(Value()) { DurationIsPositive(bytes, maxBitrate.value); }
      if maxBitrate.None? || maxBitrate.value == 0 { return now; }
      due := MaxReal(next, now);
      next := due + Duration(bytes, maxBitrate.value);
    }
  }

  /** A message of some size, and when it asked for its turn. */
  datatype Arrival = Arrival(size: nat, at: real)

  function After(l: Limiter, arrivals: seq<Arrival>): Limiter
    decreases |arrivals|
  {
    if arrivals == [] then l
    else
      var last := arrivals[|arrivals| - 1];
      ReserveStep(After(l, arrivals[..|arrivals| - 1]), last.size, last.at).1
  }

  /** When the message at an index is due. */
  function Due(l: Limiter, arrivals: seq<Arrival>, i: nat): real
    requires i < |arrivals|
  {
    ReserveStep(After(l, arrivals[..i]), arrivals[i].size, arrivals[i].at).0
  }

  /** The bits of the messages from one index up to, not including, another. */
  function Bits(arrivals: seq<Arrival>, i: nat, j: nat): nat
    requires i <= j <= |arrivals|
  {
    if i == j then 0 else Bits(arrivals, i, j - 1) + arrivals[j - 1].size * 8
  }

  lemma {:induction false} LimitStays(l: Limiter, arrivals: seq<Arrival>)
    ensures After(l, arrivals).limit == l.limit
    decreases |arrivals|
  {
    if arrivals != [] { LimitStays(l, arrivals[..|arrivals| - 1]); }
  }

  lemma AfterStep(l: Limiter, arrivals: seq<Arrival>, i: nat)
    requires Paced(l) && i < |arrivals|
    ensures Due(l, arrivals, i) >= After(l, arrivals[..i]).next && Due(l, arrivals, i) >= arrivals[i].at
    ensures After(l, arrivals[..i + 1]).next == Due(l, arrivals, i) + Duration(arrivals[i].size, l.limit.value)
  {
    assert arrivals[..i + 1][..i] == arrivals[..i];
    LimitStays(l, arrivals[..i]);
  }

  /** How long those messages take at the limit, which SpanCoversBits makes precise. */
  function Span(arrivals: seq<Arrival>, i: nat, j: nat, limit: nat): real
    requires i <= j <= |arrivals| && limit > 0
  {
    if i == j then 0.0 else Span(arrivals, i, j - 1, limit) + Duration(arrivals[j - 1].size, limit)
  }

  lemma DurationCoversBits(bytes: nat, limit: nat, before: real)
    requires limit > 0
    ensures limit as real * (before + Duration(bytes, limit)) == limit as real * before + (bytes * 8) as real
  {
    var l, d := limit as real, Duration(bytes, limit);
    assert l * d == bytes as real * 8.0;
    assert l * (before + d) == l * before + l * d;
  }

  lemma {:induction false} SpanCoversBits(arrivals: seq<Arrival>, i: nat, j: nat, limit: nat)
    requires i <= j <= |arrivals| && limit > 0
    ensures limit as real * Span(arrivals, i, j, limit) == Bits(arrivals, i, j) as real
    decreases j
  {
    if i < j {
      SpanCoversBits(arrivals, i, j - 1, limit);
      DurationCoversBits(arrivals[j - 1].size, limit, Span(arrivals, i, j - 1, limit));
    }
  }

  lemma DurationIsPositive(bytes: nat, limit: nat)
    requires limit > 0
    ensures Duration(bytes, limit) >= 0.0
  {
  }

  lemma {:induction false} SpanIsPositive(arrivals: seq<Arrival>, i: nat, j: nat, limit: nat)
    requires i <= j <= |arrivals| && limit > 0
    ensures Span(arrivals, i, j, limit) >= 0.0
    decreases j
  {
    if i < j {
      SpanIsPositive(arrivals, i, j - 1, limit);
      DurationIsPositive(arrivals[j - 1].size, limit);
    }
  }

  /** The limiter's clock runs ahead of every due time by the time its messages take. */
  lemma {:induction false} SpanIsReserved(l: Limiter, arrivals: seq<Arrival>, i: nat, j: nat)
    requires Paced(l) && i < j <= |arrivals|
    ensures After(l, arrivals[..j]).next - Due(l, arrivals, i) >= Span(arrivals, i, j, l.limit.value)
    decreases j
  {
    AfterStep(l, arrivals, j - 1);
    if i < j - 1 {
      SpanIsReserved(l, arrivals, i, j - 1);
    } else {
      assert Span(arrivals, i, i, l.limit.value) == 0.0;
    }
  }

  /**
   For every pattern of arrivals: due times never go back, and between any two of them there is all the time that the
   messages from the first on take at the limit. A window of due times so exceeds the limit by at most its last message.
   */
  lemma DueTimesKeepTheLimit(l: Limiter, arrivals: seq<Arrival>, i: nat, j: nat)
    requires Paced(l) && i < j < |arrivals|
    ensures 0.0 <= Span(arrivals, i, j, l.limit.value) <= Due(l, arrivals, j) - Due(l, arrivals, i)
  {
    SpanIsReserved(l, arrivals, i, j);
    AfterStep(l, arrivals, j);
    SpanIsPositive(arrivals, i, j, l.limit.value);
  }

  /** Without a limit every message is due when it arrives. */
  lemma UnpacedIsImmediate(l: Limiter, arrivals: seq<Arrival>, i: nat)
    requires !Paced(l) && i < |arrivals|
    ensures Due(l, arrivals, i) == arrivals[i].at
  {
    LimitStays(l, arrivals[..i]);
  }
}

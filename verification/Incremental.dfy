/** Taking self-delimiting items off a byte buffer that fills in arbitrary pieces. */
module Incremental {
  import opened Wrappers

  /** Everything complete is taken off after each piece has been appended. */
  function FeedAll<T>(drain: seq<byte> -> (seq<T>, seq<byte>), buffer: seq<byte>, pieces: seq<seq<byte>>): (seq<T>, seq<byte>)
    decreases |pieces|
  {
    if pieces == [] then ([], buffer)
    else
      var (items, rest) := drain(buffer + pieces[0]);
      var (more, tail) := FeedAll(drain, rest, pieces[1..]);
      (items + more, tail)
  }

  /** Draining now and again later finds what draining once at the end would have found. */
  ghost predicate Resumes<T>(drain: seq<byte> -> (seq<T>, seq<byte>)) {
    forall a: seq<byte>, b: seq<byte> {:trigger drain(a + b)} ::
      drain(a + b) == (drain(a).0 + drain(drain(a).1 + b).0, drain(drain(a).1 + b).1)
  }

  ghost predicate Stops<T>(drain: seq<byte> -> (seq<T>, seq<byte>)) {
    forall a: seq<byte> {:trigger drain(a)} :: drain(drain(a).1) == ([], drain(a).1)
  }

  lemma {:induction false} SplitsDoNotMatter<T>(drain: seq<byte> -> (seq<T>, seq<byte>), buffer: seq<byte>, pieces: seq<seq<byte>>)
    requires Resumes(drain) && Stops(drain) && drain(buffer) == ([], buffer)
    ensures FeedAll(drain, buffer, pieces) == drain(buffer + Concat(pieces))
    decreases |pieces|
  {
    if pieces == [] {
      assert buffer + [] == buffer;
    } else {
      var joined, later := buffer + pieces[0], Concat(pieces[1..]);
      assert drain(drain(joined).1) == ([], drain(joined).1);
      SplitsDoNotMatter(drain, drain(joined).1, pieces[1..]);
      assert joined + later == buffer + Concat(pieces);
      assert drain(joined + later) == (drain(joined).0 + drain(drain(joined).1 + later).0, drain(drain(joined).1 + later).1);
    }
  }

  function EncodeAll<T>(encode: T -> seq<byte>, items: seq<T>): seq<byte> {
    if items == [] then [] else encode(items[0]) + EncodeAll(encode, items[1..])
  }

  /** An item's encoding at the front of a buffer is taken off whole. */
  ghost predicate TakesWhole<T>(drain: seq<byte> -> (seq<T>, seq<byte>), encode: T -> seq<byte>, item: T, rest: seq<byte>) {
    drain(encode(item) + rest) == ([item] + drain(rest).0, drain(rest).1)
  }

  /** An encoding cut short is left alone. */
  ghost predicate LeavesCut<T>(drain: seq<byte> -> (seq<T>, seq<byte>), encode: T -> seq<byte>, item: T, cut: seq<byte>) {
    cut < encode(item) ==> drain(cut) == ([], cut)
  }

  ghost predicate Delimits<T(!new)>(drain: seq<byte> -> (seq<T>, seq<byte>), encode: T -> seq<byte>, valid: T -> bool) {
    && drain([]) == ([], [])
    && (forall item: T, rest: seq<byte> :: valid(item) ==> TakesWhole(drain, encode, item, rest))
    && (forall item: T, cut: seq<byte> :: valid(item) ==> LeavesCut(drain, encode, item, cut))
  }

  lemma EncodingOfPrefix<T>(encode: T -> seq<byte>, items: seq<T>, k: nat)
    requires 0 < k <= |items|
    ensures EncodeAll(encode, items[..k]) == encode(items[0]) + EncodeAll(encode, items[1..][..k - 1])
  {
    assert items[..k][0] == items[0] && items[..k][1..] == items[1..][..k - 1];
  }

  lemma {:induction false} PrefixesEncodeShorter<T>(encode: T -> seq<byte>, items: seq<T>, k: nat)
    requires k <= |items|
    ensures |EncodeAll(encode, items[..k])| <= |EncodeAll(encode, items)|
  {
    if 0 < k {
      EncodingOfPrefix(encode, items, k);
      PrefixesEncodeShorter(encode, items[1..], k - 1);
    }
  }

  /** The items whose encodings have arrived, and the tail that has not. */
  ghost predicate Arrived<T(!new)>(r: (seq<T>, seq<byte>), encode: T -> seq<byte>, items: seq<T>, arrived: seq<byte>, k: nat) {
    && k <= |items| && r.0 == items[..k]
    && arrived == EncodeAll(encode, items[..k]) + r.1
    && (k < |items| ==> |arrived| < |EncodeAll(encode, items[..k + 1])|)
  }

  lemma {:induction false} ArrivedItemsComeOut<T(!new)>(drain: seq<byte> -> (seq<T>, seq<byte>), encode: T -> seq<byte>,
                                                        valid: T -> bool, items: seq<T>, arrived: seq<byte>)
    returns (k: nat)
    requires Delimits(drain, encode, valid) && (forall i | i in items :: valid(i))
    requires arrived <= EncodeAll(encode, items)
    ensures Arrived(drain(arrived), encode, items, arrived, k)
    decreases |items|
  {
    k := 0;
    assert items[..0] == [] && [] + arrived == arrived;
    if items != [] {
      var first := encode(items[0]);
      EncodingOfPrefix(encode, items, 1);
      assert items[1..][..0] == [] && first + [] == first;
      if |arrived| < |first| {
        assert arrived == first[..|arrived|];
        assert LeavesCut(drain, encode, items[0], arrived);
      } else {
        var rest := arrived[|first|..];
        assert arrived == first + rest && rest <= EncodeAll(encode, items[1..]);
        var n := ArrivedItemsComeOut(drain, encode, valid, items[1..], rest);
        k := n + 1;
        assert TakesWhole(drain, encode, items[0], rest);
        ArrivedAfterFirst(drain, encode, items, rest, n);
      }
    }
  }

  lemma ArrivedAfterFirst<T(!new)>(drain: seq<byte> -> (seq<T>, seq<byte>), encode: T -> seq<byte>, items: seq<T>,
                                   rest: seq<byte>, n: nat)
    requires items != [] && Arrived(drain(rest), encode, items[1..], rest, n)
    requires TakesWhole(drain, encode, items[0], rest)
    ensures Arrived(drain(encode(items[0]) + rest), encode, items, encode(items[0]) + rest, n + 1)
  {
    var first, taken := encode(items[0]), EncodeAll(encode, items[1..][..n]);
    EncodingOfPrefix(encode, items, n + 1);
    assert items[..n + 1] == [items[0]] + items[1..][..n];
    assert first + (taken + drain(rest).1) == first + taken + drain(rest).1;
    if n + 1 < |items| { EncodingOfPrefix(encode, items, n + 2); }
  }

  /** Over any split of the stream: the complete items come out in order and exactly the unfinished tail is kept. */
  lemma AnySplitArrives<T(!new)>(drain: seq<byte> -> (seq<T>, seq<byte>), encode: T -> seq<byte>, valid: T -> bool,
                                 items: seq<T>, pieces: seq<seq<byte>>)
    returns (k: nat)
    requires Delimits(drain, encode, valid) && Resumes(drain) && Stops(drain) && (forall i | i in items :: valid(i))
    requires Concat(pieces) <= EncodeAll(encode, items)
    ensures Arrived(FeedAll(drain, [], pieces), encode, items, Concat(pieces), k)
    ensures Concat(pieces) == EncodeAll(encode, items) ==> FeedAll(drain, [], pieces) == (items, [])
  {
    k := ArrivedItemsComeOut(drain, encode, valid, items, Concat(pieces));
    SplitsDoNotMatter(drain, [], pieces);
    assert [] + Concat(pieces) == Concat(pieces);
    if Concat(pieces) == EncodeAll(encode, items) {
      if k < |items| { PrefixesEncodeShorter(encode, items, k + 1); }
      assert items[..k] == items;
    }
  }
}

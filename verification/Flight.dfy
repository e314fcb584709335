/** The window of submitted pictures that the viewer has not acknowledged. */
module Flight {
  import opened Wrappers

  /** The largest 64-bit `usize`, where the byte counter saturates. */
  const SIZE_MAX := 0xFFFF_FFFF_FFFF_FFFF
  const LIMIT := 16

  datatype Frame = Frame(sequence: nat, at: nat, size: nat)

  function SaturatingSub(a: nat, b: nat): nat { if a < b then 0 else a - b }
  function SaturatingAdd(a: nat, b: nat): nat { if a + b > SIZE_MAX then SIZE_MAX else a + b }

  function Position(frames: seq<Frame>, sequence: nat): (k: nat)
    ensures k <= |frames|
  {
    if frames == [] || frames[0].sequence == sequence then 0 else 1 + Position(frames[1..], sequence)
  }

  function Total(frames: seq<Frame>): nat {
    if frames == [] then 0 else frames[0].size + Total(frames[1..])
  }

  datatype Window = Window(frames: seq<Frame>, bytes: nat)

  const EMPTY := Window([], 0)

  function Age(frames: seq<Frame>, now: nat): nat { if frames == [] then 0 else SaturatingSub(now, frames[0].at) }

  function Budget(bitrate: nat): nat {
    var share := bitrate / 32;
    if share < 64 * 1024 then 64 * 1024 else if share > 2 * 1024 * 1024 then 2 * 1024 * 1024 else share
  }

  predicate CanSubmit(w: Window, now: nat, bitrate: nat) {
    |w.frames| < LIMIT && w.bytes < Budget(bitrate) && Age(w.frames, now) < 500
  }

  function Submit(w: Window, sequence: nat, now: nat): Window {
    w.(frames := w.frames + [Frame(sequence, now, 0)])
  }

  function Encoded(w: Window, sequence: nat, size: nat): Window {
    var k := Position(w.frames, sequence);
    if k == |w.frames| then w
    else Window(w.frames[k := w.frames[k].(size := size)], SaturatingAdd(SaturatingSub(w.bytes, w.frames[k].size), size))
  }

  function Acknowledge(w: Window, sequence: nat, now: nat): (Window, Option<nat>) {
    var k := Position(w.frames, sequence);
    if k == |w.frames| then (w, None)
    else
      (Window(w.frames[..k] + w.frames[k + 1..], SaturatingSub(w.bytes, w.frames[k].size)),
       Some(SaturatingSub(now, w.frames[k].at)))
  }

  class FlightWindow {
    var frames: seq<Frame>
    var bytes: nat

    ghost function Value(): Window reads this { Window(frames, bytes) }

    constructor ()
      ensures Value() == EMPTY
    {
      frames, bytes := [], 0;
    }

    method Find(sequence: nat) returns (k: nat)
      ensures k == Position(frames, sequence)
    {
      k := 0;
      while k < |frames| && frames[k].sequence != sequence
        invariant k <= |frames| && Position(frames, sequence) == k + Position(frames[k..], sequence)
      {
        assert frames[k..][1..] == frames[k + 1..];
        k := k + 1;
      }
    }

    method Admits(now: nat, bitrate: nat) returns (ok: bool)
      ensures ok == CanSubmit(Value(), now, bitrate)
      ensures ok ==> forall sequence ::
                var w := Submit(Value(), sequence, now); |w.frames| <= LIMIT && w.bytes < 2 * 1024 * 1024
      ensures ok && Times(frames, now) ==> forall i | 0 <= i < |frames| :: now - frames[i].at < 500
    {
      ok := |frames| < LIMIT && bytes < Budget(bitrate) && Age(frames, now) < 500;
    }

    method Add(sequence: nat, now: nat)
      modifies this
      ensures Value() == Submit(old(Value()), sequence, now)
    {
      frames := frames + [Frame(sequence, now, 0)];
    }

    method Resize(sequence: nat, size: nat)
      modifies this
      ensures Value() == Encoded(old(Value()), sequence, size)
    {
      var k := Find(sequence);
      if k < |frames| {
        bytes := SaturatingAdd(SaturatingSub(bytes, frames[k].size), size);
        frames := frames[k := frames[k].(size := size)];
      }
    }

    method Settle(sequence: nat, now: nat) returns (delay: Option<nat>)
      modifies this
      ensures (Value(), delay) == Acknowledge(old(Value()), sequence, now)
    {
      var k := Find(sequence);
      if k == |frames| { return None; }
      var frame := frames[k];
      frames := frames[..k] + frames[k + 1..];
      bytes := SaturatingSub(bytes, frame.size);
      return Some(SaturatingSub(now, frame.at));
    }
  }

  lemma {:induction false} PositionIsFirst(frames: seq<Frame>, sequence: nat)
    ensures var k := Position(frames, sequence);
            && (forall i | 0 <= i < k :: frames[i].sequence != sequence)
            && (k < |frames| ==> frames[k].sequence == sequence)
  {
    if frames != [] && frames[0].sequence != sequence { PositionIsFirst(frames[1..], sequence); }
  }

  lemma {:induction false} TotalSplits(a: seq<Frame>, b: seq<Frame>)
    ensures Total(a + b) == Total(a) + Total(b)
  {
    if a == [] {
      assert a + b == b;
    } else {
      assert (a + b)[1..] == a[1..] + b;
      TotalSplits(a[1..], b);
    }
  }

  lemma TotalAround(frames: seq<Frame>, k: nat)
    requires k < |frames|
    ensures Total(frames) == Total(frames[..k]) + frames[k].size + Total(frames[k + 1..])
  {
    var tail := [frames[k]] + frames[k + 1..];
    assert frames == frames[..k] + tail && tail[1..] == frames[k + 1..];
    TotalSplits(frames[..k], tail);
  }

  // -----------------------------------------------------------------------------------------------------------------
  // What the window means: a map from sequence numbers to times and sizes
  // -----------------------------------------------------------------------------------------------------------------

  ghost function Meaning(frames: seq<Frame>): map<nat, (nat, nat)> {
    if frames == [] then map[] else Meaning(frames[1..])[frames[0].sequence := (frames[0].at, frames[0].size)]
  }

  ghost predicate Distinct(frames: seq<Frame>) {
    frames == [] || (frames[0].sequence !in Meaning(frames[1..]) && Distinct(frames[1..]))
  }

  /** Sequence numbers in flight are distinct and the byte counter is the total size in flight. */
  ghost predicate Valid(w: Window) {
    Distinct(w.frames) && w.bytes == Total(w.frames)
  }

  lemma {:induction false} PositionFinds(frames: seq<Frame>, sequence: nat)
    requires Distinct(frames)
    ensures var k := Position(frames, sequence);
            && (k < |frames| <==> sequence in Meaning(frames))
            && (k < |frames| ==> frames[k].sequence == sequence && Meaning(frames)[sequence] == (frames[k].at, frames[k].size))
  {
    if frames != [] { PositionFinds(frames[1..], sequence); }
  }

  lemma {:induction false} AppendMeans(frames: seq<Frame>, f: Frame)
    requires Distinct(frames) && f.sequence !in Meaning(frames)
    ensures Distinct(frames + [f]) && Meaning(frames + [f]) == Meaning(frames)[f.sequence := (f.at, f.size)]
  {
    if frames != [] {
      assert (frames + [f])[1..] == frames[1..] + [f];
      AppendMeans(frames[1..], f);
    }
  }

  lemma {:induction false} UpdateMeans(frames: seq<Frame>, k: nat, f: Frame)
    requires Distinct(frames) && k < |frames| && f.sequence == frames[k].sequence
    ensures Distinct(frames[k := f]) && Meaning(frames[k := f]) == Meaning(frames)[f.sequence := (f.at, f.size)]
  {
    if k > 0 {
      assert frames[k := f][1..] == frames[1..][k - 1 := f];
      UpdateMeans(frames[1..], k - 1, f);
      MeansEvery(frames[1..], k - 1);
    }
  }

  lemma {:induction false} MeansEvery(frames: seq<Frame>, k: nat)
    requires k < |frames|
    ensures frames[k].sequence in Meaning(frames)
  {
    if k > 0 { MeansEvery(frames[1..], k - 1); }
  }

  lemma {:induction false} RemovalMeans(frames: seq<Frame>, k: nat)
    requires Distinct(frames) && k < |frames|
    ensures var rest := frames[..k] + frames[k + 1..];
            Distinct(rest) && Meaning(rest) == Meaning(frames) - {frames[k].sequence}
  {
    var rest := frames[..k] + frames[k + 1..];
    if k == 0 {
      assert rest == frames[1..];
    } else {
      assert rest[1..] == frames[1..][..k - 1] + frames[1..][k..];
      RemovalMeans(frames[1..], k - 1);
      MeansEvery(frames[1..], k - 1);
    }
  }

  lemma SubmitRefines(w: Window, sequence: nat, now: nat)
    requires Valid(w) && sequence !in Meaning(w.frames)
    ensures Valid(Submit(w, sequence, now))
    ensures Meaning(Submit(w, sequence, now).frames) == Meaning(w.frames)[sequence := (now, 0)]
  {
    AppendMeans(w.frames, Frame(sequence, now, 0));
    TotalSplits(w.frames, [Frame(sequence, now, 0)]);
  }

  /** The counter stays exact if and only if the total in flight still fits it; the map is right either way. */
  lemma EncodedRefines(w: Window, sequence: nat, size: nat)
    requires Valid(w) && Total(w.frames) <= SIZE_MAX
    ensures var e := Encoded(w, sequence, size);
            && (Valid(e) <==> Total(e.frames) <= SIZE_MAX)
            && Meaning(e.frames) == if sequence !in Meaning(w.frames) then Meaning(w.frames)
                                    else Meaning(w.frames)[sequence := (Meaning(w.frames)[sequence].0, size)]
  {
    var k := Position(w.frames, sequence);
    PositionFinds(w.frames, sequence);
    if k < |w.frames| {
      var f := w.frames[k].(size := size);
      UpdateMeans(w.frames, k, f);
      TotalAround(w.frames, k);
      TotalAround(w.frames[k := f], k);
      assert w.frames[k := f][..k] == w.frames[..k] && w.frames[k := f][k + 1..] == w.frames[k + 1..];
    }
  }

  /** An acknowledgement answers with the age of its own submission and takes out exactly that one. */
  lemma AcknowledgeRefines(w: Window, sequence: nat, now: nat)
    requires Valid(w)
    ensures var (e, delay) := Acknowledge(w, sequence, now);
            && Valid(e) && Meaning(e.frames) == Meaning(w.frames) - {sequence}
            && delay == if sequence in Meaning(w.frames) then Some(SaturatingSub(now, Meaning(w.frames)[sequence].0)) else None
  {
    var k := Position(w.frames, sequence);
    PositionFinds(w.frames, sequence);
    if k < |w.frames| {
      TotalAround(w.frames, k);
      TotalSplits(w.frames[..k], w.frames[k + 1..]);
      RemovalMeans(w.frames, k);
    }
  }

  // -----------------------------------------------------------------------------------------------------------------
  // Runs of the host loop over one window
  // -----------------------------------------------------------------------------------------------------------------

  /** The host submits only what the window admits, under its own new sequence number; time never goes back. */
  datatype Op = Capture(sequence: nat, now: nat, bitrate: nat) | Encode(sequence: nat, size: nat) | Ack(sequence: nat, now: nat)

  function Next(w: Window, op: Op): (Window, Option<nat>) {
    match op
    case Capture(sequence, now, bitrate) => (if CanSubmit(w, now, bitrate) then Submit(w, sequence, now) else w, None)
    case Encode(sequence, size) => (Encoded(w, sequence, size), None)
    case Ack(sequence, now) => Acknowledge(w, sequence, now)
  }

  function Run(w: Window, ops: seq<Op>): Window
    decreases |ops|
  {
    if ops == [] then w else Run(Next(w, ops[0]).0, ops[1..])
  }

  predicate Times(frames: seq<Frame>, now: nat) {
    && (forall i, j | 0 <= i < j < |frames| :: frames[i].at <= frames[j].at)
    && (forall i | 0 <= i < |frames| :: frames[i].at <= now)
  }

  /** A clock reading for each operation that looks at the clock, none earlier than `now`, in order. */
  ghost predicate Clocked(ops: seq<Op>, now: nat)
    decreases |ops|
  {
    ops == [] ||
    match ops[0]
    case Capture(_, at, _) => now <= at && Clocked(ops[1..], at)
    case Ack(_, at) => now <= at && Clocked(ops[1..], at)
    case Encode(_, _) => Clocked(ops[1..], now)
  }

  /** The oldest picture is at the front, even after acknowledgements out of order. */
  lemma OldestIsMaximal(frames: seq<Frame>, now: nat, i: nat)
    requires Times(frames, now) && i < |frames|
    ensures SaturatingSub(now, frames[i].at) <= Age(frames, now) == now - frames[0].at
  {
  }

  lemma StepKeepsTimes(w: Window, op: Op, now: nat)
    requires Times(w.frames, now) && |w.frames| <= LIMIT
    requires op.Encode? || now <= op.now
    ensures var (e, _) := Next(w, op); Times(e.frames, if op.Encode? then now else op.now) && |e.frames| <= LIMIT
  {
    match op
    case Capture(_, _, _) =>
    case Encode(_, _) =>
    case Ack(sequence, _) =>
      var k := Position(w.frames, sequence);
      if k < |w.frames| { RemovalKeepsTimes(w.frames, k, now); }
  }

  lemma RemovalKeepsTimes(frames: seq<Frame>, k: nat, now: nat)
    requires Times(frames, now) && k < |frames|
    ensures Times(frames[..k] + frames[k + 1..], now)
  {
    var rest := frames[..k] + frames[k + 1..];
    assert forall i | 0 <= i < |rest| :: rest[i] == if i < k then frames[i] else frames[i + 1];
  }

  /** Over any run of the host: never more than 16 pictures in flight, and the front one is the oldest. */
  lemma {:induction false} RunKeepsTimes(w: Window, ops: seq<Op>, now: nat) returns (last: nat)
    requires Times(w.frames, now) && |w.frames| <= LIMIT && Clocked(ops, now)
    ensures Times(Run(w, ops).frames, last) && |Run(w, ops).frames| <= LIMIT && now <= last
    decreases |ops|
  {
    last := now;
    if ops != [] {
      StepKeepsTimes(w, ops[0], now);
      last := RunKeepsTimes(Next(w, ops[0]).0, ops[1..], if ops[0].Encode? then now else ops[0].now);
    }
  }

  function InFlight(frames: seq<Frame>, sequence: nat): nat {
    if frames == [] then 0 else (if frames[0].sequence == sequence then 1 else 0) + InFlight(frames[1..], sequence)
  }

  /** How often a sequence number was submitted, and how often an acknowledgement of it counted. */
  function Submissions(w: Window, ops: seq<Op>, sequence: nat): nat
    decreases |ops|
  {
    if ops == [] then 0
    else
      (if ops[0].Capture? && ops[0].sequence == sequence && CanSubmit(w, ops[0].now, ops[0].bitrate) then 1 else 0)
      + Submissions(Next(w, ops[0]).0, ops[1..], sequence)
  }

  function Counted(w: Window, ops: seq<Op>, sequence: nat): nat
    decreases |ops|
  {
    if ops == [] then 0
    else
      (if ops[0].sequence == sequence && Next(w, ops[0]).1.Some? then 1 else 0) + Counted(Next(w, ops[0]).0, ops[1..], sequence)
  }

  lemma {:induction false} InFlightSplits(a: seq<Frame>, b: seq<Frame>, sequence: nat)
    ensures InFlight(a + b, sequence) == InFlight(a, sequence) + InFlight(b, sequence)
  {
    if a == [] {
      assert a + b == b;
    } else {
      assert (a + b)[1..] == a[1..] + b;
      InFlightSplits(a[1..], b, sequence);
    }
  }

  lemma InFlightAround(frames: seq<Frame>, k: nat, f: Frame, sequence: nat)
    requires k < |frames|
    ensures InFlight(frames, sequence)
            == InFlight(frames[..k] + frames[k + 1..], sequence) + if frames[k].sequence == sequence then 1 else 0
    ensures f.sequence == frames[k].sequence ==> InFlight(frames[k := f], sequence) == InFlight(frames, sequence)
  {
    InFlightSplits(frames[..k], [frames[k]] + frames[k + 1..], sequence);
    InFlightSplits(frames[..k], [f] + frames[k + 1..], sequence);
    InFlightSplits(frames[..k], frames[k + 1..], sequence);
    assert frames == frames[..k] + ([frames[k]] + frames[k + 1..]);
    assert frames[k := f] == frames[..k] + ([f] + frames[k + 1..]);
  }

  lemma StepBalances(w: Window, op: Op, sequence: nat)
    ensures var (e, delay) := Next(w, op);
            InFlight(e.frames, sequence) + (if op.sequence == sequence && delay.Some? then 1 else 0)
            == InFlight(w.frames, sequence)
               + if op.Capture? && op.sequence == sequence && CanSubmit(w, op.now, op.bitrate) then 1 else 0
  {
    match op
    case Capture(s, now, _) => InFlightSplits(w.frames, [Frame(s, now, 0)], sequence);
    case Encode(s, size) =>
      var k := Position(w.frames, s);
      if k < |w.frames| { InFlightAround(w.frames, k, w.frames[k].(size := size), sequence); }
    case Ack(s, _) =>
      PositionIsFirst(w.frames, s);
      var k := Position(w.frames, s);
      if k < |w.frames| { InFlightAround(w.frames, k, w.frames[k], sequence); }
  }

  /** Every submission is acknowledged at most once: what was counted and what is in flight are what was submitted. */
  lemma {:induction false} AcksBalance(w: Window, ops: seq<Op>, sequence: nat)
    ensures Counted(w, ops, sequence) + InFlight(Run(w, ops).frames, sequence)
            == InFlight(w.frames, sequence) + Submissions(w, ops, sequence)
    decreases |ops|
  {
    if ops != [] {
      StepBalances(w, ops[0], sequence);
      AcksBalance(Next(w, ops[0]).0, ops[1..], sequence);
    }
  }

  // -----------------------------------------------------------------------------------------------------------------
  // The window as a map, over whole runs
  // -----------------------------------------------------------------------------------------------------------------

  /** Pictures in flight by sequence number, each with its submission time and size, and their total size. */
  datatype Ledger = Ledger(flying: map<nat, (nat, nat)>, total: nat)

  const NOTHING := Ledger(map[], 0)

  ghost predicate LedgerAdmits(m: Ledger, now: nat, bitrate: nat) {
    |m.flying| < LIMIT && m.total < Budget(bitrate) && forall s | s in m.flying :: SaturatingSub(now, m.flying[s].0) < 500
  }

  /** The same operations on the map: exact sums, and the age of the very submission that is acknowledged. */
  ghost function LedgerNext(m: Ledger, op: Op): (Ledger, Option<nat>) {
    match op
    case Capture(sequence, now, bitrate) =>
      (if LedgerAdmits(m, now, bitrate) then m.(flying := m.flying[sequence := (now, 0)]) else m, None)
    case Encode(sequence, size) =>
      if sequence !in m.flying then (m, None)
      else
        var (at, before) := m.flying[sequence];
        (Ledger(m.flying[sequence := (at, size)], SaturatingSub(m.total, before) + size), None)
    case Ack(sequence, now) =>
      if sequence !in m.flying then (m, None)
      else
        (Ledger(m.flying - {sequence}, SaturatingSub(m.total, m.flying[sequence].1)), Some(SaturatingSub(now, m.flying[sequence].0)))
  }

  ghost function LedgerRun(m: Ledger, ops: seq<Op>): Ledger
    decreases |ops|
  {
    if ops == [] then m else LedgerRun(LedgerNext(m, ops[0]).0, ops[1..])
  }

  /** The window means the ledger, with nothing saturated. */
  ghost predicate Refines(w: Window, m: Ledger) {
    Valid(w) && Meaning(w.frames) == m.flying && w.bytes == m.total
  }

  /** Along a run of the ledger the total never outgrows the counter. */
  ghost predicate Fits(m: Ledger, ops: seq<Op>)
    decreases |ops|
  {
    m.total <= SIZE_MAX && (ops != [] ==> Fits(LedgerNext(m, ops[0]).0, ops[1..]))
  }

  /** Captured numbers are new: none is in flight, and no two captures share one. */
  ghost predicate NewNumbers(flying: set<nat>, ops: seq<Op>) {
    && (forall i | 0 <= i < |ops| && ops[i].Capture? :: ops[i].sequence !in flying)
    && (forall i, j | 0 <= i < j < |ops| && ops[i].Capture? && ops[j].Capture? :: ops[i].sequence != ops[j].sequence)
  }

  lemma {:induction false} MeaningCounts(frames: seq<Frame>)
    requires Distinct(frames)
    ensures |Meaning(frames)| == |frames|
  {
    if frames != [] {
      MeaningCounts(frames[1..]);
      assert Meaning(frames).Keys == Meaning(frames[1..]).Keys + {frames[0].sequence};
      assert |Meaning(frames)| == |Meaning(frames).Keys| && |Meaning(frames[1..])| == |Meaning(frames[1..]).Keys|;
    }
  }

  /** Every picture on the map has a place in the window. */
  lemma {:induction false} MeaningPlaces(frames: seq<Frame>, s: nat) returns (k: nat)
    requires Distinct(frames) && s in Meaning(frames)
    ensures k < |frames| && frames[k].sequence == s && Meaning(frames)[s] == (frames[k].at, frames[k].size)
  {
    PositionFinds(frames, s);
    k := Position(frames, s);
  }

  /** The window admits by its front picture exactly when the map admits by all of them. */
  lemma AdmitsAlike(w: Window, m: Ledger, now: nat, bitrate: nat)
    requires Refines(w, m) && Times(w.frames, now)
    ensures CanSubmit(w, now, bitrate) <==> LedgerAdmits(m, now, bitrate)
  {
    MeaningCounts(w.frames);
    if w.frames != [] {
      MeansEvery(w.frames, 0);
      assert m.flying[w.frames[0].sequence] == (w.frames[0].at, w.frames[0].size);
    }
    forall s | s in m.flying ensures SaturatingSub(now, m.flying[s].0) <= Age(w.frames, now) {
      var k := MeaningPlaces(w.frames, s);
      OldestIsMaximal(w.frames, now, k);
    }
  }

  lemma StepRefines(w: Window, m: Ledger, op: Op)
    requires Refines(w, m) && w.bytes <= SIZE_MAX && LedgerNext(m, op).0.total <= SIZE_MAX
    requires op.Capture? ==> Times(w.frames, op.now) && op.sequence !in m.flying
    ensures Refines(Next(w, op).0, LedgerNext(m, op).0) && Next(w, op).1 == LedgerNext(m, op).1
  {
    match op
    case Capture(sequence, now, bitrate) =>
      AdmitsAlike(w, m, now, bitrate);
      SubmitRefines(w, sequence, now);
    case Encode(sequence, size) => EncodeRefinesLedger(w, m, sequence, size);
    case Ack(sequence, now) =>
      AcknowledgeRefines(w, sequence, now);
      PositionFinds(w.frames, sequence);
      assert sequence !in m.flying ==> m.flying - {sequence} == m.flying;
  }

  lemma EncodeRefinesLedger(w: Window, m: Ledger, sequence: nat, size: nat)
    requires Refines(w, m) && w.bytes <= SIZE_MAX && LedgerNext(m, Encode(sequence, size)).0.total <= SIZE_MAX
    ensures Refines(Encoded(w, sequence, size), LedgerNext(m, Encode(sequence, size)).0)
  {
    EncodedRefines(w, sequence, size);
    PositionFinds(w.frames, sequence);
    if sequence in m.flying {
      var k := Position(w.frames, sequence);
      TotalAround(w.frames, k);
      var f := w.frames[k].(size := size);
      TotalAround(w.frames[k := f], k);
      assert w.frames[k := f][..k] == w.frames[..k] && w.frames[k := f][k + 1..] == w.frames[k + 1..];
    }
  }

  lemma NewNumbersStep(m: Ledger, ops: seq<Op>)
    requires ops != [] && NewNumbers(m.flying.Keys, ops)
    ensures NewNumbers(LedgerNext(m, ops[0]).0.flying.Keys, ops[1..])
  {
    var next := LedgerNext(m, ops[0]).0.flying.Keys;
    assert next <= m.flying.Keys + (if ops[0].Capture? then {ops[0].sequence} else {});
    forall i | 0 <= i < |ops| - 1 && ops[1..][i].Capture? ensures ops[1..][i].sequence !in next {
      assert ops[1..][i] == ops[i + 1];
    }
  }

  /**
   Over any run with new numbers, a clock that does not go back and a total that fits the counter: the window is the map,
   its byte counter is the exact sum of the sizes in flight, and the two go on agreeing.
   */
  lemma {:induction false} RunRefines(w: Window, m: Ledger, ops: seq<Op>, now: nat)
    requires Refines(w, m) && Times(w.frames, now) && |w.frames| <= LIMIT
    requires Clocked(ops, now) && NewNumbers(m.flying.Keys, ops) && Fits(m, ops)
    ensures Refines(Run(w, ops), LedgerRun(m, ops)) && Run(w, ops).bytes == Total(Run(w, ops).frames)
    decreases |ops|
  {
    if ops != [] {
      var at := if ops[0].Encode? then now else ops[0].now;
      assert Times(w.frames, at);
      assert ops[0].Capture? ==> ops[0].sequence !in m.flying;
      StepRefines(w, m, ops[0]);
      StepKeepsTimes(w, ops[0], now);
      NewNumbersStep(m, ops);
      RunRefines(Next(w, ops[0]).0, LedgerNext(m, ops[0]).0, ops[1..], at);
    }
  }

  lemma {:induction false} LedgerInSteps(m: Ledger, a: seq<Op>, b: seq<Op>)
    ensures LedgerRun(m, a + b) == LedgerRun(LedgerRun(m, a), b)
    decreases |a|
  {
    if a == [] {
      assert a + b == b;
    } else {
      assert (a + b)[1..] == a[1..] + b;
      LedgerInSteps(LedgerNext(m, a[0]).0, a[1..], b);
    }
  }

  /** Everything on the ledger was captured in the run, at the time the ledger says. */
  lemma {:induction false} FlyingWasCaptured(ops: seq<Op>, sequence: nat) returns (j: nat)
    requires sequence in LedgerRun(NOTHING, ops).flying
    ensures j < |ops| && ops[j].Capture? && ops[j].sequence == sequence && ops[j].now == LedgerRun(NOTHING, ops).flying[sequence].0
    decreases |ops|
  {
    j := 0;
    if ops != [] {
      var front, last := ops[..|ops| - 1], ops[|ops| - 1];
      assert ops == front + [last];
      LedgerInSteps(NOTHING, front, [last]);
      var m := LedgerRun(NOTHING, front);
      assert LedgerRun(m, [last]) == LedgerNext(m, last).0 by { assert [last][1..] == []; }
      if last.Capture? && last.sequence == sequence && LedgerAdmits(m, last.now, last.bitrate) {
        j := |ops| - 1;
      } else {
        j := FlyingWasCaptured(front, sequence);
      }
    }
  }

  ghost predicate Sane(ops: seq<Op>, start: nat) { Clocked(ops, start) && NewNumbers({}, ops) && Fits(NOTHING, ops) }

  lemma {:induction false} ClockedPrefix(ops: seq<Op>, n: nat, now: nat)
    requires Clocked(ops, now) && n <= |ops|
    ensures Clocked(ops[..n], now)
    decreases n
  {
    if n > 0 {
      assert ops[..n][1..] == ops[1..][..n - 1];
      ClockedPrefix(ops[1..], n - 1, if ops[0].Encode? then now else ops[0].now);
    }
  }

  lemma {:induction false} FitsPrefix(m: Ledger, ops: seq<Op>, n: nat)
    requires Fits(m, ops) && n <= |ops|
    ensures Fits(m, ops[..n])
    decreases n
  {
    if n > 0 {
      assert ops[..n][1..] == ops[1..][..n - 1];
      FitsPrefix(LedgerNext(m, ops[0]).0, ops[1..], n - 1);
    }
  }

  /** From an empty window: the counter is exact after every run, and the window is the map of what is in flight. */
  lemma FreshRunRefines(ops: seq<Op>, start: nat)
    requires Sane(ops, start)
    ensures Refines(Run(EMPTY, ops), LedgerRun(NOTHING, ops))
  {
    RunRefines(EMPTY, NOTHING, ops, start);
  }

  /** Every delay that is answered is the age of the one submission under that number. */
  lemma DelayIsOwnAge(ops: seq<Op>, i: nat, start: nat) returns (j: nat)
    requires Sane(ops, start) && i < |ops| && ops[i].Ack? && Next(Run(EMPTY, ops[..i]), ops[i]).1.Some?
    ensures j < i && ops[j].Capture? && ops[j].sequence == ops[i].sequence
    ensures Next(Run(EMPTY, ops[..i]), ops[i]).1 == Some(SaturatingSub(ops[i].now, ops[j].now))
    ensures forall l | 0 <= l < |ops| && ops[l].Capture? && ops[l].sequence == ops[i].sequence :: l == j
  {
    ClockedPrefix(ops, i, start);
    FitsPrefix(NOTHING, ops, i);
    FreshRunRefines(ops[..i], start);
    var w, m := Run(EMPTY, ops[..i]), LedgerRun(NOTHING, ops[..i]);
    AcknowledgeRefines(w, ops[i].sequence, ops[i].now);
    j := FlyingWasCaptured(ops[..i], ops[i].sequence);
  }

  /** An empty window always admits, and the bytes in flight may be what the bit rate sends in a quarter of a second. */
  lemma WindowOpensForAQuarterSecond(now: nat, bitrate: nat)
    ensures CanSubmit(EMPTY, now, bitrate)
    ensures 64 * 1024 * 32 <= bitrate <= 2 * 1024 * 1024 * 32 ==> Budget(bitrate) * 32 <= bitrate < (Budget(bitrate) + 1) * 32
    ensures Budget(bitrate) * 8 * 4 <= bitrate <==> bitrate >= 2_097_152
  {
  }
}

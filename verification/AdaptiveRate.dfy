/** The bit rate and frame rate controller. Times are milliseconds, work is microseconds. */
module AdaptiveRate {
  import opened Wrappers
  import opened Pixels

  const MIN_BITRATE := 300_000
  const MAX_CEILING := 50_000_000
  const U32_MAX := 0xFFFF_FFFF
  const U64_MAX := 0xFFFF_FFFF_FFFF_FFFF
  const TIERS: seq<nat> := [10, 15, 24, 30, 60]

  datatype Profile = Balanced | Quality | Performance | Auto

  datatype Feedback = Feedback(delivery: nat, rtt: nat, decode: nat, encode: nat, stall: nat, acknowledged: nat, saturated: bool)

  datatype Controller = Controller(profile: Profile, bitrate: nat, ceiling: nat, baseline: nat, healthy: nat, congested: bool,
                                   fps: nat, faster: nat)

  function Initial(ceiling: nat): Controller {
    var c := Min(Max(ceiling, MIN_BITRATE), MAX_CEILING);
    Controller(Auto, Min(1_800_000, c), c, U64_MAX, 0, false, 60, 0)
  }

  function Baseline(a: Controller, f: Feedback): nat {
    if f.acknowledged != 0 && f.delivery != 0 then Min(a.baseline, f.delivery) else a.baseline
  }

  function LatencyLimit(baseline: nat): nat { Min(Min(baseline + 120, U64_MAX), 600) }

  function Congested(a: Controller, f: Feedback): bool {
    f.saturated || f.stall > 80 || (f.delivery > LatencyLimit(Baseline(a, f)) && f.delivery > 200)
  }

  /** Microseconds of work per picture, whichever side has more of it. */
  function Work(f: Feedback): nat { Max(f.decode, f.encode) }

  function Sustainable(f: Feedback): nat { Min(Max(850_000 / Max(Work(f), 1), 10), 60) }

  /** The largest tier that can be sustained. */
  function Tier(sustainable: nat): nat {
    if sustainable >= 60 then 60 else if sustainable >= 30 then 30 else if sustainable >= 24 then 24
    else if sustainable >= 15 then 15 else 10
  }

  function Faster(a: Controller, f: Feedback): bool {
    Tier(Sustainable(f)) > a.fps && f.acknowledged != 0 && !Congested(a, f)
  }

  /** A window in which a rise may be earned. */
  function Good(a: Controller, f: Feedback): bool {
    !Congested(a, f) && f.acknowledged != 0 && f.rtt < 600
  }

  function Lowered(bitrate: nat, ceiling: nat): nat { Min(Max(bitrate * 65 / 100, MIN_BITRATE), ceiling) }
  function Rise(b: nat): nat { b + Max(b / 5, 100_000) }
  function Raised(bitrate: nat, ceiling: nat): nat { Min(Rise(bitrate), ceiling) }

  function FrameRate(fps: nat, faster: nat, tier: nat, eligible: bool): (nat, nat) {
    if tier < fps then (tier, 0)
    else if tier > fps && eligible then if faster + 1 >= 5 then (tier, 0) else (fps, faster + 1)
    else (fps, 0)
  }

  function Bitrate(bitrate: nat, ceiling: nat, healthy: nat, congested: bool, eligible: bool): (nat, nat) {
    if congested then (Lowered(bitrate, ceiling), 0)
    else if eligible then if healthy + 1 >= 3 then (Raised(bitrate, ceiling), 0) else (bitrate, healthy + 1)
    else (bitrate, 0)
  }

  function Observed(a: Controller, f: Feedback): Controller {
    var (fps, faster) := FrameRate(a.fps, a.faster, Tier(Sustainable(f)), f.acknowledged != 0 && !Congested(a, f));
    var (bitrate, healthy) := Bitrate(a.bitrate, a.ceiling, a.healthy, Congested(a, f), f.acknowledged != 0 && f.rtt < 600);
    Controller(a.profile, bitrate, a.ceiling, Baseline(a, f), healthy, Congested(a, f), fps, faster)
  }

  /** What every controller keeps from its creation on. */
  predicate Valid(a: Controller) {
    && MIN_BITRATE <= a.bitrate <= a.ceiling <= MAX_CEILING && a.baseline <= U64_MAX
    && a.healthy <= 2 && a.faster <= 4 && a.fps in TIERS
  }

  class Adaptive {
    var profile: Profile
    var bitrate: nat
    var ceiling: nat
    var baseline: nat
    var healthy: nat
    var congested: bool
    var fps: nat
    var faster: nat

    ghost function Value(): Controller
      reads this
    {
      Controller(profile, bitrate, ceiling, baseline, healthy, congested, fps, faster)
    }

    constructor (ceiling: nat)
      ensures Value() == Initial(ceiling) && Valid(Value())
    {
      var c := Min(Max(ceiling, MIN_BITRATE), MAX_CEILING);
      profile, bitrate, this.ceiling, baseline := Auto, Min(1_800_000, c), c, U64_MAX;
      healthy, congested, fps, faster := 0, false, 60, 0;
    }

    method FindTier(sustainable: nat) returns (tier: nat)
      ensures tier == Tier(sustainable)
      ensures tier in TIERS && (forall t | t in TIERS && t <= sustainable :: t <= tier)
      ensures tier <= sustainable || tier == 10
    {
      var i := |TIERS|;
      while i > 0
        invariant 0 <= i <= |TIERS|
        invariant forall j | i <= j < |TIERS| :: TIERS[j] > sustainable
      {
        i := i - 1;
        if TIERS[i] <= sustainable {
          assert i < 4 ==> TIERS[i + 1] > sustainable;
          return TIERS[i];
        }
      }
      assert TIERS[0] > sustainable;
      return 10;
    }

    method AdjustFrameRate(f: Feedback)
      requires Valid(Value())
      modifies this`fps, this`faster
      ensures (fps, faster) == FrameRate(old(fps), old(faster), Tier(Sustainable(f)), f.acknowledged != 0 && !congested)
    {
      var tier := FindTier(Sustainable(f));
      if tier < fps {
        fps, faster := tier, 0;
      } else if tier > fps && f.acknowledged != 0 && !congested {
        faster := faster + 1;
        if faster >= 5 { fps, faster := tier, 0; }
      } else {
        faster := 0;
      }
    }

    /** The 32-bit arithmetic cannot overflow. */
    method AdjustBitrate(f: Feedback)
      requires Valid(Value())
      modifies this`bitrate, this`healthy
      ensures (bitrate, healthy) == Bitrate(old(bitrate), ceiling, old(healthy), congested, f.acknowledged != 0 && f.rtt < 600)
    {
      if congested {
        assert bitrate * 65 <= U32_MAX;
        bitrate := Min(Max(bitrate * 65 / 100, MIN_BITRATE), ceiling);
        healthy := 0;
      } else if f.acknowledged != 0 && f.rtt < 600 {
        healthy := healthy + 1;
        if healthy >= 3 {
          assert bitrate + Max(bitrate / 5, 100_000) <= U32_MAX;
          bitrate := Min(bitrate + Max(bitrate / 5, 100_000), ceiling);
          healthy := 0;
        }
      } else {
        healthy := 0;
      }
    }

    method Observe(f: Feedback)
      requires Valid(Value())
      modifies this
      ensures Value() == Observed(old(Value()), f) && Valid(Value())
    {
      ghost var before := Value();
      if f.acknowledged != 0 && f.delivery != 0 { baseline := Min(baseline, f.delivery); }
      congested := f.saturated || f.stall > 80 || (f.delivery > LatencyLimit(baseline) && f.delivery > 200);
      AdjustFrameRate(f);
      AdjustBitrate(f);
      ObserveKeeps(before, f);
    }
  }

  lemma InitialIsValid(ceiling: nat)
    ensures Valid(Initial(ceiling))
  {
  }

  lemma ObserveKeeps(a: Controller, f: Feedback)
    requires Valid(a)
    ensures Valid(Observed(a, f)) && Observed(a, f).ceiling == a.ceiling
  {
  }

  function Run(a: Controller, windows: seq<Feedback>): Controller
    decreases |windows|
  {
    if windows == [] then a else Observed(Run(a, windows[..|windows| - 1]), windows[|windows| - 1])
  }

  lemma {:induction false} RunIsValid(a: Controller, windows: seq<Feedback>)
    requires Valid(a)
    ensures Valid(Run(a, windows)) && Run(a, windows).ceiling == a.ceiling
    decreases |windows|
  {
    if windows != [] {
      RunIsValid(a, windows[..|windows| - 1]);
      ObserveKeeps(Run(a, windows[..|windows| - 1]), windows[|windows| - 1]);
    }
  }

  /** After each window the frame rate fits the measured work, or is the lowest there is. */
  lemma FrameRateFitsWork(a: Controller, f: Feedback)
    requires Valid(a)
    ensures var b := Observed(a, f); b.fps == 10 || b.fps * Work(f) <= 850_000
  {
    var b, work := Observed(a, f), Work(f);
    var tier := Tier(Sustainable(f));
    assert b.fps <= tier;
    if tier > 10 {
      var d := Max(work, 1);
      assert tier <= 850_000 / d;
      Product(tier, 850_000, d);
      assert b.fps * work <= tier * d by { Grows(b.fps, tier, work, d); }
    }
  }

  lemma Product(n: nat, total: nat, d: nat)
    requires d > 0 && n <= total / d
    ensures n * d <= total
  {
    assert (total / d) * d <= total;
    Grows(n, total / d, d, d);
  }

  lemma Grows(a: nat, b: nat, c: nat, d: nat)
    requires a <= b && c <= d
    ensures a * c <= b * d
  {
  }

  // -----------------------------------------------------------------------------------------------------------------
  // What a rise takes
  // -----------------------------------------------------------------------------------------------------------------

  /** The last `k` windows of a run all satisfied a condition, each as the controller saw it. */
  ghost predicate LastWindows(a: Controller, windows: seq<Feedback>, k: nat, p: (Controller, Feedback) -> bool)
    decreases |windows|
  {
    k == 0
    || (windows != [] && p(Run(a, windows[..|windows| - 1]), windows[|windows| - 1])
        && LastWindows(a, windows[..|windows| - 1], k - 1, p))
  }

  /** The counters count consecutive windows that have just been seen. */
  lemma {:induction false} CountersCount(a: Controller, windows: seq<Feedback>)
    requires Valid(a) && a.healthy == 0 && a.faster == 0
    ensures LastWindows(a, windows, Run(a, windows).healthy, Good)
    ensures LastWindows(a, windows, Run(a, windows).faster, Faster)
    decreases |windows|
  {
    if windows != [] {
      var front, last := windows[..|windows| - 1], windows[|windows| - 1];
      CountersCount(a, front);
      CountingStep(Run(a, front), last);
    }
  }

  lemma CountingStep(a: Controller, f: Feedback)
    ensures var b := Observed(a, f);
            && (b.healthy == 0 || (Good(a, f) && b.healthy == a.healthy + 1))
            && (b.faster == 0 || (Faster(a, f) && b.faster == a.faster + 1))
  {
  }

  lemma RisingStep(a: Controller, f: Feedback)
    requires Valid(a)
    ensures Observed(a, f).bitrate > a.bitrate ==> Good(a, f) && a.healthy == 2
    ensures Observed(a, f).fps > a.fps ==> Faster(a, f) && a.faster == 4
  {
  }

  /**
   The bit rate rises only at the end of three consecutive acknowledged, uncongested windows with a short round trip; the
   frame rate only at the end of five consecutive windows that could each sustain more.
   */
  lemma RisesAreEarned(ceiling: nat, windows: seq<Feedback>)
    requires windows != []
    ensures var a := Initial(ceiling);
            var before, after := Run(a, windows[..|windows| - 1]), Run(a, windows);
            && (after.bitrate > before.bitrate ==> LastWindows(a, windows, 3, Good))
            && (after.fps > before.fps ==> LastWindows(a, windows, 5, Faster))
  {
    var a, front := Initial(ceiling), windows[..|windows| - 1];
    InitialIsValid(ceiling);
    RunIsValid(a, front);
    CountersCount(a, front);
    RisingStep(Run(a, front), windows[|windows| - 1]);
  }

  // -----------------------------------------------------------------------------------------------------------------
  // Convergence
  // -----------------------------------------------------------------------------------------------------------------

  /** The rate after some congested windows, were there no ceiling to speak of. */
  function Decayed(bitrate: nat, n: nat): nat {
    if n == 0 then bitrate else Max(Decayed(bitrate, n - 1) * 65 / 100, MIN_BITRATE)
  }

  lemma {:induction false} DecayIsMonotone(b: nat, c: nat, n: nat)
    requires b <= c
    ensures Decayed(b, n) <= Decayed(c, n)
  {
    if n > 0 { DecayIsMonotone(b, c, n - 1); }
  }

  lemma {:induction false} CongestionDecays(a: Controller, windows: seq<Feedback>)
    requires Valid(a) && LastWindows(a, windows, |windows|, Congested)
    ensures Run(a, windows).bitrate <= Decayed(a.bitrate, |windows|)
    decreases |windows|
  {
    if windows != [] {
      var front := windows[..|windows| - 1];
      CongestionDecays(a, front);
      RunIsValid(a, front);
      CongestedStep(Run(a, front), windows[|windows| - 1]);
    }
  }

  lemma CongestedStep(a: Controller, f: Feedback)
    requires Valid(a) && Congested(a, f)
    ensures Observed(a, f).bitrate == Max(a.bitrate * 65 / 100, MIN_BITRATE)
  {
  }

  lemma TwelveDecaysReachTheFloor()
    ensures Decayed(MAX_CEILING, 12) == MIN_BITRATE
  {
    assert Decayed(50_000_000, 12) == 300_000;
  }

  /** From any state, twelve consecutive congested windows bring the bit rate to its minimum. */
  lemma CongestionReachesTheFloor(a: Controller, windows: seq<Feedback>)
    requires Valid(a) && |windows| == 12 && LastWindows(a, windows, 12, Congested)
    ensures Run(a, windows).bitrate == MIN_BITRATE
  {
    CongestionDecays(a, windows);
    DecayIsMonotone(a.bitrate, MAX_CEILING, 12);
    TwelveDecaysReachTheFloor();
    RunIsValid(a, windows);
  }

  /** The rate after some rises, were there no ceiling. */
  function Grown(bitrate: nat, n: nat): nat {
    if n == 0 then bitrate else Rise(Grown(bitrate, n - 1))
  }

  lemma {:induction false} GrowthIsMonotone(b: nat, c: nat, m: nat, n: nat)
    requires b <= c && m <= n
    ensures Grown(b, m) <= Grown(c, n)
  {
    if m < n {
      GrowthIsMonotone(b, c, m, n - 1);
    } else if n > 0 {
      GrowthIsMonotone(b, c, m - 1, n - 1);
    }
  }

  lemma GoodStep(a: Controller, f: Feedback)
    requires Valid(a) && Good(a, f)
    ensures Observed(a, f).healthy == if a.healthy == 2 then 0 else a.healthy + 1
    ensures Observed(a, f).bitrate == if a.healthy == 2 then Raised(a.bitrate, a.ceiling) else a.bitrate
  {
  }

  lemma GoodStepGrows(a: Controller, f: Feedback, start: nat, n: nat)
    requires Valid(a) && Good(a, f) && a.healthy == n % 3 && a.bitrate == Min(Grown(start, n / 3), a.ceiling)
    ensures Observed(a, f).healthy == (n + 1) % 3 && Observed(a, f).bitrate == Min(Grown(start, (n + 1) / 3), a.ceiling)
  {
    GoodStep(a, f);
    Thirds(n);
    CappedGrowth(Grown(start, n / 3), a.ceiling);
  }

  /** Good windows come in threes: each three bring one rise, and a started three is never lost. */
  lemma {:induction false} GoodWindowsGrow(a: Controller, windows: seq<Feedback>)
    requires Valid(a) && LastWindows(a, windows, |windows|, Good)
    ensures Run(a, windows).healthy == (a.healthy + |windows|) % 3
    ensures Run(a, windows).bitrate == Min(Grown(a.bitrate, (a.healthy + |windows|) / 3), a.ceiling)
    decreases |windows|
  {
    if windows != [] {
      var front, n := windows[..|windows| - 1], a.healthy + |windows| - 1;
      GoodWindowsGrow(a, front);
      RunIsValid(a, front);
      GoodStepGrows(Run(a, front), windows[|windows| - 1], a.bitrate, n);
    }
  }

  lemma Thirds(k: nat)
    ensures if k % 3 == 2 then (k + 1) % 3 == 0 && (k + 1) / 3 == k / 3 + 1 else (k + 1) % 3 == k % 3 + 1 && (k + 1) / 3 == k / 3
  {
  }

  lemma CappedGrowth(b: nat, ceiling: nat)
    ensures var capped := Min(b, ceiling);
            Min(Rise(capped), ceiling) == Min(Rise(b), ceiling)
  {
  }

  lemma {:induction false} GrowthInSteps(b: nat, m: nat, n: nat)
    ensures Grown(b, m + n) == Grown(Grown(b, m), n)
  {
    if n > 0 { GrowthInSteps(b, m, n - 1); }
  }

  lemma FourRisesDouble(b: nat)
    requires b >= 100
    ensures Grown(b, 4) >= 2 * b
  {
    var once, twice, thrice := Rise(b), Rise(Rise(b)), Rise(Rise(Rise(b)));
    assert Grown(b, 1) == once && Grown(b, 2) == twice && Grown(b, 3) == thrice;
  }

  function Doubled(b: nat, k: nat): nat { if k == 0 then b else 2 * Doubled(b, k - 1) }

  lemma {:induction false} RisesDouble(k: nat)
    ensures Grown(MIN_BITRATE, 4 * k) >= Doubled(MIN_BITRATE, k) >= MIN_BITRATE
  {
    if k > 0 {
      RisesDouble(k - 1);
      GrowthInSteps(MIN_BITRATE, 4 * (k - 1), 4);
      FourRisesDouble(Grown(MIN_BITRATE, 4 * (k - 1)));
    }
  }

  lemma ThirtyThreeRisesReachEveryCeiling()
    ensures Grown(MIN_BITRATE, 33) >= MAX_CEILING
  {
    RisesDouble(8);
    assert Doubled(300_000, 8) == 76_800_000;
    GrowthIsMonotone(MIN_BITRATE, MIN_BITRATE, 32, 33);
  }

  /** From any state, a hundred consecutive good windows bring the bit rate to the ceiling, whatever the ceiling is. */
  lemma GoodWindowsReachTheCeiling(a: Controller, windows: seq<Feedback>)
    requires Valid(a) && |windows| == 100 && LastWindows(a, windows, 100, Good)
    ensures Run(a, windows).bitrate == a.ceiling
  {
    GoodWindowsGrow(a, windows);
    ThirtyThreeRisesReachEveryCeiling();
    GrowthIsMonotone(MIN_BITRATE, a.bitrate, 33, (a.healthy + 100) / 3);
  }

  /** Windows that could each sustain more: the frame rate rises, or the count of them does. */
  lemma {:induction false} FasterWindowsCount(a: Controller, windows: seq<Feedback>)
    requires Valid(a) && LastWindows(a, windows, |windows|, Faster)
    ensures var b := Run(a, windows); b.fps > a.fps || (b.fps == a.fps && b.faster == a.faster + |windows|)
    decreases |windows|
  {
    if windows != [] {
      var front, last := windows[..|windows| - 1], windows[|windows| - 1];
      FasterWindowsCount(a, front);
      RunIsValid(a, front);
      FasterStep(Run(a, front), last);
    }
  }

  lemma FasterStep(a: Controller, f: Feedback)
    requires Valid(a) && Faster(a, f)
    ensures var b := Observed(a, f); b.fps > a.fps || (b.fps == a.fps && b.faster == a.faster + 1)
  {
  }

  /** Five of them in a row raise it, from any state. */
  lemma FiveFasterWindowsRaise(a: Controller, windows: seq<Feedback>)
    requires Valid(a) && |windows| == 5 && LastWindows(a, windows, 5, Faster)
    ensures Run(a, windows).fps > a.fps
  {
    FasterWindowsCount(a, windows);
    RunIsValid(a, windows);
  }

  // -----------------------------------------------------------------------------------------------------------------
  // What counts as congestion
  // -----------------------------------------------------------------------------------------------------------------

  predicate Measures(f: Feedback) { f.acknowledged != 0 && f.delivery != 0 }

  /** The baseline is the shortest delivery measured so far, or what it was at first. */
  lemma {:induction false} BaselineIsTheShortest(a: Controller, windows: seq<Feedback>)
    ensures var b := Run(a, windows).baseline;
            && b <= a.baseline && (forall i | 0 <= i < |windows| && Measures(windows[i]) :: b <= windows[i].delivery)
            && (b == a.baseline || exists i :: 0 <= i < |windows| && Measures(windows[i]) && windows[i].delivery == b)
    decreases |windows|
  {
    if windows != [] {
      var n := |windows| - 1;
      BaselineIsTheShortest(a, windows[..n]);
      var before, b := Run(a, windows[..n]).baseline, Run(a, windows).baseline;
      forall i | 0 <= i < |windows| && Measures(windows[i]) ensures b <= windows[i].delivery {
        if i < n { assert windows[..n][i] == windows[i]; }
      }
      if b == before && b != a.baseline {
        var i: int :| 0 <= i < n && Measures(windows[..n][i]) && windows[..n][i].delivery == b;
        assert windows[i] == windows[..n][i];
      } else if b != before {
        assert Measures(windows[n]) && windows[n].delivery == b;
      }
    }
  }

  /** A window is congested if the sender or the wire is saturated, or delivery takes long, by itself and against the baseline. */
  lemma CongestionIsRelative(a: Controller, f: Feedback)
    requires Valid(a) && f.delivery <= U64_MAX
    ensures var b := Observed(a, f);
            b.congested <==> f.saturated || f.stall > 80 || f.delivery > 600 || (f.delivery > 200 && f.delivery > b.baseline + 120)
  {
  }

  /** A congested window lowers the bit rate, by no more than thirty-five in a hundred, unless it is at the minimum already. */
  lemma DropsAreBounded(a: Controller, f: Feedback)
    requires Valid(a) && Observed(a, f).congested
    ensures var b := Observed(a, f);
            b.bitrate <= a.bitrate && (b.bitrate == a.bitrate ==> a.bitrate == MIN_BITRATE) && 100 * (b.bitrate + 1) > 65 * a.bitrate
  {
  }

  // -----------------------------------------------------------------------------------------------------------------
  // Targets
  // -----------------------------------------------------------------------------------------------------------------

  datatype Target = Target(width: nat, height: nat, fps: nat, bitrate: nat)

  /** The size and frame rate a bit rate pays for. */
  function Mode(bitrate: nat, profile: Profile): (nat, nat, nat) {
    if bitrate < 800_000 then (640, 360, 15)
    else if bitrate < 1_600_000 then (960, 540, 24)
    else if bitrate < 3_000_000 then (1280, 720, 30)
    else if bitrate < 5_000_000 then
      if profile == Performance then (1280, 720, 60) else if profile == Quality then (1920, 1080, 30) else (1600, 900, 30)
    else if bitrate < 8_000_000 then (1920, 1080, 30)
    else (1920, 1080, 60)
  }

  function RealMin(a: real, b: real): real { if a < b then a else b }

  /** The largest even number of pixels in a scaled length, but at least sixteen. */
  function ScaledEven(length: nat, scale: real): nat
    requires scale >= 0.0
  {
    RealProduct(length as real, 0.0, scale);
    Max((length as real * scale).Floor / 2 * 2, 16)
  }

  function Scale(width: nat, height: nat, w: nat, h: nat): real
    requires width > 0 && height > 0
  {
    RealMin(RealMin(w as real / width as real, h as real / height as real), 1.0)
  }

  function TargetFor(a: Controller, width: nat, height: nat): Result<Target, MediaError> {
    if PixelCount(width, height).Err? || width < 16 || height < 16 then Err(Dimensions)
    else
      var (w, h, fps) := Mode(a.bitrate, a.profile);
      var scale := Scale(width, height, w, h);
      assert scale >= 0.0;
      Ok(Target(ScaledEven(width, scale), ScaledEven(height, scale), Min(fps, a.fps), a.bitrate))
  }

  /** The numeric conditions of a video format. */
  predicate Validates(t: Target) {
    && PixelCount(t.width, t.height).Ok? && t.width % 2 == 0 && t.height % 2 == 0
    && 0 < t.fps <= 60 && 100_000 <= t.bitrate <= 50_000_000
  }

  lemma ScaledEvenShrinks(length: nat, scale: real)
    requires 0.0 <= scale <= 1.0 && 16 <= length
    ensures 16 <= ScaledEven(length, scale) <= length && ScaledEven(length, scale) % 2 == 0
  {
    RealProduct(length as real, scale, 1.0);
    assert (length as real * scale).Floor <= length;
  }

  lemma RealProduct(a: real, b: real, c: real)
    requires 0.0 <= a && 0.0 <= b <= c
    ensures 0.0 <= a * b <= a * c
  {
  }

  lemma ScaledEvenFits(length: nat, limit: nat, scale: real)
    requires 0.0 <= scale && 0 < length && 16 <= limit && scale <= limit as real / length as real
    ensures ScaledEven(length, scale) <= limit
  {
    RealProduct(length as real, scale, limit as real / length as real);
    assert (length as real * scale).Floor <= limit;
  }

  /**
   A target exists for exactly the displays that have a legal size of at least sixteen by sixteen. It then passes every
   check of a video format, is no larger than the display, and no larger than the bit rate pays for.
   */
  lemma TargetsAreLegal(a: Controller, width: nat, height: nat)
    requires Valid(a)
    ensures TargetFor(a, width, height).Ok? <==> PixelCount(width, height).Ok? && width >= 16 && height >= 16
    ensures var r := TargetFor(a, width, height);
            r.Ok? ==>
              && Validates(r.value) && r.value.width <= width && r.value.height <= height
              && r.value.width <= Mode(a.bitrate, a.profile).0 && r.value.height <= Mode(a.bitrate, a.profile).1
              && r.value.fps <= a.fps
  {
    var r := TargetFor(a, width, height);
    if r.Ok? {
      var (w, h, _) := Mode(a.bitrate, a.profile);
      var scale := Scale(width, height, w, h);
      ScaledEvenShrinks(width, scale);
      ScaledEvenShrinks(height, scale);
      ScaledEvenFits(width, w, scale);
      ScaledEvenFits(height, h, scale);
      Grows(r.value.width, width, r.value.height, height);
    }
  }

  lemma ProductOfQuotient(a: real, b: real)
    requires b > 0.0
    ensures b * (a / b) == a
  {
  }

  lemma EvenOf(length: nat, scale: real, limit: nat)
    requires scale >= 0.0 && length as real * scale == limit as real && limit >= 16 && limit % 2 == 0
    ensures ScaledEven(length, scale) == limit
  {
  }

  /** A side that the limit scales down reaches the limit exactly. */
  lemma ScaledReaches(length: nat, limit: nat)
    requires length > 0 && limit >= 16 && limit % 2 == 0
    ensures limit as real / length as real >= 0.0 && ScaledEven(length, limit as real / length as real) == limit
  {
    ProductOfQuotient(limit as real, length as real);
    EvenOf(length, limit as real / length as real, limit);
  }

  lemma UnscaledStays(length: nat)
    requires length >= 16
    ensures ScaledEven(length, 1.0) == length - length % 2
  {
  }

  lemma ModesAreEven(bitrate: nat, profile: Profile)
    ensures var (w, h, fps) := Mode(bitrate, profile); w >= 16 && h >= 16 && w % 2 == 0 && h % 2 == 0 && fps > 0
  {
  }

  /**
   A target wastes nothing: a display that fits keeps its size, but for an odd row or column; any other is scaled until one
   side is as long as the bit rate pays for. The frame rate is the smaller of the two ceilings and the bit rate the controller's.
   */
  lemma TargetsWasteNothing(a: Controller, width: nat, height: nat)
    requires TargetFor(a, width, height).Ok?
    ensures var t := TargetFor(a, width, height).value;
            var (w, h, fps) := Mode(a.bitrate, a.profile);
            && (width <= w && height <= h ==> t.width == width - width % 2 && t.height == height - height % 2)
            && (width > w || height > h ==> t.width == w || t.height == h)
            && t.fps == Min(fps, a.fps) && t.bitrate == a.bitrate
  {
    var (w, h, _) := Mode(a.bitrate, a.profile);
    ModesAreEven(a.bitrate, a.profile);
    ScaledReaches(width, w);
    ScaledReaches(height, h);
    UnscaledStays(width);
    UnscaledStays(height);
    RatioAgainstOne(w, width);
    RatioAgainstOne(h, height);
  }

  lemma LargerModes(low: nat, high: nat, profile: Profile)
    requires low <= high
    ensures var (w, h, fps) := Mode(low, profile);
            var (w', h', fps') := Mode(high, profile);
            && w <= w' && h <= h' && w * h * fps <= w' * h' * fps'
            && (if profile == Performance && 3_000_000 <= low < 5_000_000 && 5_000_000 <= high < 8_000_000 then (fps, fps') == (60, 30)
                else fps <= fps')
  {
  }

  /** The even length at one scale leaves room at any larger one. */
  lemma EvenLength(length: nat, small: real, large: real) returns (n: nat)
    requires 0.0 <= small <= large
    ensures n == ScaledEven(length, small) && n % 2 == 0 && (n == 16 || n as real <= length as real * large)
  {
    n := ScaledEven(length, small);
    RealProduct(length as real, small, large);
    assert (length as real * small).Floor as real <= length as real * small;
  }

  lemma EvenLengthFits(length: nat, scale: real, n: nat)
    requires 0.0 <= scale && n % 2 == 0 && (n == 16 || n as real <= length as real * scale)
    ensures n <= ScaledEven(length, scale)
  {
    assert n == 16 || n <= (length as real * scale).Floor;
  }

  lemma ScaledEvenGrows(length: nat, small: real, large: real)
    requires 0.0 <= small <= large
    ensures ScaledEven(length, small) <= ScaledEven(length, large)
  {
    var n := EvenLength(length, small, large);
    EvenLengthFits(length, large, n);
  }

  lemma QuotientGrows(a: nat, b: nat, c: nat)
    requires a <= b && c > 0
    ensures 0.0 <= a as real / c as real <= b as real / c as real
  {
  }

  /**
   A higher bit rate never shows a smaller picture of the same display under the same profile. It lowers the frame rate
   under one profile only, on the way from three to five megabits a second to five to eight, if the ceiling is above thirty.
   */
  lemma HigherRatesShowMore(a: Controller, b: Controller, width: nat, height: nat)
    requires a.profile == b.profile && a.bitrate <= b.bitrate && a.fps <= b.fps && TargetFor(a, width, height).Ok?
    ensures TargetFor(b, width, height).Ok?
    ensures var s, t := TargetFor(a, width, height).value, TargetFor(b, width, height).value;
            && s.width <= t.width && s.height <= t.height
            && (t.fps < s.fps <==>
                && a.profile == Performance && a.fps > 30
                && 3_000_000 <= a.bitrate < 5_000_000 && 5_000_000 <= b.bitrate < 8_000_000)
  {
    LargerModes(a.bitrate, b.bitrate, a.profile);
    var (w, h, _) := Mode(a.bitrate, a.profile);
    var (w', h', _) := Mode(b.bitrate, b.profile);
    QuotientGrows(w, w', width);
    QuotientGrows(h, h', height);
    ScaledEvenGrows(width, Scale(width, height, w, h), Scale(width, height, w', h'));
    ScaledEvenGrows(height, Scale(width, height, w, h), Scale(width, height, w', h'));
  }

  lemma RatioAgainstOne(limit: nat, length: nat)
    requires length > 0
    ensures limit as real / length as real >= 1.0 <==> length <= limit
  {
    var ratio, l := limit as real / length as real, length as real;
    ProductOfQuotient(limit as real, l);
    if ratio < 1.0 { ProductsBelow(ratio, 1.0, l); } else { ProductsCompare(1.0, ratio, l); }
    assert l * ratio == ratio * l;
  }

  /** Both sides are scaled alike: the picture keeps its shape to within the two pixels that evenness may take. */
  lemma TargetsKeepTheirShape(a: Controller, width: nat, height: nat)
    requires TargetFor(a, width, height).Ok?
    ensures var t := TargetFor(a, width, height).value;
            t.width > 16 && t.height > 16 ==> t.width * height < (t.height + 2) * width && t.height * width < (t.width + 2) * height
  {
    var t := TargetFor(a, width, height).value;
    var (w, h, _) := Mode(a.bitrate, a.profile);
    var scale := Scale(width, height, w, h);
    if t.width > 16 && t.height > 16 {
      ScaledWithin(width, scale);
      ScaledWithin(height, scale);
      ShapeOf(t.width, t.height, width, height, scale);
    }
  }

  lemma ScaledWithin(length: nat, scale: real)
    requires scale >= 0.0 && ScaledEven(length, scale) > 16
    ensures ScaledEven(length, scale) as real <= length as real * scale < ScaledEven(length, scale) as real + 2.0
  {
  }

  lemma ShapeOf(tw: nat, th: nat, width: nat, height: nat, scale: real)
    requires width > 0 && height > 0
    requires tw as real <= width as real * scale < tw as real + 2.0 && th as real <= height as real * scale < th as real + 2.0
    ensures tw * height < (th + 2) * width && th * width < (tw + 2) * height
  {
    ShapeOneWay(tw, th, width, height, scale);
    ShapeOneWay(th, tw, height, width, scale);
  }

  lemma ShapeOneWay(tw: nat, th: nat, width: nat, height: nat, scale: real)
    requires width > 0 && height > 0
    requires tw as real <= width as real * scale && height as real * scale < th as real + 2.0
    ensures tw * height < (th + 2) * width
  {
    var w, h := width as real, height as real;
    ProductsCompare(tw as real, w * scale, h);
    ProductsBelow(h * scale, th as real + 2.0, w);
    Exchange(w, h, scale);
    ProductIsReal(tw, height);
    ProductIsReal(th + 2, width);
  }

  lemma Exchange(w: real, h: real, scale: real)
    ensures w * scale * h == h * scale * w
  {
  }

  lemma ProductIsReal(a: nat, b: nat)
    ensures (a * b) as real == a as real * b as real
  {
  }

  lemma ProductsCompare(a: real, b: real, c: real)
    requires a <= b && c > 0.0
    ensures a * c <= b * c
  {
  }

  lemma ProductsBelow(a: real, b: real, c: real)
    requires a < b && c > 0.0
    ensures a * c < b * c
  {
  }
}

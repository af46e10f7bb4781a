/**
 How many retries fit a total time (src/utils/retry.rs), against the delays that a capped
 exponential backoff really waits. Floating point numbers are read as exact reals.
 */
module Retry {
  import opened Words

  /** A duration in nanoseconds; seconds are a u64. */
  type Duration = d: nat | d < U64_MODULUS * 1_000_000_000

  function Seconds(d: Duration): real {
    d as real / 1_000_000_000.0
  }

  function Power(f: real, n: nat): real {
    if n == 0 then 1.0 else f * Power(f, n - 1)
  }

  function Ceil(r: real): int {
    -((-r).Floor)
  }

  /** `as u32` on a float saturates at both ends. */
  function ToU32(n: int): nat {
    if n < 0 then 0 else if n > U32_MAX then U32_MAX else n
  }

  /** The floor of the logarithm of a ratio of at least 1: the greatest power below it. */
  function FloorLog(ratio: real, f: real, bound: nat): nat {
    if bound == 0 || Power(f, bound) <= ratio then bound else FloorLog(ratio, f, bound - 1)
  }

  const LOG_BOUND: nat := 100

  /** A start delay above zero, at most half the maximum delay, growing at least twofold. */
  predicate IsBackoff(start: real, f: real, max: real) {
    0.0 < start && 2.0 * start <= max && 2.0 <= f
  }

  function SaturationSteps(start: real, f: real, max: real): nat
    requires IsBackoff(start, f, max)
  {
    FloorLog((max - start) / start, f, LOG_BOUND)
  }

  function GeometricSum(start: real, f: real, p: real): real
    requires f >= 2.0
  {
    start * (1.0 - p) / (1.0 - f)
  }

  function TimeToSaturate(start: real, f: real, k: nat): real
    requires f >= 2.0
  {
    GeometricSum(start, f, Power(f, k))
  }

  function Steps(start: real, f: real, max: real, total: real): int
    requires IsBackoff(start, f, max)
  {
    var k := SaturationSteps(start, f, max);
    Ceil((total - TimeToSaturate(start, f, k)) / max + k as real)
  }

  function TimesFromMaxDelay(start: Duration, f: real, max: Duration, total: Duration): nat
    requires IsBackoff(Seconds(start), f, Seconds(max))
  {
    ToU32(Steps(Seconds(start), f, Seconds(max), Seconds(total)))
  }

  // ---------------------------------------------------------------------------
  // The backoff
  // ---------------------------------------------------------------------------

  /** Each delay is the one before times the factor, without the cap. */
  function Growing(start: real, f: real, i: nat): real {
    if i == 0 then start else f * Growing(start, f, i - 1)
  }

  /** The delay before retry `i`. */
  function Delay(start: real, f: real, max: real, i: nat): real {
    if Growing(start, f, i) < max then Growing(start, f, i) else max
  }

  function TotalDelay(start: real, f: real, max: real, n: nat): real {
    if n == 0 then 0.0 else TotalDelay(start, f, max, n - 1) + Delay(start, f, max, n - 1)
  }

  /** What the two delays around saturation lack of the maximum. */
  function Shortfall(start: real, f: real, max: real, k: nat): real {
    (max - Delay(start, f, max, k)) + (max - Delay(start, f, max, k + 1))
  }

  /** `n` maximum delays. */
  function Times(n: nat, max: real): real {
    if n == 0 then 0.0 else Times(n - 1, max) + max
  }

  // ---------------------------------------------------------------------------
  // Multiplication
  // ---------------------------------------------------------------------------

  /** Products are passed in, so that only this proof multiplies. */
  lemma MulMonotone(a: real, b: real, c: real, ac: real, bc: real)
    requires a <= b && c >= 0.0 && ac == a * c && bc == b * c
    ensures ac <= bc
  {
    assert bc - ac == (b - a) * c;
  }

  lemma MulStrict(a: real, b: real, c: real, ac: real, bc: real)
    requires a < b && c > 0.0 && ac == a * c && bc == b * c
    ensures ac < bc
  {
    assert bc - ac == (b - a) * c;
  }

  lemma {:induction false} TimesIsProduct(n: nat, max: real)
    ensures Times(n, max) == n as real * max
  {
    if n > 0 {
      TimesIsProduct(n - 1, max);
    }
  }

  lemma {:induction false} TimesMonotone(m: nat, n: nat, max: real)
    requires m <= n && max >= 0.0
    ensures Times(m, max) <= Times(n, max)
    decreases n
  {
    if m < n {
      TimesMonotone(m, n - 1, max);
    }
  }

  // ---------------------------------------------------------------------------
  // Powers and logarithms
  // ---------------------------------------------------------------------------

  lemma SwapFactors(start: real, f: real, p: real)
    ensures start * (f * p) == f * (start * p)
  {
  }

  lemma {:induction false} GrowingIsPower(start: real, f: real, n: nat)
    ensures Growing(start, f, n) == start * Power(f, n)
  {
    if n > 0 {
      GrowingIsPower(start, f, n - 1);
      SwapFactors(start, f, Power(f, n - 1));
    }
  }

  lemma {:induction false} FloorLogIsFloor(ratio: real, f: real, bound: nat)
    requires 1.0 <= ratio < Power(f, bound)
    ensures var k := FloorLog(ratio, f, bound); k < bound && Power(f, k) <= ratio < Power(f, k + 1)
  {
    assert Power(f, 0) == 1.0;
    if bound > 1 && Power(f, bound - 1) > ratio {
      FloorLogIsFloor(ratio, f, bound - 1);
    }
  }

  /** Comparing a ratio with a power is comparing what they scale. */
  lemma RatioAgainstPower(ratio: real, start: real, room: real, f: real, n: nat)
    requires start > 0.0 && ratio * start == room
    ensures Power(f, n) <= ratio <==> Growing(start, f, n) <= room
  {
    GrowingIsPower(start, f, n);
    if Power(f, n) <= ratio {
      MulMonotone(Power(f, n), ratio, start, Growing(start, f, n), room);
    } else {
      MulStrict(ratio, Power(f, n), start, room, Growing(start, f, n));
    }
  }

  lemma QuotientIs(a: real, b: real, q: real)
    requires b != 0.0 && q * b == a
    ensures a / b == q
  {
  }

  lemma {:induction false} GrowsTwofold(start: real, f: real, n: nat)
    requires f >= 2.0 && start > 0.0
    ensures Growing(start, f, n) >= start
    ensures Growing(start, f, n + 1) >= 2.0 * Growing(start, f, n)
  {
    if n > 0 {
      GrowsTwofold(start, f, n - 1);
    }
    MulMonotone(2.0, f, Growing(start, f, n), 2.0 * Growing(start, f, n), Growing(start, f, n + 1));
  }

  lemma {:induction false} GrowingMonotone(start: real, f: real, i: nat, n: nat)
    requires f >= 2.0 && start > 0.0 && i <= n
    ensures Growing(start, f, i) <= Growing(start, f, n)
    decreases n
  {
    if i < n {
      GrowingMonotone(start, f, i, n - 1);
      GrowsTwofold(start, f, n - 1);
    }
  }

  /** A hundred doublings of a nanosecond leave every duration behind. */
  lemma {:induction false} GrowingPasses(start: real, f: real, n: nat)
    requires f >= 2.0 && start >= 0.000_000_001
    ensures Growing(start, f, n) >= Pow2(n) as real * 0.000_000_001
  {
    if n > 0 {
      GrowingPasses(start, f, n - 1);
      GrowsTwofold(start, f, n - 1);
    }
  }

  lemma DurationsAreShort(d: Duration, n: nat)
    requires n == LOG_BOUND
    ensures Seconds(d) < Pow2(n) as real * 0.000_000_001
  {
    var eight, four := 8, 4;
    assert Pow2(eight) == 0x100 && Pow2(four) == 16;
    Pow2Add(eight, eight);
    Pow2Add(16, 16);
    Pow2Add(32, four);
    Pow2Is64();
    Pow2Add(64, n - 64);
    assert Pow2(n - 64) == 0x10_0000_0000;
    assert Pow2(n) == U64_MODULUS * 0x10_0000_0000;
  }

  // ---------------------------------------------------------------------------
  // Saturation
  // ---------------------------------------------------------------------------

  /** `k` is where the delays saturate: the delay `k` still leaves room for the start delay
      below the maximum, and the next one does not. */
  predicate Saturates(start: real, f: real, max: real, k: nat) {
    Growing(start, f, k) <= max - start < Growing(start, f, k + 1)
  }

  lemma EarlyDelay(start: real, f: real, max: real, k: nat, i: nat)
    requires IsBackoff(start, f, max) && Saturates(start, f, max, k) && i <= k
    ensures Delay(start, f, max, i) == Growing(start, f, i) && start <= Growing(start, f, i) <= max - start
  {
    GrowingMonotone(start, f, i, k);
    GrowingMonotone(start, f, 0, i);
  }

  lemma LateDelay(start: real, f: real, max: real, k: nat, i: nat)
    requires IsBackoff(start, f, max) && Saturates(start, f, max, k) && i >= k + 2
    ensures Delay(start, f, max, i) == max
  {
    GrowsTwofold(start, f, k + 1);
    GrowingMonotone(start, f, k + 2, i);
  }

  /** Both delays around saturation together lack less than one maximum. */
  lemma ShortfallBounds(start: real, f: real, max: real, k: nat)
    requires IsBackoff(start, f, max) && Saturates(start, f, max, k)
    ensures 0.0 < max - Delay(start, f, max, k) <= Shortfall(start, f, max, k) < max
  {
    EarlyDelay(start, f, max, k, k);
  }

  // ---------------------------------------------------------------------------
  // Sums
  // ---------------------------------------------------------------------------

  /** The delays before saturation are a geometric series. */
  ghost predicate IsSeries(sum: real, start: real, f: real, d: real) {
    sum * (f - 1.0) == d - start
  }

  lemma {:induction false} EarlySum(start: real, f: real, max: real, k: nat, n: nat)
    requires IsBackoff(start, f, max) && Saturates(start, f, max, k) && n <= k + 1
    ensures IsSeries(TotalDelay(start, f, max, n), start, f, Growing(start, f, n))
  {
    if n == 0 {
      EmptySeries(start, f);
    } else {
      EarlySum(start, f, max, k, n - 1);
      var sum := EarlyStep(start, f, max, k, n);
      GeometricStep(TotalDelay(start, f, max, n - 1), sum, start, f, Growing(start, f, n - 1), Growing(start, f, n));
    }
  }

  lemma EmptySeries(start: real, f: real)
    ensures IsSeries(0.0, start, f, start)
  {
  }

  lemma EarlyStep(start: real, f: real, max: real, k: nat, n: nat) returns (sum: real)
    requires IsBackoff(start, f, max) && Saturates(start, f, max, k) && 0 < n <= k + 1
    ensures sum == TotalDelay(start, f, max, n) == TotalDelay(start, f, max, n - 1) + Growing(start, f, n - 1)
    ensures Growing(start, f, n) == f * Growing(start, f, n - 1)
  {
    EarlyDelay(start, f, max, k, n - 1);
    sum := TotalDelay(start, f, max, n);
  }

  lemma GeometricStep(sum: real, sum': real, start: real, f: real, d: real, d': real)
    requires IsSeries(sum, start, f, d) && sum' == sum + d && d' == f * d
    ensures IsSeries(sum', start, f, d')
  {
    assert sum' * (f - 1.0) == sum * (f - 1.0) + d * (f - 1.0);
    assert d * (f - 1.0) == f * d - d;
  }

  lemma ClosedForm(start: real, f: real, p: real, d: real, sum: real)
    requires f >= 2.0 && d == start * p && IsSeries(sum, start, f, d)
    ensures GeometricSum(start, f, p) == sum
  {
    assert sum * (1.0 - f) == start * (1.0 - p);
    QuotientIs(start * (1.0 - p), 1.0 - f, sum);
  }

  lemma {:induction false} SeriesClosed(start: real, f: real, k: nat, sum: real)
    requires f >= 2.0 && IsSeries(sum, start, f, Growing(start, f, k))
    ensures TimeToSaturate(start, f, k) == sum
  {
    GrowingIsPower(start, f, k);
    ClosedForm(start, f, Power(f, k), Growing(start, f, k), sum);
  }

  /** The closed form of the code is the sum of the delays before saturation. */
  lemma {:induction false} SaturationTime(start: real, f: real, max: real, k: nat)
    requires IsBackoff(start, f, max) && Saturates(start, f, max, k)
    ensures TimeToSaturate(start, f, k) == TotalDelay(start, f, max, k)
  {
    EarlySum(start, f, max, k, k);
    SeriesClosed(start, f, k, TotalDelay(start, f, max, k));
  }

  /** Up to saturation the delays together stay below one maximum. */
  lemma EarlySumSmall(start: real, f: real, max: real, k: nat, n: nat)
    requires IsBackoff(start, f, max) && Saturates(start, f, max, k) && n <= k
    ensures 0.0 <= TotalDelay(start, f, max, n) < max
  {
    EarlySum(start, f, max, k, n);
    EarlyDelay(start, f, max, k, n);
    SmallFactor(TotalDelay(start, f, max, n), start, f, Growing(start, f, n), max);
  }

  lemma SmallFactor(sum: real, start: real, f: real, d: real, max: real)
    requires f >= 2.0 && IsSeries(sum, start, f, d) && 0.0 <= d - start < max
    ensures 0.0 <= sum < max
  {
    if sum < 0.0 {
      MulStrict(sum, 0.0, f - 1.0, d - start, 0.0);
    } else {
      assert (f - 1.0) * sum == d - start;
      MulMonotone(1.0, f - 1.0, sum, sum, d - start);
    }
  }

  lemma {:induction false} LateSum(start: real, f: real, max: real, k: nat, n: nat)
    requires IsBackoff(start, f, max) && Saturates(start, f, max, k) && n >= k + 2
    ensures TotalDelay(start, f, max, n)
         == TotalDelay(start, f, max, k) + Times(n - k, max) - Shortfall(start, f, max, k)
    decreases n
  {
    if n == k + 2 {
      assert Times(1, max) == Times(0, max) + max && Times(2, max) == Times(1, max) + max;
      assert TotalDelay(start, f, max, k + 2) == TotalDelay(start, f, max, k + 1) + Delay(start, f, max, k + 1);
      assert TotalDelay(start, f, max, k + 1) == TotalDelay(start, f, max, k) + Delay(start, f, max, k);
    } else {
      LateSum(start, f, max, k, n - 1);
      LateDelay(start, f, max, k, n - 1);
    }
  }

  // ---------------------------------------------------------------------------
  // The retry count
  // ---------------------------------------------------------------------------

  predicate Fits(sum: real, total: real, max: real) {
    -max < sum - total < max
  }

  /** What the rounded-up number of steps says about the remaining time. */
  lemma StepsAbove(time: real, max: real, k: nat, total: real, steps: int)
    requires max > 0.0 && steps == Ceil((total - time) / max + k as real) && steps > k
    ensures Times(steps - k - 1, max) < total - time <= Times(steps - k, max)
  {
    var q, n := (total - time) / max, steps - k;
    assert q * max == total - time;
    assert n as real - 1.0 < q <= n as real;
    TimesIsProduct(n, max);
    assert Times(n, max) == Times(n - 1, max) + max;
    MulMonotone(q, n as real, max, total - time, Times(n, max));
    MulStrict(n as real - 1.0, q, max, Times(n - 1, max), total - time);
  }

  lemma StepsBelow(time: real, max: real, k: nat, total: real, steps: int)
    requires max > 0.0 && steps == Ceil((total - time) / max + k as real) && steps <= k
    ensures total <= time
  {
    var q := (total - time) / max;
    assert q * max == total - time;
    MulMonotone(q, 0.0, max, total - time, 0.0);
  }

  /** Few steps: neither the total time nor the sum gets past saturation, so both are below
      one maximum. */
  lemma FewSteps(start: real, f: real, max: real, k: nat, total: real, steps: int)
    requires IsBackoff(start, f, max) && Saturates(start, f, max, k) && total >= 0.0 && steps <= k
    requires steps == Ceil((total - TotalDelay(start, f, max, k)) / max + k as real)
    ensures Fits(TotalDelay(start, f, max, if steps < 0 then 0 else steps), total, max)
  {
    StepsBelow(TotalDelay(start, f, max, k), max, k, total, steps);
    EarlySumSmall(start, f, max, k, if steps < 0 then 0 else steps);
    EarlySumSmall(start, f, max, k, k);
  }

  lemma ManySteps(start: real, f: real, max: real, k: nat, total: real, steps: nat)
    requires IsBackoff(start, f, max) && Saturates(start, f, max, k) && steps > k
    requires steps == Ceil((total - TotalDelay(start, f, max, k)) / max + k as real)
    ensures Fits(TotalDelay(start, f, max, steps), total, max)
  {
    StepsAbove(TotalDelay(start, f, max, k), max, k, total, steps);
    ShortfallBounds(start, f, max, k);
    if steps >= k + 2 {
      LateSum(start, f, max, k, steps);
    } else {
      assert TotalDelay(start, f, max, k + 1) == TotalDelay(start, f, max, k) + Delay(start, f, max, k);
      assert Times(1, max) == max && Times(0, max) == 0.0;
    }
  }

  /** The total time that `n` retries still reach. */
  predicate InReach(start: real, f: real, max: real, k: nat, total: real, n: nat)
    requires n >= k
  {
    total - TotalDelay(start, f, max, k) + Shortfall(start, f, max, k) < Times(n + 1 - k, max)
  }

  lemma TooManySteps(start: real, f: real, max: real, k: nat, total: real, n: nat, steps: nat)
    requires IsBackoff(start, f, max) && Saturates(start, f, max, k) && k + 2 <= n < steps
    requires steps == Ceil((total - TotalDelay(start, f, max, k)) / max + k as real)
    ensures Fits(TotalDelay(start, f, max, n), total, max) <==> InReach(start, f, max, k, total, n)
  {
    StepsAbove(TotalDelay(start, f, max, k), max, k, total, steps);
    ShortfallBounds(start, f, max, k);
    LateSum(start, f, max, k, n);
    TimesMonotone(n - k, steps - k - 1, max);
  }

  lemma EnoughSteps(start: real, f: real, max: real, k: nat, total: real, n: nat, steps: int)
    requires IsBackoff(start, f, max) && Saturates(start, f, max, k) && k <= n && steps <= n
    requires steps == Ceil((total - TotalDelay(start, f, max, k)) / max + k as real)
    ensures InReach(start, f, max, k, total, n)
  {
    ShortfallBounds(start, f, max, k);
    if steps <= k {
      StepsBelow(TotalDelay(start, f, max, k), max, k, total, steps);
      TimesMonotone(1, n + 1 - k, max);
      assert Times(1, max) == Times(0, max) + max;
    } else {
      StepsAbove(TotalDelay(start, f, max, k), max, k, total, steps);
      TimesMonotone(steps - k, n - k, max);
    }
  }

  lemma RetriesFit(start: real, f: real, max: real, k: nat, total: real, n: nat, steps: int)
    requires IsBackoff(start, f, max) && Saturates(start, f, max, k) && total >= 0.0 && k + 2 <= n
    requires steps == Ceil((total - TotalDelay(start, f, max, k)) / max + k as real)
    ensures Fits(TotalDelay(start, f, max, if steps < 0 then 0 else if steps > n then n else steps), total, max)
            <==> InReach(start, f, max, k, total, n)
  {
    if steps > n {
      TooManySteps(start, f, max, k, total, n, steps);
    } else {
      EnoughSteps(start, f, max, k, total, n, steps);
      if steps <= k {
        FewSteps(start, f, max, k, total, steps);
      } else {
        ManySteps(start, f, max, k, total, steps);
      }
    }
  }

  lemma RatioOf(room: real, start: real) returns (ratio: real)
    requires start > 0.0
    ensures ratio == room / start && ratio * start == room
  {
    ratio := room / start;
  }

  lemma Saturation(start: Duration, f: real, max: Duration)
    requires IsBackoff(Seconds(start), f, Seconds(max))
    ensures var k := SaturationSteps(Seconds(start), f, Seconds(max));
            k < LOG_BOUND && Saturates(Seconds(start), f, Seconds(max), k)
  {
    var s, m := Seconds(start), Seconds(max);
    GrowingPasses(s, f, LOG_BOUND);
    DurationsAreShort(max, LOG_BOUND);
    var ratio := RatioOf(m - s, s);
    RatioAgainstPower(ratio, s, m - s, f, 0);
    RatioAgainstPower(ratio, s, m - s, f, LOG_BOUND);
    FloorLogIsFloor(ratio, f, LOG_BOUND);
    var k := FloorLog(ratio, f, LOG_BOUND);
    RatioAgainstPower(ratio, s, m - s, f, k);
    RatioAgainstPower(ratio, s, m - s, f, k + 1);
  }

  lemma StepsCounted(start: real, f: real, max: real, k: nat, total: real)
    requires IsBackoff(start, f, max) && Saturates(start, f, max, k) && k == SaturationSteps(start, f, max)
    ensures Steps(start, f, max, total) == Ceil((total - TotalDelay(start, f, max, k)) / max + k as real)
  {
    SaturationTime(start, f, max, k);
  }

  lemma StepsFit(start: real, f: real, max: real, k: nat, total: real)
    requires IsBackoff(start, f, max) && Saturates(start, f, max, k) && k == SaturationSteps(start, f, max)
    requires total >= 0.0 && k < LOG_BOUND
    ensures Fits(TotalDelay(start, f, max, ToU32(Steps(start, f, max, total))), total, max)
            <==> InReach(start, f, max, k, total, U32_MAX)
  {
    var steps := Steps(start, f, max, total);
    StepsCounted(start, f, max, k, total);
    RetriesFit(start, f, max, k, total, U32_MAX, steps);
  }

  /** For every capped backoff growing at least twofold, with a maximum of at least twice the
      start, and every total time: the delays of the computed number of retries sum up to the
      total time with an error below one maximum delay, exactly while the total time is in
      reach of a u32 of retries. */
  lemma RetriesFitTotalTime(start: Duration, f: real, max: Duration, total: Duration)
    requires IsBackoff(Seconds(start), f, Seconds(max))
    ensures SaturationSteps(Seconds(start), f, Seconds(max)) <= U32_MAX
    ensures var n := TimesFromMaxDelay(start, f, max, total);
            Fits(TotalDelay(Seconds(start), f, Seconds(max), n), Seconds(total), Seconds(max))
            <==> InReach(Seconds(start), f, Seconds(max), SaturationSteps(Seconds(start), f, Seconds(max)),
                         Seconds(total), U32_MAX)
  {
    Saturation(start, f, max);
    StepsFit(Seconds(start), f, Seconds(max), SaturationSteps(Seconds(start), f, Seconds(max)), Seconds(total));
  }

  /** A time this far below what all retries can wait is in reach. */
  lemma ShortTimesInReach(start: real, f: real, max: real, k: nat, total: real, n: nat)
    requires IsBackoff(start, f, max) && Saturates(start, f, max, k) && k + 2 <= n
    requires total <= Times(n - k, max)
    ensures InReach(start, f, max, k, total, n)
  {
    ShortfallBounds(start, f, max, k);
    EarlySumSmall(start, f, max, k, k);
    assert Times(n + 1 - k, max) == Times(n - k, max) + max;
  }

  /** The default backoff doubles from one second up to ten minutes: it saturates after nine
      steps, and fits every total time up to eighty thousand years. */
  lemma DefaultBackoffFits(total: Duration)
    requires Seconds(total) <= 2_500_000_000_000.0
    ensures IsBackoff(1.0, 2.0, 600.0) && Seconds(1_000_000_000) == 1.0 && Seconds(600_000_000_000) == 600.0
    ensures Fits(TotalDelay(1.0, 2.0, 600.0, TimesFromMaxDelay(1_000_000_000, 2.0, 600_000_000_000, total)),
                 Seconds(total), 600.0)
  {
    DefaultSaturation();
    TimesIsProduct(U32_MAX - 9, 600.0);
    ShortTimesInReach(1.0, 2.0, 600.0, 9, Seconds(total), U32_MAX);
    RetriesFitTotalTime(1_000_000_000, 2.0, 600_000_000_000, total);
  }

  lemma LongTimesOutOfReach(total: real)
    requires total >= 10_000_000_000_000.0
    ensures IsBackoff(1.0, 2.0, 600.0) && Saturates(1.0, 2.0, 600.0, 9)
    ensures !InReach(1.0, 2.0, 600.0, 9, total, U32_MAX)
  {
    DefaultSaturation();
    TimesIsProduct(U32_MAX + 1 - 9, 600.0);
    ShortfallBounds(1.0, 2.0, 600.0, 9);
    EarlySumSmall(1.0, 2.0, 600.0, 9, 9);
  }

  /** The count saturates far above that: no total time from three hundred thousand years on
      is fitted by the default backoff. */
  lemma DefaultBackoffMisses(total: Duration)
    requires Seconds(total) >= 10_000_000_000_000.0
    ensures IsBackoff(1.0, 2.0, 600.0) && Seconds(1_000_000_000) == 1.0 && Seconds(600_000_000_000) == 600.0
    ensures !Fits(TotalDelay(1.0, 2.0, 600.0, TimesFromMaxDelay(1_000_000_000, 2.0, 600_000_000_000, total)),
                  Seconds(total), 600.0)
  {
    DefaultSaturation();
    LongTimesOutOfReach(Seconds(total));
    RetriesFitTotalTime(1_000_000_000, 2.0, 600_000_000_000, total);
  }

  lemma DefaultSaturation()
    ensures IsBackoff(1.0, 2.0, 600.0) && SaturationSteps(1.0, 2.0, 600.0) == 9
    ensures Saturates(1.0, 2.0, 600.0, 9)
  {
    Saturation(1_000_000_000, 2.0, 600_000_000_000);
    var k := SaturationSteps(1.0, 2.0, 600.0);
    assert Growing(1.0, 2.0, 4) == 16.0;
    assert Growing(1.0, 2.0, 8) == 256.0;
    assert Growing(1.0, 2.0, 9) == 512.0 && Growing(1.0, 2.0, 10) == 1024.0;
    if k < 9 {
      GrowingMonotone(1.0, 2.0, k + 1, 9);
    } else if k > 9 {
      GrowingMonotone(1.0, 2.0, 10, k);
    }
  }
}

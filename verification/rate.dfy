/**
 * The rate converter (`ra_update_from_rate`, `dec_update_from_rate`): a rate
 * in arc-seconds per second becomes a pulse width, a driver direction, a
 * microstep resolution and an inter-pulse delay in microseconds, or is
 * refused. The two axes differ only in their calibration constant.
 *
 * Rates are exact reals here; the delay is the C conversion of the `double`
 * quotient to `long`, a truncation toward zero.
 */
module Rate {
  import opened Common
  import opened CArith
  import opened A4988
  import opened StepperTypes

  /** Empirical calibration constants, in microseconds times arc-seconds per second at full step. */
  const THE_RA_NUMBER: int := 1460000
  const THE_DEC_NUMBER: int := 2840000

  /** The pulse width used for every rate, in microseconds. */
  const PULSE_WIDTH_US: int := 500

  /** The largest |rate| the converter accepts (the tracking rate times eight). */
  const MAX_RATE: real := 120.0

  /** The least spacing between pulses the driver tolerates, in microseconds. */
  const MIN_DELAY_US: int := 2000

  function Calibration(a: Axis): int {
    match a
    case RA => THE_RA_NUMBER
    case DEC => THE_DEC_NUMBER
  }

  /** The fraction of a full step one pulse makes at a resolution is `1 / MicrostepDivisor`. */
  function MicrostepDivisor(r: Resolution): int {
    match r
    case Full => 1
    case Half => 2
    case Quarter => 4
    case Eighth => 8
  }

  /** The integer numerator the converter divides by the rate: the constant over the microstep divisor, in C integer division. */
  function Numerator(a: Axis, r: Resolution): int {
    Calibration(a) / MicrostepDivisor(r)
  }

  datatype Setting = Setting(resolution: Resolution, delay: int)

  /**
   * What the converter writes: the width and the driver direction always, and
   * the resolution and delay only when the rate is in range (`setting` is
   * `None` when the converter returns `EXIT_FAILURE`).
   */
  datatype Conversion = Conversion(width: int, direction: Dir, setting: Option<Setting>)

  /** `numerator / rate` converted from `double` to `long`: the quotient truncated toward zero. */
  function DelayFor(numerator: int, rate: real): int
    requires rate != 0.0
  {
    Trunc(numerator as real / rate)
  }

  /** `d` is the whole number of `rate`-units that fit in `n`: `d * rate <= n < (d + 1) * rate`. */
  predicate WholeUnits(d: int, n: real, rate: real) {
    d >= 0 && d as real * rate <= n < (d + 1) as real * rate
  }

  /** For a positive rate the truncated quotient is the whole number of rate-units that fit in the numerator. */
  lemma DelayForBounds(n: int, rate: real)
    requires n >= 0 && rate > 0.0
    ensures WholeUnits(DelayFor(n, rate), n as real, rate)
  {
    var nr := n as real;
    var x := nr / rate;
    DivMulCancel(nr, rate);
    var d := Trunc(x);
    assert 0 <= d && d as real <= x < d as real + 1.0;
    Bracket(x, nr, rate, d);
    assert DelayFor(n, rate) == d;
  }

  /** `d <= x < d + 1` scaled by a positive `rate`, with `x * rate == nr`. */
  lemma Bracket(x: real, nr: real, rate: real, d: int)
    requires rate > 0.0 && x * rate == nr && d as real <= x < d as real + 1.0
    ensures d as real * rate <= nr < (d + 1) as real * rate
  {
    var lo, hi := d as real, (d + 1) as real;
    assert lo <= x < hi;
    MulMonotone(lo, x, rate);
    MulMonotone(x, hi, rate);
    assert lo * rate <= nr < hi * rate;
  }

  lemma DivMulCancel(n: real, rate: real)
    requires rate != 0.0
    ensures (n / rate) * rate == n
  {
  }

  /**
   * `ra_update_from_rate` / `dec_update_from_rate`. A zero rate would make the
   * C conversion of an infinite quotient undefined; the only caller never
   * passes one.
   */
  function UpdateFromRate(a: Axis, rate: real): (c: Conversion)
    requires rate != 0.0
    ensures c.width == PULSE_WIDTH_US
    ensures c.direction == CW <==> rate > 0.0
    ensures c.setting.Some? <==> AbsR(rate) <= MAX_RATE
    ensures AbsR(rate) <= 30.0 ==> c.setting.Some? && c.setting.value.resolution == Eighth
    ensures 30.0 < AbsR(rate) <= 60.0 ==> c.setting.Some? && c.setting.value.resolution == Quarter
    ensures 60.0 < AbsR(rate) <= MAX_RATE ==> c.setting.Some? && c.setting.value.resolution == Full
    ensures c.setting.Some? ==> c.setting.value.resolution != Half
    ensures c.setting.Some? ==>
      c.setting.value.delay == DelayFor(Numerator(a, c.setting.value.resolution), rate)
  {
    var direction := if 0.0 < rate then CW else CCW;
    var k := Calibration(a);
    var setting :=
      if 30.0 >= AbsR(rate) then Some(Setting(Eighth, DelayFor(k / 8, rate)))
      else if 60.0 >= AbsR(rate) then Some(Setting(Quarter, DelayFor(k / 4, rate)))
      else if 120.0 >= AbsR(rate) then Some(Setting(Full, DelayFor(k, rate)))
      else None;
    Conversion(PULSE_WIDTH_US, direction, setting)
  }

  /** The resolutions the converter tries, finest first, with the largest |rate| each serves. */
  const Bands: seq<(Resolution, real)> := [(Eighth, 30.0), (Quarter, 60.0), (Full, MAX_RATE)]

  /**
   * The converter picks the finest band whose limit covers |rate|: the chosen
   * resolution's limit is at least |rate| and every finer band's limit is below it.
   */
  lemma ChoosesFinestBand(a: Axis, rate: real)
    requires rate != 0.0 && AbsR(rate) <= MAX_RATE
    ensures var c := UpdateFromRate(a, rate);
            exists i :: 0 <= i < |Bands| && Bands[i].0 == c.setting.value.resolution
              && AbsR(rate) <= Bands[i].1
              && forall j :: 0 <= j < i ==> Bands[j].1 < AbsR(rate)
  {
    var c := UpdateFromRate(a, rate);
    if AbsR(rate) <= 30.0 {
      assert Bands[0].0 == c.setting.value.resolution;
    } else if AbsR(rate) <= 60.0 {
      assert Bands[1].0 == c.setting.value.resolution;
    } else {
      assert Bands[2].0 == c.setting.value.resolution;
    }
  }

  /**
   * The delay realises the rate of the calibration formula in the converter's
   * comment, rate = numerator / delay: the achieved rate is never below the
   * requested one, and one microsecond more would fall below it.
   */
  lemma DelayRealisesRate(a: Axis, rate: real)
    requires 0.0 < rate <= MAX_RATE
    ensures var s := UpdateFromRate(a, rate).setting.value;
            var n := Numerator(a, s.resolution) as real;
            WholeUnits(s.delay, n, rate)
  {
    var c := UpdateFromRate(a, rate);
    assert c.setting.Some?;
    var s := c.setting.value;
    var n := Numerator(a, s.resolution);
    NumeratorPositive(a, s.resolution);
    assert s.delay == DelayFor(n, rate);
    DelayForBounds(n, rate);
  }

  /** Every numerator is positive. */
  lemma NumeratorPositive(a: Axis, r: Resolution)
    ensures Numerator(a, r) > 0
  {
    match r
    case Full =>
    case Half =>
    case Quarter =>
    case Eighth =>
  }

  lemma MulMonotone(x: real, y: real, r: real)
    requires r > 0.0
    ensures x <= y ==> x * r <= y * r
    ensures x < y ==> x * r < y * r
  {
  }

  /** The least delay each axis produces for a positive accepted rate. */
  function MinDelay(a: Axis): int {
    match a
    case RA => 6083
    case DEC => 11833
  }

  /**
   * For every positive accepted rate the delay is at least the axis minimum,
   * hence above the 2 ms floor the driver needs; for rates of at least 0.1 it
   * is at most ten times the eighth-step numerator.
   */
  lemma PositiveDelayBounds(a: Axis, rate: real)
    requires 0.0 < rate <= MAX_RATE
    ensures var d := UpdateFromRate(a, rate).setting.value.delay;
            MIN_DELAY_US <= MinDelay(a) <= d
            && (rate >= 0.1 ==> d <= 10 * Numerator(a, Eighth))
  {
    if rate <= 30.0 {
      InBand(a, rate, Eighth, 30.0, 0.1);
    } else if rate <= 60.0 {
      InBand(a, rate, Quarter, 60.0, 30.0);
    } else {
      InBand(a, rate, Full, MAX_RATE, 30.0);
    }
  }

  /** `PositiveDelayBounds` for the band that serves `rate`, whose limit is `limit` and whose least rate of interest is `floor`. */
  lemma InBand(a: Axis, rate: real, r: Resolution, limit: real, floor: real)
    requires 0.0 < rate <= limit
    requires (r, limit, floor) in {(Eighth, 30.0, 0.1), (Quarter, 60.0, 30.0), (Full, MAX_RATE, 30.0)}
    requires r == UpdateFromRate(a, rate).setting.value.resolution
    ensures var d := UpdateFromRate(a, rate).setting.value.delay;
            MinDelay(a) <= d && (rate >= floor ==> d <= 10 * Numerator(a, Eighth))
  {
    var n := Numerator(a, r);
    var d := DelayFor(n, rate);
    assert UpdateFromRate(a, rate).setting.value.delay == d;
    BandConstants(a);
    DelayForBounds(n, rate);
    BandBounds(n as real, d, rate, limit, floor, MinDelay(a), 10 * Numerator(a, Eighth));
  }

  /** The per-band numerators against the axis minimum and ten times the eighth-step numerator. */
  lemma BandConstants(a: Axis)
    ensures var n8, m, top := Numerator(a, Eighth), MinDelay(a), 10 * Numerator(a, Eighth);
            && m as real * 30.0 <= n8 as real <= top as real * 0.1
            && m as real * 60.0 <= Numerator(a, Quarter) as real <= top as real * 30.0
            && m as real * MAX_RATE <= Numerator(a, Full) as real <= top as real * 30.0
  {
  }

  /**
   * Inside one band, `d * rate <= n < (d + 1) * rate` pins `d` between the
   * whole numbers `m` and `top` that the band's end points allow.
   */
  lemma BandBounds(n: real, d: int, rate: real, limit: real, floor: real, m: int, top: int)
    requires WholeUnits(d, n, rate)
    requires 0.0 < rate <= limit && 0.0 < floor && m as real * limit <= n <= top as real * floor
    ensures m <= d
    ensures rate >= floor ==> d <= top
  {
    ScaleUp(n, (d + 1) as real, rate, limit);
    WholeLowerBound(n, limit, d, m);
    if rate >= floor {
      ScaleDown(n, d as real, rate, floor);
      WholeUpperBound(n, floor, d, top);
    }
  }

  /** From `m * limit <= n < (d + 1) * limit`: `m <= d`. */
  lemma WholeLowerBound(n: real, limit: real, d: int, m: int)
    requires limit > 0.0 && m as real * limit <= n < (d + 1) as real * limit
    ensures m <= d
  {
    MulMonotone((d + 1) as real, m as real, limit);
  }

  /** From `d * floor <= n <= top * floor`: `d <= top`. */
  lemma WholeUpperBound(n: real, floor: real, d: int, top: int)
    requires floor > 0.0 && d as real * floor <= n <= top as real * floor
    ensures d <= top
  {
    MulMonotone(top as real, d as real, floor);
  }

  /** `n < k * rate` and `rate <= limit` give `n < k * limit` for nonnegative `k`. */
  lemma ScaleUp(n: real, k: real, rate: real, limit: real)
    requires k >= 0.0 && 0.0 < rate <= limit && n < k * rate
    ensures n < k * limit
  {
    assert k * rate <= k * limit;
  }

  /** `k * rate <= n` and `floor <= rate` give `k * floor <= n` for nonnegative `k`. */
  lemma ScaleDown(n: real, k: real, rate: real, floor: real)
    requires k >= 0.0 && 0.0 < floor <= rate && k * rate <= n
    ensures k * floor <= n
  {
    assert k * floor <= k * rate;
  }

  /** Negating the rate flips the driver direction and negates the delay; the band is unchanged. */
  lemma NegatedRate(a: Axis, rate: real)
    requires rate != 0.0
    ensures var c := UpdateFromRate(a, rate);
            var c' := UpdateFromRate(a, -rate);
            && c'.width == c.width
            && c'.direction != c.direction
            && c'.setting.Some? == c.setting.Some?
            && (c.setting.Some? ==>
                  c'.setting.value.resolution == c.setting.value.resolution
                  && c'.setting.value.delay == -c.setting.value.delay)
  {
    assert AbsR(-rate) == AbsR(rate);
    var c := UpdateFromRate(a, rate);
    if c.setting.Some? {
      DelayForOdd(Numerator(a, c.setting.value.resolution), rate);
    }
  }

  /** The converted quotient is odd in the rate. */
  lemma DelayForOdd(n: int, rate: real)
    requires rate != 0.0
    ensures DelayFor(n, -rate) == -DelayFor(n, rate)
  {
    var x := n as real / rate;
    assert n as real / (-rate) == -x;
    TruncOdd(x);
  }

  /**
   * The division uses the signed rate, so a negative accepted rate yields a
   * negative delay: the 2 ms floor holds only for positive rates.
   */
  lemma NegativeRateNegativeDelay(a: Axis, rate: real)
    requires -MAX_RATE <= rate < 0.0
    ensures UpdateFromRate(a, rate).setting.value.delay <= -MinDelay(a) < 0
  {
    NegatedRate(a, -rate);
    PositiveDelayBounds(a, -rate);
  }

  /** The tracking-rate example of the converter: RA at 15 arc-seconds per second. */
  lemma TrackingRateExample()
    ensures UpdateFromRate(RA, 15.0) == Conversion(500, CW, Some(Setting(Eighth, 12166)))
  {
    var x := 182500.0 / 15.0;
    assert 12166.0 <= x < 12167.0;
  }
}

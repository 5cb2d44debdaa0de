/**
 * The fan thread's duty curve: every few seconds the board temperature (in
 * whole degrees centigrade) is turned into a hardware-PWM duty cycle on the
 * fan pin, off below `low`, full above `high`, and rising from `bias` in
 * between. Cancelling the thread sets the duty to 0.
 */
module Fan {
  import opened CArith

  /** pigpio's hardware PWM duty range: 0 is off, this is always on. */
  const PWM_RANGE: int := 1_000_000

  /** The PWM frequency the fan is driven at, in Hz. */
  const PWM_FREQUENCY: int := 100

  /** The C `int` range the duty arithmetic is done in. */
  const INT_MAX: int := 0x7fff_ffff

  /** `struct fan_params`: temperatures in degrees centigrade, `bias` the least duty that spins the fan. */
  datatype FanParams = FanParams(pin: int, bias: int, high: int, low: int)

  /** One call of `gpioHardwarePWM`: pin, frequency and duty. */
  datatype PwmCommand = PwmCommand(pin: int, frequency: int, duty: int)

  /**
   * The duty for temperature `temp`: full range above `high`, 0 below `low`,
   * and in between `bias` plus 5% of the span above `bias` per degree above
   * `low`, the percentage taken with C's truncating division.
   */
  function Duty(p: FanParams, temp: int): (d: int)
    ensures temp > p.high ==> d == PWM_RANGE
    ensures temp < p.low <= p.high ==> d == 0
    ensures p.low <= temp <= p.high ==> d == Quot((temp - p.low) * 5 * (PWM_RANGE - p.bias), 100) + p.bias
  {
    if p.high < temp then PWM_RANGE
    else if p.low > temp then 0
    else Quot((temp - p.low) * 5 * (PWM_RANGE - p.bias), 100) + p.bias
  }

  /** What one pass of the fan loop sends for a reading of `temp`. */
  function Command(p: FanParams, temp: int): (c: PwmCommand)
    ensures c.pin == p.pin && c.frequency == PWM_FREQUENCY
    ensures temp > p.high ==> c.duty == PWM_RANGE
    ensures temp < p.low <= p.high ==> c == Cleanup(p)
  {
    PwmCommand(p.pin, PWM_FREQUENCY, Duty(p, temp))
  }

  /** `fan_cleanup`: the fan pin at the same frequency with duty 0. */
  function Cleanup(p: FanParams): (c: PwmCommand)
    ensures c.pin == p.pin && c.frequency == PWM_FREQUENCY && c.duty == 0
  {
    PwmCommand(p.pin, PWM_FREQUENCY, 0)
  }

  /** The cleanup command is what the loop sends for any reading below `low`: the fan is stopped. */
  lemma CleanupStopsFan(p: FanParams, temp: int)
    requires temp < p.low <= p.high
    ensures Cleanup(p) == Command(p, temp)
  {
  }

  /** At the bottom of the band the duty is exactly `bias`, the least duty that spins the fan. */
  lemma DutyAtLowIsBias(p: FanParams)
    requires p.low <= p.high
    ensures Duty(p, p.low) == p.bias
  {
    assert (p.low - p.low) * 5 * (PWM_RANGE - p.bias) == 0;
  }

  /** One more degree in the band never lowers the duty when `bias` does not exceed the range. */
  lemma DutyStepMonotone(p: FanParams, t: int)
    requires p.low <= t && t + 1 <= p.high && p.bias <= PWM_RANGE
    ensures Duty(p, t) <= Duty(p, t + 1)
  {
    var k, c := t - p.low, PWM_RANGE - p.bias;
    var s := 5 * c;
    var a, b := k * 5 * c, (k + 1) * 5 * c;
    MulAssoc(k, 5, c);
    MulAssoc(k + 1, 5, c);
    MulSucc(k, s);
    assert a == k * s && b == a + s;
    MulNonNegative(k, s);
    QuotNonNegative(a, 100);
    QuotNonNegative(b, 100);
    PercentMonotone(a, b);
  }

  lemma PercentMonotone(a: int, b: int)
    requires 0 <= a <= b
    ensures a / 100 <= b / 100
  {
  }

  /**
   * Within the band the duty is non-decreasing in the temperature when
   * `bias` does not exceed the range: the fan speeds up as the board warms.
   */
  lemma {:induction false} DutyMonotoneInBand(p: FanParams, t1: int, t2: int)
    requires p.low <= t1 <= t2 <= p.high && p.bias <= PWM_RANGE
    ensures Duty(p, t1) <= Duty(p, t2)
    decreases t2 - t1
  {
    if t1 < t2 {
      DutyMonotoneInBand(p, t1, t2 - 1);
      DutyStepMonotone(p, t2 - 1);
    }
  }

  /** A well-chosen band: `bias` a duty in range and at most 20 degrees from `low` to `high`. */
  predicate NarrowBand(p: FanParams) {
    0 <= p.bias <= PWM_RANGE && p.low <= p.high <= p.low + 20
  }

  /**
   * In a band of at most 20 degrees every reading gives a duty in
   * [0, PWM_RANGE], and inside the band at least `bias`: 5% per degree
   * reaches 100% after 20 degrees.
   */
  lemma DutyInRange(p: FanParams, temp: int)
    requires NarrowBand(p)
    ensures 0 <= Duty(p, temp) <= PWM_RANGE
    ensures p.low <= temp ==> p.bias <= Duty(p, temp)
  {
    if p.low <= temp <= p.high {
      var k := temp - p.low;
      var s := PWM_RANGE - p.bias;
      var a := k * 5 * s;
      assert a == (5 * k) * s;
      MulNonNegative(5 * k, s);
      MulBound(5 * k, 100, s);
      QuotNonNegative(a, 100);
      assert a / 100 <= s;
    }
  }

  /**
   * In a narrow band the whole curve is non-decreasing: off below the band,
   * rising through it, full above it.
   */
  lemma DutyMonotone(p: FanParams, t1: int, t2: int)
    requires NarrowBand(p) && t1 <= t2
    ensures Duty(p, t1) <= Duty(p, t2)
  {
    DutyInRange(p, t1);
    DutyInRange(p, t2);
    if p.low <= t1 && t2 <= p.high {
      DutyMonotoneInBand(p, t1, t2);
    }
  }

  /**
   * A band wider than 20 degrees overdrives the PWM: at `high` the computed
   * duty exceeds the range whenever `bias` leaves at least 20 of it to scale.
   */
  lemma WideBandOverdrives(p: FanParams)
    requires p.high > p.low + 20 && 0 <= p.bias <= PWM_RANGE - 20
    ensures Duty(p, p.high) > PWM_RANGE
  {
    var k := p.high - p.low;
    var s := PWM_RANGE - p.bias;
    var a := k * 5 * s;
    assert a == (5 * k) * s;
    MulBound(105, 5 * k, s);
    assert 105 * s <= a;
    QuotNonNegative(a, 100);
    PercentMonotone(105 * s, a);
    assert (105 * s) / 100 >= s + 1;
  }

  /**
   * The product in the duty formula fits in a C `int` for bands of up to 429
   * degrees, so the mathematical duty is the one C computes for every band
   * that keeps the duty in range.
   */
  lemma DutyArithmeticFitsInt(p: FanParams, temp: int)
    requires 0 <= p.bias <= PWM_RANGE && p.low <= temp <= p.high <= p.low + 429
    requires -INT_MAX - 1 <= p.low && p.high <= INT_MAX
    ensures 0 <= (temp - p.low) * 5 <= INT_MAX
    ensures 0 <= (temp - p.low) * 5 * (PWM_RANGE - p.bias) <= INT_MAX
    ensures 0 <= Duty(p, temp) <= INT_MAX
  {
    var k := temp - p.low;
    var s := PWM_RANGE - p.bias;
    MulNonNegative(5 * k, s);
    MulBound(5 * k, 5 * 429, s);
    MulBound(s, PWM_RANGE, 5 * 429);
    assert (5 * 429) * s == s * (5 * 429);
    QuotNonNegative(k * 5 * s, 100);
  }
}

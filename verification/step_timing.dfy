/**
 * The arithmetic of the axis thread's step loop, with every clock reading an
 * input. Times are whole nanoseconds: a normalised `struct timespec` is
 * determined by its total, and the `timespec.h` helpers the loop uses are
 * taken to be exact on totals, with `timespec_to_ms` rounding down
 * (a normalised `tv_nsec` is never negative, so seconds times 1000 plus
 * `tv_nsec / 1000000` is the floor of the total over 10^6).
 */
module StepTiming {
  import opened Common
  import opened CArith

  /** `timespec_to_ms`: whole milliseconds, rounded down. */
  function ToMs(ns: int): (ms: int)
    ensures ms * NS_PER_MS <= ns < ms * NS_PER_MS + NS_PER_MS
  {
    FloorDiv(ns, NS_PER_MS)
  }

  /** `timespec_from_ms`. */
  function FromMs(ms: int): int {
    ms * NS_PER_MS
  }

  /** `__builtin_smull_overflow(x, k, &r)`: the product if it fits in a `long`, `None` when it overflows. */
  function MulChecked(x: int, k: int): (r: Option<int>)
    ensures r.Some? <==> InLong(x * k)
    ensures r.Some? ==> r.value == x * k
  {
    if InLong(x * k) then Some(x * k) else None
  }

  /** The pulse period, `(width + delay) * 1000` ns, or `None` when the thread exits on overflow. */
  function Period(width: int, delay: int): (r: Option<int>)
    ensures r.Some? <==> InLong((width + delay) * 1000)
    ensures r.Some? ==> r.value == (width + delay) * 1000
  {
    MulChecked(width + delay, 1000)
  }

  /** The first sleep between pulses, `delay * 1000` ns, or `None` when the thread exits on overflow. */
  function InitialSleep(delay: int): (r: Option<int>)
    ensures r.Some? <==> InLong(delay * 1000)
    ensures r.Some? ==> r.value == delay * 1000
  {
    MulChecked(delay, 1000)
  }

  /** When both products fit, the period is the pulse width plus the initial sleep, in ns. */
  lemma PeriodIsPulsePlusSleep(width: int, delay: int)
    requires Period(width, delay).Some? && InitialSleep(delay).Some?
    ensures Period(width, delay).value == width * 1000 + InitialSleep(delay).value
  {
  }

  /**
   * One pass of the loop-top check of a finite run that stops at `stop`:
   * `None` when `now` is past `stop` (the loop breaks), otherwise the
   * milliseconds left, never reported as 0 while the run goes on.
   */
  function Remaining(now: int, stop: int): (r: Option<int>)
    ensures r.Some? <==> now <= stop
    ensures r.Some? ==> r.value >= 1
    ensures r.Some? ==> r.value * NS_PER_MS <= stop - now || r.value == 1
    ensures r.Some? ==> stop - now < r.value * NS_PER_MS + NS_PER_MS
  {
    if now > stop then None
    else
      var ms := ToMs(stop - now);
      Some(if ms == 0 then 1 else ms)
  }

  /** The reported milliseconds never grow as the clock advances. */
  lemma RemainingNonincreasing(now: int, now': int, stop: int)
    requires now <= now' <= stop
    ensures Remaining(now', stop).value <= Remaining(now, stop).value
  {
    var m, m' := ToMs(stop - now), ToMs(stop - now');
    assert m' * NS_PER_MS < m * NS_PER_MS + NS_PER_MS;
    MulCancel(m', m);
  }

  /** Started at `start` for `duration` ms, the run goes on exactly while at most `duration` ms have passed, and reports no more than `duration`. */
  lemma RemainingWithinDuration(start: int, duration: int, now: int)
    requires duration > 0 && start <= now
    ensures var r := Remaining(now, start + FromMs(duration));
            && (r.Some? <==> now - start <= duration * NS_PER_MS)
            && (r.Some? ==> r.value <= duration)
  {
    var r := Remaining(now, start + FromMs(duration));
    if r.Some? && r.value != 1 {
      MulCancel(r.value, duration);
    }
  }

  /** Cancelling the positive factor `NS_PER_MS` from an inequality. */
  lemma MulCancel(x: int, y: int)
    requires x * NS_PER_MS < y * NS_PER_MS + NS_PER_MS
    ensures x <= y
  {
  }

  /**
   * The quarter-damped correction's offset for a measured pulse-to-pulse
   * interval: the error `period - measured` in whole milliseconds (rounded
   * down), divided by 4 in C's truncating division, back in nanoseconds. It
   * is a whole number of milliseconds, has the error's sign, is at most a
   * quarter of the error, and is zero in the dead band from -3 ms to just
   * under 4 ms.
   */
  function Offset(period: int, measured: int): (o: int)
    ensures o % NS_PER_MS == 0
    ensures period - measured >= 0 ==> 0 <= 4 * o <= period - measured
    ensures period - measured < 0 ==> period - measured - NS_PER_MS < 4 * o <= 0
    ensures -3 * NS_PER_MS <= period - measured < 4 * NS_PER_MS ==> o == 0
    ensures period - measured >= 4 * NS_PER_MS ==> o >= NS_PER_MS
    ensures period - measured < -3 * NS_PER_MS ==> o <= -NS_PER_MS
  {
    var f := ToMs(period - measured);
    var q := Quot(f, 4);
    assert f >= 0 ==> 0 <= 4 * q <= f;
    assert f < 0 ==> f <= 4 * q <= 0;
    FromMs(q)
  }

  /**
   * The sleep after a correction (the block run on every second pulse): the
   * offset is added only when the sleep exceeds it, and a sleep that would
   * then be negative in milliseconds is reset to `delay` microseconds.
   */
  function Corrected(period: int, measured: int, sleep: int, delay: int): (s': int)
    ensures delay >= 0 ==> s' >= 0
    ensures s' >= 0 || s' == delay * 1000
    ensures s' == sleep || s' == delay * 1000 || s' - sleep == Offset(period, measured)
  {
    var o := Offset(period, measured);
    var s1 := if sleep > o then sleep + o else sleep;
    if ToMs(s1) < 0 then delay * 1000 else s1
  }

  /**
   * With a fixed overhead `c` per interval (the measured interval is the
   * sleep plus `c`, and `c` is no longer than the period), a correction
   * never resets the sleep, never overshoots (the new error has the old
   * error's sign and is no larger), and strictly reduces an error outside
   * the dead band when the offset is applied.
   */
  lemma CorrectionConverges(period: int, c: int, sleep: int, delay: int)
    requires 0 <= c <= period && sleep >= 0
    ensures var s' := Corrected(period, sleep + c, sleep, delay);
            var e, e' := period - (sleep + c), period - (s' + c);
            && s' >= 0
            && (e >= 0 ==> 0 <= e' <= e)
            && (e <= 0 ==> e <= e' <= 0)
            && (e < -3 * NS_PER_MS ==> e' >= e + NS_PER_MS)
            && (e >= 4 * NS_PER_MS && sleep > Offset(period, sleep + c) ==> e' <= e - NS_PER_MS)
  {
    var o := Offset(period, sleep + c);
    var e := period - (sleep + c);
    if e < -3 * NS_PER_MS {
      assert sleep > 3 * NS_PER_MS;
      assert sleep + o >= 0;
    }
    if o != 0 {
      assert e < -3 * NS_PER_MS || e >= 4 * NS_PER_MS;
    }
    assert Corrected(period, sleep + c, sleep, delay) == (if sleep > o then sleep + o else sleep);
  }

  /** The sleep after `n` corrections under a fixed overhead `c`. */
  function SleepAfter(period: int, c: int, sleep: int, delay: int, n: nat): int
    decreases n
  {
    if n == 0 then sleep
    else Corrected(period, SleepAfter(period, c, sleep, delay, n - 1) + c, SleepAfter(period, c, sleep, delay, n - 1), delay)
  }

  /**
   * Pulses that come too slowly (the interval exceeds the period) are sped
   * up: after `n` corrections the error has not changed sign, and it has
   * shrunk by a millisecond per correction until it is inside the 3 ms dead
   * band.
   */
  lemma {:induction false} SlowPulsesSettle(period: int, c: int, sleep: int, delay: int, n: nat)
    requires 0 <= c <= period && sleep >= 0 && period - (sleep + c) <= 0
    ensures var e0, s := period - (sleep + c), SleepAfter(period, c, sleep, delay, n);
            && s >= 0
            && Min(e0 + n * NS_PER_MS, -3 * NS_PER_MS) <= period - (s + c) <= 0
  {
    if n > 0 {
      SlowPulsesSettle(period, c, sleep, delay, n - 1);
      var s := SleepAfter(period, c, sleep, delay, n - 1);
      CorrectionConverges(period, c, s, delay);
    }
  }

  /** Pulses that come too fast are slowed down, never past the period: the error stays nonnegative and never grows. */
  lemma {:induction false} FastPulsesNeverOvershoot(period: int, c: int, sleep: int, delay: int, n: nat)
    requires 0 <= c <= period && sleep >= 0 && period - (sleep + c) >= 0
    ensures var s := SleepAfter(period, c, sleep, delay, n);
            s >= 0 && 0 <= period - (s + c) <= period - (sleep + c)
  {
    if n > 0 {
      FastPulsesNeverOvershoot(period, c, sleep, delay, n - 1);
      var s := SleepAfter(period, c, sleep, delay, n - 1);
      CorrectionConverges(period, c, s, delay);
    }
  }

  function Min(a: int, b: int): int {
    if a <= b then a else b
  }

  /**
   * The sleep after pulse `i` of a run, given the monotonic time stamp taken
   * after each pulse. `odd` is the loop's pulse-parity counter at the start
   * of the run (it is function-static and survives from an earlier run). A
   * stamp taken with the counter at 1 closes a pair, and the sleep is
   * corrected from the interval between the pair's two stamps; the first
   * pair of a run entered with the counter at 1 uses `stale`, the stamp left
   * by the earlier run. Other pulses keep the sleep.
   */
  function SleepAt(period: int, delay: int, sleep0: int, odd: bool, stale: int, stamps: seq<int>, i: nat): (s: int)
    requires i < |stamps|
    ensures delay >= 0 && sleep0 >= 0 ==> s >= 0
    decreases i
  {
    var prev := if i == 0 then sleep0 else SleepAt(period, delay, sleep0, odd, stale, stamps, i - 1);
    if ClosesPair(odd, i) then
      Corrected(period, stamps[i] - (if i == 0 then stale else stamps[i - 1]), prev, delay)
    else prev
  }

  /** Whether the stamp after pulse `i` closes a pair, for a run entered with the parity counter at `odd`. */
  predicate ClosesPair(odd: bool, i: nat) {
    Odd(i) != odd
  }

  predicate Odd(i: nat) {
    if i == 0 then false else !Odd(i - 1)
  }

  /** A run entered with the counter at 0 corrects after every odd pulse, from that pulse's own pair, and keeps the sleep after every even one. */
  lemma FreshRunPairs(period: int, delay: int, sleep0: int, stale: int, stamps: seq<int>, i: nat)
    requires i < |stamps|
    ensures !Odd(i) ==> SleepAt(period, delay, sleep0, false, stale, stamps, i) == (if i == 0 then sleep0 else SleepAt(period, delay, sleep0, false, stale, stamps, i - 1))
    ensures Odd(i) ==>
              SleepAt(period, delay, sleep0, false, stale, stamps, i) == Corrected(period, stamps[i] - stamps[i - 1], SleepAt(period, delay, sleep0, false, stale, stamps, i - 1), delay)
  {
  }

  /**
   * The loop's own bookkeeping: the parity counter `mi` and the stamp `m[0]`
   * of the open pair, run over the stamps, produce the sleeps `SleepAt`
   * describes.
   */
  method Sleeps(period: int, delay: int, sleep0: int, odd: bool, stale: int, stamps: seq<int>)
    returns (sleeps: seq<int>)
    requires delay >= 0 && sleep0 >= 0
    ensures |sleeps| == |stamps|
    ensures forall i {:trigger sleeps[i]} :: 0 <= i < |sleeps| ==> sleeps[i] == SleepAt(period, delay, sleep0, odd, stale, stamps, i)
    ensures forall i :: 0 <= i < |sleeps| ==> sleeps[i] >= 0
  {
    sleeps := [];
    var sleep := sleep0;
    var first := stale;
    var mi := odd;
    var i := 0;
    while i < |stamps|
      invariant 0 <= i <= |stamps| && |sleeps| == i
      invariant mi == ClosesPair(odd, i)
      invariant sleep == if i == 0 then sleep0 else SleepAt(period, delay, sleep0, odd, stale, stamps, i - 1)
      invariant mi ==> first == (if i == 0 then stale else stamps[i - 1])
      invariant forall j {:trigger sleeps[j]} :: 0 <= j < i ==> sleeps[j] == SleepAt(period, delay, sleep0, odd, stale, stamps, j)
    {
      NextSleep(period, delay, sleep0, odd, stale, stamps, i, mi, first, sleep);
      if mi {
        sleep := Corrected(period, stamps[i] - first, sleep, delay);
      } else {
        first := stamps[i];
      }
      mi := !mi;
      sleeps := sleeps + [sleep];
      i := i + 1;
    }
  }

  /** One pass of the loop body keeps the loop's state in step with `SleepAt`. */
  lemma NextSleep(period: int, delay: int, sleep0: int, odd: bool, stale: int, stamps: seq<int>,
                  i: nat, mi: bool, first: int, sleep: int)
    requires i < |stamps| && mi == ClosesPair(odd, i)
    requires sleep == if i == 0 then sleep0 else SleepAt(period, delay, sleep0, odd, stale, stamps, i - 1)
    requires mi ==> first == if i == 0 then stale else stamps[i - 1]
    ensures SleepAt(period, delay, sleep0, odd, stale, stamps, i)
            == if mi then Corrected(period, stamps[i] - first, sleep, delay) else sleep
    ensures ClosesPair(odd, i + 1) == !mi
  {
  }
}

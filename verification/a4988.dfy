/**
 * The Allegro A4988 stepper-driver wrapper: five GPIO lines per chip
 * (sleep, direction, step and the two microstep selects MS1/MS2), brought up
 * by `Initialize`, powered by `Enable`, pulsed by `Step`, idled by `Disable`
 * and released by `Finalize`. GPIO failures are inputs (`ok` flags, one per
 * GPIO call in the order the driver makes them).
 */
module A4988 {
  import opened Common
  import opened CArith
  import opened Gpio

  /** `struct a4988`: the BCM numbers of one chip's five pins. */
  datatype Driver = Driver(sleep: nat, direction: nat, step: nat, ms1: nat, ms2: nat)

  function PinsOf(d: Driver): set<nat> {
    {d.sleep, d.direction, d.step, d.ms1, d.ms2}
  }

  /** The five roles are wired to five different pins. */
  predicate Distinct(d: Driver) {
    |PinsOf(d)| == 5
  }

  lemma DistinctPins(d: Driver)
    ensures Distinct(d) ==>
      && d.sleep != d.direction && d.sleep != d.step && d.sleep != d.ms1 && d.sleep != d.ms2
      && d.direction != d.step && d.direction != d.ms1 && d.direction != d.ms2
      && d.step != d.ms1 && d.step != d.ms2 && d.ms1 != d.ms2
  {
  }

  // ---------------------------------------------------------------------------
  // enum a4988_res and enum a4988_dir
  // ---------------------------------------------------------------------------

  /** The resolutions the driver can select; the chip's sixteenth step needs MS3, which is not wired. */
  datatype Resolution = Full | Half | Quarter | Eighth

  datatype Dir = CW | CCW

  /** The C enumerator value of a resolution. */
  function ResolutionCode(r: Resolution): int {
    match r
    case Full => 0
    case Half => 1
    case Quarter => 2
    case Eighth => 3
  }

  /** Reads a C `enum a4988_res` value; any integer can reach the driver, only 0..3 name a resolution. */
  function ResolutionFromCode(c: int): (r: Option<Resolution>)
    ensures r.Some? <==> 0 <= c <= 3
    ensures r.Some? ==> ResolutionCode(r.value) == c
  {
    if c == 0 then Some(Full)
    else if c == 1 then Some(Half)
    else if c == 2 then Some(Quarter)
    else if c == 3 then Some(Eighth)
    else None
  }

  function DirCode(d: Dir): int {
    match d
    case CW => 0
    case CCW => 1
  }

  function DirFromCode(c: int): (r: Option<Dir>)
    ensures r.Some? <==> 0 <= c <= 1
    ensures r.Some? ==> DirCode(r.value) == c
  {
    if c == 0 then Some(CW) else if c == 1 then Some(CCW) else None
  }

  lemma CodesRoundTrip(r: Resolution, d: Dir)
    ensures ResolutionFromCode(ResolutionCode(r)) == Some(r)
    ensures DirFromCode(DirCode(d)) == Some(d)
  {
  }

  /** `a4988_res_names`: each resolution has its own name, every other value is "BAD RESOLUTION". */
  function ResolutionName(c: int): (s: string)
    ensures s == "BAD RESOLUTION" <==> ResolutionFromCode(c).None?
  {
    if c == 0 then "A4988_RES_FULL"
    else if c == 1 then "A4988_RES_HALF"
    else if c == 2 then "A4988_RES_QUARTER"
    else if c == 3 then "A4988_RES_EIGHTH"
    else "BAD RESOLUTION"
  }

  /** `a4988_dir_names`: CW and CCW have their own names, every other value is "BAD DIRECTION". */
  function DirName(c: int): (s: string)
    ensures s == "BAD DIRECTION" <==> DirFromCode(c).None?
  {
    if c == 0 then "A4988_DIR_CW"
    else if c == 1 then "A4988_DIR_CCW"
    else "BAD DIRECTION"
  }

  /** Distinct enumerators have distinct names, and none of them is a "BAD" name. */
  lemma NamesDistinct(c: int, c': int)
    requires c != c'
    ensures 0 <= c <= 3 && 0 <= c' <= 3 ==> ResolutionName(c) != ResolutionName(c')
    ensures 0 <= c <= 1 && 0 <= c' <= 1 ==> DirName(c) != DirName(c')
  {
  }

  // ---------------------------------------------------------------------------
  // The microstep-select table
  // ---------------------------------------------------------------------------

  /** The chip's step modes, as its datasheet names them. */
  datatype Stepping = FullStep | HalfStep | QuarterStep | EighthStep | SixteenthStep

  /** The datasheet table reproduced in the header comment of `struct a4988`: (MS1, MS2, MS3) to step mode. */
  function DatasheetStepping(ms1: Level, ms2: Level, ms3: Level): Option<Stepping> {
    if (ms1, ms2, ms3) == (0, 0, 0) then Some(FullStep)
    else if (ms1, ms2, ms3) == (1, 0, 0) then Some(HalfStep)
    else if (ms1, ms2, ms3) == (0, 1, 0) then Some(QuarterStep)
    else if (ms1, ms2, ms3) == (1, 1, 0) then Some(EighthStep)
    else if (ms1, ms2, ms3) == (1, 1, 1) then Some(SixteenthStep)
    else None
  }

  function SteppingOf(r: Resolution): Stepping {
    match r
    case Full => FullStep
    case Half => HalfStep
    case Quarter => QuarterStep
    case Eighth => EighthStep
  }

  /** The MS1/MS2 levels `a4988_enable` drives for a resolution. */
  function MsLevels(r: Resolution): (Level, Level) {
    match r
    case Full => (0, 0)
    case Half => (1, 0)
    case Quarter => (0, 1)
    case Eighth => (1, 1)
  }

  /**
   * With MS3 held low, the levels `a4988_enable` writes select exactly the
   * requested step mode in the datasheet table, so no resolution reaches the
   * sixteenth step and distinct resolutions get distinct levels.
   */
  lemma MsLevelsFollowDatasheet(r: Resolution, r': Resolution)
    ensures DatasheetStepping(MsLevels(r).0, MsLevels(r).1, 0) == Some(SteppingOf(r))
    ensures SteppingOf(r) != SixteenthStep
    ensures r != r' ==> MsLevels(r) != MsLevels(r')
  {
  }

  /** The direction-pin level for a direction: clockwise is low, counter-clockwise high. */
  function DirLevel(d: Dir): Level {
    match d
    case CW => 0
    case CCW => 1
  }

  /** Current flows in the motor coils exactly while the sleep line is high. */
  predicate Energised(g: Pins, d: Driver) {
    At(g, d.sleep).level == 1
  }

  /** The pins a call may touch are the driver's own: every other pin is as before. */
  ghost predicate OthersUnchanged(g: Pins, g': Pins, d: Driver) {
    forall q: nat :: q !in PinsOf(d) ==> At(g', q) == At(g, q)
  }

  /** No call changes the mode of a pin, only its level. */
  ghost predicate ModesUnchanged(g: Pins, g': Pins) {
    forall q: nat :: At(g', q).mode == At(g, q).mode
  }

  /** A GPIO-touching call's result: the pins afterwards and the C return code. */
  datatype Effect = Effect(gpio: Pins, rc: int)

  function AllOk(ok: seq<bool>): bool {
    forall i :: 0 <= i < |ok| ==> ok[i]
  }

  // ---------------------------------------------------------------------------
  // a4988_initialize / a4988_finalize
  // ---------------------------------------------------------------------------

  /**
   * `a4988_initialize`: sleep to output and low, then direction, step, MS1 and
   * MS2 to output. All six calls are made whatever the earlier ones returned;
   * the result is -1 if any failed.
   */
  function Initialize(d: Driver, g: Pins, ok: seq<bool>): (r: Effect)
    requires |ok| == 6
    ensures r.rc == (if AllOk(ok) then 0 else -1)
    ensures OthersUnchanged(g, r.gpio, d)
    ensures Distinct(d) && AllOk(ok) ==>
      && !Energised(r.gpio, d)
      && forall p :: p in PinsOf(d) ==> At(r.gpio, p).mode == Output
    ensures Distinct(d) ==> forall p :: p in PinsOf(d) && p != d.sleep ==> At(r.gpio, p).level == At(g, p).level
  {
    var g1 := SetMode(g, d.sleep, Output, ok[0]);
    var g2 := Write(g1, d.sleep, 0, ok[1]);
    var g3 := SetMode(g2, d.direction, Output, ok[2]);
    var g4 := SetMode(g3, d.step, Output, ok[3]);
    var g5 := SetMode(g4, d.ms1, Output, ok[4]);
    var g6 := SetMode(g5, d.ms2, Output, ok[5]);
    DistinctPins(d);
    Effect(g6, if ok[0] && ok[1] && ok[2] && ok[3] && ok[4] && ok[5] then 0 else -1)
  }

  /** `a4988_finalize`: all five pins back to input; it reports nothing. */
  function Finalize(d: Driver, g: Pins, ok: seq<bool>): (g': Pins)
    requires |ok| == 5
    ensures OthersUnchanged(g, g', d)
    ensures forall q: nat :: At(g', q).level == At(g, q).level
    ensures Distinct(d) && AllOk(ok) ==> forall p :: p in PinsOf(d) ==> At(g', p).mode == Input
  {
    var g1 := SetMode(g, d.sleep, Input, ok[0]);
    var g2 := SetMode(g1, d.direction, Input, ok[1]);
    var g3 := SetMode(g2, d.step, Input, ok[2]);
    var g4 := SetMode(g3, d.ms1, Input, ok[3]);
    DistinctPins(d);
    SetMode(g4, d.ms2, Input, ok[4])
  }

  // ---------------------------------------------------------------------------
  // a4988_enable / a4988_disable
  // ---------------------------------------------------------------------------

  /** The settle time `a4988_enable` waits after waking the chip, in ns. */
  const SETTLE_NS: nat := 1_500_000

  datatype EnableEffect = EnableEffect(gpio: Pins, rc: int, settleNs: nat)

  /**
   * `a4988_enable`: MS1/MS2 per the resolution, the direction line, then sleep
   * high, then a settle wait. An invalid resolution fails before any write; an
   * invalid direction fails after MS1/MS2 were written; a failed write fails
   * without the wait. `ok` holds the outcomes of the MS1, MS2, direction and
   * sleep writes.
   */
  function Enable(d: Driver, g: Pins, res: int, dir: int, ok: seq<bool>): (r: EnableEffect)
    requires |ok| == 4
    ensures ResolutionFromCode(res).None? ==> r == EnableEffect(g, -1, 0)
    ensures r.rc == (if ResolutionFromCode(res).Some? && DirFromCode(dir).Some? && AllOk(ok) then 0 else -1)
    ensures r.settleNs == (if r.rc == 0 then SETTLE_NS else 0)
    ensures OthersUnchanged(g, r.gpio, d) && ModesUnchanged(g, r.gpio)
    ensures Distinct(d) && ResolutionFromCode(res).Some? && DirFromCode(dir).None? ==>
      && At(r.gpio, d.sleep) == At(g, d.sleep)
      && At(r.gpio, d.direction) == At(g, d.direction)
      && (ok[0] ==> At(r.gpio, d.ms1).level == MsLevels(ResolutionFromCode(res).value).0)
      && (ok[1] ==> At(r.gpio, d.ms2).level == MsLevels(ResolutionFromCode(res).value).1)
    ensures Distinct(d) && r.rc == 0 ==>
      && Energised(r.gpio, d)
      && DatasheetStepping(At(r.gpio, d.ms1).level, At(r.gpio, d.ms2).level, 0)
         == Some(SteppingOf(ResolutionFromCode(res).value))
      && At(r.gpio, d.direction).level == DirLevel(DirFromCode(dir).value)
    ensures Distinct(d) && ok[3] && r.rc != 0 && ResolutionFromCode(res).Some? && DirFromCode(dir).Some? ==>
      Energised(r.gpio, d)
  {
    match ResolutionFromCode(res)
    case None => EnableEffect(g, -1, 0)
    case Some(resolution) =>
      DistinctPins(d);
      MsLevelsFollowDatasheet(resolution, resolution);
      var g2 := WriteMs(d, g, resolution, ok[0], ok[1]);
      match DirFromCode(dir)
      case None => EnableEffect(g2, -1, 0)
      case Some(direction) =>
        var g4 := WriteDirSleep(d, g2, direction, ok[2], ok[3]);
        if ok[0] && ok[1] && ok[2] && ok[3] then EnableEffect(g4, 0, SETTLE_NS)
        else EnableEffect(g4, -1, 0)
  }

  /** The first two writes of `a4988_enable`: MS1 then MS2. */
  function WriteMs(d: Driver, g: Pins, res: Resolution, ok1: bool, ok2: bool): (g': Pins)
    ensures forall q: nat :: q != d.ms1 && q != d.ms2 ==> At(g', q) == At(g, q)
    ensures ModesUnchanged(g, g')
    ensures d.ms1 != d.ms2 ==> At(g', d.ms1).level == (if ok1 then MsLevels(res).0 else At(g, d.ms1).level)
    ensures At(g', d.ms2).level == (if ok2 then MsLevels(res).1 else At(Write(g, d.ms1, MsLevels(res).0, ok1), d.ms2).level)
  {
    Write(Write(g, d.ms1, MsLevels(res).0, ok1), d.ms2, MsLevels(res).1, ok2)
  }

  /** The last two writes of `a4988_enable`: the direction line, then sleep high. */
  function WriteDirSleep(d: Driver, g: Pins, dir: Dir, ok1: bool, ok2: bool): (g': Pins)
    ensures forall q: nat :: q != d.direction && q != d.sleep ==> At(g', q) == At(g, q)
    ensures ModesUnchanged(g, g')
    ensures d.direction != d.sleep ==> At(g', d.direction).level == (if ok1 then DirLevel(dir) else At(g, d.direction).level)
    ensures At(g', d.sleep).level == (if ok2 then 1 else At(Write(g, d.direction, DirLevel(dir), ok1), d.sleep).level)
  {
    Write(Write(g, d.direction, DirLevel(dir), ok1), d.sleep, 1, ok2)
  }

  /** `a4988_disable`: drives sleep low and nothing else; -1 exactly when that write failed. */
  function Disable(d: Driver, g: Pins, ok: bool): (r: Effect)
    ensures r.rc == (if ok then 0 else -1)
    ensures ok ==> !Energised(r.gpio, d)
    ensures !ok ==> r.gpio == g
    ensures forall q: nat :: q != d.sleep ==> At(r.gpio, q) == At(g, q)
    ensures ModesUnchanged(g, r.gpio)
  {
    Effect(Write(g, d.sleep, 0, ok), if ok then 0 else -1)
  }

  /** Disabling an already disabled chip is harmless: it leaves the pins exactly as one disable did. */
  lemma DisableIdempotent(d: Driver, g: Pins)
    ensures Disable(d, Disable(d, g, true).gpio, true) == Disable(d, g, true)
  {
    var g1 := Disable(d, g, true).gpio;
    assert d.sleep in g1;
    assert g1[d.sleep := Pin(At(g1, d.sleep).mode, 0)] == g1;
  }

  /**
   * After a successful enable current flows; after a successful disable it
   * does not, and the microstep and direction settings stay where enable put them.
   */
  lemma EnableThenDisable(d: Driver, g: Pins, res: Resolution, dir: Dir)
    requires Distinct(d)
    ensures var e := Enable(d, g, ResolutionCode(res), DirCode(dir), [true, true, true, true]);
            var off := Disable(d, e.gpio, true);
            && e.rc == 0 && Energised(e.gpio, d)
            && off.rc == 0 && !Energised(off.gpio, d)
            && At(off.gpio, d.ms1).level == MsLevels(res).0
            && At(off.gpio, d.ms2).level == MsLevels(res).1
            && At(off.gpio, d.direction).level == DirLevel(dir)
  {
    DistinctPins(d);
    var e := Enable(d, g, ResolutionCode(res), DirCode(dir), [true, true, true, true]);
    assert AllOk([true, true, true, true]);
    CodesRoundTrip(res, dir);
    assert At(e.gpio, d.ms1).level == MsLevels(res).0;
    assert At(e.gpio, d.ms2).level == MsLevels(res).1;
  }

  // ---------------------------------------------------------------------------
  // subtract_timespec
  // ---------------------------------------------------------------------------

  datatype Timespec = Timespec(sec: int, nsec: int)

  function TotalNs(t: Timespec): int {
    t.sec * NS_PER_SEC + t.nsec
  }

  /** POSIX form: the nanosecond field is in [0, 1e9). */
  predicate Normalised(t: Timespec) {
    0 <= t.nsec < NS_PER_SEC
  }

  /** `subtract_timespec(start, end)`: `end - start`, borrowing one second when the nanoseconds go negative. */
  function SubtractTimespec(start: Timespec, end: Timespec): (r: Timespec)
    ensures TotalNs(r) == TotalNs(end) - TotalNs(start)
    ensures Normalised(start) && Normalised(end) ==> Normalised(r)
  {
    if end.nsec - start.nsec < 0 then
      Timespec(end.sec - start.sec - 1, NS_PER_SEC + end.nsec - start.nsec)
    else
      Timespec(end.sec - start.sec, end.nsec - start.nsec)
  }

  /** Timespec addition with a carry, the inverse the subtraction is meant to have. */
  function AddTimespec(a: Timespec, b: Timespec): (r: Timespec)
    ensures TotalNs(r) == TotalNs(a) + TotalNs(b)
  {
    if a.nsec + b.nsec >= NS_PER_SEC then
      Timespec(a.sec + b.sec + 1, a.nsec + b.nsec - NS_PER_SEC)
    else
      Timespec(a.sec + b.sec, a.nsec + b.nsec)
  }

  /** For normalised times, adding the difference back to `start` gives `end` exactly, field by field. */
  lemma SubtractTimespecRoundTrip(start: Timespec, end: Timespec)
    requires Normalised(start) && Normalised(end)
    ensures AddTimespec(start, SubtractTimespec(start, end)) == end
    ensures (SubtractTimespec(start, end).sec >= 0) == (TotalNs(start) <= TotalNs(end))
  {
    var r := SubtractTimespec(start, end);
    if r.sec >= 0 {
      assert r.sec * NS_PER_SEC >= 0;
    } else {
      assert r.sec * NS_PER_SEC <= -NS_PER_SEC;
    }
  }

  // ---------------------------------------------------------------------------
  // a4988_step
  // ---------------------------------------------------------------------------

  /** The shortest pulse the GPIO layer produces reliably, in ns. */
  const STEP_MIN_NS: nat := 100_000
  /** The least spacing between pulses before the motor rattles, in ns. */
  const STEP_SPACING_NS: nat := 2_000_000

  /**
   * The two function-local statics of `a4988_step`: whether it has ever been
   * called, and when its last pulse ended. They belong to the function, not to
   * a driver, so both axes share them.
   */
  datatype StepMemory = StepMemory(firstCall: bool, last: Timespec)

  const InitialStepMemory: StepMemory := StepMemory(true, Timespec(0, 0))

  /** What one pulse did: pins, return code, the spacing wait, the pulse length (ns), and the statics afterwards. */
  datatype StepEffect = StepEffect(gpio: Pins, rc: int, spacingNs: nat, pulseNs: nat, memory: StepMemory)

  /** The spacing test of `a4988_step`: the difference has no whole seconds and under 2 ms of nanoseconds. */
  predicate TooSoon(last: Timespec, now: Timespec) {
    var diff := SubtractTimespec(last, now);
    diff.sec == 0 && diff.nsec < STEP_SPACING_NS
  }

  /** For normalised times with `last` not after `now`, the field test is the plain "under 2 ms ago". */
  lemma SpacingWindow(last: Timespec, now: Timespec)
    ensures Normalised(last) && Normalised(now) && TotalNs(last) <= TotalNs(now) ==>
      (TooSoon(last, now) <==> TotalNs(now) - TotalNs(last) < STEP_SPACING_NS)
  {
    if Normalised(last) && Normalised(now) && TotalNs(last) <= TotalNs(now) {
      SubtractTimespecRoundTrip(last, now);
      var diff := SubtractTimespec(last, now);
      if diff.sec >= 1 {
        assert TotalNs(diff) >= NS_PER_SEC;
      }
    }
  }

  function Max(a: int, b: int): int {
    if a < b then b else a
  }

  /**
   * `a4988_step(driver, width)`. `now` is the clock read before the spacing
   * check, `done` the clock read after the pulse. Unless this is the first
   * call, a pulse ending less than 2 ms before `now` (in the same second of
   * difference) costs a full 2 ms wait, not the remainder. The pulse is
   * `width` microseconds, computed in 32-bit unsigned arithmetic, with a 100 us
   * floor; a product of a whole second or more is refused by `nanosleep`
   * (EINVAL), which then waits nothing, so the pulse is only as long as the
   * writes. Both writes to the step line are made; -1 if either failed.
   */
  function Step(d: Driver, g: Pins, mem: StepMemory, width: int, now: Timespec, done: Timespec,
                okHigh: bool, okLow: bool): (r: StepEffect)
    requires InUInt(width)
    ensures UIntMul(width, 1000) < NS_PER_SEC <==> r.pulseNs >= STEP_MIN_NS
    ensures width * 1000 < NS_PER_SEC ==> r.pulseNs == Max(width, 100) * 1000
    ensures UIntMul(width, 1000) >= NS_PER_SEC ==> r.pulseNs == 0
    ensures r.spacingNs == 0 || r.spacingNs == STEP_SPACING_NS
    ensures mem.firstCall ==> r.spacingNs == 0
    ensures Normalised(mem.last) && Normalised(now) && TotalNs(mem.last) <= TotalNs(now) ==>
      (r.spacingNs == STEP_SPACING_NS <==> !mem.firstCall && TotalNs(now) - TotalNs(mem.last) < STEP_SPACING_NS)
    ensures r.memory == StepMemory(false, done)
    ensures r.rc == (if okHigh && okLow then 0 else -1)
    ensures At(r.gpio, d.step).level == (if okLow then 0 else if okHigh then 1 else At(g, d.step).level)
    ensures forall q: nat :: q != d.step ==> At(r.gpio, q) == At(g, q)
    ensures ModesUnchanged(g, r.gpio)
  {
    var spacing := if mem.firstCall || !TooSoon(mem.last, now) then 0 else STEP_SPACING_NS;
    SpacingWindow(mem.last, now);
    var requested := UIntMul(width, 1000);
    var pulse := if requested >= NS_PER_SEC then 0 else if requested < STEP_MIN_NS then STEP_MIN_NS else requested;
    var g1 := Write(g, d.step, 1, okHigh);
    var g2 := Write(g1, d.step, 0, okLow);
    StepEffect(g2, if okHigh && okLow then 0 else -1, spacing, pulse, StepMemory(false, done))
  }

  /**
   * The largest width that still pulses is 999 999 us; from one second on the
   * requested wait is refused and the pulse collapses to the two writes.
   */
  lemma PulseLimit(d: Driver, g: Pins, mem: StepMemory, now: Timespec, done: Timespec)
    ensures Step(d, g, mem, 999_999, now, done, true, true).pulseNs == 999_999_000
    ensures Step(d, g, mem, 1_000_000, now, done, true, true).pulseNs == 0
    ensures Step(d, g, mem, 100, now, done, true, true).pulseNs == STEP_MIN_NS
  {
    assert UIntMul(1_000_000, 1000) == 1_000_000_000;
  }
}

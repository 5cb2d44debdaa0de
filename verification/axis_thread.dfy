/**
 * One axis as the registry keeps it: the per-axis record (`struct
 * stepper_parameters` without its mutex) and the life of its step thread.
 * The thread is modelled by the transitions that change what the rest of
 * the program can see: its set-up (everything before the step loop), one
 * pass of the loop-top check, and its death by cancellation or at the end
 * of a finite run, each run by the cleanup handler or not.
 */
module AxisThread {
  import opened Common
  import opened CArith
  import opened Gpio
  import opened A4988
  import opened StepperTypes
  import opened Rate
  import opened StepTiming

  /** `struct stepper_parameters`: the axis state, the request, and the driver settings derived from it. */
  datatype Params = Params(
    state: State,
    direction: Direction,
    rate: real,
    duration: int,    // ms; 0 runs until stopped
    remaining: int,   // ms
    driver: Driver,
    resolution: Resolution,
    a4988Dir: Dir,
    width: int,       // µs
    delay: int)       // µs

  /** A record cleared to all-zero bytes: OFF, POSITIVE, rate 0, FULL, CW, every pin 0. */
  const ZeroParams: Params := Params(Off, Positive, 0.0, 0, 0, Driver(0, 0, 0, 0, 0), Full, CW, 0, 0)

  /**
   * The axis thread as seen from outside. `Spawned`: created, its set-up not
   * yet run. `Looping`: in the step loop, with the deadline of a finite run.
   * `Exited`: finished but not yet joined. `NoThread`: never created, or
   * joined (its handle is stale).
   */
  datatype Thread = NoThread | Spawned | Looping(stop: Option<int>) | Exited

  predicate Live(t: Thread) {
    t.Spawned? || t.Looping?
  }

  /** The axis record together with its thread. */
  datatype Slot = Slot(params: Params, thread: Thread)

  /** A transition's result: the slot and the board's pins. */
  datatype Step = Step(slot: Slot, gpio: Pins)

  /**
   * What the set-up depends on: the outcomes of the calls that can fail
   * (cancel-state disable, scheduling priority, the four writes of the
   * driver enable, cancel type, cancel-state enable), the real-time clock
   * when it is read, and the outcome of the cleanup handler's disable.
   */
  datatype SetupInputs = SetupInputs(
    cancelDisableOk: bool,
    schedOk: bool,
    enableOk: seq<bool>,
    cancelTypeOk: bool,
    cancelEnableOk: bool,
    now: int,
    disableOk: bool)

  predicate WellFormed(io: SetupInputs) {
    |io.enableOk| == 4
  }

  /** `stepper_cleanup`: disables the driver, then OFF with nothing remaining. */
  function Cleanup(p: Params, g: Pins, disableOk: bool): (r: (Params, Pins))
    ensures r.0.state == Off && r.0.remaining == 0
    ensures r.0 == p.(state := Off, remaining := 0)
    ensures disableOk ==> !Energised(r.1, p.driver)
    ensures forall q: nat :: q != p.driver.sleep ==> At(r.1, q) == At(g, q)
  {
    (p.(state := Off, remaining := 0), Disable(p.driver, g, disableOk).gpio)
  }

  /** Where the set-up of a thread ends. */
  datatype SetupEnd =
    | EarlyExit     // pthread_exit before the cleanup handler is pushed: no cleanup
    | CleanedUp     // pthread_exit after it is pushed: the handler runs
    | Loop          // the step loop is entered

  /** Where the set-up ends, as a function of the calls' outcomes and the timing arithmetic. */
  function SetupEndOf(p: Params, io: SetupInputs): (e: SetupEnd)
    requires WellFormed(io)
    ensures var early := !io.cancelDisableOk || !io.schedOk || !AllOk(io.enableOk)
                         || Period(p.width, p.delay).None? || InitialSleep(p.delay).None?;
            && (e == EarlyExit <==> early)
            && (e == Loop <==> !early && io.cancelTypeOk && io.cancelEnableOk)
  {
    CodesRoundTrip(p.resolution, p.a4988Dir);
    if !io.cancelDisableOk || !io.schedOk then EarlyExit
    else if !(ResolutionFromCode(ResolutionCode(p.resolution)).Some? && AllOk(io.enableOk)) then EarlyExit
    else if Period(p.width, p.delay).None? || InitialSleep(p.delay).None? then EarlyExit
    else if !io.cancelTypeOk || !io.cancelEnableOk then CleanedUp
    else Loop
  }

  /**
   * The thread function up to its main loop: cancellation off, priority,
   * driver enable, the overflow-checked period and sleep, the deadline of a
   * finite run (or `remaining` cleared for an endless one), then the cleanup
   * handler is pushed and cancellation turned on.
   */
  function Setup(p: Params, g: Pins, io: SetupInputs): (r: Step)
    requires WellFormed(io)
    ensures SetupEndOf(p, io) == EarlyExit ==>
              r.slot == Slot(p, Exited) && forall q: nat :: q !in PinsOf(p.driver) ==> At(r.gpio, q) == At(g, q)
    ensures SetupEndOf(p, io) == CleanedUp ==>
              r.slot.thread == Exited && r.slot.params.state == Off && r.slot.params.remaining == 0
    ensures SetupEndOf(p, io) == Loop ==>
              && r.slot.thread == Looping(if RunsForever(p.duration) then None else Some(io.now + FromMs(p.duration)))
              && r.slot.params == (if RunsForever(p.duration) then p.(remaining := 0) else p)
              && (Distinct(p.driver) ==> Energised(r.gpio, p.driver))
    ensures r.slot.params.driver == p.driver
    ensures OthersUnchanged(g, r.gpio, p.driver)
  {
    if !io.cancelDisableOk || !io.schedOk then Step(Slot(p, Exited), g)
    else
      var e := Enable(p.driver, g, ResolutionCode(p.resolution), DirCode(p.a4988Dir), io.enableOk);
      CodesRoundTrip(p.resolution, p.a4988Dir);
      if e.rc != 0 then Step(Slot(p, Exited), e.gpio)
      else if Period(p.width, p.delay).None? || InitialSleep(p.delay).None? then Step(Slot(p, Exited), e.gpio)
      else
        var stop := if RunsForever(p.duration) then None else Some(io.now + FromMs(p.duration));
        var p1 := if RunsForever(p.duration) then p.(remaining := 0) else p;
        if !io.cancelTypeOk || !io.cancelEnableOk then
          var c := Cleanup(p1, e.gpio, io.disableOk);
          Step(Slot(c.0, Exited), c.1)
        else Step(Slot(p1, Looping(stop)), e.gpio)
  }

  /**
   * The exits taken after the driver is enabled but before the cleanup
   * handler is pushed (the two overflow checks) leave the axis ON and the
   * coils energised, with the thread gone.
   */
  lemma OverflowExitLeavesCoilsOn(p: Params, g: Pins, io: SetupInputs)
    requires WellFormed(io) && Distinct(p.driver)
    requires io.cancelDisableOk && io.schedOk && AllOk(io.enableOk)
    requires Period(p.width, p.delay).None? || InitialSleep(p.delay).None?
    ensures var r := Setup(p, g, io);
            && SetupEndOf(p, io) == EarlyExit
            && r.slot == Slot(p, Exited)
            && Energised(r.gpio, p.driver)
  {
    CodesRoundTrip(p.resolution, p.a4988Dir);
  }

  /**
   * The parameters a successful start stores for a rate of at least 0.1
   * in magnitude never overflow the period or sleep computation, so that
   * early exit cannot be taken for them.
   */
  lemma NoOverflowForAcceptedRates(a: Axis, rate: real)
    requires 0.1 <= AbsR(rate) <= MAX_RATE
    ensures var c := UpdateFromRate(a, rate);
            && Period(c.width, c.setting.value.delay).Some?
            && InitialSleep(c.setting.value.delay).Some?
  {
    AcceptedDelayBounded(a, rate);
  }

  /**
   * The 64-bit `long` is what makes the period fit: the slowest accepted DEC
   * rate stores a delay of 3.55 s, whose period in ns exceeds a 32-bit
   * `long`, so with one the overflow exit would be taken.
   */
  lemma SlowestDecPeriodNeeds64Bits()
    ensures UpdateFromRate(DEC, 0.1).setting.value.delay == 3_550_000
    ensures (PULSE_WIDTH_US + 3_550_000) * 1000 > 0x7FFF_FFFF
    ensures Period(PULSE_WIDTH_US, 3_550_000).Some?
  {
    assert Numerator(DEC, Eighth) == 355_000;
    assert 355_000 as real / 0.1 == 3_550_000.0;
  }

  /** The delay stored for a rate of at least 0.1 in magnitude is within 3.55 s either way. */
  lemma AcceptedDelayBounded(a: Axis, rate: real)
    requires 0.1 <= AbsR(rate) <= MAX_RATE
    ensures -3_550_000 <= UpdateFromRate(a, rate).setting.value.delay <= 3_550_000
  {
    if rate > 0.0 {
      PositiveDelayBounds(a, rate);
    } else {
      PositiveDelayBounds(a, -rate);
      NegatedRate(a, -rate);
    }
  }

  /**
   * Negative rates store a negative delay, so the thread's first sleep is
   * negative: `nanosleep` refuses it and the loop runs with no sleep at all.
   */
  lemma NegativeRateSleepsNegative(a: Axis, rate: real)
    requires -MAX_RATE <= rate <= -0.1
    ensures InitialSleep(UpdateFromRate(a, rate).setting.value.delay).Some?
    ensures InitialSleep(UpdateFromRate(a, rate).setting.value.delay).value < 0
  {
    var d := UpdateFromRate(a, rate).setting.value.delay;
    NegativeRateNegativeDelay(a, rate);
    AcceptedDelayBounded(a, rate);
    NegativeSleep(d);
  }

  lemma NegativeSleep(d: int)
    requires -3_550_000 <= d < 0
    ensures InitialSleep(d).Some? && InitialSleep(d).value < 0
  {
    assert -3_550_000_000 <= d * 1000 < 0;
  }

  /**
   * One pass of the loop-top check. A finite run past its deadline leaves
   * the loop and the handler runs; otherwise `remaining` is refreshed. Only a
   * looping thread does anything.
   */
  function Tick(s: Slot, g: Pins, now: int, disableOk: bool): (r: Step)
    ensures !s.thread.Looping? || s.thread.stop.None? ==> r == Step(s, g)
    ensures s.thread.Looping? && s.thread.stop.Some? ==>
              if now > s.thread.stop.value then
                r.slot.thread == Exited && r.slot.params == s.params.(state := Off, remaining := 0)
              else
                r.gpio == g && r.slot.thread == s.thread
                && r.slot.params == s.params.(remaining := Remaining(now, s.thread.stop.value).value)
  {
    if s.thread.Looping? && s.thread.stop.Some? then
      match Remaining(now, s.thread.stop.value)
      case None =>
        var c := Cleanup(s.params, g, disableOk);
        Step(Slot(c.0, Exited), c.1)
      case Some(ms) => Step(Slot(s.params.(remaining := ms), s.thread), g)
    else Step(s, g)
  }

  /** Where a looping thread is when its cancellation takes effect. */
  datatype CancelPoint =
    | BetweenPulses   // the loop-top test or the sleep between pulses
    | MidPulse        // the pulse-width sleep inside the driver's step, with the step line high

  /**
   * `pthread_cancel` then `pthread_join` on the axis thread, as `stepper_stop`
   * does. A thread not yet set up completes its set-up first (cancellation is
   * off until its end) and then dies at the loop top; a looping thread dies at
   * `point`. Either way the handler runs if it was pushed. An exited thread is
   * reaped; a stale handle is refused and nothing happens.
   */
  function Cancel(s: Slot, g: Pins, point: CancelPoint, io: SetupInputs): (r: Step)
    requires WellFormed(io)
    ensures r.slot.thread == NoThread
    ensures !Live(s.thread) ==> r.slot.params == s.params && r.gpio == g
    ensures s.thread.Looping? ==> r.slot.params == s.params.(state := Off, remaining := 0)
    ensures s.thread.Looping? && io.disableOk ==> !Energised(r.gpio, s.params.driver)
    ensures s.thread.Spawned? && SetupEndOf(s.params, io) != EarlyExit ==>
              r.slot.params.state == Off && r.slot.params.remaining == 0
    ensures s.thread.Spawned? && SetupEndOf(s.params, io) == EarlyExit ==> r.slot.params == s.params
    ensures r.slot.params.driver == s.params.driver
    ensures OthersUnchanged(g, r.gpio, s.params.driver)
  {
    match s.thread
    case NoThread => Step(s, g)
    case Exited => Step(Slot(s.params, NoThread), g)
    case Spawned =>
      var su := Setup(s.params, g, io);
      if su.slot.thread.Looping? then
        var c := Cleanup(su.slot.params, su.gpio, io.disableOk);
        Step(Slot(c.0, NoThread), c.1)
      else Step(Slot(su.slot.params, NoThread), su.gpio)
    case Looping(_) =>
      var g1 := if point == MidPulse then Write(g, s.params.driver.step, 1, true) else g;
      var c := Cleanup(s.params, g1, io.disableOk);
      Step(Slot(c.0, NoThread), c.1)
  }

  /**
   * Cancelling a thread in the middle of a pulse leaves the step line high
   * while the handler puts the chip to sleep.
   */
  lemma CancelMidPulseLeavesStepHigh(s: Slot, g: Pins, io: SetupInputs)
    requires WellFormed(io) && s.thread.Looping? && Distinct(s.params.driver)
    ensures var r := Cancel(s, g, MidPulse, io);
            At(r.gpio, s.params.driver.step).level == 1
  {
    DistinctPins(s.params.driver);
  }
}

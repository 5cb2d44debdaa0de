/**
 * The public axis API (`stepper_initialize`, `stepper_finalize`,
 * `stepper_start`, `stepper_stop`, `stepper_get_status`) as atomic
 * transitions of the process-wide registry, plus the axis threads' own
 * transitions. A call that takes the global lock after an earlier call
 * returned without releasing it never returns: the result is `Blocked`.
 */
module Registry {
  import opened Common
  import opened CArith
  import opened Gpio
  import opened A4988
  import opened StepperTypes
  import opened Rate
  import opened StepTiming
  import opened AxisThread

  /** `struct stepper` (the global registry) and the board's pins. `lockHeld`: the global lock was left taken. */
  datatype Registry = Registry(initialized: bool, lockHeld: bool, ra: Slot, dec: Slot, gpio: Pins)

  /**
   * The registry as the program starts: the static `global` is zeroed, so it
   * is not initialised, its lock is free, no axis has a thread, and each
   * record reads as OFF (the zero state) and zeroed; no pin has been touched.
   */
  function Boot(): (r: Registry)
    ensures !r.initialized && !r.lockHeld && r.gpio == map[]
    ensures forall a :: SlotOf(r, a) == Slot(ZeroParams, NoThread) && SlotOf(r, a).params.state == Off
  {
    Registry(false, false, Slot(ZeroParams, NoThread), Slot(ZeroParams, NoThread), map[])
  }

  function SlotOf(r: Registry, a: Axis): Slot {
    match a
    case RA => r.ra
    case DEC => r.dec
  }

  function WithSlot(r: Registry, a: Axis, s: Slot): (r': Registry)
    ensures SlotOf(r', a) == s
    ensures forall b :: b != a ==> SlotOf(r', b) == SlotOf(r, b)
    ensures r'.initialized == r.initialized && r'.lockHeld == r.lockHeld && r'.gpio == r.gpio
  {
    match a
    case RA => r.(ra := s)
    case DEC => r.(dec := s)
  }

  /** The wiring of the two drivers (`RA_PIN_*` and `DEC_PIN_*`): sleep, direction, step, MS1, MS2. */
  const RaDriver: Driver := Driver(13, 26, 19, 5, 6)
  const DecDriver: Driver := Driver(4, 27, 17, 2, 3)

  function DriverOf(a: Axis): (d: Driver)
    ensures Distinct(d)
  {
    match a
    case RA => RaDriver
    case DEC => DecDriver
  }

  /** Calls that only test for RA treat every other value as DEC. */
  function AxisOrDec(c: int): Axis {
    if c == 0 then RA else DEC
  }

  /** A call's result when it returns: the registry afterwards and the return code. */
  datatype Outcome = Outcome(reg: Registry, rc: int)

  /** What `stepper_stop` depends on: where a looping thread is cancelled and how a not-yet-set-up one would set up. */
  datatype StopInputs = StopInputs(point: CancelPoint, setup: SetupInputs)

  /**
   * `stepper_stop`: cancels and joins the axis thread under the global lock
   * and returns 0. It does not check the axis (anything but RA is DEC) and
   * does not touch the record itself: only the dying thread's cleanup does.
   */
  function Stop(r: Registry, axisCode: int, si: StopInputs): (res: Reply<Outcome>)
    requires WellFormed(si.setup)
    ensures res.Blocked? <==> r.lockHeld
    ensures res.Returned? ==> res.value.rc == 0
    ensures res.Returned? ==>
              var a, r' := AxisOrDec(axisCode), res.value.reg;
              && SlotOf(r', a).thread == NoThread
              && (forall b :: b != a ==> SlotOf(r', b) == SlotOf(r, b))
              && r'.initialized == r.initialized && !r'.lockHeld
              && (!Live(SlotOf(r, a).thread) ==> r' == WithSlot(r, a, Slot(SlotOf(r, a).params, NoThread)))
              && (SlotOf(r, a).thread.Looping? ==>
                    SlotOf(r', a).params == SlotOf(r, a).params.(state := Off, remaining := 0))
              && SlotOf(r', a).params.driver == SlotOf(r, a).params.driver
              && OthersUnchanged(r.gpio, r'.gpio, SlotOf(r, a).params.driver)
  {
    if r.lockHeld then Blocked
    else
      var a := AxisOrDec(axisCode);
      var k := Cancel(SlotOf(r, a), r.gpio, si.point, si.setup);
      Returned(Outcome(WithSlot(r, a, k.slot).(gpio := k.gpio), 0))
  }

  /**
   * What `stepper_start` depends on beyond its arguments: whether the axis
   * lock, `pthread_create` and `pthread_setname_np` succeed, whether a new
   * thread got to its first loop-top check before a cancel and the real
   * time it read there (ns), and what a stop (for a zero rate, or the
   * cancel after a naming failure) depends on.
   */
  datatype StartInputs = StartInputs(spLockOk: bool, createOk: bool, setnameOk: bool, threadAhead: bool, firstTick: int,
                                     stop: StopInputs)

  /** The least |rate| `stepper_start` accepts (`SAME_DOUBLE`). */
  const SAME_DOUBLE: real := 0.1

  /**
   * `stepper_start`. The axis, zero-rate and small-rate checks come before
   * the global lock; the state check and the axis lock come before any
   * write. The converter runs after rate, direction and duration are stored.
   * A thread that cannot be named is cancelled and joined while the axis
   * lock is held; a thread that needs that lock first never ends, and
   * neither does the call.
   */
  function Start(r: Registry, axisCode: int, rate: real, duration: int, si: StartInputs): (res: Reply<Outcome>)
    requires WellFormed(si.stop.setup)
    ensures AxisOf(axisCode).None? ==> res == Returned(Outcome(r, -1))
    ensures AxisOf(axisCode).Some? && rate == 0.0 ==> res == Stop(r, axisCode, si.stop)
    ensures AxisOf(axisCode).Some? && rate != 0.0 ==>
              var a := AxisOf(axisCode).value;
              ((res.Returned? && res.value.rc == 0) <==>
                 && SAME_DOUBLE <= AbsR(rate) && !r.lockHeld && SlotOf(r, a).params.state == Off
                 && si.spLockOk && UpdateFromRate(a, rate).setting.Some? && si.createOk && si.setnameOk)
    ensures AxisOf(axisCode).Some? && rate != 0.0 && res.Returned? && res.value.rc == 0 ==>
              var s' := SlotOf(res.value.reg, AxisOf(axisCode).value);
              s'.thread == Spawned && s'.params.state == On && s'.params.rate == rate
    ensures AxisOf(axisCode).Some? && rate != 0.0 ==>
              (res.Blocked? ==> r.lockHeld || (!si.setnameOk && si.createOk))
  {
    match AxisOf(axisCode)
    case None => Returned(Outcome(r, -1))
    case Some(a) =>
      if rate == 0.0 then Stop(r, axisCode, si.stop)
      else if AbsR(rate) < SAME_DOUBLE then Returned(Outcome(r, -1))
      else if r.lockHeld then Blocked
      else
        var s := SlotOf(r, a);
        if s.params.state != Off || !si.spLockOk then Returned(Outcome(r, -1))
        else
          var c := UpdateFromRate(a, rate);
          var p1 := Requested(s.params, rate, duration, c);
          match c.setting
          case None => Returned(Outcome(WithSlot(r, a, Slot(p1, s.thread)), -1))
          case Some(st) =>
            var p2 := Armed(s.params, a, rate, duration);
            if !si.createOk then Returned(Outcome(WithSlot(r, a, Slot(p2, s.thread)), -1))
            else if si.setnameOk then Returned(Outcome(WithSlot(r, a, Slot(p2, Spawned)), 0))
            else if NamingFailureDeadlocks(p2, si) then Blocked
            else
              var k := Cancel(Slot(p2, Spawned), r.gpio, si.stop.point, si.stop.setup);
              Returned(Outcome(WithSlot(r, a, k.slot).(gpio := k.gpio), -1))
  }

  /** The record after `stepper_start` stored the request and the converter's width and driver direction. */
  function Requested(p: Params, rate: real, duration: int, c: Conversion): (p': Params)
    ensures p'.rate == rate && p'.duration == duration && p'.width == c.width && p'.a4988Dir == c.direction
    ensures p'.direction == DirectionOfRate(rate)
    ensures p'.state == p.state && p'.remaining == p.remaining && p'.driver == p.driver
    ensures p'.resolution == p.resolution && p'.delay == p.delay
  {
    p.(rate := rate, direction := DirectionOfRate(rate), duration := duration, width := c.width, a4988Dir := c.direction)
  }

  /** The record a start hands to its new thread: the request, the converter's settings, ON, the whole duration remaining. */
  function Armed(p: Params, a: Axis, rate: real, duration: int): Params
    requires rate != 0.0 && UpdateFromRate(a, rate).setting.Some?
  {
    var c := UpdateFromRate(a, rate);
    Requested(p, rate, duration, c).(resolution := c.setting.value.resolution, delay := c.setting.value.delay,
                                     state := On, remaining := duration)
  }

  /**
   * After a naming failure the caller holds the axis lock and joins the new
   * thread. The join never returns when the thread's set-up gets past the
   * overflow checks and then needs that lock: at once for an endless run
   * (to clear `remaining`, with cancellation still off), or, for a finite
   * run, when the thread reached its first loop-top check before the cancel
   * and its deadline had not yet passed there, so that it goes on to update
   * `remaining`. A finite run whose deadline has passed breaks out of its
   * loop instead and the join returns.
   */
  predicate NamingFailureDeadlocks(p: Params, si: StartInputs)
    requires WellFormed(si.stop.setup)
  {
    var end := SetupEndOf(p, si.stop.setup);
    && end != EarlyExit
    && (|| RunsForever(p.duration)
        || (si.threadAhead && end == Loop && si.firstTick <= si.stop.setup.now + FromMs(p.duration)))
  }

  /** The report of `stepper_get_status` when it returns 0. */
  datatype Status = Status(running: bool, rate: real, remaining: int)

  /**
   * `stepper_get_status`: -1 for `STEPPER_AXIS_INVALID` (before the lock)
   * and for a record in the INVALID state; otherwise running exactly when
   * ON, with the stored rate and remaining time. Any value other than RA
   * and INVALID reads the DEC record.
   */
  function GetStatus(r: Registry, axisCode: int): (res: Reply<Option<Status>>)
    ensures axisCode == -1 ==> res == Returned(None)
    ensures axisCode != -1 ==> (res.Blocked? <==> r.lockHeld)
    ensures res.Returned? && res.value.Some? ==>
              var p := SlotOf(r, AxisOrDec(axisCode)).params;
              && axisCode != -1 && p.state != Invalid
              && res.value.value == Status(p.state == On, p.rate, p.remaining)
    ensures res.Returned? && res.value.None? ==>
              axisCode == -1 || SlotOf(r, AxisOrDec(axisCode)).params.state == Invalid
  {
    if axisCode == -1 then Returned(None)
    else if r.lockHeld then Blocked
    else
      var p := SlotOf(r, AxisOrDec(axisCode)).params;
      if p.state == Invalid then Returned(None)
      else Returned(Some(Status(p.state == On, p.rate, p.remaining)))
  }

  /** What `stepper_initialize` depends on: each axis lock's creation and the six GPIO calls of each driver's initialisation. */
  datatype InitInputs = InitInputs(raMutexOk: bool, raOk: seq<bool>, decMutexOk: bool, decOk: seq<bool>)

  /**
   * `init_state`: creates the axis lock, sets the state OFF, wires the
   * driver and initialises it; -1 if the lock or the driver fails. The
   * rest of the record, and the thread, are left as they were.
   */
  function InitState(s: Slot, g: Pins, d: Driver, mutexOk: bool, ok: seq<bool>): (r: (Slot, Pins, int))
    requires |ok| == 6
    ensures !mutexOk ==> r == (s, g, -1)
    ensures mutexOk ==> r.0 == Slot(s.params.(state := Off, driver := d), s.thread)
    ensures mutexOk ==> r.2 == (if AllOk(ok) then 0 else -1)
    ensures mutexOk && Distinct(d) && AllOk(ok) ==> !Energised(r.1, d)
  {
    if !mutexOk then (s, g, -1)
    else
      var e := A4988.Initialize(d, g, ok);
      (Slot(s.params.(state := Off, driver := d), s.thread), e.gpio, if e.rc != 0 then -1 else 0)
  }

  /**
   * `stepper_initialize`: RA then DEC, then the registry is initialised.
   * A second call returns -1 with the global lock still taken; a DEC
   * failure returns -1 without undoing RA.
   */
  function Initialize(r: Registry, ii: InitInputs): (res: Reply<Outcome>)
    requires |ii.raOk| == 6 && |ii.decOk| == 6
    ensures res.Blocked? <==> r.lockHeld
    ensures res.Returned? && r.initialized ==> res.value == Outcome(r.(lockHeld := true), -1)
    ensures res.Returned? && res.value.rc == 0 <==>
              !r.lockHeld && !r.initialized && ii.raMutexOk && AllOk(ii.raOk) && ii.decMutexOk && AllOk(ii.decOk)
    ensures res.Returned? ==> res.value.reg.initialized == (r.initialized || res.value.rc == 0)
    ensures res.Returned? && res.value.rc == 0 ==>
              && res.value.reg.ra.params.state == Off && res.value.reg.dec.params.state == Off
              && res.value.reg.ra.params.driver == RaDriver && res.value.reg.dec.params.driver == DecDriver
              && !Energised(res.value.reg.gpio, RaDriver) && !Energised(res.value.reg.gpio, DecDriver)
              && !res.value.reg.lockHeld
  {
    if r.lockHeld then Blocked
    else if r.initialized then Returned(Outcome(r.(lockHeld := true), -1))
    else
      var (ra, g1, rc1) := InitState(r.ra, r.gpio, RaDriver, ii.raMutexOk, ii.raOk);
      var r1 := r.(ra := ra, gpio := g1);
      if rc1 != 0 then Returned(Outcome(r1, -1))
      else
        var (dec, g2, rc2) := InitState(r.dec, g1, DecDriver, ii.decMutexOk, ii.decOk);
        assert Energised(g2, RaDriver) == Energised(g1, RaDriver) by {
          assert forall q: nat :: q !in PinsOf(DecDriver) ==> At(g2, q) == At(g1, q);
          assert RaDriver.sleep !in PinsOf(DecDriver);
        }
        var r2 := r1.(dec := dec, gpio := g2);
        if rc2 != 0 then Returned(Outcome(r2, -1))
        else Returned(Outcome(r2.(initialized := true), 0))
  }

  /** What `stepper_finalize` depends on: the two stops and the five GPIO calls of each driver's release. */
  datatype FinalizeInputs = FinalizeInputs(stopRa: StopInputs, raOk: seq<bool>, stopDec: StopInputs, decOk: seq<bool>)

  /**
   * `stepper_finalize`: on an uninitialised registry it returns with the
   * global lock taken; otherwise it stops and releases RA, then DEC, and
   * clears both records and the initialised flag.
   */
  function Finalize(r: Registry, fi: FinalizeInputs): (res: Reply<Registry>)
    requires WellFormed(fi.stopRa.setup) && WellFormed(fi.stopDec.setup)
    requires |fi.raOk| == 5 && |fi.decOk| == 5
    ensures res.Blocked? <==> r.lockHeld
    ensures res.Returned? && !r.initialized ==> res.value == r.(lockHeld := true)
    ensures res.Returned? && r.initialized ==>
              && !res.value.initialized && !res.value.lockHeld
              && res.value.ra == Slot(ZeroParams, NoThread)
              && res.value.dec == Slot(ZeroParams, NoThread)
    ensures res.Returned? && r.initialized && AllOk(fi.raOk) && AllOk(fi.decOk)
            && Distinct(r.ra.params.driver) && Distinct(r.dec.params.driver) ==>
              forall p :: p in PinsOf(r.ra.params.driver) + PinsOf(r.dec.params.driver) ==>
                At(res.value.gpio, p).mode == Input
  {
    if r.lockHeld then Blocked
    else if !r.initialized then Returned(r.(lockHeld := true))
    else
      var r1 := Stop(r, AxisCode(RA), fi.stopRa).value.reg;
      var r2 := r1.(gpio := A4988.Finalize(r1.ra.params.driver, r1.gpio, fi.raOk));
      var r3 := Stop(r2, AxisCode(DEC), fi.stopDec).value.reg;
      var r4 := r3.(gpio := A4988.Finalize(r3.dec.params.driver, r3.gpio, fi.decOk));
      Returned(r4.(initialized := false, ra := Slot(ZeroParams, r4.ra.thread), dec := Slot(ZeroParams, r4.dec.thread)))
  }

  /** The axis thread's set-up, run by the thread itself (no global lock). */
  function ThreadSetup(r: Registry, a: Axis, io: SetupInputs): (r': Registry)
    requires WellFormed(io)
    ensures forall b :: b != a ==> SlotOf(r', b) == SlotOf(r, b)
    ensures r'.initialized == r.initialized && r'.lockHeld == r.lockHeld
    ensures !SlotOf(r, a).thread.Spawned? ==> r' == r
  {
    var s := SlotOf(r, a);
    if s.thread.Spawned? then
      var k := Setup(s.params, r.gpio, io);
      WithSlot(r, a, k.slot).(gpio := k.gpio)
    else r
  }

  /** One loop-top pass of the axis thread at real time `now`. */
  function ThreadTick(r: Registry, a: Axis, now: int, disableOk: bool): (r': Registry)
    ensures forall b :: b != a ==> SlotOf(r', b) == SlotOf(r, b)
    ensures r'.initialized == r.initialized && r'.lockHeld == r.lockHeld
    ensures SlotOf(r', a).params.state == SlotOf(r, a).params.state || SlotOf(r', a).thread == Exited
  {
    var k := Tick(SlotOf(r, a), r.gpio, now, disableOk);
    WithSlot(r, a, k.slot).(gpio := k.gpio)
  }

  // ---------------------------------------------------------------------------
  // Properties of the public calls
  // ---------------------------------------------------------------------------

  /**
   * The rejections of `stepper_start` (bad axis, a non-zero rate below 0.1
   * in magnitude, an axis not OFF, the axis lock failing) return -1 and
   * change nothing.
   */
  lemma StartRejectionsChangeNothing(r: Registry, axisCode: int, rate: real, duration: int, si: StartInputs)
    requires WellFormed(si.stop.setup) && !r.lockHeld
    requires || AxisOf(axisCode).None?
             || (rate != 0.0 && AbsR(rate) < SAME_DOUBLE)
             || (rate != 0.0 && SlotOf(r, AxisOrDec(axisCode)).params.state != Off)
             || (rate != 0.0 && !si.spLockOk)
    ensures Start(r, axisCode, rate, duration, si) == Returned(Outcome(r, -1))
  {
  }

  /**
   * A rate beyond 120 in magnitude fails in the converter, after the record
   * was written: the state stays OFF, but rate, direction, duration, width
   * and driver direction now hold the rejected request.
   */
  lemma ConverterFailureOverwrites(r: Registry, a: Axis, rate: real, duration: int, si: StartInputs)
    requires WellFormed(si.stop.setup) && !r.lockHeld && si.spLockOk
    requires AbsR(rate) > MAX_RATE && SlotOf(r, a).params.state == Off
    ensures var res := Start(r, AxisCode(a), rate, duration, si);
            var p, p' := SlotOf(r, a).params, SlotOf(res.value.reg, a).params;
            && res.Returned? && res.value.rc == -1
            && p'.state == Off && p'.rate == rate && p'.duration == duration
            && p'.direction == DirectionOfRate(rate) && p'.width == PULSE_WIDTH_US
            && (p'.a4988Dir == CW <==> rate > 0.0)
            && p'.resolution == p.resolution && p'.delay == p.delay && p'.remaining == p.remaining
  {
  }

  /**
   * A start that gets through every check and call: 0, the axis ON with
   * the whole duration remaining, the request and the converter's settings
   * stored, and a new thread; the other axis is untouched.
   */
  lemma StartSucceeds(r: Registry, a: Axis, rate: real, duration: int, si: StartInputs)
    requires WellFormed(si.stop.setup) && !r.lockHeld
    requires si.spLockOk && si.createOk && si.setnameOk
    requires SAME_DOUBLE <= AbsR(rate) <= MAX_RATE && SlotOf(r, a).params.state == Off
    ensures var res := Start(r, AxisCode(a), rate, duration, si);
            var p' := SlotOf(res.value.reg, a).params;
            var st := UpdateFromRate(a, rate).setting.value;
            && res.Returned? && res.value.rc == 0
            && SlotOf(res.value.reg, a).thread == Spawned
            && p'.state == On && p'.remaining == duration && p'.duration == duration
            && p'.rate == rate && p'.direction == DirectionOfRate(rate)
            && p'.resolution == st.resolution && p'.delay == st.delay
            && p'.driver == SlotOf(r, a).params.driver
            && (forall b :: b != a ==> SlotOf(res.value.reg, b) == SlotOf(r, b))
            && res.value.reg.gpio == r.gpio
  {
  }

  /**
   * When `pthread_create` fails the call returns -1 with the axis left ON
   * and no thread to end it: every later start of that axis is refused, and
   * a stop cannot turn it OFF.
   */
  lemma CreateFailureWedgesAxis(r: Registry, a: Axis, rate: real, duration: int, si: StartInputs,
                                rate2: real, duration2: int, si2: StartInputs, so: StopInputs)
    requires WellFormed(si.stop.setup) && WellFormed(si2.stop.setup) && WellFormed(so.setup)
    requires !r.lockHeld && si.spLockOk && !si.createOk
    requires SAME_DOUBLE <= AbsR(rate) <= MAX_RATE && SlotOf(r, a).params.state == Off
    requires !Live(SlotOf(r, a).thread)
    requires rate2 != 0.0
    ensures var res := Start(r, AxisCode(a), rate, duration, si);
            var r1 := res.value.reg;
            && res.Returned? && res.value.rc == -1
            && SlotOf(r1, a).params.state == On
            && Start(r1, AxisCode(a), rate2, duration2, si2) == Returned(Outcome(r1, -1))
            && SlotOf(Stop(r1, AxisCode(a), so).value.reg, a).params.state == On
  {
  }

  /** The set-up inputs under which a thread's set-up runs to its loop. */
  predicate SetupSucceeds(io: SetupInputs) {
    WellFormed(io) && io.cancelDisableOk && io.schedOk && AllOk(io.enableOk) && io.cancelTypeOk && io.cancelEnableOk
  }

  /**
   * Start, stop, start again (the sequence the thread test runs twice): a
   * successful start, then a stop, leave the axis OFF with the thread
   * joined, and the same start succeeds again.
   */
  lemma StartStopStart(r: Registry, a: Axis, rate: real, duration: int, si: StartInputs, so: StopInputs)
    requires WellFormed(si.stop.setup) && SetupSucceeds(so.setup)
    requires !r.lockHeld && si.spLockOk && si.createOk && si.setnameOk
    requires SAME_DOUBLE <= AbsR(rate) <= MAX_RATE && SlotOf(r, a).params.state == Off
    ensures var r1 := Start(r, AxisCode(a), rate, duration, si).value.reg;
            var r2 := Stop(r1, AxisCode(a), so).value.reg;
            var res := Start(r2, AxisCode(a), rate, duration, si);
            && SlotOf(r2, a).params.state == Off && SlotOf(r2, a).params.remaining == 0
            && SlotOf(r2, a).thread == NoThread
            && res.Returned? && res.value.rc == 0 && SlotOf(res.value.reg, a).params.state == On
  {
    StartSucceeds(r, a, rate, duration, si);
    var r1 := Start(r, AxisCode(a), rate, duration, si).value.reg;
    NoOverflowForAcceptedRates(a, rate);
    CodesRoundTrip(SlotOf(r1, a).params.resolution, SlotOf(r1, a).params.a4988Dir);
    assert SetupEndOf(SlotOf(r1, a).params, so.setup) == Loop;
    var r2 := Stop(r1, AxisCode(a), so).value.reg;
    StartSucceeds(r2, a, rate, duration, si);
  }

  /**
   * A start whose thread cannot be named: the call never returns exactly
   * when the thread needs the axis lock the caller holds while joining it.
   * Otherwise it returns -1 with the thread joined; the axis is OFF unless
   * the thread left before pushing its cleanup handler, in which case the
   * record stays as the start armed it, ON. The other axis is untouched.
   */
  lemma NamingFailureOutcome(r: Registry, a: Axis, rate: real, duration: int, si: StartInputs)
    requires WellFormed(si.stop.setup) && !r.lockHeld
    requires si.spLockOk && si.createOk && !si.setnameOk
    requires SAME_DOUBLE <= AbsR(rate) <= MAX_RATE && SlotOf(r, a).params.state == Off
    ensures var res := Start(r, AxisCode(a), rate, duration, si);
            var p2 := Armed(SlotOf(r, a).params, a, rate, duration);
            var end := SetupEndOf(p2, si.stop.setup);
            && (res.Blocked? <==> NamingFailureDeadlocks(p2, si))
            && (res.Returned? ==>
                  && res.value.rc == -1
                  && SlotOf(res.value.reg, a).thread == NoThread
                  && (end == EarlyExit ==> SlotOf(res.value.reg, a).params == p2)
                  && (end != EarlyExit ==> SlotOf(res.value.reg, a).params.state == Off
                                           && SlotOf(res.value.reg, a).params.remaining == 0)
                  && (forall b :: b != a ==> SlotOf(res.value.reg, b) == SlotOf(r, b)))
  {
    assert AxisOf(AxisCode(a)) == Some(a);
  }

  /**
   * The naming-failure cases for a thread whose set-up reaches its loop: an
   * endless run always hangs the call; a finite run hangs it only when the
   * thread got to its loop top first with its deadline still ahead, and
   * otherwise the call returns -1 with the axis OFF.
   */
  lemma NamingFailureCases(r: Registry, a: Axis, rate: real, duration: int, si: StartInputs)
    requires SetupSucceeds(si.stop.setup) && !r.lockHeld
    requires si.spLockOk && si.createOk && !si.setnameOk
    requires SAME_DOUBLE <= AbsR(rate) <= MAX_RATE && SlotOf(r, a).params.state == Off
    ensures var res := Start(r, AxisCode(a), rate, duration, si);
            var deadline := si.stop.setup.now + FromMs(duration);
            && (RunsForever(duration) ==> res.Blocked?)
            && (!RunsForever(duration) ==>
                  (res.Blocked? <==> si.threadAhead && si.firstTick <= deadline))
            && (!RunsForever(duration) && !(si.threadAhead && si.firstTick <= deadline) ==>
                  res.Returned? && res.value.rc == -1 && SlotOf(res.value.reg, a).params.state == Off)
  {
    NamingFailureOutcome(r, a, rate, duration, si);
    var p2 := Armed(SlotOf(r, a).params, a, rate, duration);
    NoOverflowForAcceptedRates(a, rate);
    CodesRoundTrip(p2.resolution, p2.a4988Dir);
    assert SetupEndOf(p2, si.stop.setup) == Loop;
  }

  /**
   * A thread whose set-up exits before pushing the cleanup handler leaves
   * its axis ON: a stop joins it but cannot turn the axis OFF.
   */
  lemma EarlyExitLeavesAxisOn(r: Registry, a: Axis, io: SetupInputs, so: StopInputs)
    requires WellFormed(io) && WellFormed(so.setup) && !r.lockHeld
    requires SlotOf(r, a).thread == Spawned && SlotOf(r, a).params.state == On
    requires SetupEndOf(SlotOf(r, a).params, io) == EarlyExit
    ensures var r1 := ThreadSetup(r, a, io);
            var r2 := Stop(r1, AxisCode(a), so).value.reg;
            && SlotOf(r1, a).thread == Exited && SlotOf(r1, a).params.state == On
            && SlotOf(r2, a).thread == NoThread && SlotOf(r2, a).params.state == On
  {
  }

  /**
   * A finite run started at real time `t0`: while at most `duration` ms
   * have passed, the loop reports between 1 and `duration` ms remaining and
   * the axis is ON; after that the next loop-top check ends the run, and
   * the status then reads not running with 0 remaining.
   */
  lemma FiniteRunCountsDown(r: Registry, a: Axis, io: SetupInputs, now: int, disableOk: bool)
    requires SetupSucceeds(io) && !r.lockHeld
    requires SlotOf(r, a).thread == Spawned && SlotOf(r, a).params.state == On
    requires SlotOf(r, a).params.duration > 0
    requires Period(SlotOf(r, a).params.width, SlotOf(r, a).params.delay).Some?
    requires InitialSleep(SlotOf(r, a).params.delay).Some?
    requires now >= io.now
    ensures var d := SlotOf(r, a).params.duration;
            var r1 := ThreadSetup(r, a, io);
            var r2 := ThreadTick(r1, a, now, disableOk);
            var p := SlotOf(r2, a).params;
            && (now - io.now <= d * NS_PER_MS ==>
                  p.state == On && 1 <= p.remaining <= d && SlotOf(r2, a).thread.Looping?)
            && (now - io.now > d * NS_PER_MS ==>
                  && p.state == Off && p.remaining == 0 && SlotOf(r2, a).thread == Exited
                  && GetStatus(r2, AxisCode(a)) == Returned(Some(Status(false, p.rate, 0))))
  {
    var p := SlotOf(r, a).params;
    CodesRoundTrip(p.resolution, p.a4988Dir);
    assert SetupEndOf(p, io) == Loop;
    RemainingWithinDuration(io.now, p.duration, now);
  }

  /** An endless run (duration 0) reports 0 remaining, and the loop-top check never changes the record. */
  lemma EndlessRunKeepsZero(r: Registry, a: Axis, io: SetupInputs, now: int, disableOk: bool)
    requires SetupSucceeds(io)
    requires SlotOf(r, a).thread == Spawned && RunsForever(SlotOf(r, a).params.duration)
    requires Period(SlotOf(r, a).params.width, SlotOf(r, a).params.delay).Some?
    requires InitialSleep(SlotOf(r, a).params.delay).Some?
    ensures var r1 := ThreadSetup(r, a, io);
            && SlotOf(r1, a).params.remaining == 0
            && SlotOf(r1, a).thread == Looping(None)
            && ThreadTick(r1, a, now, disableOk) == r1
  {
    var p := SlotOf(r, a).params;
    CodesRoundTrip(p.resolution, p.a4988Dir);
    assert SetupEndOf(p, io) == Loop;
  }

  /**
   * A second `stepper_initialize`, or a `stepper_finalize` of an
   * uninitialised registry, returns with the global lock taken; after it no
   * call that takes the lock ever returns.
   */
  lemma LeakedLockBlocksEverything(r: Registry, ii: InitInputs, fi: FinalizeInputs,
                                   axisCode: int, rate: real, duration: int, si: StartInputs, so: StopInputs)
    requires |ii.raOk| == 6 && |ii.decOk| == 6
    requires WellFormed(fi.stopRa.setup) && WellFormed(fi.stopDec.setup) && |fi.raOk| == 5 && |fi.decOk| == 5
    requires WellFormed(si.stop.setup) && WellFormed(so.setup)
    requires !r.lockHeld
    requires AxisOf(axisCode).Some? && AbsR(rate) >= SAME_DOUBLE
    ensures r.initialized ==> Initialize(r, ii) == Returned(Outcome(r.(lockHeld := true), -1))
    ensures !r.initialized ==> Finalize(r, fi) == Returned(r.(lockHeld := true))
    ensures var r' := r.(lockHeld := true);
            && Initialize(r', ii).Blocked? && Finalize(r', fi).Blocked?
            && Start(r', axisCode, rate, duration, si).Blocked?
            && Stop(r', axisCode, so).Blocked?
            && GetStatus(r', axisCode).Blocked?
  {
  }

  /** A DEC failure in `stepper_initialize` returns -1 with RA set up (OFF, wired, chip asleep) and the registry still uninitialised. */
  lemma DecFailureKeepsRa(r: Registry, ii: InitInputs)
    requires |ii.raOk| == 6 && |ii.decOk| == 6
    requires !r.lockHeld && !r.initialized
    requires ii.raMutexOk && AllOk(ii.raOk) && !(ii.decMutexOk && AllOk(ii.decOk))
    ensures var res := Initialize(r, ii);
            && res.Returned? && res.value.rc == -1 && !res.value.reg.initialized
            && res.value.reg.ra.params.state == Off && res.value.reg.ra.params.driver == RaDriver
            && !Energised(res.value.reg.gpio, RaDriver)
  {
    var g1 := A4988.Initialize(RaDriver, r.gpio, ii.raOk).gpio;
    if ii.decMutexOk {
      var g2 := A4988.Initialize(DecDriver, g1, ii.decOk).gpio;
      assert RaDriver.sleep !in PinsOf(DecDriver);
      assert At(g2, RaDriver.sleep) == At(g1, RaDriver.sleep);
    }
  }

  // ---------------------------------------------------------------------------
  // The consistency invariant: a live thread runs an axis that is ON
  // ---------------------------------------------------------------------------

  predicate SlotConsistent(s: Slot) {
    Live(s.thread) ==> s.params.state == On
  }

  predicate Consistent(r: Registry) {
    SlotConsistent(r.ra) && SlotConsistent(r.dec)
  }

  lemma ConsistentFromBoot()
    ensures Consistent(Boot())
  {
  }

  /** Every call and thread transition except `stepper_initialize` keeps a live thread's axis ON. */
  lemma StartKeepsConsistent(r: Registry, axisCode: int, rate: real, duration: int, si: StartInputs)
    requires WellFormed(si.stop.setup) && Consistent(r)
    ensures var res := Start(r, axisCode, rate, duration, si);
            res.Returned? ==> Consistent(res.value.reg)
  {
  }

  lemma StopKeepsConsistent(r: Registry, axisCode: int, so: StopInputs)
    requires WellFormed(so.setup) && Consistent(r)
    ensures var res := Stop(r, axisCode, so);
            res.Returned? ==> Consistent(res.value.reg)
  {
  }

  lemma ThreadStepsKeepConsistent(r: Registry, a: Axis, io: SetupInputs, now: int, disableOk: bool)
    requires WellFormed(io) && Consistent(r)
    ensures Consistent(ThreadSetup(r, a, io))
    ensures Consistent(ThreadTick(r, a, now, disableOk))
  {
  }

  lemma FinalizeKeepsConsistent(r: Registry, fi: FinalizeInputs)
    requires WellFormed(fi.stopRa.setup) && WellFormed(fi.stopDec.setup) && |fi.raOk| == 5 && |fi.decOk| == 5
    requires Consistent(r)
    ensures var res := Finalize(r, fi);
            res.Returned? ==> Consistent(res.value)
  {
  }

  /**
   * `stepper_start` does not check that the registry was initialised, and
   * `stepper_initialize` sets both states OFF whatever the threads are doing:
   * a start before initialisation succeeds, the initialisation then marks
   * the running axis OFF, and a second start launches a second thread on the
   * same axis.
   */
  lemma InitializeBreaksConsistency(si: StartInputs, ii: InitInputs)
    requires WellFormed(si.stop.setup) && si.spLockOk && si.createOk && si.setnameOk
    requires ii.raMutexOk && ii.raOk == [true, true, true, true, true, true]
    requires ii.decMutexOk && ii.decOk == [true, true, true, true, true, true]
    ensures var r1 := Start(Boot(), AxisCode(RA), 15.0, 0, si);
            var r2 := Initialize(r1.value.reg, ii);
            var r3 := Start(r2.value.reg, AxisCode(RA), 15.0, 0, si);
            && r1 == Returned(Outcome(r1.value.reg, 0)) && Consistent(r1.value.reg)
            && r2.Returned? && r2.value.rc == 0 && !Consistent(r2.value.reg)
            && r2.value.reg.ra.thread == Spawned
            && r3.Returned? && r3.value.rc == 0
  {
    StartSucceeds(Boot(), RA, 15.0, 0, si);
    var r1 := Start(Boot(), AxisCode(RA), 15.0, 0, si).value.reg;
    assert AllOk(ii.raOk) && AllOk(ii.decOk);
    var r2 := Initialize(r1, ii).value.reg;
    StartSucceeds(r2, RA, 15.0, 0, si);
  }
}

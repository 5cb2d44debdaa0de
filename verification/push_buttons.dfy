/**
 * The stand-alone push-button controller: two nine-entry speed tables, a
 * button callback that moves a shared index through each table, and a
 * step thread per axis that follows its index. The thread's clock readings
 * are inputs; what it does in one pass of its loop is a list of actions.
 */
module PushButtons {
  import opened CArith
  import opened A4988

  /** `struct speed`: whether the axis moves (1) or rests, and how. `delay` is `unsigned` µs. */
  datatype Speed = Speed(state: int, resolution: Resolution, direction: Dir, delay: int)

  const RaSpeeds: seq<Speed> := [
    Speed(1, Full, CCW, 0),
    Speed(1, Half, CCW, 0),
    Speed(1, Quarter, CCW, 0),
    Speed(1, Eighth, CCW, 0),
    Speed(1, Eighth, CCW, 30000),   // the earth's rotation
    Speed(1, Eighth, CW, 0),
    Speed(1, Quarter, CW, 0),
    Speed(1, Half, CW, 0),
    Speed(1, Full, CW, 0)
  ]

  const DecSpeeds: seq<Speed> := [
    Speed(1, Full, CCW, 0),
    Speed(1, Half, CCW, 0),
    Speed(1, Quarter, CCW, 0),
    Speed(1, Eighth, CCW, 0),
    Speed(0, Eighth, CCW, 0),       // off
    Speed(1, Eighth, CW, 0),
    Speed(1, Quarter, CW, 0),
    Speed(1, Half, CW, 0),
    Speed(1, Full, CW, 0)
  ]

  const RA_SPEED_DEFAULT: int := 4
  const RA_SPEED_MAX: int := 8
  const DEC_SPEED_DEFAULT: int := 4
  const DEC_SPEED_MAX: int := 8

  /** The tables' shape: nine entries each, the maximum index is the last entry, the RA default tracks the sky and the DEC default rests. */
  lemma TablesWellShaped()
    ensures |RaSpeeds| == 9 && |DecSpeeds| == 9
    ensures RA_SPEED_MAX == |RaSpeeds| - 1 && DEC_SPEED_MAX == |DecSpeeds| - 1
    ensures 0 <= RA_SPEED_DEFAULT <= RA_SPEED_MAX && 0 <= DEC_SPEED_DEFAULT <= DEC_SPEED_MAX
    ensures RaSpeeds[RA_SPEED_DEFAULT] == Speed(1, Eighth, CCW, 30000)
    ensures DecSpeeds[DEC_SPEED_DEFAULT].state == 0
    ensures forall i :: 0 <= i < |RaSpeeds| ==> RaSpeeds[i].state == 1
    ensures forall i :: 0 <= i < |DecSpeeds| && i != DEC_SPEED_DEFAULT ==> DecSpeeds[i].state == 1
  {
  }

  /** The shared part of `struct motion`: the selected index and its upper bound. */
  datatype Motion = Motion(current: int, max: int)

  predicate InRange(m: Motion) {
    0 <= m.current <= m.max
  }

  /** `pb_pins`: the GPIO numbers of the up, down, left, right and off buttons. */
  datatype Buttons = Buttons(up: int, down: int, left: int, right: int, off: int)

  /**
   * `pb_callback` for a falling edge on `pin`: OFF resets both indices to
   * their defaults; UP/DOWN move the DEC index and LEFT/RIGHT the RA index
   * by one, within [0, max]. The tests are made in that order, so a pin
   * wired to two buttons acts as the first.
   */
  function PbCallback(b: Buttons, pin: int, ra: Motion, dec: Motion): (r: (Motion, Motion))
    ensures r.0.max == ra.max && r.1.max == dec.max
    ensures pin == b.off ==> r == (ra.(current := RA_SPEED_DEFAULT), dec.(current := DEC_SPEED_DEFAULT))
    ensures pin != b.off && (pin == b.up || pin == b.down) ==> r.0 == ra
    ensures pin != b.off && pin != b.up && pin != b.down ==> r.1 == dec
    ensures pin !in {b.off, b.up, b.down, b.left, b.right} ==> r == (ra, dec)
    ensures -1 <= r.0.current - ra.current <= 1 || pin == b.off
    ensures -1 <= r.1.current - dec.current <= 1 || pin == b.off
  {
    if pin == b.off then
      (ra.(current := RA_SPEED_DEFAULT), dec.(current := DEC_SPEED_DEFAULT))
    else if pin == b.up || pin == b.down then
      if pin == b.up && dec.current < dec.max then (ra, dec.(current := dec.current + 1))
      else if pin == b.down && dec.current > 0 then (ra, dec.(current := dec.current - 1))
      else (ra, dec)
    else if pin == b.left || pin == b.right then
      if pin == b.left && ra.current > 0 then (ra.(current := ra.current - 1), dec)
      else if pin == b.right && ra.current < ra.max then (ra.(current := ra.current + 1), dec)
      else (ra, dec)
    else (ra, dec)
  }

  /**
   * With five distinct buttons each press does what its label says: UP
   * raises the DEC index unless it is at the top, DOWN lowers it unless it
   * is at 0, RIGHT and LEFT likewise for RA.
   */
  lemma ButtonsDoWhatTheySay(b: Buttons, ra: Motion, dec: Motion)
    requires |{b.up, b.down, b.left, b.right, b.off}| == 5
    ensures PbCallback(b, b.up, ra, dec).1.current == (if dec.current < dec.max then dec.current + 1 else dec.current)
    ensures PbCallback(b, b.down, ra, dec).1.current == (if dec.current > 0 then dec.current - 1 else dec.current)
    ensures PbCallback(b, b.right, ra, dec).0.current == (if ra.current < ra.max then ra.current + 1 else ra.current)
    ensures PbCallback(b, b.left, ra, dec).0.current == (if ra.current > 0 then ra.current - 1 else ra.current)
  {
    assert b.up != b.off && b.down != b.off && b.left != b.off && b.right != b.off;
    assert b.up != b.down && b.left != b.right;
    assert b.left != b.up && b.left != b.down && b.right != b.up && b.right != b.down;
  }

  /**
   * Every press keeps both indices inside their tables, given defaults that
   * are inside them: the thread can always index the table.
   */
  lemma {:induction false} PressesKeepIndicesInRange(b: Buttons, pins: seq<int>, ra: Motion, dec: Motion)
    requires InRange(ra) && InRange(dec)
    requires RA_SPEED_DEFAULT <= ra.max && DEC_SPEED_DEFAULT <= dec.max
    ensures var r := Presses(b, pins, ra, dec);
            InRange(r.0) && InRange(r.1) && r.0.max == ra.max && r.1.max == dec.max
    decreases |pins|
  {
    if |pins| > 0 {
      var r := PbCallback(b, pins[0], ra, dec);
      assert InRange(r.0) && InRange(r.1);
      PressesKeepIndicesInRange(b, pins[1..], r.0, r.1);
    }
  }

  /** The indices after a series of presses. */
  function Presses(b: Buttons, pins: seq<int>, ra: Motion, dec: Motion): (Motion, Motion)
    decreases |pins|
  {
    if |pins| == 0 then (ra, dec)
    else
      var r := PbCallback(b, pins[0], ra, dec);
      Presses(b, pins[1..], r.0, r.1)
  }

  /** What one pass of the step thread's loop does, in order. */
  datatype Action =
    | DisableDriver
    | EnableDriver(resolution: Resolution, direction: Dir)
    | Pulse
    | SleepNs(ns: int)     // `tv_sec` 0 and this many ns; outside [0, 1e9) the sleep is refused
    | SleepOneSecond

  /**
   * The sleep after a pulse: the entry's delay less the time the pass took
   * and 2 ms. The delay is multiplied in `unsigned`; the nanosecond fields
   * are compared after adding one second to `now` when its second differs.
   */
  function SleepAfterPulse(delay: int, start: Timespec, now: Timespec): (s: int)
    requires InUInt(delay)
    ensures now.sec <= start.sec ==> s == UIntMul(delay, 1000) - (now.nsec - start.nsec) - 2_000_000
    ensures now.sec > start.sec ==> s == UIntMul(delay, 1000) - (now.nsec + NS_PER_SEC - start.nsec) - 2_000_000
  {
    var nowNs := if now.sec > start.sec then now.nsec + NS_PER_SEC else now.nsec;
    UIntMul(delay, 1000) - (nowNs - start.nsec) - 2_000_000
  }

  /**
   * When less than a second separates the clock readings' seconds, the sleep
   * is the delay less the true elapsed time and 2 ms; a pass that straddles
   * more than one second boundary is under-counted by a whole second per
   * extra boundary. An entry with delay 0 gives a negative sleep.
   */
  lemma SleepAfterPulseMeaning(delay: int, start: Timespec, now: Timespec)
    requires InUInt(delay) && delay * 1000 < UINT_MODULUS
    requires Normalised(start) && Normalised(now) && start.sec <= now.sec
    ensures var elapsed := TotalNs(now) - TotalNs(start);
            && (now.sec - start.sec <= 1 ==> SleepAfterPulse(delay, start, now) == delay * 1000 - elapsed - 2_000_000)
            && (now.sec - start.sec > 1 ==>
                  SleepAfterPulse(delay, start, now) == delay * 1000 - elapsed - 2_000_000 + (now.sec - start.sec - 1) * NS_PER_SEC)
            && (delay == 0 && TotalNs(start) <= TotalNs(now) ==> SleepAfterPulse(delay, start, now) < 0)
  {
  }

  /**
   * One pass of the step thread's loop, given the index it last acted on
   * (`local`) and the shared index. A changed index disables the driver and
   * re-enables it only for a moving entry; a moving entry then pulses and
   * sleeps for the rest of its delay, a resting one sleeps one second.
   */
  function Pass(table: seq<Speed>, local: int, shared: int, start: Timespec, now: Timespec): (r: (int, seq<Action>))
    requires 0 <= shared < |table| && 0 <= local < |table|
    requires forall i :: 0 <= i < |table| ==> InUInt(table[i].delay)
    ensures r.0 == shared && |r.1| > 0
    ensures (local != shared) == (r.1[0] == DisableDriver)
    ensures EnableDriver(table[shared].resolution, table[shared].direction) in r.1 <==>
              local != shared && table[shared].state == 1
    ensures (Pulse in r.1) == (table[shared].state == 1)
    ensures table[shared].state != 1 ==> r.1[|r.1| - 1] == SleepOneSecond
    ensures table[shared].state == 1 ==> r.1[|r.1| - 1] == SleepNs(SleepAfterPulse(table[shared].delay, start, now))
  {
    var speed := table[shared];
    var update := if local != shared then
                    [DisableDriver] + (if speed.state == 1 then [EnableDriver(speed.resolution, speed.direction)] else [])
                  else [];
    var tail := if speed.state == 1 then [Pulse, SleepNs(SleepAfterPulse(speed.delay, start, now))]
                else [SleepOneSecond];
    (shared, update + tail)
  }

  /** The enable of the thread's first run: only for a moving entry. */
  function FirstRun(table: seq<Speed>, current: int): (r: seq<Action>)
    requires 0 <= current < |table|
    ensures r == [] <==> table[current].state != 1
  {
    if table[current].state == 1 then [EnableDriver(table[current].resolution, table[current].direction)] else []
  }

  /** Pressing OFF brings DEC to rest: the next pass disables it and only sleeps. */
  lemma OffRestsDec(b: Buttons, ra: Motion, dec: Motion, local: int, start: Timespec, now: Timespec)
    requires InRange(dec) && dec.max == DEC_SPEED_MAX && 0 <= local < |DecSpeeds|
    requires local != DEC_SPEED_DEFAULT
    ensures var dec' := PbCallback(b, b.off, ra, dec).1;
            Pass(DecSpeeds, local, dec'.current, start, now).1 == [DisableDriver, SleepOneSecond]
  {
  }
}

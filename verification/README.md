# pimount axis motion, in Dafny

This project models the motion core of pimount, a Raspberry Pi telescope
mount controller. It also proves properties of that model. Two A4988
stepper-motor drivers turn the right-ascension (RA) and declination (DEC)
axes. Each axis has its own step thread. The modelled pieces are:

- the A4988 driver layer: pin set-up and release, enable and disable, and
  the single step pulse with its 2 ms spacing rule;
- the rate converter, which maps a rate in arc-seconds per second to a
  microstep resolution, a driver direction and an inter-pulse delay;
- the step thread's timing arithmetic: the overflow-checked period, the
  countdown of a finite run, and the quarter-damped sleep correction;
- the axis registry, whose public calls are `stepper_initialize`,
  `stepper_finalize`, `stepper_start`, `stepper_stop` and
  `stepper_get_status`. Each call, and each visible step of an axis
  thread, is an atomic transition on an immutable record;
- the older push-button controller: its speed tables, the button callback,
  one pass of its step loop, and its ':'-separated pin-list arguments;
- the fan thread's temperature-to-duty curve and its cleanup.

Modules, one per file:

| file | module | models |
|---|---|---|
| common.dfy | Common | `Option`, `Result`, and `Reply` (a call that returns, or blocks forever) |
| c_arith.dfy | CArith | C integer semantics: 64-bit `long` range, 32-bit `unsigned` wrap, truncating `/`, `double` to `long` |
| gpio.dfy | Gpio | the board's pins as a map, with writes that may fail |
| a4988.dfy | A4988 | `a4988.h` and `a4988.c` |
| stepper_types.dfy | StepperTypes | the enums of `stepper.h` and their name functions |
| rate.dfy | Rate | `ra_update_from_rate` and `dec_update_from_rate` |
| step_timing.dfy | StepTiming | the arithmetic inside the `stepper` thread function |
| axis_thread.dfy | AxisThread | `struct stepper_parameters`, `stepper_cleanup`, and the thread's set-up, loop top and cancellation |
| registry.dfy | Registry | the public `stepper_*` calls on the global `struct stepper` |
| push_buttons.dfy | PushButtons | the speed tables, `pb_callback` and the step loop of `main.c` |
| pin_list.dfy | PinList | the argument parsing of `main.c` (`strtok`, `atoi`) |
| fan.dfy | Fan | the duty computation of `fan` and `fan_cleanup` |

Conventions:

- Time is an integer count of nanoseconds. Clock readings are parameters.
- Every GPIO or pthread call that can fail takes its outcome as a boolean
  input.
- A call that would wait forever (on a lock that is never released, or on a
  join of a thread that cannot finish) returns `Blocked`.
- Rates are `real`. The C conversion of a `double` to `long` is truncation
  toward zero.

## Model

| member | source | states |
|---|---|---|
| CArith.UIntMul | a4988.c:204-207 | A product in `unsigned` stays in [0, 2^32) and is congruent to the true product modulo 2^32, so it is `a * b mod 2^32`. It is the true product when that fits. |
| CArith.Quot | stepper.c:516-523 | C's `/` rounds toward zero: the remainder is smaller than the divisor and has the dividend's sign. |
| CArith.Trunc | stepper.c:220 | A `double` to `long` conversion keeps the integer part: the magnitude is below \|x\| + 1 and the sign is x's. |
| CArith.TruncOdd | stepper.c:220 | Truncation is odd: `Trunc(-x) == -Trunc(x)`. |
| Gpio.Write | a4988.c:209-212 | A successful write sets the pin's level. A failed write changes nothing. No other pin changes. |
| Gpio.SetMode | a4988.c:24-29 | A successful mode change sets the pin's mode and keeps its level. A failed one changes nothing. No other pin changes. |
| Gpio.WriteSameLevel | a4988.c:128-138 | Writing a pin's current level leaves every pin as it was. |
| A4988.ResolutionFromCode | a4988.h:61-66 | Exactly the codes 0..3 are resolutions, and decoding inverts the enumerator values. |
| A4988.DirFromCode | a4988.h:82-85 | Exactly the codes 0 and 1 are directions, and decoding inverts the enumerator values. |
| A4988.CodesRoundTrip | a4988.h:61-85 | Encoding then decoding a resolution or a direction gives it back. |
| A4988.ResolutionName | a4988.h:68-80 | "BAD RESOLUTION" is returned exactly for codes outside 0..3. |
| A4988.DirName | a4988.h:87-97 | "BAD DIRECTION" is returned exactly for codes outside 0..1. |
| A4988.NamesDistinct | a4988.h:68-97 | Distinct valid codes have distinct names. |
| A4988.MsLevelsFollowDatasheet | a4988.h:42-51 | The MS1/MS2 levels chosen for each resolution select that step mode in the datasheet table (MS3 low). Sixteenth step is never used. Different resolutions give different levels. |
| A4988.Initialize | a4988.c:19-35 | 0 iff all six GPIO calls succeed. On success every driver pin is an output and the chip is asleep. No other pin changes. |
| A4988.Finalize | a4988.c:42-52 | Every driver pin is turned back into an input. No level changes. |
| A4988.Enable | a4988.c:59-120 | A bad resolution fails before any write. A bad direction fails after MS1/MS2 are written. On success the chip is awake, MS1/MS2 select the resolution's step mode, and the direction line follows the direction. The 1.5 ms settle wait happens only on success. |
| A4988.Disable | a4988.c:127-138 | Success puts the chip to sleep. A failed write changes nothing. Only the sleep pin changes. |
| A4988.DisableIdempotent | a4988.c:127-138 | Disabling twice is the same as disabling once. |
| A4988.EnableThenDisable | a4988.c:59-138 | After a successful enable, a disable puts the chip to sleep and keeps the MS1/MS2 and direction levels. |
| A4988.SubtractTimespec | a4988.c:141-154 | The difference has the exact nanosecond total, and it is normalised when both inputs are. |
| A4988.SubtractTimespecRoundTrip | a4988.c:141-154 | Adding the difference back to `start` gives `end` field by field. The difference's seconds are non-negative iff `start` is not after `end`. |
| A4988.SpacingWindow | a4988.c:175-191 | For normalised, ordered times, the field-wise "too soon" test means "less than 2 ms ago". |
| A4988.Step | a4988.c:161-227 | The requested wait is the 32-bit product `width * 1000 mod 2^32` ns. Under a second it is floored at 100 000 ns, giving `max(width * 1000 mod 2^32, 100 000)` ns, which is `max(width, 100)` µs while `width * 1000 < 10^9`. A product of a second or more is refused by `nanosleep` and the wait is 0. Only a call that is not the first, with the last pulse under 2 ms ago, waits, and it waits a full 2 ms. The statics record the end of the pulse. The step line ends low when the second write succeeds. |
| A4988.PulseLimit | a4988.c:204-211 | 999 999 µs is the widest pulse that is honoured. At 1 000 000 µs the `nanosleep` is refused and the wait is 0. 100 µs is the floor. |
| StepperTypes.AxisOf | stepper.h:36-40 | Exactly 0 and 1 are axes, and decoding inverts the enumerator values. |
| StepperTypes.StateName | stepper.h:20-34 | "BAD STATE" is returned exactly for values outside -1..1; every enumerator's name carries the `STEPPER_STATE_` prefix. |
| StepperTypes.AxisName | stepper.h:42-56 | "BAD AXIS" is returned exactly for values outside -1..1; every enumerator's name carries the `STEPPER_AXIS_` prefix. |
| StepperTypes.DirectionName | stepper.h:69-83 | "BAD DIRECTION" is returned exactly for values outside -1..1; every enumerator's name carries the `STEPPER_DIRECTION_` prefix. |
| StepperTypes.NamesDistinct | stepper.h:20-83 | Distinct enumerators have distinct names. |
| StepperTypes.DirectionOfRate | stepper.c:764-767 | A positive rate moves in the positive direction. A negative rate moves in the negative direction. |
| StepperTypes.ThreadNameIndexSafe | stepper.c:735-850 | The axis values `stepper_start` accepts are exactly the valid indexes of the thread-name array. |
| Rate.UpdateFromRate | stepper.c:199-251 | The width is always 500 µs. The direction is CW iff the rate is positive. The call succeeds iff \|rate\| ≤ 120. The resolution is EIGHTH up to 30, QUARTER up to 60, and FULL up to 120, never HALF. The delay is the axis constant over the microstep divisor, divided by the rate and truncated. |
| Rate.ChoosesFinestBand | stepper.c:206-250 | The chosen resolution is the finest band whose limit covers \|rate\|. |
| Rate.DelayRealisesRate | stepper.c:144-195 | For a positive rate, the delay is the largest whole number of µs at which the calibration formula still reaches the requested rate. |
| Rate.PositiveDelayBounds | stepper.c:199-329 | Every positive accepted rate gives a delay of at least 6083 µs (RA) or 11833 µs (DEC), above the 2 ms floor. Rates of at least 0.1 give at most ten times the eighth-step numerator. |
| Rate.NegatedRate | stepper.c:206-250 | Negating the rate flips the driver direction, keeps the band and negates the delay. |
| Rate.NegativeRateNegativeDelay | stepper.c:220-242 | A negative accepted rate stores a negative delay. |
| Rate.TrackingRateExample | stepper.c:144-251 | RA at 15 arc-seconds per second gives eighth steps at a 12166 µs delay, clockwise. |
| StepTiming.ToMs | stepper.c:488 | Converting nanoseconds to milliseconds rounds down. |
| StepTiming.MulChecked | stepper.c:410-429 | The overflow-checked multiply succeeds iff the product fits in a `long`, and then it is the product. |
| StepTiming.Period | stepper.c:410-415 | The period exists iff `(width + delay) * 1000` fits in a `long`, and is then that many ns. |
| StepTiming.InitialSleep | stepper.c:425-429 | The first sleep exists iff `delay * 1000` fits in a `long`, and is then that many ns. |
| StepTiming.PeriodIsPulsePlusSleep | stepper.c:410-429 | When both products fit, the period is the pulse width plus the first sleep. |
| StepTiming.Remaining | stepper.c:480-491 | A finite run continues iff `now` is not past the stop time. While it runs, the reported milliseconds are at least 1 and within a millisecond of the true remainder. |
| StepTiming.RemainingNonincreasing | stepper.c:480-491 | The reported remaining time never grows as the clock advances. |
| StepTiming.RemainingWithinDuration | stepper.c:434-447 | A run of d ms continues exactly while at most d ms have passed, and reports at most d. |
| StepTiming.Offset | stepper.c:516-523 | The correction is a whole number of milliseconds, has the error's sign, and is at most a quarter of the error. It is zero in the dead band from -3 ms to 4 ms, and at least 1 ms in magnitude outside it. |
| StepTiming.Corrected | stepper.c:516-534 | The new sleep is non-negative when the delay is. It is either unchanged, reset to the delay, or moved by exactly the offset. |
| StepTiming.CorrectionConverges | stepper.c:516-534 | With a fixed overhead per pulse, a correction never resets the sleep and never overshoots. It shrinks an error outside the dead band by at least 1 ms. |
| StepTiming.SlowPulsesSettle | stepper.c:516-534 | After n corrections, pulses that came too slowly still do, by no more than max(initial error − n ms, 3 ms). |
| StepTiming.FastPulsesNeverOvershoot | stepper.c:516-534 | Pulses that came too fast never become too slow, and their error never grows. |
| StepTiming.SleepAt | stepper.c:473-557 | The sleep after each pulse of a run is non-negative for a non-negative delay. |
| StepTiming.FreshRunPairs | stepper.c:504-534 | A run entered with the parity counter at 0 corrects after every odd pulse from that pulse's own pair, and keeps the sleep after every even one. |
| StepTiming.Sleeps | stepper.c:473-557 | The loop's bookkeeping (the parity counter and the first stamp of the open pair) produces exactly the sleeps `SleepAt` defines, all non-negative. |
| AxisThread.Cleanup | stepper.c:336-351 | The handler marks the axis OFF with nothing remaining, and puts the chip to sleep when the disable succeeds. |
| AxisThread.SetupEndOf | stepper.c:366-467 | The set-up exits before the cleanup handler iff a call before it fails or a product overflows. The resolution check never fails. It reaches the loop iff, in addition, both cancellation calls succeed. |
| AxisThread.Setup | stepper.c:353-467 | An exit before the handler is pushed leaves the record and the other pins as they were. An exit after it runs the handler. Reaching the loop stores the deadline of a finite run or clears `remaining` for an endless one, and the chip is awake. In every case only the driver's own pins change. |
| AxisThread.OverflowExitLeavesCoilsOn | stepper.c:410-429 | The overflow exits leave the axis ON with the chip awake and the thread gone. |
| AxisThread.NoOverflowForAcceptedRates | stepper.c:410-429 | Every rate `stepper_start` accepts gives a period and a first sleep that fit in a 64-bit `long`. |
| AxisThread.SlowestDecPeriodNeeds64Bits | stepper.c:410-415 | The slowest accepted DEC rate, 0.1, stores a 3 550 000 µs delay whose period in ns exceeds 2^31 - 1 but fits in a 64-bit `long`. |
| AxisThread.NegativeRateSleepsNegative | stepper.c:425-429 | A negative accepted rate makes the first sleep negative. |
| AxisThread.Tick | stepper.c:480-491 | At the loop top, a finite run past its stop time ends through the handler. Otherwise `remaining` is refreshed and nothing else changes. |
| AxisThread.Cancel | stepper.c:889-925 | Cancel and join always leave no thread. A looping thread's axis ends OFF with nothing remaining, and asleep when the disable succeeds. An exited or absent thread only has its handle cleared. The driver is kept and only its pins change. |
| AxisThread.CancelMidPulseLeavesStepHigh | a4988.c:209-212 | A cancellation during the pulse-width sleep leaves the step line high. |
| Registry.Stop | stepper.c:889-925 | `stepper_stop` blocks iff the global lock was leaked, and otherwise returns 0. The axis ends with no thread. The other axis and the flags are unchanged. A looping axis ends OFF. Only the stopped axis's driver pins change. |
| Registry.Start | stepper.c:730-882 | A bad axis gives -1 with nothing changed. A zero rate is a stop. For a non-zero rate the call returns 0 iff \|rate\| ≥ 0.1, the lock is free, the axis is OFF, the axis lock, the converter, thread creation and thread naming all succeed. On 0 the axis is ON with a new thread. |
| Registry.GetStatus | stepper.c:932-974 | The INVALID axis gives -1 before the lock. Otherwise the call blocks iff the lock was leaked. It reports running iff the axis is ON, with the stored rate and remaining time, and gives -1 for a record in the INVALID state. |
| Registry.InitState | stepper.c:568-611 | A failed mutex creation changes nothing. Otherwise the state becomes OFF and the driver is wired, and the call returns 0 iff the driver set-up succeeds, leaving the chip asleep. |
| Registry.Initialize | stepper.c:626-670 | The call returns 0 iff this is the first call and every lock and GPIO call succeeds. Then both axes are OFF, wired with the board's pins and asleep. A second call returns -1 with the global lock leaked. |
| Registry.Finalize | stepper.c:677-723 | On an uninitialised registry the call leaks the lock. Otherwise both records are zeroed, no thread remains, and the registry is uninitialised. When every release call succeeds, every pin of both drivers is left an input. |
| Registry.ThreadSetup | stepper.c:353-467 | The set-up of a thread changes only its own axis, and nothing when no thread is waiting to start. |
| Registry.ThreadTick | stepper.c:480-491 | A loop-top pass changes only its own axis, and changes the state only when the thread ends. |
| Registry.StartRejectionsChangeNothing | stepper.c:739-808 | A bad axis, a tiny rate, an axis in use and a failed axis lock all return -1 and change nothing. |
| Registry.ConverterFailureOverwrites | stepper.c:810-833 | A rate beyond 120 fails after the request was stored: the axis stays OFF, but it holds the rejected rate, direction, duration and width. |
| Registry.StartSucceeds | stepper.c:730-882 | A start through every check returns 0 and stores the request and the converter's settings with the whole duration remaining. The other axis is untouched. |
| Registry.CreateFailureWedgesAxis | stepper.c:836-848 | After a thread-creation failure the axis stays ON with no thread. Every later start is refused and a stop cannot turn it OFF. |
| Registry.NamingFailureOutcome | stepper.c:850-861 | After a naming failure the call hangs iff the thread needs the axis lock the caller holds while joining it. Otherwise it returns -1 with the thread joined. The axis is OFF unless the thread left before pushing its handler, in which case it stays ON. |
| Registry.NamingFailureCases | stepper.c:433-491 | For a thread whose set-up reaches its loop, an endless run always hangs the call. A finite run hangs it iff the thread reached its loop top first with its deadline still ahead. Otherwise the call returns -1 with the axis OFF. |
| Registry.StartStopStart | stepper.c:730-925 | After a start and a stop the axis is OFF with no thread, and the same start succeeds again. |
| Registry.EarlyExitLeavesAxisOn | stepper.c:366-429 | A thread that exits before pushing its handler leaves its axis ON, and a stop cannot turn it OFF. |
| Registry.FiniteRunCountsDown | stepper.c:434-491 | A finite run reports between 1 and d ms while at most d ms have passed. After that it ends, and the status reads not running with 0 remaining. |
| Registry.EndlessRunKeepsZero | stepper.c:434-447 | An endless run reports 0 remaining, and its loop top changes nothing. |
| Registry.LeakedLockBlocksEverything | stepper.c:626-723 | A second initialisation, or a finalisation of an uninitialised registry, leaks the global lock, and then every call that takes it blocks. |
| Registry.DecFailureKeepsRa | stepper.c:626-670 | A DEC failure returns -1 with RA set up and the registry still uninitialised. |
| Registry.ConsistentFromBoot | stepper.c:59-73 | At start-up no axis has a live thread while OFF. |
| Registry.Boot | stepper.c:70-73 | The zeroed static registry: not initialised, lock free, no threads, both records zero and OFF, no pin touched. |
| Registry.StartKeepsConsistent | stepper.c:730-882 | `stepper_start` keeps every live thread's axis ON. |
| Registry.StopKeepsConsistent | stepper.c:889-925 | `stepper_stop` keeps every live thread's axis ON. |
| Registry.ThreadStepsKeepConsistent | stepper.c:353-491 | A thread's set-up and loop top keep every live thread's axis ON. |
| Registry.FinalizeKeepsConsistent | stepper.c:677-723 | `stepper_finalize` keeps every live thread's axis ON. |
| Registry.InitializeBreaksConsistency | stepper.c:568-611 | A start before initialisation succeeds. The initialisation then marks the running axis OFF, and a second start runs a second thread on the same axis. |
| PushButtons.TablesWellShaped | main.c:30-65 | There are nine speeds per axis, with the maximum index at the last one. The RA default tracks at 30000 µs in eighth steps. The DEC default rests, and every other speed moves. |
| PushButtons.PbCallback | main.c:207-256 | OFF restores both defaults. UP/DOWN touch only DEC and LEFT/RIGHT only RA, by at most one. Any other pin changes nothing. |
| PushButtons.ButtonsDoWhatTheySay | main.c:207-256 | With distinct buttons, each press moves its index one step in its direction unless that index is at its end. |
| PushButtons.PressesKeepIndicesInRange | main.c:207-256 | Any sequence of presses keeps both indexes inside their tables. |
| PushButtons.SleepAfterPulseMeaning | main.c:154-166 | The sleep is the delay less the time the pass took and 2 ms. It is under-counted by a second per extra second boundary, and it is negative for a zero delay. |
| PushButtons.SleepAfterPulse | main.c:158-166 | The sleep is the `unsigned` product `delay * 1000` less the nanoseconds since `start` and 2 ms. One second is added to `now` when its second is later. |
| PushButtons.Pass | main.c:126-174 | A changed index disables the driver and re-enables it only for a moving speed. A moving speed pulses and then sleeps. A resting one sleeps one second. |
| PushButtons.FirstRun | main.c:123-125 | The first run enables the driver only for a moving speed. |
| PushButtons.OffRestsDec | main.c:207-256 | After OFF, the next DEC pass disables the driver and only sleeps. |
| PinList.Tokens | main.c:333-339 | Every token is non-empty and free of ':'. |
| PinList.TokensOfJoin | main.c:333-339 | Splitting ':'-joined non-empty tokens gives them back. |
| PinList.AtoiItoa | main.c:336 | `atoi` reads back the decimal form of every natural number. |
| PinList.Atoi | main.c:336 | Blank text reads as 0, and only text whose first non-space character is '-' reads as negative. |
| PinList.ParseGroup | main.c:327-346 | A group is valid iff it has exactly five tokens and none reads as -1. Its pins are the tokens' `atoi` values. More than five tokens is its own error. |
| PinList.ParseGroupRoundTrip | main.c:327-346 | Five pins written in decimal and joined with ':' parse back to the same pins. |
| PinList.ParseArgs | main.c:323-346 | Anything but three arguments is a usage error. Otherwise the arguments parse iff all three groups do, in order. |
| PinList.DriverOfGroup | main.c:382-386 | Group positions 0..4 wire direction, step, sleep, MS2 and MS1, as for DEC at main.c:417-421. Pins in `unsigned` range are used as given, and every wired pin is in that range. |
| PinList.DefaultWiring | main.c:4-8 | The documented default arguments parse to the documented pins, and their driver groups wire the drivers as the axis API's pin constants do. |
| Fan.Duty | fan.c:88-103 | Above `high` the duty is the full range. Below `low` it is 0 when `low` ≤ `high`. In between it is `bias` plus the truncated percentage. |
| Fan.Command | fan.c:100-105 | Each pass sends the fan pin at 100 Hz: full duty above `high`, and the cleanup command below `low` when `low` ≤ `high`. |
| Fan.Cleanup | fan.c:45-60 | Cleanup sets the fan pin to duty 0 at 100 Hz. |
| Fan.CleanupStopsFan | fan.c:53 | The cleanup command is the one the loop sends for any reading below `low`. |
| Fan.DutyAtLowIsBias | fan.c:100-102 | At `low` the duty is exactly `bias`. |
| Fan.DutyMonotoneInBand | fan.c:100-102 | Within the band the duty never decreases as the temperature rises, when `bias` ≤ the range. |
| Fan.DutyInRange | fan.c:88-103 | In a band of at most 20 degrees with `bias` in range, every reading gives a duty in [0, 1000000], and at least `bias` from `low` up. |
| Fan.DutyMonotone | fan.c:88-103 | In such a band the whole curve never decreases: off below it, rising through it, full above it. |
| Fan.WideBandOverdrives | fan.c:100-102 | A band wider than 20 degrees gives a duty above the range at `high`. |
| Fan.DutyArithmeticFitsInt | fan.c:100-102 | For bands of up to 429 degrees the intermediate product fits in a C `int`, so the mathematical duty is the one C computes. |

## Left out

- Threads, mutexes and scheduling. Each public call and each visible step of
  an axis thread is one atomic transition. Interleavings inside a call are
  not modelled. The exception is the race a naming failure in
  `stepper_start` loses. Whether the new thread reached its first loop-top
  check before the cancel (`threadAhead`) and the time it read there
  (`firstTick`) are inputs.
- `pthread_cancel` on a handle that was joined or never created is
  undefined behaviour. The model treats it as refused, with nothing
  happening.
- pigpio, `pins.c`, the clocks and `nanosleep`. GPIO outcomes and clock
  readings are inputs. Sleeps are durations.
- `timespec.h` is not part of this model. `timespec_to_ms` is assumed to
  round down and `timespec_from_ms` to be exact.
- The step loop's pulses and sleeps inside the registry transitions. The
  sleep sequence is modelled separately (`StepTiming.Sleeps`), and the
  pulse is `A4988.Step`.
- The function-static `mi` and `m[]` of the step loop (stepper.c:474-475)
  are shared by both axis threads. The model is per axis. The parity and
  the stale stamp a run inherits are parameters.
- The `STEPPER_TRACE` diagnostics, printing and logging.
- Rate.UpdateFromRate: a zero rate is excluded. The C converter would
  convert an infinite quotient, which is undefined, and `stepper_start`
  handles zero as a stop before it is called.
- The older `main.c` calls `a4988_step(driver)` without the width
  argument that `a4988.c` requires. Its pulse is modelled as one `Pulse`
  action.
- `long` is 64 bits throughout (`CArith.LONG_MIN`, `CArith.LONG_MAX`), as on a
  64-bit Raspberry Pi OS. A 32-bit `long` is not modelled. It would change
  three results:
  - AxisThread.NoOverflowForAcceptedRates: fails for DEC rates of magnitude
    from 0.1 to about 0.165. Their period, `(500 + delay) * 1000` ns,
    overflows at stepper.c:410 (`AxisThread.SlowestDecPeriodNeeds64Bits`).
    The thread then exits before pushing its cleanup handler, and the axis
    stays ON for good.
  - A4988.Step: a product of 2^31 or more would be stored in `tv_nsec`
    as a negative value. It would then be floored to 100 µs, not refused
    with a wait of 0. Products from 10^9 up to 2^31 are still refused.
  - PushButtons.SleepAfterPulse: the subtraction would be done in
    `unsigned`.
- The older `main.c` starts the fan thread with a null parameter pointer.
  The fan model takes its parameters as given.
- Reading the temperature from sysfs (`get_temp`). The temperature is an
  input in whole degrees.
- PinList.ParseGroup: more than five tokens write past the five-element row,
  which is undefined in C. The model rejects such a group with its own
  error.
- `atoi` on values outside `int` is undefined and is not bounded here.
- Fan.Duty: computed on unbounded integers. `Fan.DutyArithmeticFitsInt`
  states when this agrees with C's `int` arithmetic.
- The INDI driver, the network server and client, statistics, the OLED
  display, and the test programs.

## Divergences from the documented intent

Each item names the source comment or convention the code departs from.

- Negative rates: the comment at stepper.c:150-153 says the minimum delay
  is 2000 µs, and stepper.h:88-91 makes a negative rate a direction. The
  converter divides by the signed rate, so a negative accepted rate stores
  a negative delay (`Rate.NegativeRateNegativeDelay`). The thread's first
  sleep is then negative and is refused by `nanosleep`. The model keeps the
  code's behaviour.
- Every other early return of `stepper_initialize` unlocks first
  (stepper.c:644-658), but the "already initialised" return at
  stepper.c:633-638 does not. Neither does `stepper_finalize`'s at
  stepper.c:688-693. Both leave the global lock held
  (`Registry.LeakedLockBlocksEverything`).
- `stepper_cleanup` (stepper.c:336-345) is what turns an axis OFF when its
  thread ends. Set-up exits taken before it is pushed at stepper.c:449
  leave the axis ON for good (`Registry.EarlyExitLeavesAxisOn`). So does a
  failed `pthread_create` (stepper.c:836-848,
  `Registry.CreateFailureWedgesAxis`).
- The naming-failure branch at stepper.c:850-861 is written to return -1.
  It cancels and joins the thread while holding the axis lock. When the
  thread needs that lock, the call never returns
  (`Registry.NamingFailureOutcome`, `Registry.NamingFailureCases`).
- The loop's cancellation check is placed at its top (stepper.c:479-480),
  but `nanosleep` inside `a4988_step` is also a cancellation point. A
  cancellation can land inside the pulse and leave the step line high
  (`AxisThread.CancelMidPulseLeavesStepHigh`).
- The `initialized` flag guards `stepper_initialize` and
  `stepper_finalize`, but `stepper_start` does not check it. A later
  `stepper_initialize` then marks both axes OFF even while a thread runs
  (`Registry.InitializeBreaksConsistency`).
- The comment at a4988.c:194-201 treats 100 µs as the shortest pulse. A
  width of 1 000 000 µs or more gives `nanosleep` a nanosecond field of a
  second or more, which it refuses. The pulse is then only as long as the
  two writes (`A4988.PulseLimit`). Every caller in the axis core passes
  500 µs.

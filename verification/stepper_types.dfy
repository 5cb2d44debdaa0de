/**
 * The public vocabulary of the axis API: the axis, its on/off state and the
 * direction of motion, each a C enum whose integer value can be anything at
 * run time, with the name functions used in log messages.
 */
module StepperTypes {
  import opened Common

  /** `enum stepper_state`: INVALID = -1, OFF = 0, ON = 1. */
  datatype State = Invalid | Off | On

  /** `enum stepper_axis` without INVALID: RA = 0, DEC = 1. */
  datatype Axis = RA | DEC

  /** `enum stepper_direction` without INVALID: POSITIVE = 0, NEGATIVE = 1. */
  datatype Direction = Positive | Negative

  function StateCode(s: State): int {
    match s
    case Invalid => -1
    case Off => 0
    case On => 1
  }

  function AxisCode(a: Axis): int {
    match a
    case RA => 0
    case DEC => 1
  }

  /** The axis an integer names, if any: only 0 and 1 do. */
  function AxisOf(c: int): (a: Option<Axis>)
    ensures a.Some? <==> 0 <= c <= 1
    ensures a.Some? ==> AxisCode(a.value) == c
  {
    if c == 0 then Some(RA) else if c == 1 then Some(DEC) else None
  }

  /** `stepper_state_names`: INVALID, OFF and ON have their own names; anything else is "BAD STATE". */
  function StateName(c: int): (s: string)
    ensures s == "BAD STATE" <==> !(-1 <= c <= 1)
    ensures -1 <= c <= 1 ==> "STEPPER_STATE_" <= s
  {
    if c == -1 then "STEPPER_STATE_INVALID"
    else if c == 0 then "STEPPER_STATE_OFF"
    else if c == 1 then "STEPPER_STATE_ON"
    else "BAD STATE"
  }

  /** `stepper_axis_names`: INVALID, RA and DEC have their own names; anything else is "BAD AXIS". */
  function AxisName(c: int): (s: string)
    ensures s == "BAD AXIS" <==> !(-1 <= c <= 1)
    ensures -1 <= c <= 1 ==> "STEPPER_AXIS_" <= s
  {
    if c == -1 then "STEPPER_AXIS_INVALID"
    else if c == 0 then "STEPPER_AXIS_RA"
    else if c == 1 then "STEPPER_AXIS_DEC"
    else "BAD AXIS"
  }

  /** `stepper_direction_names`: INVALID, POSITIVE and NEGATIVE have their own names; anything else is "BAD DIRECTION". */
  function DirectionName(c: int): (s: string)
    ensures s == "BAD DIRECTION" <==> !(-1 <= c <= 1)
    ensures -1 <= c <= 1 ==> "STEPPER_DIRECTION_" <= s
  {
    if c == -1 then "STEPPER_DIRECTION_INVALID"
    else if c == 0 then "STEPPER_DIRECTION_POSITIVE"
    else if c == 1 then "STEPPER_DIRECTION_NEGATIVE"
    else "BAD DIRECTION"
  }

  /** Each name function gives distinct enumerators distinct names. */
  lemma NamesDistinct(c: int, c': int)
    requires -1 <= c <= 1 && -1 <= c' <= 1 && c != c'
    ensures StateName(c) != StateName(c')
    ensures AxisName(c) != AxisName(c')
    ensures DirectionName(c) != DirectionName(c')
  {
  }

  /** The documented sign convention: a positive rate moves in the positive direction, any other in the negative. */
  function DirectionOfRate(rate: real): (d: Direction)
    ensures rate > 0.0 ==> d == Positive
    ensures rate < 0.0 ==> d == Negative
  {
    if rate > 0.0 then Positive else Negative
  }

  /** The documented duration convention: 0 ms means run until stopped. */
  predicate RunsForever(duration: int) {
    duration == 0
  }

  /** The names `stepper_start` gives the axis threads, indexed by the axis value. */
  const ThreadNames: seq<string> := ["pimount.ra", "pimount.dec"]

  /** Every axis value `stepper_start` accepts is a valid index into the thread-name array, and no other value is. */
  lemma ThreadNameIndexSafe(c: int)
    ensures AxisOf(c).Some? <==> 0 <= c < |ThreadNames|
  {
  }
}

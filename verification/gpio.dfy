/**
 * The GPIO layer the driver sits on, reduced to what the driver observes:
 * each pin has a mode and a level, and every call either succeeds or fails.
 * Whether a call fails is not decided here: the caller passes it in, so a
 * proof covers every combination of failures. A failed call changes nothing.
 */
module Gpio {

  datatype Mode = Input | Output

  /** A logic level: 0 (low) or 1 (high). */
  type Level = x: int | 0 <= x <= 1

  datatype Pin = Pin(mode: Mode, level: Level)

  /** The board's pins, by BCM number; a pin absent from the map was never touched. */
  type Pins = map<nat, Pin>

  /** What an untouched pin reads as. */
  const Untouched: Pin := Pin(Input, 0)

  function At(g: Pins, p: nat): Pin {
    if p in g then g[p] else Untouched
  }

  /** `pins_set_mode(p, m)`: changes the mode of `p` only, and only if the call succeeds. */
  function SetMode(g: Pins, p: nat, m: Mode, ok: bool): (g': Pins)
    ensures At(g', p) == (if ok then Pin(m, At(g, p).level) else At(g, p))
    ensures forall q: nat :: q != p ==> At(g', q) == At(g, q)
  {
    if ok then g[p := Pin(m, At(g, p).level)] else g
  }

  /** `pins_gpio_write(p, v)`: changes the level of `p` only, and only if the call succeeds. */
  function Write(g: Pins, p: nat, v: Level, ok: bool): (g': Pins)
    ensures At(g', p) == (if ok then Pin(At(g, p).mode, v) else At(g, p))
    ensures forall q: nat :: q != p ==> At(g', q) == At(g, q)
  {
    if ok then g[p := Pin(At(g, p).mode, v)] else g
  }

  /** Writing a level a pin already has changes nothing that can be observed. */
  lemma WriteSameLevel(g: Pins, p: nat, ok: bool)
    ensures forall q: nat :: At(Write(g, p, At(g, p).level, ok), q) == At(g, q)
  {
  }
}

/**
 * Values shared by all the demos: the level of a GPIO output pin
 * (gpio_util's `PinState`), the byte an analog-to-digital channel of the
 * PCF8591 converter reads, and an optional value.
 */
module Gpio {

  /** The level written to an output pin, or read from an input pin. */
  datatype PinState = Low | High

  /** One analog reading: an unsigned byte, 0 to 255. */
  type Byte = x: int | 0 <= x < 256

  /** The pin level that switches an output on (High) or off (Low). */
  function LevelOf(on: bool): (level: PinState)
  {
    if on then High else Low
  }

  datatype Option<T> = None | Some(value: T)
}

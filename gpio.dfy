/** The part of the RPi.GPIO library the greenhouse relies on: the logic level
    of each numbered output pin (BCM numbering). Nothing but `Output` changes it. */
module Gpio {

  /** The board's output pins and their current levels; a pin never driven has no entry. */
  class Board {
    var levels: map<int, bool>

    /** `GPIO.output(pin, level)`: drives one pin to a level and touches no other pin. */
    method Output(pin: int, level: bool)
      modifies this
      ensures levels == old(levels)[pin := level]
    {
      levels := levels[pin := level];
    }
  }
}

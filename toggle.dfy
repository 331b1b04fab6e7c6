/**
 * A flag that a completed button press flips: `laser_is_on` in
 * button-control-laser and `open_gate` in sg90-motor-with-pwm.
 */
module Toggle {

  /** The flag after `presses` presses, starting from `b`. */
  function Toggled(b: bool, presses: nat): (flag: bool)
  {
    if presses == 0 then b else !Toggled(b, presses - 1)
  }

  /** After n presses the flag has flipped exactly when n is odd. */
  lemma {:induction false} ToggledParity(b: bool, presses: nat)
    ensures Toggled(b, presses) == (b != (presses % 2 == 1))
  {
    if presses > 0 {
      ToggledParity(b, presses - 1);
    }
  }
}

/**
 * The button-controlled laser demo (button-control-laser): every
 * completed press flips `laser_is_on` and drives the laser pin to match.
 */
module ButtonLaser {
  import opened Gpio
  import opened Toggle

  /**
   * The program over `presses` completed presses. `written` is every level
   * the laser pin is driven to, the reset to Low before the loop first.
   */
  method Run(presses: nat) returns (laserIsOn: bool, laserSignal: PinState, written: seq<PinState>)
    ensures laserIsOn == (presses % 2 == 1)
    ensures laserSignal == LevelOf(laserIsOn)
    ensures |written| == presses + 1 && written[0] == Low
    ensures forall k :: 1 <= k <= presses ==> written[k] == (if k % 2 == 1 then High else Low)
  {
    laserSignal := Low;
    written := [laserSignal];
    laserIsOn := false;
    var pressed := 0;
    while pressed < presses
      invariant 0 <= pressed <= presses
      invariant laserIsOn == Toggled(false, pressed)
      invariant laserSignal == LevelOf(laserIsOn)
      invariant |written| == pressed + 1 && written[0] == Low
      invariant forall k :: 1 <= k <= pressed ==> written[k] == LevelOf(Toggled(false, k))
    {
      laserIsOn := !laserIsOn;
      var newPinState := if laserIsOn then High else Low;
      laserSignal := newPinState;
      written := written + [laserSignal];
      pressed := pressed + 1;
    }
    ToggledParity(false, presses);
    forall k | 1 <= k <= presses
      ensures written[k] == (if k % 2 == 1 then High else Low)
    {
      ToggledParity(false, k);
    }
  }

  /** Two more presses restore both the flag and the pin level. */
  lemma TwoPressesRestore(presses: nat)
    ensures Toggled(false, presses + 2) == Toggled(false, presses)
    ensures LevelOf(Toggled(false, presses + 2)) == LevelOf(Toggled(false, presses))
  {
  }
}

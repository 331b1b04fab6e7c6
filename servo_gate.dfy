/**
 * The servo gate demo (sg90-motor-with-pwm): after the motor is set to
 * its initial position, every completed press rotates the servo to the
 * positive position or back to the initial one, alternately.
 */
module ServoGate {
  import opened Toggle

  /** The rotations the loop asks of the SG90 motor. */
  datatype RotateCommand = RotateToPositive | RotateToInit

  /** The command one press issues, given `open_gate` before the press. */
  function CommandFor(openGate: bool): (cmd: RotateCommand)
  {
    if !openGate then RotateToPositive else RotateToInit
  }

  /** The commands of the first `presses` presses, with `open_gate` starting false. */
  function Commands(presses: nat): (cs: seq<RotateCommand>)
    ensures |cs| == presses
  {
    if presses == 0 then [] else Commands(presses - 1) + [CommandFor(Toggled(false, presses - 1))]
  }

  /**
   * The program, given whether setting the motor to its initial position
   * succeeded and how many presses follow. When it fails the program
   * returns at once: no button pin, no loop, no command.
   */
  method Run(motorReady: bool, presses: nat)
    returns (exitedEarly: bool, buttonPinCreated: bool, openGate: bool, issued: seq<RotateCommand>)
    ensures exitedEarly <==> !motorReady
    ensures buttonPinCreated <==> !exitedEarly
    ensures exitedEarly ==> issued == [] && !openGate
    ensures !exitedEarly ==> issued == Commands(presses) && openGate == (presses % 2 == 1)
  {
    exitedEarly, buttonPinCreated, openGate, issued := false, false, false, [];
    if !motorReady {
      exitedEarly := true;
      return;
    }
    buttonPinCreated := true;
    var pressed := 0;
    while pressed < presses
      invariant 0 <= pressed <= presses
      invariant openGate == Toggled(false, pressed)
      invariant issued == Commands(pressed)
    {
      if !openGate {
        issued := issued + [RotateToPositive];
      } else {
        issued := issued + [RotateToInit];
      }
      openGate := !openGate;
      pressed := pressed + 1;
    }
    ToggledParity(false, presses);
  }

  /** The k-th press (counting from 1) rotates to the positive position exactly when k is odd. */
  lemma CommandsAlternate(presses: nat, k: nat)
    requires 1 <= k <= presses
    ensures Commands(presses)[k - 1] == (if k % 2 == 1 then RotateToPositive else RotateToInit)
  {
    CommandAt(presses, k - 1);
    ToggledParity(false, k - 1);
  }

  lemma {:induction false} CommandAt(presses: nat, i: nat)
    requires i < presses
    ensures Commands(presses)[i] == CommandFor(Toggled(false, i))
    decreases presses
  {
    if i < presses - 1 {
      CommandAt(presses - 1, i);
    }
  }
}

/**
 * The PS2 joystick demo (ps2-joystick-with-8591): each iteration reads
 * the two axes and the switch through the analog converter, builds a
 * status text from the extreme readings and reports it when it is not
 * empty.
 */
module Joystick {
  import opened Gpio

  /** The x axis at its ends: 0 is "Left,", 255 is "Right,", anything else adds nothing. */
  function HorizontalPart(x: Byte): (part: string)
  {
    if x == 0 then "Left," else if x == 255 then "Right," else ""
  }

  /** The y axis at its ends: 0 is "Up,", 255 is "Down,", anything else adds nothing. */
  function VerticalPart(y: Byte): (part: string)
  {
    if y == 0 then "Up," else if y == 255 then "Down," else ""
  }

  /** The switch channel reads 0 while the stick is pressed down. */
  function ButtonPart(z: Byte): (part: string)
  {
    if z == 0 then "Button pressed" else ""
  }

  /** The status text of one iteration: x part, then y part, then z part. */
  function Status(x: Byte, y: Byte, z: Byte): (status: string)
  {
    HorizontalPart(x) + VerticalPart(y) + ButtonPart(z)
  }

  /** The direction of one iteration's reading, independent of its text. */
  datatype Horizontal = Left | Right | CentreX
  datatype Vertical = Up | Down | CentreY
  datatype Stick = Stick(horizontal: Horizontal, vertical: Vertical, pressed: bool)

  /** Which end the x axis is at, if any. */
  function HorizontalOf(x: Byte): (h: Horizontal)
  {
    if x == 0 then Left else if x == 255 then Right else CentreX
  }

  /** Which end the y axis is at, if any. */
  function VerticalOf(y: Byte): (v: Vertical)
  {
    if y == 0 then Up else if y == 255 then Down else CentreY
  }

  function Classify(x: Byte, y: Byte, z: Byte): (stick: Stick)
  {
    Stick(HorizontalOf(x), VerticalOf(y), z == 0)
  }

  predicate StartsWith(s: string, p: string)
  {
    |p| <= |s| && s[..|p|] == p
  }

  /** Reads the x part off the front of a status text. */
  function TakeHorizontal(s: string): (r: (Horizontal, string))
  {
    if StartsWith(s, "Left,") then (Left, s[5..])
    else if StartsWith(s, "Right,") then (Right, s[6..])
    else (CentreX, s)
  }

  /** Reads the y part off the front of what the x part left. */
  function TakeVertical(s: string): (r: (Vertical, string))
  {
    if StartsWith(s, "Up,") then (Up, s[3..])
    else if StartsWith(s, "Down,") then (Down, s[5..])
    else (CentreY, s)
  }

  /** Reads the z part: all that may be left. */
  function TakeButton(s: string): (pressed: Option<bool>)
  {
    if s == "Button pressed" then Some(true)
    else if s == "" then Some(false)
    else None
  }

  /** Reads a status text back into the reading it describes. */
  function Parse(s: string): (stick: Option<Stick>)
  {
    var (h, s1) := TakeHorizontal(s);
    var (v, s2) := TakeVertical(s1);
    match TakeButton(s2)
    case Some(pressed) => Some(Stick(h, v, pressed))
    case None => None
  }

  /** One iteration's text, built the way the loop builds it. */
  method BuildStatus(x: Byte, y: Byte, z: Byte) returns (status: string)
    ensures status == HorizontalPart(x) + VerticalPart(y) + ButtonPart(z)
    ensures Parse(status) == Some(Classify(x, y, z))
  {
    status := "";
    if x == 0 { status := status + "Left,"; }
    else if x == 255 { status := status + "Right,"; }
    assert status == HorizontalPart(x);

    if y == 0 { status := status + "Up,"; }
    else if y == 255 { status := status + "Down,"; }
    assert status == HorizontalPart(x) + VerticalPart(y);

    if z == 0 { status := status + "Button pressed"; }

    ParseStatus(x, y, z);
  }

  /** One iteration: the status line is reported only when it is not empty. */
  method Iteration(x: Byte, y: Byte, z: Byte) returns (report: Option<string>)
    ensures report.Some? <==> (x == 0 || x == 255 || y == 0 || y == 255 || z == 0)
    ensures report.Some? ==> report.value == Status(x, y, z) && report.value != ""
  {
    var status := BuildStatus(x, y, z);
    if |status| > 0 {
      report := Some(status);
    } else {
      report := None;
    }
    StatusEmptyIff(x, y, z);
  }

  /** The status text is empty exactly when no axis is at an end and the switch is up. */
  lemma StatusEmptyIff(x: Byte, y: Byte, z: Byte)
    ensures Status(x, y, z) == "" <==> (0 < x < 255 && 0 < y < 255 && z != 0)
  {
  }

  lemma Split(a: string, b: string)
    ensures (a + b)[..|a|] == a && (a + b)[|a|..] == b
  {
  }

  lemma TakeButtonPart(z: Byte)
    ensures TakeButton(ButtonPart(z)) == Some(z == 0)
  {
  }

  lemma TakeVerticalPart(y: Byte, rest: string)
    requires rest == "" || rest == "Button pressed"
    ensures TakeVertical(VerticalPart(y) + rest) == (VerticalOf(y), rest)
  {
    var s := VerticalPart(y) + rest;
    Split(VerticalPart(y), rest);
    if y == 0 {
      assert |VerticalPart(y)| == 3 && StartsWith(s, "Up,");
    } else if y == 255 {
      assert |VerticalPart(y)| == 5 && s[0] == 'D' && StartsWith(s, "Down,");
      assert !StartsWith(s, "Up,") by { assert "Up,"[0] == 'U'; }
    } else {
      assert s == rest;
      assert !StartsWith(rest, "Up,") && !StartsWith(rest, "Down,") by {
        if rest != "" { assert rest[0] == 'B'; }
      }
    }
  }

  lemma TakeHorizontalPart(x: Byte, rest: string)
    requires rest == "" || rest[0] == 'U' || rest[0] == 'D' || rest[0] == 'B'
    ensures TakeHorizontal(HorizontalPart(x) + rest) == (HorizontalOf(x), rest)
  {
    var s := HorizontalPart(x) + rest;
    Split(HorizontalPart(x), rest);
    if x == 0 {
      assert |HorizontalPart(x)| == 5 && StartsWith(s, "Left,");
    } else if x == 255 {
      assert |HorizontalPart(x)| == 6 && s[0] == 'R' && StartsWith(s, "Right,");
      assert !StartsWith(s, "Left,") by { assert "Left,"[0] == 'L'; }
    } else {
      assert s == rest;
      assert !StartsWith(rest, "Left,") && !StartsWith(rest, "Right,") by {
        if rest != "" { assert rest[0] != 'L' && rest[0] != 'R'; }
      }
    }
  }

  /**
   * The status text says exactly which ends the axes are at and whether
   * the switch is pressed; in particular "Left," and "Right," (or "Up," and
   * "Down,") never appear together.
   */
  lemma ParseStatus(x: Byte, y: Byte, z: Byte)
    ensures Parse(Status(x, y, z)) == Some(Classify(x, y, z))
  {
    var h, v, b := HorizontalPart(x), VerticalPart(y), ButtonPart(z);
    assert h + v + b == h + (v + b);
    TakeButtonPart(z);
    TakeVerticalPart(y, b);
    assert v + b == "" || (v + b)[0] == 'U' || (v + b)[0] == 'D' || (v + b)[0] == 'B';
    TakeHorizontalPart(x, v + b);
  }

  /** Two readings with the same status text have the same classification. */
  lemma StatusDeterminesReading(x: Byte, y: Byte, z: Byte, x': Byte, y': Byte, z': Byte)
    ensures Status(x, y, z) == Status(x', y', z') <==> Classify(x, y, z) == Classify(x', y', z')
  {
    if Classify(x, y, z) == Classify(x', y', z') {
      assert HorizontalPart(x) == HorizontalPart(x') by {
        assert (x == 0 <==> x' == 0) && (x == 255 <==> x' == 255);
      }
      assert VerticalPart(y) == VerticalPart(y') by {
        assert (y == 0 <==> y' == 0) && (y == 255 <==> y' == 255);
      }
      assert ButtonPart(z) == ButtonPart(z');
    } else {
      ParseStatus(x, y, z);
      ParseStatus(x', y', z');
    }
  }
}

/**
 * The per-frame button latch for the LeVR joystick, the LeVR Cool Pro
 * and the Moga Pro HID gamepad (LVRInputMap). When the controller is in
 * use, each frame copies the axes, records whether the right mouse
 * button went down, and runs a priority chain over eight keys: the first
 * key that went down this frame sets its button flags, and a frame in
 * which none of them went down clears every button flag.
 *
 * What Unity's Input class reports for the frame is a `Frame` parameter;
 * the console logging of the current event is not modelled. The bool
 * button fields of each struct are held as the set of those that are true.
 */
module InputMap {
  import opened Wrappers

  /** The keys the chain tests, in the order it tests them (KeyCode members). */
  datatype KeyCode =
    | JoystickButton0 | JoystickButton1 | Escape | JoystickButton4
    | JoystickButton5 | JoystickButton2 | JoystickButton3 | JoystickButton10

  /** The chain's order of precedence. */
  const ChainOrder: seq<KeyCode> :=
    [JoystickButton0, JoystickButton1, Escape, JoystickButton4, JoystickButton5, JoystickButton2, JoystickButton3, JoystickButton10]

  /**
   * One frame of Unity input: axes by name, "went down this frame" per key
   * and per mouse button. `isAxis` holds for the axes set up in the Input
   * Manager; Input.GetAxis throws ArgumentException for any other name.
   */
  datatype Frame = Frame(axis: string -> real, keyDown: KeyCode -> bool, mouseButtonDown: int -> bool,
                         isAxis: string -> bool)

  /** The axes Update reads, in the order it reads them. */
  const AxisReads: seq<string> :=
    ["Horizontal", "Vertical", "Horizontal", "Vertical", "RightHorizontal", "RightVertical", "Dpad X", "Dpad Y"]

  /** Input.GetAxis(name): None where it throws. */
  function ReadAxis(frame: Frame, name: string): (r: Option<real>)
    ensures r.Some? <==> frame.isAxis(name)
    ensures r.Some? ==> r.value == frame.axis(name)
  {
    if frame.isAxis(name) then Some(frame.axis(name)) else None
  }

  /** How many of Update's axis reads succeed before the first one throws (all eight when none does). */
  function AxesRead(frame: Frame): (j: nat)
    ensures j <= |AxisReads|
    ensures forall i :: 0 <= i < j ==> frame.isAxis(AxisReads[i])
    ensures j < |AxisReads| ==> !frame.isAxis(AxisReads[j])
  {
    if !frame.isAxis("Horizontal") then 0
    else if !frame.isAxis("Vertical") then 1
    else if !frame.isAxis("RightHorizontal") then 4
    else if !frame.isAxis("RightVertical") then 5
    else if !frame.isAxis("Dpad X") then 6
    else if !frame.isAxis("Dpad Y") then 7
    else 8
  }

  /** The bool button fields of LeVRKeyCode (KEYCODE_BUTTON_A, _B, _R1 and KEYCODE_BACK). */
  datatype LeVRButton = ButtonA | ButtonB | ButtonR1 | Back

  /** The LeVRKeyCode struct: `buttons` holds the button fields that are true. */
  datatype LeVRKeyCode = LeVRKeyCode(buttons: set<LeVRButton>, axisX: real, axisY: real)

  /** The LeVRCoolProKeyCode struct. */
  datatype CoolProKeyCode = CoolProKeyCode(secondary: bool)

  /** The bool button fields of MogaHIDKeyCode. */
  datatype MogaButton =
    | MogaA | MogaB | MogaX | MogaY | MogaR1 | MogaR2 | MogaL1 | MogaL2 | MogaStart | MogaSelect

  /** The MogaHIDKeyCode struct: `buttons` holds the button fields that are true. */
  datatype MogaHIDKeyCode = MogaHIDKeyCode(
    buttons: set<MogaButton>,
    axisX: real, axisY: real, rightAxisX: real, rightAxisY: real, dpadX: real, dpadY: real)

  /** The LeVRKeyCode fields each branch of the chain sets to true. */
  function LeVRSetBy(key: KeyCode): set<LeVRButton>
  {
    match key
    case JoystickButton0 => {ButtonA}
    case JoystickButton1 => {ButtonB}
    case Escape => {Back}
    case JoystickButton5 => {ButtonR1}
    case _ => {}
  }

  /** The MogaHIDKeyCode fields each branch of the chain sets to true. */
  function MogaSetBy(key: KeyCode): set<MogaButton>
  {
    match key
    case JoystickButton0 => {MogaA}
    case JoystickButton1 => {MogaB}
    case Escape => {MogaSelect}
    case JoystickButton4 => {MogaL1}
    case JoystickButton5 => {MogaR1}
    case JoystickButton2 => {MogaX}
    case JoystickButton3 => {MogaY}
    case JoystickButton10 => {MogaStart}
  }

  /** The branch the if / else-if chain takes: the key whose test succeeds first, or None for the final else. */
  function Winner(keyDown: KeyCode -> bool): Option<KeyCode>
  {
    if keyDown(JoystickButton0) then Some(JoystickButton0)
    else if keyDown(JoystickButton1) then Some(JoystickButton1)
    else if keyDown(Escape) then Some(Escape)
    else if keyDown(JoystickButton4) then Some(JoystickButton4)
    else if keyDown(JoystickButton5) then Some(JoystickButton5)
    else if keyDown(JoystickButton2) then Some(JoystickButton2)
    else if keyDown(JoystickButton3) then Some(JoystickButton3)
    else if keyDown(JoystickButton10) then Some(JoystickButton10)
    else None
  }

  /** The position of the first key of `keys` that went down (|keys| when none did). */
  function FirstDownIndex(keys: seq<KeyCode>, keyDown: KeyCode -> bool): (i: nat)
    ensures i <= |keys|
    ensures forall j :: 0 <= j < i ==> !keyDown(keys[j])
    ensures i < |keys| ==> keyDown(keys[i])
  {
    if keys == [] then 0
    else if keyDown(keys[0]) then 0
    else 1 + FirstDownIndex(keys[1..], keyDown)
  }

  /** The chain takes the branch of the first key, in precedence order, that went down; the else branch exactly when none did. */
  lemma WinnerIsFirstDown(keyDown: KeyCode -> bool)
    ensures var i := FirstDownIndex(ChainOrder, keyDown);
      Winner(keyDown) == if i < |ChainOrder| then Some(ChainOrder[i]) else None
    ensures Winner(keyDown).None? <==> forall k :: !keyDown(k)
  {
    var i := FirstDownIndex(ChainOrder, keyDown);
    assert Winner(keyDown) == if i < |ChainOrder| then Some(ChainOrder[i]) else None by {
      var c := ChainOrder;
      assert |c| == 8 && c[0] == JoystickButton0 && c[1] == JoystickButton1 && c[2] == Escape && c[3] == JoystickButton4;
      assert c[4] == JoystickButton5 && c[5] == JoystickButton2 && c[6] == JoystickButton3 && c[7] == JoystickButton10;
      if i == 0 {} else if i == 1 {} else if i == 2 {} else if i == 3 {}
      else if i == 4 {} else if i == 5 {} else if i == 6 {} else if i == 7 {}
    }
    if i == |ChainOrder| {
      forall k
        ensures !keyDown(k)
      {
        var j := match k
          case JoystickButton0 => 0 case JoystickButton1 => 1 case Escape => 2 case JoystickButton4 => 3
          case JoystickButton5 => 4 case JoystickButton2 => 5 case JoystickButton3 => 6 case JoystickButton10 => 7;
        assert ChainOrder[j] == k;
      }
    }
  }

  /** The LeVRKeyCode button fields after the chain: the winner's fields are set, the else branch clears all four. */
  function LeVRButtons(b: set<LeVRButton>, w: Option<KeyCode>): set<LeVRButton>
  {
    match w
    case None => {}
    case Some(key) => b + LeVRSetBy(key)
  }

  /** The MogaHIDKeyCode button fields after the chain: the winner's field is set, the else branch clears all ten. */
  function MogaButtons(b: set<MogaButton>, w: Option<KeyCode>): set<MogaButton>
  {
    match w
    case None => {}
    case Some(key) => b + MogaSetBy(key)
  }

  /** The LeVRKeyCode after one frame with the controller in use. */
  function LeVRNext(k: LeVRKeyCode, frame: Frame): LeVRKeyCode
  {
    LeVRKeyCode(LeVRButtons(k.buttons, Winner(frame.keyDown)), frame.axis("Horizontal"), frame.axis("Vertical"))
  }

  /**
   * The axis fields after the first `j` axis writes of Update (LeVR X and
   * Y, then the Moga X, Y, right X, right Y, D-pad X and D-pad Y); the
   * later fields keep their old values.
   */
  function AxesAfter(k: LeVRKeyCode, m: MogaHIDKeyCode, frame: Frame, j: nat): (LeVRKeyCode, MogaHIDKeyCode)
  {
    (k.(axisX := if 0 < j then frame.axis("Horizontal") else k.axisX,
        axisY := if 1 < j then frame.axis("Vertical") else k.axisY),
     m.(axisX := if 2 < j then frame.axis("Horizontal") else m.axisX,
        axisY := if 3 < j then frame.axis("Vertical") else m.axisY,
        rightAxisX := if 4 < j then frame.axis("RightHorizontal") else m.rightAxisX,
        rightAxisY := if 5 < j then frame.axis("RightVertical") else m.rightAxisY,
        dpadX := if 6 < j then frame.axis("Dpad X") else m.dpadX,
        dpadY := if 7 < j then frame.axis("Dpad Y") else m.dpadY))
  }

  /** The MogaHIDKeyCode after one frame with the controller in use. */
  function MogaNext(m: MogaHIDKeyCode, frame: Frame): MogaHIDKeyCode
  {
    MogaHIDKeyCode(MogaButtons(m.buttons, Winner(frame.keyDown)),
                   frame.axis("Horizontal"), frame.axis("Vertical"), frame.axis("RightHorizontal"),
                   frame.axis("RightVertical"), frame.axis("Dpad X"), frame.axis("Dpad Y"))
  }

  /**
   * The flags latch: a frame in which some chain key went down keeps every
   * flag already set and adds exactly the first such key's flags; a frame
   * in which none did clears every flag.
   */
  lemma {:induction false} Latch(k: LeVRKeyCode, m: MogaHIDKeyCode, frame: Frame)
    ensures (exists key :: frame.keyDown(key)) ==>
      var i := FirstDownIndex(ChainOrder, frame.keyDown);
      i < |ChainOrder| &&
      LeVRNext(k, frame).buttons == k.buttons + LeVRSetBy(ChainOrder[i]) &&
      MogaNext(m, frame).buttons == m.buttons + MogaSetBy(ChainOrder[i])
    ensures (forall key :: !frame.keyDown(key)) ==>
      LeVRNext(k, frame).buttons == {} && MogaNext(m, frame).buttons == {}
  {
    WinnerIsFirstDown(frame.keyDown);
  }

  /** Every branch sets at most one LeVRKeyCode field and exactly one MogaHIDKeyCode field. */
  lemma BranchSetsOne(key: KeyCode)
    ensures |LeVRSetBy(key)| <= 1
    ensures |MogaSetBy(key)| == 1
  {
    match key
    case JoystickButton0 =>
    case JoystickButton1 =>
    case Escape =>
    case JoystickButton4 =>
    case JoystickButton5 =>
    case JoystickButton2 =>
    case JoystickButton3 =>
    case JoystickButton10 =>
  }

  /** No branch sets R2 or L2, so they are true after a frame only if they were before it. */
  lemma TriggersNeverSet(b: set<MogaButton>, w: Option<KeyCode>)
    ensures MogaR2 in MogaButtons(b, w) ==> MogaR2 in b
    ensures MogaL2 in MogaButtons(b, w) ==> MogaL2 in b
  {
    match w
    case None =>
    case Some(key) =>
      match key
      case JoystickButton0 =>
      case JoystickButton1 =>
      case Escape =>
      case JoystickButton4 =>
      case JoystickButton5 =>
      case JoystickButton2 =>
      case JoystickButton3 =>
      case JoystickButton10 =>
  }

  /** A branch sets a LeVRKeyCode field exactly when it sets the matching MogaHIDKeyCode field. */
  lemma LeVRFollowsMoga(key: KeyCode)
    ensures ButtonA in LeVRSetBy(key) <==> MogaA in MogaSetBy(key)
    ensures ButtonB in LeVRSetBy(key) <==> MogaB in MogaSetBy(key)
    ensures Back in LeVRSetBy(key) <==> MogaSelect in MogaSetBy(key)
    ensures ButtonR1 in LeVRSetBy(key) <==> MogaR1 in MogaSetBy(key)
  {
    match key
    case JoystickButton0 =>
    case JoystickButton1 =>
    case Escape =>
    case JoystickButton4 =>
    case JoystickButton5 =>
    case JoystickButton2 =>
    case JoystickButton3 =>
    case JoystickButton10 =>
  }

  /** The Update method's component and the static structs it writes. */
  class LVRInputMap {
    var useController: bool
    var keyCodes: LeVRKeyCode
    var keyCodesPro: CoolProKeyCode
    var keyCodeMogaHID: MogaHIDKeyCode

    /**
     * Update: nothing when the controller is not in use; otherwise the
     * axes are copied, SECONDARY records the right mouse button, and the
     * chain's winner sets its flags (or the else branch clears them). An
     * axis that is not set up throws (`ok` is false): the axes read before
     * it are written, and SECONDARY and the flags are left alone.
     */
    method Update(frame: Frame) returns (ok: bool)
      modifies this`keyCodes, this`keyCodesPro, this`keyCodeMogaHID
      ensures !useController ==>
        ok && keyCodes == old(keyCodes) && keyCodesPro == old(keyCodesPro) && keyCodeMogaHID == old(keyCodeMogaHID)
      ensures useController ==> (ok <==> AxesRead(frame) == |AxisReads|)
      ensures useController && ok ==> keyCodesPro.secondary == frame.mouseButtonDown(1)
      ensures useController && ok ==> keyCodes == LeVRNext(old(keyCodes), frame)
      ensures useController && ok ==> keyCodeMogaHID == MogaNext(old(keyCodeMogaHID), frame)
      ensures useController && !ok ==>
        (keyCodes, keyCodeMogaHID) == AxesAfter(old(keyCodes), old(keyCodeMogaHID), frame, AxesRead(frame))
        && keyCodesPro == old(keyCodesPro)
    {
      ok := true;
      if useController {
        ok := false;
        var v := ReadAxis(frame, "Horizontal");
        if v.None? { return; }
        keyCodes := keyCodes.(axisX := v.value);
        v := ReadAxis(frame, "Vertical");
        if v.None? { return; }
        keyCodes := keyCodes.(axisY := v.value);

        v := ReadAxis(frame, "Horizontal");
        keyCodeMogaHID := keyCodeMogaHID.(axisX := v.value);
        v := ReadAxis(frame, "Vertical");
        keyCodeMogaHID := keyCodeMogaHID.(axisY := v.value);
        v := ReadAxis(frame, "RightHorizontal");
        if v.None? { return; }
        keyCodeMogaHID := keyCodeMogaHID.(rightAxisX := v.value);
        v := ReadAxis(frame, "RightVertical");
        if v.None? { return; }
        keyCodeMogaHID := keyCodeMogaHID.(rightAxisY := v.value);
        v := ReadAxis(frame, "Dpad X");
        if v.None? { return; }
        keyCodeMogaHID := keyCodeMogaHID.(dpadX := v.value);
        v := ReadAxis(frame, "Dpad Y");
        if v.None? { return; }
        keyCodeMogaHID := keyCodeMogaHID.(dpadY := v.value);
        assert keyCodes == LeVRNext(old(keyCodes), frame).(buttons := old(keyCodes).buttons);
        assert keyCodeMogaHID == MogaNext(old(keyCodeMogaHID), frame).(buttons := old(keyCodeMogaHID).buttons);

        keyCodesPro := keyCodesPro.(secondary := frame.mouseButtonDown(1));

        RunChain(frame);
        ok := true;
      }
    }

    /** The if / else-if chain over the keys that went down this frame. */
    method RunChain(frame: Frame)
      modifies this`keyCodes, this`keyCodeMogaHID
      ensures keyCodes == old(keyCodes).(buttons := LeVRButtons(old(keyCodes).buttons, Winner(frame.keyDown)))
      ensures keyCodeMogaHID == old(keyCodeMogaHID).(buttons := MogaButtons(old(keyCodeMogaHID).buttons, Winner(frame.keyDown)))
    {
      if frame.keyDown(JoystickButton0) {
        keyCodes := keyCodes.(buttons := keyCodes.buttons + {ButtonA});
        keyCodeMogaHID := keyCodeMogaHID.(buttons := keyCodeMogaHID.buttons + {MogaA});
      } else if frame.keyDown(JoystickButton1) {
        keyCodes := keyCodes.(buttons := keyCodes.buttons + {ButtonB});
        keyCodeMogaHID := keyCodeMogaHID.(buttons := keyCodeMogaHID.buttons + {MogaB});
      } else if frame.keyDown(Escape) {
        keyCodes := keyCodes.(buttons := keyCodes.buttons + {Back});
        keyCodeMogaHID := keyCodeMogaHID.(buttons := keyCodeMogaHID.buttons + {MogaSelect});
      } else if frame.keyDown(JoystickButton4) {
        keyCodeMogaHID := keyCodeMogaHID.(buttons := keyCodeMogaHID.buttons + {MogaL1});
      } else if frame.keyDown(JoystickButton5) {
        keyCodes := keyCodes.(buttons := keyCodes.buttons + {ButtonR1});
        keyCodeMogaHID := keyCodeMogaHID.(buttons := keyCodeMogaHID.buttons + {MogaR1});
      } else if frame.keyDown(JoystickButton2) {
        keyCodeMogaHID := keyCodeMogaHID.(buttons := keyCodeMogaHID.buttons + {MogaX});
      } else if frame.keyDown(JoystickButton3) {
        keyCodeMogaHID := keyCodeMogaHID.(buttons := keyCodeMogaHID.buttons + {MogaY});
      } else if frame.keyDown(JoystickButton10) {
        keyCodeMogaHID := keyCodeMogaHID.(buttons := keyCodeMogaHID.buttons + {MogaStart});
      } else {
        keyCodes := keyCodes.(buttons := {});
        keyCodeMogaHID := keyCodeMogaHID.(buttons := {});
      }
    }
  }
}

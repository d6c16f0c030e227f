/**
 * LVRDebugGraph: a toggle button cycles the time-warp performance graph
 * through off, running and frozen. The toggle button is an index into
 * LVRGamepadController's button-name table, which is a parameter of
 * Update together with Unity's button readings (None for a button name
 * the Input Manager does not define, where Input.GetButtonDown throws); the native
 * OVR_TW_SetDebugMode call, made only in the Android device build, is an
 * entry appended to a log.
 */
module DebugGraph {

  import opened Wrappers

  /**
   * The DebugPerfMode values the switch handles, and any other value the
   * enum field may hold (the switch has no default case).
   */
  datatype DebugPerfMode = PerfOff | PerfRunning | PerfFrozen | OtherMode(value: int)

  /** The native calls the component makes; every one passes DEBUG_VALUE_DRAW. */
  datatype NativeCall = SetDebugMode(mode: DebugPerfMode)

  /** The switch on a toggle press: off, running, frozen, off; any other value stays. */
  function Next(m: DebugPerfMode): DebugPerfMode
  {
    match m
    case PerfOff => PerfRunning
    case PerfRunning => PerfFrozen
    case PerfFrozen => PerfOff
    case OtherMode(_) => m
  }

  /** The mode after `n` presses. */
  function Presses(m: DebugPerfMode, n: nat): DebugPerfMode
  {
    if n == 0 then m else Next(Presses(m, n - 1))
  }

  /** Each of the three handled modes moves to a different one on a press. */
  lemma PressMoves(m: DebugPerfMode)
    ensures Next(m) == m <==> m.OtherMode?
    ensures !m.OtherMode? ==> Next(Next(m)) != m
  {
  }

  /** Three presses bring every mode back: the cycle has period 3. */
  lemma ThreePresses(m: DebugPerfMode)
    ensures Next(Next(Next(m))) == m
  {
  }

  /** Only the number of presses modulo 3 matters. */
  lemma {:induction false} PressesModThree(m: DebugPerfMode, n: nat)
    ensures Presses(m, n) == Presses(m, n % 3)
  {
    if n >= 3 {
      PressesModThree(m, n - 3);
      ThreePresses(Presses(m, n - 3));
      assert Presses(m, n - 1) == Next(Next(Presses(m, n - 3))) by {
        assert Presses(m, n - 2) == Next(Presses(m, n - 3));
      }
      assert (n - 3) % 3 == n % 3;
    }
  }

  class LVRDebugGraph {
    /** Whether this is the Android device build (UNITY_ANDROID && !UNITY_EDITOR). */
    const onDevice: bool
    /** The toggleButton field: an LVRGamepadController.Button value. */
    const toggleButton: int
    var debugMode: DebugPerfMode
    var nativeLog: seq<NativeCall>
    /** The Debug.Log console. */
    var console: seq<string>

    /** A new component starts with the graph off. */
    constructor(onDevice: bool, toggleButton: int)
      ensures this.onDevice == onDevice && this.toggleButton == toggleButton
      ensures debugMode == PerfOff
      ensures nativeLog == [] && console == []
    {
      this.onDevice := onDevice;
      this.toggleButton := toggleButton;
      debugMode := PerfOff;
      nativeLog := [];
      console := [];
    }

    /** Start: on the device, push the current mode to the native side. */
    method Start()
      modifies this`nativeLog
      ensures nativeLog == old(nativeLog) + (if onDevice then [SetDebugMode(debugMode)] else [])
    {
      if onDevice {
        nativeLog := nativeLog + [SetDebugMode(debugMode)];
      }
    }

    /**
     * Update: without a press nothing changes; a press logs the toggle,
     * advances the mode one step and, on the device, pushes the new mode.
     * A toggle button outside the name table, or a name the Input Manager
     * does not define, throws (`ok` is false) and changes nothing.
     */
    method Update(buttonNames: seq<string>, buttonDown: string -> Option<bool>) returns (ok: bool)
      modifies this`debugMode, this`nativeLog, this`console
      ensures ok <==> 0 <= toggleButton < |buttonNames| && buttonDown(buttonNames[toggleButton]).Some?
      ensures var pressed := ok && buttonDown(buttonNames[toggleButton]).value;
        && (!pressed ==> debugMode == old(debugMode) && nativeLog == old(nativeLog) && console == old(console))
        && (pressed ==> debugMode == Next(old(debugMode)))
        && (pressed ==> nativeLog == old(nativeLog) + (if onDevice then [SetDebugMode(debugMode)] else []))
        && (pressed ==> console == old(console) + [" TOGGLE GRAPH "])
    {
      if !(0 <= toggleButton < |buttonNames|) {
        return false;
      }
      var toggleDown := buttonDown(buttonNames[toggleButton]);
      if toggleDown.None? {
        return false;
      }
      ok := true;
      if toggleDown.value {
        console := console + [" TOGGLE GRAPH "];
        match debugMode {
          case PerfOff => debugMode := PerfRunning;
          case PerfRunning => debugMode := PerfFrozen;
          case PerfFrozen => debugMode := PerfOff;
          case OtherMode(_) =>
        }
        if onDevice {
          nativeLog := nativeLog + [SetDebugMode(debugMode)];
        }
      }
    }
  }
}

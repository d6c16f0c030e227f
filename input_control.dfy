/**
 * The cross-platform input wrapper (LVRInputControl). It keeps a list of
 * key handlers (one KeyInfo per key, mouse button, gamepad button or
 * axis, each with down / held / up callbacks) and a duplicate-free list
 * of joystick-to-component mappings. Every tick, each mapping in turn
 * reads every key on its joystick and fires the callback that matches
 * the key's edge since its last reading.
 *
 * Unity's Input queries are the `Inputs` oracle; the callbacks are
 * opaque handler ids whose invocations are appended to an event log. The
 * gamepad button and axis enumerations and their name tables belong to
 * LVRGamepadController, which is not part of this model: they are
 * integers and a `NameTables` parameter.
 */
module InputControl {
  import opened Wrappers
  import opened Decimal

  // ---------------------------------------------------------------------------------------
  // Devices, names and readings

  /** The kinds of input a KeyInfo can watch (`None` is the enumeration's -1 member). */
  datatype DeviceType = NoDevice | Keyboard | Mouse | Gamepad | Axis

  /** Mouse buttons, with the enumeration's integer values given by `MouseCode`. */
  datatype MouseButton = NoMouseButton | LeftButton | RightButton | MiddleButton | FourthButton | FifthButton

  function MouseCode(b: MouseButton): int
  {
    match b
    case NoMouseButton => -1
    case LeftButton => 0
    case RightButton => 1
    case MiddleButton => 2
    case FourthButton => 4
    case FifthButton => 5
  }

  /** `MouseCode` tells the buttons apart. */
  lemma MouseCodeInjective(a: MouseButton, b: MouseButton)
    ensures MouseCode(a) == MouseCode(b) ==> a == b
  {
  }

  /** The `None` member of LVRGamepadController's Button and Axis enumerations. */
  const NoControl: int := -1

  /**
   * LVRGamepadController's name tables, indexed by the Button and Axis
   * enumerations' integer values, and the values of its LeftShoulder and
   * RightShoulder buttons.
   */
  datatype NameTables = NameTables(buttonNames: seq<string>, axisNames: seq<string>, leftShoulder: int, rightShoulder: int)

  /** `table[index]`, or None where C# would throw IndexOutOfRangeException. */
  function Lookup(table: seq<string>, index: int): (r: Option<string>)
    ensures r.Some? <==> 0 <= index < |table|
    ensures r.Some? ==> r.value == table[index]
  {
    if 0 <= index < |table| then Some(table[index]) else None
  }

  /**
   * What Unity's Input class reports this tick, keyed by the names the
   * wrapper builds. `isKey` holds for the key names Input.GetKey knows and
   * `isAxis` for the buttons and axes set up in the Input Manager;
   * GetKey, GetButton and GetAxis throw ArgumentException for any other
   * name.
   */
  datatype Inputs = Inputs(button: string -> bool, axis: string -> real, key: string -> bool, mouse: int -> bool,
                           isKey: string -> bool, isAxis: string -> bool)

  /** Input.GetButton(name): None where it throws. */
  function ReadButton(inputs: Inputs, name: string): (r: Option<bool>)
    ensures r.Some? <==> inputs.isAxis(name)
    ensures r.Some? ==> r.value == inputs.button(name)
  {
    if inputs.isAxis(name) then Some(inputs.button(name)) else None
  }

  /** Input.GetAxis(name): None where it throws. */
  function ReadAxis(inputs: Inputs, name: string): (r: Option<real>)
    ensures r.Some? <==> inputs.isAxis(name)
    ensures r.Some? ==> r.value == inputs.axis(name)
  {
    if inputs.isAxis(name) then Some(inputs.axis(name)) else None
  }

  /** Input.GetKey(name): None where it throws. */
  function ReadKey(inputs: Inputs, name: string): (r: Option<bool>)
    ensures r.Some? <==> inputs.isKey(name)
    ensures r.Some? ==> r.value == inputs.key(name)
  {
    if inputs.isKey(name) then Some(inputs.key(name)) else None
  }

  /** The platform the static constructor switches on (Application.platform). */
  datatype RuntimePlatform = WindowsPlayer | WindowsEditor | Android | OSXPlayer | OSXEditor | IPhonePlayer | OtherPlatform

  /** What the static constructor's Init_* call leaves: (allowKeyControls, platformPrefix). */
  function PlatformSettings(p: RuntimePlatform): (bool, string)
  {
    match p
    case WindowsPlayer => (false, "Win:")
    case WindowsEditor => (true, "Win:")
    case Android => (true, "Android:")
    case OSXPlayer => (false, "OSX:")
    case OSXEditor => (true, "OSX:")
    case IPhonePlayer => (false, "iPhone:")
    case OtherPlatform => (true, "")
  }

  /** Key controls are off exactly on the Windows, OSX and iPhone players; only an unknown platform has no prefix. */
  lemma PlatformSettingsSpec(p: RuntimePlatform)
    ensures !PlatformSettings(p).0 <==> p in {WindowsPlayer, OSXPlayer, IPhonePlayer}
    ensures PlatformSettings(p).1 == "" <==> p == OtherPlatform
    ensures p != OtherPlatform ==> PlatformSettings(p).1[|PlatformSettings(p).1| - 1] == ':'
  {
  }

  /** The name Unity's Input table is queried with: `platformPrefix + "Joy " + n + ":" + name`. */
  function JoystickName(prefix: string, joystick: int, name: string): string
  {
    prefix + "Joy " + IntToString(joystick) + ":" + name
  }

  lemma NoColonInNumber(n: int)
    ensures |IntToString(n)| > 0
    ensures forall k :: 0 <= k < |IntToString(n)| ==> IntToString(n)[k] != ':'
  {
    NatToStringDigits(if n < 0 then -n else n);
    if n < 0 {
      assert forall k :: 1 <= k < |IntToString(n)| ==> IntToString(n)[k] == NatToString(-n)[k - 1];
    }
  }

  /** The position of the first ':' in `s` (|s| when there is none). */
  function FirstColon(s: string): nat
  {
    if s == [] || s[0] == ':' then 0 else 1 + FirstColon(s[1..])
  }

  lemma {:induction false} FirstColonAfter(n: string, rest: string)
    requires forall k :: 0 <= k < |n| ==> n[k] != ':'
    ensures FirstColon(n + ":" + rest) == |n|
    decreases |n|
  {
    if n != [] {
      assert (n + ":" + rest)[1..] == n[1..] + ":" + rest;
      FirstColonAfter(n[1..], rest);
    }
  }

  /** Under one prefix, the lookup name determines the joystick number and the base name. */
  lemma JoystickNameInjective(prefix: string, j1: int, name1: string, j2: int, name2: string)
    requires JoystickName(prefix, j1, name1) == JoystickName(prefix, j2, name2)
    ensures j1 == j2 && name1 == name2
  {
    var n1, n2 := IntToString(j1), IntToString(j2);
    var t1, t2 := n1 + ":" + name1, n2 + ":" + name2;
    var head := prefix + "Joy ";
    assert JoystickName(prefix, j1, name1) == head + t1;
    assert JoystickName(prefix, j2, name2) == head + t2;
    assert t1 == (head + t1)[|head|..];
    assert t2 == (head + t2)[|head|..];
    NoColonInNumber(j1);
    NoColonInNumber(j2);
    FirstColonAfter(n1, name1);
    FirstColonAfter(n2, name2);
    assert n1 == t1[..|n1|] && n2 == t2[..|n2|];
    IntToStringInjective(j1, j2);
    assert name1 == t1[|n1| + 1..] && name2 == t2[|n2| + 1..];
  }

  /** The key name of a mouse KeyInfo: `"Mouse Button " + (int)button`. */
  function MouseKeyName(b: MouseButton): string
  {
    "Mouse Button " + IntToString(MouseCode(b))
  }

  /** Distinct mouse buttons get distinct key names. */
  lemma MouseKeyNameInjective(a: MouseButton, b: MouseButton)
    requires MouseKeyName(a) == MouseKeyName(b)
    ensures a == b
  {
    var p := "Mouse Button ";
    assert IntToString(MouseCode(a)) == MouseKeyName(a)[|p|..];
    assert IntToString(MouseCode(b)) == MouseKeyName(b)[|p|..];
    IntToStringInjective(MouseCode(a), MouseCode(b));
    MouseCodeInjective(a, b);
  }

  /** GetJoystickButton(joystickNumber, button): None where the name table or Input.GetButton throws. */
  function GetJoystickButton(prefix: string, tables: NameTables, inputs: Inputs, joystick: int, button: int): (r: Option<bool>)
    ensures r.Some? <==>
      0 <= button < |tables.buttonNames| && inputs.isAxis(JoystickName(prefix, joystick, tables.buttonNames[button]))
    ensures r.Some? ==> r.value == inputs.button(JoystickName(prefix, joystick, tables.buttonNames[button]))
  {
    match Lookup(tables.buttonNames, button)
    case None => None
    case Some(name) => ReadButton(inputs, JoystickName(prefix, joystick, name))
  }

  /** GetJoystickAxis(joystickNumber, axis): None where the name table or Input.GetAxis throws. */
  function GetJoystickAxis(prefix: string, tables: NameTables, inputs: Inputs, joystick: int, axis: int): (r: Option<real>)
    ensures r.Some? <==>
      0 <= axis < |tables.axisNames| && inputs.isAxis(JoystickName(prefix, joystick, tables.axisNames[axis]))
    ensures r.Some? ==> r.value == inputs.axis(JoystickName(prefix, joystick, tables.axisNames[axis]))
  {
    match Lookup(tables.axisNames, axis)
    case None => None
    case Some(name) => ReadAxis(inputs, JoystickName(prefix, joystick, name))
  }

  /**
   * GetJoystickAxis(joystickNumber, name). On the Android device build
   * the triggers of the Samsung gamepad are buttons, so "LeftTrigger" and
   * "RightTrigger" read the shoulder buttons as 1 or 0.
   */
  function GetJoystickAxisByName(deviceBuild: bool, prefix: string, tables: NameTables, inputs: Inputs,
                                 joystick: int, name: string): Option<real>
  {
    if deviceBuild && name == "LeftTrigger" then
      match GetJoystickButton(prefix, tables, inputs, joystick, tables.leftShoulder)
      case None => None
      case Some(down) => Some(if down then 1.0 else 0.0)
    else if deviceBuild && name == "RightTrigger" then
      match GetJoystickButton(prefix, tables, inputs, joystick, tables.rightShoulder)
      case None => None
      case Some(down) => Some(if down then 1.0 else 0.0)
    else
      ReadAxis(inputs, JoystickName(prefix, joystick, name))
  }

  /** Off the device build, or for any other name, the axis is read under its platform name; a trigger on the device reads 0 or 1. */
  lemma AxisByNameSpec(deviceBuild: bool, prefix: string, tables: NameTables, inputs: Inputs, joystick: int, name: string)
    ensures !deviceBuild || (name != "LeftTrigger" && name != "RightTrigger") ==>
      var v := GetJoystickAxisByName(deviceBuild, prefix, tables, inputs, joystick, name);
      (v.Some? <==> inputs.isAxis(JoystickName(prefix, joystick, name)))
      && (v.Some? ==> v.value == inputs.axis(JoystickName(prefix, joystick, name)))
    ensures deviceBuild && name == "LeftTrigger" ==>
      var v := GetJoystickAxisByName(deviceBuild, prefix, tables, inputs, joystick, name);
      (v.Some? <==> GetJoystickButton(prefix, tables, inputs, joystick, tables.leftShoulder).Some?)
      && (v.Some? ==> (v.value == 1.0 <==> inputs.button(JoystickName(prefix, joystick, tables.buttonNames[tables.leftShoulder])))
                      && (v.value == 0.0 || v.value == 1.0))
    ensures deviceBuild && name == "RightTrigger" ==>
      var v := GetJoystickAxisByName(deviceBuild, prefix, tables, inputs, joystick, name);
      (v.Some? <==> GetJoystickButton(prefix, tables, inputs, joystick, tables.rightShoulder).Some?)
      && (v.Some? ==> (v.value == 1.0 <==> inputs.button(JoystickName(prefix, joystick, tables.buttonNames[tables.rightShoulder])))
                      && (v.value == 0.0 || v.value == 1.0))
  {
  }

  // ---------------------------------------------------------------------------------------
  // Key handlers

  /** A callback (OnKeyDown, OnKeyHeld or OnKeyUp delegate), by identity. */
  type HandlerId = nat

  /** A MonoBehaviour, by identity. */
  type ComponentId = nat

  /** The OnKeyDown, OnKeyHeld and OnKeyUp delegates of a KeyInfo; None is a null delegate, which AddInputHandler accepts. */
  datatype Handlers = Handlers(down: Option<HandlerId>, held: Option<HandlerId>, up: Option<HandlerId>)

  /** One KeyInfo; `threshold` is the float the axis value is compared against. */
  datatype KeyInfo = KeyInfo(
    deviceType: DeviceType,
    keyName: string,
    mouseButton: MouseButton,
    joystickButton: int,
    joystickAxis: int,
    threshold: real,
    wasDown: bool,
    handlers: Handlers)

  /** The threshold a KeyInfo gets unless it watches an axis. */
  const DefaultThreshold: real := 1000.0

  /** The threshold of an axis KeyInfo. */
  const AxisThreshold: real := 0.5

  /** The key constructor. */
  function KeyInfoForKey(dt: DeviceType, keyName: string, h: Handlers): (r: KeyInfo)
    ensures r.deviceType == dt && r.keyName == keyName && r.handlers == h
    ensures r.threshold == DefaultThreshold && !r.wasDown
    ensures r.mouseButton == NoMouseButton && r.joystickButton == NoControl && r.joystickAxis == NoControl
  {
    KeyInfo(dt, keyName, NoMouseButton, NoControl, NoControl, DefaultThreshold, false, h)
  }

  /** The mouse-button constructor: the key name spells out the button's number. */
  function KeyInfoForMouse(dt: DeviceType, b: MouseButton, h: Handlers): (r: KeyInfo)
    ensures r.deviceType == dt && r.mouseButton == b && r.handlers == h
    ensures r.keyName == MouseKeyName(b)
    ensures r.threshold == DefaultThreshold && !r.wasDown
    ensures r.joystickButton == NoControl && r.joystickAxis == NoControl
  {
    KeyInfo(dt, MouseKeyName(b), b, NoControl, NoControl, DefaultThreshold, false, h)
  }

  /** The joystick-button constructor: None where `ButtonNames[(int)button]` throws. */
  function KeyInfoForButton(dt: DeviceType, button: int, h: Handlers, tables: NameTables): (r: Option<KeyInfo>)
    ensures r.Some? <==> 0 <= button < |tables.buttonNames|
    ensures r.Some? ==> r.value.deviceType == dt && r.value.joystickButton == button && r.value.handlers == h
    ensures r.Some? ==> r.value.keyName == tables.buttonNames[button]
    ensures r.Some? ==> r.value.threshold == DefaultThreshold && !r.value.wasDown
    ensures r.Some? ==> r.value.mouseButton == NoMouseButton && r.value.joystickAxis == NoControl
  {
    match Lookup(tables.buttonNames, button)
    case None => None
    case Some(name) => Some(KeyInfo(dt, name, NoMouseButton, button, NoControl, DefaultThreshold, false, h))
  }

  /** The joystick-axis constructor: the only one with threshold 0.5. */
  function KeyInfoForAxis(dt: DeviceType, axis: int, h: Handlers, tables: NameTables): (r: Option<KeyInfo>)
    ensures r.Some? <==> 0 <= axis < |tables.axisNames|
    ensures r.Some? ==> r.value.deviceType == dt && r.value.joystickAxis == axis && r.value.handlers == h
    ensures r.Some? ==> r.value.keyName == tables.axisNames[axis]
    ensures r.Some? ==> r.value.threshold == AxisThreshold && !r.value.wasDown
    ensures r.Some? ==> r.value.mouseButton == NoMouseButton && r.value.joystickButton == NoControl
  {
    match Lookup(tables.axisNames, axis)
    case None => None
    case Some(name) => Some(KeyInfo(dt, name, NoMouseButton, NoControl, axis, AxisThreshold, false, h))
  }

  /** Everything a reading depends on besides the KeyInfo and the joystick. */
  datatype Reader = Reader(allowKeyControls: bool, prefix: string, tables: NameTables, inputs: Inputs)

  /**
   * Whether a key counts as down on `joystick` this tick (the device
   * dispatch of UpdateInputMapping); None where a name table throws.
   */
  function Reading(info: KeyInfo, joystick: int, rd: Reader): Option<bool>
  {
    match info.deviceType
    case Gamepad => GetJoystickButton(rd.prefix, rd.tables, rd.inputs, joystick, info.joystickButton)
    case Axis =>
      (match GetJoystickAxis(rd.prefix, rd.tables, rd.inputs, joystick, info.joystickAxis)
       case None => None
       case Some(v) => Some(v >= info.threshold))
    case Mouse => Some(rd.allowKeyControls && rd.inputs.mouse(MouseCode(info.mouseButton)))
    case Keyboard => if rd.allowKeyControls then ReadKey(rd.inputs, info.keyName) else Some(false)
    case NoDevice => Some(false)
  }

  /**
   * Keyboard and mouse keys read as up unless key controls are allowed;
   * gamepad and axis keys are read regardless; an axis is down exactly
   * when its value reaches the threshold. A read throws exactly where the
   * name table or the Input query does.
   */
  lemma ReadingSpec(info: KeyInfo, joystick: int, rd: Reader)
    ensures info.deviceType in {NoDevice, Keyboard, Mouse} && !rd.allowKeyControls ==> Reading(info, joystick, rd) == Some(false)
    ensures info.deviceType == NoDevice ==> Reading(info, joystick, rd) == Some(false)
    ensures info.deviceType == Keyboard && rd.allowKeyControls ==>
      (Reading(info, joystick, rd).Some? <==> rd.inputs.isKey(info.keyName))
      && (Reading(info, joystick, rd).Some? ==> Reading(info, joystick, rd).value == rd.inputs.key(info.keyName))
    ensures info.deviceType == Mouse && rd.allowKeyControls ==>
      Reading(info, joystick, rd) == Some(rd.inputs.mouse(MouseCode(info.mouseButton)))
    ensures info.deviceType == Gamepad ==>
      Reading(info, joystick, rd) == GetJoystickButton(rd.prefix, rd.tables, rd.inputs, joystick, info.joystickButton)
    ensures info.deviceType == Axis ==>
      (Reading(info, joystick, rd).Some? <==> GetJoystickAxis(rd.prefix, rd.tables, rd.inputs, joystick, info.joystickAxis).Some?)
    ensures info.deviceType == Axis && Reading(info, joystick, rd).Some? ==>
      Reading(info, joystick, rd).value
        == (rd.inputs.axis(JoystickName(rd.prefix, joystick, rd.tables.axisNames[info.joystickAxis])) >= info.threshold)
  {
  }

  // ---------------------------------------------------------------------------------------
  // The edge detector

  /** What a key did since its last reading. */
  datatype Transition = Pressed | Held | Released

  /** The transition from the last reading to this one; None for up-to-up. */
  function Edge(wasDown: bool, down: bool): Option<Transition>
  {
    if !down then (if wasDown then Some(Released) else None)
    else if !wasDown then Some(Pressed)
    else Some(Held)
  }

  function HandlerFor(h: Handlers, t: Transition): Option<HandlerId>
  {
    match t
    case Pressed => h.down
    case Held => h.held
    case Released => h.up
  }

  /** A callback invoked with the component of the mapping being updated. */
  datatype HandlerCall = Invoke(handler: HandlerId, component: ComponentId)

  /** The callbacks a key fires for one reading; None where the edge's delegate is null and invoking it throws. */
  function Fired(info: KeyInfo, down: bool, comp: ComponentId): Option<seq<HandlerCall>>
  {
    match Edge(info.wasDown, down)
    case None => Some([])
    case Some(t) =>
      (match HandlerFor(info.handlers, t)
       case None => None
       case Some(h) => Some([Invoke(h, comp)]))
  }

  /**
   * One key's visit in a mapping pass: its new state and the callbacks it
   * fires; None where reading throws or the delegate to call is null (the
   * exception comes before `wasDown` is written).
   */
  function Visit(info: KeyInfo, joystick: int, comp: ComponentId, rd: Reader): Option<(KeyInfo, seq<HandlerCall>)>
  {
    match Reading(info, joystick, rd)
    case None => None
    case Some(down) =>
      (match Fired(info, down, comp)
       case None => None
       case Some(calls) => Some((info.(wasDown := down), calls)))
  }

  /** The visit a key makes when its reading is `down` and `handler` is the delegate its edge calls. */
  function Invoked(info: KeyInfo, down: bool, handler: Option<HandlerId>, comp: ComponentId): Option<(KeyInfo, seq<HandlerCall>)>
  {
    match handler
    case None => None
    case Some(h) => Some((info.(wasDown := down), [Invoke(h, comp)]))
  }

  /**
   * Per key: the down delegate is invoked exactly on up-to-down, the held
   * delegate on down-to-down, the up delegate on down-to-up, nothing on
   * up-to-up; afterwards `wasDown` is the reading and nothing else of the
   * KeyInfo has changed. A null delegate on the edge throws, and the
   * KeyInfo keeps its old `wasDown`.
   */
  lemma VisitSpec(info: KeyInfo, joystick: int, comp: ComponentId, rd: Reader, down: bool)
    requires Reading(info, joystick, rd) == Some(down)
    ensures !info.wasDown && down ==> Visit(info, joystick, comp, rd) == Invoked(info, down, info.handlers.down, comp)
    ensures info.wasDown && down ==> Visit(info, joystick, comp, rd) == Invoked(info, down, info.handlers.held, comp)
    ensures info.wasDown && !down ==> Visit(info, joystick, comp, rd) == Invoked(info, down, info.handlers.up, comp)
    ensures !info.wasDown && !down ==> Visit(info, joystick, comp, rd) == Some((info, []))
  {
  }

  /** A visit throws exactly when the reading throws or the delegate its edge calls is null. */
  lemma VisitThrows(info: KeyInfo, joystick: int, comp: ComponentId, rd: Reader)
    ensures Visit(info, joystick, comp, rd).None? <==>
      || Reading(info, joystick, rd).None?
      || var down := Reading(info, joystick, rd).value;
         (!info.wasDown && down && info.handlers.down.None?)
         || (info.wasDown && down && info.handlers.held.None?)
         || (info.wasDown && !down && info.handlers.up.None?)
  {
  }

  /** The transitions a key reports over a run of readings, starting from `wasDown`. */
  function Transitions(wasDown: bool, readings: seq<bool>): seq<Transition>
    decreases |readings|
  {
    if readings == [] then []
    else
      (match Edge(wasDown, readings[0]) case None => [] case Some(t) => [t]) + Transitions(readings[0], readings[1..])
  }

  function Count(ts: seq<Transition>, t: Transition): nat
  {
    if ts == [] then 0 else (if ts[0] == t then 1 else 0) + Count(ts[1..], t)
  }

  lemma {:induction false} CountAppend(a: seq<Transition>, b: seq<Transition>, t: Transition)
    ensures Count(a + b, t) == Count(a, t) + Count(b, t)
    decreases |a|
  {
    if a == [] {
      assert a + b == b;
    } else {
      assert (a + b)[1..] == a[1..] + b;
      CountAppend(a[1..], b, t);
    }
  }

  function Bit(b: bool): nat { if b then 1 else 0 }

  function LastReading(wasDown: bool, readings: seq<bool>): bool
  {
    if readings == [] then wasDown else readings[|readings| - 1]
  }

  /**
   * Presses and releases balance: over any run of readings the number of
   * presses minus the number of releases is the change in the key's
   * state, so a key never reports two presses without a release between.
   */
  lemma {:induction false} PressReleaseBalance(wasDown: bool, readings: seq<bool>)
    ensures Count(Transitions(wasDown, readings), Pressed) + Bit(wasDown)
         == Count(Transitions(wasDown, readings), Released) + Bit(LastReading(wasDown, readings))
    decreases |readings|
  {
    if readings != [] {
      var head := match Edge(wasDown, readings[0]) case None => [] case Some(t) => [t];
      PressReleaseBalance(readings[0], readings[1..]);
      CountAppend(head, Transitions(readings[0], readings[1..]), Pressed);
      CountAppend(head, Transitions(readings[0], readings[1..]), Released);
      assert LastReading(readings[0], readings[1..]) == LastReading(wasDown, readings);
    }
  }

  // ---------------------------------------------------------------------------------------
  // Mapping passes

  /** The state a pass (or a run of passes) leaves: the key list, the callbacks fired, and whether it completed. */
  datatype Pass = Pass(infos: seq<KeyInfo>, calls: seq<HandlerCall>, ok: bool)

  /**
   * The first `k` iterations of UpdateInputMapping's loop over the key
   * list: each key is visited in order; a throwing read stops the pass
   * with the later keys untouched.
   */
  function PassUpTo(infos: seq<KeyInfo>, k: nat, joystick: int, comp: ComponentId, rd: Reader): (p: Pass)
    requires k <= |infos|
    ensures |p.infos| == |infos|
    ensures forall m :: k <= m < |infos| ==> p.infos[m] == infos[m]
    ensures |p.calls| <= k
    ensures forall c :: c in p.calls ==> c.component == comp
    decreases k
  {
    if k == 0 then Pass(infos, [], true)
    else
      var p := PassUpTo(infos, k - 1, joystick, comp, rd);
      if !p.ok then p
      else
        match Visit(infos[k - 1], joystick, comp, rd)
        case None => Pass(p.infos, p.calls, false)
        case Some(v) => Pass(p.infos[k - 1 := v.0], p.calls + v.1, true)
  }

  /** One more key in a pass that has not stopped: a good reading updates its `wasDown` and fires its edge's callback. */
  lemma PassStep(infos: seq<KeyInfo>, i: nat, joystick: int, comp: ComponentId, rd: Reader, down: bool, calls: seq<HandlerCall>)
    requires i < |infos| && PassUpTo(infos, i, joystick, comp, rd).ok
    requires Reading(infos[i], joystick, rd) == Some(down) && Fired(infos[i], down, comp) == Some(calls)
    ensures var p := PassUpTo(infos, i, joystick, comp, rd);
      PassUpTo(infos, i + 1, joystick, comp, rd)
        == Pass(p.infos[i := infos[i].(wasDown := down)], p.calls + calls, true)
  {
  }

  /** A throwing reading or a null delegate stops the pass where it is. */
  lemma {:induction false} PassFails(infos: seq<KeyInfo>, i: nat, joystick: int, comp: ComponentId, rd: Reader)
    requires i < |infos| && PassUpTo(infos, i, joystick, comp, rd).ok
    requires Visit(infos[i], joystick, comp, rd) == None
    ensures var p := PassUpTo(infos, i, joystick, comp, rd);
      PassAll(infos, joystick, comp, rd) == Pass(p.infos, p.calls, false)
  {
    PassStopped(infos, i + 1, |infos|, joystick, comp, rd);
  }

  /** A whole UpdateInputMapping pass. */
  function PassAll(infos: seq<KeyInfo>, joystick: int, comp: ComponentId, rd: Reader): Pass
  {
    PassUpTo(infos, |infos|, joystick, comp, rd)
  }

  /** Once a pass has stopped, later iterations change nothing. */
  lemma {:induction false} PassStopped(infos: seq<KeyInfo>, k: nat, n: nat, joystick: int, comp: ComponentId, rd: Reader)
    requires k <= n <= |infos|
    requires !PassUpTo(infos, k, joystick, comp, rd).ok
    ensures PassUpTo(infos, n, joystick, comp, rd) == PassUpTo(infos, k, joystick, comp, rd)
    decreases n - k
  {
    if n > k {
      PassStopped(infos, k, n - 1, joystick, comp, rd);
    }
  }

  /** A joystick-to-component mapping (InputMapping); two are the same when both fields are. */
  datatype Mapping = Mapping(component: ComponentId, joystick: int)

  /**
   * Update: the mappings' passes in list order, each starting from the
   * key list the previous one left, so `wasDown` is shared by all
   * mappings; a throwing pass ends the run.
   */
  function RunMappings(infos: seq<KeyInfo>, maps: seq<Mapping>, rd: Reader): (r: Pass)
    ensures |r.infos| == |infos|
    decreases |maps|
  {
    if maps == [] then Pass(infos, [], true)
    else
      var p := RunMappings(infos, maps[..|maps| - 1], rd);
      if !p.ok then p
      else
        var m := maps[|maps| - 1];
        var q := PassAll(p.infos, m.joystick, m.component, rd);
        Pass(q.infos, p.calls + q.calls, q.ok)
  }

  /**
   * `wasDown` is shared by the mappings: a key held on the first of two
   * mapped joysticks and up on the second fires the down handler for the
   * first component and the up handler for the second, and leaves the key
   * as it found it, so the next tick does the same again and the held
   * handler never fires.
   */
  lemma SharedWasDown(info: KeyInfo, a: ComponentId, j1: int, b: ComponentId, j2: int, rd: Reader)
    requires !info.wasDown && info.handlers.down.Some? && info.handlers.up.Some?
    requires Reading(info, j1, rd) == Some(true) && Reading(info, j2, rd) == Some(false)
    ensures var r := RunMappings([info], [Mapping(a, j1), Mapping(b, j2)], rd);
      r.ok && r.infos == [info] && r.calls == [Invoke(info.handlers.down.value, a), Invoke(info.handlers.up.value, b)]
  {
    var maps := [Mapping(a, j1), Mapping(b, j2)];
    var pressed := info.(wasDown := true);
    var down, up := [Invoke(info.handlers.down.value, a)], [Invoke(info.handlers.up.value, b)];
    assert Visit(info, j1, a, rd) == Some((pressed, down));
    assert PassUpTo([info], 0, j1, a, rd) == Pass([info], [], true);
    assert PassAll([info], j1, a, rd) == Pass([pressed], down, true);
    assert Reading(pressed, j2, rd) == Some(false);
    assert pressed.(wasDown := false) == info;
    assert Visit(pressed, j2, b, rd) == Some((info, up));
    assert PassUpTo([pressed], 0, j2, b, rd) == Pass([pressed], [], true);
    assert PassAll([pressed], j2, b, rd) == Pass([info], up, true);
    assert maps[..1] == [Mapping(a, j1)] && maps[..1][..0] == [];
    assert RunMappings([info], maps[..1], rd) == Pass([pressed], down, true);
  }

  /** Once a run has stopped, later mappings change nothing. */
  lemma {:induction false} RunStopped(infos: seq<KeyInfo>, maps: seq<Mapping>, k: nat, n: nat, rd: Reader)
    requires k <= n <= |maps|
    requires !RunMappings(infos, maps[..k], rd).ok
    ensures RunMappings(infos, maps[..n], rd) == RunMappings(infos, maps[..k], rd)
    decreases n - k
  {
    if n > k {
      RunStopped(infos, maps, k, n - 1, rd);
      assert maps[..n][..n - 1] == maps[..n - 1];
    }
  }

  /** One more mapping: its pass runs on the key list the earlier ones left, unless the run already stopped. */
  lemma RunMappingsStep(infos: seq<KeyInfo>, maps: seq<Mapping>, i: nat, rd: Reader)
    requires i < |maps|
    ensures var p := RunMappings(infos, maps[..i], rd);
      var q := PassAll(p.infos, maps[i].joystick, maps[i].component, rd);
      RunMappings(infos, maps[..i + 1], rd) == if p.ok then Pass(q.infos, p.calls + q.calls, q.ok) else p
  {
    assert maps[..i + 1][..i] == maps[..i];
  }

  /** The whole list is its own longest prefix. */
  lemma RunMappingsWhole(infos: seq<KeyInfo>, maps: seq<Mapping>, rd: Reader)
    ensures RunMappings(infos, maps[..|maps|], rd) == RunMappings(infos, maps, rd)
  {
    assert maps[..|maps|] == maps;
  }

  /** The components the mappings route input to. */
  function Components(maps: seq<Mapping>): set<ComponentId>
  {
    set m | m in maps :: m.component
  }

  /** Every callback an update fires goes to a mapped component. */
  lemma {:induction false} RunMappingsComponents(infos: seq<KeyInfo>, maps: seq<Mapping>, rd: Reader)
    ensures forall c :: c in RunMappings(infos, maps, rd).calls ==> c.component in Components(maps)
    decreases |maps|
  {
    if maps != [] {
      var init := maps[..|maps| - 1];
      var m := maps[|maps| - 1];
      RunMappingsComponents(infos, init, rd);
      assert maps == init + [m];
      assert Components(maps) == Components(init) + {m.component};
    }
  }

  /** Each mapping fires at most one callback per key. */
  lemma {:induction false} RunMappingsCallCount(infos: seq<KeyInfo>, maps: seq<Mapping>, rd: Reader)
    ensures |RunMappings(infos, maps, rd).calls| <= |maps| * |infos|
    decreases |maps|
  {
    if maps != [] {
      RunMappingsCallCount(infos, maps[..|maps| - 1], rd);
      assert (|maps| - 1) * |infos| + |infos| == |maps| * |infos|;
    }
  }

  // ---------------------------------------------------------------------------------------
  // The mapping list

  /** No (component, joystick) pair occurs twice. */
  predicate NoDuplicates(maps: seq<Mapping>)
  {
    forall i, j :: 0 <= i < j < |maps| ==> maps[i] != maps[j]
  }

  /** AddInputMapping's effect on the list. */
  function Added(maps: seq<Mapping>, m: Mapping): seq<Mapping>
  {
    if m in maps then maps else maps + [m]
  }

  /** The position of the first occurrence of `m`. */
  function FirstIndex(maps: seq<Mapping>, m: Mapping): (i: nat)
    requires m in maps
    ensures i < |maps| && maps[i] == m && m !in maps[..i]
  {
    if maps[0] == m then 0
    else
      var i := FirstIndex(maps[1..], m) + 1;
      assert maps[..i] == [maps[0]] + maps[1..][..i - 1];
      i
  }

  /** The first occurrence is the one no earlier entry matches. */
  lemma FirstIndexAt(maps: seq<Mapping>, m: Mapping, i: nat)
    requires i < |maps| && maps[i] == m && m !in maps[..i]
    ensures FirstIndex(maps, m) == i
  {
    var first := FirstIndex(maps, m);
    if first < i {
      assert false;
    } else if first > i {
      assert false;
    }
  }

  /** RemoveInputMapping's effect: the first occurrence goes, everything else stays in order. */
  function Removed(maps: seq<Mapping>, m: Mapping): seq<Mapping>
  {
    if m in maps then maps[..FirstIndex(maps, m)] + maps[FirstIndex(maps, m) + 1..] else maps
  }

  /** Adding keeps the list duplicate-free, and afterwards the mapping is present exactly once more than before, if it was absent. */
  lemma AddedSpec(maps: seq<Mapping>, m: Mapping)
    requires NoDuplicates(maps)
    ensures NoDuplicates(Added(maps, m))
    ensures m in Added(maps, m)
    ensures forall x :: x in Added(maps, m) <==> x in maps || x == m
    ensures m in maps ==> Added(maps, m) == maps
  {
  }

  /** Removing keeps the list duplicate-free, takes the mapping out, and loses nothing else. */
  lemma RemovedSpec(maps: seq<Mapping>, m: Mapping)
    requires NoDuplicates(maps)
    ensures NoDuplicates(Removed(maps, m))
    ensures m !in Removed(maps, m)
    ensures forall x :: x != m ==> (x in Removed(maps, m) <==> x in maps)
    ensures |Removed(maps, m)| == |maps| - Bit(m in maps)
  {
    if m in maps {
      var i := FirstIndex(maps, m);
      var r := Removed(maps, m);
      assert forall a :: 0 <= a < |r| ==> r[a] == if a < i then maps[a] else maps[a + 1];
      forall x | x != m && x in maps
        ensures x in r
      {
        var a :| 0 <= a < |maps| && maps[a] == x;
        assert a != i;
        if a < i { assert r[a] == x; } else { assert r[a - 1] == x; }
      }
    }
  }

  /** Removing a mapping just added restores the list. */
  lemma RemoveUndoesAdd(maps: seq<Mapping>, m: Mapping)
    requires m !in maps
    ensures Removed(Added(maps, m), m) == maps
  {
    var s := maps + [m];
    assert m in s by { assert s[|maps|] == m; }
    var i := FirstIndex(s, m);
    if i < |maps| {
      assert false;
    }
    assert s[..i] == maps;
  }

  // ---------------------------------------------------------------------------------------
  // The static class

  /** LVRInputControl's static state. */
  class LVRInputControl {
    var allowKeyControls: bool
    var platformPrefix: string
    var keyInfos: seq<KeyInfo>
    var inputMap: seq<Mapping>
    /** Every callback invoked, oldest first. */
    var log: seq<HandlerCall>

    ghost predicate Valid()
      reads this`inputMap
    {
      NoDuplicates(inputMap)
    }

    /** The static constructor: platform settings, no handlers, no mappings. */
    constructor (platform: RuntimePlatform)
      ensures Valid()
      ensures (allowKeyControls, platformPrefix) == PlatformSettings(platform)
      ensures keyInfos == [] && inputMap == [] && log == []
    {
      var settings := PlatformSettings(platform);
      allowKeyControls := settings.0;
      platformPrefix := settings.1;
      keyInfos := [];
      inputMap := [];
      log := [];
    }

    /** AddInputHandler for a key. */
    method AddKeyHandler(dt: DeviceType, keyName: string, h: Handlers)
      modifies this`keyInfos
      ensures keyInfos == old(keyInfos) + [KeyInfoForKey(dt, keyName, h)]
    {
      keyInfos := keyInfos + [KeyInfoForKey(dt, keyName, h)];
    }

    /** AddInputHandler for a mouse button. */
    method AddMouseHandler(dt: DeviceType, b: MouseButton, h: Handlers)
      modifies this`keyInfos
      ensures keyInfos == old(keyInfos) + [KeyInfoForMouse(dt, b, h)]
    {
      keyInfos := keyInfos + [KeyInfoForMouse(dt, b, h)];
    }

    /** AddInputHandler for a joystick button; the list is unchanged where the constructor throws. */
    method AddButtonHandler(dt: DeviceType, button: int, h: Handlers, tables: NameTables) returns (ok: bool)
      modifies this`keyInfos
      ensures ok <==> 0 <= button < |tables.buttonNames|
      ensures ok ==> keyInfos == old(keyInfos) + [KeyInfoForButton(dt, button, h, tables).value]
      ensures !ok ==> keyInfos == old(keyInfos)
    {
      var info := KeyInfoForButton(dt, button, h, tables);
      if info.None? {
        return false;
      }
      keyInfos := keyInfos + [info.value];
      return true;
    }

    /** AddInputHandler for a joystick axis; the list is unchanged where the constructor throws. */
    method AddAxisHandler(dt: DeviceType, axis: int, h: Handlers, tables: NameTables) returns (ok: bool)
      modifies this`keyInfos
      ensures ok <==> 0 <= axis < |tables.axisNames|
      ensures ok ==> keyInfos == old(keyInfos) + [KeyInfoForAxis(dt, axis, h, tables).value]
      ensures !ok ==> keyInfos == old(keyInfos)
    {
      var info := KeyInfoForAxis(dt, axis, h, tables);
      if info.None? {
        return false;
      }
      keyInfos := keyInfos + [info.value];
      return true;
    }

    /**
     * AddInputMapping: a linear search for the pair; a duplicate request
     * leaves the list as it was and reports the failed assertion.
     */
    method AddInputMapping(joystick: int, comp: ComponentId) returns (duplicate: bool)
      requires Valid()
      modifies this`inputMap
      ensures Valid()
      ensures duplicate <==> Mapping(comp, joystick) in old(inputMap)
      ensures inputMap == Added(old(inputMap), Mapping(comp, joystick))
    {
      var m := Mapping(comp, joystick);
      AddedSpec(inputMap, m);
      var i := 0;
      while i < |inputMap|
        invariant 0 <= i <= |inputMap|
        invariant m !in inputMap[..i]
      {
        if inputMap[i] == m {
          return true;
        }
        i := i + 1;
      }
      assert inputMap[..i] == inputMap;
      inputMap := inputMap + [m];
      return false;
    }

    /** RemoveInputMapping: the first matching entry is removed; no match, no change. */
    method RemoveInputMapping(joystick: int, comp: ComponentId)
      requires Valid()
      modifies this`inputMap
      ensures Valid()
      ensures inputMap == Removed(old(inputMap), Mapping(comp, joystick))
    {
      var m := Mapping(comp, joystick);
      RemovedSpec(inputMap, m);
      var i := 0;
      while i < |inputMap|
        invariant 0 <= i <= |inputMap|
        invariant m !in inputMap[..i]
      {
        if inputMap[i] == m {
          FirstIndexAt(inputMap, m, i);
          inputMap := inputMap[..i] + inputMap[i + 1..];
          return;
        }
        i := i + 1;
      }
      assert inputMap[..i] == inputMap;
    }

    /** ClearControlMappings. */
    method ClearControlMappings()
      modifies this`inputMap
      ensures Valid()
      ensures inputMap == []
    {
      inputMap := [];
    }

    /**
     * UpdateInputMapping's loop over the key list, on values: every key on
     * `joystick` is visited in list order, the edge's callback for `comp`
     * is collected and the reading is stored in `wasDown`; `ok` is false
     * where a name lookup throws or the delegate to invoke is null, which
     * ends the pass.
     */
    static method RunPass(infos: seq<KeyInfo>, joystick: int, comp: ComponentId, rd: Reader)
      returns (infos': seq<KeyInfo>, calls: seq<HandlerCall>, ok: bool)
      ensures PassAll(infos, joystick, comp, rd) == Pass(infos', calls, ok)
    {
      infos', calls := infos, [];
      var i := 0;
      while i < |infos'|
        invariant |infos'| == |infos| && 0 <= i <= |infos|
        invariant PassUpTo(infos, i, joystick, comp, rd) == Pass(infos', calls, true)
      {
        var info := infos'[i];
        var down := Reading(info, joystick, rd);
        if down.None? {
          PassFails(infos, i, joystick, comp, rd);
          return infos', calls, false;
        }
        // the delegate the edge invokes, if any; a null one throws
        var handler: Option<HandlerId> := None;
        var edge := true;
        if !down.value {
          if info.wasDown {
            handler := info.handlers.up;
          } else {
            edge := false;
          }
        } else {
          if !info.wasDown {
            handler := info.handlers.down;
          } else {
            handler := info.handlers.held;
          }
        }
        var fired: seq<HandlerCall> := [];
        if edge {
          if handler.None? {
            PassFails(infos, i, joystick, comp, rd);
            return infos', calls, false;
          }
          fired := [Invoke(handler.value, comp)];
        }
        PassStep(infos, i, joystick, comp, rd, down.value, fired);
        calls := calls + fired;
        infos' := infos'[i := info.(wasDown := down.value)];
        i := i + 1;
      }
      return infos', calls, true;
    }

    /** UpdateInputMapping: one pass over the key list for a mapping. */
    method UpdateInputMapping(joystick: int, comp: ComponentId, tables: NameTables, inputs: Inputs) returns (ok: bool)
      modifies this`keyInfos, this`log
      ensures var p := PassAll(old(keyInfos), joystick, comp, Reader(allowKeyControls, platformPrefix, tables, inputs));
        keyInfos == p.infos && log == old(log) + p.calls && ok == p.ok
    {
      var calls;
      keyInfos, calls, ok := RunPass(keyInfos, joystick, comp, Reader(allowKeyControls, platformPrefix, tables, inputs));
      log := log + calls;
    }

    /** Update's loop over the mapping list, on values: one pass per mapping, in list order, until one throws. */
    static method RunAll(infos: seq<KeyInfo>, maps: seq<Mapping>, rd: Reader)
      returns (infos': seq<KeyInfo>, calls: seq<HandlerCall>, ok: bool)
      ensures RunMappings(infos, maps, rd) == Pass(infos', calls, ok)
    {
      infos', calls := infos, [];
      var i := 0;
      while i < |maps|
        invariant 0 <= i <= |maps|
        invariant RunMappings(infos, maps[..i], rd) == Pass(infos', calls, true)
      {
        RunMappingsStep(infos, maps, i, rd);
        var passCalls, passed;
        infos', passCalls, passed := RunPass(infos', maps[i].joystick, maps[i].component, rd);
        calls := calls + passCalls;
        if !passed {
          RunStopped(infos, maps, i + 1, |maps|, rd);
          RunMappingsWhole(infos, maps, rd);
          return infos', calls, false;
        }
        i := i + 1;
      }
      RunMappingsWhole(infos, maps, rd);
      return infos', calls, true;
    }

    /** Update: one pass per mapping, in list order; `ok` is false where a pass throws. */
    method Update(tables: NameTables, inputs: Inputs) returns (ok: bool)
      modifies this`keyInfos, this`log
      ensures var r := RunMappings(old(keyInfos), inputMap, Reader(allowKeyControls, platformPrefix, tables, inputs));
        keyInfos == r.infos && log == old(log) + r.calls && ok == r.ok
    {
      var calls;
      keyInfos, calls, ok := RunAll(keyInfos, inputMap, Reader(allowKeyControls, platformPrefix, tables, inputs));
      log := log + calls;
    }
  }
}

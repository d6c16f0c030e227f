# LeVR SDK core, modelled in Dafny

This project models the deterministic core of the LeVR Unity SDK. Unity's
input queries, the engine's answers about textures, and the native plugin
are parameters, and every call into the plugin is an entry appended to a
log. The model covers:

- **Display** (`display.dfy`). `LVRDisplay` is the per-tick controller of
  the eye textures. It has four dirty flags, the `prev*` caches, the pool of
  2 or 6 render-texture slots that are created lazily, the buffer index that
  the Android device build rotates, the frame counter, and the
  distortion-caps word with its setters. The platform is a constant:
  editor, standalone player or Android device.
- **UnityVersion** (`unity_version.dfy`, with `decimal.dfy`). `LVRUnityVersion`
  parses a version string, orders versions lexicographically, prints and
  hashes them, and gates features on version ranges.
  `LVRUnityVersionChecker` parses the running version once and caches it.
- **InputControl** (`input_control.dfy`). `LVRInputControl` keeps the list of
  key handlers and a duplicate-free list of joystick-to-component mappings.
  It also builds the input names and runs the per-key down/held/up edge
  detector over every mapping each tick.
- **InputMap** (`input_map.dfy`). `LVRInputMap.Update` is a priority chain
  over eight keys that latches button flags for three gamepad layouts.
- **GameUtils** (`game_utils.dfy`). The depth-first child search by name.
- **DebugGraph** (`debug_graph.dfy`). The three-state toggle of the
  time-warp performance graph.
- **GridCube** (`grid_cube.dfy`). The classification of grid cells, the
  construction of the 13 x 9 x 13 grid, the show/hide toggle and the
  recolouring when tracking changes.
- **CodeTemplate** (`code_template.dfy`). `OnWillCreateAsset`: the path,
  extension and placeholder rewriting applied to a newly created script.

`wrappers.dfy` holds the `Option` and `Result` types, and `int32.dfy` the
wrap-around of C#'s unchecked 32-bit `int` arithmetic.

In the Model table, source paths are relative to the repository root.

## Model

| member | source | states |
|---|---|---|
| Display.WithFlagSpec | Assets/LeVRSDK/Scripts/LVRDisplay.cs:381-402 | Setting a caps flag to v leaves it equal to v and every other flag as it was; setting it to its current value changes nothing |
| Display.AppliedCapsSpec | Assets/LeVRSDK/Scripts/LVRDisplay.cs:467-493 | After the caps update, HqDistortion is set iff anti-aliasing > 0, SRGB is set iff HDR is off, and every other flag is unchanged |
| Display.CapsPushesSpec | Assets/LeVRSDK/Scripts/LVRDisplay.cs:467-493 | The caps update pushes at most two words; it pushes nothing iff the caps do not change, and the last word pushed is the final caps |
| Display.MirrorCapsSpec | Assets/LeVRSDK/Scripts/LVRDisplay.cs:360-375 | The mirrorMode setter's new caps report the requested mirror state and differ from the old ones only in NoMirrorToWindow |
| Display.RecreatedSpec | Assets/LeVRSDK/Scripts/LVRDisplay.cs:537-548 | After the lazy-creation loop every slot is created, slots that were already created are untouched, and a fully created pool is left as it was |
| Display.PushFromCompletes | Assets/LeVRSDK/Scripts/LVRDisplay.cs:555-579 | The push loop runs to the end iff no eye pointer it reads is null; in monoscopic mode the right eye reads the left slot |
| Display.PushFromCalls | Assets/LeVRSDK/Scripts/LVRDisplay.cs:557-573 | The push loop makes SetTexture calls for whole pairs, in slot order, each passing its source slot; a complete push covers every slot |
| Display.PushFromSpec | Assets/LeVRSDK/Scripts/LVRDisplay.cs:555-579 | The two facts above together: when the push completes, and exactly which calls it makes |
| Display.NextIndexIsPair | Assets/LeVRSDK/Scripts/LVRDisplay.cs:580-583 | Rotating the buffer index keeps it even and inside the 6-slot device pool |
| Display.IndexAfterSpec | Assets/LeVRSDK/Scripts/LVRDisplay.cs:580-583 | Starting from 0, after k rotations the index is 2 * (k mod 3): it cycles 0, 2, 4 |
| Display.IndexPeriod | Assets/LeVRSDK/Scripts/LVRDisplay.cs:580-583 | The buffer index repeats every three rotations |
| Display.LVRDisplay.constructor | Assets/LeVRSDK/Scripts/LVRDisplay.cs:95-124 | On desktop, textures and caps need pushing but nothing needs reconfiguring; on the device no flag is set; the viewport flag starts false; both eye descriptors are configured; every slot is configured and created; the index and frame count start at 0 |
| Display.LVRDisplay.ConfigureEyeDescs | Assets/LeVRSDK/Scripts/LVRDisplay.cs:586-608 | Both eye descriptors are replaced by the host's |
| Display.LVRDisplay.ConfigureEyeTextures | Assets/LeVRSDK/Scripts/LVRDisplay.cs:109-113 | Every slot of every pair is rebuilt from its eye's descriptor and created, and every id matches its texture |
| Display.LVRDisplay.ConfigureEyeTexture | Assets/LeVRSDK/Scripts/LVRDisplay.cs:610-625 | Only slot index + eye changes: it gets a new created texture from the eye's descriptor and its native id |
| Display.LVRDisplay.OnSettingModified | Assets/LeVRSDK/Scripts/LVRDisplay.cs:115-123 | Each change event raises exactly one dirty flag (scale/AA/depth/format: configure; virtual scale/monoscopic: set-texture; HDR: caps) and changes nothing else |
| Display.LVRDisplay.Update | Assets/LeVRSDK/Scripts/LVRDisplay.cs:129-134 | Caps, then viewport, then textures. On desktop the caps and configure flags are consumed in the same tick, and the set-texture flag survives only when an eye pointer is null. The device takes the next pair. The pool invariant is kept |
| Display.LVRDisplay.SetDistortionCapsProperty | Assets/LeVRSDK/Scripts/LVRDisplay.cs:414-424 | The caps word becomes the value; the native push happens only when the value changed and the runtime is the desktop one |
| Display.LVRDisplay.SetTimeWarp | Assets/LeVRSDK/Scripts/LVRDisplay.cs:381-389 | Afterwards the getter returns v, only the TimeWarp flag moved, and a push is made only on a real change |
| Display.LVRDisplay.SetFlipInput | Assets/LeVRSDK/Scripts/LVRDisplay.cs:394-402 | Afterwards the getter returns v, only the FlipInput flag moved, and a push is made only on a real change |
| Display.LVRDisplay.SetMirrorMode | Assets/LeVRSDK/Scripts/LVRDisplay.cs:360-375 | A no-op when already in the requested state or on the device; otherwise only NoMirrorToWindow flips and the caps are written once |
| Display.LVRDisplay.BeginFrame | Assets/LeVRSDK/Scripts/LVRDisplay.cs:139-148 | Unless time-warp is frozen, the frame count takes one `int` step: one more, and int.MinValue after int.MaxValue. Exactly one BeginFrame event carrying the count is issued |
| Display.LVRDisplay.EndFrame | Assets/LeVRSDK/Scripts/LVRDisplay.cs:153-156 | Exactly one EndFrame event is issued |
| Display.LVRDisplay.GetEyePose | Assets/LeVRSDK/Scripts/LVRDisplay.cs:184-229 | On desktop, while frozen, the cached pose is returned and nothing is re-sampled; otherwise the pose for the current frame is sampled, cached and returned. On the device only a left-eye call reads the sensor and stores its quaternion. A right-eye call reuses the stored one, which is zero before any left call. The pose's rotation is Quaternion(-x, -y, z, w) of the stored quaternion |
| Display.LVRDisplay.EyeTextureIdAgrees | Assets/LeVRSDK/Scripts/LVRDisplay.cs:315-326 | curr + eye is in bounds, and GetEyeTextureId is the native id of the texture GetEyeTexture returns |
| Display.LVRDisplay.UpdateDistortionCaps | Assets/LeVRSDK/Scripts/LVRDisplay.cs:464-495 | Fires iff desktop and (flag set or anti-aliasing changed). When it fires the caps become the applied caps, the cache is AA, the flag is cleared and set-texture is raised; otherwise nothing changes |
| Display.LVRDisplay.UpdateViewport | Assets/LeVRSDK/Scripts/LVRDisplay.cs:497-514 | On a standalone player, SetViewport(0,0,w,h) is called iff the flag is set or the size changed; afterwards the cache is the screen size and the flag is false |
| Display.LVRDisplay.CreateMissingTextures | Assets/LeVRSDK/Scripts/LVRDisplay.cs:537-548 | The pool becomes Recreated(old pool); ids are refreshed; the result says whether any slot was missing |
| Display.LVRDisplay.PushTextures | Assets/LeVRSDK/Scripts/LVRDisplay.cs:557-573 | Appends exactly PushFrom's calls, and reports completion exactly as PushFrom does |
| Display.LVRDisplay.ReconfigureTextures | Assets/LeVRSDK/Scripts/LVRDisplay.cs:519-534 | New descriptors, every slot rebuilt, one SetModeChange(true), configure flag cleared exactly once, set-texture raised |
| Display.LVRDisplay.PushPendingTextures | Assets/LeVRSDK/Scripts/LVRDisplay.cs:550-579 | The push is wanted iff set-texture, a full-screen change or the mode-change flag holds. A complete push clears the flags, updates prevFullScreen and resets the mode change. An early return on a null pointer keeps all of them for the next tick |
| Display.LVRDisplay.RotateEyeTextureIndex | Assets/LeVRSDK/Scripts/LVRDisplay.cs:580-583 | curr becomes next and next advances by one pair modulo the pool, keeping both valid pair indices |
| Display.LVRDisplay.PrepareTextures | Assets/LeVRSDK/Scripts/LVRDisplay.cs:518-548 | The reconfigure-then-create steps. Every slot ends up created. set-texture is raised iff reconfigured, already set, or a slot was missing. The mode change is logged only when reconfiguring |
| Display.LVRDisplay.UpdateDesktopTextures | Assets/LeVRSDK/Scripts/LVRDisplay.cs:516-579 | The whole desktop UpdateTextures. The final pool is stated, and set-texture is left set exactly when a push was wanted and some pointer was null. The full native call log is stated |
| Display.LVRDisplay.UpdateDeviceTextures | Assets/LeVRSDK/Scripts/LVRDisplay.cs:537-583 | On the device, missing slots are created and the buffer index rotates; no flag or log changes |
| Display.LVRDisplay.TextureLost | Assets/LeVRSDK/Scripts/LVRDisplay.cs:539 | The engine dropping a slot's GPU resource makes only that slot report not created (the case the lazy-creation loop repairs) |
| Display.LVRDisplay.ModeChangeRaised | Assets/LeVRSDK/Scripts/LVRDisplay.cs:553 | The plugin may raise its mode-change flag between ticks, so the next push is wanted |
| Display.LVRDisplay.HandleResolved | Assets/LeVRSDK/Scripts/LVRDisplay.cs:562-568 | The render thread resolving a slot's pointer makes only that slot's pointer non-null (the case the early return waits for) |
| Decimal.NatToStringDigits | Assets/LeVRSDK/Scripts/LVRUnityVersionChecker.cs:231 | The decimal rendering of a natural number is a non-empty run of digits |
| Decimal.NatToStringRoundTrip | Assets/LeVRSDK/Scripts/LVRUnityVersionChecker.cs:108-111 | Reading back the rendering of n gives n |
| Decimal.IntToStringInjective | Assets/LeVRSDK/MobilePlatform/Scripts/Utils/LVRInputControl.cs:114 | Distinct integers render differently |
| UnityVersion.SplitNonDigits | Assets/LeVRSDK/Scripts/LVRUnityVersionChecker.cs:94-95 | Regex.Split at non-digits gives at least one token, and every token is all digits |
| UnityVersion.SplitRoundTrip | Assets/LeVRSDK/Scripts/LVRUnityVersionChecker.cs:94-95 | There is one token more than there are non-digits, and interleaving tokens and separators rebuilds the string |
| UnityVersion.LastLetter | Assets/LeVRSDK/Scripts/LVRUnityVersionChecker.cs:113 | LastOrDefault(IsLetter) is the default iff the string holds no letter; otherwise it is a letter |
| UnityVersion.LastLetterIs | Assets/LeVRSDK/Scripts/LVRUnityVersionChecker.cs:113 | A letter followed by no letter is the last letter |
| UnityVersion.ParseValid | Assets/LeVRSDK/Scripts/LVRUnityVersionChecker.cs:91-136 | Valid iff there are exactly four tokens, each a number that fits in an int, and the string holds some letter |
| UnityVersion.ParseFallback | Assets/LeVRSDK/Scripts/LVRUnityVersionChecker.cs:100-122 | Without four tokens the result is 0.0.0a1, reported invalid, with exactly one error logged (logged, not thrown) |
| UnityVersion.ParseKind | Assets/LeVRSDK/Scripts/LVRUnityVersionChecker.cs:113-132 | The type is the last letter with 'c' read as 'f'; it is never 'c'; without a letter it stays 'a' and the version is invalid |
| UnityVersion.SplitPrinted | Assets/LeVRSDK/Scripts/LVRUnityVersionChecker.cs:229-232 | The printed form splits into the four printed numbers |
| UnityVersion.LastLetterPrinted | Assets/LeVRSDK/Scripts/LVRUnityVersionChecker.cs:229-232 | The last letter of the printed form is the type letter |
| UnityVersion.ParseToString | Assets/LeVRSDK/Scripts/LVRUnityVersionChecker.cs:229-232 | Parsing the printed form of a version with non-negative int fields and a letter type other than 'c' gives that version back, judged valid |
| UnityVersion.LexLessTransitive | Assets/LeVRSDK/Scripts/LVRUnityVersionChecker.cs:183-206 | The reference lexicographic order is transitive |
| UnityVersion.LexLessTotal | Assets/LeVRSDK/Scripts/LVRUnityVersionChecker.cs:183-206 | The reference order is total, asymmetric and irreflexive |
| UnityVersion.CompareToIsLexicographic | Assets/LeVRSDK/Scripts/LVRUnityVersionChecker.cs:183-206 | CompareTo < 0 iff v precedes w on (major, minor, change, type, release), > 0 iff w precedes v, and 0 iff all five fields agree |
| UnityVersion.CompareToTotalOrder | Assets/LeVRSDK/Scripts/LVRUnityVersionChecker.cs:183-206 | CompareTo is antisymmetric in sign and transitive, for both <= and < |
| UnityVersion.OperatorsAreLexicographic | Assets/LeVRSDK/Scripts/LVRUnityVersionChecker.cs:208-227 | All six operators are the reference order or equality on the fields; a string operand is parsed first; CompareTo of a null string is 1 |
| UnityVersion.EqualsMeansSameFields | Assets/LeVRSDK/Scripts/LVRUnityVersionChecker.cs:161-173 | Equals holds iff the operand is a version with the same fields, or a string that parses to one; null and other objects are unequal |
| Int32.Wrap32 | Assets/LeVRSDK/Scripts/LVRUnityVersionChecker.cs:149-157 | Unchecked int arithmetic: the result is in int range and congruent to the exact value modulo 2^32 |
| Int32.WrapIncrement | Assets/LeVRSDK/Scripts/LVRDisplay.cs:144 | `x++` on an int adds one, except that int.MaxValue steps to int.MinValue |
| UnityVersion.HashAgreesWithEquality | Assets/LeVRSDK/Scripts/LVRUnityVersionChecker.cs:147-159 | Versions that == calls equal have equal hash codes, and every hash code fits in an int |
| UnityVersion.GateLiteral | Assets/LeVRSDK/Scripts/LVRUnityVersionChecker.cs:55-57 | A gate literal whose split and letter are known parses to the version it spells |
| UnityVersion.RangeTest | Assets/LeVRSDK/Scripts/LVRUnityVersionChecker.cs:56 | `version >= lo && version < hi` with string bounds is membership of the half-open range [lo, hi) |
| UnityVersion.D3D9Ranges | Assets/LeVRSDK/Scripts/LVRUnityVersionChecker.cs:51-61 | D3D9 exclusive mode is unsupported exactly on [4.5.2p2, 4.5.5b1) and [4.6.0b1, 4.6.0b21) |
| UnityVersion.D3D11Ranges | Assets/LeVRSDK/Scripts/LVRUnityVersionChecker.cs:66-77 | D3D11 exclusive mode is unsupported exactly on [4.5.2p2, 4.5.5p3), [4.6.0b1, 4.6.0b22) and [5.0.0b1, 5.0.0b19) |
| UnityVersion.VersionChecker.constructor | Assets/LeVRSDK/Scripts/LVRUnityVersionChecker.cs:12-13 | Nothing is cached yet and nothing is logged |
| UnityVersion.VersionChecker.GetVersion | Assets/LeVRSDK/Scripts/LVRUnityVersionChecker.cs:17-29 | Returns the parse of the running version. The first read parses and logs; later reads return the same cached value and log nothing. Only the cache and the error log change |
| UnityVersion.VersionChecker.D3D9ExclusiveModeSupported | Assets/LeVRSDK/Scripts/LVRUnityVersionChecker.cs:51-61 | The D3D9 gate for the running version, through the cache: a first call logs the parse errors, later calls log nothing. Only the cache and the error log change |
| UnityVersion.VersionChecker.D3D11ExclusiveModeSupported | Assets/LeVRSDK/Scripts/LVRUnityVersionChecker.cs:66-77 | The D3D11 gate for the running version, through the cache: a first call logs the parse errors, later calls log nothing. Only the cache and the error log change |
| InputControl.MouseCodeInjective | Assets/LeVRSDK/MobilePlatform/Scripts/Utils/LVRInputControl.cs:55-63 | The MouseButton enumeration's integer values are distinct |
| InputControl.Lookup | Assets/LeVRSDK/MobilePlatform/Scripts/Utils/LVRInputControl.cs:414 | A name-table lookup succeeds iff the index is in range, and then gives that entry |
| InputControl.PlatformSettingsSpec | Assets/LeVRSDK/MobilePlatform/Scripts/Utils/LVRInputControl.cs:257-290 | Key controls are off exactly on Windows, OSX and iPhone players; every known platform's prefix ends in ':', and an unknown platform gets the empty prefix |
| InputControl.NoColonInNumber | Assets/LeVRSDK/MobilePlatform/Scripts/Utils/LVRInputControl.cs:368 | The rendering of a joystick number is non-empty and holds no ':' |
| InputControl.JoystickNameInjective | Assets/LeVRSDK/MobilePlatform/Scripts/Utils/LVRInputControl.cs:368 | `prefix + "Joy " + n + ":" + name` determines n and name: different joysticks or controls never share an input name |
| InputControl.MouseKeyNameInjective | Assets/LeVRSDK/MobilePlatform/Scripts/Utils/LVRInputControl.cs:114 | `"Mouse Button " + (int)button` names different buttons differently |
| InputControl.GetJoystickButton | Assets/LeVRSDK/MobilePlatform/Scripts/Utils/LVRInputControl.cs:412-417 | Defined iff the button indexes the name table and its full name is set up in the Input Manager; then it is Input.GetButton of that name |
| InputControl.GetJoystickAxis | Assets/LeVRSDK/MobilePlatform/Scripts/Utils/LVRInputControl.cs:376-380 | Defined iff the axis indexes the name table and its full name is set up in the Input Manager; then it is Input.GetAxis of that name |
| InputControl.AxisByNameSpec | Assets/LeVRSDK/MobilePlatform/Scripts/Utils/LVRInputControl.cs:352-370 | An axis read by name is Input.GetAxis of the full name, and throws iff that name is not set up. On the device build the two trigger names instead read the shoulder button, as 1 when pressed and 0 otherwise, and throw iff that button read does |
| InputControl.KeyInfoForKey | Assets/LeVRSDK/MobilePlatform/Scripts/Utils/LVRInputControl.cs:84-101 | A key entry holds the key name and handlers, threshold 1000, not down, and no mouse, button or axis |
| InputControl.KeyInfoForMouse | Assets/LeVRSDK/MobilePlatform/Scripts/Utils/LVRInputControl.cs:106-123 | A mouse entry is named "Mouse Button <code>", threshold 1000, not down |
| InputControl.KeyInfoForButton | Assets/LeVRSDK/MobilePlatform/Scripts/Utils/LVRInputControl.cs:128-145 | A button entry exists iff the button indexes the name table; it is named from the table, threshold 1000, not down |
| InputControl.KeyInfoForAxis | Assets/LeVRSDK/MobilePlatform/Scripts/Utils/LVRInputControl.cs:150-167 | An axis entry exists iff the axis indexes the name table; it is named from the table, threshold 0.5, not down |
| InputControl.ReadingSpec | Assets/LeVRSDK/MobilePlatform/Scripts/Utils/LVRInputControl.cs:538-558 | Keyboard and mouse are read only when key controls are allowed and are otherwise not down; gamepad and axis entries are always read; an axis is down iff its value reaches the threshold. A keyboard read throws iff Input.GetKey does not know the name; an axis read throws iff the axis lookup does |
| InputControl.VisitSpec | Assets/LeVRSDK/MobilePlatform/Scripts/Utils/LVRInputControl.cs:560-584 | down fires exactly on false to true, held on true to true, up on true to false, nothing on false to false; afterwards wasDown is the reading. A null delegate on the edge throws instead, before wasDown is written |
| InputControl.CountAppend | Assets/LeVRSDK/MobilePlatform/Scripts/Utils/LVRInputControl.cs:560-584 | Counting transitions distributes over concatenation |
| InputControl.PressReleaseBalance | Assets/LeVRSDK/MobilePlatform/Scripts/Utils/LVRInputControl.cs:560-584 | Over any run of readings, the presses plus the initial state equal the releases plus the final state: downs and ups alternate |
| InputControl.PassUpTo | Assets/LeVRSDK/MobilePlatform/Scripts/Utils/LVRInputControl.cs:533-585 | A pass over the first k keys leaves the later entries untouched, fires at most one callback per key, and every callback goes to the mapping's component |
| InputControl.VisitThrows | Assets/LeVRSDK/MobilePlatform/Scripts/Utils/LVRInputControl.cs:538-584 | A key's visit throws iff its reading throws or the delegate its edge invokes is null |
| InputControl.PassStep | Assets/LeVRSDK/MobilePlatform/Scripts/Utils/LVRInputControl.cs:560-584 | One more key updates that key's wasDown and appends its callback |
| InputControl.PassFails | Assets/LeVRSDK/MobilePlatform/Scripts/Utils/LVRInputControl.cs:538-584 | A read or a null delegate that throws ends the pass, keeping what was done so far |
| InputControl.PassStopped | Assets/LeVRSDK/MobilePlatform/Scripts/Utils/LVRInputControl.cs:533-585 | After an exception no further key is visited |
| InputControl.SharedWasDown | Assets/LeVRSDK/MobilePlatform/Scripts/Utils/LVRInputControl.cs:516-586 | wasDown is shared: a key with down and up delegates, seen down by one mapping and up by the next, fires down for the first component and up for the second in the same tick |
| InputControl.RunStopped | Assets/LeVRSDK/MobilePlatform/Scripts/Utils/LVRInputControl.cs:516-526 | After an exception no further mapping runs |
| InputControl.RunMappingsStep | Assets/LeVRSDK/MobilePlatform/Scripts/Utils/LVRInputControl.cs:520-525 | Each mapping's pass starts from the wasDown values the previous mapping left |
| InputControl.RunMappingsComponents | Assets/LeVRSDK/MobilePlatform/Scripts/Utils/LVRInputControl.cs:516-526 | Every callback of a tick goes to a mapped component |
| InputControl.RunMappingsCallCount | Assets/LeVRSDK/MobilePlatform/Scripts/Utils/LVRInputControl.cs:516-526 | A tick fires at most one callback per key and mapping |
| InputControl.FirstIndex | Assets/LeVRSDK/MobilePlatform/Scripts/Utils/LVRInputControl.cs:493-501 | The search loop's hit is the first entry equal to the mapping |
| InputControl.AddedSpec | Assets/LeVRSDK/MobilePlatform/Scripts/Utils/LVRInputControl.cs:474-486 | Adding keeps the list duplicate-free, afterwards the mapping is present, the entries are the old ones plus it, and a duplicate request leaves the list unchanged |
| InputControl.RemovedSpec | Assets/LeVRSDK/MobilePlatform/Scripts/Utils/LVRInputControl.cs:491-502 | Removing keeps the list duplicate-free, the mapping is gone, other entries stay, and the length drops by one exactly when it was present |
| InputControl.RemoveUndoesAdd | Assets/LeVRSDK/MobilePlatform/Scripts/Utils/LVRInputControl.cs:474-502 | Removing a mapping just added restores the list, order included |
| InputControl.LVRInputControl.constructor | Assets/LeVRSDK/MobilePlatform/Scripts/Utils/LVRInputControl.cs:257-290 | The platform's key-control setting and prefix; no handlers, no mappings |
| InputControl.LVRInputControl.AddKeyHandler | Assets/LeVRSDK/MobilePlatform/Scripts/Utils/LVRInputControl.cs:295-303 | Appends the key entry |
| InputControl.LVRInputControl.AddMouseHandler | Assets/LeVRSDK/MobilePlatform/Scripts/Utils/LVRInputControl.cs:308-316 | Appends the mouse entry |
| InputControl.LVRInputControl.AddButtonHandler | Assets/LeVRSDK/MobilePlatform/Scripts/Utils/LVRInputControl.cs:321-329 | Appends the button entry; fails, leaving the list unchanged, iff the button is outside the name table |
| InputControl.LVRInputControl.AddAxisHandler | Assets/LeVRSDK/MobilePlatform/Scripts/Utils/LVRInputControl.cs:334-342 | Appends the axis entry; fails, leaving the list unchanged, iff the axis is outside the name table |
| InputControl.LVRInputControl.AddInputMapping | Assets/LeVRSDK/MobilePlatform/Scripts/Utils/LVRInputControl.cs:474-486 | Reports a duplicate iff the pair is already mapped; the list becomes Added(old list, pair) and stays duplicate-free |
| InputControl.LVRInputControl.RemoveInputMapping | Assets/LeVRSDK/MobilePlatform/Scripts/Utils/LVRInputControl.cs:491-502 | The list becomes Removed(old list, pair), without its first match, and stays duplicate-free |
| InputControl.LVRInputControl.ClearControlMappings | Assets/LeVRSDK/MobilePlatform/Scripts/Utils/LVRInputControl.cs:507-510 | The mapping list is empty |
| InputControl.LVRInputControl.RunPass | Assets/LeVRSDK/MobilePlatform/Scripts/Utils/LVRInputControl.cs:533-585 | The loop over the key entries computes the pass PassAll specifies |
| InputControl.LVRInputControl.UpdateInputMapping | Assets/LeVRSDK/MobilePlatform/Scripts/Utils/LVRInputControl.cs:531-586 | The entries and the callbacks fired are those of the pass over every key for one mapping |
| InputControl.LVRInputControl.RunAll | Assets/LeVRSDK/MobilePlatform/Scripts/Utils/LVRInputControl.cs:518-525 | The loop over the mappings computes RunMappings |
| InputControl.LVRInputControl.Update | Assets/LeVRSDK/MobilePlatform/Scripts/Utils/LVRInputControl.cs:516-526 | The entries and the callbacks fired are RunMappings over the current mapping list |
| InputMap.FirstDownIndex | Assets/LeVRSDK/Scripts/LVRInputMap.cs:72-107 | The position of the first key in the chain that went down, or the length when none did |
| InputMap.WinnerIsFirstDown | Assets/LeVRSDK/Scripts/LVRInputMap.cs:72-107 | At most one branch runs: the first key down in the order JB0, JB1, Escape, JB4, JB5, JB2, JB3, JB10; the else branch runs iff none went down |
| InputMap.Latch | Assets/LeVRSDK/Scripts/LVRInputMap.cs:72-127 | A frame with a key down only adds the winner's flags to the ones already set; a frame with none clears every button flag of both structs |
| InputMap.BranchSetsOne | Assets/LeVRSDK/Scripts/LVRInputMap.cs:72-107 | Each branch sets at most one LeVR flag and exactly one Moga flag |
| InputMap.TriggersNeverSet | Assets/LeVRSDK/Scripts/LVRInputMap.cs:72-127 | R2 and L2 of the Moga struct are never set true by the chain |
| InputMap.LeVRFollowsMoga | Assets/LeVRSDK/Scripts/LVRInputMap.cs:72-107 | JB0 sets A in both structs, Escape sets BACK and SELECT together, and likewise for B and R1 |
| InputMap.ReadAxis | Assets/LeVRSDK/Scripts/LVRInputMap.cs:56-66 | Input.GetAxis answers the axis value iff the name is set up in the Input Manager, and throws otherwise |
| InputMap.AxesRead | Assets/LeVRSDK/Scripts/LVRInputMap.cs:56-66 | The number of axis reads, in the order Horizontal, Vertical, Horizontal, Vertical, RightHorizontal, RightVertical, Dpad X, Dpad Y, that succeed before the first throw: every earlier name is set up and the one at that position is not |
| InputMap.LVRInputMap.Update | Assets/LeVRSDK/Scripts/LVRInputMap.cs:51-139 | Nothing changes when the controller is off. Otherwise the call throws iff one of the eight axis names is not set up; then the axes read before it are written and SECONDARY and every flag keep their values. Without a throw SECONDARY is whether the right mouse button went down this frame, and the structs take their next state |
| InputMap.LVRInputMap.RunChain | Assets/LeVRSDK/Scripts/LVRInputMap.cs:72-127 | The if/else chain leaves the structs' flags as the winner's latch says |
| GameUtils.FindChildNoWarning | Assets/LeVRSDK/MobilePlatform/Scripts/Utils/LVRGameUtils.cs:6-23 | A non-null result names a node of the subtree that has the requested name |
| GameUtils.FindInChildren | Assets/LeVRSDK/MobilePlatform/Scripts/Utils/LVRGameUtils.cs:13-20 | A hit in the children is a proper descendant with the name |
| GameUtils.FindChild | Assets/LeVRSDK/MobilePlatform/Scripts/Utils/LVRGameUtils.cs:25-34 | Returns exactly FindChildNoWarning's result and logs one warning only when it is null |
| GameUtils.FindIsFirstInPreOrder | Assets/LeVRSDK/MobilePlatform/Scripts/Utils/LVRGameUtils.cs:6-23 | The result is the first node in depth-first pre-order (children in order) that has the name |
| GameUtils.FindInChildrenIsFirst | Assets/LeVRSDK/MobilePlatform/Scripts/Utils/LVRGameUtils.cs:13-20 | The foreach from child i on returns the first named node of those children's pre-order |
| GameUtils.RootFirst | Assets/LeVRSDK/MobilePlatform/Scripts/Utils/LVRGameUtils.cs:8-11 | A root with the name is returned, whatever its children |
| GameUtils.NotFoundIffAbsent | Assets/LeVRSDK/MobilePlatform/Scripts/Utils/LVRGameUtils.cs:8-22 | The result is null iff no node of the subtree has the name |
| DebugGraph.PressMoves | Assets/LeVRSDK/MobilePlatform/Scripts/Utils/LVRDebugGraph.cs:39-50 | A press moves each of OFF, RUNNING and FROZEN to a different mode, and two presses never return; an unhandled value stays |
| DebugGraph.ThreePresses | Assets/LeVRSDK/MobilePlatform/Scripts/Utils/LVRDebugGraph.cs:39-50 | Three presses return to the starting mode |
| DebugGraph.PressesModThree | Assets/LeVRSDK/MobilePlatform/Scripts/Utils/LVRDebugGraph.cs:39-50 | The mode after n presses depends only on n mod 3 |
| DebugGraph.LVRDebugGraph.constructor | Assets/LeVRSDK/MobilePlatform/Scripts/Utils/LVRDebugGraph.cs:6 | The graph starts OFF with no native call and no log, watching the given toggle button |
| DebugGraph.LVRDebugGraph.Start | Assets/LeVRSDK/MobilePlatform/Scripts/Utils/LVRDebugGraph.cs:17-23 | On the device the current mode is pushed to the native side; otherwise nothing happens |
| DebugGraph.LVRDebugGraph.Update | Assets/LeVRSDK/MobilePlatform/Scripts/Utils/LVRDebugGraph.cs:29-56 | A toggle button outside the name table, or a button name the Input Manager does not define, throws and changes nothing. Without a press nothing changes. A press logs the toggle and moves OFF to RUNNING, RUNNING to FROZEN and FROZEN to OFF; on the device it pushes the new mode |
| GridCube.CubeType | Assets/LeVRSDK/Scripts/Util/LVRGridCube.cs:104-111 | Type 2 iff all three coordinates are 0, type 1 iff exactly two are, type 0 otherwise |
| GridCube.CubeAppearance | Assets/LeVRSDK/Scripts/Util/LVRGridCube.cs:122-142 | The centre is yellow at scale 2.0, axis cubes are white at 1.0, and the rest are red at 0.7, each times the cube scale |
| GridCube.GridCells | Assets/LeVRSDK/Scripts/Util/LVRGridCube.cs:96-98 | The grid has 1521 cubes, and the cube at each cell's position in loop order is that cell's cube |
| GridCube.GridPosInjective | Assets/LeVRSDK/Scripts/Util/LVRGridCube.cs:21-23 | Every cell of [-6,6] x [-4,4] x [-6,6] has its own position in the grid: each point is visited once |
| GridCube.GridTypeCounts | Assets/LeVRSDK/Scripts/Util/LVRGridCube.cs:96-111 | Exactly 1 cube has type 2 (the centre) and 32 have type 1 (the axes) |
| GridCube.GridMade | Assets/LeVRSDK/Scripts/Util/LVRGridCube.cs:96-142 | Every cube of the grid is built from its own cell |
| GridCube.RecolorTouchesOnlyRedBlue | Assets/LeVRSDK/Scripts/Util/LVRGridCube.cs:161-167 | Only the colour changes; white and yellow cubes are untouched, red and blue ones take the target colour |
| GridCube.RecolorLast | Assets/LeVRSDK/Scripts/Util/LVRGridCube.cs:155-168 | Two recolourings in a row equal the last one |
| GridCube.FreshGridIsRed | Assets/LeVRSDK/Scripts/Util/LVRGridCube.cs:122-128 | A new grid already carries the red non-axis colour |
| GridCube.LVRGridCube.constructor | Assets/LeVRSDK/Scripts/Util/LVRGridCube.cs:15-19 | No grid, hidden, both colour flags false, and no camera controller |
| GridCube.LVRGridCube.SetLVRCameraController | Assets/LeVRSDK/Scripts/Util/LVRGridCube.cs:45-48 | The controller is set iff the reference handed in is non-null |
| GridCube.LVRGridCube.CreateCubeGrid | Assets/LeVRSDK/Scripts/Util/LVRGridCube.cs:87-149 | One warning is logged and an active grid exists. With a camera controller it holds exactly the full grid of cubes; without one it stays empty and the call throws |
| GridCube.LVRGridCube.BuildGrid | Assets/LeVRSDK/Scripts/Util/LVRGridCube.cs:96-146 | The triple loop produces the full grid |
| GridCube.LVRGridCube.CreatePlane | Assets/LeVRSDK/Scripts/Util/LVRGridCube.cs:97-146 | The two inner loops produce one x-plane |
| GridCube.LVRGridCube.CubeGridSwitchColor | Assets/LeVRSDK/Scripts/Util/LVRGridCube.cs:155-168 | Every red or blue cube takes the target colour: blue when not tracked, red otherwise |
| GridCube.LVRGridCube.UpdateCubeGrid | Assets/LeVRSDK/Scripts/Util/LVRGridCube.cs:50-85 | F flips CubeGridOn. The grid is created only when shown while absent. Creating it without a camera controller throws, leaving an empty, shown grid that later ticks never fill, and skips the colour update. Recolouring happens only on a change of the not-tracked edge. The log records the button and ON/OFF messages. The invariant on visibility and colours is kept |
| CodeTemplate.LastIndexOf | Assets/LvrVideoPlayer/Editor/CodeTemplate.cs:22 | The last occurrence, or -1 when there is none |
| CodeTemplate.LastIndexOfAbsent | Assets/LvrVideoPlayer/Editor/CodeTemplate.cs:22 | LastIndexOf is -1 iff the pattern occurs nowhere |
| CodeTemplate.Split | Assets/LvrVideoPlayer/Editor/CodeTemplate.cs:21 | The pieces between the occurrences Replace finds; none holds the pattern |
| CodeTemplate.SplitRoundTrip | Assets/LvrVideoPlayer/Editor/CodeTemplate.cs:21 | Joining the pieces with the pattern rebuilds the string |
| CodeTemplate.ReplaceIsJoinOfSplit | Assets/LvrVideoPlayer/Editor/CodeTemplate.cs:31-32 | Replace puts the replacement where each found occurrence was and keeps all other text |
| CodeTemplate.ReplaceAbsent | Assets/LvrVideoPlayer/Editor/CodeTemplate.cs:31-32 | Text without the pattern comes out unchanged |
| CodeTemplate.MetaCanReappear | Assets/LvrVideoPlayer/Editor/CodeTemplate.cs:21 | A single Replace pass can leave a ".meta" formed where two pieces meet |
| CodeTemplate.StripMetaPlain | Assets/LvrVideoPlayer/Editor/CodeTemplate.cs:21 | A path without ".meta" is left as it is |
| CodeTemplate.StripMetaSplits | Assets/LvrVideoPlayer/Editor/CodeTemplate.cs:21 | Every found ".meta" is removed and the text between them is kept |
| CodeTemplate.Extension | Assets/LvrVideoPlayer/Editor/CodeTemplate.cs:22-23 | The suffix from the last '.' inclusive; it throws ArgumentOutOfRange iff the path has no '.' |
| CodeTemplate.ExtensionOfSuffix | Assets/LvrVideoPlayer/Editor/CodeTemplate.cs:22-23 | A path ending in '.' plus a dot-free tail has exactly that ending as its extension |
| CodeTemplate.AbsolutePath | Assets/LvrVideoPlayer/Editor/CodeTemplate.cs:27-28 | dataPath cut before its last "Assets", then the asset path; it throws iff dataPath has no "Assets" |
| CodeTemplate.AbsolutePathOfProject | Assets/LvrVideoPlayer/Editor/CodeTemplate.cs:27-28 | Under "<root>Assets<tail>" with no later "Assets", the absolute path is root + asset path |
| CodeTemplate.SubstituteSplits | Assets/LvrVideoPlayer/Editor/CodeTemplate.cs:31-32 | Every found "#CREATIONDATE#" becomes the date, then every "#SMARTDEVELOPERS#" becomes "hcq"; all other text is unchanged |
| CodeTemplate.SubstitutePlain | Assets/LvrVideoPlayer/Editor/CodeTemplate.cs:31-32 | Text with neither placeholder is left as it was |
| CodeTemplate.Target | Assets/LvrVideoPlayer/Editor/CodeTemplate.cs:19-36 | The outcome for a path. It throws iff the stripped path has no '.', or is a script while dataPath has no "Assets". Anything other than exactly .cs, .js or .boo is skipped. A script is rewritten at its absolute path |
| CodeTemplate.ScriptIsRewritten | Assets/LvrVideoPlayer/Editor/CodeTemplate.cs:19-36 | A created .cs file under a project folder is rewritten at the project root plus its path |
| CodeTemplate.AssetFiles.OnWillCreateAsset | Assets/LvrVideoPlayer/Editor/CodeTemplate.cs:19-36 | On an exception or a skip the disk is untouched. A missing file gives FileNotFound. Otherwise exactly that file gets its placeholders filled and the database refreshes once |

## Left out

- Capability words are modelled as the sets of flags they hold, not as `uint` bit patterns. Bits the display never reads or writes are not modelled.
- The bool button fields of the `LVRInputMap` structs are held as the set of those that are true.
- Floating-point pose math, field-of-view and texture-size computation in `ConfigureEyeDesc`, `GetProjection` and `latency` are not modelled. Poses and eye descriptors are opaque values from the host, and the engine's texture ids and null pointers come from an `Engine` parameter.
- Native plugin calls (`OVR_*`, `LVRPluginEvent`, `capiHmd`, `OVR_TW_SetDebugMode`) are entries in a log. The render-thread hand-off and buffer release are not modelled. Plugin state the display reads back is a field: the mode-change flag, which the display writes and the plugin may raise (`ModeChangeRaised`), the sensor quaternion, and the texture pointers the render thread resolves (`HandleResolved`).
- `LVRManager` settings, `QualitySettings`, `Screen` and Unity's `Input` are read through `Host`, `Inputs` and `Frame` parameters.
- `Application.platform` and the compile-time symbols are constants. The `#elif` in the constructor can never be compiled, so the viewport flag starts false.
- `Display.LVRDisplay.Update`: its contract summarises the outcome of the tick: flags consumed, pool invariant kept, buffer index rotated. The full new state is stated by `UpdateDistortionCaps`, `UpdateViewport`, `UpdateDesktopTextures` and `UpdateDeviceTextures`, which `Update` calls in order. Chaining all of them in one postcondition is too costly for the verifier.
- `UpdateTextures` is split by build into `UpdateDesktopTextures` and `UpdateDeviceTextures`. The desktop path is further split into `PrepareTextures`, `ReconfigureTextures`, `CreateMissingTextures` and `PushPendingTextures`, and its push loop is `PushTextures`. The steps run in the source's order.
- `GetEyeRenderDesc`, `GetHeadPose`, `GetProjection`, `latency` and the other float or native getters of `LVRDisplay` are not modelled. `isDirectMode` and the `timeWarp`/`flipInput`/`mirrorMode` getters are functions without separate lemmas.
- `LVRGamepadController` and `LVRTimeWarpUtils` are not part of this model. Their button/axis enumerations, name tables and debug-mode enumeration are integers, a `NameTables` parameter and a datatype.
- `LVRInputControl.ReadJoystickAxis` and `ReadJoystickButton` are not modelled separately. They are legacy delegates that call `GetJoystickAxis`/`GetJoystickButton` for joystick 1.
- `LVRInputControl.GetJoystickButton(int, string)` and `GetMouseButton` are single `Input` queries. They appear inside `Reading` as `ReadButton(inputs, JoystickName(...))` and `inputs.mouse(MouseCode(...))`. Input.GetMouseButton is taken to answer for every button value.
- `LVRInputControl.ShowAxisValues`, `ShowButtonValues` and the joystick-name logging in the static constructor print debug output only and are not modelled.
- `InputControl.LVRInputControl.UpdateInputMapping`: the callbacks of one pass are collected and appended to the log after the pass, instead of being invoked inside the loop. Callbacks are opaque ids and cannot re-enter the input lists, so the order of the log is the order of invocation.
- The loops of `LVRInputControl.Update` and `UpdateInputMapping` run in the static methods `RunAll` and `RunPass` over the list values. The instance methods assign the results back.
- `LVRInputMap.Update` and `LVRDebugGraph.Update` report an `Input.GetAxis`/`Input.GetButtonDown` throw for a name the Input Manager does not define as `ok == false`.
- An exception in `UpdateInputMapping` is an error result that ends the tick, keeping the `wasDown` values written before it. The exceptions modelled are an out-of-range `ButtonNames[...]`/`AxisNames[...]` lookup, an `Input` query for an undefined name, and a null handler delegate.
- `LVRInputMap`'s console logging of the current event is not modelled.
- `char.IsLetter` is modelled for ASCII letters only.
- `LastIndexOf` is modelled as an ordinal search. The culture-sensitive comparison of the default overload is not modelled.
- Null paths and null GameObjects are outside the model.
- `File.ReadAllText`/`WriteAllText` act on a map from path to text, and only a missing file is modelled as an IO error. Other IO errors, encodings and `AssetDatabase.Refresh` beyond a counter are not modelled. `DateTime.Now.ToString("d")` and `Application.dataPath` are parameters.
- GameObject creation in `LVRGridCube` is not modelled: the grid object is a sequence of cubes. Cube positions are kept as integer cells; the multiplication by the grid scale, 0.3, is not carried out. The `GridKey` field is unused by the source and is kept only as a constant.
- `LVRGridCube`'s triple loop runs in the static methods `BuildGrid` and `CreatePlane`.
- Of the camera rig handed to `LVRGridCube.SetLVRCameraController`, only whether it is null is kept. The tracker's state is a parameter of `UpdateCubeGrid`.
- Static fields of the source are fields of one class instance: `frameCount`, the version cache, the input lists, and `LVRInputMap`'s `keyCodes`, `keyCodesPro` and `keyCodeMogaHID` structs.
- `UnityVersion.CompareToString`, `UnityVersion.CompareWithString` and `UnityVersion.Equals` with a string operand do not record the `Debug.LogError` that the parsing constructor emits for an invalid string. Pure functions cannot append to the error log; the parse itself, and so the result, is modelled.
- `LVRTracker`, `VideoPlayer`, both `BaseBehaviour` classes, `HttpUtils`, `CrosshairManager`, `LVRVolumeControl`, `LVR3DText`, `LVRChromaticAberration`, `LVRMonoscopic`, `LVRResetOrientation`, `LVRDebugUtils` and the editor scripts are not part of this model. They are thin wrappers over native, network, float or editor APIs.

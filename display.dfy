/**
 * The frame and eye-texture controller of an LVR head-mounted display
 * (LVRDisplay). Each tick it consumes dirty flags in a fixed order
 * (distortion caps, viewport, textures), keeps a pool of eye render
 * textures, rotates the buffer index on the Android device build, counts
 * frames, and keeps the distortion-capability bit set.
 *
 * Calls into the native plugin are appended to an event log; what the
 * engine, the quality settings and LVRManager report is passed in.
 */
module Display {
  import opened Int32

  // ---------------------------------------------------------------------------------------
  // Platforms

  /**
   * The build the code is compiled for. `Editor` covers every editor build
   * (UNITY_EDITOR, whatever the target); `Standalone` is a non-Android
   * player; `AndroidDevice` is UNITY_ANDROID && !UNITY_EDITOR. `osx` is
   * UNITY_STANDALONE_OSX or UNITY_EDITOR_OSX.
   */
  datatype Platform = Editor(osx: bool) | Standalone(osx: bool) | AndroidDevice

  /** `!UNITY_ANDROID || UNITY_EDITOR`: the builds that drive the desktop runtime (CAPI). */
  predicate IsDesktop(p: Platform) { !p.AndroidDevice? }

  /** Number of eye-texture slots: triple-buffered pairs on the device, one pair otherwise. */
  function EyeTextureCount(p: Platform): nat { if p.AndroidDevice? then 6 else 2 }

  datatype Eye = Left | Right

  function EyeIndex(eye: Eye): nat { if eye.Left? then 0 else 1 }

  // ---------------------------------------------------------------------------------------
  // Capability flags. The caps words of the runtime are modelled as the sets of flags they
  // hold: `caps | f` is `caps + {f}`, `caps & ~f` is `caps - {f}`, `(caps & f) != 0` is `f in caps`.

  /** The distortion-rendering flags the display reads or writes. */
  datatype DistortionCap =
    | Chromatic | TimeWarp | Vignette | FlipInput | SRGB | Overdrive | HqDistortion | ProfileNoTimewarpSpinWaits

  /** The HMD flags the display reads or writes; any other flag the runtime reports is `OtherHmdCap`. */
  datatype HmdCap = ExtendDesktop | NoMirrorToWindow | OtherHmdCap(bit: nat)

  /** The initial value of `_distortionCaps`. */
  function InitialDistortionCaps(p: Platform): set<DistortionCap>
  {
    (if !p.AndroidDevice? && p.osx then {ProfileNoTimewarpSpinWaits} else {}) + {Chromatic, Vignette, Overdrive}
  }

  /** `caps ^= f`. */
  function Toggle(caps: set<DistortionCap>, f: DistortionCap): set<DistortionCap>
  {
    if f in caps then caps - {f} else caps + {f}
  }

  /** The timeWarp / flipInput setters: toggle the flag only when it differs from the requested value. */
  function WithFlag(caps: set<DistortionCap>, f: DistortionCap, value: bool): set<DistortionCap>
  {
    if value != (f in caps) then Toggle(caps, f) else caps
  }

  /** Setting a flag makes its getter return the value, touches no other flag, and is a no-op when already so. */
  lemma WithFlagSpec(caps: set<DistortionCap>, f: DistortionCap, value: bool)
    ensures (f in WithFlag(caps, f, value)) == value
    ensures forall g :: g != f ==> (g in WithFlag(caps, f, value) <==> g in caps)
    ensures value == (f in caps) ==> WithFlag(caps, f, value) == caps
  {
  }

  /** The first assignment in UpdateDistortionCaps: high-quality distortion follows anti-aliasing. */
  function WithHq(caps: set<DistortionCap>, antiAliasing: int): set<DistortionCap>
  {
    if antiAliasing > 0 then caps + {HqDistortion} else caps - {HqDistortion}
  }

  /** The second assignment: sRGB is on exactly when HDR is off. */
  function WithSrgb(caps: set<DistortionCap>, hdr: bool): set<DistortionCap>
  {
    if hdr then caps - {SRGB} else caps + {SRGB}
  }

  /** The caps UpdateDistortionCaps leaves when it fires. */
  function AppliedCaps(caps: set<DistortionCap>, antiAliasing: int, hdr: bool): set<DistortionCap>
  {
    WithSrgb(WithHq(caps, antiAliasing), hdr)
  }

  /** After firing, HqDistortion is set iff anti-aliasing is on, SRGB iff HDR is off, and no other flag moves. */
  lemma AppliedCapsSpec(caps: set<DistortionCap>, antiAliasing: int, hdr: bool)
    ensures HqDistortion in AppliedCaps(caps, antiAliasing, hdr) <==> antiAliasing > 0
    ensures SRGB in AppliedCaps(caps, antiAliasing, hdr) <==> !hdr
    ensures forall f :: f != HqDistortion && f != SRGB ==> (f in AppliedCaps(caps, antiAliasing, hdr) <==> f in caps)
  {
  }

  /**
   * What UpdateDistortionCaps pushes to the plugin: each of its two
   * assignments goes through the distortionCaps setter, which pushes only
   * a changed value.
   */
  function CapsPushes(caps: set<DistortionCap>, antiAliasing: int, hdr: bool): seq<NativeCall>
  {
    var c1 := WithHq(caps, antiAliasing);
    var c2 := WithSrgb(c1, hdr);
    (if c1 != caps then [SetDistortionCaps(c1)] else []) + (if c2 != c1 then [SetDistortionCaps(c2)] else [])
  }

  /** No push happens iff the caps already had the applied value; otherwise the last push carries it. */
  lemma CapsPushesSpec(caps: set<DistortionCap>, antiAliasing: int, hdr: bool)
    ensures CapsPushes(caps, antiAliasing, hdr) == [] <==> AppliedCaps(caps, antiAliasing, hdr) == caps
    ensures CapsPushes(caps, antiAliasing, hdr) != [] ==>
      CapsPushes(caps, antiAliasing, hdr)[|CapsPushes(caps, antiAliasing, hdr)| - 1]
        == SetDistortionCaps(AppliedCaps(caps, antiAliasing, hdr))
    ensures |CapsPushes(caps, antiAliasing, hdr)| <= 2
  {
  }

  /** The mirrorMode getter on the desktop runtime. */
  predicate MirrorsToWindow(enabledCaps: set<HmdCap>) { NoMirrorToWindow !in enabledCaps }

  /** The caps the mirrorMode setter writes back, when it writes any. */
  function MirrorCaps(enabledCaps: set<HmdCap>, value: bool): set<HmdCap>
  {
    if value then enabledCaps - {NoMirrorToWindow} else enabledCaps + {NoMirrorToWindow}
  }

  /** The mirror setter reaches the requested state and flips nothing but NoMirrorToWindow. */
  lemma MirrorCapsSpec(enabledCaps: set<HmdCap>, value: bool)
    ensures MirrorsToWindow(MirrorCaps(enabledCaps, value)) == value
    ensures forall c :: c != NoMirrorToWindow ==> (c in MirrorCaps(enabledCaps, value) <==> c in enabledCaps)
  {
  }

  // ---------------------------------------------------------------------------------------
  // Values exchanged with the engine and the plugin

  /** A head or eye pose; poses are sampled from the runtime and only copied here. */
  datatype Pose = Pose(position: seq<real>, orientation: seq<real>)

  /** The head orientation OVR_GetSensorState writes into the fields w, x, y and z. */
  datatype SensorQuat = SensorQuat(w: real, x: real, y: real, z: real)

  /** The rotation built from the sensor's quaternion: `new Quaternion(-x, -y, z, w)`. */
  function SensorRotation(q: SensorQuat): (r: seq<real>)
    ensures |r| == 4 && r[0] == -q.x && r[1] == -q.y && r[2] == q.z && r[3] == q.w
  {
    [-q.x, -q.y, q.z, q.w]
  }

  /** The texture size ConfigureEyeDesc computes for an eye (its field of view is not modelled). */
  datatype EyeRenderDesc = EyeRenderDesc(width: int, height: int)

  /** LVRManager's eyeTextureDepth, eyeTextureFormat and eyeTextureAntiAliasing. */
  datatype TextureSettings = TextureSettings(depth: int, format: int, antiAliasing: int)

  /**
   * A Unity RenderTexture as this class sees it: the size and settings it
   * was made with, whether its GPU resource exists (IsCreated), whether
   * GetNativeTexturePtr currently answers null, and its native id.
   */
  datatype RenderTexture = RenderTexture(
    desc: EyeRenderDesc, settings: TextureSettings,
    created: bool, handleIsNull: bool, nativeId: int)

  /** What the engine answers for the texture in slot i when it is created. */
  datatype Engine = Engine(nativeId: int -> int, handleIsNull: int -> bool)

  /** What one tick reads from QualitySettings, Screen and LVRManager. */
  datatype Host = Host(
    antiAliasing: int,
    hdr: bool,
    screenWidth: int,
    screenHeight: int,
    fullScreen: bool,
    monoscopic: bool,
    virtualTextureScale: real,
    leftDesc: EyeRenderDesc,
    rightDesc: EyeRenderDesc,
    textureSettings: TextureSettings)

  /** A call into the native plugin. `source` is the slot whose native pointer is passed. */
  datatype NativeCall =
    | SetDistortionCaps(caps: set<DistortionCap>)
    | SetViewport(x: int, y: int, w: int, h: int)
    | SetTexture(id: int, source: int, scale: real)
    | SetModeChange(changed: bool)
    | BeginFrameEvent(frame: int)
    | EndFrameEvent
    | SetEnabledCaps(hmdCaps: set<HmdCap>)

  /** The LVRManager change events LVRDisplay subscribes to. */
  datatype Setting =
    | NativeTextureScale | EyeTextureAntiAliasing | EyeTextureDepth | EyeTextureFormat
    | VirtualTextureScale | Monoscopic | Hdr

  /** The dirty flags. */
  datatype Flag = ConfigureTexture | SetTextureFlag | SetDistortionCapsFlag

  /** The flag each change event raises. */
  function RaisedFlag(s: Setting): Flag
  {
    match s
    case NativeTextureScale | EyeTextureAntiAliasing | EyeTextureDepth | EyeTextureFormat => ConfigureTexture
    case VirtualTextureScale | Monoscopic => SetTextureFlag
    case Hdr => SetDistortionCapsFlag
  }

  // ---------------------------------------------------------------------------------------
  // The texture pool, as values

  /** The texture ConfigureEyeTexture puts in slot k: made from its eye's descriptor and created. */
  function Configured(k: int, descs: seq<EyeRenderDesc>, settings: TextureSettings, engine: Engine): RenderTexture
    requires |descs| == 2
  {
    RenderTexture(descs[k % 2], settings, true, engine.handleIsNull(k), engine.nativeId(k))
  }

  /** The whole pool after the configure loop. */
  function ConfiguredAll(n: nat, descs: seq<EyeRenderDesc>, settings: TextureSettings, engine: Engine): (ts: seq<RenderTexture>)
    requires |descs| == 2
    ensures |ts| == n
  {
    seq(n, k requires 0 <= k < n => Configured(k, descs, settings, engine))
  }

  /** A slot after the lazy-creation loop: created now if it was not. */
  function EnsureCreated(t: RenderTexture, k: int, engine: Engine): RenderTexture
  {
    if t.created then t else t.(created := true, handleIsNull := engine.handleIsNull(k), nativeId := engine.nativeId(k))
  }

  /** The pool the lazy-creation loop starts from: rebuilt from the host's settings when a reconfigure was pending. */
  function PoolBefore(configure: bool, ts: seq<RenderTexture>, host: Host, engine: Engine): (rs: seq<RenderTexture>)
    ensures |rs| == |ts|
  {
    if configure then ConfiguredAll(|ts|, [host.leftDesc, host.rightDesc], host.textureSettings, engine) else ts
  }

  /**
   * Whether UpdateTextures pushes the pool on the desktop runtime: after a
   * reconfigure, when the push flag is set, when a slot had to be created,
   * when full-screen mode changed, or when the plugin reports a mode change.
   */
  predicate PushWanted(configure: bool, needsSetTexture: bool, prevFullScreen: bool, nativeModeChange: bool,
                       ts: seq<RenderTexture>, host: Host, engine: Engine)
  {
    configure || needsSetTexture || AnyUncreated(PoolBefore(configure, ts, host, engine))
      || host.fullScreen != prevFullScreen || nativeModeChange
  }

  /** The pool after the lazy-creation loop. */
  function Recreated(ts: seq<RenderTexture>, engine: Engine): (rs: seq<RenderTexture>)
    ensures |rs| == |ts|
  {
    seq(|ts|, k requires 0 <= k < |ts| => EnsureCreated(ts[k], k, engine))
  }

  /** After the lazy-creation loop every slot is created and slots that were created are untouched. */
  lemma RecreatedSpec(ts: seq<RenderTexture>, engine: Engine)
    ensures forall k :: 0 <= k < |ts| ==> Recreated(ts, engine)[k].created
    ensures forall k :: 0 <= k < |ts| && ts[k].created ==> Recreated(ts, engine)[k] == ts[k]
    ensures (forall k :: 0 <= k < |ts| ==> ts[k].created) ==> Recreated(ts, engine) == ts
  {
  }

  predicate AnyUncreated(ts: seq<RenderTexture>) { exists k :: 0 <= k < |ts| && !ts[k].created }

  /** The slot whose native pointer eye slot k receives: in monoscopic mode the right eye gets the left one. */
  function Source(k: int, monoscopic: bool): int { if monoscopic && k % 2 == 1 then k - 1 else k }

  /**
   * The push loop of UpdateTextures from pair index i on: the SetTexture
   * calls it makes, and whether it ran to the end (false when it returned
   * early on a null pointer).
   */
  function PushFrom(ts: seq<RenderTexture>, i: nat, monoscopic: bool, scale: real): (seq<NativeCall>, bool)
    requires |ts| % 2 == 0 && i % 2 == 0 && i <= |ts|
    decreases |ts| - i
  {
    if i == |ts| then ([], true)
    else if ts[i].handleIsNull || ts[Source(i + 1, monoscopic)].handleIsNull then ([], false)
    else
      var rest := PushFrom(ts, i + 2, monoscopic, scale);
      ([SetTexture(i, i, scale), SetTexture(i + 1, Source(i + 1, monoscopic), scale)] + rest.0, rest.1)
  }

  /** Every pair has non-null pointers for both eyes (the right eye's being the left one's in monoscopic mode). */
  predicate AllReady(ts: seq<RenderTexture>, monoscopic: bool)
  {
    forall k :: 0 <= k < |ts| ==> !ts[Source(k, monoscopic)].handleIsNull
  }

  /** The push loop runs to the end exactly when every eye's pointer from pair `i` on is non-null. */
  lemma {:induction false} PushFromCompletes(ts: seq<RenderTexture>, i: nat, monoscopic: bool, scale: real)
    requires |ts| % 2 == 0 && i % 2 == 0 && i <= |ts|
    ensures PushFrom(ts, i, monoscopic, scale).1 <==>
      forall k :: i <= k < |ts| ==> !ts[Source(k, monoscopic)].handleIsNull
    decreases |ts| - i
  {
    if i < |ts| {
      assert Source(i, monoscopic) == i;
      if !(ts[i].handleIsNull || ts[Source(i + 1, monoscopic)].handleIsNull) {
        PushFromCompletes(ts, i + 2, monoscopic, scale);
      } else if ts[i].handleIsNull {
        assert !(forall k :: i <= k < |ts| ==> !ts[Source(k, monoscopic)].handleIsNull);
      } else {
        assert ts[Source(i + 1, monoscopic)].handleIsNull;
      }
    }
  }

  /** The push loop pushes whole pairs, in slot order, each slot with its eye's pointer; all of them when it completes. */
  lemma {:induction false} PushFromCalls(ts: seq<RenderTexture>, i: nat, monoscopic: bool, scale: real)
    requires |ts| % 2 == 0 && i % 2 == 0 && i <= |ts|
    ensures |PushFrom(ts, i, monoscopic, scale).0| % 2 == 0
    ensures |PushFrom(ts, i, monoscopic, scale).0| <= |ts| - i
    ensures PushFrom(ts, i, monoscopic, scale).1 ==> |PushFrom(ts, i, monoscopic, scale).0| == |ts| - i
    ensures forall j :: 0 <= j < |PushFrom(ts, i, monoscopic, scale).0| ==>
      PushFrom(ts, i, monoscopic, scale).0[j] == SetTexture(i + j, Source(i + j, monoscopic), scale)
    decreases |ts| - i
  {
    if i < |ts| && !(ts[i].handleIsNull || ts[Source(i + 1, monoscopic)].handleIsNull) {
      PushFromCalls(ts, i + 2, monoscopic, scale);
      var rest := PushFrom(ts, i + 2, monoscopic, scale).0;
      var all := PushFrom(ts, i, monoscopic, scale).0;
      assert all == [SetTexture(i, i, scale), SetTexture(i + 1, Source(i + 1, monoscopic), scale)] + rest;
      forall j | 0 <= j < |all|
        ensures all[j] == SetTexture(i + j, Source(i + j, monoscopic), scale)
      {
        if j >= 2 { assert all[j] == rest[j - 2]; }
      }
      assert Source(i, monoscopic) == i;
    }
  }

  /**
   * The push loop completes exactly when every eye's pointer is non-null;
   * then it has pushed every slot once, in order, each with its eye's
   * pointer; otherwise it pushed whole pairs only, at most all but one.
   */
  lemma PushFromSpec(ts: seq<RenderTexture>, i: nat, monoscopic: bool, scale: real)
    requires |ts| % 2 == 0 && i % 2 == 0 && i <= |ts|
    ensures PushFrom(ts, i, monoscopic, scale).1 <==>
      forall k :: i <= k < |ts| ==> !ts[Source(k, monoscopic)].handleIsNull
    ensures |PushFrom(ts, i, monoscopic, scale).0| % 2 == 0
    ensures |PushFrom(ts, i, monoscopic, scale).0| <= |ts| - i
    ensures PushFrom(ts, i, monoscopic, scale).1 ==> |PushFrom(ts, i, monoscopic, scale).0| == |ts| - i
    ensures forall j :: 0 <= j < |PushFrom(ts, i, monoscopic, scale).0| ==>
      PushFrom(ts, i, monoscopic, scale).0[j] == SetTexture(i + j, Source(i + j, monoscopic), scale)
  {
    PushFromCompletes(ts, i, monoscopic, scale);
    PushFromCalls(ts, i, monoscopic, scale);
  }

  // ---------------------------------------------------------------------------------------
  // The buffer index of the Android device build

  /** The next pair index after one UpdateTextures on the device, whose pool has six slots. */
  function NextIndex(i: int): int
  {
    (i + 2) % EyeTextureCount(AndroidDevice)
  }

  /** A valid pair index: even and inside the pool. */
  predicate IsPairIndex(i: int, count: nat) { 0 <= i < count && i % 2 == 0 }

  /** Rotation keeps the index on a pair of the device pool. */
  lemma NextIndexIsPair(i: int)
    requires IsPairIndex(i, EyeTextureCount(AndroidDevice))
    ensures IsPairIndex(NextIndex(i), EyeTextureCount(AndroidDevice))
  {
  }

  /** Iterating NextIndex k times from 0. */
  function IndexAfter(k: nat): int
  {
    if k == 0 then 0 else NextIndex(IndexAfter(k - 1))
  }

  /** The index cycles 0, 2, 4, 0, ...: after k ticks it is 2 * (k mod 3). */
  lemma {:induction false} IndexAfterSpec(k: nat)
    ensures IndexAfter(k) == 2 * (k % 3)
  {
    if k > 0 {
      IndexAfterSpec(k - 1);
    }
  }

  /** The index returns to where it was every three ticks. */
  lemma {:induction false} IndexPeriod(k: nat)
    ensures IndexAfter(k + 3) == IndexAfter(k)
  {
    if k == 0 {
      assert IndexAfter(3) == 0 by {
        assert IndexAfter(1) == 2;
        assert IndexAfter(2) == 4;
      }
    } else {
      IndexPeriod(k - 1);
    }
  }

  // ---------------------------------------------------------------------------------------
  // The display

  class LVRDisplay {
    const platform: Platform

    var prevAntiAliasing: int
    var prevScreenWidth: int
    var prevScreenHeight: int
    var needsConfigureTexture: bool
    var needsSetTexture: bool
    var needsSetDistortionCaps: bool
    var needsSetViewport: bool
    var prevFullScreen: bool
    var eyePoses: array<Pose>
    var eyeDescs: array<EyeRenderDesc>
    var eyeTextures: array<RenderTexture>
    var eyeTextureIds: array<int>
    var currEyeTextureIdx: int
    var nextEyeTextureIdx: int
    /** The frame counter: a static C# `int`, so it wraps around after int.MaxValue. */
    var frameCount: int
    /** The last quaternion the device's sensor reported (the fields w, x, y, z); zero until the first read. */
    var sensorQuat: SensorQuat
    /** `_distortionCaps`. */
    var distortionCaps: set<DistortionCap>

    /** The plugin's mode-change flag (OVR_UnitySetModeChange / OVR_UnityGetModeChange). */
    var nativeModeChange: bool
    /** The HMD's enabled caps (capiHmd.GetEnabledCaps / SetEnabledCaps). */
    var enabledHmdCaps: set<HmdCap>
    /** Every call made into the native plugin, oldest first. */
    var log: seq<NativeCall>

    ghost predicate Valid()
      reads this`eyeTextures, this`eyeTextureIds, this`eyePoses, this`eyeDescs
      reads this`currEyeTextureIdx, this`nextEyeTextureIdx, eyeTextures, eyeTextureIds
    {
      && eyeTextures.Length == EyeTextureCount(platform)
      && eyeTextureIds.Length == EyeTextureCount(platform)
      && eyePoses.Length == 2 && eyeDescs.Length == 2
      && IsPairIndex(currEyeTextureIdx, EyeTextureCount(platform))
      && IsPairIndex(nextEyeTextureIdx, EyeTextureCount(platform))
      && (forall k :: 0 <= k < eyeTextures.Length ==> eyeTextureIds[k] == eyeTextures[k].nativeId)
    }

    /**
     * LVRDisplay(): on the desktop runtime, textures need pushing and caps
     * need applying, but nothing needs reconfiguring; every slot is
     * configured and created.
     */
    constructor (platform: Platform, host: Host, engine: Engine, enabledHmdCaps: set<HmdCap>, nativeModeChange: bool)
      ensures Valid() && this.platform == platform
      ensures IsDesktop(platform) ==> needsSetTexture && needsSetDistortionCaps && !needsConfigureTexture
      ensures IsDesktop(platform) ==> prevFullScreen == host.fullScreen
      ensures !IsDesktop(platform) ==> !needsSetTexture && !needsSetDistortionCaps && !needsConfigureTexture
      ensures !needsSetViewport
      ensures prevAntiAliasing == 0 && prevScreenWidth == 0 && prevScreenHeight == 0
      ensures eyeDescs[..] == [host.leftDesc, host.rightDesc]
      ensures eyeTextures[..] == ConfiguredAll(EyeTextureCount(platform), [host.leftDesc, host.rightDesc], host.textureSettings, engine)
      ensures currEyeTextureIdx == 0 && nextEyeTextureIdx == 0 && frameCount == 0
      ensures sensorQuat == SensorQuat(0.0, 0.0, 0.0, 0.0)
      ensures distortionCaps == InitialDistortionCaps(platform)
      ensures this.enabledHmdCaps == enabledHmdCaps && this.nativeModeChange == nativeModeChange
      ensures log == []
      ensures fresh(eyeTextures) && fresh(eyeTextureIds) && fresh(eyeDescs) && fresh(eyePoses)
    {
      this.platform := platform;
      var n := EyeTextureCount(platform);
      var desktop := IsDesktop(platform);
      needsConfigureTexture := false;
      needsSetTexture := desktop;
      needsSetDistortionCaps := desktop;
      prevFullScreen := if desktop then host.fullScreen else false;
      needsSetViewport := false;
      prevAntiAliasing, prevScreenWidth, prevScreenHeight := 0, 0, 0;
      eyePoses := new Pose[2](_ => Pose([], []));
      eyeDescs := new EyeRenderDesc[2](_ => EyeRenderDesc(0, 0));
      eyeTextures := new RenderTexture[n](_ => RenderTexture(EyeRenderDesc(0, 0), TextureSettings(0, 0, 0), false, true, 0));
      eyeTextureIds := new int[n](_ => 0);
      currEyeTextureIdx, nextEyeTextureIdx := 0, 0;
      frameCount := 0;
      sensorQuat := SensorQuat(0.0, 0.0, 0.0, 0.0);
      distortionCaps := InitialDistortionCaps(platform);
      this.nativeModeChange := nativeModeChange;
      this.enabledHmdCaps := enabledHmdCaps;
      log := [];
      new;
      ConfigureEyeDescs(host);
      ConfigureEyeTextures(host.textureSettings, engine);
    }

    /** ConfigureEyeDesc for both eyes. */
    method ConfigureEyeDescs(host: Host)
      requires eyeDescs.Length == 2
      modifies eyeDescs
      ensures eyeDescs[..] == [host.leftDesc, host.rightDesc]
    {
      eyeDescs[0] := host.leftDesc;
      eyeDescs[1] := host.rightDesc;
    }

    /** The loop calling ConfigureEyeTexture for the left and right slot of every pair. */
    method ConfigureEyeTextures(settings: TextureSettings, engine: Engine)
      requires eyeDescs.Length == 2
      requires eyeTextures.Length == eyeTextureIds.Length && eyeTextures.Length % 2 == 0
      modifies eyeTextures, eyeTextureIds
      ensures eyeTextures[..] == ConfiguredAll(eyeTextures.Length, eyeDescs[..], settings, engine)
      ensures forall k :: 0 <= k < eyeTextures.Length ==> eyeTextureIds[k] == eyeTextures[k].nativeId
    {
      var i := 0;
      while i < eyeTextures.Length
        invariant 0 <= i <= eyeTextures.Length && i % 2 == 0
        invariant forall k :: 0 <= k < i ==> eyeTextures[k] == Configured(k, eyeDescs[..], settings, engine)
        invariant forall k :: 0 <= k < i ==> eyeTextureIds[k] == eyeTextures[k].nativeId
      {
        ConfigureEyeTexture(i, Left, settings, engine);
        ConfigureEyeTexture(i, Right, settings, engine);
        i := i + 2;
      }
    }

    /** ConfigureEyeTexture: a new texture from the eye's descriptor, created at once. */
    method ConfigureEyeTexture(eyeBufferIndex: int, eye: Eye, settings: TextureSettings, engine: Engine)
      requires eyeDescs.Length == 2 && eyeTextures.Length == eyeTextureIds.Length
      requires 0 <= eyeBufferIndex && eyeBufferIndex % 2 == 0 && eyeBufferIndex + 1 < eyeTextures.Length
      modifies eyeTextures, eyeTextureIds
      ensures eyeTextures[..] == old(eyeTextures[..])[eyeBufferIndex + EyeIndex(eye) :=
                Configured(eyeBufferIndex + EyeIndex(eye), eyeDescs[..], settings, engine)]
      ensures eyeTextureIds[..] == old(eyeTextureIds[..])[eyeBufferIndex + EyeIndex(eye) :=
                eyeTextures[eyeBufferIndex + EyeIndex(eye)].nativeId]
    {
      var k := eyeBufferIndex + EyeIndex(eye);
      assert k % 2 == EyeIndex(eye);
      eyeTextures[k] := RenderTexture(eyeDescs[EyeIndex(eye)], settings, true, engine.handleIsNull(k), engine.nativeId(k));
      eyeTextureIds[k] := eyeTextures[k].nativeId;
    }

    /** A change event from LVRManager raises exactly one dirty flag. */
    method OnSettingModified(s: Setting)
      modifies this
      ensures needsConfigureTexture == (old(needsConfigureTexture) || RaisedFlag(s) == ConfigureTexture)
      ensures needsSetTexture == (old(needsSetTexture) || RaisedFlag(s) == SetTextureFlag)
      ensures needsSetDistortionCaps == (old(needsSetDistortionCaps) || RaisedFlag(s) == SetDistortionCapsFlag)
      ensures unchanged(this`prevAntiAliasing, this`prevScreenWidth, this`prevScreenHeight, this`needsSetViewport,
                        this`prevFullScreen, this`distortionCaps, this`log, this`frameCount)
      ensures eyeTextures == old(eyeTextures) && eyeTextureIds == old(eyeTextureIds)
      ensures eyeDescs == old(eyeDescs) && eyePoses == old(eyePoses)
      ensures currEyeTextureIdx == old(currEyeTextureIdx) && nextEyeTextureIdx == old(nextEyeTextureIdx)
      ensures nativeModeChange == old(nativeModeChange) && enabledHmdCaps == old(enabledHmdCaps)
    {
      match s
      case NativeTextureScale | EyeTextureAntiAliasing | EyeTextureDepth | EyeTextureFormat =>
        needsConfigureTexture := true;
      case VirtualTextureScale | Monoscopic =>
        needsSetTexture := true;
      case Hdr =>
        needsSetDistortionCaps := true;
    }

    /** Update(): caps, then viewport, then textures. */
    method Update(host: Host, engine: Engine)
      requires Valid()
      modifies this, eyeTextures, eyeTextureIds, eyeDescs
      ensures Valid()
      ensures IsDesktop(platform) ==>
        && !needsSetDistortionCaps && !needsConfigureTexture
        && (needsSetTexture ==> !AllReady(eyeTextures[..], host.monoscopic))
      ensures platform.Standalone? ==> !needsSetViewport
      ensures !IsDesktop(platform) ==> currEyeTextureIdx == old(nextEyeTextureIdx)
    {
      UpdateDistortionCaps(host);
      UpdateViewport(host);
      if IsDesktop(platform) {
        UpdateDesktopTextures(host, engine);
      } else {
        UpdateDeviceTextures(engine);
      }
    }

    /** The distortionCaps setter: a changed value is stored and, on the desktop runtime, pushed. */
    method SetDistortionCapsProperty(value: set<DistortionCap>)
      modifies this`distortionCaps, this`log
      ensures distortionCaps == value
      ensures log == old(log) + (if value != old(distortionCaps) && IsDesktop(platform) then [SetDistortionCaps(value)] else [])
    {
      if value == distortionCaps {
        return;
      }
      distortionCaps := value;
      if IsDesktop(platform) {
        log := log + [SetDistortionCaps(value)];
      }
    }

    /** The timeWarp getter. */
    function TimeWarpEnabled(): bool
      reads this
    {
      TimeWarp in distortionCaps
    }

    /** The flipInput getter. */
    function FlipInputEnabled(): bool
      reads this
    {
      FlipInput in distortionCaps
    }

    /** The timeWarp setter. */
    method SetTimeWarp(value: bool)
      modifies this`distortionCaps, this`log
      ensures distortionCaps == WithFlag(old(distortionCaps), TimeWarp, value)
      ensures TimeWarpEnabled() == value
      ensures log == old(log) + (if value != old(TimeWarpEnabled()) && IsDesktop(platform)
                                  then [SetDistortionCaps(distortionCaps)] else [])
    {
      WithFlagSpec(distortionCaps, TimeWarp, value);
      if value != TimeWarpEnabled() {
        SetDistortionCapsProperty(WithFlag(distortionCaps, TimeWarp, value));
      }
    }

    /** The flipInput setter. */
    method SetFlipInput(value: bool)
      modifies this`distortionCaps, this`log
      ensures distortionCaps == WithFlag(old(distortionCaps), FlipInput, value)
      ensures FlipInputEnabled() == value
      ensures log == old(log) + (if value != old(FlipInputEnabled()) && IsDesktop(platform)
                                  then [SetDistortionCaps(distortionCaps)] else [])
    {
      WithFlagSpec(distortionCaps, FlipInput, value);
      if value != FlipInputEnabled() {
        SetDistortionCapsProperty(WithFlag(distortionCaps, FlipInput, value));
      }
    }

    /** The mirrorMode getter: always false on the device. */
    function MirrorMode(): bool
      reads this
    {
      IsDesktop(platform) && MirrorsToWindow(enabledHmdCaps)
    }

    /** The mirrorMode setter: a no-op in the requested state; otherwise only NoMirrorToWindow flips. */
    method SetMirrorMode(value: bool)
      modifies this`enabledHmdCaps, this`log
      ensures IsDesktop(platform) && MirrorsToWindow(old(enabledHmdCaps)) != value ==>
        enabledHmdCaps == MirrorCaps(old(enabledHmdCaps), value) && log == old(log) + [SetEnabledCaps(enabledHmdCaps)]
      ensures !IsDesktop(platform) || MirrorsToWindow(old(enabledHmdCaps)) == value ==>
        enabledHmdCaps == old(enabledHmdCaps) && log == old(log)
      ensures IsDesktop(platform) ==> MirrorMode() == value
    {
      if IsDesktop(platform) {
        var caps := enabledHmdCaps;
        if MirrorsToWindow(caps) == value {
          return;
        }
        caps := MirrorCaps(caps, value);
        enabledHmdCaps := caps;
        log := log + [SetEnabledCaps(caps)];
        MirrorCapsSpec(old(enabledHmdCaps), value);
      }
    }

    /** isDirectMode: the HMD does not extend the desktop (never, on the device). */
    function IsDirectMode(hmdDescCaps: set<HmdCap>): bool
      reads this
    {
      IsDesktop(platform) && ExtendDesktop !in hmdDescCaps
    }

    /**
     * BeginFrame(): counts a frame unless time-warp is frozen, then issues
     * the event with the count; the count is an `int`, so the step after
     * int.MaxValue is int.MinValue (WrapIncrement).
     */
    method BeginFrame(timeWarp: bool, freezeTimeWarp: bool)
      modifies this`frameCount, this`log
      ensures frameCount == if timeWarp && freezeTimeWarp then old(frameCount) else Wrap32(old(frameCount) + 1)
      ensures !(timeWarp && freezeTimeWarp) ==> IsInt(frameCount)
      ensures log == old(log) + [BeginFrameEvent(frameCount)]
    {
      var updateFrameCount := !(timeWarp && freezeTimeWarp);
      if updateFrameCount {
        frameCount := Wrap32(frameCount + 1);
      }
      log := log + [BeginFrameEvent(frameCount)];
    }

    /** EndFrame(): issues the event, nothing else. */
    method EndFrame()
      modifies this`log
      ensures log == old(log) + [EndFrameEvent]
    {
      log := log + [EndFrameEvent];
    }

    /**
     * GetEyePose on the desktop runtime: re-samples the render pose for the
     * current frame unless time-warp is frozen, and returns the cached pose.
     * On the device only the left eye reads the sensor (`sensorReading` is
     * what OVR_GetSensorState would report); the right eye reuses the
     * quaternion the last left read stored. The position is the
     * head-and-neck model applied to the rotation (`headNeck`, float
     * arithmetic on LVRManager's profile).
     */
    method GetEyePose(eye: Eye, timeWarp: bool, freezeTimeWarp: bool, renderPose: (int, Eye) -> Pose,
                      sensorReading: SensorQuat, headNeck: (seq<real>, Eye) -> seq<real>) returns (pose: Pose)
      requires eyePoses.Length == 2
      modifies eyePoses, this`sensorQuat
      ensures IsDesktop(platform) && !(timeWarp && freezeTimeWarp) ==>
        pose == renderPose(frameCount, eye) && eyePoses[..] == old(eyePoses[..])[EyeIndex(eye) := pose]
      ensures IsDesktop(platform) && timeWarp && freezeTimeWarp ==>
        pose == old(eyePoses[EyeIndex(eye)]) && eyePoses[..] == old(eyePoses[..])
      ensures IsDesktop(platform) ==> sensorQuat == old(sensorQuat)
      ensures !IsDesktop(platform) ==> eyePoses[..] == old(eyePoses[..])
      ensures !IsDesktop(platform) ==> sensorQuat == if eye == Left then sensorReading else old(sensorQuat)
      ensures !IsDesktop(platform) ==>
        pose == Pose(headNeck(SensorRotation(sensorQuat), eye), SensorRotation(sensorQuat))
    {
      if IsDesktop(platform) {
        var updateEyePose := !(timeWarp && freezeTimeWarp);
        if updateEyePose {
          eyePoses[EyeIndex(eye)] := renderPose(frameCount, eye);
        }
        pose := eyePoses[EyeIndex(eye)];
      } else {
        if eye == Left {
          sensorQuat := sensorReading;
        }
        var rot := SensorRotation(sensorQuat);
        pose := Pose(headNeck(rot, eye), rot);
      }
    }

    /** GetEyeTexture: the current pair's texture for the eye. */
    function GetEyeTexture(eye: Eye): RenderTexture
      reads this, eyeTextures, eyeTextureIds
      requires Valid()
    {
      eyeTextures[currEyeTextureIdx + EyeIndex(eye)]
    }

    /** GetEyeTextureId: the current pair's native id for the eye. */
    function GetEyeTextureId(eye: Eye): int
      reads this, eyeTextures, eyeTextureIds
      requires Valid()
    {
      eyeTextureIds[currEyeTextureIdx + EyeIndex(eye)]
    }

    /** The id the pool reports for an eye is that of the texture it hands out for the eye. */
    lemma EyeTextureIdAgrees(eye: Eye)
      requires Valid()
      ensures GetEyeTextureId(eye) == GetEyeTexture(eye).nativeId
      ensures 0 <= currEyeTextureIdx + EyeIndex(eye) < eyeTextures.Length
    {
    }

    /** UpdateDistortionCaps: fires on the flag or on an anti-aliasing change (desktop runtime only). */
    method UpdateDistortionCaps(host: Host)
      modifies this`needsSetDistortionCaps, this`distortionCaps, this`prevAntiAliasing, this`needsSetTexture, this`log
      ensures var fires := IsDesktop(platform) && (old(needsSetDistortionCaps) || host.antiAliasing != old(prevAntiAliasing));
        && (fires ==>
              && distortionCaps == AppliedCaps(old(distortionCaps), host.antiAliasing, host.hdr)
              && prevAntiAliasing == host.antiAliasing && !needsSetDistortionCaps && needsSetTexture
              && log == old(log) + CapsPushes(old(distortionCaps), host.antiAliasing, host.hdr))
        && (!fires ==>
              && distortionCaps == old(distortionCaps) && prevAntiAliasing == old(prevAntiAliasing)
              && needsSetDistortionCaps == old(needsSetDistortionCaps)
              && needsSetTexture == old(needsSetTexture) && log == old(log))
      ensures IsDesktop(platform) ==> !needsSetDistortionCaps && prevAntiAliasing == host.antiAliasing
    {
      if IsDesktop(platform) {
        needsSetDistortionCaps := needsSetDistortionCaps || host.antiAliasing != prevAntiAliasing;
        if needsSetDistortionCaps {
          SetDistortionCapsProperty(WithHq(distortionCaps, host.antiAliasing));
          SetDistortionCapsProperty(WithSrgb(distortionCaps, host.hdr));
          prevAntiAliasing := host.antiAliasing;
          needsSetDistortionCaps := false;
          needsSetTexture := true;
        }
      }
    }

    /** UpdateViewport: on a standalone player, pushes the screen size when flagged or changed. */
    method UpdateViewport(host: Host)
      modifies this`needsSetViewport, this`prevScreenWidth, this`prevScreenHeight, this`log
      ensures var fires := platform.Standalone? &&
          (old(needsSetViewport) || host.screenWidth != old(prevScreenWidth) || host.screenHeight != old(prevScreenHeight));
        && (fires ==>
              && log == old(log) + [SetViewport(0, 0, host.screenWidth, host.screenHeight)]
              && prevScreenWidth == host.screenWidth && prevScreenHeight == host.screenHeight
              && !needsSetViewport)
        && (!fires ==>
              && log == old(log) && prevScreenWidth == old(prevScreenWidth)
              && prevScreenHeight == old(prevScreenHeight) && needsSetViewport == old(needsSetViewport))
      ensures platform.Standalone? ==>
        !needsSetViewport && prevScreenWidth == host.screenWidth && prevScreenHeight == host.screenHeight
    {
      if platform.Standalone? {
        needsSetViewport := needsSetViewport
          || host.screenWidth != prevScreenWidth
          || host.screenHeight != prevScreenHeight;
        if needsSetViewport {
          log := log + [SetViewport(0, 0, host.screenWidth, host.screenHeight)];
          prevScreenWidth := host.screenWidth;
          prevScreenHeight := host.screenHeight;
          needsSetViewport := false;
        }
      }
    }

    /** The lazy-creation loop: creates every slot that is not created. */
    method CreateMissingTextures(engine: Engine) returns (createdAny: bool)
      requires eyeTextures.Length == eyeTextureIds.Length
      requires forall k :: 0 <= k < eyeTextures.Length ==> eyeTextureIds[k] == eyeTextures[k].nativeId
      modifies eyeTextures, eyeTextureIds
      ensures eyeTextures[..] == Recreated(old(eyeTextures[..]), engine)
      ensures forall k :: 0 <= k < eyeTextures.Length ==> eyeTextureIds[k] == eyeTextures[k].nativeId
      ensures createdAny == AnyUncreated(old(eyeTextures[..]))
    {
      createdAny := false;
      var i := 0;
      while i < eyeTextures.Length
        invariant 0 <= i <= eyeTextures.Length
        invariant forall k :: 0 <= k < i ==> eyeTextures[k] == EnsureCreated(old(eyeTextures[k]), k, engine)
        invariant forall k :: i <= k < eyeTextures.Length ==> eyeTextures[k] == old(eyeTextures[k])
        invariant forall k :: 0 <= k < eyeTextures.Length ==> eyeTextureIds[k] == eyeTextures[k].nativeId
        invariant createdAny == exists k :: 0 <= k < i && !old(eyeTextures[k]).created
      {
        if !eyeTextures[i].created {
          eyeTextures[i] := eyeTextures[i].(created := true, handleIsNull := engine.handleIsNull(i),
                                            nativeId := engine.nativeId(i));
          eyeTextureIds[i] := eyeTextures[i].nativeId;
          createdAny := true;
        }
        i := i + 1;
      }
      assert AnyUncreated(old(eyeTextures[..])) <==> exists k :: 0 <= k < eyeTextures.Length && !old(eyeTextures[k]).created;
    }

    /** The push loop: both eyes of every pair, stopping at the first null pointer. */
    method PushTextures(monoscopic: bool, scale: real) returns (complete: bool)
      requires eyeTextures.Length % 2 == 0
      modifies this`log
      ensures complete == PushFrom(eyeTextures[..], 0, monoscopic, scale).1
      ensures log == old(log) + PushFrom(eyeTextures[..], 0, monoscopic, scale).0
    {
      var ts := eyeTextures[..];
      var i := 0;
      while i < |ts|
        invariant 0 <= i <= |ts| && i % 2 == 0
        invariant old(log) + PushFrom(ts, 0, monoscopic, scale).0 == log + PushFrom(ts, i, monoscopic, scale).0
        invariant PushFrom(ts, 0, monoscopic, scale).1 == PushFrom(ts, i, monoscopic, scale).1
      {
        var leftSource := i;
        var rightSource := if monoscopic then i else i + 1;
        if ts[leftSource].handleIsNull || ts[rightSource].handleIsNull {
          assert log + [] == log;
          return false;
        }
        log := log + [SetTexture(i, leftSource, scale), SetTexture(i + 1, rightSource, scale)];
        i := i + 2;
      }
      assert log + [] == log;
      complete := true;
    }

    /** The reconfigure step of UpdateTextures: new descriptors, every slot rebuilt, the plugin told of a mode change. */
    method ReconfigureTextures(host: Host, engine: Engine)
      requires Valid()
      modifies this`needsConfigureTexture, this`needsSetTexture, this`nativeModeChange, this`log
      modifies eyeTextures, eyeTextureIds, eyeDescs
      ensures Valid()
      ensures eyeDescs[..] == [host.leftDesc, host.rightDesc]
      ensures eyeTextures[..] == ConfiguredAll(eyeTextures.Length, [host.leftDesc, host.rightDesc], host.textureSettings, engine)
      ensures log == old(log) + [SetModeChange(true)]
      ensures nativeModeChange && !needsConfigureTexture && needsSetTexture
    {
      ConfigureEyeDescs(host);
      ConfigureEyeTextures(host.textureSettings, engine);
      log := log + [SetModeChange(true)];
      nativeModeChange := true;
      needsConfigureTexture := false;
      needsSetTexture := true;
    }

    /**
     * The push step of UpdateTextures: when the push flag, a full-screen
     * change or the plugin's mode-change flag asks for it, pushes every
     * pair; a complete push clears all three, an early return on a null
     * pointer keeps them for the next tick.
     */
    method PushPendingTextures(host: Host)
      requires eyeTextures.Length % 2 == 0
      modifies this`needsSetTexture, this`prevFullScreen, this`nativeModeChange, this`log
      ensures var raised := old(needsSetTexture) || host.fullScreen != old(prevFullScreen) || old(nativeModeChange);
        var push := PushFrom(eyeTextures[..], 0, host.monoscopic, host.virtualTextureScale);
        && (push.1 <==> AllReady(eyeTextures[..], host.monoscopic))
        && needsSetTexture == (raised && !push.1)
        && prevFullScreen == (if raised && push.1 then host.fullScreen else old(prevFullScreen))
        && nativeModeChange == (if raised && push.1 then false else old(nativeModeChange))
        && log == old(log) + (if raised then push.0 else []) + (if raised && push.1 then [SetModeChange(false)] else [])
    {
      PushFromSpec(eyeTextures[..], 0, host.monoscopic, host.virtualTextureScale);
      needsSetTexture := needsSetTexture || host.fullScreen != prevFullScreen || nativeModeChange;
      if needsSetTexture {
        var complete := PushTextures(host.monoscopic, host.virtualTextureScale);
        if !complete {
          return;
        }
        prevFullScreen := host.fullScreen;
        log := log + [SetModeChange(false)];
        nativeModeChange := false;
        needsSetTexture := false;
      }
    }

    /** The device step of UpdateTextures: the next pair becomes current and the one after it next. */
    method RotateEyeTextureIndex()
      requires Valid() && platform.AndroidDevice?
      modifies this`currEyeTextureIdx, this`nextEyeTextureIdx
      ensures Valid()
      ensures currEyeTextureIdx == old(nextEyeTextureIdx)
      ensures nextEyeTextureIdx == NextIndex(old(nextEyeTextureIdx))
    {
      NextIndexIsPair(nextEyeTextureIdx);
      currEyeTextureIdx := nextEyeTextureIdx;
      nextEyeTextureIdx := (nextEyeTextureIdx + 2) % eyeTextures.Length;
    }

    /**
     * The first two steps of UpdateTextures: reconfigure every slot when
     * flagged, then create the missing slots; the push flag is raised by
     * either.
     */
    method PrepareTextures(host: Host, engine: Engine)
      requires Valid()
      modifies this`needsConfigureTexture, this`needsSetTexture, this`nativeModeChange, this`log
      modifies eyeTextures, eyeTextureIds, eyeDescs
      ensures Valid()
      ensures forall k :: 0 <= k < eyeTextures.Length ==> eyeTextures[k].created
      ensures eyeTextures[..] == Recreated(PoolBefore(old(needsConfigureTexture), old(eyeTextures[..]), host, engine), engine)
      ensures eyeDescs[..] == (if old(needsConfigureTexture) then [host.leftDesc, host.rightDesc] else old(eyeDescs[..]))
      ensures !needsConfigureTexture
      ensures needsSetTexture == (old(needsConfigureTexture) || old(needsSetTexture)
                                  || AnyUncreated(PoolBefore(old(needsConfigureTexture), old(eyeTextures[..]), host, engine)))
      ensures nativeModeChange == (old(needsConfigureTexture) || old(nativeModeChange))
      ensures log == old(log) + (if old(needsConfigureTexture) then [SetModeChange(true)] else [])
    {
      if needsConfigureTexture {
        ReconfigureTextures(host, engine);
      }
      ghost var base := eyeTextures[..];
      assert base == PoolBefore(old(needsConfigureTexture), old(eyeTextures[..]), host, engine);
      var createdAny := CreateMissingTextures(engine);
      RecreatedSpec(base, engine);
      if createdAny {
        needsSetTexture := true;
      }
    }

    /**
     * UpdateTextures as compiled for the desktop runtime: reconfigures every slot when
     * flagged, creates missing slots, and pushes every pair when anything
     * asks for it; afterwards the push flag is set exactly when a push was
     * wanted and some eye's pointer was null.
     */
    method UpdateDesktopTextures(host: Host, engine: Engine)
      requires Valid() && IsDesktop(platform)
      modifies this`needsConfigureTexture, this`needsSetTexture, this`prevFullScreen, this`nativeModeChange,
               this`currEyeTextureIdx, this`nextEyeTextureIdx, this`log
      modifies eyeTextures, eyeTextureIds, eyeDescs
      ensures Valid()
      ensures forall k :: 0 <= k < eyeTextures.Length ==> eyeTextures[k].created
      ensures eyeTextures[..] == Recreated(PoolBefore(old(needsConfigureTexture), old(eyeTextures[..]), host, engine), engine)
      ensures eyeDescs[..] == (if old(needsConfigureTexture) then [host.leftDesc, host.rightDesc] else old(eyeDescs[..]))
      ensures !needsConfigureTexture
      ensures var raised := PushWanted(old(needsConfigureTexture), old(needsSetTexture), old(prevFullScreen),
                                 old(nativeModeChange), old(eyeTextures[..]), host, engine);
        var push := PushFrom(eyeTextures[..], 0, host.monoscopic, host.virtualTextureScale);
        && (push.1 <==> AllReady(eyeTextures[..], host.monoscopic))
        && needsSetTexture == (raised && !push.1)
        && prevFullScreen == (if raised && push.1 then host.fullScreen else old(prevFullScreen))
        && nativeModeChange == (if raised && push.1 then false else old(needsConfigureTexture) || old(nativeModeChange))
        && log == old(log) + (if old(needsConfigureTexture) then [SetModeChange(true)] else [])
                           + (if raised then push.0 else [])
                           + (if raised && push.1 then [SetModeChange(false)] else [])
      ensures currEyeTextureIdx == old(currEyeTextureIdx) && nextEyeTextureIdx == old(nextEyeTextureIdx)
    {
      PrepareTextures(host, engine);
      ghost var raised := PushWanted(old(needsConfigureTexture), old(needsSetTexture), old(prevFullScreen),
                                     old(nativeModeChange), old(eyeTextures[..]), host, engine);
      assert raised == (needsSetTexture || host.fullScreen != prevFullScreen || nativeModeChange);
      PushPendingTextures(host);
    }

    /** UpdateTextures as compiled for the device: creates missing slots and rotates the buffer index. */
    method UpdateDeviceTextures(engine: Engine)
      requires Valid() && platform.AndroidDevice?
      modifies this`currEyeTextureIdx, this`nextEyeTextureIdx, this`log
      modifies eyeTextures, eyeTextureIds, eyeDescs
      ensures Valid()
      ensures forall k :: 0 <= k < eyeTextures.Length ==> eyeTextures[k].created
      ensures eyeTextures[..] == Recreated(old(eyeTextures[..]), engine)
      ensures eyeDescs[..] == old(eyeDescs[..])
      ensures needsConfigureTexture == old(needsConfigureTexture) && needsSetTexture == old(needsSetTexture)
      ensures prevFullScreen == old(prevFullScreen) && nativeModeChange == old(nativeModeChange) && log == old(log)
      ensures currEyeTextureIdx == old(nextEyeTextureIdx) && nextEyeTextureIdx == NextIndex(old(nextEyeTextureIdx))
    {
      ghost var base := eyeTextures[..];
      var _ := CreateMissingTextures(engine);
      RecreatedSpec(base, engine);
      RotateEyeTextureIndex();
    }

    /** The engine released slot k's GPU resource (for instance on a device reset); IsCreated now fails. */
    method TextureLost(k: int)
      requires Valid() && 0 <= k < eyeTextures.Length
      modifies eyeTextures
      ensures Valid()
      ensures eyeTextures[..] == old(eyeTextures[..])[k := old(eyeTextures[k]).(created := false)]
    {
      eyeTextures[k] := eyeTextures[k].(created := false);
    }

    /** The plugin raised its mode-change flag (OVR_UnityGetModeChange now answers true). */
    method ModeChangeRaised()
      modifies this`nativeModeChange
      ensures nativeModeChange
    {
      nativeModeChange := true;
    }

    /** The render thread resolved slot k's native pointer; GetNativeTexturePtr no longer answers null. */
    method HandleResolved(k: int)
      requires Valid() && 0 <= k < eyeTextures.Length
      modifies eyeTextures
      ensures Valid()
      ensures eyeTextures[..] == old(eyeTextures[..])[k := old(eyeTextures[k]).(handleIsNull := false)]
    {
      eyeTextures[k] := eyeTextures[k].(handleIsNull := false);
    }
  }
}

// The XeSS upscaling pass: the pass-through guards, the re-initialisation
// decision, the output ring with dirty flags, the cached dummy motion-vector
// texture, the frame index with its history-reset rule, and the
// quality-mode render resolutions. Every SDK call is a success/failure
// parameter; whether the SDK is compiled in at all is the `sdk` flag.

module XeSS {
  import opened Common

  /** `frame_index` is a `u32`: its increment wraps at 2^32. */
  const IndexModulus: nat := 0x1_0000_0000

  /** `XeSSQualityMode`, as far as the switches over it name its members. */
  datatype QualityMode = UltraPerformance | Performance | Balanced | Quality | UltraQuality | NativeAA

  /** The settings `Render` reads. */
  datatype Settings = Settings(enable: bool, qualityMode: QualityMode)

  // ---------------------------------------------------------------------
  // Render resolution

  /** The divisor of each mode as the decimal its `float` literal spells.
      For a `u32` extent the single-precision quotient truncates to the same
      value as the exact one for every `d` below 1,363,150 in Ultra Quality
      (`1.3f`) and below 3,565,160 in Balanced (`1.7f`), and the other
      modes agree further still. */
  function Scale(mode: QualityMode): (r: Ratio)
    ensures r.num >= r.den > 0
  {
    match mode
    case UltraPerformance => Ratio(3, 1)
    case Performance => Ratio(2, 1)
    case Balanced => Ratio(17, 10)
    case Quality => Ratio(3, 2)
    case UltraQuality => Ratio(13, 10)
    case NativeAA => Ratio(1, 1)
  }

  /** `XeSSPass::GetRenderResolution`. */
  function GetRenderResolution(display: Extent, mode: QualityMode): (r: Extent)
    ensures r.width <= display.width && r.height <= display.height
  {
    Extent(Truncate(display.width, Scale(mode)), Truncate(display.height, Scale(mode)))
  }

  /** Each mode renders at the floor of `d / scale` on each axis. */
  lemma RenderResolutionExact(display: Extent)
    ensures GetRenderResolution(display, NativeAA) == display
    ensures GetRenderResolution(display, Performance) == Extent(display.width / 2, display.height / 2)
    ensures GetRenderResolution(display, UltraPerformance) == Extent(display.width / 3, display.height / 3)
    ensures GetRenderResolution(display, Quality) == Extent(2 * display.width / 3, 2 * display.height / 3)
    ensures GetRenderResolution(display, Balanced) == Extent(10 * display.width / 17, 10 * display.height / 17)
    ensures GetRenderResolution(display, UltraQuality) == Extent(10 * display.width / 13, 10 * display.height / 13)
  {
  }

  /** Every mode but NativeAA renders strictly below a non-zero display
      extent, and NativeAA renders at the display size. */
  lemma UpscalingModesShrink(display: Extent, mode: QualityMode)
    ensures var r := GetRenderResolution(display, mode);
      && (mode == NativeAA ==> r == display)
      && (mode != NativeAA && display.width > 0 ==> r.width < display.width)
      && (mode != NativeAA && display.height > 0 ==> r.height < display.height)
  {
    if mode != NativeAA {
      TruncateShrinks(display.width, Scale(mode));
      TruncateShrinks(display.height, Scale(mode));
    }
  }

  // ---------------------------------------------------------------------
  // The pass state

  /** An entry of `output_images`: its `u8` id, its dirty flag, and the
      extent of its image, `None` while it holds the empty image `Create`
      gave it. */
  datatype OutputImage = OutputImage(id: nat, dirty: bool, image: Option<Extent>)

  /** `output_images` with the `current_output` cursor. */
  datatype Ring = Ring(current: nat, slots: seq<OutputImage>)

  /** Slot `k` carries the `u8` truncation of its index as id, and a clean
      slot holds an image. */
  predicate SlotWellFormed(o: OutputImage, k: nat)
  {
    o.id == k % 256 && (!o.dirty ==> o.image.Some?)
  }

  predicate RingWellFormed(r: Ring)
  {
    && |r.slots| > 0
    && r.current < |r.slots|
    && forall k :: 0 <= k < |r.slots| ==> SlotWellFormed(r.slots[k], k)
  }

  /** The cached dummy motion-vector texture: whether it exists, and its size. */
  datatype MotionVectors = MotionVectors(initialized: bool, size: Extent)

  /** The pass's fields. `sdk` says whether the SDK is compiled in. */
  datatype State = State(sdk: bool, isAvailable: bool, contextCreated: bool,
                         initialized: bool, currentOutputSize: Extent,
                         currentQualityMode: QualityMode, frameIndex: nat, lastDeltaTime: real,
                         ring: Ring, motion: MotionVectors)

  /** A well-formed ring, a `u32` frame index, and no context without the SDK. */
  predicate WellFormed(s: State)
  {
    && RingWellFormed(s.ring)
    && s.frameIndex < IndexModulus
    && (!s.sdk ==> !s.isAvailable && !s.contextCreated)
  }

  /** The fields' defaults followed by `Create(num_images)`: the pass is
      available exactly when the SDK is compiled in and its context is
      created (`createOk`); every slot gets its id and an empty image. */
  function Created(sdk: bool, createOk: bool, numImages: nat): (s: State)
    requires numImages > 0
    ensures WellFormed(s)
  {
    State(sdk, sdk && createOk, sdk && createOk, false, ZeroExtent, Balanced, 0, 0.0,
          Ring(0, seq(numImages, i => OutputImage(i % 256, true, None))), MotionVectors(false, ZeroExtent))
  }

  /** Every slot marked dirty, nothing else changed. */
  function MarkAllDirty(r: Ring): (m: Ring)
    requires RingWellFormed(r)
    ensures RingWellFormed(m)
  {
    r.(slots := seq(|r.slots|, k requires 0 <= k < |r.slots| => r.slots[k].(dirty := true)))
  }

  /** `ResizeOutput`: records the size and marks every slot dirty. */
  function ResizeStep(s: State, size: Extent): (r: State)
    requires WellFormed(s)
    ensures WellFormed(r)
  {
    s.(currentOutputSize := size, ring := MarkAllDirty(s.ring))
  }

  /** `CreateOutputImages` on slot `slot`: a clean slot with a new image of
      `size`, under the same id. */
  function BuildSlot(r: Ring, slot: nat, size: Extent): (b: Ring)
    requires RingWellFormed(r) && slot < |r.slots|
    ensures RingWellFormed(b)
  {
    r.(slots := r.slots[slot := OutputImage(r.slots[slot].id, false, Some(size))])
  }

  function CreateOutputImagesStep(s: State, slot: nat, size: Extent): (r: State)
    requires WellFormed(s) && slot < |s.ring.slots|
    ensures WellFormed(r)
  {
    s.(ring := BuildSlot(s.ring, slot, size))
  }

  /** `CreateDummyMotionVectors`: nothing when a texture of `size` exists,
      otherwise a new one of that size. */
  function MotionVectorsStep(m: MotionVectors, size: Extent): MotionVectors
  {
    if m.initialized && m.size == size then m else MotionVectors(true, size)
  }

  /** The texture is rebuilt only when there is none or its size differs
      from the input size; afterwards it exists with that size. */
  lemma MotionVectorsCached(m: MotionVectors, size: Extent)
    ensures MotionVectorsStep(m, size) == MotionVectors(true, size)
    ensures MotionVectorsStep(m, size) == m <==> m.initialized && m.size == size
  {
  }

  /** Whether `Render` has to (re)initialise XeSS. */
  predicate NeedsInit(s: State, outputSize: Extent, mode: QualityMode)
  {
    !s.initialized || s.currentOutputSize != outputSize || s.currentQualityMode != mode
  }

  // ---------------------------------------------------------------------
  // Render

  /** One `Render`: the new state, the view returned, the final value of
      `DebugState.is_using_xess`, the slots rebuilt, and the
      `resetHistory` flag handed to the execute call when it is reached. */
  datatype Frame = Frame(state: State, view: ImageView, usingXess: bool, created: seq<nat>,
                         resetHistory: Option<bool>)

  /** The guards before any state is touched. */
  predicate PassesThrough(s: State, settings: Settings, inputSize: Extent, outputSize: Extent)
  {
    || !settings.enable || !s.isAvailable
    || (inputSize.width >= outputSize.width && inputSize.height >= outputSize.height)
  }

  /** What `Render` does once XeSS is initialised: the size check, the slot
      under the cursor and its rebuild, the motion vectors, the cursor, the
      delta time and the frame index. */
  datatype Executed = Executed(state: State, slot: nat, created: seq<nat>)

  function ExecuteStep(s: State, inputSize: Extent, outputSize: Extent, deltaTime: real): (e: Executed)
    requires WellFormed(s)
    ensures WellFormed(e.state) && e.slot < |e.state.ring.slots|
  {
    var sized := if outputSize != s.currentOutputSize then ResizeStep(s, outputSize) else s;
    var slot := sized.ring.current;
    var dirty := sized.ring.slots[slot].dirty;
    var built := if dirty then CreateOutputImagesStep(sized, slot, outputSize) else sized;
    Executed(built.(ring := built.ring.(current := Next(slot, |built.ring.slots|)),
                    motion := MotionVectorsStep(built.motion, inputSize),
                    lastDeltaTime := deltaTime, frameIndex := (built.frameIndex + 1) % IndexModulus),
             slot, if dirty then [slot] else [])
  }

  /** An executed frame on a state whose recorded size is already the
      output size uses the slot under the cursor, rebuilds it exactly when
      it is dirty, leaves every other slot alone, advances the cursor,
      caches the motion vectors at the input size, records the delta time
      and counts the frame, wrapping at 2^32. */
  lemma ExecuteStepSlots(s: State, inputSize: Extent, outputSize: Extent, deltaTime: real)
    requires WellFormed(s) && s.currentOutputSize == outputSize
    ensures var e := ExecuteStep(s, inputSize, outputSize, deltaTime);
      var slot := s.ring.current;
      && e.slot == slot
      && e.state.ring.current == (slot + 1) % |s.ring.slots|
      && e.state.frameIndex == (if s.frameIndex + 1 == IndexModulus then 0 else s.frameIndex + 1)
      && e.state.lastDeltaTime == deltaTime
      && e.state.motion == MotionVectors(true, inputSize)
      && e.state.currentOutputSize == outputSize
      && (e.created == [slot] <==> s.ring.slots[slot].dirty)
      && (e.created == [] <==> !s.ring.slots[slot].dirty)
      && |e.state.ring.slots| == |s.ring.slots|
      && (forall k :: 0 <= k < |s.ring.slots| && k != slot ==> e.state.ring.slots[k] == s.ring.slots[k])
      && (s.ring.slots[slot].dirty ==> e.state.ring.slots[slot].image == Some(outputSize))
      && (!s.ring.slots[slot].dirty ==> e.state.ring.slots[slot] == s.ring.slots[slot])
      && !e.state.ring.slots[slot].dirty
  {
    MotionVectorsCached(s.motion, inputSize);
  }

  /** The state `Render` executes on once initialisation has succeeded or
      was not needed. */
  function Ready(s: State, outputSize: Extent, mode: QualityMode): State
  {
    if NeedsInit(s, outputSize, mode)
    then s.(currentOutputSize := outputSize, currentQualityMode := mode, initialized := true)
    else s
  }

  /** `XeSSPass::Render`; `initOk` and `execOk` are the results of the SDK's
      init and execute calls. */
  function RenderStep(s: State, color: ImageView, inputSize: Extent, outputSize: Extent,
                      settings: Settings, deltaTime: real, reset: bool,
                      initOk: bool, execOk: bool): (f: Frame)
    requires WellFormed(s)
    ensures WellFormed(f.state)
  {
    if PassesThrough(s, settings, inputSize, outputSize) || !s.sdk then Frame(s, color, false, [], None)
    else if NeedsInit(s, outputSize, settings.qualityMode) && !initOk then
      Frame(s.(initialized := false), color, false, [], None)
    else
      var ready := Ready(s, outputSize, settings.qualityMode);
      if !ready.initialized then Frame(ready, color, false, [], None)
      else
        var e := ExecuteStep(ready, inputSize, outputSize, deltaTime);
        var resetHistory := reset || e.state.frameIndex == 1;
        Frame(e.state, if execOk then SlotView(e.slot) else color, execOk, e.created, Some(resetHistory))
  }

  /** Disabled, unavailable, nothing to upscale, or no SDK: the color view
      is returned, XeSS is reported unused, and nothing changes. */
  lemma RenderStepPassesThrough(s: State, color: ImageView, inputSize: Extent, outputSize: Extent,
                                settings: Settings, deltaTime: real, reset: bool,
                                initOk: bool, execOk: bool)
    requires WellFormed(s) && (PassesThrough(s, settings, inputSize, outputSize) || !s.sdk)
    ensures RenderStep(s, color, inputSize, outputSize, settings, deltaTime, reset, initOk, execOk)
         == Frame(s, color, false, [], None)
  {
  }

  /** Re-initialisation happens exactly when the pass is not initialised or
      the output size or quality mode changed. A failed init clears
      `initialized_for_resolution` and passes through. A successful one, or
      none needed, leaves the pass initialised for the requested size and
      mode, so the safety check never fires and the size check inside
      `ExecuteStep` never finds a change: the resize branch is dead. */
  lemma RenderStepInit(s: State, color: ImageView, inputSize: Extent, outputSize: Extent,
                       settings: Settings, deltaTime: real, reset: bool,
                       initOk: bool, execOk: bool)
    requires WellFormed(s) && !PassesThrough(s, settings, inputSize, outputSize) && s.sdk
    ensures var f := RenderStep(s, color, inputSize, outputSize, settings, deltaTime, reset, initOk, execOk);
      && (NeedsInit(s, outputSize, settings.qualityMode) && !initOk ==>
            f == Frame(s.(initialized := false), color, false, [], None))
      && (!NeedsInit(s, outputSize, settings.qualityMode) || initOk ==>
            var ready := Ready(s, outputSize, settings.qualityMode);
            && ready.initialized
            && ready.currentOutputSize == outputSize
            && ready.currentQualityMode == settings.qualityMode
            && ready.ring == s.ring && ready.frameIndex == s.frameIndex
            && f.state == ExecuteStep(ready, inputSize, outputSize, deltaTime).state
            && f.resetHistory.Some?)
  {
  }

  /** An executed frame returns the slot under the cursor, rebuilds it
      exactly when it is dirty, advances the cursor, counts the frame
      (wrapping at 2^32) and resets the history exactly when asked to or on
      frame 1. An execute failure returns the color view with XeSS reported
      unused, but the cursor and the frame index have advanced all the
      same. */
  lemma RenderStepExecutes(s: State, color: ImageView, inputSize: Extent, outputSize: Extent,
                           settings: Settings, deltaTime: real, reset: bool,
                           initOk: bool, execOk: bool)
    requires WellFormed(s) && !PassesThrough(s, settings, inputSize, outputSize) && s.sdk
    requires !NeedsInit(s, outputSize, settings.qualityMode) || initOk
    ensures var f := RenderStep(s, color, inputSize, outputSize, settings, deltaTime, reset, initOk, execOk);
      var slot := s.ring.current;
      var index := if s.frameIndex + 1 == IndexModulus then 0 else s.frameIndex + 1;
      && f.state.ring.current == (slot + 1) % |s.ring.slots|
      && f.state.frameIndex == index
      && f.state.lastDeltaTime == deltaTime
      && f.resetHistory == Some(reset || index == 1)
      && (f.created == [slot] <==> s.ring.slots[slot].dirty)
      && (f.created == [] <==> !s.ring.slots[slot].dirty)
      && |f.state.ring.slots| == |s.ring.slots|
      && (forall k :: 0 <= k < |s.ring.slots| && k != slot ==> f.state.ring.slots[k] == s.ring.slots[k])
      && (s.ring.slots[slot].dirty ==> f.state.ring.slots[slot].image == Some(outputSize))
      && (!s.ring.slots[slot].dirty ==> f.state.ring.slots[slot] == s.ring.slots[slot])
      && (execOk ==> f.view == SlotView(slot) && f.usingXess)
      && (!execOk ==> f.view == color && !f.usingXess)
  {
    RenderStepInit(s, color, inputSize, outputSize, settings, deltaTime, reset, initOk, execOk);
    ExecuteStepSlots(Ready(s, outputSize, settings.qualityMode), inputSize, outputSize, deltaTime);
  }

  /** The first frame executed after `Create` always resets the history. */
  lemma FirstFrameResetsHistory(sdk: bool, createOk: bool, numImages: nat, color: ImageView,
                                inputSize: Extent, outputSize: Extent, settings: Settings,
                                deltaTime: real, execOk: bool)
    requires numImages > 0
    requires !PassesThrough(Created(sdk, createOk, numImages), settings, inputSize, outputSize) && sdk
    ensures RenderStep(Created(sdk, createOk, numImages), color, inputSize, outputSize, settings,
                       deltaTime, false, true, execOk).resetHistory == Some(true)
  {
    RenderStepExecutes(Created(sdk, createOk, numImages), color, inputSize, outputSize, settings,
                       deltaTime, false, true, execOk);
  }

  /** A call to `Render`, without the inputs that only feed the SDK. */
  datatype Call = Call(color: ImageView, inputSize: Extent, outputSize: Extent, settings: Settings,
                       deltaTime: real, reset: bool, initOk: bool, execOk: bool)

  datatype Run = Run(state: State, views: seq<ImageView>)

  function RenderMany(s: State, calls: seq<Call>): (r: Run)
    requires WellFormed(s)
    ensures WellFormed(r.state) && |r.views| == |calls|
    decreases |calls|
  {
    if calls == [] then Run(s, [])
    else
      var c := calls[0];
      var f := RenderStep(s, c.color, c.inputSize, c.outputSize, c.settings, c.deltaTime, c.reset,
                          c.initOk, c.execOk);
      var rest := RenderMany(f.state, calls[1..]);
      Run(rest.state, [f.view] + rest.views)
  }

  /** Without the SDK the pass is never available, so every frame hands
      back its own color view and the state never moves. */
  lemma {:induction false} WithoutSdkAlwaysPassesThrough(s: State, calls: seq<Call>)
    requires WellFormed(s) && !s.sdk
    ensures RenderMany(s, calls).state == s
    ensures forall k :: 0 <= k < |calls| ==> RenderMany(s, calls).views[k] == calls[k].color
    decreases |calls|
  {
    if calls != [] {
      WithoutSdkAlwaysPassesThrough(s, calls[1..]);
    }
  }

  // ---------------------------------------------------------------------
  // The output size after a resolution change

  /** Every clean slot holds an image of the recorded output size. */
  predicate SlotsMatchSize(s: State)
  {
    forall k :: 0 <= k < |s.ring.slots| ==>
      !s.ring.slots[k].dirty ==> s.ring.slots[k].image == Some(s.currentOutputSize)
  }

  /** The pass two 1920x1080 frames after a successful `Create(2)`: XeSS
      is initialised for 1920x1080, both slots have been built at that size,
      and the cursor is back at slot 0. */
  function BuiltAt1080(): (s: State)
    ensures WellFormed(s) && SlotsMatchSize(s)
    ensures s.initialized && s.currentOutputSize == Extent(1920, 1080) && s.currentQualityMode == Balanced
    ensures s.ring.current == 0 && |s.ring.slots| == 2
    ensures forall k :: 0 <= k < 2 ==> s.ring.slots[k] == OutputImage(k, false, Some(Extent(1920, 1080)))
  {
    var size, input, settings := Extent(1920, 1080), Extent(1280, 720), Settings(true, Balanced);
    var f1 := RenderStep(Created(true, true, 2), ExternalView(7), input, size, settings, 0.0, false, true, true);
    var f2 := RenderStep(f1.state, ExternalView(7), input, size, settings, 0.0, false, true, true);
    f2.state
  }

  /** As written, a resolution change re-initialises XeSS and records the
      new size before the size check, so no slot is marked dirty: the clean
      slot built at 1920x1080 is handed back as the output of a 3840x2160
      frame, and the slots no longer match the recorded size. */
  lemma StaleOutputAfterResize()
    ensures var f := RenderStep(BuiltAt1080(), ExternalView(7), Extent(1280, 720), Extent(3840, 2160),
                                Settings(true, Balanced), 0.0, false, true, true);
      && f.view == SlotView(0)
      && f.state.currentOutputSize == Extent(3840, 2160)
      && f.state.ring.slots[0].image == Some(Extent(1920, 1080))
      && !SlotsMatchSize(f.state)
  {
    RenderStepExecutes(BuiltAt1080(), ExternalView(7), Extent(1280, 720), Extent(3840, 2160),
                       Settings(true, Balanced), 0.0, false, true, true);
  }

  /** `Render` with the size check made against the size recorded before
      the re-initialisation, so that a resolution change marks every slot
      dirty. */
  function RenderStepResizeFirst(s: State, color: ImageView, inputSize: Extent, outputSize: Extent,
                                 settings: Settings, deltaTime: real, reset: bool,
                                 initOk: bool, execOk: bool): (f: Frame)
    requires WellFormed(s)
    ensures WellFormed(f.state)
  {
    if PassesThrough(s, settings, inputSize, outputSize) || !s.sdk then Frame(s, color, false, [], None)
    else if NeedsInit(s, outputSize, settings.qualityMode) && !initOk then
      Frame(s.(initialized := false), color, false, [], None)
    else
      var sized := if outputSize != s.currentOutputSize then ResizeStep(s, outputSize) else s;
      var ready := sized.(currentQualityMode := settings.qualityMode, initialized := true);
      var e := ExecuteStep(ready, inputSize, outputSize, deltaTime);
      var resetHistory := reset || e.state.frameIndex == 1;
      Frame(e.state, if execOk then SlotView(e.slot) else color, execOk, e.created, Some(resetHistory))
  }

  /** Marking every slot dirty makes the slots match any recorded size. */
  lemma ResizeStepMatches(s: State, size: Extent)
    requires WellFormed(s)
    ensures SlotsMatchSize(ResizeStep(s, size)) && ResizeStep(s, size).currentOutputSize == size
  {
  }

  /** With the size check first, every clean slot keeps matching the
      recorded size, and the slot handed back holds an image of exactly the
      requested output size. */
  lemma ResizeFirstKeepsSlotsMatching(s: State, color: ImageView, inputSize: Extent, outputSize: Extent,
                                      settings: Settings, deltaTime: real, reset: bool,
                                      initOk: bool, execOk: bool)
    requires WellFormed(s) && SlotsMatchSize(s)
    ensures var f := RenderStepResizeFirst(s, color, inputSize, outputSize, settings, deltaTime, reset,
                                           initOk, execOk);
      && SlotsMatchSize(f.state)
      && (f.usingXess ==> f.view.SlotView? && f.view.slot < |f.state.ring.slots|
                          && f.state.ring.slots[f.view.slot].image == Some(outputSize))
  {
    if !PassesThrough(s, settings, inputSize, outputSize) && s.sdk
       && (!NeedsInit(s, outputSize, settings.qualityMode) || initOk) {
      var sized := if outputSize != s.currentOutputSize then ResizeStep(s, outputSize) else s;
      if outputSize != s.currentOutputSize {
        ResizeStepMatches(s, outputSize);
      }
      var ready := sized.(currentQualityMode := settings.qualityMode, initialized := true);
      ExecuteStepSlots(ready, inputSize, outputSize, deltaTime);
    }
  }

  // ---------------------------------------------------------------------
  // The pass as an object

  class XeSSPass {
    const sdk: bool
    var isAvailable: bool
    var contextCreated: bool
    var initialized: bool
    var currentOutputSize: Extent
    var currentQualityMode: QualityMode
    var currentOutput: nat
    var frameIndex: nat
    var lastDeltaTime: real
    var outputImages: seq<OutputImage>
    var motionVectorsInitialized: bool
    var motionVectorSize: Extent

    function Abs(): State
      reads this
    {
      State(sdk, isAvailable, contextCreated, initialized, currentOutputSize, currentQualityMode,
            frameIndex, lastDeltaTime, Ring(currentOutput, outputImages),
            MotionVectors(motionVectorsInitialized, motionVectorSize))
    }

    ghost predicate Valid()
      reads this
    {
      WellFormed(Abs())
    }

    /** The fields' defaults followed by `Create(num_images)`; `createOk` is
        the result of the SDK's context creation. */
    constructor Create(sdk: bool, createOk: bool, numImages: nat)
      requires numImages > 0
      ensures Valid() && Abs() == Created(sdk, createOk, numImages)
    {
      this.sdk := sdk;
      if sdk {
        isAvailable := createOk;
        contextCreated := createOk;
      } else {
        isAvailable := false;
        contextCreated := false;
      }
      initialized := false;
      currentOutputSize := ZeroExtent;
      currentQualityMode := Balanced;
      currentOutput := 0;
      frameIndex := 0;
      lastDeltaTime := 0.0;
      motionVectorsInitialized := false;
      motionVectorSize := ZeroExtent;
      var images: seq<OutputImage> := [];
      for i := 0 to numImages
        invariant |images| == i
        invariant forall k :: 0 <= k < i ==> images[k] == OutputImage(k % 256, true, None)
      {
        images := images + [OutputImage(i % 256, true, None)];
      }
      outputImages := images;
    }

    /** `ResizeOutput`. */
    method ResizeOutput(size: Extent)
      requires Valid()
      modifies this
      ensures Valid() && Abs() == ResizeStep(old(Abs()), size)
    {
      currentOutputSize := size;
      for i := 0 to |outputImages|
        invariant |outputImages| == |old(outputImages)| && currentOutput == old(currentOutput)
        invariant Abs() == old(Abs()).(currentOutputSize := size, ring := Ring(currentOutput, outputImages))
        invariant forall k :: 0 <= k < |outputImages| ==>
          outputImages[k] == if k < i then old(outputImages[k]).(dirty := true) else old(outputImages[k])
      {
        outputImages := outputImages[i := outputImages[i].(dirty := true)];
      }
      assert outputImages == MarkAllDirty(old(Abs()).ring).slots;
    }

    /** `CreateOutputImages` on slot `slot`. */
    method CreateOutputImages(slot: nat, size: Extent)
      requires Valid() && slot < |outputImages|
      modifies this
      ensures Valid() && Abs() == CreateOutputImagesStep(old(Abs()), slot, size)
    {
      outputImages := outputImages[slot := OutputImage(outputImages[slot].id, false, Some(size))];
    }

    /** `CreateDummyMotionVectors`. */
    method CreateDummyMotionVectors(size: Extent)
      modifies this
      ensures Abs() == old(Abs()).(motion := MotionVectorsStep(old(Abs()).motion, size))
    {
      if motionVectorsInitialized && motionVectorSize == size {
        return;
      }
      motionVectorSize := size;
      motionVectorsInitialized := true;
    }

    /** `Render` from the size check to the frame count. */
    method Execute(inputSize: Extent, outputSize: Extent, deltaTime: real) returns (slot: nat, created: seq<nat>)
      requires Valid()
      modifies this
      ensures Valid()
      ensures var e := ExecuteStep(old(Abs()), inputSize, outputSize, deltaTime);
        Abs() == e.state && slot == e.slot && created == e.created
    {
      if outputSize != currentOutputSize {
        ResizeOutput(outputSize);
      }
      slot := currentOutput;
      created := [];
      if outputImages[slot].dirty {
        CreateOutputImages(slot, outputSize);
        created := [slot];
      }
      CreateDummyMotionVectors(inputSize);
      currentOutput := (currentOutput + 1) % |outputImages|;
      lastDeltaTime := deltaTime;
      frameIndex := (frameIndex + 1) % IndexModulus;
    }

    /** `Render`; the images and format only feed the SDK. Returns the view,
        the final `is_using_xess`, the slots rebuilt and the `resetHistory`
        flag of the execute call when it is reached. */
    method Render(color: ImageView, inputSize: Extent, outputSize: Extent, settings: Settings,
                  deltaTime: real, reset: bool, initOk: bool, execOk: bool)
      returns (view: ImageView, usingXess: bool, created: seq<nat>, resetHistory: Option<bool>)
      requires Valid()
      modifies this
      ensures Valid()
      ensures var f := RenderStep(old(Abs()), color, inputSize, outputSize, settings, deltaTime, reset,
                                  initOk, execOk);
        && Abs() == f.state && view == f.view && usingXess == f.usingXess && created == f.created
        && resetHistory == f.resetHistory
    {
      created, resetHistory := [], None;
      if !settings.enable || !isAvailable {
        return color, false, created, resetHistory;
      }
      if inputSize.width >= outputSize.width && inputSize.height >= outputSize.height {
        return color, false, created, resetHistory;
      }
      usingXess := true;
      if !sdk {
        return color, false, created, resetHistory;
      }
      var ok := Initialize(outputSize, settings.qualityMode, initOk);
      if !ok {
        return color, false, created, resetHistory;
      }
      if !initialized {
        return color, false, created, resetHistory;
      }
      var slot;
      slot, created := Execute(inputSize, outputSize, deltaTime);
      resetHistory := Some(reset || frameIndex == 1);
      if !execOk {
        return color, false, created, resetHistory;
      }
      view := SlotView(slot);
    }

    /** The `needs_init` block of `Render`: false when the SDK's init
        failed. */
    method Initialize(outputSize: Extent, mode: QualityMode, initOk: bool) returns (ok: bool)
      requires Valid()
      modifies this
      ensures Valid()
      ensures ok <==> !NeedsInit(old(Abs()), outputSize, mode) || initOk
      ensures ok ==> Abs() == Ready(old(Abs()), outputSize, mode)
      ensures !ok ==> Abs() == old(Abs()).(initialized := false)
    {
      ok := true;
      if !initialized || currentOutputSize != outputSize || currentQualityMode != mode {
        if !initOk {
          initialized := false;
          return false;
        }
        currentOutputSize := outputSize;
        currentQualityMode := mode;
        initialized := true;
      }
    }
  }
}

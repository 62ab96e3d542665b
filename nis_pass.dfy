// The NIS host pass (nis_pass.h / nis_pass.cpp): a frame controller that,
// when upscaling, uploads the NIS coefficient textures once, keeps a ring of
// output images sized to the current output extent, rebuilds the selected
// image only when it is dirty, and records a fixed sequence of commands.
//
// Vulkan objects are not modelled; every command the pass records is an
// `Event` appended to a ghost trace.

module NisHostPass {
  import opened Common
  import NisConfig
  import NisCoefficients

  const BlockWidth: nat := 32
  const BlockHeight: nat := 24
  const ThreadGroupSize: nat := 256

  /** `NisPass::Settings`. */
  datatype Settings = Settings(enable: bool, sharpness: real)

  /** `Settings{}`: disabled, sharpness 0.5. */
  const DefaultSettings: Settings := Settings(false, 0.5)

  /** `NisPass::Img`: the `u8` id, the dirty flag, and the extent of the
      output image once one has been created. */
  datatype Img = Img(id: nat, dirty: bool, image: Option<Extent>)

  /** The commands the pass records, in the terms that matter here. */
  datatype Event =
    | CoefImagesCreated
    | CoefStagingFilled
    | CoefToTransferDst
    | CoefCopied(kernel: NisCoefficients.Kernel, floatOffset: nat)
    | CoefToShaderRead
    | OutputImageCreated(slot: nat, extent: Extent)
    | OutputToGeneral(slot: nat)
    | ConfigUploaded(request: ConfigRequest)
    | PipelineBound
    | DescriptorsPushed(input: ImageView, output: nat)
    | Dispatched(x: nat, y: nat, z: nat)
    | OutputToShaderRead(slot: nat)

  /** The fields of `NisPass` that `Render` reads and writes. */
  datatype State = State(curSize: Extent, curImage: nat, imgs: seq<Img>,
                         coefficientsCreated: bool, coefficientsUploaded: bool)

  /** The cursor indexes a slot, slot `i` has id `i` truncated to a byte, and
      every clean slot holds an image of the current size. */
  predicate WellFormed(s: State)
  {
    && (if |s.imgs| == 0 then s.curImage == 0 else s.curImage < |s.imgs|)
    && (forall i :: 0 <= i < |s.imgs| ==> s.imgs[i].id == i % 256)
    && (forall i :: 0 <= i < |s.imgs| ==> !s.imgs[i].dirty ==> s.imgs[i].image == Some(s.curSize))
  }

  /** The state `Create(num_images)` leaves: size 0x0, cursor 0, no
      coefficients, and `num_images` dirty slots without images. */
  function Initial(n: nat): (s: State)
    ensures WellFormed(s) && |s.imgs| == n
  {
    State(ZeroExtent, 0, seq(n, i => Img(i % 256, true, None)), false, false)
  }

  /** A state change together with the commands recorded while making it. */
  datatype Step = Step(state: State, events: seq<Event>)

  /** `CreateCoefficientsTextures`. */
  function CreateCoefficientsStep(s: State): Step
  {
    if s.coefficientsCreated then Step(s, [])
    else Step(s.(coefficientsCreated := true), [CoefImagesCreated])
  }

  /** The commands of one coefficient upload: fill the staging buffer with
      both tables, move both images to TransferDst, copy each table from its
      offset, move both images to ShaderReadOnly. */
  function UploadEvents(): seq<Event>
  {
    [CoefStagingFilled,
     CoefToTransferDst,
     CoefCopied(NisCoefficients.Scale, NisCoefficients.StagingOffset(NisCoefficients.Scale)),
     CoefCopied(NisCoefficients.Usm, NisCoefficients.StagingOffset(NisCoefficients.Usm)),
     CoefToShaderRead]
  }

  /** `UploadCoefficients`. */
  function UploadCoefficientsStep(s: State): Step
  {
    if s.coefficientsUploaded then Step(s, [])
    else Step(s.(coefficientsUploaded := true), UploadEvents())
  }

  /** Every slot marked dirty, nothing else touched. */
  function Invalidate(imgs: seq<Img>): (r: seq<Img>)
    ensures |r| == |imgs|
    ensures forall i :: 0 <= i < |imgs| ==> r[i].dirty && r[i].id == imgs[i].id && r[i].image == imgs[i].image
  {
    seq(|imgs|, i requires 0 <= i < |imgs| => imgs[i].(dirty := true))
  }

  /** `ResizeAndInvalidate`. */
  function ResizeStep(s: State, size: Extent): (r: State)
    requires WellFormed(s)
    ensures WellFormed(r) && r.curSize == size && r.curImage == s.curImage
  {
    s.(curSize := size, imgs := Invalidate(s.imgs))
  }

  /** `CreateImages(available_imgs[slot])`: a fresh image of the current size,
      and the slot is clean. */
  function CreateImagesStep(s: State, slot: nat): (r: Step)
    requires WellFormed(s) && slot < |s.imgs|
    ensures WellFormed(r.state)
  {
    var img := s.imgs[slot];
    Step(s.(imgs := s.imgs[slot := Img(img.id, false, Some(s.curSize))]),
         [OutputImageCreated(slot, s.curSize)])
  }

  /** The compute grid of `Render`. */
  datatype Grid = Grid(x: nat, y: nat)

  /** `((w + 31) / 32, (h + 23) / 24)`. */
  function DispatchGrid(size: Extent): Grid
  {
    Grid((size.width + BlockWidth - 1) / BlockWidth, (size.height + BlockHeight - 1) / BlockHeight)
  }

  /** The two early returns of `Render`. */
  predicate PassesThrough(settings: Settings, inputSize: Extent, outputSize: Extent)
  {
    !settings.enable || (inputSize.width >= outputSize.width && inputSize.height >= outputSize.height)
  }

  /** The arguments of the `NVScalerUpdateConfig` call in `Render`; the
      config uploaded is `ScalerUpdate(request).config`. */
  datatype ConfigRequest = ConfigRequest(sharpness: real, inputSize: Extent, outputSize: Extent, hdr: bool)

  /** That call: a zero-initialised config, whole textures as viewports,
      origins 0, Linear HDR mode when `hdr`. */
  function ScalerUpdate(request: ConfigRequest): NisConfig.Update
  {
    NisConfig.ScalerUpdateConfig(NisConfig.ZeroConfig(), request.sharpness,
      0, 0, request.inputSize.width, request.inputSize.height,
      request.inputSize.width, request.inputSize.height,
      0, 0, request.outputSize.width, request.outputSize.height,
      request.outputSize.width, request.outputSize.height,
      if request.hdr then NisConfig.Linear else NisConfig.None)
  }

  /** The outcome of one `Render`: new state, returned view, recorded
      commands, and the value left in `DebugState.is_using_nis`. */
  datatype Frame = Frame(state: State, view: ImageView, events: seq<Event>, usingNis: bool)

  /** The first part of the upscaling path: coefficients created and
      uploaded, then `ResizeAndInvalidate` if the output size changed. */
  function PrepareStep(s: State, outputSize: Extent): (r: Step)
    requires WellFormed(s)
    ensures WellFormed(r.state) && |r.state.imgs| == |s.imgs|
    ensures r.state.curSize == outputSize && r.state.curImage == s.curImage
  {
    var created := CreateCoefficientsStep(s);
    var uploaded := UploadCoefficientsStep(created.state);
    Step(if outputSize != s.curSize then ResizeStep(uploaded.state, outputSize) else uploaded.state,
         created.events + uploaded.events)
  }

  /** The slot under the cursor is taken, the cursor advances, and the slot
      is rebuilt if it is dirty. */
  function AcquireStep(s: State): (r: Step)
    requires WellFormed(s) && |s.imgs| > 0
    ensures WellFormed(r.state) && |r.state.imgs| == |s.imgs| && r.state.curSize == s.curSize
  {
    var slot := s.curImage;
    var advanced := s.(curImage := Next(slot, |s.imgs|));
    if advanced.imgs[slot].dirty then CreateImagesStep(advanced, slot) else Step(advanced, [])
  }

  /** The commands after the selected slot is ready, in recording order. */
  function DispatchEvents(settings: Settings, input: ImageView, inputSize: Extent, outputSize: Extent,
                          hdr: bool, slot: nat): seq<Event>
  {
    var grid := DispatchGrid(outputSize);
    [OutputToGeneral(slot),
     ConfigUploaded(ConfigRequest(settings.sharpness, inputSize, outputSize, hdr)),
     PipelineBound,
     DescriptorsPushed(input, slot),
     Dispatched(grid.x, grid.y, 1),
     OutputToShaderRead(slot)]
  }

  /** The upscaling path of `Render`: coefficients and size, then the
      selected slot, then the dispatch commands. */
  function UpscaleStep(s: State, settings: Settings, input: ImageView,
                       inputSize: Extent, outputSize: Extent, hdr: bool): (f: Frame)
    requires WellFormed(s) && |s.imgs| > 0
    ensures WellFormed(f.state) && |f.state.imgs| == |s.imgs|
  {
    var prepared := PrepareStep(s, outputSize);
    var acquired := AcquireStep(prepared.state);
    Frame(acquired.state, SlotView(s.curImage),
          prepared.events + acquired.events + DispatchEvents(settings, input, inputSize, outputSize, hdr, s.curImage),
          true)
  }

  /** `NisPass::Render`. Indexing `available_imgs` needs at least one slot on
      the upscaling path. */
  function RenderStep(s: State, settings: Settings, input: ImageView,
                      inputSize: Extent, outputSize: Extent, hdr: bool): (f: Frame)
    requires WellFormed(s)
    requires !PassesThrough(settings, inputSize, outputSize) ==> |s.imgs| > 0
    ensures WellFormed(f.state) && |f.state.imgs| == |s.imgs|
  {
    if PassesThrough(settings, inputSize, outputSize) then
      Frame(s, input, [], false)
    else
      UpscaleStep(s, settings, input, inputSize, outputSize, hdr)
  }

  /** The upscaling path of `RenderStep` spelled out in its three parts. */
  lemma RenderStepParts(s: State, settings: Settings, input: ImageView,
                        inputSize: Extent, outputSize: Extent, hdr: bool)
    requires WellFormed(s) && |s.imgs| > 0
    requires !PassesThrough(settings, inputSize, outputSize)
    ensures var prepared := PrepareStep(s, outputSize);
      var acquired := AcquireStep(prepared.state);
      RenderStep(s, settings, input, inputSize, outputSize, hdr)
        == Frame(acquired.state, SlotView(s.curImage),
                 prepared.events + acquired.events + DispatchEvents(settings, input, inputSize, outputSize, hdr, s.curImage),
                 true)
  {
  }

  /** The slots whose output image a command list rebuilds, in order. */
  function CreatedSlots(events: seq<Event>): seq<nat>
  {
    if events == [] then []
    else (if events[0].OutputImageCreated? then [events[0].slot] else []) + CreatedSlots(events[1..])
  }

  lemma {:induction false} CreatedSlotsAppend(a: seq<Event>, b: seq<Event>)
    ensures CreatedSlots(a + b) == CreatedSlots(a) + CreatedSlots(b)
  {
    if a == [] {
      assert a + b == b;
    } else {
      var head := if a[0].OutputImageCreated? then [a[0].slot] else [];
      assert (a + b)[0] == a[0];
      assert (a + b)[1..] == a[1..] + b;
      CreatedSlotsAppend(a[1..], b);
      assert CreatedSlots(a + b) == head + (CreatedSlots(a[1..]) + CreatedSlots(b));
      assert CreatedSlots(a) == head + CreatedSlots(a[1..]);
    }
  }

  /** How many times `e` was recorded. */
  function Count(events: seq<Event>, e: Event): nat
  {
    if events == [] then 0 else (if events[0] == e then 1 else 0) + Count(events[1..], e)
  }

  lemma {:induction false} CountAppend(a: seq<Event>, b: seq<Event>, e: Event)
    ensures Count(a + b, e) == Count(a, e) + Count(b, e)
  {
    if a == [] {
      assert a + b == b;
    } else {
      assert (a + b)[1..] == a[1..] + b;
      CountAppend(a[1..], b, e);
    }
  }

  lemma {:induction false} CountAbsent(events: seq<Event>, e: Event)
    requires e !in events
    ensures Count(events, e) == 0
  {
    if events != [] {
      assert events == [events[0]] + events[1..];
      CountAbsent(events[1..], e);
    }
  }

  lemma {:induction false} CreatedSlotsNone(events: seq<Event>)
    requires forall i :: 0 <= i < |events| ==> !events[i].OutputImageCreated?
    ensures CreatedSlots(events) == []
  {
    if events != [] {
      CreatedSlotsNone(events[1..]);
    }
  }

  /** Preparing creates the coefficient images exactly when not done before
      and uploads both tables exactly when not done before; afterwards both
      flags are set. */
  lemma PrepareStepCoefficients(s: State, outputSize: Extent)
    requires WellFormed(s)
    ensures var r := PrepareStep(s, outputSize);
      && r.state.coefficientsCreated && r.state.coefficientsUploaded
      && Count(r.events, CoefImagesCreated) == (if s.coefficientsCreated then 0 else 1)
      && Count(r.events, CoefStagingFilled) == (if s.coefficientsUploaded then 0 else 1)
  {
    var created := CreateCoefficientsStep(s);
    var uploaded := UploadCoefficientsStep(created.state);
    assert PrepareStep(s, outputSize).events == created.events + uploaded.events;
    CreateCoefficientsCounts(s);
    UploadCoefficientsCounts(created.state);
    CountAppend(created.events, uploaded.events, CoefImagesCreated);
    CountAppend(created.events, uploaded.events, CoefStagingFilled);
  }

  lemma CreateCoefficientsCounts(s: State)
    ensures var r := CreateCoefficientsStep(s);
      && r.state.coefficientsCreated && r.state.coefficientsUploaded == s.coefficientsUploaded
      && Count(r.events, CoefImagesCreated) == (if s.coefficientsCreated then 0 else 1)
      && Count(r.events, CoefStagingFilled) == 0
  {
    var r := CreateCoefficientsStep(s);
    if !s.coefficientsCreated {
      assert r.events == [CoefImagesCreated];
      assert Count(r.events, CoefImagesCreated) == 1 + Count([], CoefImagesCreated);
    }
  }

  lemma UploadCoefficientsCounts(s: State)
    ensures var r := UploadCoefficientsStep(s);
      && r.state.coefficientsUploaded && r.state.coefficientsCreated == s.coefficientsCreated
      && Count(r.events, CoefImagesCreated) == 0
      && Count(r.events, CoefStagingFilled) == (if s.coefficientsUploaded then 0 else 1)
  {
    var upload := UploadEvents();
    CountAbsent(upload, CoefImagesCreated);
    CountAbsent(upload[1..], CoefStagingFilled);
    assert Count(upload, CoefStagingFilled) == 1 + Count(upload[1..], CoefStagingFilled);
  }

  /** Preparing rebuilds no slot; it invalidates every slot exactly when the
      size changed and leaves their images alone. */
  lemma PrepareStepSlots(s: State, outputSize: Extent)
    requires WellFormed(s)
    ensures var r := PrepareStep(s, outputSize);
      && CreatedSlots(r.events) == []
      && (forall i :: 0 <= i < |s.imgs| ==>
            r.state.imgs[i].image == s.imgs[i].image
            && r.state.imgs[i].dirty == (outputSize != s.curSize || s.imgs[i].dirty))
  {
    var created := CreateCoefficientsStep(s);
    var uploaded := UploadCoefficientsStep(created.state);
    assert PrepareStep(s, outputSize).events == created.events + uploaded.events;
    CreatedSlotsNone(created.events + uploaded.events);
  }

  /** Acquiring advances the cursor and leaves the selected slot clean with
      an image of the current size; it rebuilds that slot, and no other,
      exactly when it was dirty. */
  lemma AcquireStepContract(s: State)
    requires WellFormed(s) && |s.imgs| > 0
    ensures var r, slot := AcquireStep(s), s.curImage;
      && r.state.curImage == Next(slot, |s.imgs|)
      && r.state.coefficientsCreated == s.coefficientsCreated
      && r.state.coefficientsUploaded == s.coefficientsUploaded
      && r.state.imgs[slot] == Img(s.imgs[slot].id, false, Some(s.curSize))
      && (forall i :: 0 <= i < |s.imgs| && i != slot ==> r.state.imgs[i] == s.imgs[i])
      && r.events == (if s.imgs[slot].dirty then [OutputImageCreated(slot, s.curSize)] else [])
  {
  }

  /** The six dispatch commands rebuild nothing and create or upload no
      coefficients. */
  lemma DispatchEventsAreDispatch(settings: Settings, input: ImageView, inputSize: Extent,
                                  outputSize: Extent, hdr: bool, slot: nat)
    ensures |DispatchEvents(settings, input, inputSize, outputSize, hdr, slot)| == 6
    ensures CreatedSlots(DispatchEvents(settings, input, inputSize, outputSize, hdr, slot)) == []
    ensures Count(DispatchEvents(settings, input, inputSize, outputSize, hdr, slot), CoefImagesCreated) == 0
    ensures Count(DispatchEvents(settings, input, inputSize, outputSize, hdr, slot), CoefStagingFilled) == 0
  {
    var e := DispatchEvents(settings, input, inputSize, outputSize, hdr, slot);
    CreatedSlotsNone(e);
    CountAbsent(e, CoefImagesCreated);
    CountAbsent(e, CoefStagingFilled);
  }

  /** The state after one upscaling `Render`: coefficients marked done, the
      output size adopted, the cursor advanced, the selected slot clean with
      an image of the output size, and every other slot keeping its image and
      becoming dirty exactly when the size changed or it already was. */
  lemma RenderStepUpscalesState(s: State, settings: Settings, input: ImageView,
                                inputSize: Extent, outputSize: Extent, hdr: bool)
    requires WellFormed(s) && |s.imgs| > 0
    requires !PassesThrough(settings, inputSize, outputSize)
    ensures var f := RenderStep(s, settings, input, inputSize, outputSize, hdr);
      var n, slot := |s.imgs|, s.curImage;
      && f.usingNis && f.view == SlotView(slot)
      && f.state.coefficientsCreated && f.state.coefficientsUploaded
      && f.state.curSize == outputSize
      && f.state.curImage == Next(slot, n)
      && f.state.imgs[slot] == Img(s.imgs[slot].id, false, Some(outputSize))
      && (forall i :: 0 <= i < n && i != slot ==>
            f.state.imgs[i].image == s.imgs[i].image
            && f.state.imgs[i].dirty == (outputSize != s.curSize || s.imgs[i].dirty))
  {
    var prepared := PrepareStep(s, outputSize);
    PrepareStepCoefficients(s, outputSize);
    PrepareStepSlots(s, outputSize);
    AcquireStepContract(prepared.state);
  }

  /** Counting over the three parts of a command list. */
  lemma CountThree(p: seq<Event>, a: seq<Event>, t: seq<Event>, e: Event)
    ensures Count(p + a + t, e) == Count(p, e) + Count(a, e) + Count(t, e)
  {
    CountAppend(p, a, e);
    CountAppend(p + a, t, e);
  }

  /** Filtering the three parts of a command list. */
  lemma CreatedSlotsThree(p: seq<Event>, a: seq<Event>, t: seq<Event>)
    ensures CreatedSlots(p + a + t) == CreatedSlots(p) + CreatedSlots(a) + CreatedSlots(t)
  {
    CreatedSlotsAppend(p, a);
    CreatedSlotsAppend(p + a, t);
  }

  /** One upscaling `Render` creates the coefficient images and uploads the
      tables exactly when that was not done before. */
  lemma RenderStepCoefficients(s: State, settings: Settings, input: ImageView,
                                 inputSize: Extent, outputSize: Extent, hdr: bool)
    requires WellFormed(s) && |s.imgs| > 0
    requires !PassesThrough(settings, inputSize, outputSize)
    ensures var f := RenderStep(s, settings, input, inputSize, outputSize, hdr);
      && Count(f.events, CoefImagesCreated) == (if s.coefficientsCreated then 0 else 1)
      && Count(f.events, CoefStagingFilled) == (if s.coefficientsUploaded then 0 else 1)
  {
    var prepared := PrepareStep(s, outputSize);
    var acquired := AcquireStep(prepared.state);
    var tail := DispatchEvents(settings, input, inputSize, outputSize, hdr, s.curImage);
    assert RenderStep(s, settings, input, inputSize, outputSize, hdr).events == prepared.events + acquired.events + tail;
    PrepareStepCoefficients(s, outputSize);
    DispatchEventsAreDispatch(settings, input, inputSize, outputSize, hdr, s.curImage);
    CountAbsent(acquired.events, CoefImagesCreated);
    CountAbsent(acquired.events, CoefStagingFilled);
    CountThree(prepared.events, acquired.events, tail, CoefImagesCreated);
    CountThree(prepared.events, acquired.events, tail, CoefStagingFilled);
  }

  /** One upscaling `Render` rebuilds the selected slot exactly when the size
      changed or the slot was dirty, and rebuilds no other slot. */
  lemma RenderStepRebuilds(s: State, settings: Settings, input: ImageView,
                                 inputSize: Extent, outputSize: Extent, hdr: bool)
    requires WellFormed(s) && |s.imgs| > 0
    requires !PassesThrough(settings, inputSize, outputSize)
    ensures CreatedSlots(RenderStep(s, settings, input, inputSize, outputSize, hdr).events)
              == (if outputSize != s.curSize || s.imgs[s.curImage].dirty then [s.curImage] else [])
  {
    var prepared := PrepareStep(s, outputSize);
    var acquired := AcquireStep(prepared.state);
    var tail := DispatchEvents(settings, input, inputSize, outputSize, hdr, s.curImage);
    assert RenderStep(s, settings, input, inputSize, outputSize, hdr).events == prepared.events + acquired.events + tail;
    var slot := s.curImage;
    PrepareStepSlots(s, outputSize);
    assert prepared.state.imgs[slot].dirty == (outputSize != s.curSize || s.imgs[slot].dirty);
    AcquireStepContract(prepared.state);
    var rebuilt := prepared.state.imgs[slot].dirty;
    assert acquired.events == if rebuilt then [OutputImageCreated(slot, outputSize)] else [];
    assert CreatedSlots(acquired.events) == if rebuilt then [slot] else [] by {
      if rebuilt {
        assert CreatedSlots(acquired.events) == [slot] + CreatedSlots([]);
      }
    }
    DispatchEventsAreDispatch(settings, input, inputSize, outputSize, hdr, slot);
    CreatedSlotsThree(prepared.events, acquired.events, tail);
  }

  /** One upscaling `Render` ends with the six dispatch commands, recorded
      whatever `NVScalerUpdateConfig` returned. */
  lemma RenderStepEndsWithDispatch(s: State, settings: Settings, input: ImageView,
                                 inputSize: Extent, outputSize: Extent, hdr: bool)
    requires WellFormed(s) && |s.imgs| > 0
    requires !PassesThrough(settings, inputSize, outputSize)
    ensures var f := RenderStep(s, settings, input, inputSize, outputSize, hdr);
      && |f.events| >= 6
      && f.events[|f.events| - 6..] == DispatchEvents(settings, input, inputSize, outputSize, hdr, s.curImage)
  {
    var prepared := PrepareStep(s, outputSize);
    var acquired := AcquireStep(prepared.state);
    var tail := DispatchEvents(settings, input, inputSize, outputSize, hdr, s.curImage);
    assert RenderStep(s, settings, input, inputSize, outputSize, hdr).events == prepared.events + acquired.events + tail;
    DispatchEventsAreDispatch(settings, input, inputSize, outputSize, hdr, s.curImage);
  }

  /** Disabled, or not upscaling on either axis: `Render` returns its input,
      clears `is_using_nis` and touches nothing else. */
  lemma RenderStepPassesThrough(s: State, settings: Settings, input: ImageView,
                                inputSize: Extent, outputSize: Extent, hdr: bool)
    requires WellFormed(s)
    requires !settings.enable || (inputSize.width >= outputSize.width && inputSize.height >= outputSize.height)
    ensures RenderStep(s, settings, input, inputSize, outputSize, hdr) == Frame(s, input, [], false)
  {
  }

  /** Default settings always pass through. */
  lemma DefaultSettingsPassThrough(inputSize: Extent, outputSize: Extent)
    ensures PassesThrough(DefaultSettings, inputSize, outputSize)
  {
  }

  /** One call of `Render` with its arguments. */
  datatype Call = Call(settings: Settings, input: ImageView, inputSize: Extent, outputSize: Extent, hdr: bool)

  /** The call takes the upscaling path. */
  predicate Upscales(c: Call)
  {
    !PassesThrough(c.settings, c.inputSize, c.outputSize)
  }

  /** The outcome of a sequence of `Render` calls. */
  datatype Run = Run(state: State, views: seq<ImageView>, events: seq<Event>)

  /** `Render` called once per element of `calls`, in order. */
  function RenderMany(s: State, calls: seq<Call>): (r: Run)
    requires WellFormed(s) && |s.imgs| > 0
    ensures WellFormed(r.state) && |r.state.imgs| == |s.imgs| && |r.views| == |calls|
    decreases |calls|
  {
    if calls == [] then Run(s, [], [])
    else
      var c := calls[0];
      var f := RenderStep(s, c.settings, c.input, c.inputSize, c.outputSize, c.hdr);
      var rest := RenderMany(f.state, calls[1..]);
      Run(rest.state, [f.view] + rest.views, f.events + rest.events)
  }

  /** Some call of the sequence takes the upscaling path. */
  predicate AnyUpscales(calls: seq<Call>)
    decreases |calls|
  {
    calls != [] && (Upscales(calls[0]) || AnyUpscales(calls[1..]))
  }

  /** Any call, upscaling or not, creates and uploads the coefficients
      exactly when it upscales and they were not yet. */
  lemma CoefficientsStep(s: State, c: Call)
    requires WellFormed(s) && |s.imgs| > 0
    ensures var f := RenderStep(s, c.settings, c.input, c.inputSize, c.outputSize, c.hdr);
      && Count(f.events, CoefImagesCreated) == (if !s.coefficientsCreated && Upscales(c) then 1 else 0)
      && Count(f.events, CoefStagingFilled) == (if !s.coefficientsUploaded && Upscales(c) then 1 else 0)
      && f.state.coefficientsCreated == (s.coefficientsCreated || Upscales(c))
      && f.state.coefficientsUploaded == (s.coefficientsUploaded || Upscales(c))
  {
    if Upscales(c) {
      RenderStepCoefficients(s, c.settings, c.input, c.inputSize, c.outputSize, c.hdr);
      RenderStepUpscalesState(s, c.settings, c.input, c.inputSize, c.outputSize, c.hdr);
    }
  }

  /** Over any sequence of calls the coefficient images are created at most
      once and the tables uploaded at most once: exactly once if they were
      not yet and some call upscales, never otherwise. */
  lemma {:induction false} CoefficientsAtMostOnce(s: State, calls: seq<Call>)
    requires WellFormed(s) && |s.imgs| > 0
    ensures var r := RenderMany(s, calls);
      && Count(r.events, CoefImagesCreated) == (if !s.coefficientsCreated && AnyUpscales(calls) then 1 else 0)
      && Count(r.events, CoefStagingFilled) == (if !s.coefficientsUploaded && AnyUpscales(calls) then 1 else 0)
      && r.state.coefficientsCreated == (s.coefficientsCreated || AnyUpscales(calls))
      && r.state.coefficientsUploaded == (s.coefficientsUploaded || AnyUpscales(calls))
    decreases |calls|
  {
    if calls != [] {
      var c := calls[0];
      var f := RenderStep(s, c.settings, c.input, c.inputSize, c.outputSize, c.hdr);
      var rest := RenderMany(f.state, calls[1..]);
      assert RenderMany(s, calls) == Run(rest.state, [f.view] + rest.views, f.events + rest.events);
      CoefficientsStep(s, c);
      CoefficientsAtMostOnce(f.state, calls[1..]);
      CountAppend(f.events, rest.events, CoefImagesCreated);
      CountAppend(f.events, rest.events, CoefStagingFilled);
    }
  }

  /** The `m` slots from the cursor on are dirty and the others are clean. */
  predicate DirtyWindow(s: State, m: nat)
    requires WellFormed(s) && |s.imgs| > 0
  {
    forall i :: 0 <= i < |s.imgs| ==> (s.imgs[i].dirty <==> Dist(s.curImage, i, |s.imgs|) < m)
  }

  /** One upscaling call at the current size rebuilds the slot under the
      cursor exactly when the window is not empty, and the window shrinks by
      that slot. */
  lemma WindowStep(s: State, c: Call, m: nat)
    requires WellFormed(s) && |s.imgs| > 0 && m <= |s.imgs| && DirtyWindow(s, m)
    requires Upscales(c) && c.outputSize == s.curSize
    ensures var f := RenderStep(s, c.settings, c.input, c.inputSize, c.outputSize, c.hdr);
      && CreatedSlots(f.events) == (if m > 0 then [s.curImage] else [])
      && f.state.curSize == s.curSize && f.state.curImage == Next(s.curImage, |s.imgs|)
      && DirtyWindow(f.state, if m > 0 then m - 1 else 0)
  {
    var n, cur := |s.imgs|, s.curImage;
    var f := RenderStep(s, c.settings, c.input, c.inputSize, c.outputSize, c.hdr);
    RenderStepRebuilds(s, c.settings, c.input, c.inputSize, c.outputSize, c.hdr);
    RenderStepUpscalesState(s, c.settings, c.input, c.inputSize, c.outputSize, c.hdr);
    assert s.imgs[cur].dirty <==> m > 0;
    forall i | 0 <= i < n
      ensures f.state.imgs[i].dirty <==> Dist(f.state.curImage, i, n) < (if m > 0 then m - 1 else 0)
    {
      DistNext(cur, i, n);
    }
  }

  /** The first upscaling call after a size change rebuilds the slot under
      the cursor and leaves every other slot dirty. */
  lemma ResizeStepWindow(s: State, c: Call)
    requires WellFormed(s) && |s.imgs| > 0
    requires Upscales(c) && c.outputSize != s.curSize
    ensures var f := RenderStep(s, c.settings, c.input, c.inputSize, c.outputSize, c.hdr);
      && CreatedSlots(f.events) == [s.curImage]
      && f.state.curSize == c.outputSize && f.state.curImage == Next(s.curImage, |s.imgs|)
      && DirtyWindow(f.state, |s.imgs| - 1)
  {
    var n, cur := |s.imgs|, s.curImage;
    var f := RenderStep(s, c.settings, c.input, c.inputSize, c.outputSize, c.hdr);
    RenderStepRebuilds(s, c.settings, c.input, c.inputSize, c.outputSize, c.hdr);
    RenderStepUpscalesState(s, c.settings, c.input, c.inputSize, c.outputSize, c.hdr);
    forall i | 0 <= i < n
      ensures f.state.imgs[i].dirty <==> Dist(f.state.curImage, i, n) < n - 1
    {
      DistNext(cur, i, n);
    }
  }

  lemma RingFirst(cur: nat, k: nat, m: nat, n: nat)
    requires cur < n && k > 0 && m <= n
    ensures Ring(cur, MinNat(k, m), n) == if m > 0 then [cur] + Ring(Next(cur, n), MinNat(k - 1, m - 1), n) else []
  {
  }

  /** Upscaling calls at the current size rebuild the dirty window in cursor
      order, one slot per call, and then nothing. */
  lemma {:induction false} RebuildWindow(s: State, calls: seq<Call>, m: nat)
    requires WellFormed(s) && |s.imgs| > 0 && m <= |s.imgs| && DirtyWindow(s, m)
    requires UpscalesAt(calls, s.curSize)
    ensures CreatedSlots(RenderMany(s, calls).events) == Ring(s.curImage, MinNat(|calls|, m), |s.imgs|)
    decreases |calls|
  {
    if calls != [] {
      var n, cur, c := |s.imgs|, s.curImage, calls[0];
      var f := RenderStep(s, c.settings, c.input, c.inputSize, c.outputSize, c.hdr);
      RenderManyCreated(s, calls);
      WindowStep(s, c, m);
      var m' := if m > 0 then m - 1 else 0;
      UpscalesAtTail(calls, s.curSize);
      RebuildWindow(f.state, calls[1..], m');
      RingFirst(cur, |calls|, m, n);
      assert CreatedSlots(f.events) == if m > 0 then [cur] else [];
    }
  }

  /** After a size change, upscaling calls at the new size rebuild the slots
      in cursor order starting at the cursor, one per call, until every slot
      has been rebuilt; later calls rebuild nothing. */
  lemma {:induction false} RebuildAfterResize(s: State, calls: seq<Call>, size: Extent)
    requires WellFormed(s) && |s.imgs| > 0 && size != s.curSize
    requires UpscalesAt(calls, size)
    ensures CreatedSlots(RenderMany(s, calls).events) == Ring(s.curImage, MinNat(|calls|, |s.imgs|), |s.imgs|)
  {
    if calls != [] {
      var n, cur, c := |s.imgs|, s.curImage, calls[0];
      var f := RenderStep(s, c.settings, c.input, c.inputSize, c.outputSize, c.hdr);
      RenderManyCreated(s, calls);
      ResizeStepWindow(s, c);
      UpscalesAtTail(calls, size);
      RebuildWindow(f.state, calls[1..], n - 1);
      RingFirst(cur, |calls|, n, n);
      assert CreatedSlots(f.events) == [cur];
    }
  }

  /** Every call of the sequence upscales to `size`. */
  predicate UpscalesAt(calls: seq<Call>, size: Extent)
  {
    forall j :: 0 <= j < |calls| ==> Upscales(calls[j]) && calls[j].outputSize == size
  }

  lemma UpscalesAtTail(calls: seq<Call>, size: Extent)
    requires calls != [] && UpscalesAt(calls, size)
    ensures Upscales(calls[0]) && calls[0].outputSize == size && UpscalesAt(calls[1..], size)
  {
  }

  /** The slots a run rebuilds are those of its first call, then the rest's. */
  lemma RenderManyCreated(s: State, calls: seq<Call>)
    requires WellFormed(s) && |s.imgs| > 0 && calls != []
    ensures var c := calls[0];
      var f := RenderStep(s, c.settings, c.input, c.inputSize, c.outputSize, c.hdr);
      CreatedSlots(RenderMany(s, calls).events) == CreatedSlots(f.events) + CreatedSlots(RenderMany(f.state, calls[1..]).events)
  {
    var c := calls[0];
    var f := RenderStep(s, c.settings, c.input, c.inputSize, c.outputSize, c.hdr);
    CreatedSlotsAppend(f.events, RenderMany(f.state, calls[1..]).events);
  }

  /** Hence `num_images` or more same-size upscaling calls after a size
      change rebuild each slot exactly once. */
  lemma RebuildEachSlotOnce(s: State, calls: seq<Call>, size: Extent)
    requires WellFormed(s) && |s.imgs| > 0 && size != s.curSize && |calls| >= |s.imgs|
    requires UpscalesAt(calls, size)
    ensures var rebuilt, n := CreatedSlots(RenderMany(s, calls).events), |s.imgs|;
      && |rebuilt| == n
      && (forall i :: 0 <= i < n ==> i in rebuilt)
      && (forall j1, j2 :: 0 <= j1 < j2 < n ==> rebuilt[j1] != rebuilt[j2])
  {
    RebuildAfterResize(s, calls, size);
    RingVisitsEverySlotOnce(s.curImage, |s.imgs|);
  }

  /** The first upscaling call after `Create` sees a size different from the
      initial 0x0, so it creates and uploads the coefficients, rebuilds slot
      0 and leaves every other slot dirty. */
  lemma FirstUpscaleInvalidatesAll(n: nat, settings: Settings, input: ImageView,
                                   inputSize: Extent, outputSize: Extent, hdr: bool)
    requires n > 0 && !PassesThrough(settings, inputSize, outputSize)
    ensures var f := RenderStep(Initial(n), settings, input, inputSize, outputSize, hdr);
      && outputSize != ZeroExtent
      && Count(f.events, CoefImagesCreated) == 1 && Count(f.events, CoefStagingFilled) == 1
      && CreatedSlots(f.events) == [0]
      && f.state.imgs[0].image == Some(outputSize)
      && (forall i :: 0 < i < n ==> f.state.imgs[i].dirty)
  {
    RenderStepCoefficients(Initial(n), settings, input, inputSize, outputSize, hdr);
    RenderStepRebuilds(Initial(n), settings, input, inputSize, outputSize, hdr);
    RenderStepUpscalesState(Initial(n), settings, input, inputSize, outputSize, hdr);
  }

  /** The grid is the fewest 32x24 blocks that cover the output. */
  lemma DispatchGridCovers(size: Extent)
    ensures var g := DispatchGrid(size);
      && g.x * BlockWidth >= size.width && (g.x - 1) * BlockWidth < size.width
      && g.y * BlockHeight >= size.height && (g.y - 1) * BlockHeight < size.height
  {
  }

  /** A 1920x1080 output is covered by 60x45 blocks. */
  lemma DispatchGrid1080p()
    ensures DispatchGrid(Extent(1920, 1080)) == Grid(60, 45)
  {
  }

  /** `NVScalerUpdateConfig` rejects a threefold upscale, 100x100 to 300x300. */
  lemma ThreefoldUpscaleRejected()
    ensures !ScalerUpdate(ConfigRequest(0.5, Extent(100, 100), Extent(300, 300), false)).ok
  {
    NisConfig.ScalerUpdateConfigContract(NisConfig.ZeroConfig(), 0.5, 0, 0, 100, 100, 100, 100,
                                         0, 0, 300, 300, 300, 300, NisConfig.None);
  }

  /** Upscaling 100x100 to 300x300 is outside the ratio `NVScalerUpdateConfig`
      accepts, yet `Render` uploads that config and dispatches a 10x13 grid. */
  lemma RejectedConfigIsStillDispatched(s: State, input: ImageView)
    requires WellFormed(s) && |s.imgs| > 0
    ensures var inputSize, outputSize := Extent(100, 100), Extent(300, 300);
      var f := RenderStep(s, Settings(true, 0.5), input, inputSize, outputSize, false);
      && !ScalerUpdate(ConfigRequest(0.5, inputSize, outputSize, false)).ok
      && |f.events| >= 6
      && f.events[|f.events| - 5] == ConfigUploaded(ConfigRequest(0.5, inputSize, outputSize, false))
      && f.events[|f.events| - 2] == Dispatched(10, 13, 1)
  {
    var inputSize, outputSize, settings := Extent(100, 100), Extent(300, 300), Settings(true, 0.5);
    ThreefoldUpscaleRejected();
    RenderStepEndsWithDispatch(s, settings, input, inputSize, outputSize, false);
    var es := RenderStep(s, settings, input, inputSize, outputSize, false).events;
    var tail := DispatchEvents(settings, input, inputSize, outputSize, false, s.curImage);
    assert DispatchGrid(outputSize) == Grid(10, 13);
    assert es[|es| - 5] == es[|es| - 6..][1] == tail[1];
    assert es[|es| - 2] == es[|es| - 6..][4] == tail[4];
  }

  /** `NisPass`. The global `DebugState.is_using_nis` is the field
      `isUsingNis`; `trace` holds the commands recorded so far. */
  class NisPass {
    var numImages: nat
    var curSize: Extent
    var curImage: nat
    var availableImgs: seq<Img>
    var coefficientsCreated: bool
    var coefficientsUploaded: bool
    var isUsingNis: bool
    ghost var trace: seq<Event>

    function Abs(): State
      reads this
    {
      State(curSize, curImage, availableImgs, coefficientsCreated, coefficientsUploaded)
    }

    ghost predicate Valid()
      reads this
    {
      |availableImgs| == numImages && WellFormed(Abs())
    }

    /** `Create`: `num_images` slots, slot `i` with id `(u8)i`. */
    constructor Create(numImages: nat)
      ensures Valid() && this.numImages == numImages && Abs() == Initial(numImages)
      ensures !isUsingNis && trace == []
    {
      this.numImages := numImages;
      curSize := ZeroExtent;
      curImage := 0;
      coefficientsCreated := false;
      coefficientsUploaded := false;
      isUsingNis := false;
      trace := [];
      var imgs := seq(numImages, _ => Img(0, true, None));
      for i := 0 to numImages
        invariant |imgs| == numImages
        invariant forall j :: 0 <= j < numImages ==> imgs[j] == Img(if j < i then j % 256 else 0, true, None)
      {
        imgs := imgs[i := imgs[i].(id := i % 256)];
      }
      assert imgs == Initial(numImages).imgs;
      availableImgs := imgs;
    }

    method CreateCoefficientsTextures()
      requires Valid()
      modifies this
      ensures Valid() && numImages == old(numImages) && isUsingNis == old(isUsingNis)
      ensures Abs() == CreateCoefficientsStep(old(Abs())).state
      ensures trace == old(trace) + CreateCoefficientsStep(old(Abs())).events
    {
      if coefficientsCreated {
        return;
      }
      coefficientsCreated := true;
      trace := trace + [CoefImagesCreated];
    }

    method UploadCoefficients()
      requires Valid()
      modifies this
      ensures Valid() && numImages == old(numImages) && isUsingNis == old(isUsingNis)
      ensures Abs() == UploadCoefficientsStep(old(Abs())).state
      ensures trace == old(trace) + UploadCoefficientsStep(old(Abs())).events
    {
      if coefficientsUploaded {
        return;
      }
      trace := trace + UploadEvents();
      coefficientsUploaded := true;
    }

    method ResizeAndInvalidate(width: nat, height: nat)
      requires Valid()
      modifies this
      ensures Valid() && numImages == old(numImages) && isUsingNis == old(isUsingNis)
      ensures Abs() == ResizeStep(old(Abs()), Extent(width, height))
      ensures trace == old(trace)
    {
      curSize := Extent(width, height);
      for i := 0 to numImages
        invariant numImages == old(numImages) && isUsingNis == old(isUsingNis) && trace == old(trace)
        invariant curSize == Extent(width, height) && curImage == old(curImage)
        invariant coefficientsCreated == old(coefficientsCreated) && coefficientsUploaded == old(coefficientsUploaded)
        invariant |availableImgs| == numImages
        invariant forall j :: 0 <= j < numImages ==>
          availableImgs[j] == if j < i then old(availableImgs[j]).(dirty := true) else old(availableImgs[j])
      {
        availableImgs := availableImgs[i := availableImgs[i].(dirty := true)];
      }
      assert availableImgs == Invalidate(old(availableImgs));
    }

    /** `CreateImages(available_imgs[slot])`. */
    method CreateImages(slot: nat)
      requires Valid() && slot < numImages
      modifies this
      ensures Valid() && numImages == old(numImages) && isUsingNis == old(isUsingNis)
      ensures Abs() == CreateImagesStep(old(Abs()), slot).state
      ensures trace == old(trace) + CreateImagesStep(old(Abs()), slot).events
    {
      var img := availableImgs[slot];
      availableImgs := availableImgs[slot := Img(img.id, false, Some(curSize))];
      trace := trace + [OutputImageCreated(slot, curSize)];
    }

    /** The part of `Render` that makes sure the coefficients exist and
        adopts the output size. */
    method PrepareOutput(outputSize: Extent)
      requires Valid()
      modifies this
      ensures Valid() && numImages == old(numImages) && isUsingNis == old(isUsingNis)
      ensures Abs() == PrepareStep(old(Abs()), outputSize).state
      ensures trace == old(trace) + PrepareStep(old(Abs()), outputSize).events
    {
      CreateCoefficientsTextures();
      UploadCoefficients();
      if outputSize != curSize {
        ResizeAndInvalidate(outputSize.width, outputSize.height);
      }
    }

    /** The part of `Render` that takes the slot under the cursor, advances
        the cursor and rebuilds the slot if it is dirty. */
    method AcquireImage() returns (slot: nat)
      requires Valid() && numImages > 0
      modifies this
      ensures Valid() && numImages == old(numImages) && isUsingNis == old(isUsingNis)
      ensures slot == old(curImage)
      ensures Abs() == AcquireStep(old(Abs())).state
      ensures trace == old(trace) + AcquireStep(old(Abs())).events
    {
      slot := curImage;
      curImage := curImage + 1;
      if curImage >= |availableImgs| {
        curImage := 0;
      }
      if availableImgs[slot].dirty {
        CreateImages(slot);
      }
    }

    /** `Render` past its two early returns. */
    method Upscale(input: ImageView, inputSize: Extent, outputSize: Extent, settings: Settings, hdr: bool)
      returns (view: ImageView)
      requires Valid() && numImages > 0
      modifies this
      ensures Valid() && numImages == old(numImages) && isUsingNis == old(isUsingNis)
      ensures var f := UpscaleStep(old(Abs()), settings, input, inputSize, outputSize, hdr);
        && Abs() == f.state && view == f.view && trace == old(trace) + f.events
    {
      PrepareOutput(outputSize);
      var width, height := curSize.width, curSize.height;
      var slot := AcquireImage();
      var dispatchX := (width + BlockWidth - 1) / BlockWidth;
      var dispatchY := (height + BlockHeight - 1) / BlockHeight;
      // NVScalerUpdateConfig's result is not looked at: the config is uploaded either way.
      trace := trace + [OutputToGeneral(slot),
                        ConfigUploaded(ConfigRequest(settings.sharpness, inputSize, outputSize, hdr)),
                        PipelineBound,
                        DescriptorsPushed(input, slot),
                        Dispatched(dispatchX, dispatchY, 1),
                        OutputToShaderRead(slot)];
      view := SlotView(slot);
    }

    /** `Render`. */
    method Render(input: ImageView, inputSize: Extent, outputSize: Extent, settings: Settings, hdr: bool)
      returns (view: ImageView)
      requires Valid()
      requires !PassesThrough(settings, inputSize, outputSize) ==> numImages > 0
      modifies this
      ensures Valid() && numImages == old(numImages)
      ensures var f := RenderStep(old(Abs()), settings, input, inputSize, outputSize, hdr);
        && Abs() == f.state && view == f.view && trace == old(trace) + f.events && isUsingNis == f.usingNis
    {
      if !settings.enable {
        isUsingNis := false;
        return input;
      }
      if inputSize.width >= outputSize.width && inputSize.height >= outputSize.height {
        isUsingNis := false;
        return input;
      }
      isUsingNis := true;
      view := Upscale(input, inputSize, outputSize, settings, hdr);
    }
  }
}

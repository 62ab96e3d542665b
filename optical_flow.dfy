// The optical-flow pass that produces motion vectors from two consecutive
// frames: a guard, a two-slot ring of motion-vector images rebuilt as a
// whole on every size change, and a wrap-around cursor. The FidelityFX
// optical-flow context and its dispatch are not part of this model; the
// pass never becomes available, since `Create` never creates one.

module OpticalFlow {
  import opened Common

  /** `OpticalFlowPass::Create` resizes the motion-vector ring to two slots. */
  const SlotCount: nat := 2

  /** `OpticalFlowPass::Settings`. */
  datatype Settings = Settings(enable: bool, highQuality: bool)

  /** The header's defaults: enabled, high quality. */
  const DefaultSettings := Settings(true, true)

  /** The pass's fields. `images[k]` is the extent of slot `k`'s image, or
      `None` while the slot still holds the empty image and null view it was
      default-constructed with. */
  datatype State = State(isAvailable: bool, currentSize: Extent, currentImage: nat,
                         images: seq<Option<Extent>>)

  /** Two slots, the cursor on one of them, and every slot either built at
      the recorded size or, before the first build, still empty while the
      recorded size is the initial 0x0. */
  predicate WellFormed(s: State)
  {
    && |s.images| == SlotCount
    && s.currentImage < SlotCount
    && forall k :: 0 <= k < SlotCount ==>
         s.images[k] == Some(s.currentSize) || (s.images[k] == None && s.currentSize == ZeroExtent)
  }

  /** The header's defaults followed by `Create`. */
  function Initial(): (s: State)
    ensures WellFormed(s)
  {
    State(false, ZeroExtent, 0, [None, None])
  }

  /** `CreateMotionVectorImages`: records the size and gives every slot a new
      image of that size. */
  function CreateImagesStep(s: State, size: Extent): (r: State)
    requires WellFormed(s)
    ensures WellFormed(r)
  {
    s.(currentSize := size, images := seq(|s.images|, _ => Some(size)))
  }

  /** The view of slot `slot`: null while the slot has no image. */
  function ViewOf(s: State, slot: nat): ImageView
    requires slot < |s.images|
  {
    if s.images[slot].Some? then SlotView(slot) else NullView
  }

  /** The guard of `GenerateMotionVectors`. */
  predicate PassesThrough(s: State, settings: Settings)
  {
    !settings.enable || !s.isAvailable
  }

  /** One call: the new state and the view handed back. */
  datatype Output = Output(state: State, view: ImageView)

  /** `OpticalFlowPass::GenerateMotionVectors`. */
  function GenerateStep(s: State, size: Extent, settings: Settings): (o: Output)
    requires WellFormed(s)
    ensures WellFormed(o.state)
  {
    if PassesThrough(s, settings) then Output(s, NullView)
    else
      var sized := if size != s.currentSize then CreateImagesStep(s, size) else s;
      var slot := sized.currentImage;
      Output(sized.(currentImage := Next(slot, |sized.images|)), ViewOf(sized, slot))
  }

  /** Disabled or unavailable: the null view, and nothing changes. */
  lemma GenerateStepPassesThrough(s: State, size: Extent, settings: Settings)
    requires WellFormed(s)
    ensures PassesThrough(s, settings) <==> !settings.enable || !s.isAvailable
    ensures PassesThrough(s, settings) ==> GenerateStep(s, size, settings) == Output(s, NullView)
  {
  }

  /** Past the guard: the size is recorded, a size change rebuilds every slot
      and no size change rebuilds none, the cursor advances mod 2, and the
      slot under the old cursor is handed back. Its view is null only when
      nothing was ever built and the requested size is the initial 0x0. */
  lemma GenerateStepAdvances(s: State, size: Extent, settings: Settings)
    requires WellFormed(s) && !PassesThrough(s, settings)
    ensures var o := GenerateStep(s, size, settings);
      && o.state.isAvailable == s.isAvailable
      && o.state.currentSize == size
      && o.state.currentImage == (s.currentImage + 1) % SlotCount
      && (size != s.currentSize ==> forall k :: 0 <= k < SlotCount ==> o.state.images[k] == Some(size))
      && (size == s.currentSize ==> o.state.images == s.images)
      && (o.view == NullView <==> size == ZeroExtent && s.images[s.currentImage] == None)
      && (o.view != NullView ==> o.view == SlotView(s.currentImage))
  {
  }

  /** Two calls in a row with the same non-zero size hand back the two
      different slots, and a third call comes back to the first. */
  lemma GenerateAlternates(s: State, size: Extent, settings: Settings)
    requires WellFormed(s) && !PassesThrough(s, settings) && size != ZeroExtent
    ensures var o1 := GenerateStep(s, size, settings);
      var o2 := GenerateStep(o1.state, size, settings);
      var o3 := GenerateStep(o2.state, size, settings);
      && o1.view.SlotView? && o2.view.SlotView? && o1.view != o2.view && o3.view == o1.view
  {
    var o1 := GenerateStep(s, size, settings);
    GenerateStepAdvances(s, size, settings);
    var o2 := GenerateStep(o1.state, size, settings);
    GenerateStepAdvances(o1.state, size, settings);
    GenerateStepAdvances(o2.state, size, settings);
  }

  /** A call to `GenerateMotionVectors`, without the two color inputs that
      only feed the dispatch. */
  datatype Call = Call(size: Extent, settings: Settings)

  datatype Run = Run(state: State, views: seq<ImageView>)

  function GenerateMany(s: State, calls: seq<Call>): (r: Run)
    requires WellFormed(s)
    ensures WellFormed(r.state) && |r.views| == |calls|
    decreases |calls|
  {
    if calls == [] then Run(s, [])
    else
      var o := GenerateStep(s, calls[0].size, calls[0].settings);
      var rest := GenerateMany(o.state, calls[1..]);
      Run(rest.state, [o.view] + rest.views)
  }

  /** `Create` leaves the pass unavailable, so every call hands back the null
      view and no state ever moves. */
  lemma {:induction false} CreatedPassNeverGenerates(s: State, calls: seq<Call>)
    requires WellFormed(s) && !s.isAvailable
    ensures GenerateMany(s, calls).state == s
    ensures forall k :: 0 <= k < |calls| ==> GenerateMany(s, calls).views[k] == NullView
    decreases |calls|
  {
    if calls != [] {
      CreatedPassNeverGenerates(s, calls[1..]);
    }
  }

  /** The pass as an object. */
  class OpticalFlowPass {
    var isAvailable: bool
    var contextCreated: bool
    var currentSize: Extent
    var currentImage: nat
    var motionVectorImages: seq<Option<Extent>>

    function Abs(): State
      reads this
    {
      State(isAvailable, currentSize, currentImage, motionVectorImages)
    }

    ghost predicate Valid()
      reads this
    {
      WellFormed(Abs())
    }

    /** `IsAvailable`. */
    function IsAvailable(): bool
      reads this
    {
      isAvailable
    }

    /** The header's defaults followed by `Create`. */
    constructor Create()
      ensures Valid() && Abs() == Initial() && !IsAvailable() && !contextCreated
    {
      isAvailable := false;
      contextCreated := false;
      currentSize := ZeroExtent;
      currentImage := 0;
      motionVectorImages := [None, None];
    }

    /** `CreateMotionVectorImages`: one new image per slot. */
    method CreateMotionVectorImages(size: Extent)
      requires Valid()
      modifies this
      ensures Valid() && Abs() == CreateImagesStep(old(Abs()), size)
      ensures contextCreated == old(contextCreated)
    {
      currentSize := size;
      for i := 0 to |motionVectorImages|
        invariant currentSize == size && |motionVectorImages| == SlotCount
        invariant isAvailable == old(isAvailable) && currentImage == old(currentImage)
        invariant contextCreated == old(contextCreated)
        invariant forall k :: 0 <= k < SlotCount ==>
          motionVectorImages[k] == if k < i then Some(size) else old(motionVectorImages[k])
      {
        motionVectorImages := motionVectorImages[i := Some(size)];
      }
    }

    /** `GenerateMotionVectors`; the two frames only feed the dispatch. */
    method GenerateMotionVectors(previousFrame: ImageView, currentFrame: ImageView, size: Extent,
                                 settings: Settings) returns (view: ImageView)
      requires Valid()
      modifies this
      ensures Valid() && contextCreated == old(contextCreated)
      ensures var o := GenerateStep(old(Abs()), size, settings);
        Abs() == o.state && view == o.view
    {
      if !settings.enable || !isAvailable {
        return NullView;
      }
      if size != currentSize {
        CreateMotionVectorImages(size);
      }
      var slot := currentImage;
      currentImage := (currentImage + 1) % |motionVectorImages|;
      view := if motionVectorImages[slot].Some? then SlotView(slot) else NullView;
    }
  }
}

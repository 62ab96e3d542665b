// The depth-estimation pass: a guard, a 32-bit frame counter that lets the
// pass estimate only every N-th frame and hand back the previous result in
// between, and a two-slot ring of depth images rebuilt as a whole on every
// size change. The inference session, the model loading and the fence are
// not part of this model; the pass never becomes available, since `Create`
// never loads a model.

module DepthEstimation {
  import opened Common

  /** `DepthEstimationPass::Create` resizes the depth ring to two slots. */
  const SlotCount: nat := 2

  /** `frame_counter` is a `u32`: its increment wraps at 2^32. */
  const CounterModulus: nat := 0x1_0000_0000

  /** `DepthEstimationPass::ModelSize`. */
  datatype ModelSize = Small | Base | Large

  /** `DepthEstimationPass::Settings`; `estimationRate` is a `u32`. */
  datatype Settings = Settings(enable: bool, modelSize: ModelSize, async: bool,
                               resolutionScale: real, estimationRate: nat)

  /** The header's defaults: enabled, base model, asynchronous, full
      resolution, an estimate every frame. */
  const DefaultSettings := Settings(true, Base, true, 1.0, 1)

  /** The pass's fields. `images[k]` is the extent of slot `k`'s image, or
      `None` while the slot still holds the empty image it was
      default-constructed with; the ring is empty until `Create`. */
  datatype State = State(isAvailable: bool, modelLoaded: bool, currentSize: Extent,
                         currentImage: nat, frameCounter: nat, images: seq<Option<Extent>>,
                         asyncPending: bool)

  /** Either the empty ring of a pass not yet created, which is unavailable,
      or two slots with the cursor on one of them, every slot built at the
      recorded size or still empty while the recorded size is 0x0; the
      counter is a `u32`. */
  predicate WellFormed(s: State)
  {
    && s.frameCounter < CounterModulus
    && (|s.images| == 0 ==> s.currentImage == 0 && !s.isAvailable && s.currentSize == ZeroExtent)
    && (|s.images| != 0 ==> |s.images| == SlotCount && s.currentImage < SlotCount)
    && forall k :: 0 <= k < |s.images| ==>
         s.images[k] == Some(s.currentSize) || (s.images[k] == None && s.currentSize == ZeroExtent)
  }

  /** The header's defaults. */
  function Default(): (s: State)
    ensures WellFormed(s)
  {
    State(false, false, ZeroExtent, 0, 0, [], false)
  }

  /** `DepthEstimationPass::Create`: unavailable, no model, and a ring of
      two slots; `resize(2)` keeps the slots of a ring that already has two.
      The counter, cursor and recorded size are left as they are. */
  function CreateStep(s: State): (r: State)
    requires WellFormed(s)
    ensures WellFormed(r)
  {
    s.(isAvailable := false, modelLoaded := false,
       images := if |s.images| == 0 then [None, None] else s.images)
  }

  /** `CreateDepthImages`: records the size and gives every slot a new image
      of that size. Its one caller reaches it only on a created ring. */
  function CreateImagesStep(s: State, size: Extent): (r: State)
    requires WellFormed(s) && |s.images| == SlotCount
    ensures WellFormed(r)
  {
    s.(currentSize := size, images := seq(|s.images|, _ => Some(size)))
  }

  /** The view of slot `slot`: null while the slot has no image. */
  function ViewOf(s: State, slot: nat): ImageView
    requires slot < |s.images|
  {
    if s.images[slot].Some? then SlotView(slot) else NullView
  }

  /** `GetCachedDepth`: the null view for an empty ring, otherwise the view
      of the slot just before the cursor, wrapping to the last slot. */
  function CachedDepth(s: State): ImageView
    requires WellFormed(s)
  {
    if |s.images| == 0 then NullView
    else ViewOf(s, Prev(s.currentImage, |s.images|))
  }

  /** `IsAsyncComplete`, with the fence status as a parameter. */
  function IsAsyncComplete(s: State, fenceSignalled: bool): bool
  {
    !s.asyncPending || fenceSignalled
  }

  /** The guard of `EstimateDepth`. */
  predicate PassesThrough(s: State, settings: Settings)
  {
    !settings.enable || !s.isAvailable
  }

  /** Whether a frame whose counter reads `counter` after the increment is
      skipped. */
  predicate Skips(counter: nat, rate: nat)
  {
    rate > 1 && counter % rate != 0
  }

  /** One call: the new state, the view handed back, and whether inference
      ran on this frame. */
  datatype Output = Output(state: State, view: ImageView, estimated: bool)

  /** `DepthEstimationPass::EstimateDepth`. */
  function EstimateStep(s: State, size: Extent, settings: Settings): (o: Output)
    requires WellFormed(s)
    ensures WellFormed(o.state)
  {
    if PassesThrough(s, settings) then Output(s, NullView, false)
    else
      var counted := s.(frameCounter := (s.frameCounter + 1) % CounterModulus);
      if Skips(counted.frameCounter, settings.estimationRate) then
        Output(counted, CachedDepth(counted), false)
      else
        ProduceStep(counted, size)
  }

  /** The estimating part of `EstimateDepth`: a size change rebuilds the
      ring, and the cursor selects a slot and advances. */
  function ProduceStep(s: State, size: Extent): (o: Output)
    requires WellFormed(s) && |s.images| == SlotCount
    ensures WellFormed(o.state)
  {
    var sized := if size != s.currentSize then CreateImagesStep(s, size) else s;
    var slot := sized.currentImage;
    Output(sized.(currentImage := Next(slot, |sized.images|)), ViewOf(sized, slot), true)
  }

  /** The cached view is null exactly for an empty ring or a slot never
      built, and otherwise is the slot the cursor left last. */
  lemma CachedDepthPredecessor(s: State)
    requires WellFormed(s)
    ensures |s.images| == 0 ==> CachedDepth(s) == NullView
    ensures |s.images| != 0 ==>
      var prev := (s.currentImage + SlotCount - 1) % SlotCount;
      && (CachedDepth(s) == NullView <==> s.images[prev] == None)
      && (CachedDepth(s) != NullView ==> CachedDepth(s) == SlotView(prev) && Next(prev, SlotCount) == s.currentImage)
  {
  }

  /** Disabled or unavailable: the null view, and nothing changes, not even
      the frame counter. */
  lemma EstimateStepPassesThrough(s: State, size: Extent, settings: Settings)
    requires WellFormed(s) && PassesThrough(s, settings)
    ensures EstimateStep(s, size, settings) == Output(s, NullView, false)
  {
  }

  /** Past the guard the counter advances by one, wrapping at 2^32. With a
      rate above one, a frame whose new count is not a multiple of the rate
      is skipped: it returns the cached view and changes nothing else. Any
      other frame is estimated: the size is recorded (a change rebuilds every
      slot), the slot under the old cursor is returned and the cursor
      advances mod 2. */
  lemma EstimateStepCounts(s: State, size: Extent, settings: Settings)
    requires WellFormed(s) && !PassesThrough(s, settings)
    ensures var o := EstimateStep(s, size, settings);
      var count := if s.frameCounter + 1 == CounterModulus then 0 else s.frameCounter + 1;
      && o.state.frameCounter == count
      && (o.estimated <==> settings.estimationRate <= 1 || count % settings.estimationRate == 0)
      && (!o.estimated ==> o.state == s.(frameCounter := count) && o.view == CachedDepth(s))
      && (o.estimated ==>
            && o.state.currentSize == size
            && o.state.currentImage == (s.currentImage + 1) % SlotCount
            && o.state.images == (if size != s.currentSize then [Some(size), Some(size)] else s.images)
            && o.view == ViewOf(o.state, s.currentImage))
  {
    var o := EstimateStep(s, size, settings);
    if o.estimated && size != s.currentSize {
      assert o.state.images == [Some(size), Some(size)];
    }
  }

  /** With the default rate of one every enabled, available frame is
      estimated. */
  lemma DefaultRateEstimatesEveryFrame(s: State, size: Extent)
    requires WellFormed(s) && s.isAvailable
    ensures EstimateStep(s, size, DefaultSettings).estimated
  {
  }

  /** After an estimated frame the cached depth is exactly the view it
      returned, and skipped frames keep it: between two estimates
      `GetCachedDepth` hands back the latest one. */
  lemma CachedDepthIsLatestEstimate(s: State, size: Extent, settings: Settings, next: Extent)
    requires WellFormed(s) && !PassesThrough(s, settings)
    requires EstimateStep(s, size, settings).estimated
    ensures var o := EstimateStep(s, size, settings);
      && CachedDepth(o.state) == o.view
      && (!EstimateStep(o.state, next, settings).estimated ==>
            EstimateStep(o.state, next, settings).view == o.view
            && CachedDepth(EstimateStep(o.state, next, settings).state) == o.view)
  {
    EstimateStepCounts(s, size, settings);
    var o := EstimateStep(s, size, settings);
    EstimateStepCounts(o.state, next, settings);
  }

  /** With a rate of `n > 1` and no wrap-around of the counter, frames are
      estimated exactly when their count is a multiple of `n`: of `n`
      consecutive counts starting just after a multiple, only the last one
      is estimated. */
  lemma SkipsBetweenMultiples(m: nat, n: nat, j: nat)
    requires n > 1 && 1 <= j <= n
    ensures Skips(m * n + j, n) <==> j < n
  {
    if j < n {
      assert (m * n + j) % n == j by { ModAfterMultiple(m, n, j); }
    } else {
      assert (m * n + j) % n == 0 by { ModAfterMultiple(m + 1, n, 0); }
    }
  }

  /** `(m * n + j) % n == j` for `j < n`: the quotient cannot be off by a
      whole multiple of `n`. */
  lemma ModAfterMultiple(m: nat, n: nat, j: nat)
    requires n > 0 && j < n
    ensures (m * n + j) % n == j
  {
    var x := m * n + j;
    var k := x / n - m;
    assert n * k == j - x % n;
    if k >= 1 {
      AtLeastOnce(n, k);
    } else if k <= -1 {
      AtLeastOnce(n, -k);
    }
  }

  lemma AtLeastOnce(n: nat, k: int)
    requires n > 0 && k >= 1
    ensures n * k >= n
  {
  }

  /** A call to `EstimateDepth`, without the color input that only feeds the
      inference. */
  datatype Call = Call(size: Extent, settings: Settings)

  datatype Run = Run(state: State, views: seq<ImageView>)

  function EstimateMany(s: State, calls: seq<Call>): (r: Run)
    requires WellFormed(s)
    ensures WellFormed(r.state) && |r.views| == |calls|
    decreases |calls|
  {
    if calls == [] then Run(s, [])
    else
      var o := EstimateStep(s, calls[0].size, calls[0].settings);
      var rest := EstimateMany(o.state, calls[1..]);
      Run(rest.state, [o.view] + rest.views)
  }

  /** `Create` leaves the pass unavailable, so every call hands back the null
      view and no state moves, the frame counter included. */
  lemma {:induction false} CreatedPassNeverEstimates(s: State, calls: seq<Call>)
    requires WellFormed(s) && !s.isAvailable
    ensures EstimateMany(s, calls).state == s
    ensures forall k :: 0 <= k < |calls| ==> EstimateMany(s, calls).views[k] == NullView
    decreases |calls|
  {
    if calls != [] {
      CreatedPassNeverEstimates(s, calls[1..]);
    }
  }

  /** The pass as an object. */
  class DepthEstimationPass {
    var isAvailable: bool
    var modelLoaded: bool
    var currentSize: Extent
    var currentImage: nat
    var frameCounter: nat
    var depthImages: seq<Option<Extent>>
    var asyncPending: bool

    function Abs(): State
      reads this
    {
      State(isAvailable, modelLoaded, currentSize, currentImage, frameCounter, depthImages, asyncPending)
    }

    ghost predicate Valid()
      reads this
    {
      WellFormed(Abs())
    }

    /** `IsAvailable`. */
    function IsAvailable(): bool
      reads this
    {
      isAvailable
    }

    /** The header's defaults. */
    constructor ()
      ensures Valid() && Abs() == Default()
    {
      isAvailable := false;
      modelLoaded := false;
      currentSize := ZeroExtent;
      currentImage := 0;
      frameCounter := 0;
      depthImages := [];
      asyncPending := false;
    }

    /** `Create`; the device handles and the fence are not modelled. */
    method Create(modelSize: ModelSize)
      requires Valid()
      modifies this
      ensures Valid() && Abs() == CreateStep(old(Abs()))
    {
      isAvailable := false;
      modelLoaded := false;
      if |depthImages| == 0 {
        depthImages := [None, None];
      }
    }

    /** `GetCachedDepth`. */
    method GetCachedDepth() returns (view: ImageView)
      requires Valid()
      ensures view == CachedDepth(Abs())
    {
      if |depthImages| == 0 {
        return NullView;
      }
      var prev := Prev(currentImage, |depthImages|);
      view := if depthImages[prev].Some? then SlotView(prev) else NullView;
    }

    /** `IsAsyncComplete`; the fence query is the parameter. */
    method AsyncComplete(fenceSignalled: bool) returns (complete: bool)
      requires Valid()
      ensures complete == IsAsyncComplete(Abs(), fenceSignalled)
      ensures !asyncPending ==> complete
    {
      if !asyncPending {
        return true;
      }
      return fenceSignalled;
    }

    /** `CreateDepthImages`: one new image per slot. */
    method CreateDepthImages(size: Extent)
      requires Valid() && |depthImages| == SlotCount
      modifies this
      ensures Valid() && Abs() == CreateImagesStep(old(Abs()), size)
    {
      currentSize := size;
      for i := 0 to |depthImages|
        invariant currentSize == size && |depthImages| == |old(depthImages)|
        invariant isAvailable == old(isAvailable) && modelLoaded == old(modelLoaded)
        invariant currentImage == old(currentImage) && frameCounter == old(frameCounter)
        invariant asyncPending == old(asyncPending)
        invariant forall k :: 0 <= k < |depthImages| ==>
          depthImages[k] == if k < i then Some(size) else old(depthImages[k])
      {
        depthImages := depthImages[i := Some(size)];
      }
    }

    /** `EstimateDepth`; the color input only feeds the inference. */
    method EstimateDepth(color: ImageView, size: Extent, settings: Settings) returns (view: ImageView)
      requires Valid()
      modifies this
      ensures Valid()
      ensures var o := EstimateStep(old(Abs()), size, settings);
        Abs() == o.state && view == o.view
    {
      if !settings.enable || !isAvailable {
        return NullView;
      }
      frameCounter := (frameCounter + 1) % CounterModulus;
      if settings.estimationRate > 1 && frameCounter % settings.estimationRate != 0 {
        view := GetCachedDepth();
        return;
      }
      view := Produce(size);
    }

    /** `EstimateDepth` past the skip check. */
    method Produce(size: Extent) returns (view: ImageView)
      requires Valid() && |depthImages| == SlotCount
      modifies this
      ensures Valid()
      ensures var o := ProduceStep(old(Abs()), size);
        Abs() == o.state && view == o.view
    {
      if size != currentSize {
        CreateDepthImages(size);
      }
      var slot := currentImage;
      currentImage := (currentImage + 1) % |depthImages|;
      view := if depthImages[slot].Some? then SlotView(slot) else NullView;
    }
  }
}

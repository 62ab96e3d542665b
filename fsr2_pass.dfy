// The FSR 2 temporal upscaling pass: the Halton jitter used for temporal
// accumulation, the quality-mode render resolutions, and the double-buffered
// output ring. The FidelityFX context and its dispatch are not part of this
// model; the pass never becomes available, since `Create` never creates one.

module Fsr2 {
  import opened Common

  /** `Fsr2Pass::kJitterPhaseCount`. */
  const JitterPhaseCount: nat := 32

  /** `Fsr2Pass::Create` resizes the output ring to two slots. */
  const SlotCount: nat := 2

  // ---------------------------------------------------------------------
  // Jitter

  /** The base `GetJitterOffset` picks from its `dimension` argument. */
  function Base(dimension: nat): (b: nat)
    ensures b == 2 <==> dimension == 0
    ensures b == 3 <==> dimension != 0
  {
    if dimension == 0 then 2 else 3
  }

  /** The weight `f * d` a digit `d` adds at place value `f`. */
  function Place(f: real, d: nat): real
  {
    f * d as real
  }

  /** The value the digit loop of `GetJitterOffset` reaches from partial sum
      `result`, place value `f` and remaining index `i`: each step divides
      the place value by the base and adds the lowest base-`b` digit of `i`
      at that place. Only the two bases the source uses are admitted. */
  function Accumulated(result: real, f: real, i: nat, b: nat): real
    requires b == 2 || b == 3
    decreases i
  {
    if i == 0 then result
    else if b == 2 then Accumulated(result + Place(f / 2.0, i % 2), f / 2.0, i / 2, 2)
    else Accumulated(result + Place(f / 3.0, i % 3), f / 3.0, i / 3, 3)
  }

  /** The van der Corput radical inverse of `i` in base `b`: the base-`b`
      digits of `i` mirrored behind the radix point. */
  function RadicalInverse(i: nat, b: nat): real
    requires b == 2 || b == 3
  {
    Accumulated(0.0, 1.0, i, b)
  }

  /** What `GetJitterOffset(index, phase_count, dimension)` computes. */
  function JitterOffset(index: nat, phaseCount: nat, dimension: nat): real
    requires phaseCount > 0
  {
    RadicalInverse(index % phaseCount, Base(dimension)) - 0.5
  }

  /** A digit below the base adds less than a whole place of the next
      coarser position, and nothing exactly when it is zero. */
  lemma PlaceRange(f: real, d: nat, b: nat)
    requires f > 0.0 && (b == 2 || b == 3) && d < b
    ensures 0.0 <= Place(f, d) && Place(f, d) + f <= f * b as real
    ensures Place(f, d) == 0.0 <==> d == 0
  {
    if b == 2 {
      if d == 1 { }
    } else {
      if d == 1 { } else if d == 2 { }
    }
  }

  /** From any partial sum the remaining digits add less than the current
      place value, and add nothing exactly when no digit is left. */
  lemma {:induction false} AccumulatedRange(result: real, f: real, i: nat, b: nat)
    requires (b == 2 || b == 3) && f > 0.0
    ensures result <= Accumulated(result, f, i, b) < result + f
    ensures Accumulated(result, f, i, b) == result <==> i == 0
    decreases i
  {
    if i > 0 {
      if b == 2 {
        PlaceRange(f / 2.0, i % 2, 2);
        AccumulatedRange(result + Place(f / 2.0, i % 2), f / 2.0, i / 2, 2);
      } else {
        PlaceRange(f / 3.0, i % 3, 3);
        AccumulatedRange(result + Place(f / 3.0, i % 3), f / 3.0, i / 3, 3);
      }
    }
  }

  /** The weight of each digit the two bases can produce. */
  lemma PlaceValue(f: real, d: nat)
    requires d < 3
    ensures Place(f, d) == if d == 0 then 0.0 else if d == 1 then f else 2.0 * f
  {
  }

  /** Two partial sums that start a place apart by different digits stay
      in disjoint intervals, so equal results mean equal digits. */
  lemma SameDigit(result: real, f: real, di: nat, dj: nat, vi: real, vj: real)
    requires f > 0.0 && di < 3 && dj < 3
    requires result + Place(f, di) <= vi < result + Place(f, di) + f
    requires result + Place(f, dj) <= vj < result + Place(f, dj) + f
    requires vi == vj
    ensures di == dj
  {
    PlaceValue(f, di);
    PlaceValue(f, dj);
  }

  /** Different indices reach different values from the same partial sum. */
  lemma {:induction false} AccumulatedInjective(result: real, f: real, i: nat, j: nat, b: nat)
    requires (b == 2 || b == 3) && f > 0.0
    requires Accumulated(result, f, i, b) == Accumulated(result, f, j, b)
    ensures i == j
    decreases i + j
  {
    AccumulatedRange(result, f, i, b);
    AccumulatedRange(result, f, j, b);
    if i != 0 && j != 0 {
      if b == 2 {
        AccumulatedRange(result + Place(f / 2.0, i % 2), f / 2.0, i / 2, 2);
        AccumulatedRange(result + Place(f / 2.0, j % 2), f / 2.0, j / 2, 2);
        SameDigit(result, f / 2.0, i % 2, j % 2,
                  Accumulated(result + Place(f / 2.0, i % 2), f / 2.0, i / 2, 2),
                  Accumulated(result + Place(f / 2.0, j % 2), f / 2.0, j / 2, 2));
        AccumulatedInjective(result + Place(f / 2.0, i % 2), f / 2.0, i / 2, j / 2, 2);
      } else {
        AccumulatedRange(result + Place(f / 3.0, i % 3), f / 3.0, i / 3, 3);
        AccumulatedRange(result + Place(f / 3.0, j % 3), f / 3.0, j / 3, 3);
        SameDigit(result, f / 3.0, i % 3, j % 3,
                  Accumulated(result + Place(f / 3.0, i % 3), f / 3.0, i / 3, 3),
                  Accumulated(result + Place(f / 3.0, j % 3), f / 3.0, j / 3, 3));
        AccumulatedInjective(result + Place(f / 3.0, i % 3), f / 3.0, i / 3, j / 3, 3);
      }
    }
  }

  /** Different indices have different radical inverses. */
  lemma RadicalInverseInjective(i: nat, j: nat, b: nat)
    requires (b == 2 || b == 3) && RadicalInverse(i, b) == RadicalInverse(j, b)
    ensures i == j
  {
    AccumulatedInjective(0.0, 1.0, i, j, b);
  }

  /** `GetJitterOffset`: peels the base-`b` digits off `index % phase_count`,
      least significant first, each weighted by the next power of `1/b`. */
  method GetJitterOffset(index: nat, phaseCount: nat, dimension: nat) returns (r: real)
    requires phaseCount > 0
    ensures r == JitterOffset(index, phaseCount, dimension)
  {
    var result := 0.0;
    var f := 1.0;
    var i: nat := index % phaseCount;
    var base: nat := if dimension == 0 then 2 else 3;
    while i > 0
      invariant base == Base(dimension)
      invariant Accumulated(result, f, i, base) == RadicalInverse(index % phaseCount, base)
      decreases i
    {
      f := f / base as real;
      result := result + Place(f, i % base);
      i := i / base;
    }
    return result - 0.5;
  }

  /** Every offset lies in [-1/2, 1/2), and it is -1/2 exactly at the first
      phase of each cycle. */
  lemma JitterOffsetRange(index: nat, phaseCount: nat, dimension: nat)
    requires phaseCount > 0
    ensures -0.5 <= JitterOffset(index, phaseCount, dimension) < 0.5
    ensures JitterOffset(index, phaseCount, dimension) == -0.5 <==> index % phaseCount == 0
  {
    AccumulatedRange(0.0, 1.0, index % phaseCount, Base(dimension));
  }

  /** Two indices get the same offset exactly when they fall on the same
      phase: the sequence repeats every `phaseCount` indices and no offset
      repeats within one cycle. */
  lemma JitterOffsetInjective(i: nat, j: nat, phaseCount: nat, dimension: nat)
    requires phaseCount > 0
    ensures JitterOffset(i, phaseCount, dimension) == JitterOffset(j, phaseCount, dimension)
        <==> i % phaseCount == j % phaseCount
  {
    if JitterOffset(i, phaseCount, dimension) == JitterOffset(j, phaseCount, dimension) {
      RadicalInverseInjective(i % phaseCount, j % phaseCount, Base(dimension));
    }
  }

  /** The first phases of the 32-phase sequence: base 2 visits 0, 1/2, 1/4,
      3/4, base 3 visits 0, 1/3, 2/3, 1/9, and index 33 repeats index 1. */
  lemma FirstJitterOffsets()
    ensures JitterOffset(0, 32, 0) == -0.5 && JitterOffset(1, 32, 0) == 0.0
    ensures JitterOffset(2, 32, 0) == -0.25 && JitterOffset(3, 32, 0) == 0.25
    ensures JitterOffset(1, 32, 1) == 1.0 / 3.0 - 0.5 && JitterOffset(2, 32, 1) == 2.0 / 3.0 - 0.5
    ensures JitterOffset(3, 32, 1) == 1.0 / 9.0 - 0.5 && JitterOffset(33, 32, 0) == 0.0
  {
  }

  // ---------------------------------------------------------------------
  // Quality modes

  /** `Fsr2QualityMode`. */
  datatype QualityMode = UltraPerformance | Performance | Balanced | Quality | NativeAA

  /** The divisor of each mode as the decimal its `float` literal spells.
      For a `u32` extent the single-precision `d / 1.7f` truncates to the
      same value as the exact `d / 1.7` for every `d` below 3,565,160, and
      the other modes agree further still. */
  function Scale(mode: QualityMode): (r: Ratio)
    ensures r.num >= r.den > 0
  {
    match mode
    case UltraPerformance => Ratio(3, 1)
    case Performance => Ratio(2, 1)
    case Balanced => Ratio(17, 10)
    case Quality => Ratio(3, 2)
    case NativeAA => Ratio(1, 1)
  }

  /** `Fsr2Pass::GetRenderResolution`. */
  function GetRenderResolution(display: Extent, mode: QualityMode): (r: Extent)
    ensures r.width <= display.width && r.height <= display.height
  {
    Extent(Truncate(display.width, Scale(mode)), Truncate(display.height, Scale(mode)))
  }

  /** The divisors are the scale factors documented for the modes. */
  lemma ScaleMatchesDocumentation(mode: QualityMode)
    ensures var s := Scale(mode);
      var f := s.num as real / s.den as real;
      && (mode == UltraPerformance ==> f == 3.0)
      && (mode == Performance ==> f == 2.0)
      && (mode == Balanced ==> f == 1.7)
      && (mode == Quality ==> f == 1.5)
      && (mode == NativeAA ==> f == 1.0)
  {
  }

  /** Each mode renders at the floor of `d / scale` on each axis. */
  lemma RenderResolutionExact(display: Extent)
    ensures GetRenderResolution(display, NativeAA) == display
    ensures GetRenderResolution(display, Performance) == Extent(display.width / 2, display.height / 2)
    ensures GetRenderResolution(display, UltraPerformance) == Extent(display.width / 3, display.height / 3)
    ensures GetRenderResolution(display, Quality) == Extent(2 * display.width / 3, 2 * display.height / 3)
    ensures GetRenderResolution(display, Balanced) == Extent(10 * display.width / 17, 10 * display.height / 17)
  {
  }

  /** Every mode but NativeAA renders strictly below a non-zero display
      extent, and NativeAA renders at the display size. */
  lemma UpscalingModesShrink(display: Extent, mode: QualityMode)
    ensures var r := GetRenderResolution(display, mode);
      && (mode == NativeAA ==> r == display)
      && (mode != NativeAA && display.width > 0 ==> r.width < display.width)
      && (mode != NativeAA && display.height > 0 ==> r.height < display.height)
  {
    if mode != NativeAA {
      TruncateShrinks(display.width, Scale(mode));
      TruncateShrinks(display.height, Scale(mode));
    }
  }

  // ---------------------------------------------------------------------
  // The pass

  /** `Fsr2Pass::Settings`. Sharpness and the HDR flag only feed the
      FidelityFX dispatch. */
  datatype Settings = Settings(enable: bool, qualityMode: QualityMode, sharpness: real, hdr: bool)

  const DefaultSettings := Settings(false, Balanced, 0.5, false)

  /** `Fsr2Pass::OutputImage`: its id, its dirty flag and the extent of the
      image built for it, if any. */
  datatype OutputImage = OutputImage(id: nat, dirty: bool, image: Option<Extent>)

  /** The fields of `Fsr2Pass` that `Render` reads or writes. */
  datatype State = State(isAvailable: bool, outputSize: Extent, currentOutput: nat,
                         outputImages: seq<OutputImage>, jitterIndex: nat)

  /** The two slots are numbered in order, the cursor and the jitter index
      are in range, and a clean slot holds an image of the current size. */
  ghost predicate WellFormed(s: State)
  {
    && |s.outputImages| == SlotCount
    && s.currentOutput < SlotCount
    && s.jitterIndex < JitterPhaseCount
    && (forall i :: 0 <= i < SlotCount ==> s.outputImages[i].id == i)
    && (forall i :: 0 <= i < SlotCount && !s.outputImages[i].dirty ==> s.outputImages[i].image == Some(s.outputSize))
  }

  /** The header's defaults followed by `Create`: unavailable, both slots
      dirty, size 0x0, cursor and jitter index 0. */
  function Initial(): State
  {
    State(false, ZeroExtent, 0, [OutputImage(0, true, None), OutputImage(1, true, None)], 0)
  }

  /** `ResizeOutput`: records the size and marks every slot dirty. */
  function ResizeStep(s: State, size: Extent): (r: State)
    requires WellFormed(s)
    ensures WellFormed(r)
  {
    s.(outputSize := size,
       outputImages := seq(|s.outputImages|, i requires 0 <= i < |s.outputImages| => s.outputImages[i].(dirty := true)))
  }

  /** `CreateOutputImages(output_images[slot], size)`. */
  function CreateOutputImagesStep(s: State, slot: nat): (r: State)
    requires WellFormed(s) && slot < SlotCount
    ensures WellFormed(r)
  {
    s.(outputImages := s.outputImages[slot := OutputImage(slot, false, Some(s.outputSize))])
  }

  /** The pair of jitter offsets a frame computes. */
  datatype Jitter = Jitter(x: real, y: real)

  /** One `Render`: new state, returned view, the jitter it computed (none on
      pass-through) and the slots whose image it rebuilt. */
  datatype Frame = Frame(state: State, view: ImageView, jitter: Option<Jitter>, created: seq<nat>)

  /** The `Render` guard. */
  predicate PassesThrough(s: State, settings: Settings)
  {
    !settings.enable || !s.isAvailable
  }

  /** The output slot a frame renders into, after the size check. */
  datatype Acquired = Acquired(state: State, slot: nat, created: seq<nat>)

  /** The part of `Fsr2Pass::Render` that picks the output slot: a size
      change marks every slot dirty, the cursor selects and advances, and a
      dirty selected slot gets a new image. */
  function AcquireStep(s: State, outputSize: Extent): (a: Acquired)
    requires WellFormed(s)
    ensures WellFormed(a.state) && a.slot == s.currentOutput
    ensures a.state.jitterIndex == s.jitterIndex && a.state.isAvailable == s.isAvailable
  {
    var sized := if outputSize != s.outputSize then ResizeStep(s, outputSize) else s;
    var slot := sized.currentOutput;
    var advanced := sized.(currentOutput := (slot + 1) % |sized.outputImages|);
    var dirty := advanced.outputImages[slot].dirty;
    Acquired(if dirty then CreateOutputImagesStep(advanced, slot) else advanced, slot, if dirty then [slot] else [])
  }

  /** `Fsr2Pass::Render` past its guard. */
  function UpscaleStep(s: State, color: ImageView, inputSize: Extent, outputSize: Extent): (f: Frame)
    requires WellFormed(s)
    ensures WellFormed(f.state)
  {
    var a := AcquireStep(s, outputSize);
    var jitter := Jitter(JitterOffset(s.jitterIndex, JitterPhaseCount, inputSize.width),
                         JitterOffset(s.jitterIndex + 1, JitterPhaseCount, inputSize.height));
    Frame(a.state.(jitterIndex := (s.jitterIndex + 1) % JitterPhaseCount), SlotView(a.slot), Some(jitter), a.created)
  }

  /** `Fsr2Pass::Render`. */
  function RenderStep(s: State, color: ImageView, inputSize: Extent, outputSize: Extent,
                      settings: Settings): (f: Frame)
    requires WellFormed(s)
    ensures WellFormed(f.state)
  {
    if PassesThrough(s, settings) then Frame(s, color, None, [])
    else UpscaleStep(s, color, inputSize, outputSize)
  }

  /** On the upscaling path the slot under the cursor is returned, the cursor
      and the jitter index advance, and the output size is recorded. */
  lemma RenderStepAdvances(s: State, color: ImageView, inputSize: Extent, outputSize: Extent,
                           settings: Settings)
    requires WellFormed(s) && !PassesThrough(s, settings)
    ensures var f := RenderStep(s, color, inputSize, outputSize, settings);
      && f.view == SlotView(s.currentOutput)
      && f.state.currentOutput == (s.currentOutput + 1) % SlotCount
      && f.state.jitterIndex == (s.jitterIndex + 1) % JitterPhaseCount
      && f.state.outputSize == outputSize
      && f.state.isAvailable == s.isAvailable
  {
  }

  /** Only the selected slot can be rebuilt; it is rebuilt exactly when it
      is dirty after the size check, and then holds an image of the output
      size. Every other slot is dirty afterwards iff it was dirty before or
      the size changed. */
  lemma RenderStepRebuilds(s: State, color: ImageView, inputSize: Extent, outputSize: Extent,
                           settings: Settings)
    requires WellFormed(s) && !PassesThrough(s, settings)
    ensures var f := RenderStep(s, color, inputSize, outputSize, settings);
      var slot := s.currentOutput;
      var resized := outputSize != s.outputSize;
      && (f.created == [slot] <==> resized || s.outputImages[slot].dirty)
      && (f.created == [] <==> !resized && !s.outputImages[slot].dirty)
      && f.state.outputImages[slot] == OutputImage(slot, false, Some(outputSize))
      && (forall i :: 0 <= i < SlotCount && i != slot ==>
            f.state.outputImages[i].dirty == (resized || s.outputImages[i].dirty))
  {
  }

  /** The offsets of a frame are those of `GetJitterOffset` at the jitter
      index and the one after it; with non-zero extents both axes use base 3,
      so a frame's vertical offset is the next frame's horizontal offset. */
  lemma RenderStepJitter(s: State, color: ImageView, inputSize: Extent, outputSize: Extent,
                         settings: Settings)
    requires WellFormed(s) && !PassesThrough(s, settings)
    requires inputSize.width > 0 && inputSize.height > 0
    ensures var f := RenderStep(s, color, inputSize, outputSize, settings);
      var g := RenderStep(f.state, color, inputSize, outputSize, settings);
      && f.jitter == Some(Jitter(RadicalInverse(s.jitterIndex, 3) - 0.5,
                                 RadicalInverse((s.jitterIndex + 1) % JitterPhaseCount, 3) - 0.5))
      && g.jitter.Some? && f.jitter.value.y == g.jitter.value.x
  {
    var f := RenderStep(s, color, inputSize, outputSize, settings);
    assert f.state.jitterIndex == (s.jitterIndex + 1) % JitterPhaseCount;
    assert f.state.jitterIndex % JitterPhaseCount == (s.jitterIndex + 1) % JitterPhaseCount;
  }

  /** A call to `Render`, without the inputs that only feed the dispatch. */
  datatype Call = Call(color: ImageView, inputSize: Extent, outputSize: Extent, settings: Settings)

  datatype Run = Run(state: State, views: seq<ImageView>)

  function RenderMany(s: State, calls: seq<Call>): (r: Run)
    requires WellFormed(s)
    ensures WellFormed(r.state) && |r.views| == |calls|
    decreases |calls|
  {
    if calls == [] then Run(s, [])
    else
      var c := calls[0];
      var f := RenderStep(s, c.color, c.inputSize, c.outputSize, c.settings);
      var rest := RenderMany(f.state, calls[1..]);
      Run(rest.state, [f.view] + rest.views)
  }

  /** `Create` leaves the pass unavailable, so however many frames follow,
      every one hands back its own color input and the state never moves. */
  lemma {:induction false} CreatedPassNeverUpscales(s: State, calls: seq<Call>)
    requires WellFormed(s) && !s.isAvailable
    ensures RenderMany(s, calls).state == s
    ensures forall k :: 0 <= k < |calls| ==> RenderMany(s, calls).views[k] == calls[k].color
    decreases |calls|
  {
    if calls != [] {
      CreatedPassNeverUpscales(s, calls[1..]);
    }
  }

  /** After a size change the two following same-size frames rebuild the two
      slots once each, in cursor order, and a third rebuilds nothing. */
  lemma ResizeRebuildsBothSlotsOnce(s: State, color: ImageView, inputSize: Extent, outputSize: Extent,
                                    settings: Settings)
    requires WellFormed(s) && !PassesThrough(s, settings) && outputSize != s.outputSize
    ensures var f1 := RenderStep(s, color, inputSize, outputSize, settings);
      var f2 := RenderStep(f1.state, color, inputSize, outputSize, settings);
      var f3 := RenderStep(f2.state, color, inputSize, outputSize, settings);
      && f1.created == [s.currentOutput]
      && f2.created == [(s.currentOutput + 1) % SlotCount]
      && f3.created == []
  {
    var f1 := RenderStep(s, color, inputSize, outputSize, settings);
    RenderStepRebuilds(s, color, inputSize, outputSize, settings);
    RenderStepAdvances(s, color, inputSize, outputSize, settings);
    var f2 := RenderStep(f1.state, color, inputSize, outputSize, settings);
    RenderStepRebuilds(f1.state, color, inputSize, outputSize, settings);
    RenderStepAdvances(f1.state, color, inputSize, outputSize, settings);
    RenderStepRebuilds(f2.state, color, inputSize, outputSize, settings);
  }

  /** The pass as an object. `jitter` is handed back to the caller so the
      offsets `Render` computes for the dispatch can be stated. */
  class Fsr2Pass {
    var isAvailable: bool
    var contextCreated: bool
    var outputSize: Extent
    var currentOutput: nat
    var outputImages: seq<OutputImage>
    var jitterIndex: nat
    ghost var created: seq<nat>

    function Abs(): State
      reads this
    {
      State(isAvailable, outputSize, currentOutput, outputImages, jitterIndex)
    }

    ghost predicate Valid()
      reads this
    {
      WellFormed(Abs())
    }

    /** `IsAvailable`. */
    function IsAvailable(): bool
      reads this
    {
      isAvailable
    }

    /** The header's defaults followed by `Create`. */
    constructor Create()
      ensures Valid() && Abs() == Initial() && !IsAvailable() && !contextCreated && created == []
    {
      isAvailable := false;
      contextCreated := false;
      outputSize := ZeroExtent;
      currentOutput := 0;
      jitterIndex := 0;
      created := [];
      var imgs := seq(SlotCount, _ => OutputImage(0, true, None));
      for i := 0 to SlotCount
        invariant |imgs| == SlotCount
        invariant forall j :: 0 <= j < SlotCount ==> imgs[j] == OutputImage(if j < i then j else 0, true, None)
      {
        imgs := imgs[i := imgs[i].(id := i)];
      }
      assert imgs == Initial().outputImages;
      outputImages := imgs;
    }

    method ResizeOutput(size: Extent)
      requires Valid()
      modifies this
      ensures Valid() && Abs() == ResizeStep(old(Abs()), size)
      ensures created == old(created) && contextCreated == old(contextCreated)
    {
      outputSize := size;
      for i := 0 to |outputImages|
        invariant outputSize == size && |outputImages| == SlotCount
        invariant isAvailable == old(isAvailable) && currentOutput == old(currentOutput)
        invariant jitterIndex == old(jitterIndex) && created == old(created) && contextCreated == old(contextCreated)
        invariant forall j :: 0 <= j < SlotCount ==>
          outputImages[j] == if j < i then old(outputImages[j]).(dirty := true) else old(outputImages[j])
      {
        outputImages := outputImages[i := outputImages[i].(dirty := true)];
      }
    }

    method CreateOutputImages(slot: nat)
      requires Valid() && slot < SlotCount
      modifies this
      ensures Valid() && Abs() == CreateOutputImagesStep(old(Abs()), slot)
      ensures created == old(created) + [slot] && contextCreated == old(contextCreated)
    {
      outputImages := outputImages[slot := OutputImage(outputImages[slot].id, false, Some(outputSize))];
      created := created + [slot];
    }

    /** The slot selection of `Render`. */
    method AcquireOutput(outputSize: Extent) returns (slot: nat)
      requires Valid()
      modifies this
      ensures Valid() && contextCreated == old(contextCreated)
      ensures var a := AcquireStep(old(Abs()), outputSize);
        && Abs() == a.state && slot == a.slot && created == old(created) + a.created
    {
      if outputSize != this.outputSize {
        ResizeOutput(outputSize);
      }
      slot := currentOutput;
      currentOutput := (currentOutput + 1) % |outputImages|;
      if outputImages[slot].dirty {
        CreateOutputImages(slot);
      }
    }

    /** `Render` past its guard. */
    method Upscale(color: ImageView, inputSize: Extent, outputSize: Extent)
      returns (view: ImageView, jitter: Option<Jitter>)
      requires Valid()
      modifies this
      ensures Valid() && contextCreated == old(contextCreated)
      ensures var f := UpscaleStep(old(Abs()), color, inputSize, outputSize);
        && Abs() == f.state && view == f.view && jitter == f.jitter && created == old(created) + f.created
    {
      var slot := AcquireOutput(outputSize);
      var jitterX := GetJitterOffset(jitterIndex, JitterPhaseCount, inputSize.width);
      var jitterY := GetJitterOffset(jitterIndex + 1, JitterPhaseCount, inputSize.height);
      jitterIndex := (jitterIndex + 1) % JitterPhaseCount;
      return SlotView(slot), Some(Jitter(jitterX, jitterY));
    }

    method Render(color: ImageView, inputSize: Extent, outputSize: Extent, settings: Settings)
      returns (view: ImageView, jitter: Option<Jitter>)
      requires Valid()
      modifies this
      ensures Valid() && contextCreated == old(contextCreated)
      ensures var f := RenderStep(old(Abs()), color, inputSize, outputSize, settings);
        && Abs() == f.state && view == f.view && jitter == f.jitter && created == old(created) + f.created
    {
      if !settings.enable || !isAvailable {
        return color, None;
      }
      view, jitter := Upscale(color, inputSize, outputSize);
    }
  }
}

// NVIDIA Image Scaling SDK configuration (NIS_Config.h): the constant block
// uploaded to the scaler shader and the functions that fill it from a
// sharpness slider, an HDR mode and the input/output viewports.
//
// Every `float` is an exact `real` and every `uint32_t` a `nat`; the float
// rounding of the decimal constants is not part of this model.

module NisConfig {

  /** `NISHDRMode`. */
  datatype HdrMode = None | Linear | PQ

  /** `NISConfig`, field for field (the 256-byte alignment is a layout detail). */
  datatype Config = Config(
    kDetectRatio: real, kDetectThres: real, kMinContrastRatio: real, kRatioNorm: real,
    kContrastBoost: real, kEps: real, kSharpStartY: real, kSharpScaleY: real,
    kSharpStrengthMin: real, kSharpStrengthScale: real, kSharpLimitMin: real, kSharpLimitScale: real,
    kScaleX: real, kScaleY: real, kDstNormX: real, kDstNormY: real,
    kSrcNormX: real, kSrcNormY: real,
    kInputViewportOriginX: nat, kInputViewportOriginY: nat,
    kInputViewportWidth: nat, kInputViewportHeight: nat,
    kOutputViewportOriginX: nat, kOutputViewportOriginY: nat,
    kOutputViewportWidth: nat, kOutputViewportHeight: nat,
    reserved0: real, reserved1: real)

  /** A value-initialised `NISConfig config{}`. */
  function ZeroConfig(): Config
  {
    Config(0.0, 0.0, 0.0, 0.0, 0.0, 0.0, 0.0, 0.0, 0.0, 0.0, 0.0, 0.0,
           0.0, 0.0, 0.0, 0.0, 0.0, 0.0, 0, 0, 0, 0, 0, 0, 0, 0, 0.0, 0.0)
  }

  /** The sharpening constants derived from the slider before any field of
      the config is written (the locals of `NVScalerUpdateConfig`). */
  datatype SharpenParams = SharpenParams(
    detectRatio: real, detectThres: real,
    minContrastRatio: real, maxContrastRatio: real,
    sharpStartY: real, sharpEndY: real,
    strengthMin: real, strengthMax: real,
    limitMin: real, limitMax: real)

  function Max(a: real, b: real): real { if a >= b then a else b }
  function Min(a: real, b: real): real { if a <= b then a else b }

  /** `std::max(std::min(1, sharpness), 0)`. */
  function ClampSharpness(sharpness: real): (s: real)
    ensures 0.0 <= s <= 1.0
    ensures 0.0 <= sharpness <= 1.0 ==> s == sharpness
    ensures sharpness < 0.0 ==> s == 0.0
    ensures sharpness > 1.0 ==> s == 1.0
  {
    Max(Min(1.0, sharpness), 0.0)
  }

  /** The centred slider value `sharpness - 0.5`. */
  function Slider(sharpness: real): (s: real)
    ensures -0.5 <= s <= 0.5
  {
    ClampSharpness(sharpness) - 0.5
  }

  /** MaxScale, MinScale and LimitScale: the positive half of the slider is
      compressed to 1.25, the negative half uses 1.75 / 1.0 / 1.0. */
  function MaxScale(slider: real): real { if slider >= 0.0 then 1.25 else 1.75 }
  function MinScale(slider: real): real { if slider >= 0.0 then 1.25 else 1.0 }
  function LimitScale(slider: real): real { if slider >= 0.0 then 1.25 else 1.0 }

  function DeriveParams(sharpness: real, hdrMode: HdrMode): SharpenParams
  {
    var s := Slider(sharpness);
    if hdrMode == None then
      SharpenParams(
        2.0 * 1127.0 / 1024.0, 64.0 / 1024.0, 2.0, 10.0, 0.45, 0.9,
        Max(0.0, 0.4 + s * MinScale(s) * 1.2),
        1.6 + s * MaxScale(s) * 1.8,
        Max(0.1, 0.14 + s * LimitScale(s) * 0.32),
        0.5 + s * LimitScale(s) * 0.6)
    else
      SharpenParams(
        2.0 * 1127.0 / 1024.0, 32.0 / 1024.0, 1.5, 5.0,
        if hdrMode == PQ then 0.35 else 0.3,
        if hdrMode == PQ then 0.55 else 0.5,
        Max(0.0, 0.4 + s * MinScale(s) * 1.1),
        2.2 + s * MaxScale(s) * 1.8,
        Max(0.06, 0.10 + s * LimitScale(s) * 0.28),
        0.6 + s * LimitScale(s) * 0.6)
  }

  /** Lower bound of kSharpLimitMin in each mode. */
  function LimitFloor(hdrMode: HdrMode): real { if hdrMode == None then 0.1 else 0.06 }

  /** For every slider position and mode: strength and limit minima respect
      their floors, the scales max - min are non-negative, and the two
      reciprocals are positive. */
  lemma DeriveParamsBounds(sharpness: real, hdrMode: HdrMode)
    ensures var p := DeriveParams(sharpness, hdrMode);
      && p.strengthMin >= 0.0
      && p.limitMin >= LimitFloor(hdrMode)
      && p.strengthMax - p.strengthMin >= 0.0
      && p.limitMax - p.limitMin >= 0.0
      && p.maxContrastRatio - p.minContrastRatio > 0.0
      && p.sharpEndY - p.sharpStartY > 0.0
  {
    var s := Slider(sharpness);
    if s >= 0.0 {
      assert MinScale(s) == 1.25 && MaxScale(s) == 1.25 && LimitScale(s) == 1.25;
    } else {
      assert MinScale(s) == 1.0 && MaxScale(s) == 1.75 && LimitScale(s) == 1.0;
    }
  }

  /** The mode-dependent constant bundle. */
  lemma DeriveParamsModeConstants(sharpness: real, hdrMode: HdrMode)
    ensures var p := DeriveParams(sharpness, hdrMode);
      && p.detectRatio == 2254.0 / 1024.0
      && (hdrMode == None ==>
            p.detectThres == 64.0 / 1024.0 && p.minContrastRatio == 2.0 && p.maxContrastRatio == 10.0
            && p.sharpStartY == 0.45 && p.sharpEndY == 0.9)
      && (hdrMode == Linear ==>
            p.detectThres == 32.0 / 1024.0 && p.minContrastRatio == 1.5 && p.maxContrastRatio == 5.0
            && p.sharpStartY == 0.3 && p.sharpEndY == 0.5)
      && (hdrMode == PQ ==>
            p.detectThres == 32.0 / 1024.0 && p.minContrastRatio == 1.5 && p.maxContrastRatio == 5.0
            && p.sharpStartY == 0.35 && p.sharpEndY == 0.55)
  {
  }

  /** `x == 0 ? texture : x`: a zero viewport extent means the whole texture. */
  function Resolve(viewport: nat, texture: nat): (r: nat)
    ensures viewport != 0 ==> r == viewport
    ensures viewport == 0 ==> r == texture
  {
    if viewport == 0 then texture else viewport
  }

  /** `1.f / extent`; the infinity produced by a zero extent is stored as 0. */
  function Reciprocal(extent: nat): real
  {
    if extent == 0 then 0.0 else 1.0 / extent as real
  }

  /** A norm times its non-zero extent is 1; a zero extent stores 0. */
  lemma ReciprocalInverts(extent: nat)
    ensures extent != 0 ==> Reciprocal(extent) * extent as real == 1.0
    ensures extent == 0 ==> Reciprocal(extent) == 0.0
  {
  }

  /** Result of `NVScalerUpdateConfig`: the returned bool and the config as
      the caller sees it afterwards. */
  datatype Update = Update(ok: bool, config: Config)

  /** The four resolved viewport extents are non-zero. */
  predicate ExtentsNonZero(c: Config)
  {
    c.kInputViewportWidth != 0 && c.kInputViewportHeight != 0
    && c.kOutputViewportWidth != 0 && c.kOutputViewportHeight != 0
  }

  /** `NVScalerUpdateConfig`. When a resolved extent is zero only the four
      viewport-extent fields of `config` have been written. */
  function ScalerUpdateConfig(config: Config, sharpness: real,
                              inputViewportOriginX: nat, inputViewportOriginY: nat,
                              inputViewportWidth: nat, inputViewportHeight: nat,
                              inputTextureWidth: nat, inputTextureHeight: nat,
                              outputViewportOriginX: nat, outputViewportOriginY: nat,
                              outputViewportWidth: nat, outputViewportHeight: nat,
                              outputTextureWidth: nat, outputTextureHeight: nat,
                              hdrMode: HdrMode): Update
  {
    var p := DeriveParams(sharpness, hdrMode);
    var c1 := config.(
      kInputViewportWidth := Resolve(inputViewportWidth, inputTextureWidth),
      kInputViewportHeight := Resolve(inputViewportHeight, inputTextureHeight),
      kOutputViewportWidth := Resolve(outputViewportWidth, outputTextureWidth),
      kOutputViewportHeight := Resolve(outputViewportHeight, outputTextureHeight));
    if !ExtentsNonZero(c1) then
      Update(false, c1)
    else
      var c2 := c1.(
        kInputViewportOriginX := inputViewportOriginX,
        kInputViewportOriginY := inputViewportOriginY,
        kOutputViewportOriginX := outputViewportOriginX,
        kOutputViewportOriginY := outputViewportOriginY,
        kSrcNormX := Reciprocal(inputTextureWidth),
        kSrcNormY := Reciprocal(inputTextureHeight),
        kDstNormX := Reciprocal(outputTextureWidth),
        kDstNormY := Reciprocal(outputTextureHeight),
        kScaleX := c1.kInputViewportWidth as real / c1.kOutputViewportWidth as real,
        kScaleY := c1.kInputViewportHeight as real / c1.kOutputViewportHeight as real,
        kDetectRatio := p.detectRatio,
        kDetectThres := p.detectThres,
        kMinContrastRatio := p.minContrastRatio,
        kRatioNorm := 1.0 / (p.maxContrastRatio - p.minContrastRatio),
        kContrastBoost := 1.0,
        kEps := 1.0 / 255.0,
        kSharpStartY := p.sharpStartY,
        kSharpScaleY := 1.0 / (p.sharpEndY - p.sharpStartY),
        kSharpStrengthMin := p.strengthMin,
        kSharpStrengthScale := p.strengthMax - p.strengthMin,
        kSharpLimitMin := p.limitMin,
        kSharpLimitScale := p.limitMax - p.limitMin);
      var outOfRange := c2.kScaleX < 0.5 || c2.kScaleX > 1.0 || c2.kScaleY < 0.5 || c2.kScaleY > 1.0;
      Update(!outOfRange, c2)
  }

  /** a / o <= c exactly when a <= c * o, for a positive divisor. */
  lemma DivAtMost(a: real, o: real, c: real)
    requires o > 0.0
    ensures a / o <= c <==> a <= c * o
  {
    var q := a / o;
    assert q * o == a;
    assert c * o - a == (c - q) * o;
    if q <= c {
      assert (c - q) * o >= 0.0;
    } else {
      assert (q - c) * o > 0.0;
    }
  }

  /** c <= a / o exactly when c * o <= a, for a positive divisor. */
  lemma DivAtLeast(a: real, o: real, c: real)
    requires o > 0.0
    ensures c <= a / o <==> c * o <= a
  {
    var q := a / o;
    assert q * o == a;
    assert a - c * o == (q - c) * o;
    if c <= q {
      assert (q - c) * o >= 0.0;
    } else {
      assert (c - q) * o > 0.0;
    }
  }

  /** 0.5 <= in/out <= 1 is the integer condition in <= out <= 2 * in. */
  lemma ScaleInRange(inExtent: nat, outExtent: nat)
    requires outExtent > 0
    ensures (0.5 <= inExtent as real / outExtent as real <= 1.0) <==> (inExtent <= outExtent <= 2 * inExtent)
  {
    var a, o := inExtent as real, outExtent as real;
    DivAtMost(a, o, 1.0);
    DivAtLeast(a, o, 0.5);
  }

  /** Contract of `NVScalerUpdateConfig`: zero viewport extents fall back to
      the texture extents; the call fails early, having written only those
      four fields, if one of them is still zero; otherwise every field is
      written, and the call succeeds exactly when each output extent lies
      between one and two times the input extent. */
  lemma ScalerUpdateConfigContract(config: Config, sharpness: real,
                                   ivx: nat, ivy: nat, ivw: nat, ivh: nat, itw: nat, ith: nat,
                                   ovx: nat, ovy: nat, ovw: nat, ovh: nat, otw: nat, oth: nat,
                                   hdrMode: HdrMode)
    ensures var u := ScalerUpdateConfig(config, sharpness, ivx, ivy, ivw, ivh, itw, ith,
                                        ovx, ovy, ovw, ovh, otw, oth, hdrMode);
      var iw, ih, ow, oh := Resolve(ivw, itw), Resolve(ivh, ith), Resolve(ovw, otw), Resolve(ovh, oth);
      && u.config.kInputViewportWidth == iw && u.config.kInputViewportHeight == ih
      && u.config.kOutputViewportWidth == ow && u.config.kOutputViewportHeight == oh
      && (u.ok <==> iw != 0 && ih != 0 && ow != 0 && oh != 0
                    && iw <= ow <= 2 * iw && ih <= oh <= 2 * ih)
      && ((iw == 0 || ih == 0 || ow == 0 || oh == 0) ==>
            u.config == config.(kInputViewportWidth := iw, kInputViewportHeight := ih,
                                kOutputViewportWidth := ow, kOutputViewportHeight := oh))
      && (iw != 0 && ih != 0 && ow != 0 && oh != 0 ==>
            var p := DeriveParams(sharpness, hdrMode);
            && u.config.kInputViewportOriginX == ivx && u.config.kInputViewportOriginY == ivy
            && u.config.kOutputViewportOriginX == ovx && u.config.kOutputViewportOriginY == ovy
            && u.config.kScaleX == iw as real / ow as real
            && u.config.kScaleY == ih as real / oh as real
            && u.config.kContrastBoost == 1.0 && u.config.kEps == 1.0 / 255.0
            && u.config.kDetectRatio == 2.0 * 1127.0 / 1024.0
            && u.config.kDetectThres == p.detectThres
            && u.config.kMinContrastRatio == p.minContrastRatio
            && u.config.kSharpStartY == p.sharpStartY
            && u.config.kSrcNormX == Reciprocal(itw) && u.config.kSrcNormY == Reciprocal(ith)
            && u.config.kDstNormX == Reciprocal(otw) && u.config.kDstNormY == Reciprocal(oth)
            && u.config.kSharpStrengthMin == p.strengthMin
            && u.config.kSharpStrengthScale == p.strengthMax - p.strengthMin
            && u.config.kSharpLimitMin == p.limitMin
            && u.config.kSharpLimitScale == p.limitMax - p.limitMin
            && u.config.kRatioNorm == 1.0 / (p.maxContrastRatio - p.minContrastRatio)
            && u.config.kSharpScaleY == 1.0 / (p.sharpEndY - p.sharpStartY)
            && u.config.reserved0 == config.reserved0 && u.config.reserved1 == config.reserved1)
  {
    var iw, ih, ow, oh := Resolve(ivw, itw), Resolve(ivh, ith), Resolve(ovw, otw), Resolve(ovh, oth);
    if iw != 0 && ih != 0 && ow != 0 && oh != 0 {
      ScaleInRange(iw, ow);
      ScaleInRange(ih, oh);
    }
  }

  /** Every field the shader reads is within its documented range once the
      call gets past the zero-extent check. */
  lemma ScalerUpdateConfigRanges(config: Config, sharpness: real,
                                 ivx: nat, ivy: nat, ivw: nat, ivh: nat, itw: nat, ith: nat,
                                 ovx: nat, ovy: nat, ovw: nat, ovh: nat, otw: nat, oth: nat,
                                 hdrMode: HdrMode)
    requires ExtentsNonZero(ScalerUpdateConfig(config, sharpness, ivx, ivy, ivw, ivh, itw, ith,
                                               ovx, ovy, ovw, ovh, otw, oth, hdrMode).config)
    ensures var c := ScalerUpdateConfig(config, sharpness, ivx, ivy, ivw, ivh, itw, ith,
                                        ovx, ovy, ovw, ovh, otw, oth, hdrMode).config;
      && c.kSharpStrengthMin >= 0.0 && c.kSharpStrengthScale >= 0.0
      && c.kSharpLimitMin >= LimitFloor(hdrMode) && c.kSharpLimitScale >= 0.0
      && c.kRatioNorm > 0.0 && c.kSharpScaleY > 0.0
      && c.kScaleX > 0.0 && c.kScaleY > 0.0
  {
    DeriveParamsBounds(sharpness, hdrMode);
  }

  /** `NVSharpenUpdateConfig`: the input viewport and texture serve as the output too. */
  function SharpenUpdateConfig(config: Config, sharpness: real,
                               inputViewportOriginX: nat, inputViewportOriginY: nat,
                               inputViewportWidth: nat, inputViewportHeight: nat,
                               inputTextureWidth: nat, inputTextureHeight: nat,
                               outputViewportOriginX: nat, outputViewportOriginY: nat,
                               hdrMode: HdrMode): Update
  {
    ScalerUpdateConfig(config, sharpness,
      inputViewportOriginX, inputViewportOriginY, inputViewportWidth, inputViewportHeight,
      inputTextureWidth, inputTextureHeight,
      outputViewportOriginX, outputViewportOriginY, inputViewportWidth, inputViewportHeight,
      inputTextureWidth, inputTextureHeight, hdrMode)
  }

  /** Sharpen-only configs have scale exactly 1 and succeed exactly when the
      resolved input extents are non-zero. */
  lemma SharpenUpdateConfigUnitScale(config: Config, sharpness: real,
                                     ivx: nat, ivy: nat, ivw: nat, ivh: nat, itw: nat, ith: nat,
                                     ovx: nat, ovy: nat, hdrMode: HdrMode)
    ensures var u := SharpenUpdateConfig(config, sharpness, ivx, ivy, ivw, ivh, itw, ith, ovx, ovy, hdrMode);
      && (u.ok <==> Resolve(ivw, itw) != 0 && Resolve(ivh, ith) != 0)
      && (u.ok ==> u.config.kScaleX == 1.0 && u.config.kScaleY == 1.0)
      && u.config.kOutputViewportWidth == u.config.kInputViewportWidth
      && u.config.kOutputViewportHeight == u.config.kInputViewportHeight
  {
    var iw, ih := Resolve(ivw, itw), Resolve(ivh, ith);
    if iw != 0 && ih != 0 {
      assert iw as real / iw as real == 1.0;
      assert ih as real / ih as real == 1.0;
    }
  }

  /** `NISGPUArchitecture` and the `NISOptimizer` block-size getters. */
  datatype GpuArchitecture = NvidiaGeneric | AmdGeneric | IntelGeneric | NvidiaGenericFp16

  datatype Optimizer = Optimizer(isUpscaling: bool, gpuArch: GpuArchitecture)

  function GetOptimalBlockWidth(o: Optimizer): nat
  {
    32
  }

  function GetOptimalBlockHeight(o: Optimizer): nat
  {
    match o.gpuArch
    case NvidiaGenericFp16 => 32
    case _ => if o.isUpscaling then 24 else 32
  }

  function GetOptimalThreadGroupSize(o: Optimizer): nat
  {
    match o.gpuArch
    case NvidiaGeneric => 128
    case NvidiaGenericFp16 => 128
    case _ => 256
  }

  /** Upscaling blocks are 32x24 except in fp16 mode, and the thread groups of
      AMD and Intel are twice NVIDIA's. */
  lemma OptimizerBlockSizes(o: Optimizer)
    ensures GetOptimalBlockWidth(o) == 32
    ensures GetOptimalBlockHeight(o) == (if o.isUpscaling && o.gpuArch != NvidiaGenericFp16 then 24 else 32)
    ensures GetOptimalThreadGroupSize(o) == (if o.gpuArch in {NvidiaGeneric, NvidiaGenericFp16} then 128 else 256)
  {
  }
}

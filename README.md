# shadPS4 host upscaling passes in Dafny

This project models the host-side bookkeeping of the post-processing passes
in shadPS4's Vulkan renderer and proves properties of it. The passes are NVIDIA
Image Scaling (NIS), FSR 2, optical flow, depth estimation and XeSS. Each pass
sits between the emulated game's final image and the swapchain. On every frame
it decides whether to pass its input through or to upscale it into one of a
small ring of output images. The images are rebuilt lazily after a size change.

The Vulkan, FidelityFX, ONNX and XeSS SDK calls are opaque. What remains is
modelled and proved about:

- the pass-through guards;
- the once-only coefficient upload;
- the ring cursors and dirty flags;
- the frame counters;
- the jitter and render-resolution arithmetic;
- the NIS constant-buffer derivation and its coefficient tables.

## Layout

| file | module | models |
|---|---|---|
| `common.dfy` | `Common` | extents, image views, the wrap-around ring cursor, truncating division by a float scale |
| `nis_config.dfy` | `NisConfig` | `NVScalerUpdateConfig`, `NVSharpenUpdateConfig`, `NISConfig`, `NISOptimizer` |
| `nis_coefficients.dfy` | `NisCoefficients` | the `coef_scale` / `coef_usm` tables and their staging-buffer and texture layout |
| `nis_pass.dfy` | `NisHostPass` | `NisPass`: `Render` and its helpers; every recorded command is an event in a ghost trace |
| `fsr2_pass.dfy` | `Fsr2` | `GetJitterOffset`, `Fsr2Pass` |
| `optical_flow.dfy` | `OpticalFlow` | `OpticalFlowPass` |
| `depth_estimation.dfy` | `DepthEstimation` | `DepthEstimationPass` |
| `xess_pass.dfy` | `XeSS` | `XeSSPass` |

### How the state is modelled

Each pass is a `class` with the fields of the C++ class. A slot vector is a
`seq` field that the methods reassign.

Each class method is proved against a pure step function over a `State` value
(`ensures Abs() == Step(old(Abs()), …)`). The step function of `Render` is
split into the same parts as the C++ code: guard, size check, slot selection,
rebuild and dispatch.

The properties of the pass are lemmas about these step functions. Some are
about one frame; others are about runs of frames (`RenderMany`).

### Number representation

- Every `float` is a `real`.
- Every `u32` is a `nat`; the wrap-around of the `u32` counters is written out.
- A `float` divisor is its decimal value as a ratio of integers (`1.7f` is
  17/10, `1.3f` is 13/10), and the `static_cast<u32>` of a quotient is the
  exact floor of that ratio (`Common.Truncate`).
- SDK results (XeSS init and execute, XeSS context creation) are `bool`
  parameters.
- The fence status in `IsAsyncComplete` is a `bool` parameter.
- The global `DebugState.is_using_nis` / `is_using_xess` flag becomes a field of
  the pass or part of the value a frame returns.

### Where the code differs from its own documentation

The model follows the code in each of these cases:

- **`coef_usm` rows.** Each row sums to 0 within 1e-3, not to 1: it is a
  detail (high-pass) kernel.
- **`NisPass::Render` and a rejected config.** `Render` ignores the result of
  `NVScalerUpdateConfig`. A config outside the accepted scale range is still
  uploaded and dispatched (`NisHostPass.RejectedConfigIsStillDispatched`).
- **Ring cursor order.** Every ring picks the slot under the cursor first and
  then advances the cursor.
- **Jitter base.** `Fsr2Pass::Render` passes `input_size.width` / `height` as
  the `dimension` argument of `GetJitterOffset`. So both axes use base 3
  whenever the extents are non-zero, and a frame's vertical offset equals the
  next frame's horizontal offset (`Fsr2.RenderStepJitter`).
- **XeSS resize branch.** In `XeSSPass::Render` the initialisation records the
  new output size before the size check. So the resize branch never fires, and
  a resolution change does not mark the output ring dirty. The class models
  this as written; see "## Findings".

## Model

| member | source | states |
|---|---|---|
| `Common.Next` | src/video_core/renderer_vulkan/host_passes/nis_pass.cpp:348-351 | the cursor after `cur` stays below the ring size and is `(cur + 1) mod n`, as each pass's increment-and-wrap computes it |
| `Common.Prev` | src/video_core/renderer_vulkan/host_passes/fsr2_pass.cpp:379 | the slot before the cursor, wrapping to the last slot, is in range and is the slot whose successor is the cursor |
| `Common.Dist` | src/video_core/renderer_vulkan/host_passes/nis_pass.cpp:348-351 | the number of cursor steps from one slot to another is below the ring size |
| `Common.RingAt` | src/video_core/renderer_vulkan/host_passes/nis_pass.cpp:348-351 | the slot reached after `j` steps is in range and at distance `j` |
| `Common.Ring` | src/video_core/renderer_vulkan/host_passes/nis_pass.cpp:348-351 | the sequence of slots a cursor visits in `m` steps has length `m` |
| `Common.RingIndex` | src/video_core/renderer_vulkan/host_passes/nis_pass.cpp:348-351 | the `j`-th slot visited is the slot at distance `j` from the start |
| `Common.RingVisitsEverySlotOnce` | src/video_core/renderer_vulkan/host_passes/nis_pass.cpp:348-351 | `n` steps of the cursor visit every one of the `n` slots, each exactly once |
| `Common.Truncate` | src/video_core/renderer_vulkan/host_passes/fsr2_pass.cpp:134-137 | the truncated quotient of an extent by a divisor `num/den` is the largest `r` with `r * num <= d * den`, and never exceeds `d` for a divisor of at least 1 |
| `NisConfig.ClampSharpness` | src/video_core/host_shaders/nis/NIS_Config.h:166 | the clamped sharpness lies in [0, 1], equals the input inside that range, and is 0 below it and 1 above it |
| `NisConfig.Slider` | src/video_core/host_shaders/nis/NIS_Config.h:166-167 | the slider `sharpness - 0.5` lies in [-0.5, 0.5] |
| `NisConfig.DeriveParamsBounds` | src/video_core/host_shaders/nis/NIS_Config.h:172-217 | for every sharpness and HDR mode: strength minimum >= 0, limit minimum >= its floor, strength and limit scales >= 0, and both reciprocal denominators > 0 |
| `NisConfig.DeriveParamsModeConstants` | src/video_core/host_shaders/nis/NIS_Config.h:176-212 | the detect ratio is 2254/1024; SDR uses threshold 64/1024, contrast [2, 10], luma band [0.45, 0.9]; Linear uses 32/1024, [1.5, 5], [0.3, 0.5]; PQ uses 32/1024, [1.5, 5], [0.35, 0.55] |
| `NisConfig.Resolve` | src/video_core/host_shaders/nis/NIS_Config.h:219-222 | a zero viewport extent is replaced by the texture extent, and a non-zero one is kept |
| `NisConfig.ReciprocalInverts` | src/video_core/host_shaders/nis/NIS_Config.h:232-235 | a source or destination norm times its non-zero texture extent is 1; a zero extent stores 0 |
| `NisConfig.ScaleInRange` | src/video_core/host_shaders/nis/NIS_Config.h:236-252 | `0.5 <= in / out <= 1` holds exactly when `in <= out <= 2 * in` |
| `NisConfig.ScalerUpdateConfigContract` | src/video_core/host_shaders/nis/NIS_Config.h:156-254 | the four viewport extents are always written resolved; if one is zero, those four are the only fields written; otherwise the origins, the scales `in / out`, the mode's detect threshold, minimum contrast ratio and luma start, the constant ratio, boost and epsilon, the derived strength, limit, contrast-norm and luma-scale fields, and the reciprocal texture extents are written, and the reserved fields are kept; the result is true iff all extents are non-zero and `in <= out <= 2 * in` on both axes |
| `NisConfig.ScalerUpdateConfigRanges` | src/video_core/host_shaders/nis/NIS_Config.h:214-249 | past the zero-extent check every sharpening field is within its range (minima at their floors, scales non-negative, reciprocals and scale factors positive) |
| `NisConfig.SharpenUpdateConfigUnitScale` | src/video_core/host_shaders/nis/NIS_Config.h:257-268 | the sharpen-only call uses the input extents as output, has scale exactly 1 when it succeeds, and succeeds iff the resolved input extents are non-zero |
| `NisConfig.OptimizerBlockSizes` | src/video_core/host_shaders/nis/NIS_Config.h:99-153 | blocks are 32 wide, 24 high when upscaling except in fp16 mode (else 32), and thread groups are 128 on NVIDIA, 256 otherwise |
| `NisCoefficients.ScalePhaseZeroIsIdentity` | src/video_core/host_shaders/nis/NIS_Config.h:274-276 | phase 0 of `coef_scale` is the identity filter on tap 2 |
| `NisCoefficients.ScaleRowsShaped` | src/video_core/host_shaders/nis/NIS_Config.h:274-339 | every `coef_scale` phase has taps 6 and 7 zero and sums to 1 within 1e-3 |
| `NisCoefficients.UsmRowsShaped` | src/video_core/host_shaders/nis/NIS_Config.h:341-406 | every `coef_usm` phase has taps 6 and 7 zero and sums to 0 within 1e-3 |
| `NisCoefficients.ScaleMirroredLow` | src/video_core/host_shaders/nis/NIS_Config.h:274-339 | phases 1..16 of `coef_scale` mirror phases 63..48 |
| `NisCoefficients.ScaleMirroredMidLow` | src/video_core/host_shaders/nis/NIS_Config.h:274-339 | phases 17..32 of `coef_scale` mirror phases 47..32 |
| `NisCoefficients.ScaleMirroredMidHigh` | src/video_core/host_shaders/nis/NIS_Config.h:274-339 | phases 33..48 of `coef_scale` mirror phases 31..16 |
| `NisCoefficients.ScaleMirroredHigh` | src/video_core/host_shaders/nis/NIS_Config.h:274-339 | phases 49..63 of `coef_scale` mirror phases 15..1 |
| `NisCoefficients.ScaleMirrored` | src/video_core/host_shaders/nis/NIS_Config.h:274-339 | for every k in 1..63, phase 64 - k of `coef_scale` is phase k with taps 0..5 reversed |
| `NisCoefficients.UsmMirroredLow` | src/video_core/host_shaders/nis/NIS_Config.h:341-406 | phases 1..16 of `coef_usm` mirror phases 63..48 |
| `NisCoefficients.UsmMirroredMidLow` | src/video_core/host_shaders/nis/NIS_Config.h:341-406 | phases 17..32 of `coef_usm` mirror phases 47..32 |
| `NisCoefficients.UsmMirroredMidHigh` | src/video_core/host_shaders/nis/NIS_Config.h:341-406 | phases 33..48 of `coef_usm` mirror phases 31..16 |
| `NisCoefficients.UsmMirroredHigh` | src/video_core/host_shaders/nis/NIS_Config.h:341-406 | phases 49..63 of `coef_usm` mirror phases 15..1 |
| `NisCoefficients.UsmMirrored` | src/video_core/host_shaders/nis/NIS_Config.h:341-406 | for every k in 1..63, phase 64 - k of `coef_usm` is phase k with taps 0..5 reversed |
| `NisCoefficients.FlattenRows` | src/video_core/renderer_vulkan/host_passes/nis_pass.cpp:222-223 | a `float[][8]` copied flat has eight floats per row |
| `NisCoefficients.StagingBuffer` | src/video_core/renderer_vulkan/host_passes/nis_pass.cpp:200-223 | the staging buffer holds 2 * 64 * 8 floats |
| `NisCoefficients.FlattenRowsIndex` | src/video_core/renderer_vulkan/host_passes/nis_pass.cpp:222-223 | float `8 * q + t` of the flattened rows is tap `t` of row `q` |
| `NisCoefficients.FlattenIndex` | src/video_core/renderer_vulkan/host_passes/nis_pass.cpp:222-223 | float `8 * phase + tap` of a flattened kernel is `coef[phase][tap]` |
| `NisCoefficients.TexelOffset` | src/video_core/renderer_vulkan/host_passes/nis_pass.cpp:262-287 | channel `c` of texel `(x, y)` of a 2-texel-wide RGBA image sits at float `8 * y + 4 * x + c` |
| `NisCoefficients.BackToBackLayout` | src/video_core/renderer_vulkan/host_passes/nis_pass.cpp:262-287 | for two 64-row tables placed back to back, a copy from offset 0 or 512 reads the first or second table's `[y][4x + c]` |
| `NisCoefficients.CoefficientImageLayout` | src/video_core/renderer_vulkan/host_passes/nis_pass.cpp:222-287 | `coef_scale` occupies floats [0, 512) and `coef_usm` floats [512, 1024); each coefficient image holds `coef[y][4x + c]` in channel `c` of texel `(x, y)` |
| `NisHostPass.Initial` | src/video_core/renderer_vulkan/host_passes/nis_pass.cpp:135-140 | after `Create(num_images)` there are `num_images` dirty slots with ids `(u8)i`, size 0x0, cursor 0, and no coefficients |
| `NisHostPass.Invalidate` | src/video_core/renderer_vulkan/host_passes/nis_pass.cpp:508-510 | every slot becomes dirty, and ids and images are unchanged |
| `NisHostPass.ResizeStep` | src/video_core/renderer_vulkan/host_passes/nis_pass.cpp:503-511 | `ResizeAndInvalidate` records the size, keeps the cursor and keeps the slots well formed |
| `NisHostPass.CreateImagesStep` | src/video_core/renderer_vulkan/host_passes/nis_pass.cpp:513-525 | rebuilding a slot keeps every clean slot at the current size |
| `NisHostPass.PrepareStep` | src/video_core/renderer_vulkan/host_passes/nis_pass.cpp:340-345 | preparing adopts the output size, keeps the cursor and the number of slots |
| `NisHostPass.AcquireStep` | src/video_core/renderer_vulkan/host_passes/nis_pass.cpp:348-355 | acquiring keeps the size and the number of slots and leaves the ring well formed |
| `NisHostPass.UpscaleStep` | src/video_core/renderer_vulkan/host_passes/nis_pass.cpp:337-500 | the upscaling path keeps the ring well formed and its size fixed |
| `NisHostPass.RenderStep` | src/video_core/renderer_vulkan/host_passes/nis_pass.cpp:325-501 | `Render` keeps the ring well formed (cursor in range, ids, clean slots at the current size) |
| `NisHostPass.RenderStepParts` | src/video_core/renderer_vulkan/host_passes/nis_pass.cpp:337-500 | the upscaling path is coefficients and resize, then slot acquisition, then the dispatch commands, returning the slot under the old cursor |
| `NisHostPass.PrepareStepCoefficients` | src/video_core/renderer_vulkan/host_passes/nis_pass.cpp:143-341 | preparing creates the coefficient images iff not yet created and uploads the tables iff not yet uploaded; afterwards both flags are set |
| `NisHostPass.CreateCoefficientsCounts` | src/video_core/renderer_vulkan/host_passes/nis_pass.cpp:143-147 | `CreateCoefficientsTextures` creates once, returns early once its flag is set, and leaves the upload flag alone |
| `NisHostPass.UploadCoefficientsCounts` | src/video_core/renderer_vulkan/host_passes/nis_pass.cpp:194-322 | `UploadCoefficients` fills the staging buffer once, returns early once its flag is set, and leaves the create flag alone |
| `NisHostPass.PrepareStepSlots` | src/video_core/renderer_vulkan/host_passes/nis_pass.cpp:343-355 | preparing rebuilds nothing; a slot is dirty afterwards iff the size changed or it already was, and images are untouched |
| `NisHostPass.AcquireStepContract` | src/video_core/renderer_vulkan/host_passes/nis_pass.cpp:348-355 | the cursor advances with wrap-around; the selected slot ends clean with an image of the current size; it is rebuilt iff it was dirty; every other slot is untouched |
| `NisHostPass.DispatchEventsAreDispatch` | src/video_core/renderer_vulkan/host_passes/nis_pass.cpp:374-500 | the six dispatch commands rebuild no slot and create or upload no coefficients |
| `NisHostPass.RenderStepUpscalesState` | src/video_core/renderer_vulkan/host_passes/nis_pass.cpp:337-355 | after an upscaling `Render`: `is_using_nis` is set, the slot under the old cursor is returned, coefficients are done, the size is adopted, the cursor has advanced, the returned slot is clean at the output size, and every other slot keeps its image and is dirty iff the size changed or it was dirty |
| `NisHostPass.RenderStepCoefficients` | src/video_core/renderer_vulkan/host_passes/nis_pass.cpp:340-341 | an upscaling `Render` creates the coefficient images iff they were not created and uploads them iff they were not uploaded |
| `NisHostPass.RenderStepRebuilds` | src/video_core/renderer_vulkan/host_passes/nis_pass.cpp:343-355 | an upscaling `Render` rebuilds exactly the selected slot when the size changed or that slot was dirty, and nothing otherwise |
| `NisHostPass.RenderStepEndsWithDispatch` | src/video_core/renderer_vulkan/host_passes/nis_pass.cpp:374-500 | an upscaling `Render` ends with the barrier to General, the config upload, the pipeline bind, the descriptor push, `dispatch(gx, gy, 1)` and the barrier to ShaderReadOnly, whatever `NVScalerUpdateConfig` returned |
| `NisHostPass.RenderStepPassesThrough` | src/video_core/renderer_vulkan/host_passes/nis_pass.cpp:328-335 | disabled, or input at least the output on both axes: the input is returned, `is_using_nis` is false, no command is recorded and no state changes |
| `NisHostPass.DefaultSettingsPassThrough` | src/video_core/renderer_vulkan/host_passes/nis_pass.h:15-16 | default settings (disabled, sharpness 0.5) always pass through |
| `NisHostPass.RenderMany` | src/video_core/renderer_vulkan/host_passes/nis_pass.cpp:325-501 | a run of `Render` calls keeps the ring well formed and returns one view per call |
| `NisHostPass.CoefficientsStep` | src/video_core/renderer_vulkan/host_passes/nis_pass.cpp:328-341 | any call creates and uploads the coefficients iff it upscales and they were not yet done, and the flags become set iff it upscales or they were set |
| `NisHostPass.CoefficientsAtMostOnce` | src/video_core/renderer_vulkan/host_passes/nis_pass.cpp:143-341 | over any run, the coefficient images are created and the tables uploaded at most once: exactly once if not done before and some call upscales |
| `NisHostPass.WindowStep` | src/video_core/renderer_vulkan/host_passes/nis_pass.cpp:348-355 | at an unchanged size an upscaling call rebuilds the slot under the cursor iff the dirty window ahead of it is non-empty, and the window shrinks by one |
| `NisHostPass.ResizeStepWindow` | src/video_core/renderer_vulkan/host_passes/nis_pass.cpp:343-355 | the first upscaling call after a size change rebuilds the slot under the cursor and leaves the other `n - 1` slots as the dirty window |
| `NisHostPass.RebuildWindow` | src/video_core/renderer_vulkan/host_passes/nis_pass.cpp:348-355 | same-size upscaling calls rebuild the dirty window in cursor order, one slot per call, then nothing |
| `NisHostPass.RebuildAfterResize` | src/video_core/renderer_vulkan/host_passes/nis_pass.cpp:343-355 | after a size change, same-size upscaling calls rebuild slots in cursor order from the cursor, one per call, until all are rebuilt |
| `NisHostPass.RebuildEachSlotOnce` | src/video_core/renderer_vulkan/host_passes/nis_pass.cpp:343-355 | after a size change, `num_images` or more same-size upscaling calls rebuild each slot exactly once |
| `NisHostPass.FirstUpscaleInvalidatesAll` | src/video_core/renderer_vulkan/host_passes/nis_pass.h:57-61 | the first upscaling call after `Create` creates and uploads the coefficients once, rebuilds slot 0 at the output size, and leaves every other slot dirty |
| `NisHostPass.DispatchGridCovers` | src/video_core/renderer_vulkan/host_passes/nis_pass.cpp:364-365 | the grid is the fewest 32x24 blocks covering the output: `gx * 32 >= w > (gx - 1) * 32` and likewise with 24 rows |
| `NisHostPass.DispatchGrid1080p` | src/video_core/renderer_vulkan/host_passes/nis_pass.cpp:364-365 | a 1920x1080 output dispatches 60x45 groups |
| `NisHostPass.ThreefoldUpscaleRejected` | src/video_core/host_shaders/nis/NIS_Config.h:251-253 | `NVScalerUpdateConfig` returns false for a 100x100 input upscaled to 300x300, whose scale 1/3 is below 0.5 |
| `NisHostPass.RejectedConfigIsStillDispatched` | src/video_core/renderer_vulkan/host_passes/nis_pass.cpp:391-476 | 100x100 to 300x300 is rejected by `NVScalerUpdateConfig`, yet `Render` uploads that config and dispatches a 10x13 grid |
| `NisHostPass.NisPass.Create` | src/video_core/renderer_vulkan/host_passes/nis_pass.cpp:135-140 | the pass holds `num_images` dirty slots with ids `(u8)i`, size 0x0, cursor 0, no coefficients and an empty trace |
| `NisHostPass.NisPass.CreateCoefficientsTextures` | src/video_core/renderer_vulkan/host_passes/nis_pass.cpp:143-192 | the new state and trace are those of `CreateCoefficientsStep` |
| `NisHostPass.NisPass.UploadCoefficients` | src/video_core/renderer_vulkan/host_passes/nis_pass.cpp:194-323 | the new state and trace are those of `UploadCoefficientsStep`: staging, barriers, two copies at their offsets, barriers, flag |
| `NisHostPass.NisPass.ResizeAndInvalidate` | src/video_core/renderer_vulkan/host_passes/nis_pass.cpp:503-511 | the loop marks every slot dirty and records the size, as `ResizeStep` |
| `NisHostPass.NisPass.CreateImages` | src/video_core/renderer_vulkan/host_passes/nis_pass.cpp:513-551 | the slot becomes clean with an image of the current size, and one creation is recorded |
| `NisHostPass.NisPass.PrepareOutput` | src/video_core/renderer_vulkan/host_passes/nis_pass.cpp:340-345 | the new state and trace are those of `PrepareStep` |
| `NisHostPass.NisPass.AcquireImage` | src/video_core/renderer_vulkan/host_passes/nis_pass.cpp:348-355 | the returned slot is the old cursor; state and trace are those of `AcquireStep` |
| `NisHostPass.NisPass.Upscale` | src/video_core/renderer_vulkan/host_passes/nis_pass.cpp:337-500 | view, state and trace are those of `UpscaleStep` |
| `NisHostPass.NisPass.Render` | src/video_core/renderer_vulkan/host_passes/nis_pass.cpp:325-501 | view, state, trace and `is_using_nis` are those of `RenderStep` |
| `Fsr2.Base` | src/video_core/renderer_vulkan/host_passes/fsr2_pass.cpp:188 | the base is 2 iff `dimension` is 0, and 3 otherwise |
| `Fsr2.PlaceRange` | src/video_core/renderer_vulkan/host_passes/fsr2_pass.cpp:191-192 | a digit below the base adds less than one place of the coarser position, and nothing iff it is 0 |
| `Fsr2.AccumulatedRange` | src/video_core/renderer_vulkan/host_passes/fsr2_pass.cpp:190-194 | the digits still to come add less than the current place value, and nothing iff none is left |
| `Fsr2.PlaceValue` | src/video_core/renderer_vulkan/host_passes/fsr2_pass.cpp:192 | the weight of digit 0, 1 or 2 at place `f` is 0, `f` or `2f` |
| `Fsr2.SameDigit` | src/video_core/renderer_vulkan/host_passes/fsr2_pass.cpp:192 | two partial sums in the intervals of two digits can only be equal if the digits are equal |
| `Fsr2.AccumulatedInjective` | src/video_core/renderer_vulkan/host_passes/fsr2_pass.cpp:189-194 | from one partial sum, different indices reach different results |
| `Fsr2.RadicalInverseInjective` | src/video_core/renderer_vulkan/host_passes/fsr2_pass.cpp:189-194 | the radical inverse is injective in each base |
| `Fsr2.GetJitterOffset` | src/video_core/renderer_vulkan/host_passes/fsr2_pass.cpp:183-197 | the digit loop terminates and returns the base-`b` radical inverse of `index mod phase_count` minus 0.5 |
| `Fsr2.JitterOffsetRange` | src/video_core/renderer_vulkan/host_passes/fsr2_pass.cpp:183-197 | every offset lies in [-0.5, 0.5), and is -0.5 iff `index mod phase_count` is 0 |
| `Fsr2.JitterOffsetInjective` | src/video_core/renderer_vulkan/host_passes/fsr2_pass.cpp:187-194 | two indices get the same offset iff they are congruent modulo the phase count |
| `Fsr2.FirstJitterOffsets` | src/video_core/renderer_vulkan/host_passes/fsr2_pass.cpp:183-197 | the first offsets: -0.5, 0, -0.25, 0.25 in base 2; 1/3 - 0.5, 2/3 - 0.5, 1/9 - 0.5 in base 3; index 33 of 32 phases repeats index 1 |
| `Fsr2.Scale` | src/video_core/renderer_vulkan/host_passes/fsr2_pass.cpp:115-132 | every mode's divisor is at least 1 |
| `Fsr2.GetRenderResolution` | src/video_core/renderer_vulkan/host_passes/fsr2_pass.cpp:114-138 | every mode returns at most the display size on each axis |
| `Fsr2.ScaleMatchesDocumentation` | src/video_core/renderer_vulkan/host_passes/fsr2_pass.h:14-18 | the divisors are exactly the documented 3, 2, 1.7, 1.5 and 1 |
| `Fsr2.RenderResolutionExact` | src/video_core/renderer_vulkan/host_passes/fsr2_pass.cpp:114-138 | NativeAA gives `d`, Performance `d / 2`, UltraPerformance `d / 3`, Quality `2d / 3` and Balanced `10d / 17`, rounded down |
| `Fsr2.UpscalingModesShrink` | src/video_core/renderer_vulkan/host_passes/fsr2_pass.cpp:114-138 | NativeAA renders at the display size; every other mode renders strictly smaller than a non-zero display extent on each axis |
| `Fsr2.ResizeStep` | src/video_core/renderer_vulkan/host_passes/fsr2_pass.cpp:175-180 | marking both slots dirty and recording the size keeps the pass well formed |
| `Fsr2.CreateOutputImagesStep` | src/video_core/renderer_vulkan/host_passes/fsr2_pass.cpp:140-141 | building a slot at the current size keeps the pass well formed |
| `Fsr2.AcquireStep` | src/video_core/renderer_vulkan/host_passes/fsr2_pass.cpp:78-87 | slot selection picks the slot under the cursor and leaves the jitter index and availability alone |
| `Fsr2.UpscaleStep` | src/video_core/renderer_vulkan/host_passes/fsr2_pass.cpp:78-111 | the path past the guard keeps the pass well formed (cursor below 2, jitter index below 32) |
| `Fsr2.RenderStep` | src/video_core/renderer_vulkan/host_passes/fsr2_pass.cpp:69-112 | `Render` keeps the pass well formed |
| `Fsr2.RenderStepAdvances` | src/video_core/renderer_vulkan/host_passes/fsr2_pass.cpp:78-92 | past the guard the slot under the cursor is returned, the cursor advances mod 2, the jitter index advances mod 32, and the size is recorded |
| `Fsr2.RenderStepRebuilds` | src/video_core/renderer_vulkan/host_passes/fsr2_pass.cpp:78-87 | only the selected slot is rebuilt, iff the size changed or it was dirty; it ends clean at the output size; the other slot is dirty iff the size changed or it was dirty |
| `Fsr2.RenderStepJitter` | src/video_core/renderer_vulkan/host_passes/fsr2_pass.cpp:90-92 | with non-zero extents both offsets are base-3 radical inverses of the jitter index and the next one, so a frame's y offset is the next frame's x offset |
| `Fsr2.RenderMany` | src/video_core/renderer_vulkan/host_passes/fsr2_pass.cpp:69-112 | a run of `Render` calls keeps the pass well formed and returns one view per call |
| `Fsr2.CreatedPassNeverUpscales` | src/video_core/renderer_vulkan/host_passes/fsr2_pass.cpp:46-75 | an unavailable pass, as `Create` leaves it, returns each frame's own color input and never changes state |
| `Fsr2.ResizeRebuildsBothSlotsOnce` | src/video_core/renderer_vulkan/host_passes/fsr2_pass.cpp:78-87 | after a size change the next two same-size frames rebuild the two slots once each in cursor order, and a third rebuilds nothing |
| `Fsr2.Fsr2Pass.Create` | src/video_core/renderer_vulkan/host_passes/fsr2_pass.cpp:22-57 | the pass is unavailable without a context, with two dirty slots, size 0x0, cursor and jitter index 0 |
| `Fsr2.Fsr2Pass.ResizeOutput` | src/video_core/renderer_vulkan/host_passes/fsr2_pass.cpp:175-180 | the loop marks every slot dirty and records the size, as `ResizeStep` |
| `Fsr2.Fsr2Pass.CreateOutputImages` | src/video_core/renderer_vulkan/host_passes/fsr2_pass.cpp:140-173 | the slot becomes clean with an image of the current size, as `CreateOutputImagesStep` |
| `Fsr2.Fsr2Pass.AcquireOutput` | src/video_core/renderer_vulkan/host_passes/fsr2_pass.cpp:78-87 | the slot and new state are those of `AcquireStep` |
| `Fsr2.Fsr2Pass.Upscale` | src/video_core/renderer_vulkan/host_passes/fsr2_pass.cpp:78-111 | view, jitter and new state are those of `UpscaleStep`, the jitter computed by the `GetJitterOffset` loop |
| `Fsr2.Fsr2Pass.Render` | src/video_core/renderer_vulkan/host_passes/fsr2_pass.cpp:69-112 | view, jitter and new state are those of `RenderStep` |
| `OpticalFlow.Initial` | src/video_core/renderer_vulkan/host_passes/fsr2_pass.cpp:219-222 | after `Create` the pass is unavailable with two empty slots, size 0x0 and cursor 0 |
| `OpticalFlow.CreateImagesStep` | src/video_core/renderer_vulkan/host_passes/fsr2_pass.cpp:264-301 | rebuilding every slot at the new size keeps the ring well formed |
| `OpticalFlow.GenerateStep` | src/video_core/renderer_vulkan/host_passes/fsr2_pass.cpp:237-262 | `GenerateMotionVectors` keeps the ring well formed |
| `OpticalFlow.GenerateStepPassesThrough` | src/video_core/renderer_vulkan/host_passes/fsr2_pass.cpp:241-243 | disabled or unavailable: the null view, and nothing changes |
| `OpticalFlow.GenerateStepAdvances` | src/video_core/renderer_vulkan/host_passes/fsr2_pass.cpp:245-267 | past the guard the size is recorded, a change rebuilds every slot and no change rebuilds none, the cursor advances mod 2, and the old cursor's slot is returned |
| `OpticalFlow.GenerateAlternates` | src/video_core/renderer_vulkan/host_passes/fsr2_pass.cpp:249-250 | same-size calls alternate between the two slots |
| `OpticalFlow.GenerateMany` | src/video_core/renderer_vulkan/host_passes/fsr2_pass.cpp:237-262 | a run of calls keeps the ring well formed and returns one view per call |
| `OpticalFlow.CreatedPassNeverGenerates` | src/video_core/renderer_vulkan/host_passes/fsr2_pass.cpp:219-243 | an unavailable pass, as `Create` leaves it, returns the null view on every call and never changes state |
| `OpticalFlow.OpticalFlowPass.Create` | src/video_core/renderer_vulkan/host_passes/fsr2_pass.cpp:203-225 | the pass is unavailable with two empty slots, size 0x0 and cursor 0 |
| `OpticalFlow.OpticalFlowPass.CreateMotionVectorImages` | src/video_core/renderer_vulkan/host_passes/fsr2_pass.cpp:264-301 | the loop builds every slot at the new size and records it, as `CreateImagesStep` |
| `OpticalFlow.OpticalFlowPass.GenerateMotionVectors` | src/video_core/renderer_vulkan/host_passes/fsr2_pass.cpp:237-262 | view and new state are those of `GenerateStep` |
| `DepthEstimation.Default` | src/video_core/renderer_vulkan/host_passes/fsr2_pass.h:196-212 | the header's defaults form a well-formed, unavailable pass with an empty ring |
| `DepthEstimation.CreateStep` | src/video_core/renderer_vulkan/host_passes/fsr2_pass.cpp:321-324 | `Create` leaves the pass unavailable with a two-slot ring |
| `DepthEstimation.CreateImagesStep` | src/video_core/renderer_vulkan/host_passes/fsr2_pass.cpp:390-428 | rebuilding every slot at the new size keeps the ring well formed |
| `DepthEstimation.EstimateStep` | src/video_core/renderer_vulkan/host_passes/fsr2_pass.cpp:342-372 | `EstimateDepth` keeps the pass well formed, including a `u32` frame counter |
| `DepthEstimation.ProduceStep` | src/video_core/renderer_vulkan/host_passes/fsr2_pass.cpp:354-371 | the estimating part keeps the pass well formed |
| `DepthEstimation.CachedDepthPredecessor` | src/video_core/renderer_vulkan/host_passes/fsr2_pass.cpp:374-381 | `GetCachedDepth` is null for an empty ring, otherwise it is the slot just before the cursor (null iff that slot was never built) |
| `DepthEstimation.EstimateStepPassesThrough` | src/video_core/renderer_vulkan/host_passes/fsr2_pass.cpp:344-346 | disabled or unavailable: the null view, and nothing changes, not even the frame counter |
| `DepthEstimation.EstimateStepCounts` | src/video_core/renderer_vulkan/host_passes/fsr2_pass.cpp:349-359 | the counter advances with `u32` wrap-around; a frame is estimated iff the rate is at most 1 or divides the new count; a skipped frame returns the cached view and changes nothing else; an estimated frame records the size (a change rebuilds both slots), returns the old cursor's slot and advances the cursor |
| `DepthEstimation.DefaultRateEstimatesEveryFrame` | src/video_core/renderer_vulkan/host_passes/fsr2_pass.h:158 | with the default rate of 1 every enabled, available frame is estimated |
| `DepthEstimation.CachedDepthIsLatestEstimate` | src/video_core/renderer_vulkan/host_passes/fsr2_pass.cpp:350-381 | after an estimated frame the cached depth is the view it returned, and a following skipped frame returns that same view |
| `DepthEstimation.SkipsBetweenMultiples` | src/video_core/renderer_vulkan/host_passes/fsr2_pass.cpp:350 | with rate `n > 1`, of the `n` counts after a multiple of `n` only the last is estimated |
| `DepthEstimation.EstimateMany` | src/video_core/renderer_vulkan/host_passes/fsr2_pass.cpp:342-372 | a run of calls keeps the pass well formed and returns one view per call |
| `DepthEstimation.CreatedPassNeverEstimates` | src/video_core/renderer_vulkan/host_passes/fsr2_pass.cpp:321-346 | an unavailable pass, as `Create` leaves it, returns the null view on every call and never changes state, the counter included |
| `DepthEstimation.DepthEstimationPass.constructor` | src/video_core/renderer_vulkan/host_passes/fsr2_pass.h:196-212 | a new object has the header's defaults |
| `DepthEstimation.DepthEstimationPass.Create` | src/video_core/renderer_vulkan/host_passes/fsr2_pass.cpp:307-331 | the new state is that of `CreateStep` |
| `DepthEstimation.DepthEstimationPass.GetCachedDepth` | src/video_core/renderer_vulkan/host_passes/fsr2_pass.cpp:374-381 | the view is that of `CachedDepth` |
| `DepthEstimation.DepthEstimationPass.AsyncComplete` | src/video_core/renderer_vulkan/host_passes/fsr2_pass.cpp:383-388 | complete iff nothing is pending or the fence is signalled |
| `DepthEstimation.DepthEstimationPass.CreateDepthImages` | src/video_core/renderer_vulkan/host_passes/fsr2_pass.cpp:390-428 | the loop builds every slot at the new size and records it, as `CreateImagesStep` |
| `DepthEstimation.DepthEstimationPass.EstimateDepth` | src/video_core/renderer_vulkan/host_passes/fsr2_pass.cpp:342-372 | view and new state are those of `EstimateStep` |
| `DepthEstimation.DepthEstimationPass.Produce` | src/video_core/renderer_vulkan/host_passes/fsr2_pass.cpp:354-371 | view and new state are those of `ProduceStep` |
| `XeSS.Scale` | src/video_core/renderer_vulkan/host_passes/xess_pass.cpp:426-447 | every mode's divisor is at least 1 |
| `XeSS.GetRenderResolution` | src/video_core/renderer_vulkan/host_passes/xess_pass.cpp:425-453 | every mode returns at most the display size on each axis |
| `XeSS.RenderResolutionExact` | src/video_core/renderer_vulkan/host_passes/xess_pass.cpp:425-453 | NativeAA gives `d`, Performance `d / 2`, UltraPerformance `d / 3`, Quality `2d / 3`, Balanced `10d / 17` and UltraQuality `10d / 13`, rounded down |
| `XeSS.UpscalingModesShrink` | src/video_core/renderer_vulkan/host_passes/xess_pass.cpp:425-453 | NativeAA renders at the display size; every other mode renders strictly smaller than a non-zero display extent on each axis |
| `XeSS.Created` | src/video_core/renderer_vulkan/host_passes/xess_pass.cpp:75-132 | after `Create` the pass is available iff the SDK is compiled in and context creation succeeded, and every slot has its `u8` id and no image |
| `XeSS.MarkAllDirty` | src/video_core/renderer_vulkan/host_passes/xess_pass.cpp:498-500 | marking every slot dirty keeps the ring well formed |
| `XeSS.ResizeStep` | src/video_core/renderer_vulkan/host_passes/xess_pass.cpp:496-501 | `ResizeOutput` keeps the pass well formed |
| `XeSS.BuildSlot` | src/video_core/renderer_vulkan/host_passes/xess_pass.cpp:455-494 | building a slot keeps the ring well formed |
| `XeSS.CreateOutputImagesStep` | src/video_core/renderer_vulkan/host_passes/xess_pass.cpp:455-494 | `CreateOutputImages` keeps the pass well formed |
| `XeSS.MotionVectorsCached` | src/video_core/renderer_vulkan/host_passes/xess_pass.cpp:504-552 | the dummy motion-vector texture ends up existing at the input size, and is left alone iff it already existed at that size |
| `XeSS.ExecuteStep` | src/video_core/renderer_vulkan/host_passes/xess_pass.cpp:246-261 | the executing part keeps the pass well formed and uses a slot in range |
| `XeSS.ExecuteStepSlots` | src/video_core/renderer_vulkan/host_passes/xess_pass.cpp:251-261 | at the recorded size, the slot under the cursor is used and rebuilt iff dirty; other slots are untouched; the cursor advances; the motion vectors are at the input size; the delta time is recorded; `frame_index` advances with `u32` wrap-around |
| `XeSS.RenderStep` | src/video_core/renderer_vulkan/host_passes/xess_pass.cpp:145-423 | `Render` keeps the pass well formed |
| `XeSS.RenderStepPassesThrough` | src/video_core/renderer_vulkan/host_passes/xess_pass.cpp:145-423 | disabled, unavailable, not upscaling, or no SDK: the color view is returned, `is_using_xess` is false, and nothing changes |
| `XeSS.RenderStepInit` | src/video_core/renderer_vulkan/host_passes/xess_pass.cpp:166-249 | a failed re-init clears `initialized_for_resolution` and passes through; otherwise the pass is initialised for the requested size and mode before executing, so the resize branch is dead |
| `XeSS.RenderStepExecutes` | src/video_core/renderer_vulkan/host_passes/xess_pass.cpp:251-417 | an executed frame uses the slot under the cursor, rebuilds it iff dirty, advances the cursor and `frame_index`, and sets `resetHistory` iff `reset` or the new index is 1; on execute failure the color view is returned with `is_using_xess` false, although cursor and index have advanced |
| `XeSS.FirstFrameResetsHistory` | src/video_core/renderer_vulkan/host_passes/xess_pass.cpp:261-381 | the first frame executed after `Create` always resets the history |
| `XeSS.RenderMany` | src/video_core/renderer_vulkan/host_passes/xess_pass.cpp:145-423 | a run of `Render` calls keeps the pass well formed and returns one view per call |
| `XeSS.WithoutSdkAlwaysPassesThrough` | src/video_core/renderer_vulkan/host_passes/xess_pass.cpp:117-122 | without the SDK every frame returns its own color view and the state never moves |
| `XeSS.BuiltAt1080` | src/video_core/renderer_vulkan/host_passes/xess_pass.cpp:199-254 | two successful 1920x1080 frames after `Create(2)` leave XeSS initialised for 1920x1080 in Balanced mode, both slots clean with 1920x1080 images, the cursor at slot 0, and the slots matching the recorded size |
| `XeSS.StaleOutputAfterResize` | src/video_core/renderer_vulkan/host_passes/xess_pass.cpp:199-254 | as written, a resolution change from 1920x1080 to 3840x2160 returns slot 0, which still holds a 1920x1080 image, and the slots no longer match the recorded size |
| `XeSS.RenderStepResizeFirst` | src/video_core/renderer_vulkan/host_passes/xess_pass.cpp:166-261 | `Render` with the size check made before re-initialisation keeps the pass well formed |
| `XeSS.ResizeStepMatches` | src/video_core/renderer_vulkan/host_passes/xess_pass.cpp:496-501 | after `ResizeOutput` every clean slot matches the recorded size, which is the new one |
| `XeSS.ResizeFirstKeepsSlotsMatching` | src/video_core/renderer_vulkan/host_passes/xess_pass.cpp:247-254 | with the size check first, clean slots always match the recorded size, and a returned slot holds an image of exactly the requested output size |
| `XeSS.XeSSPass.Create` | src/video_core/renderer_vulkan/host_passes/xess_pass.cpp:75-132 | the new pass is `Created(sdk, createOk, num_images)` |
| `XeSS.XeSSPass.ResizeOutput` | src/video_core/renderer_vulkan/host_passes/xess_pass.cpp:496-501 | the loop marks every slot dirty and records the size, as `ResizeStep` |
| `XeSS.XeSSPass.CreateOutputImages` | src/video_core/renderer_vulkan/host_passes/xess_pass.cpp:455-494 | the slot becomes clean with an image of the given size, as `CreateOutputImagesStep` |
| `XeSS.XeSSPass.CreateDummyMotionVectors` | src/video_core/renderer_vulkan/host_passes/xess_pass.cpp:504-552 | only the motion-vector texture changes, as `MotionVectorsStep` |
| `XeSS.XeSSPass.Execute` | src/video_core/renderer_vulkan/host_passes/xess_pass.cpp:246-261 | slot, rebuilt slots and new state are those of `ExecuteStep` |
| `XeSS.XeSSPass.Initialize` | src/video_core/renderer_vulkan/host_passes/xess_pass.cpp:166-201 | succeeds iff no init was needed or the SDK's init succeeded; success leaves the pass initialised for the size and mode; failure clears `initialized_for_resolution` only |
| `XeSS.XeSSPass.Render` | src/video_core/renderer_vulkan/host_passes/xess_pass.cpp:145-423 | view, `is_using_xess`, reset flag and new state are those of `RenderStep` |

## Left out

### Foreign calls and untracked state

- **Vulkan and SDK calls.** Object creation, descriptors, pipelines, barriers'
  stage and access masks, debug labels, VMA allocation, `memcpy` and flushes
  are foreign calls. NIS records its commands as events in a ghost trace; the
  other passes record only which slots they rebuild.
- **SDK results and the fence.** The XeSS, FidelityFX and ONNX results are
  boolean parameters, or are absent where the code is a stub. The fence status
  of `IsAsyncComplete` is a parameter.
- **`Destroy`.** The `Destroy` method of each pass is not modelled: it only
  releases foreign objects, and no modelled operation follows it.
- **`DepthEstimationPass::LoadModel`.** It is a logging stub and is never
  called, so `model_loaded` stays false.
- **XeSS translation tables and logging.** The SDK enum translations
  (`MapQualityMode`, `XeSSResultToString`), the logging-only expected-scale
  switch and the host-marker switch are not modelled. Neither are the execute
  parameters other than `resetHistory`.
- **Inputs that feed only the dispatch or the SDK.** Depth and motion-vector
  views, the `hdr` and sharpness settings, the FSR2 `delta_time` / `reset`,
  the images and formats, the velocity scale and the quality mode as the SDK
  sees it do not appear in the model.
- **`xess_pass.h`.** It declares a class `XessPass` whose members do not match
  the `XeSSPass` that `xess_pass.cpp` implements. The model takes its fields
  from their use in `xess_pass.cpp`, with these defaults:
  - `initialized_for_resolution` false;
  - size 0x0;
  - quality mode Balanced;
  - cursor and `frame_index` 0;
  - each slot dirty.

  The header's jitter functions are not defined in any file here, so they are
  not part of this model. The declaration of `frame_index` is not part of this
  model either; it is taken to be a `u32` and wraps at 2^32. The quality modes
  are the six that `GetRenderResolution` switches on; any other value of the
  enum (the header's `UltraQualityPlus`, for one) takes the `default:` branch
  and renders at scale 1.0 (xess_pass.cpp:425-453), which the model does not
  represent as a separate mode.
- **Unexecuted FidelityFX code.** The FidelityFX contexts of FSR2 and optical
  flow are commented out, so no dispatch is modelled for them.
- **`DebugState`.** This global is modelled as a field of the pass (NIS) or as
  part of the frame result (XeSS).
- **Slots in use by the GPU.** Reusing a ring slot while the GPU may still be
  reading it concerns frames in flight and is not modelled.
- **The `nis.comp` shader.** Its per-pixel filtering is not part of this model.

### Arithmetic

- **Float rounding.** `float` arithmetic is exact `real` arithmetic: the
  rounding of the decimal constants and of `kScaleX` / `kScaleY` is not
  modelled, and neither is the rounding of a `u32` converted to `float`.
- **`NisConfig.Reciprocal`.** It stores 0 where the C++ `1.f / 0` produces
  infinity. That happens for a zero texture extent behind a non-zero viewport
  extent.
- **`NisConfig.ScalerUpdateConfigRanges`.** For 0.5 and 1 it states positivity
  and ranges, not the rounded float values.
- `Fsr2.GetRenderResolution` and `XeSS.GetRenderResolution` divide exactly by
  the decimal divisors. The C++ converts the extent to `float`, divides in
  single precision and truncates. In the binary32 format of IEEE 754 the two
  agree for every extent below 1,363,150 in XeSS UltraQuality, below 3,565,160
  in Balanced, below 12,582,913 in Quality and below 2^24 in the other modes. Above those bounds the C++ result can be one
  larger than the model's.
- `NisHostPass.DispatchGrid` is exact only for output widths of at most
  2^32 - 32 and heights of at most 2^32 - 24. The source adds 31 (or 23) in
  `u32` before dividing, which wraps above those bounds; the model adds
  without wrapping.
- **`Fsr2.GetJitterOffset`.** The result is exact `real` arithmetic, not the
  rounded single-precision result of the loop.

### Deliberately narrowed preconditions

- **`XeSS.Created` and `XeSS.XeSSPass.Create`.** Both require at least one
  image. With zero images the C++ `Render` would take a remainder by zero, so
  the model keeps the ring non-empty.
- **`NisHostPass.RenderStep` and `NisHostPass.NisPass.Render`.** Both require
  at least one slot on the upscaling path, where the C++ code indexes
  `available_imgs[cur_image]`.
- **`DepthEstimation.CreateImagesStep`.** It requires a created (two-slot)
  ring. Its only caller reaches it after `Create`, because the pass is never
  available before `Create`.
- **`NisHostPass.NisPass.Create`, `Fsr2.Fsr2Pass.Create`, `OpticalFlow.OpticalFlowPass.Create` and `XeSS.XeSSPass.Create`.**
  These constructors build a fresh object; calling `Create` a second time on a
  live object is not modelled. `DepthEstimation.DepthEstimationPass.Create` is
  the exception: it is a method on an existing object, because the depth pass
  has an observable state before `Create` (its empty ring).

## Findings

| source | as written | input that shows it | evidently intended | confidence | as-written member | corrected member |
|---|---|---|---|---|---|---|
| src/video_core/renderer_vulkan/host_passes/xess_pass.cpp:199-254 | a successful re-initialisation stores the new `output_size` in `current_output_size` before the "resize output if needed" check, so that check never fires and no slot is marked dirty on a resolution change | `Create(2)` with the SDK, two 1920x1080 frames from a 1280x720 input, then `Render` to 3840x2160 with a successful init: slot 0, still holding a 1920x1080 image, is returned as the 3840x2160 output | a resolution change marks every output slot dirty, so the returned slot always holds an image of the requested output size | high (not executed) | `XeSS.StaleOutputAfterResize` | `XeSS.ResizeFirstKeepsSlotsMatching` |

The class `XeSS.XeSSPass` and the lemmas about `XeSS.RenderStep` follow the
code as written. `XeSS.RenderStepResizeFirst` is the corrected frame. It makes
the size check against the size recorded before re-initialisation, and
`XeSS.ResizeFirstKeepsSlotsMatching` proves the intended property about it.

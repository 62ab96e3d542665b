// The fixed polyphase filter bank of NIS_Config.h: 64 phases of 8 taps for
// the scaling kernel (`coef_scale`) and the unsharp-mask kernel (`coef_usm`),
// and the staging-buffer / texture layout NisPass uploads them in.

module NisCoefficients {

  const PhaseCount: nat := 64
  const FilterSize: nat := 8

  /** One phase of a kernel: taps 0 to 7. */
  datatype Row = Row(t0: real, t1: real, t2: real, t3: real, t4: real, t5: real, t6: real, t7: real)

  /** `coef[phase][tap]`. */
  function Tap(r: Row, tap: nat): real
    requires tap < FilterSize
  {
    match tap
    case 0 => r.t0
    case 1 => r.t1
    case 2 => r.t2
    case 3 => r.t3
    case 4 => r.t4
    case 5 => r.t5
    case 6 => r.t6
    case 7 => r.t7
  }

  function RowSum(r: Row): real
  {
    r.t0 + r.t1 + r.t2 + r.t3 + r.t4 + r.t5 + r.t6 + r.t7
  }

  /** `coef_scale`. */
  function CoefScale(phase: nat): Row
    requires phase < PhaseCount
  {
    match phase
    case 0 => Row(0.0, 0.0, 1.0000, 0.0, 0.0, 0.0, 0.0, 0.0)
    case 1 => Row(0.0029, -0.0127, 1.0000, 0.0132, -0.0034, 0.0, 0.0, 0.0)
    case 2 => Row(0.0063, -0.0249, 0.9985, 0.0269, -0.0068, 0.0, 0.0, 0.0)
    case 3 => Row(0.0088, -0.0361, 0.9956, 0.0415, -0.0103, 0.0005, 0.0, 0.0)
    case 4 => Row(0.0117, -0.0474, 0.9932, 0.0562, -0.0142, 0.0005, 0.0, 0.0)
    case 5 => Row(0.0142, -0.0576, 0.9897, 0.0713, -0.0181, 0.0005, 0.0, 0.0)
    case 6 => Row(0.0166, -0.0674, 0.9844, 0.0874, -0.0220, 0.0010, 0.0, 0.0)
    case 7 => Row(0.0186, -0.0762, 0.9785, 0.1040, -0.0264, 0.0015, 0.0, 0.0)
    case 8 => Row(0.0205, -0.0850, 0.9727, 0.1206, -0.0308, 0.0020, 0.0, 0.0)
    case 9 => Row(0.0225, -0.0928, 0.9648, 0.1382, -0.0352, 0.0024, 0.0, 0.0)
    case 10 => Row(0.0239, -0.1006, 0.9575, 0.1558, -0.0396, 0.0029, 0.0, 0.0)
    case 11 => Row(0.0254, -0.1074, 0.9487, 0.1738, -0.0439, 0.0034, 0.0, 0.0)
    case 12 => Row(0.0264, -0.1138, 0.9390, 0.1929, -0.0488, 0.0044, 0.0, 0.0)
    case 13 => Row(0.0278, -0.1191, 0.9282, 0.2119, -0.0537, 0.0049, 0.0, 0.0)
    case 14 => Row(0.0288, -0.1245, 0.9170, 0.2310, -0.0581, 0.0059, 0.0, 0.0)
    case 15 => Row(0.0293, -0.1294, 0.9058, 0.2510, -0.0630, 0.0063, 0.0, 0.0)
    case 16 => Row(0.0303, -0.1333, 0.8926, 0.2710, -0.0679, 0.0073, 0.0, 0.0)
    case 17 => Row(0.0308, -0.1367, 0.8789, 0.2915, -0.0728, 0.0083, 0.0, 0.0)
    case 18 => Row(0.0308, -0.1401, 0.8657, 0.3120, -0.0776, 0.0093, 0.0, 0.0)
    case 19 => Row(0.0313, -0.1426, 0.8506, 0.3330, -0.0825, 0.0103, 0.0, 0.0)
    case 20 => Row(0.0313, -0.1445, 0.8354, 0.3540, -0.0874, 0.0112, 0.0, 0.0)
    case 21 => Row(0.0313, -0.1460, 0.8193, 0.3755, -0.0923, 0.0122, 0.0, 0.0)
    case 22 => Row(0.0313, -0.1470, 0.8022, 0.3965, -0.0967, 0.0137, 0.0, 0.0)
    case 23 => Row(0.0308, -0.1479, 0.7856, 0.4185, -0.1016, 0.0146, 0.0, 0.0)
    case 24 => Row(0.0303, -0.1479, 0.7681, 0.4399, -0.1060, 0.0156, 0.0, 0.0)
    case 25 => Row(0.0298, -0.1479, 0.7505, 0.4614, -0.1104, 0.0166, 0.0, 0.0)
    case 26 => Row(0.0293, -0.1470, 0.7314, 0.4829, -0.1147, 0.0181, 0.0, 0.0)
    case 27 => Row(0.0288, -0.1460, 0.7119, 0.5049, -0.1187, 0.0190, 0.0, 0.0)
    case 28 => Row(0.0278, -0.1445, 0.6929, 0.5264, -0.1226, 0.0200, 0.0, 0.0)
    case 29 => Row(0.0273, -0.1431, 0.6724, 0.5479, -0.1260, 0.0215, 0.0, 0.0)
    case 30 => Row(0.0264, -0.1411, 0.6528, 0.5693, -0.1299, 0.0225, 0.0, 0.0)
    case 31 => Row(0.0254, -0.1387, 0.6323, 0.5903, -0.1328, 0.0234, 0.0, 0.0)
    case 32 => Row(0.0244, -0.1357, 0.6113, 0.6113, -0.1357, 0.0244, 0.0, 0.0)
    case 33 => Row(0.0234, -0.1328, 0.5903, 0.6323, -0.1387, 0.0254, 0.0, 0.0)
    case 34 => Row(0.0225, -0.1299, 0.5693, 0.6528, -0.1411, 0.0264, 0.0, 0.0)
    case 35 => Row(0.0215, -0.1260, 0.5479, 0.6724, -0.1431, 0.0273, 0.0, 0.0)
    case 36 => Row(0.0200, -0.1226, 0.5264, 0.6929, -0.1445, 0.0278, 0.0, 0.0)
    case 37 => Row(0.0190, -0.1187, 0.5049, 0.7119, -0.1460, 0.0288, 0.0, 0.0)
    case 38 => Row(0.0181, -0.1147, 0.4829, 0.7314, -0.1470, 0.0293, 0.0, 0.0)
    case 39 => Row(0.0166, -0.1104, 0.4614, 0.7505, -0.1479, 0.0298, 0.0, 0.0)
    case 40 => Row(0.0156, -0.1060, 0.4399, 0.7681, -0.1479, 0.0303, 0.0, 0.0)
    case 41 => Row(0.0146, -0.1016, 0.4185, 0.7856, -0.1479, 0.0308, 0.0, 0.0)
    case 42 => Row(0.0137, -0.0967, 0.3965, 0.8022, -0.1470, 0.0313, 0.0, 0.0)
    case 43 => Row(0.0122, -0.0923, 0.3755, 0.8193, -0.1460, 0.0313, 0.0, 0.0)
    case 44 => Row(0.0112, -0.0874, 0.3540, 0.8354, -0.1445, 0.0313, 0.0, 0.0)
    case 45 => Row(0.0103, -0.0825, 0.3330, 0.8506, -0.1426, 0.0313, 0.0, 0.0)
    case 46 => Row(0.0093, -0.0776, 0.3120, 0.8657, -0.1401, 0.0308, 0.0, 0.0)
    case 47 => Row(0.0083, -0.0728, 0.2915, 0.8789, -0.1367, 0.0308, 0.0, 0.0)
    case 48 => Row(0.0073, -0.0679, 0.2710, 0.8926, -0.1333, 0.0303, 0.0, 0.0)
    case 49 => Row(0.0063, -0.0630, 0.2510, 0.9058, -0.1294, 0.0293, 0.0, 0.0)
    case 50 => Row(0.0059, -0.0581, 0.2310, 0.9170, -0.1245, 0.0288, 0.0, 0.0)
    case 51 => Row(0.0049, -0.0537, 0.2119, 0.9282, -0.1191, 0.0278, 0.0, 0.0)
    case 52 => Row(0.0044, -0.0488, 0.1929, 0.9390, -0.1138, 0.0264, 0.0, 0.0)
    case 53 => Row(0.0034, -0.0439, 0.1738, 0.9487, -0.1074, 0.0254, 0.0, 0.0)
    case 54 => Row(0.0029, -0.0396, 0.1558, 0.9575, -0.1006, 0.0239, 0.0, 0.0)
    case 55 => Row(0.0024, -0.0352, 0.1382, 0.9648, -0.0928, 0.0225, 0.0, 0.0)
    case 56 => Row(0.0020, -0.0308, 0.1206, 0.9727, -0.0850, 0.0205, 0.0, 0.0)
    case 57 => Row(0.0015, -0.0264, 0.1040, 0.9785, -0.0762, 0.0186, 0.0, 0.0)
    case 58 => Row(0.0010, -0.0220, 0.0874, 0.9844, -0.0674, 0.0166, 0.0, 0.0)
    case 59 => Row(0.0005, -0.0181, 0.0713, 0.9897, -0.0576, 0.0142, 0.0, 0.0)
    case 60 => Row(0.0005, -0.0142, 0.0562, 0.9932, -0.0474, 0.0117, 0.0, 0.0)
    case 61 => Row(0.0005, -0.0103, 0.0415, 0.9956, -0.0361, 0.0088, 0.0, 0.0)
    case 62 => Row(0.0, -0.0068, 0.0269, 0.9985, -0.0249, 0.0063, 0.0, 0.0)
    case 63 => Row(0.0, -0.0034, 0.0132, 1.0000, -0.0127, 0.0029, 0.0, 0.0)
  }

  /** `coef_usm`. */
  function CoefUsm(phase: nat): Row
    requires phase < PhaseCount
  {
    match phase
    case 0 => Row(0.0, -0.6001, 1.2002, -0.6001, 0.0, 0.0, 0.0, 0.0)
    case 1 => Row(0.0029, -0.6084, 1.1987, -0.5903, -0.0029, 0.0, 0.0, 0.0)
    case 2 => Row(0.0049, -0.6147, 1.1958, -0.5791, -0.0068, 0.0005, 0.0, 0.0)
    case 3 => Row(0.0073, -0.6196, 1.1890, -0.5659, -0.0103, 0.0, 0.0, 0.0)
    case 4 => Row(0.0093, -0.6235, 1.1802, -0.5513, -0.0151, 0.0, 0.0, 0.0)
    case 5 => Row(0.0112, -0.6265, 1.1699, -0.5352, -0.0195, 0.0005, 0.0, 0.0)
    case 6 => Row(0.0122, -0.6270, 1.1582, -0.5181, -0.0259, 0.0005, 0.0, 0.0)
    case 7 => Row(0.0142, -0.6284, 1.1455, -0.5005, -0.0317, 0.0005, 0.0, 0.0)
    case 8 => Row(0.0156, -0.6265, 1.1274, -0.4790, -0.0386, 0.0005, 0.0, 0.0)
    case 9 => Row(0.0166, -0.6235, 1.1089, -0.4570, -0.0454, 0.0010, 0.0, 0.0)
    case 10 => Row(0.0176, -0.6187, 1.0879, -0.4346, -0.0532, 0.0010, 0.0, 0.0)
    case 11 => Row(0.0181, -0.6138, 1.0659, -0.4102, -0.0615, 0.0015, 0.0, 0.0)
    case 12 => Row(0.0190, -0.6069, 1.0405, -0.3843, -0.0698, 0.0015, 0.0, 0.0)
    case 13 => Row(0.0195, -0.6006, 1.0161, -0.3574, -0.0796, 0.0020, 0.0, 0.0)
    case 14 => Row(0.0200, -0.5928, 0.9893, -0.3286, -0.0898, 0.0024, 0.0, 0.0)
    case 15 => Row(0.0200, -0.5820, 0.9580, -0.2988, -0.1001, 0.0029, 0.0, 0.0)
    case 16 => Row(0.0200, -0.5728, 0.9292, -0.2690, -0.1104, 0.0034, 0.0, 0.0)
    case 17 => Row(0.0200, -0.5620, 0.8975, -0.2368, -0.1226, 0.0039, 0.0, 0.0)
    case 18 => Row(0.0205, -0.5498, 0.8643, -0.2046, -0.1343, 0.0044, 0.0, 0.0)
    case 19 => Row(0.0200, -0.5371, 0.8301, -0.1709, -0.1465, 0.0049, 0.0, 0.0)
    case 20 => Row(0.0195, -0.5239, 0.7944, -0.1367, -0.1587, 0.0054, 0.0, 0.0)
    case 21 => Row(0.0195, -0.5107, 0.7598, -0.1021, -0.1724, 0.0059, 0.0, 0.0)
    case 22 => Row(0.0190, -0.4966, 0.7231, -0.0649, -0.1865, 0.0063, 0.0, 0.0)
    case 23 => Row(0.0186, -0.4819, 0.6846, -0.0288, -0.1997, 0.0068, 0.0, 0.0)
    case 24 => Row(0.0186, -0.4668, 0.6460, 0.0093, -0.2144, 0.0073, 0.0, 0.0)
    case 25 => Row(0.0176, -0.4507, 0.6055, 0.0479, -0.2290, 0.0083, 0.0, 0.0)
    case 26 => Row(0.0171, -0.4370, 0.5693, 0.0859, -0.2446, 0.0088, 0.0, 0.0)
    case 27 => Row(0.0161, -0.4199, 0.5283, 0.1255, -0.2598, 0.0098, 0.0, 0.0)
    case 28 => Row(0.0161, -0.4048, 0.4883, 0.1655, -0.2754, 0.0103, 0.0, 0.0)
    case 29 => Row(0.0151, -0.3887, 0.4497, 0.2041, -0.2910, 0.0107, 0.0, 0.0)
    case 30 => Row(0.0142, -0.3711, 0.4072, 0.2446, -0.3066, 0.0117, 0.0, 0.0)
    case 31 => Row(0.0137, -0.3555, 0.3672, 0.2852, -0.3228, 0.0122, 0.0, 0.0)
    case 32 => Row(0.0132, -0.3394, 0.3262, 0.3262, -0.3394, 0.0132, 0.0, 0.0)
    case 33 => Row(0.0122, -0.3228, 0.2852, 0.3672, -0.3555, 0.0137, 0.0, 0.0)
    case 34 => Row(0.0117, -0.3066, 0.2446, 0.4072, -0.3711, 0.0142, 0.0, 0.0)
    case 35 => Row(0.0107, -0.2910, 0.2041, 0.4497, -0.3887, 0.0151, 0.0, 0.0)
    case 36 => Row(0.0103, -0.2754, 0.1655, 0.4883, -0.4048, 0.0161, 0.0, 0.0)
    case 37 => Row(0.0098, -0.2598, 0.1255, 0.5283, -0.4199, 0.0161, 0.0, 0.0)
    case 38 => Row(0.0088, -0.2446, 0.0859, 0.5693, -0.4370, 0.0171, 0.0, 0.0)
    case 39 => Row(0.0083, -0.2290, 0.0479, 0.6055, -0.4507, 0.0176, 0.0, 0.0)
    case 40 => Row(0.0073, -0.2144, 0.0093, 0.6460, -0.4668, 0.0186, 0.0, 0.0)
    case 41 => Row(0.0068, -0.1997, -0.0288, 0.6846, -0.4819, 0.0186, 0.0, 0.0)
    case 42 => Row(0.0063, -0.1865, -0.0649, 0.7231, -0.4966, 0.0190, 0.0, 0.0)
    case 43 => Row(0.0059, -0.1724, -0.1021, 0.7598, -0.5107, 0.0195, 0.0, 0.0)
    case 44 => Row(0.0054, -0.1587, -0.1367, 0.7944, -0.5239, 0.0195, 0.0, 0.0)
    case 45 => Row(0.0049, -0.1465, -0.1709, 0.8301, -0.5371, 0.0200, 0.0, 0.0)
    case 46 => Row(0.0044, -0.1343, -0.2046, 0.8643, -0.5498, 0.0205, 0.0, 0.0)
    case 47 => Row(0.0039, -0.1226, -0.2368, 0.8975, -0.5620, 0.0200, 0.0, 0.0)
    case 48 => Row(0.0034, -0.1104, -0.2690, 0.9292, -0.5728, 0.0200, 0.0, 0.0)
    case 49 => Row(0.0029, -0.1001, -0.2988, 0.9580, -0.5820, 0.0200, 0.0, 0.0)
    case 50 => Row(0.0024, -0.0898, -0.3286, 0.9893, -0.5928, 0.0200, 0.0, 0.0)
    case 51 => Row(0.0020, -0.0796, -0.3574, 1.0161, -0.6006, 0.0195, 0.0, 0.0)
    case 52 => Row(0.0015, -0.0698, -0.3843, 1.0405, -0.6069, 0.0190, 0.0, 0.0)
    case 53 => Row(0.0015, -0.0615, -0.4102, 1.0659, -0.6138, 0.0181, 0.0, 0.0)
    case 54 => Row(0.0010, -0.0532, -0.4346, 1.0879, -0.6187, 0.0176, 0.0, 0.0)
    case 55 => Row(0.0010, -0.0454, -0.4570, 1.1089, -0.6235, 0.0166, 0.0, 0.0)
    case 56 => Row(0.0005, -0.0386, -0.4790, 1.1274, -0.6265, 0.0156, 0.0, 0.0)
    case 57 => Row(0.0005, -0.0317, -0.5005, 1.1455, -0.6284, 0.0142, 0.0, 0.0)
    case 58 => Row(0.0005, -0.0259, -0.5181, 1.1582, -0.6270, 0.0122, 0.0, 0.0)
    case 59 => Row(0.0005, -0.0195, -0.5352, 1.1699, -0.6265, 0.0112, 0.0, 0.0)
    case 60 => Row(0.0, -0.0151, -0.5513, 1.1802, -0.6235, 0.0093, 0.0, 0.0)
    case 61 => Row(0.0, -0.0103, -0.5659, 1.1890, -0.6196, 0.0073, 0.0, 0.0)
    case 62 => Row(0.0005, -0.0068, -0.5791, 1.1958, -0.6147, 0.0049, 0.0, 0.0)
    case 63 => Row(0.0, -0.0029, -0.5903, 1.1987, -0.6084, 0.0029, 0.0, 0.0)
  }

  datatype Kernel = Scale | Usm

  function Coef(k: Kernel, phase: nat): Row
    requires phase < PhaseCount
  {
    match k
    case Scale => CoefScale(phase)
    case Usm => CoefUsm(phase)
  }

  /** Taps 6 and 7 are zero and the taps sum to `target` within 1e-3. */
  predicate RowShaped(r: Row, target: real)
  {
    r.t6 == 0.0 && r.t7 == 0.0 && -0.001 <= RowSum(r) - target <= 0.001
  }

  /** Phase `64 - phase` is `phase` with taps 0..5 reversed. */
  predicate MirrorAt(k: Kernel, phase: nat)
    requires 1 <= phase < PhaseCount
  {
    var a, b := Coef(k, PhaseCount - phase), Coef(k, phase);
    a.t0 == b.t5 && a.t1 == b.t4 && a.t2 == b.t3 && a.t3 == b.t2 && a.t4 == b.t1 && a.t5 == b.t0
  }

  /** Phase 0 of the scaling kernel is the identity filter on tap 2. */
  lemma ScalePhaseZeroIsIdentity()
    ensures CoefScale(0) == Row(0.0, 0.0, 1.0, 0.0, 0.0, 0.0, 0.0, 0.0)
  {
  }

  /** Every scaling phase interpolates: its taps sum to 1 within 1e-3. */
  lemma ScaleRowsShaped()
    ensures forall p :: 0 <= p < PhaseCount ==> RowShaped(CoefScale(p), 1.0)
  {
  }

  /** Every unsharp-mask phase is a pure detail filter: its taps sum to 0 within 1e-3. */
  lemma UsmRowsShaped()
    ensures forall p :: 0 <= p < PhaseCount ==> RowShaped(CoefUsm(p), 0.0)
  {
  }

  /** Mirror symmetry of `coef_scale`, checked a quarter of the phases at a time. */
  lemma ScaleMirroredLow()
    ensures forall p :: 1 <= p < 17 ==> MirrorAt(Scale, p)
  {
  }

  lemma ScaleMirroredMidLow()
    ensures forall p :: 17 <= p < 33 ==> MirrorAt(Scale, p)
  {
  }

  lemma ScaleMirroredMidHigh()
    ensures forall p :: 33 <= p < 49 ==> MirrorAt(Scale, p)
  {
  }

  lemma ScaleMirroredHigh()
    ensures forall p :: 49 <= p < PhaseCount ==> MirrorAt(Scale, p)
  {
  }

  /** For k in 1..63, phase 64 - k of `coef_scale` is phase k with taps 0..5 reversed. */
  lemma ScaleMirrored()
    ensures forall p :: 1 <= p < PhaseCount ==> MirrorAt(Scale, p)
  {
    ScaleMirroredLow();
    ScaleMirroredMidLow();
    ScaleMirroredMidHigh();
    ScaleMirroredHigh();
  }

  /** Mirror symmetry of `coef_usm`, checked a quarter of the phases at a time. */
  lemma UsmMirroredLow()
    ensures forall p :: 1 <= p < 17 ==> MirrorAt(Usm, p)
  {
  }

  lemma UsmMirroredMidLow()
    ensures forall p :: 17 <= p < 33 ==> MirrorAt(Usm, p)
  {
  }

  lemma UsmMirroredMidHigh()
    ensures forall p :: 33 <= p < 49 ==> MirrorAt(Usm, p)
  {
  }

  lemma UsmMirroredHigh()
    ensures forall p :: 49 <= p < PhaseCount ==> MirrorAt(Usm, p)
  {
  }

  /** For k in 1..63, phase 64 - k of `coef_usm` is phase k with taps 0..5 reversed. */
  lemma UsmMirrored()
    ensures forall p :: 1 <= p < PhaseCount ==> MirrorAt(Usm, p)
  {
    UsmMirroredLow();
    UsmMirroredMidLow();
    UsmMirroredMidHigh();
    UsmMirroredHigh();
  }

  /** The eight taps of a phase, in memory order. */
  function Taps(r: Row): (s: seq<real>)
    ensures |s| == FilterSize
    ensures forall t :: 0 <= t < FilterSize ==> s[t] == Tap(r, t)
  {
    [r.t0, r.t1, r.t2, r.t3, r.t4, r.t5, r.t6, r.t7]
  }

  /** The kernel as the C array `coef[kPhaseCount]` of rows. */
  function Table(k: Kernel): (rows: seq<Row>)
    ensures |rows| == PhaseCount
    ensures forall p :: 0 <= p < PhaseCount ==> rows[p] == Coef(k, p)
  {
    seq(PhaseCount, p requires 0 <= p < PhaseCount => Coef(k, p))
  }

  /** Rows laid out one after another, as `memcpy` copies a `float[][8]`. */
  function FlattenRows(rows: seq<Row>): (s: seq<real>)
    ensures |s| == |rows| * FilterSize
  {
    if rows == [] then [] else Taps(rows[0]) + FlattenRows(rows[1..])
  }

  function Flatten(k: Kernel): seq<real>
  {
    FlattenRows(Table(k))
  }

  /** Float offset of a kernel in the staging buffer: `coef_scale` first,
      `coef_usm` right after it (`bufferOffset = coef_data_size`). */
  function StagingOffset(k: Kernel): nat
  {
    match k
    case Scale => 0
    case Usm => PhaseCount * FilterSize
  }

  /** The staging buffer `UploadCoefficients` fills: both tables back to back. */
  function StagingBuffer(): (s: seq<real>)
    ensures |s| == 2 * PhaseCount * FilterSize
  {
    Flatten(Scale) + Flatten(Usm)
  }

  lemma {:induction false} FlattenRowsIndex(rows: seq<Row>, q: nat, t: nat)
    requires q < |rows| && t < FilterSize
    ensures FlattenRows(rows)[q * FilterSize + t] == Tap(rows[q], t)
  {
    var head, rest := Taps(rows[0]), FlattenRows(rows[1..]);
    assert FlattenRows(rows) == head + rest;
    if q > 0 {
      var j := (q - 1) * FilterSize + t;
      FlattenRowsIndex(rows[1..], q - 1, t);
      assert q * FilterSize + t == FilterSize + j;
      assert (head + rest)[FilterSize + j] == rest[j];
    }
  }

  /** Row-major layout: float `8 * phase + tap` of a flattened kernel is `coef[phase][tap]`. */
  lemma FlattenIndex(k: Kernel, phase: nat, tap: nat)
    requires phase < PhaseCount && tap < FilterSize
    ensures Flatten(k)[phase * FilterSize + tap] == Tap(Coef(k, phase), tap)
  {
    FlattenRowsIndex(Table(k), phase, tap);
  }

  /** Channel `c` of texel (x, y) of a tightly packed 2-texel-wide RGBA32F
      image copied from `buffer` at float offset `offset`. */
  function CopiedTexel(buffer: seq<real>, offset: nat, x: nat, y: nat, c: nat): real
    requires x < FilterSize / 4 && y < PhaseCount && c < 4
    requires offset + PhaseCount * FilterSize <= |buffer|
  {
    buffer[offset + (y * (FilterSize / 4) + x) * 4 + c]
  }

  lemma TexelOffset(x: nat, y: nat, c: nat)
    ensures (y * (FilterSize / 4) + x) * 4 + c == y * FilterSize + (4 * x + c)
  {
  }

  /** The layout argument for any two tables of equal height placed back to back. */
  lemma {:induction false} BackToBackLayout(first: seq<Row>, second: seq<Row>, useSecond: bool, x: nat, y: nat, c: nat)
    requires |first| == |second| == PhaseCount
    requires x < FilterSize / 4 && y < PhaseCount && c < 4
    ensures var buffer, offset := FlattenRows(first) + FlattenRows(second), if useSecond then PhaseCount * FilterSize else 0;
      && offset + PhaseCount * FilterSize <= |buffer|
      && CopiedTexel(buffer, offset, x, y, c) == Tap(if useSecond then second[y] else first[y], 4 * x + c)
  {
    var a, b := FlattenRows(first), FlattenRows(second);
    var i := y * FilterSize + (4 * x + c);
    TexelOffset(x, y, c);
    if useSecond {
      FlattenRowsIndex(second, y, 4 * x + c);
      assert (a + b)[|a| + i] == b[i];
    } else {
      FlattenRowsIndex(first, y, 4 * x + c);
      assert (a + b)[i] == a[i];
    }
  }

  /** Each coefficient image, copied from its offset in the staging buffer,
      holds coef[y][4x + c] in channel c of texel (x, y). */
  lemma CoefficientImageLayout(k: Kernel, x: nat, y: nat, c: nat)
    requires x < FilterSize / 4 && y < PhaseCount && c < 4
    ensures StagingOffset(k) + PhaseCount * FilterSize <= |StagingBuffer()|
    ensures CopiedTexel(StagingBuffer(), StagingOffset(k), x, y, c) == Tap(Coef(k, y), 4 * x + c)
  {
    BackToBackLayout(Table(Scale), Table(Usm), k == Usm, x, y, c);
  }
}

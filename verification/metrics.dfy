/** `calculate_metrics`: the ten per-structure values of one case.

    The surface-distance library (Dice coefficient, surface distances,
    robust Hausdorff distance, average surface distance) is not part of
    this model: a `Measure` stands for it and returns its results for a
    (gold mask, predicted mask) pair at the fixed voxel spacing 1 x 1 x 1.
    What the scorer itself computes from the volumes, the masks, the voxel
    counts, the relative volume errors and the rounding, is modelled. */
module Metrics {
  import opened Outcomes
  import opened Values
  import opened Labels

  /** What the surface-distance library reports for one mask pair. */
  datatype Overlap = Overlap(
    dice: Value,
    hausdorff: Value,    // robust Hausdorff distance at percentile 100
    hausdorff95: Value,  // robust Hausdorff distance at percentile 95
    predToGold: Value,   // the two directed average surface distances, in the
    goldToPred: Value)   // library's order: the scorer passes the prediction first

  type Measure = (Mask, Mask) -> Overlap

  /** The five values of one structure, in the order the scorer reports. */
  datatype SideScores = SideScores(dsc: Value, hd: Value, hd95: Value, assd: Value, rve: Value)

  datatype RawMetrics = RawMetrics(left: SideScores, right: SideScores)

  /** Which predicted volume the right relative volume error uses: the
      scorer as written sums the whole prediction volume; the corrected
      variant counts the right-label voxels, like the left side does. */
  datatype Convention = AsWritten | Corrected

  function Abs(n: int): nat {
    if n < 0 then -n else n
  }

  /** `abs((pred - gold) / gold)` on numpy scalars: a zero gold volume gives
      NaN (zero over zero) or infinity instead of an exception. The error is
      zero exactly when the two volumes agree. */
  function Rve(predVolume: int, goldVolume: nat): (r: Value)
    ensures goldVolume > 0 ==> r.Fin? && r.x >= 0.0
    ensures goldVolume > 0 ==> (r.x == 0.0 <==> predVolume == goldVolume)
    ensures goldVolume == 0 ==> (r.NaN? <==> predVolume == 0) && (r.Inf? <==> predVolume != 0)
  {
    if goldVolume == 0 then
      (if predVolume == 0 then NaN else Inf)
    else
      Fin(Abs(predVolume - goldVolume) as real / goldVolume as real)
  }

  /** `np.mean` of the two directed average surface distances. */
  function Assd(o: Overlap): Value {
    Midpoint(o.predToGold, o.goldToPred)
  }

  /** The predicted volume the right relative volume error is taken of. */
  function RightPredictedVolume(conv: Convention, pred: Grid): int {
    match conv
    case AsWritten => Sum(pred)
    case Corrected => VoxelCount(pred, RightLabel)
  }

  /** The four library values of one structure, each rounded to 3 decimals. */
  function RoundedSide(o: Overlap, rve: Value): SideScores {
    SideScores(RoundValue3(o.dice), RoundValue3(o.hausdorff), RoundValue3(o.hausdorff95),
               RoundValue3(Assd(o)), rve)
  }

  /** Nine values carry at most 3 decimals (or are not finite); the right
      relative volume error is a finite whole number. */
  predicate RoundingLayout(m: RawMetrics) {
    && LibraryRounded(m.left) && Rounded3(m.left.rve)
    && LibraryRounded(m.right)
    && m.right.rve.Fin? && IsInteger(m.right.rve.x) && m.right.rve.x >= 0.0
  }

  /** A finite value has at most 3 decimals. */
  predicate Rounded3(v: Value) {
    v.Fin? ==> HasThreeDecimals(v.x)
  }

  /** The four library values of a side are rounded to 3 decimals. */
  predicate LibraryRounded(s: SideScores) {
    Rounded3(s.dsc) && Rounded3(s.hd) && Rounded3(s.hd95) && Rounded3(s.assd)
  }

  function CalculateMetrics(gold: Grid, pred: Grid, measure: Measure, conv: Convention): (r: Result<RawMetrics>)
    // the run fails exactly when the gold volume has no right voxel
    ensures r.Ok? <==> VoxelCount(gold, RightLabel) > 0
    ensures r.Err? ==> r.error == (if RightPredictedVolume(conv, pred) == 0 then ValueError else OverflowError)
    ensures r.Ok? ==> RoundingLayout(r.value)
    // the library's results reach the row rounded to 3 decimals
    ensures r.Ok? ==> r.value.left == RoundedSide(measure(MaskOf(gold, LeftLabel), MaskOf(pred, LeftLabel)), r.value.left.rve)
    ensures r.Ok? ==> r.value.right == RoundedSide(measure(MaskOf(gold, RightLabel), MaskOf(pred, RightLabel)), r.value.right.rve)
    // the relative volume errors
    ensures r.Ok? ==> r.value.left.rve == RoundValue3(Rve(VoxelCount(pred, LeftLabel), VoxelCount(gold, LeftLabel)))
    ensures r.Ok? ==> -0.5 <= r.value.right.rve.x - Rve(RightPredictedVolume(conv, pred), VoxelCount(gold, RightLabel)).x <= 0.5
    ensures r.Ok? && VoxelCount(gold, LeftLabel) == VoxelCount(pred, LeftLabel) > 0 ==> r.value.left.rve == Fin(0.0)
    ensures r.Ok? && RightPredictedVolume(conv, pred) == VoxelCount(gold, RightLabel) ==> r.value.right.rve == Fin(0.0)
  {
    var goldL, predL := MaskOf(gold, LeftLabel), MaskOf(pred, LeftLabel);
    var goldR, predR := MaskOf(gold, RightLabel), MaskOf(pred, RightLabel);
    var rveL := Rve(Count(predL), Count(goldL));
    var rveR := Rve(RightPredictedVolume(conv, pred), Count(goldR));
    var roundedR :- RoundWhole(rveR);
    Ok(RawMetrics(RoundedSide(measure(goldL, predL), RoundValue3(rveL)),
                  RoundedSide(measure(goldR, predR), roundedR)))
  }

  /** As written, the right predicted volume of a 0/1/2 volume counts every
      left voxel once and every right voxel twice. */
  lemma RightVolumeAsWritten(pred: Grid)
    requires IsLabelGrid(pred)
    ensures RightPredictedVolume(AsWritten, pred) == VoxelCount(pred, LeftLabel) + 2 * VoxelCount(pred, RightLabel)
  {
    SumOfLabelGrid(pred);
  }

  lemma RatioAtLeastOne(a: real, b: real)
    requires 0.0 < b <= a
    ensures a / b >= 1.0
  {
  }

  /** As written, a prediction identical to its gold volume never gets a
      right relative volume error of 0: the error is at least 1. */
  lemma IdenticalScansAsWritten(g: Grid, measure: Measure)
    requires IsLabelGrid(g) && VoxelCount(g, RightLabel) > 0
    ensures CalculateMetrics(g, g, measure, AsWritten).Ok?
    ensures CalculateMetrics(g, g, measure, AsWritten).value.right.rve.x >= 1.0
  {
    var c1, c2 := VoxelCount(g, LeftLabel), VoxelCount(g, RightLabel);
    RightVolumeAsWritten(g);
    var e := Rve(RightPredictedVolume(AsWritten, g), c2);
    assert e == Fin((c1 + c2) as real / c2 as real);
    RatioAtLeastOne((c1 + c2) as real, c2 as real);
    NearestIntMonotone(1.0, e.x);
  }

  /** One left voxel and one right voxel, predicted exactly: the left error
      is 0 but the right error is |3 - 1| / 1 = 2. */
  lemma OneVoxelEachAsWritten(measure: Measure)
    ensures CalculateMetrics([0, 1, 2], [0, 1, 2], measure, AsWritten).Ok?
    ensures CalculateMetrics([0, 1, 2], [0, 1, 2], measure, AsWritten).value.left.rve == Fin(0.0)
    ensures CalculateMetrics([0, 1, 2], [0, 1, 2], measure, AsWritten).value.right.rve == Fin(2.0)
  {
    var g := [0, 1, 2];
    assert MaskOf(g, LeftLabel) == [false, true, false];
    assert MaskOf(g, RightLabel) == [false, false, true];
    assert VoxelCount(g, LeftLabel) == 1 && VoxelCount(g, RightLabel) == 1;
    assert Sum(g) == 3;
    assert Rve(3, 1) == Fin(2.0);
  }

  /** Corrected, a prediction identical to its gold volume gets relative
      volume errors of 0 on both sides. */
  lemma IdenticalScansCorrected(g: Grid, measure: Measure)
    requires VoxelCount(g, LeftLabel) > 0 && VoxelCount(g, RightLabel) > 0
    ensures CalculateMetrics(g, g, measure, Corrected).Ok?
    ensures CalculateMetrics(g, g, measure, Corrected).value.left.rve == Fin(0.0)
    ensures CalculateMetrics(g, g, measure, Corrected).value.right.rve == Fin(0.0)
  {
  }
}

/** `score_seg`: one row per prediction, then the rows ordered by case
    identifier. Reading a file into a label volume is a `Loader`; the
    Float32 cast the script applies first does not change whole labels. */
module Scoring {
  import opened Outcomes
  import opened Values
  import opened Labels
  import opened Metrics
  import opened CaseIds
  import opened Sorting

  type Loader = string -> Grid

  /** One row of the per-case table. `position` is the row's index label in
      the data frame: the position of its prediction in the input list,
      which sorting keeps. */
  datatype ScanScores = ScanScores(
    scanId: string,
    position: nat,
    left: SideScores,
    right: SideScores,
    avg: SideScores)

  function ScanIdOf(s: ScanScores): string {
    s.scanId
  }

  /** `round((l + r) / 2, 3)` of two already rounded values. */
  function RoundedMidpoint(l: Value, r: Value): Value {
    RoundValue3(Midpoint(l, r))
  }

  /** The mean of two values rounded to 3 decimals is symmetric, NaN when
      either side is, and lies between the two sides; when the sides agree
      it is that common value. */
  lemma RoundedMidpointSpec(l: Value, r: Value)
    ensures RoundedMidpoint(l, r) == RoundedMidpoint(r, l)
    ensures RoundedMidpoint(l, r).NaN? <==> l.NaN? || r.NaN?
    ensures RoundedMidpoint(l, r).Fin? <==> l.Fin? && r.Fin?
    ensures l.Fin? && r.Fin? && HasThreeDecimals(l.x) && HasThreeDecimals(r.x) ==>
              var m := RoundedMidpoint(l, r).x;
              (l.x <= m <= r.x || r.x <= m <= l.x) && (l.x == r.x ==> m == l.x)
  {
    if l.Fin? && r.Fin? && HasThreeDecimals(l.x) && HasThreeDecimals(r.x) {
      var mid := (l.x + r.x) / 2.0;
      assert Midpoint(l, r) == Fin(mid);
      if l.x <= r.x {
        Round3Monotone(l.x, mid);
        Round3Monotone(mid, r.x);
      } else {
        Round3Monotone(r.x, mid);
        Round3Monotone(mid, l.x);
      }
    }
  }

  function AverageSides(l: SideScores, r: SideScores): SideScores {
    SideScores(RoundedMidpoint(l.dsc, r.dsc), RoundedMidpoint(l.hd, r.hd),
               RoundedMidpoint(l.hd95, r.hd95), RoundedMidpoint(l.assd, r.assd),
               RoundedMidpoint(l.rve, r.rve))
  }

  function BuildRow(position: nat, goldName: string, raw: RawMetrics): ScanScores {
    ScanScores(CaseId(goldName), position, raw.left, raw.right, AverageSides(raw.left, raw.right))
  }

  /** Gold volume `i` exists and has a right voxel. */
  predicate Scorable(gold: seq<string>, load: Loader, i: nat) {
    i < |gold| && VoxelCount(load(gold[i]), RightLabel) > 0
  }

  /** The row of prediction `i`, scored against the gold file at the same
      position: IndexError when there is none, the metric error when its
      gold volume has no right voxel. */
  function RowAt(gold: seq<string>, preds: seq<string>, load: Loader, measure: Measure,
                 conv: Convention, i: nat): (r: Result<ScanScores>)
    requires i < |preds|
    ensures r.Ok? <==> Scorable(gold, load, i)
    ensures r.Ok? ==> r.value.position == i && r.value.scanId == CaseId(gold[i])
    // the two sides are the case's metrics, and each average their rounded midpoint
    ensures r.Ok? ==> var raw := CalculateMetrics(load(gold[i]), load(preds[i]), measure, conv);
                      && raw.Ok? && r.value.left == raw.value.left && r.value.right == raw.value.right
                      && r.value.avg == AverageSides(r.value.left, r.value.right)
    ensures r.Err? ==> (r.error.IndexError? <==> |gold| <= i)
    ensures r.Err? && r.error.IndexError? ==> r.error.index == i
    // an existing gold file fails with the error `calculate_metrics` raises
    ensures r.Err? && i < |gold| ==> CalculateMetrics(load(gold[i]), load(preds[i]), measure, conv) == Err(r.error)
  {
    if i >= |gold| then Err(IndexError(i))
    else
      var raw :- CalculateMetrics(load(gold[i]), load(preds[i]), measure, conv);
      Ok(BuildRow(i, gold[i], raw))
  }

  /** `row` is the row built from prediction `row.position` and the gold
      file at the same position. */
  predicate IsRowOf(gold: seq<string>, preds: seq<string>, load: Loader, measure: Measure,
                    conv: Convention, row: ScanScores) {
    row.position < |preds| && RowAt(gold, preds, load, measure, conv, row.position) == Ok(row)
  }

  /** The outcome of every prediction, in list order. */
  function RowOutcomes(gold: seq<string>, preds: seq<string>, load: Loader, measure: Measure,
                       conv: Convention): (outs: seq<Result<ScanScores>>)
    ensures |outs| == |preds|
  {
    seq(|preds|, j requires 0 <= j < |preds| => RowAt(gold, preds, load, measure, conv, j))
  }

  /** The loop of `score_seg`: the rows in list order; the first prediction
      without a gold file or whose metrics fail stops the run. */
  function ScoreRows(gold: seq<string>, preds: seq<string>, load: Loader, measure: Measure,
                     conv: Convention): Result<seq<ScanScores>> {
    Collect(RowOutcomes(gold, preds, load, measure, conv))
  }

  /** Predictions `i` to `n - 1` are scorable. */
  predicate ScorableBetween(gold: seq<string>, load: Loader, i: nat, n: nat) {
    forall j :: i <= j < n ==> Scorable(gold, load, j)
  }

  /** The loop finishes exactly when every prediction is scorable. */
  lemma ScoreRowsOk(gold: seq<string>, preds: seq<string>, load: Loader, measure: Measure, conv: Convention)
    ensures ScoreRows(gold, preds, load, measure, conv).Ok? <==> ScorableBetween(gold, load, 0, |preds|)
  {
    var outs := RowOutcomes(gold, preds, load, measure, conv);
    assert forall j :: 0 <= j < |preds| ==> (outs[j].Ok? <==> Scorable(gold, load, j));
  }

  /** Row `j` of a finished loop is the row of prediction `j`. */
  lemma ScoreRowsRows(gold: seq<string>, preds: seq<string>, load: Loader, measure: Measure, conv: Convention)
    requires ScoreRows(gold, preds, load, measure, conv).Ok?
    ensures var rows := ScoreRows(gold, preds, load, measure, conv).value;
            && |rows| == |preds|
            && forall j :: 0 <= j < |rows| ==> rows[j].position == j && IsRowOf(gold, preds, load, measure, conv, rows[j])
  {
    var outs := RowOutcomes(gold, preds, load, measure, conv);
    var rows := ScoreRows(gold, preds, load, measure, conv).value;
    forall j | 0 <= j < |rows| ensures rows[j].position == j && IsRowOf(gold, preds, load, measure, conv, rows[j]) {
      assert outs[j] == Ok(rows[j]);
    }
  }

  /** A failed loop reports the error of the first prediction that is not
      scorable. */
  lemma ScoreRowsError(gold: seq<string>, preds: seq<string>, load: Loader, measure: Measure, conv: Convention)
    requires ScoreRows(gold, preds, load, measure, conv).Err?
    ensures exists j :: 0 <= j < |preds| && !Scorable(gold, load, j) && ScorableBetween(gold, load, 0, j)
                        && ScoreRows(gold, preds, load, measure, conv).error == RowAt(gold, preds, load, measure, conv, j).error
  {
    var outs := RowOutcomes(gold, preds, load, measure, conv);
    var e := ScoreRows(gold, preds, load, measure, conv).error;
    var j :| 0 <= j < |outs| && outs[j] == Err(e) && AllOk(outs[..j]);
    forall m | 0 <= m < j ensures Scorable(gold, load, m) {
      assert outs[..j][m] == outs[m];
    }
    assert outs[j] == RowAt(gold, preds, load, measure, conv, j);
  }

  /** More predictions than gold files, every gold file scorable: the run
      fails with IndexError at the first position without a gold file. */
  lemma MissingGoldError(gold: seq<string>, preds: seq<string>, load: Loader, measure: Measure, conv: Convention)
    requires |gold| < |preds| && ScorableBetween(gold, load, 0, |gold|)
    ensures ScoreRows(gold, preds, load, measure, conv) == Err(IndexError(|gold|))
  {
    ScoreRowsOk(gold, preds, load, measure, conv);
    assert !Scorable(gold, load, |gold|);
    ScoreRowsError(gold, preds, load, measure, conv);
    var j :| 0 <= j < |preds| && !Scorable(gold, load, j) && ScorableBetween(gold, load, 0, j)
             && ScoreRows(gold, preds, load, measure, conv).error == RowAt(gold, preds, load, measure, conv, j).error;
    assert j == |gold|;
  }

  /** `score_seg(gold, pred_lst)`: one row per prediction, ordered by case
      identifier. With no prediction at all the data frame has no `scan_id`
      column and sorting raises KeyError. The order of rows with equal
      identifiers is not fixed by the source; only the order of keys is. */
  function ScoreSeg(gold: seq<string>, preds: seq<string>, load: Loader, measure: Measure,
                    conv: Convention): (r: Result<seq<ScanScores>>)
    ensures r.Ok? <==> 0 < |preds| && ScorableBetween(gold, load, 0, |preds|)
    ensures |preds| == 0 ==> r == Err(KeyError("scan_id"))
    ensures r.Err? && 0 < |preds| ==> r == ScoreRows(gold, preds, load, measure, conv)
    ensures r.Ok? ==> |r.value| == |preds|
    ensures r.Ok? ==> SortedBy(r.value, ScanIdOf)
    ensures r.Ok? ==> multiset(r.value) == multiset(ScoreRows(gold, preds, load, measure, conv).value)
    ensures r.Ok? ==> forall j :: 0 <= j < |r.value| ==> IsRowOf(gold, preds, load, measure, conv, r.value[j])
  {
    var built := ScoreRows(gold, preds, load, measure, conv);
    ScoreRowsOk(gold, preds, load, measure, conv);
    if |preds| == 0 then Err(KeyError("scan_id"))
    else if built.Err? then Err(built.error)
    else
      SortedRows(gold, preds, load, measure, conv);
      Ok(SortBy(built.value, ScanIdOf))
  }

  /** Sorting the rows of a finished loop keeps one row per prediction,
      each the row of its own prediction. */
  lemma SortedRows(gold: seq<string>, preds: seq<string>, load: Loader, measure: Measure, conv: Convention)
    requires ScoreRows(gold, preds, load, measure, conv).Ok?
    ensures var rows := ScoreRows(gold, preds, load, measure, conv).value;
            var sorted := SortBy(rows, ScanIdOf);
            && |sorted| == |preds|
            && SortedBy(sorted, ScanIdOf)
            && multiset(sorted) == multiset(rows)
            && forall j :: 0 <= j < |sorted| ==> IsRowOf(gold, preds, load, measure, conv, sorted[j])
  {
    ScoreRowsRows(gold, preds, load, measure, conv);
    var rows := ScoreRows(gold, preds, load, measure, conv).value;
    PermutedRows(gold, preds, load, measure, conv, rows, SortBy(rows, ScanIdOf));
  }

  /** A failed run with at least one prediction reports the error of the
      first prediction that is not scorable. */
  lemma ScoreSegFailure(gold: seq<string>, preds: seq<string>, load: Loader, measure: Measure, conv: Convention)
    requires 0 < |preds| && ScoreSeg(gold, preds, load, measure, conv).Err?
    ensures exists j :: 0 <= j < |preds| && !Scorable(gold, load, j) && ScorableBetween(gold, load, 0, j)
                        && ScoreSeg(gold, preds, load, measure, conv).error == RowAt(gold, preds, load, measure, conv, j).error
  {
    ScoreRowsError(gold, preds, load, measure, conv);
  }

  /** More predictions than gold files, every gold file scorable: IndexError
      at the first position without a gold file. Extra gold files are
      never looked at. */
  lemma MoreScansThanGold(gold: seq<string>, preds: seq<string>, load: Loader, measure: Measure, conv: Convention)
    requires |gold| < |preds| && ScorableBetween(gold, load, 0, |gold|)
    ensures ScoreSeg(gold, preds, load, measure, conv) == Err(IndexError(|gold|))
  {
    MissingGoldError(gold, preds, load, measure, conv);
  }

  lemma PermutedRows(gold: seq<string>, preds: seq<string>, load: Loader, measure: Measure,
                     conv: Convention, rows: seq<ScanScores>, sorted: seq<ScanScores>)
    requires multiset(sorted) == multiset(rows)
    requires forall j :: 0 <= j < |rows| ==> IsRowOf(gold, preds, load, measure, conv, rows[j])
    ensures forall j :: 0 <= j < |sorted| ==> IsRowOf(gold, preds, load, measure, conv, sorted[j])
  {
    forall j | 0 <= j < |sorted| ensures IsRowOf(gold, preds, load, measure, conv, sorted[j]) {
      var i := FindIn(sorted, rows, j);
    }
  }

  /** Every prediction has its row in the sorted table. */
  lemma EveryPredictionScored(gold: seq<string>, preds: seq<string>, load: Loader, measure: Measure,
                              conv: Convention, k: nat)
    requires ScoreSeg(gold, preds, load, measure, conv).Ok?
    requires k < |preds|
    ensures exists j :: 0 <= j < |preds| && ScoreSeg(gold, preds, load, measure, conv).value[j].position == k
  {
    ScoreRowsOk(gold, preds, load, measure, conv);
    ScoreRowsRows(gold, preds, load, measure, conv);
    var rows := ScoreRows(gold, preds, load, measure, conv).value;
    var sorted := ScoreSeg(gold, preds, load, measure, conv).value;
    var j := FindIn(rows, sorted, k);
    assert sorted[j].position == k;
  }

  /** Where element `k` of `a` sits in a permutation `b` of it. */
  lemma FindIn<T>(a: seq<T>, b: seq<T>, k: nat) returns (j: nat)
    requires multiset(a) == multiset(b) && k < |a|
    ensures j < |b| && b[j] == a[k]
  {
    assert a[k] in multiset(a);
    assert a[k] in multiset(b);
    j :| 0 <= j < |b| && b[j] == a[k];
  }
}

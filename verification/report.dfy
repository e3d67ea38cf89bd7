/** The report `main` assembles from the sorted per-case rows: the
    statistics rows of `describe()`, the `Average` row of formatted
    mean/std pairs, and the summary record written as JSON.

    pandas' standard deviation and quantiles are not part of this model:
    `Estimators` stands for them. The column mean is modelled. */
module Report {
  import opened Outcomes
  import opened Values
  import opened Metrics
  import opened Scoring
  import opened Statistics

  /** The fifteen metric columns, in the order of the per-case rows. */
  const ColumnNames: seq<string> := [
    "DSC_L", "DSC_R", "DSC_Avg", "HD_L", "HD_R", "HD_Avg", "HD95_L", "HD95_R", "HD95_Avg",
    "ASSD_L", "ASSD_R", "ASSD_Avg", "RVE_L", "RVE_R", "RVE_Avg"]

  const MetricColumns := 15

  function Columns(s: ScanScores): (cells: seq<Value>)
    ensures |cells| == MetricColumns
  {
    [s.left.dsc, s.right.dsc, s.avg.dsc, s.left.hd, s.right.hd, s.avg.hd,
     s.left.hd95, s.right.hd95, s.avg.hd95, s.left.assd, s.right.assd, s.avg.assd,
     s.left.rve, s.right.rve, s.avg.rve]
  }

  /** Column `k` of the per-case rows. */
  function CaseColumn(scores: seq<ScanScores>, k: nat): (col: seq<Value>)
    requires k < MetricColumns
    ensures |col| == |scores|
  {
    seq(|scores|, j requires 0 <= j < |scores| => Columns(scores[j])[k])
  }

  // ----- Table -----

  /** A data-frame index label: a case row keeps its position in the
      prediction list, a `describe()` row carries the statistic's name. */
  datatype RowLabel = At(position: nat) | Named(name: string)

  /** A numeric cell, or an `Average` cell: the text `"{mean:.2f}±{std:.2f}"`
      formatted from the pair it holds. */
  datatype Cell = Num(v: Value) | Formatted(mean: Value, std: Value)

  /** A table row: its index label, its `scan_id` cell (None is NaN) and its
      fifteen metric cells. */
  datatype Row = Row(key: RowLabel, scanId: Option<string>, cells: seq<Cell>)

  datatype Estimators = Estimators(
    std: seq<Value> -> Value,           // sample standard deviation, NaN skipped
    quantile: (nat, seq<Value>) -> Value)  // linear-interpolation percentile

  function NumCells(vs: seq<Value>): (cs: seq<Cell>)
    ensures |cs| == |vs|
  {
    seq(|vs|, k requires 0 <= k < |vs| => Num(vs[k]))
  }

  function CaseRow(s: ScanScores): Row {
    Row(At(s.position), Some(s.scanId), NumCells(Columns(s)))
  }

  /** The statistics `describe()` reports, in its row order. */
  datatype Statistic = CountStat | MeanStat | StdStat | MinStat | Q25 | Q50 | Q75 | MaxStat

  const DescribeOrder := [CountStat, MeanStat, StdStat, MinStat, Q25, Q50, Q75, MaxStat]

  function DescribeName(st: Statistic): string {
    match st
    case CountStat => "count"
    case MeanStat => "mean"
    case StdStat => "std"
    case MinStat => "min"
    case Q25 => "25%"
    case Q50 => "50%"
    case Q75 => "75%"
    case MaxStat => "max"
  }

  function StatisticOf(st: Statistic, est: Estimators, col: seq<Value>): Value {
    match st
    case CountStat => Fin(NonNaN(col) as real)
    case MeanStat => Mean(col)
    case StdStat => est.std(col)
    case MinStat => est.quantile(0, col)
    case Q25 => est.quantile(25, col)
    case Q50 => est.quantile(50, col)
    case Q75 => est.quantile(75, col)
    case MaxStat => est.quantile(100, col)
  }

  function StatRow(st: Statistic, scores: seq<ScanScores>, est: Estimators): Row {
    Row(Named(DescribeName(st)), None,
        seq(MetricColumns, k requires 0 <= k < MetricColumns => Num(StatisticOf(st, est, CaseColumn(scores, k)))))
  }

  /** `results.describe()` over the metric columns. */
  function Describe(scores: seq<ScanScores>, est: Estimators): seq<Row> {
    seq(|DescribeOrder|, i requires 0 <= i < |DescribeOrder| => StatRow(DescribeOrder[i], scores, est))
  }

  /** `.rename(index={'25%': "25quantile", '50%': "median", '75%': "75quantile"})` */
  function Rename(l: RowLabel): RowLabel {
    match l
    case Named("25%") => Named("25quantile")
    case Named("50%") => Named("median")
    case Named("75%") => Named("75quantile")
    case _ => l
  }

  function RenameRows(rows: seq<Row>): (r: seq<Row>)
    ensures |r| == |rows|
  {
    seq(|rows|, i requires 0 <= i < |rows| => rows[i].(key := Rename(rows[i].key)))
  }

  /** `.drop(names)`: the rows whose label is not one of `names`, in order. */
  function DropNamed(rows: seq<Row>, names: set<string>): seq<Row> {
    if |rows| == 0 then []
    else
      var rest := DropNamed(rows[1..], names);
      if Dropped(rows[0], names) then rest else [rows[0]] + rest
  }

  /** The statistics rows main appends below the cases. */
  function SummaryStats(scores: seq<ScanScores>, est: Estimators): seq<Row> {
    DropNamed(RenameRows(Describe(scores, est)), {"count", "min", "max"})
  }

  /** The five statistics kept, in table order, with their row names. */
  const KeptStats := [MeanStat, StdStat, Q25, Q50, Q75]
  const KeptNames := ["mean", "std", "25quantile", "median", "75quantile"]

  predicate Dropped(r: Row, names: set<string>) {
    r.key.Named? && r.key.name in names
  }

  /** One step of the filter: the rows from `i` on keep row `i` exactly
      when it is not dropped. */
  lemma DropNamedAt(rows: seq<Row>, i: nat, names: set<string>)
    requires i < |rows|
    ensures DropNamed(rows[i..], names) ==
              if Dropped(rows[i], names) then DropNamed(rows[i + 1..], names)
              else [rows[i]] + DropNamed(rows[i + 1..], names)
  {
    assert rows[i..][1..] == rows[i + 1..];
  }

  /** Dropping the first, fourth and eighth of eight rows. */
  lemma DropThreeOfEight(rn: seq<Row>, names: set<string>)
    requires |rn| == 8
    requires Dropped(rn[0], names) && Dropped(rn[3], names) && Dropped(rn[7], names)
    requires !Dropped(rn[1], names) && !Dropped(rn[2], names) && !Dropped(rn[4], names)
    requires !Dropped(rn[5], names) && !Dropped(rn[6], names)
    ensures DropNamed(rn, names) == [rn[1], rn[2], rn[4], rn[5], rn[6]]
  {
    DropNamedAt(rn, 7, names);
    assert DropNamed(rn[7..], names) == [];
    DropNamedAt(rn, 6, names);
    assert DropNamed(rn[6..], names) == [rn[6]];
    DropNamedAt(rn, 5, names);
    assert DropNamed(rn[5..], names) == [rn[5], rn[6]];
    DropNamedAt(rn, 4, names);
    assert DropNamed(rn[4..], names) == [rn[4], rn[5], rn[6]];
    DropNamedAt(rn, 3, names);
    assert DropNamed(rn[3..], names) == [rn[4], rn[5], rn[6]];
    DropNamedAt(rn, 2, names);
    assert DropNamed(rn[2..], names) == [rn[2], rn[4], rn[5], rn[6]];
    DropNamedAt(rn, 1, names);
    assert DropNamed(rn[1..], names) == [rn[1], rn[2], rn[4], rn[5], rn[6]];
    DropNamedAt(rn, 0, names);
    assert rn[0..] == rn;
  }

  /** After renaming and dropping, the statistics rows are mean, std and
      the three quartiles, named as the report names them. */
  lemma SummaryStatsLayout(scores: seq<ScanScores>, est: Estimators)
    ensures |SummaryStats(scores, est)| == 5
    ensures forall i :: 0 <= i < 5 ==>
              SummaryStats(scores, est)[i] == StatRow(KeptStats[i], scores, est).(key := Named(KeptNames[i]))
  {
    var rn := RenameRows(Describe(scores, est));
    RenamedDescribe(scores, est);
    DropThreeOfEight(rn, {"count", "min", "max"});
  }

  /** The eight `describe()` rows after renaming, one by one. */
  lemma RenamedDescribe(scores: seq<ScanScores>, est: Estimators)
    ensures var rn := RenameRows(Describe(scores, est));
            && |rn| == 8
            && rn[0].key == Named("count") && rn[3].key == Named("min") && rn[7].key == Named("max")
            && rn[1] == StatRow(MeanStat, scores, est)
            && rn[2] == StatRow(StdStat, scores, est)
            && rn[4] == StatRow(Q25, scores, est).(key := Named("25quantile"))
            && rn[5] == StatRow(Q50, scores, est).(key := Named("median"))
            && rn[6] == StatRow(Q75, scores, est).(key := Named("75quantile"))
  {
    var d := Describe(scores, est);
    RenameDescribeNames();
    assert d[1] == StatRow(MeanStat, scores, est) && d[2] == StatRow(StdStat, scores, est);
    assert d[4] == StatRow(Q25, scores, est) && d[5] == StatRow(Q50, scores, est) && d[6] == StatRow(Q75, scores, est);
  }

  /** What the renaming does to each statistic's name. */
  lemma RenameDescribeNames()
    ensures Rename(Named("count")) == Named("count") && Rename(Named("mean")) == Named("mean")
    ensures Rename(Named("std")) == Named("std") && Rename(Named("min")) == Named("min")
    ensures Rename(Named("25%")) == Named("25quantile") && Rename(Named("50%")) == Named("median")
    ensures Rename(Named("75%")) == Named("75quantile") && Rename(Named("max")) == Named("max")
  {
  }

  function CaseRows(scores: seq<ScanScores>): (rows: seq<Row>)
    ensures |rows| == |scores|
  {
    seq(|scores|, j requires 0 <= j < |scores| => CaseRow(scores[j]))
  }

  /** Cell `k` of a row as a numeric column sees it; a missing or text cell
      reads as NaN. */
  function CellValue(r: Row, k: nat): Value {
    if k < |r.cells| && r.cells[k].Num? then r.cells[k].v else NaN
  }

  function NumericColumn(rows: seq<Row>, k: nat): (col: seq<Value>)
    ensures |col| == |rows|
  {
    seq(|rows|, j requires 0 <= j < |rows| => CellValue(rows[j], k))
  }

  /** The first row at or after `from` whose index label is `key`. */
  function FindKey(rows: seq<Row>, key: RowLabel, from: nat): (r: Option<nat>)
    requires from <= |rows|
    ensures r.None? <==> forall j :: from <= j < |rows| ==> rows[j].key != key
    ensures r.Some? ==> from <= r.value < |rows| && rows[r.value].key == key
    decreases |rows| - from
  {
    if from == |rows| then None
    else if rows[from].key == key then Some(from)
    else FindKey(rows, key, from + 1)
  }

  /** `rows.loc[key] = [scanId] + cells`: overwrite the row labelled `key`,
      or append a new row when no row carries that label. */
  function LocSet(rows: seq<Row>, key: RowLabel, scanId: Option<string>, cells: seq<Cell>): seq<Row> {
    match FindKey(rows, key, 0)
    case None => rows + [Row(key, scanId, cells)]
    case Some(j) => rows[j := Row(key, scanId, cells)]
  }

  /** `rows.loc[name]`: KeyError when no row carries the label. */
  function Loc(rows: seq<Row>, name: string): (r: Result<Row>)
    ensures r.Err? <==> forall j :: 0 <= j < |rows| ==> rows[j].key != Named(name)
    ensures r.Err? ==> r.error == KeyError(name)
    ensures r.Ok? ==> exists j :: 0 <= j < |rows| && rows[j] == r.value && r.value.key == Named(name)
  {
    match FindKey(rows, Named(name), 0)
    case None => Err(KeyError(name))
    case Some(j) => Ok(rows[j])
  }

  /** The `Average` cells: each column's mean and standard deviation over
      all the rows given, formatted as a pair. */
  function AverageCells(rows: seq<Row>, est: Estimators): (cells: seq<Cell>)
    ensures |cells| == MetricColumns
  {
    seq(MetricColumns, k requires 0 <= k < MetricColumns =>
          Formatted(Mean(NumericColumn(rows, k)), est.std(NumericColumn(rows, k))))
  }

  /** The table main writes: cases, statistics rows, then `Average`. The
      averages are taken after the statistics rows are appended. */
  function AssembleTable(scores: seq<ScanScores>, est: Estimators): seq<Row> {
    var stacked := Stacked(scores, est);
    LocSet(stacked, At(|stacked|), Some("Average"), AverageCells(stacked, est))
  }

  /** `pd.concat([results, metrics_summary])` */
  function Stacked(scores: seq<ScanScores>, est: Estimators): seq<Row> {
    CaseRows(scores) + SummaryStats(scores, est)
  }

  /** The five statistics of case column `k`, in the order of their rows. */
  function StatColumn(scores: seq<ScanScores>, est: Estimators, k: nat): seq<Value>
    requires k < MetricColumns
  {
    seq(|KeptStats|, i requires 0 <= i < |KeptStats| => StatisticOf(KeptStats[i], est, CaseColumn(scores, k)))
  }

  /** Every row's index label is a position of the prediction list. */
  predicate PositionsBelow(scores: seq<ScanScores>, n: nat) {
    forall j :: 0 <= j < |scores| ==> scores[j].position < n
  }

  lemma CaseColumnOfRows(scores: seq<ScanScores>, k: nat)
    requires k < MetricColumns
    ensures NumericColumn(CaseRows(scores), k) == CaseColumn(scores, k)
  {
  }

  lemma StatColumnOfRows(scores: seq<ScanScores>, est: Estimators, k: nat)
    requires k < MetricColumns
    ensures NumericColumn(SummaryStats(scores, est), k) == StatColumn(scores, est, k)
  {
    SummaryStatsLayout(scores, est);
  }

  lemma NumericColumnAppend(a: seq<Row>, b: seq<Row>, k: nat)
    ensures NumericColumn(a + b, k) == NumericColumn(a, k) + NumericColumn(b, k)
  {
  }

  lemma StackedLayout(scores: seq<ScanScores>, est: Estimators)
    ensures var st := Stacked(scores, est);
            var n := |scores|;
            && |st| == n + 5
            && (forall j :: 0 <= j < n ==> st[j] == CaseRow(scores[j]))
            && (forall i :: 0 <= i < 5 ==>
                  st[n + i] == StatRow(KeptStats[i], scores, est).(key := Named(KeptNames[i])))
  {
    SummaryStatsLayout(scores, est);
  }

  /** The label n + 5 is not taken, so `loc` appends the `Average` row. */
  lemma AverageAppended(scores: seq<ScanScores>, est: Estimators)
    requires PositionsBelow(scores, |scores|)
    ensures var st := Stacked(scores, est);
            AssembleTable(scores, est) == st + [Row(At(|st|), Some("Average"), AverageCells(st, est))]
  {
    var n := |scores|;
    var st := Stacked(scores, est);
    StackedLayout(scores, est);
    forall j | 0 <= j < |st| ensures st[j].key != At(n + 5) {
      if j < n {
        assert st[j].key == At(scores[j].position);
      } else {
        var i := j - n;
        assert st[n + i] == StatRow(KeptStats[i], scores, est).(key := Named(KeptNames[i]));
      }
    }
  }

  lemma StackedColumn(scores: seq<ScanScores>, est: Estimators, k: nat)
    requires k < MetricColumns
    ensures NumericColumn(Stacked(scores, est), k) == CaseColumn(scores, k) + StatColumn(scores, est, k)
  {
    NumericColumnAppend(CaseRows(scores), SummaryStats(scores, est), k);
    CaseColumnOfRows(scores, k);
    StatColumnOfRows(scores, est, k);
  }

  /** The table has the n case rows in order, the five statistics rows
      named mean, std, 25quantile, median and 75quantile, and a last row
      `Average` whose index label is n + 5 and whose cells pair each
      column's mean and standard deviation over the case rows AND the
      statistics rows. */
  lemma TableLayout(scores: seq<ScanScores>, est: Estimators)
    requires PositionsBelow(scores, |scores|)
    ensures var t := AssembleTable(scores, est);
            var n := |scores|;
            && |t| == n + 6
            && (forall j :: 0 <= j < n ==> t[j] == CaseRow(scores[j]))
            && (forall i :: 0 <= i < 5 ==>
                  t[n + i] == StatRow(KeptStats[i], scores, est).(key := Named(KeptNames[i])))
            && t[n + 5].key == At(n + 5) && t[n + 5].scanId == Some("Average")
            && |t[n + 5].cells| == MetricColumns
            && (forall k :: 0 <= k < MetricColumns ==>
                  var col := CaseColumn(scores, k) + StatColumn(scores, est, k);
                  t[n + 5].cells[k] == Formatted(Mean(col), est.std(col)))
  {
    var n := |scores|;
    var st := Stacked(scores, est);
    StackedLayout(scores, est);
    AverageAppended(scores, est);
    var t := AssembleTable(scores, est);
    var avg := Row(At(|st|), Some("Average"), AverageCells(st, est));
    assert t == st + [avg];
    forall j | 0 <= j < n ensures t[j] == CaseRow(scores[j]) {
      assert t[j] == st[j];
    }
    forall i | 0 <= i < 5 ensures t[n + i] == StatRow(KeptStats[i], scores, est).(key := Named(KeptNames[i])) {
      assert t[n + i] == st[n + i];
    }
    assert t[n + 5] == avg;
    forall k | 0 <= k < MetricColumns
      ensures var col := CaseColumn(scores, k) + StatColumn(scores, est, k);
              avg.cells[k] == Formatted(Mean(col), est.std(col))
    {
      StackedColumn(scores, est, k);
    }
  }

  // ----- Summary record -----

  /** A JSON value of the summary record. `Missing` is the NaN of an empty
      `scan_id` cell. */
  datatype Entry =
    | Missing
    | Number(v: Value)
    | Integer(n: int)
    | Text(s: string)
    | FormattedText(mean: Value, std: Value)

  /** `pd.isna`. */
  predicate IsNa(e: Entry) {
    e.Missing? || (e.Number? && e.v.NaN?)
  }

  function CellEntry(c: Cell): Entry {
    match c
    case Num(v) => Number(v)
    case Formatted(m, sd) => FormattedText(m, sd)
  }

  /** `{**row}`: the `scan_id` cell, then the fifteen metric cells. */
  function RowEntries(r: Row): seq<(string, Entry)> {
    [("scan_id", if r.scanId.Some? then Text(r.scanId.value) else Missing)]
      + seq(MetricColumns, k requires 0 <= k < MetricColumns =>
              (ColumnNames[k], if k < |r.cells| then CellEntry(r.cells[k]) else Missing))
  }

  /** `{k: v for k, v in d.items() if not pd.isna(v)}` */
  function DropNa(es: seq<(string, Entry)>): (r: seq<(string, Entry)>)
    ensures forall i :: 0 <= i < |r| ==> !IsNa(r[i].1)
    ensures forall x :: x in r <==> x in es && !IsNa(x.1)
  {
    if |es| == 0 then []
    else
      var rest := DropNa(es[1..]);
      assert forall x :: x in es <==> x == es[0] || x in es[1..];
      if IsNa(es[0].1) then rest else [es[0]] + rest
  }

  /** On a single entry the filter keeps it exactly when it is not NA;
      with `DropNaAppend` this fixes the order and multiplicity of what
      it keeps. */
  lemma DropNaSingle(e: (string, Entry))
    ensures DropNa([e]) == if IsNa(e.1) then [] else [e]
  {
    assert [e][1..] == [];
  }

  /** The filter keeps every entry that is not NA as often as it occurs,
      and no NA entry at all. */
  lemma {:induction false} DropNaCounts(es: seq<(string, Entry)>, x: (string, Entry))
    ensures multiset(DropNa(es))[x] == if IsNa(x.1) then 0 else multiset(es)[x]
  {
    if |es| > 0 {
      DropNaCounts(es[1..], x);
      assert es == [es[0]] + es[1..];
    }
  }

  lemma {:induction false} DropNaAppend(a: seq<(string, Entry)>, b: seq<(string, Entry)>)
    ensures DropNa(a + b) == DropNa(a) + DropNa(b)
  {
    if |a| == 0 {
      assert a + b == b;
    } else {
      assert (a + b)[0] == a[0] && (a + b)[1..] == a[1..] + b;
      DropNaAppend(a[1..], b);
    }
  }

  const Status := "SCORED"

  /** The entries main adds after the mean row's. */
  function RecordTail(casesEvaluated: nat, submissionId: string): seq<(string, Entry)> {
    [("cases_evaluated", Integer(casesEvaluated)),
     ("submission_scores", Text(submissionId)),
     ("submission_status", Text(Status))]
  }

  /** The JSON record: the `mean` row's entries and the three fixed ones,
      NaN entries removed. */
  function SummaryRecord(table: seq<Row>, casesEvaluated: nat, submissionId: string): Result<seq<(string, Entry)>> {
    var meanRow :- Loc(table, "mean");
    Ok(DropNa(RowEntries(meanRow) + RecordTail(casesEvaluated, submissionId)))
  }

  /** Column `k`'s mean over the cases is what the summary reports. */
  function MeanEntries(scores: seq<ScanScores>): seq<(string, Entry)> {
    [("scan_id", Missing)]
      + seq(MetricColumns, k requires 0 <= k < MetricColumns => (ColumnNames[k], Number(Mean(CaseColumn(scores, k)))))
  }

  lemma SummaryOfTable(scores: seq<ScanScores>, est: Estimators, submissionId: string)
    requires PositionsBelow(scores, |scores|)
    ensures SummaryRecord(AssembleTable(scores, est), |scores|, submissionId)
              == Ok(DropNa(MeanEntries(scores)) + RecordTail(|scores|, submissionId))
  {
    var n := |scores|;
    var t := AssembleTable(scores, est);
    StackedLayout(scores, est);
    AverageAppended(scores, est);
    var st := Stacked(scores, est);
    var meanRow := t[n];
    assert meanRow == st[n + 0];
    assert st[n + 0] == StatRow(KeptStats[0], scores, est).(key := Named(KeptNames[0]));
    assert forall j :: 0 <= j < n ==> t[j].key != Named("mean") by {
      forall j | 0 <= j < n ensures t[j].key != Named("mean") {
        assert t[j] == CaseRow(scores[j]);
      }
    }
    FindKeySkips(t, Named("mean"), n);
    assert RowEntries(meanRow) == MeanEntries(scores);
    DropNaAppend(RowEntries(meanRow), RecordTail(n, submissionId));
    RecordTailKept(n, submissionId);
  }

  /** None of the three fixed entries is NA. */
  lemma RecordTailKept(casesEvaluated: nat, submissionId: string)
    ensures DropNa(RecordTail(casesEvaluated, submissionId)) == RecordTail(casesEvaluated, submissionId)
  {
    var tl := RecordTail(casesEvaluated, submissionId);
    var e2 := [tl[2]];
    var e1 := [tl[1]] + e2;
    assert tl[1..] == e1 && e1[1..] == e2 && e2[1..] == [];
    assert DropNa(e2) == e2;
    assert DropNa(e1) == e1;
  }

  lemma {:induction false} FindKeySkips(rows: seq<Row>, key: RowLabel, j: nat)
    requires j < |rows| && rows[j].key == key
    requires forall i :: 0 <= i < j ==> rows[i].key != key
    ensures FindKey(rows, key, 0) == Some(j)
  {
    var from := j;
    while from > 0
      invariant 0 <= from <= j
      invariant FindKey(rows, key, from) == Some(j)
    {
      from := from - 1;
    }
  }
}

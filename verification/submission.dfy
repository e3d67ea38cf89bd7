/** `main`: score the submission, build the table and the summary record.
    Unzipping, the CSV upload and the JSON file are not modelled; the
    identifier the upload returns is a parameter. */
module Submission {
  import opened Outcomes
  import opened Values
  import opened Metrics
  import opened Scoring
  import opened Statistics
  import opened Report

  /** What main produces: the table written as CSV, the number of cases
      and the record written as JSON. */
  datatype Scorecard = Scorecard(table: seq<Row>, casesEvaluated: nat, summary: seq<(string, Entry)>)

  /** The rows of `score_seg` are labelled by positions of the prediction
      list, so the `Average` label n + 5 is new. */
  lemma ScoredPositions(gold: seq<string>, preds: seq<string>, load: Loader, measure: Measure,
                        conv: Convention)
    requires ScoreSeg(gold, preds, load, measure, conv).Ok?
    ensures PositionsBelow(ScoreSeg(gold, preds, load, measure, conv).value, |preds|)
    ensures |ScoreSeg(gold, preds, load, measure, conv).value| == |preds|
  {
  }

  function ScoreSubmission(gold: seq<string>, preds: seq<string>, load: Loader, measure: Measure,
                           conv: Convention, est: Estimators, submissionId: string): (r: Result<Scorecard>)
    ensures r.Err? <==> ScoreSeg(gold, preds, load, measure, conv).Err?
    ensures r.Err? ==> r.error == ScoreSeg(gold, preds, load, measure, conv).error
    ensures r.Ok? ==> && r.value.casesEvaluated == |preds|
                      && |r.value.table| == |preds| + 6
                      && r.value.table[|preds| + 5].scanId == Some("Average")
    // the table is the one `TableLayout` describes, built from the sorted rows
    ensures r.Ok? ==> r.value.table == AssembleTable(ScoreSeg(gold, preds, load, measure, conv).value, est)
    ensures r.Ok? ==> var scores := ScoreSeg(gold, preds, load, measure, conv).value;
                      r.value.summary == DropNa(MeanEntries(scores)) + RecordTail(|preds|, submissionId)
  {
    var scores :- ScoreSeg(gold, preds, load, measure, conv);
    ScoredPositions(gold, preds, load, measure, conv);
    TableLayout(scores, est);
    SummaryOfTable(scores, est, submissionId);
    var table := AssembleTable(scores, est);
    var summary := SummaryRecord(table, |scores|, submissionId).value;
    Ok(Scorecard(table, |scores|, summary))
  }

  /** The summary holds column k's case mean exactly when some case has a
      value in column k. */
  lemma MeanKept(scores: seq<ScanScores>, k: nat)
    requires k < MetricColumns
    ensures var e := (ColumnNames[k], Number(Mean(CaseColumn(scores, k))));
            e in DropNa(MeanEntries(scores)) <==> exists j :: 0 <= j < |scores| && !CaseColumn(scores, k)[j].NaN?
  {
    var es := MeanEntries(scores);
    var col := CaseColumn(scores, k);
    assert es[k + 1] == (ColumnNames[k], Number(Mean(col)));
    if exists j :: 0 <= j < |scores| && !col[j].NaN? {
      assert !Mean(col).NaN?;
    }
  }

  /** The summary never holds `scan_id` or a NaN. */
  lemma MeanEntriesNumbers(scores: seq<ScanScores>)
    ensures forall e :: e in DropNa(MeanEntries(scores)) ==> e.0 != "scan_id" && e.1.Number? && !e.1.v.NaN?
  {
    var es := MeanEntries(scores);
    forall e | e in DropNa(es) ensures e.0 != "scan_id" && e.1.Number? && !e.1.v.NaN? {
      var i :| 0 <= i < |es| && es[i] == e;
      MeanEntryShape(scores, i);
    }
  }

  lemma MeanEntryShape(scores: seq<ScanScores>, i: nat)
    requires i < |MeanEntries(scores)| && !IsNa(MeanEntries(scores)[i].1)
    ensures var e := MeanEntries(scores)[i];
            e.0 != "scan_id" && e.1.Number? && !e.1.v.NaN?
  {
    var es := MeanEntries(scores);
    assert i != 0;
    assert es[i].0 == ColumnNames[i - 1];
    ColumnNamesCapitalised(i - 1);
    assert "scan_id"[0] == 's';
  }

  /** Every column name starts with a capital letter, unlike `scan_id`. */
  lemma ColumnNamesCapitalised(k: nat)
    requires k < MetricColumns
    ensures |ColumnNames[k]| > 0 && 'A' <= ColumnNames[k][0] <= 'Z'
  {
  }
}

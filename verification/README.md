# LISA2024 segmentation scorer — a Dafny model

This project models the scoring core of the LISA2024 hippocampus
segmentation evaluation, `evaluation_segmentation/score_seg.py`:

- `calculate_metrics` turns one pair of label volumes into ten values.
  Label 1 is the left hippocampus and label 2 the right one.
  Each side gets a Dice coefficient, a Hausdorff distance, a 95th-percentile
  Hausdorff distance, an average symmetric surface distance and a relative
  volume error (RVE).
  Nine values are rounded to 3 decimals.
  The right RVE is rounded to a whole number.
- `score_seg` pairs the i-th prediction with the i-th gold file by position.
  It builds one row per prediction: the case id, the ten values and five
  left/right averages.
  It then sorts the rows by case id.
- `main` builds the report from the sorted rows, in this order:
  - it appends the `describe()` statistics rows, with count, min and max
    dropped and the quartiles renamed;
  - it appends an `Average` row of mean/std pairs;
  - it writes a summary record: the `mean` row plus three fixed entries,
    with NaN entries removed.

The modules follow the program:

| module | models |
|---|---|
| `Outcomes` | Python exceptions as a `Result`; `Collect`, which stops a loop at its first error |
| `Values` | float64 values (finite, infinity, NaN) and Python's `round` |
| `Labels` | label volumes, the `== label` masks, `np.sum` |
| `Metrics` | `calculate_metrics` |
| `CaseIds` | `'_'.join(name.split('_')[6:])` |
| `Sorting` | `sort_values(by="scan_id")` on strings |
| `Scoring` | `score_seg` |
| `Statistics` | the column mean of pandas, NaN skipped |
| `Report` | `describe`, `rename`, `drop`, `concat`, `loc`, the NaN filter |
| `Submission` | `main` from line 143 to line 179 |

The right RVE at line 69 compares the sum of ALL labels of the prediction
with the number of right gold voxels. The evidently intended predicted
volume is the number of right predicted voxels (see Findings).
`Metrics.Convention` selects the behaviour:

- `AsWritten` is what the code does.
- `Corrected` is the intended computation, counted like the left side.

Every operation above `Metrics` takes the convention as a parameter.
Every contract there holds for both conventions.

What the code does at its edges:

- A gold volume with no left voxel does not raise an error. The left RVE
  becomes NaN (0/0) or infinity, because numpy scalar division does not
  raise.
- A gold volume with no right voxel does raise an error. The whole-number
  `round` of NaN raises ValueError. The whole-number `round` of infinity
  raises OverflowError.
- The two file lists are not checked for equal length:
  - extra gold files are ignored;
  - a prediction without a gold file raises IndexError.
- The statistics rows carry their statistic name as index label and NaN as
  `scan_id`.
- The `Average` row's mean and std are taken over the case rows AND the
  five statistics rows, because `results` already holds them at line 157.
- With no prediction at all, sorting raises KeyError on `scan_id`.

## Model

| member | source | states |
|---|---|---|
| Labels.MasksDisjoint | evaluation_segmentation/score_seg.py:46-50 | no voxel is in both the left and the right mask, so the two voxel counts add up to at most the size of the volume |
| Labels.SumOfLabelGrid | evaluation_segmentation/score_seg.py:69 | on a volume of labels 0/1/2, `np.sum(pred_array)` counts each left voxel once and each right voxel twice |
| Labels.Count | evaluation_segmentation/score_seg.py:58-59 | the voxel count of a mask is at most its size, and zero exactly when no voxel is set |
| Values.NearestInt | evaluation_segmentation/score_seg.py:72 | `round(x)` is within 0.5 of x, exact on integers, and an exact tie goes to the even integer |
| Values.Round3 | evaluation_segmentation/score_seg.py:72 | `round(x, 3)` has at most 3 decimals, is within 0.0005 of x, and leaves a 3-decimal value unchanged |
| Values.Round3Idempotent | evaluation_segmentation/score_seg.py:72 | rounding an already rounded value to 3 decimals changes nothing |
| Values.Round3Monotone | evaluation_segmentation/score_seg.py:72 | rounding to 3 decimals never reverses the order of two values |
| Values.RoundValue3 | evaluation_segmentation/score_seg.py:72 | `round(v, 3)` on a float64 keeps NaN and infinity and rounds a finite value to 3 decimals within 0.0005 |
| Values.RoundWhole | evaluation_segmentation/score_seg.py:72 | `round(rve_value_R)` succeeds exactly on a finite value, giving an integer within 0.5 of it; infinity raises OverflowError, NaN raises ValueError |
| Metrics.Rve | evaluation_segmentation/score_seg.py:58-60 | the relative volume error is finite and non-negative when the gold volume is non-empty, and zero exactly when the two volumes agree; over an empty gold volume it is NaN (empty prediction) or infinity |
| Metrics.CalculateMetrics | evaluation_segmentation/score_seg.py:40-72 | succeeds exactly when the gold volume has a right voxel, else raises the error of `round` on NaN or infinity; the library values reach the result rounded to 3 decimals, the left RVE to 3 decimals and the right RVE to a whole number within 0.5 of the exact error; equal volumes give an RVE of 0 |
| Metrics.RightVolumeAsWritten | evaluation_segmentation/score_seg.py:68-69 | as written, the right predicted volume is the left voxel count plus twice the right voxel count |
| Metrics.IdenticalScansAsWritten | evaluation_segmentation/score_seg.py:68-72 | as written, a prediction identical to its gold volume gets a right RVE of at least 1 |
| Metrics.OneVoxelEachAsWritten | evaluation_segmentation/score_seg.py:58-72 | as written, a volume with one left and one right voxel, predicted exactly, gets a left RVE of 0 and a right RVE of 2 |
| Metrics.IdenticalScansCorrected | evaluation_segmentation/score_seg.py:58-70 | with the right predicted volume counted like the left one, an identical prediction gets an RVE of 0 on both sides |
| CaseIds.Split | evaluation_segmentation/score_seg.py:105 | `str.split('_')` gives one more part than there are separators, and no part contains a separator |
| CaseIds.JoinSplit | evaluation_segmentation/score_seg.py:105-108 | joining the parts of a split with `_` gives back the name |
| CaseIds.SplitJoin | evaluation_segmentation/score_seg.py:105-108 | splitting a `_`-join of separator-free parts gives back the parts |
| CaseIds.CaseIdIsSuffix | evaluation_segmentation/score_seg.py:105-108 | a gold file name with at least six `_` is its first six fields, each followed by `_`, then the case id, so the case id is everything after the sixth `_`; with fewer than six `_` the case id is empty |
| CaseIds.JoinPrefix | evaluation_segmentation/score_seg.py:108 | a `_`-join is its first k fields, each followed by `_`, then the join of the remaining fields |
| CaseIds.CaseIdAfterSixFields | evaluation_segmentation/score_seg.py:105-108 | for a name made of six separator-free fields, each followed by `_`, and then a rest, the case id is exactly that rest |
| Sorting.SortBy | evaluation_segmentation/score_seg.py:134 | the result is ordered by key, has the input's length and is a permutation of the input |
| Scoring.RoundedMidpointSpec | evaluation_segmentation/score_seg.py:98-102 | the rounded average of two sides is symmetric, NaN exactly when a side is NaN, finite exactly when both are, and for 3-decimal sides lies between them and equals their common value when they agree |
| Scoring.RowAt | evaluation_segmentation/score_seg.py:80-130 | the row of prediction i exists exactly when gold file i exists and has a right voxel; it carries position i, the case id of gold file i, the case's metrics and their rounded averages; a missing gold file raises IndexError(i), otherwise the error is the one `calculate_metrics` raises (ValueError or OverflowError from `round`) |
| Outcomes.Collect | evaluation_segmentation/score_seg.py:80-132 | a loop over outcomes finishes exactly when every step succeeds, returning every result in order; otherwise it fails with the error of the first failing step |
| Scoring.ScoreRowsOk | evaluation_segmentation/score_seg.py:80-132 | the scoring loop finishes exactly when every prediction has a scorable gold file |
| Scoring.ScoreRowsRows | evaluation_segmentation/score_seg.py:80-132 | after the loop, row j is the row of prediction j |
| Scoring.ScoreRowsError | evaluation_segmentation/score_seg.py:80-132 | a failed loop reports the error of the first prediction that is not scorable, all earlier ones being scorable |
| Scoring.MissingGoldError | evaluation_segmentation/score_seg.py:84 | with more predictions than gold files, all of them scorable, the loop raises IndexError at the first position without a gold file |
| Scoring.ScoreSeg | evaluation_segmentation/score_seg.py:74-134 | succeeds exactly when there is a prediction and every prediction is scorable; the result is ordered by case id, is a permutation of the loop's rows, has one row per prediction, and each row is the row of its own prediction; no prediction raises KeyError |
| Scoring.SortedRows | evaluation_segmentation/score_seg.py:130-134 | sorting the rows of a finished loop by case id keeps one row per prediction, as a permutation, each the row of its own prediction |
| Scoring.ScoreSegFailure | evaluation_segmentation/score_seg.py:80-134 | a failed run with at least one prediction reports the error of the first unscorable prediction |
| Scoring.MoreScansThanGold | evaluation_segmentation/score_seg.py:84 | more predictions than gold files, all scorable, end the run with IndexError at the first missing position |
| Scoring.EveryPredictionScored | evaluation_segmentation/score_seg.py:130-134 | every prediction has its row in the sorted table |
| Statistics.NonNaN | evaluation_segmentation/score_seg.py:147 | the `count` statistic is at most the column length, and zero exactly when every entry is NaN |
| Statistics.Mean | evaluation_segmentation/score_seg.py:147 | a column mean is NaN exactly when every entry is NaN, and infinite exactly when some entry is infinite |
| Statistics.MeanWithinBounds | evaluation_segmentation/score_seg.py:157 | a finite mean lies within any bounds that hold for every finite entry |
| Statistics.MeanOfThreeCases | evaluation_segmentation/score_seg.py:157 | per-case values 0.9, 0.8 and 0.7 have mean 0.8, in exact real arithmetic |
| Report.SummaryStatsLayout | evaluation_segmentation/score_seg.py:147-149 | after renaming and dropping, the statistics rows are mean, std, 25quantile, median and 75quantile, in that order, each holding its statistic of every case column |
| Report.Loc | evaluation_segmentation/score_seg.py:175 | `loc[name]` returns a row labelled `name` when there is one, and raises KeyError(name) exactly when there is none |
| Report.AverageAppended | evaluation_segmentation/score_seg.py:164 | the `Average` label n + 5 is not taken, so `loc` appends a new last row |
| Report.TableLayout | evaluation_segmentation/score_seg.py:146-164 | the table has the n case rows in order, the five named statistics rows, and a last `Average` row whose cells pair each column's mean and std over the case rows and the statistics rows |
| Report.DropNa | evaluation_segmentation/score_seg.py:179 | the filtered record holds exactly the entries of the original that are not NA, and no NA entry |
| Report.DropNaSingle | evaluation_segmentation/score_seg.py:179 | a single entry is kept exactly when it is not NA |
| Report.DropNaCounts | evaluation_segmentation/score_seg.py:179 | every entry that is not NA is kept as often as it occurs, and NA entries not at all |
| Report.DropNaAppend | evaluation_segmentation/score_seg.py:179 | filtering a concatenation filters each part; with DropNaSingle this fixes the kept entries in their original order |
| Report.RecordTailKept | evaluation_segmentation/score_seg.py:175-179 | the cases_evaluated, submission_scores and submission_status entries always survive the NA filter |
| Report.SummaryOfTable | evaluation_segmentation/score_seg.py:174-179 | the record is the case-column means with NaN removed, followed by the three fixed entries |
| Submission.ScoreSubmission | evaluation_segmentation/score_seg.py:143-179 | main fails exactly when score_seg fails, with its error; otherwise cases_evaluated is the number of predictions, the table is the assembled table of the sorted rows, laid out as Report.TableLayout states (n case rows, five statistics rows, then `Average`), and the record is the case means without NaN plus the fixed entries |
| Submission.MeanKept | evaluation_segmentation/score_seg.py:175-179 | column k's case mean is in the record exactly when some case has a non-NaN value in column k |
| Submission.MeanEntriesNumbers | evaluation_segmentation/score_seg.py:175-179 | the record's mean entries never include `scan_id` or a NaN, and all of them are numbers |

## Left out

- The container runner, zip inspection, argument parsing, `os.path.join` and
  the file reads are not modelled. A `Loader` parameter maps a file name to
  its label volume.
- The surface-distance library is not modelled. It computes the Dice
  coefficient, the surface distances, the robust Hausdorff distances and the
  average surface distances. A `Measure` parameter stands for it, at the
  fixed spacing 1 x 1 x 1.
- The Float32 cast is not modelled: labels 0, 1 and 2 are unchanged by it.
- `np.sum` of a Float32 volume is exact only up to 2^24. The model sums
  exact integers, so very large volumes are not modelled.
- Metrics.CalculateMetrics: the gold and predicted volumes are taken as
  flat grids and are assumed to have the same shape. numpy would raise or
  broadcast on volumes of different shapes; the model pairs voxels by
  position and never fails on a length mismatch. The surface-distance
  library is assumed never to raise.
- Floating point: every float64 operation is modelled on exact reals, not
  only rounding. This covers the RVE divisions at lines 60 and 70 of
  `evaluation_segmentation/score_seg.py`, the midpoints at lines 98-102 and
  the pandas means at lines 147 and 157. A float64 result may differ from
  the exact one in its last bits; Statistics.MeanOfThreeCases holds for the
  exact values and not bit for bit in float64.
- Values.Round3: Python rounds the binary float64 nearest to a decimal.
  The model rounds the exact real value. The two differ only when the
  binary value lies just beside a tie.
- Negative infinity is not modelled: no metric is negative.
- pandas' standard deviation and quantiles are not modelled. An
  `Estimators` parameter stands for them. The mean is modelled.
- Report.AverageCells: the text `"{mean:.2f}±{std:.2f}"` is kept as the
  pair it is formatted from.
- The CSV and JSON files, their encodings and the upload are not modelled.
  The identifier the upload returns is a parameter.
- Report.LocSet: `loc` on a label shared by several rows is modelled as the
  first such row. The labels the scorer uses are never shared.
- Scoring.ScoreSeg: pandas' default sort is not stable, so the order of rows
  with equal case ids is not fixed by the code. The contract states only that
  the result is ordered by case id and is a permutation of the rows. The model
  itself uses a stable insertion sort.

## Findings

| source | as written | input that shows it | evidently intended | confidence | as-written member | corrected member |
|---|---|---|---|---|---|---|
| evaluation_segmentation/score_seg.py:69 | the right predicted volume is `np.sum(pred_array)`, the sum of all labels of the prediction | gold = prediction = one left voxel and one right voxel; the right RVE is abs(3 - 1) / 1 = 2 instead of 0 | `np.sum(pred_array_R)`, the number of right predicted voxels, as on the left side at line 59 | not executed | Metrics.OneVoxelEachAsWritten | Metrics.IdenticalScansCorrected |

# Town summary scorecard: a Dafny model

This project models the scorecard computation of `generate_summary_logic` in
`app.py`. The function takes the rows of a dealership-coverage sheet and
builds one summary line per stratification and row type.

- **Filter.** Rows whose town mentions "total" in any letter case are
  dropped.
- **BAL classifier.** Each remaining row's BAL store type is classified by
  `get_bal_class` as Pri Store, ASD or Vacant.
- **TVS counter.** Each TVS store type is turned by `get_tvs_counts` into a
  (primary, secondary) pair of 0/1 flags.
- **Nested loop.** The outer loop walks the fixed list Large Town, Small Town,
  Rural, Deep Rural and skips a stratification that has no rows. For each
  stratification it keeps, the inner loop walks Pri Store, ASD and Vacant.
- **One line per bucket.** Each line holds:
  - the BAL count and the TVS counts;
  - the sums of the industry, BAL and TVS volumes, with non-numeric entries
    skipped;
  - BAL market share, store gap and volume gap;
  - the unique location gap;
  - additions from the intervention text, with reductions fixed at 0;
  - the network count after the plan;
  - the post-appointment gap, floored at 0.

## Modules

- `text.dfy`, module `Text`:
  - ASCII upper-casing;
  - the substring test `kw in s`;
  - the case-insensitive `str.contains`;
  - lemmas about occurrences in concatenations.
- `store_types.dfy`, module `StoreTypes`:
  - the two classifiers as functions;
  - their characterisation by the keyword tables;
  - worked classifications.
- `summary.dfy`, module `Summary`:
  - the row and line records;
  - the filters and per-bucket sums;
  - `BucketRow`, the metric block as a function;
  - `Scorecard`, the whole output as a function of the input;
  - the imperative loops:
    - `GenerateSummary` is the stratification loop;
    - `MeasureStrat` is the row-type loop;
    - `MeasureBucket` computes the metric block one assignment at a time;
    - each is proved to produce exactly what the function specifies.
- `summary_props.dfy`, module `SummaryProps`: what the scorecard promises.
  - Its layout: order, skipping, three lines per stratification, where labels
    go.
  - How a stratification is split among its three lines.
  - The definition and bounds of every metric.
  - The rows that never contribute.
  - A worked sheet of three records.

Representation choices:

- A row carries its town, stratification, BAL and TVS store types and
  intervention text as strings, and its three volumes as `Option<real>`.
  `None` stands for a cell that numeric coercion turns into NaN. Such a cell
  is skipped by the sum.
- A missing text cell is the text `"nan"`, which is what `str()` gives for it.

Where the comments in `app.py` or other versions of this report suggest
otherwise, the model follows the code:

- Store gap and volume gap are both TVS minus BAL (app.py:89, app.py:96).
- A stratification without rows is skipped, not zero-filled (app.py:56-57).
- No Total line is produced (app.py:148-152).
- No closed-store filter is applied.
- Additions to Primary test for "Branch" only, not MD (app.py:110).
- "BR" makes a type Primary only when it is the whole upper-cased text
  (app.py:30).
- The TVS flags do not use "BR" or "REP" (app.py:41-42).

## Model

| member | source | states |
|---|---|---|
| StoreTypes.BalClass | app.py:26-36 | `get_bal_class`: the row type of a BAL store type, from the ordered keyword tests on the upper-cased text. It has no contract of its own. `BalClassByKeywords` characterises it. |
| StoreTypes.BalClassByKeywords | app.py:26-36 | The BAL class in both directions. Pri Store iff the upper-cased type mentions MD, BRANCH or DEALER or is exactly "BR". ASD iff it is not Primary and mentions ASD, AD, SUB or REP. Vacant iff it matches none. So the class is one of three and the Primary tests take precedence. |
| StoreTypes.BalPrimaryStable | app.py:28-31 | A type mentioning MD, BRANCH or DEALER stays Pri Store whatever text is added before or after it, Secondary keywords included. |
| StoreTypes.BalSecondaryNeverVacant | app.py:30-36 | Adding text around a Secondary type never makes it Vacant. |
| StoreTypes.BalVacantPieces | app.py:28-36 | Every piece of a Vacant type is itself Vacant, unless the piece reads exactly "BR". |
| StoreTypes.BrMentionsNoKeyword | app.py:30-33 | The text "BR" contains none of the Primary or Secondary keywords, so only the whole-text test can make it Primary. |
| StoreTypes.TvsCounts | app.py:38-43 | Each TVS flag is 0 or 1. |
| StoreTypes.TvsPrimaryIffBalPrimary | app.py:30-41 | The TVS primary flag is 1 exactly when the same text would be BAL Pri Store and is not the bare "BR". |
| StoreTypes.BalSecondaryVsTvs | app.py:33-42 | A type is BAL ASD exactly when the TVS primary flag is 0, it is not "BR", and either the TVS secondary flag is 1 or it mentions REP. REP counts for BAL only. |
| StoreTypes.RoadIsSecondary | app.py:33 | "ROAD" is ASD, because AD matches as a substring. |
| StoreTypes.MdAsdIsPrimary | app.py:30-34 | "MD/ASD" is Pri Store: the Primary tests run first. |
| StoreTypes.SubDealerIsPrimary | app.py:28-34 | "Sub Dealer" is Pri Store: DEALER wins over SUB. |
| StoreTypes.BrIsWholeText | app.py:28-30 | "br" is Pri Store after upper-casing, but "BR " with a trailing blank is Vacant. |
| StoreTypes.RepCountsForBalOnly | app.py:33-42 | "Rep" is BAL ASD, but its TVS flags are (0, 0). |
| StoreTypes.MissingCellIsVacant | app.py:28-43 | A missing cell, read as "nan", is Vacant and sets no TVS flag. |
| StoreTypes.TvsBothFlags | app.py:40-43 | The two TVS flags are independent: "MD/ASD" gives (1, 1). |
| Summary.DropTotals | app.py:23 | The input without its rows whose town mentions "total" in any letter case, order kept. Its contract bounds the length by the input's. `DropTotalsMembers` gives exactly which rows are kept. |
| Summary.StratRows | app.py:59 | The rows of one stratification, order kept. Its contract bounds the length by the input's. `StratRowsMembers` gives exactly which rows they are. |
| Summary.ClassRows | app.py:66 | The rows of one row type, order kept. Its contract bounds the length by the input's. `ClassRowsMembers` gives exactly which rows they are, and `ClassPartition` shows the three row types split the input. |
| Summary.SumColumn | app.py:82-85 | The sum of one volume column, with non-numeric entries skipped. It has no contract of its own. `UnparsedVolumeAddsNothing` and `ClassPartition` state its properties. |
| Summary.BucketRow | app.py:71-146 | The line for one stratification and row type: counts, volume sums, share, gaps, additions and post-appointment figures. It has no contract of its own. Its volume fields are `SumColumn` over the bucket's rows, its TVS counts are `TvsPriTotal` and `TvsSecTotal`, and its additions are `NatureCount` for "BRANCH" and for "ASD". `BucketRowMetrics` states the derived metrics and bounds the counts. `MeasureBucket` computes the line step by step. |
| Summary.Scorecard | app.py:23-146 | The whole output as a function of the input: the "Total" filter, then the blocks of the listed stratifications that have rows. It has no contract of its own. `GenerateSummary` is proved to produce it, and `ScorecardLines`, `ScorecardLabels` and `ScorecardBlockTotals` state its layout and totals. |
| Summary.DropTotalsMembers | app.py:23 | A row is kept exactly when it is in the input and its town does not mention "total" in any letter case. |
| Summary.StratRowsMembers | app.py:59 | The stratification subset holds exactly the input rows of that stratification. |
| Summary.ClassRowsMembers | app.py:46-66 | The row-type subset holds exactly the rows whose BAL type classifies as that row type. |
| Summary.StratPresent | app.py:53-57 | A stratification is among the values present exactly when its subset is non-empty, which is the skip test of the outer loop. |
| Summary.TvsPriTotal | app.py:74-75 | The TVS primary count of a bucket is at most its number of rows. |
| Summary.TvsSecTotal | app.py:74-76 | The TVS secondary count of a bucket is at most its number of rows. |
| Summary.NatureCount | app.py:110-111 | The additions counted from the intervention text are at most the number of rows. |
| Summary.MeasureBucket | app.py:68-146 | Computing the metrics one assignment at a time, including the two assignments of the unique location gap, yields exactly the line `BucketRow` specifies. |
| Summary.MeasureStrat | app.py:61-146 | The row-type loop appends the lines for Pri Store, ASD and Vacant, in that order. |
| Summary.GenerateSummary | app.py:23-146 | The nested loops produce exactly `Scorecard(input)`: the "Total" filter, then the blocks of the stratifications that are present. |
| SummaryProps.ClassPartition | app.py:59-85 | Every row of a stratification falls into exactly one row type. The three counts add up to the number of rows. For every volume column, the three sums add up to the stratification's sum. |
| SummaryProps.BucketRowMetrics | app.py:71-123 | The metrics of each line are listed below. |
| SummaryProps.ClampedGapExample | app.py:99-123 | A Vacant record whose intervention is "New Branch + ASD" counts two additions against a gap of 1. The post-appointment gap is clamped to 0, not -1. |
| SummaryProps.PresentMembers | app.py:52-57 | The stratifications emitted are exactly the listed ones that have rows. |
| SummaryProps.PresentInOrder | app.py:52-57 | The stratifications emitted keep the order of the fixed list. |
| SummaryProps.BlocksLayout | app.py:55-146 | The blocks hold three lines per present stratification. Line i is the line of row type i mod 3 for present stratification i / 3. |
| SummaryProps.ScorecardLines | app.py:52-66 | For the whole scorecard: its length is three times the number of present stratifications; membership; fixed order; and line i comes from stratification i / 3 and row type i mod 3. |
| SummaryProps.ScorecardLabels | app.py:62-128 | Line i carries row type Pri Store, ASD, Vacant by i mod 3, printed under the labels "Pri Store", "ASD", "Vacant". Its stratification label is non-empty exactly on the Pri Store line, where it names the stratification. |
| SummaryProps.ScorecardBlockTotals | app.py:59-85 | Each present stratification's three BAL counts add up to its number of rows, which is positive. The industry, BAL and TVS volumes of the three lines add up to the stratification's sums of those columns. |
| SummaryProps.TotalRowIgnored | app.py:23 | Inserting a row whose town mentions "total" anywhere in the input leaves the scorecard unchanged. |
| SummaryProps.UnlistedStratIgnored | app.py:52-59 | Inserting a row whose stratification is not in the fixed list leaves the scorecard unchanged. |
| SummaryProps.UnparsedVolumeAddsNothing | app.py:82-85 | A volume that does not parse as a number adds nothing to its column's sum. |
| SummaryProps.PresentFirstAndThird | app.py:55-57 | Of four stratifications, if only the first and third have rows, those two are emitted, in that order. |
| SummaryProps.TwoBlockLines | app.py:55-64 | With two present stratifications, the scorecard has six lines: the first stratification's three row types, then the second's. |
| SummaryProps.SampleSheetPresent | app.py:52-57 | See the worked sheet below. |
| SummaryProps.WorkedSheet | app.py:23-146 | See the worked sheet below. |

`SummaryProps.BucketRowMetrics` states, for every line:

- The TVS counts and the additions are at most the BAL count.
- The store gap is TVS primary plus TVS secondary minus the BAL count.
- The volume gap is TVS volume minus BAL volume.
- The market share times the industry volume is the BAL volume when the
  industry volume is positive. Otherwise the market share is 0.
- The unique location gap is the BAL count on Vacant lines and 0 elsewhere.
- The post-appointment gap is at most that gap and is 0 off Vacant.
- The post-appointment gap is 0 exactly when the additions cover the gap.
- Reductions are 0, and the network count is the BAL count plus the
  additions.

The worked sheet has three records: MD with industry 100 and BAL 40 in Large
Town, ASD with BAL 10 in Large Town, and one with a blank type in Rural.

- `SummaryProps.SampleSheetPresent` states that only Large Town and Rural
  are emitted.
- `SummaryProps.WorkedSheet` states that the scorecard has six lines:
  - Large Town Pri Store has count 1, industry 100, BAL 40 and share 0.4.
  - Large Town ASD has count 1, BAL 10 and share 0.
  - Large Town Vacant is empty.
  - Rural is labelled on its first line.
  - Rural Vacant has count 1, gap 1 and post-appointment gap 1.
  - Small Town and Deep Rural are absent.

## Left out

- Reading the CSV, the header-row fallback with its bare `except`, and the
  cleaning of header newlines (app.py:9-19) are file I/O and parsing. The
  model starts from the rows.
- A sheet missing any column the core reads raises `KeyError` in the source.
  Those columns are `Town`, `Updated Stratification`, the two store types,
  the three volumes and `Nature of Intervention` (app.py:23, 28, 40, 53,
  82-85, 110). The model starts from complete rows, so it has no such error
  path.
- The CR column (app.py:90-92) is a floating-point mean with NaN handling,
  and it is not modelled. Its fallback at line 91 cannot run: line 90 raises
  when the column is missing, before the test is reached.
- Building the pandas DataFrame and its column titles (app.py:154-163) is
  not modelled. Those titles put the row type under "# Store Count" and the
  BAL count under "BAL". The model keeps the values under their own names.
- Also left out: the unused `output_file_path` parameter and the unused
  `io` and `xlsxwriter` imports.
- Volumes are exact reals. Float rounding is not modelled. NaN is modelled
  only as a skipped entry (`None`).
- Upper-casing is ASCII only. Python's `str.upper` also maps non-ASCII
  letters, and can lengthen a string.
- The case-insensitive `str.contains(..., case=False)` at app.py:23,
  app.py:110 and app.py:111 is modelled as a substring test on the ASCII
  upper-cased text. pandas runs a case-ignoring regular-expression search,
  which also folds non-ASCII letters. For example, "ſ" (long s) matches the
  S of "ASD" there, but not in the model.
- The metric block is a separate method, `MeasureBucket`, and the row-type
  loop is `MeasureStrat`, both called from the loop that owns them. In the
  source both are written inline in the loop body.

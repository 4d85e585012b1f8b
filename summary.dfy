/** The town summary scorecard of `generate_summary_logic`: drop "Total" rows,
    then for each stratification of a fixed list that has rows, emit one
    summary row per row type (Pri Store, ASD, Vacant) with its counts, volume
    sums, market share, gaps, additions and post-intervention figures.

    `Scorecard` is the specification as a function of the input rows;
    `GenerateSummary` is the nested loop that builds the list by appending
    and is proved to produce exactly `Scorecard(input)`. */
module Summary {
  import opened Text
  import opened StoreTypes

  datatype Option<+T> = None | Some(value: T)

  /** One store record once the sheet is loaded. A missing text cell is the
      text "nan"; a volume the numeric coercion turns into NaN is `None`. */
  datatype Row = Row(
    town: string,
    strat: string,
    balType: string,
    tvsType: string,
    nature: string,
    indVol: Option<real>,
    balVol: Option<real>,
    tvsVol: Option<real>)

  /** The three volume columns that are summed per bucket. */
  datatype Column = IndS1 | BalS1 | TvsS1

  function Volume(r: Row, col: Column): Option<real>
  {
    match col
    case IndS1 => r.indVol
    case BalS1 => r.balVol
    case TvsS1 => r.tvsVol
  }

  /** One line of the scorecard. `stratLabel` is the stratification on the
      Pri Store line and empty on the other two. */
  datatype SummaryRow = SummaryRow(
    stratLabel: string,
    rowType: RowClass,
    balCount: nat,
    tvsPri: nat,
    tvsSec: nat,
    storeGap: int,
    uniqueLocGap: nat,
    indS1: real,
    balS1Vol: real,
    balMs: real,
    tvsS1Vol: real,
    volGap: real,
    addPri: nat,
    addSec: nat,
    redPri: nat,
    redSec: nat,
    netCountUp: int,
    uniqueLocGapPost: nat)

  /** The stratifications, in report order. */
  const Strats: seq<string> := ["Large Town", "Small Town", "Rural", "Deep Rural"]

  /** A row whose town mentions "total" in any letter case is a roll-up line. */
  predicate IsTotalTown(town: string)
  {
    ContainsNoCase(town, "TOTAL")
  }

  /** The input without its "Total" rows, order kept. */
  function DropTotals(rows: seq<Row>): (kept: seq<Row>)
    ensures |kept| <= |rows|
  {
    if rows == [] then []
    else (if IsTotalTown(rows[0].town) then [] else [rows[0]]) + DropTotals(rows[1..])
  }

  /** The rows of stratification `strat`, in input order. */
  function StratRows(rows: seq<Row>, strat: string): (sub: seq<Row>)
    ensures |sub| <= |rows|
  {
    if rows == [] then []
    else (if rows[0].strat == strat then [rows[0]] else []) + StratRows(rows[1..], strat)
  }

  /** The rows whose BAL store type falls in row type `rtype`, in input order. */
  function ClassRows(rows: seq<Row>, rtype: RowClass): (sub: seq<Row>)
    ensures |sub| <= |rows|
  {
    if rows == [] then []
    else (if BalClass(rows[0].balType) == rtype then [rows[0]] else []) + ClassRows(rows[1..], rtype)
  }

  /** Sum of the TVS primary flags. */
  function TvsPriTotal(rows: seq<Row>): (n: nat)
    ensures n <= |rows|
  {
    if rows == [] then 0 else TvsCounts(rows[0].tvsType).0 + TvsPriTotal(rows[1..])
  }

  /** Sum of the TVS secondary flags. */
  function TvsSecTotal(rows: seq<Row>): (n: nat)
    ensures n <= |rows|
  {
    if rows == [] then 0 else TvsCounts(rows[0].tvsType).1 + TvsSecTotal(rows[1..])
  }

  /** Number of rows whose intervention text mentions `keyword` in any letter case. */
  function NatureCount(rows: seq<Row>, keyword: string): (n: nat)
    ensures n <= |rows|
  {
    if rows == [] then 0
    else (if ContainsNoCase(rows[0].nature, keyword) then 1 else 0) + NatureCount(rows[1..], keyword)
  }

  /** What a row adds to the sum of a volume column: its value, or nothing when it is NaN. */
  function Addend(r: Row, col: Column): real
  {
    match Volume(r, col)
    case Some(v) => v
    case None => 0.0
  }

  /** The sum of a volume column with the NaN entries skipped (0 when none is numeric). */
  function SumColumn(rows: seq<Row>, col: Column): real
  {
    if rows == [] then 0.0 else Addend(rows[0], col) + SumColumn(rows[1..], col)
  }

  function Max0(x: int): nat
  {
    if x > 0 then x else 0
  }

  /** The metric block for the rows `sub` of one stratification and row type. */
  function BucketRow(strat: string, rtype: RowClass, sub: seq<Row>): SummaryRow
  {
    var balCount := |sub|;
    var tvsPri := TvsPriTotal(sub);
    var tvsSec := TvsSecTotal(sub);
    var ind := SumColumn(sub, IndS1);
    var bal := SumColumn(sub, BalS1);
    var tvs := SumColumn(sub, TvsS1);
    var gap := if rtype == Vacant then balCount else 0;
    var addPri := NatureCount(sub, "BRANCH");
    var addSec := NatureCount(sub, "ASD");
    SummaryRow(
      if rtype == PriStore then strat else "",
      rtype,
      balCount, tvsPri, tvsSec,
      tvsPri + tvsSec - balCount,
      gap,
      ind, bal,
      if ind > 0.0 then bal / ind else 0.0,
      tvs, tvs - bal,
      addPri, addSec, 0, 0,
      balCount + (addPri + addSec) - (0 + 0),
      Max0(gap - (addPri + addSec)))
  }

  /** The summary row for one stratification and row type of `rows`. */
  function RowFor(rows: seq<Row>, strat: string, rtype: RowClass): SummaryRow
  {
    BucketRow(strat, rtype, ClassRows(StratRows(rows, strat), rtype))
  }

  /** The first `n` rows of the block of `strat`, in the order of `RowTypes`. */
  function BlockPrefix(rows: seq<Row>, strat: string, n: nat): (block: seq<SummaryRow>)
    requires n <= |RowTypes|
  {
    seq(n, j requires 0 <= j < n => RowFor(rows, strat, RowTypes[j]))
  }

  /** The block a stratification contributes: three rows when it has rows, none otherwise. */
  function BlockOf(rows: seq<Row>, strat: string): seq<SummaryRow>
  {
    if StratRows(rows, strat) != [] then BlockPrefix(rows, strat, |RowTypes|) else []
  }

  /** The blocks of the stratifications `strats`, in their order. */
  function Blocks(rows: seq<Row>, strats: seq<string>): seq<SummaryRow>
  {
    if strats == [] then []
    else Blocks(rows, strats[..|strats| - 1]) + BlockOf(rows, strats[|strats| - 1])
  }

  /** The scorecard of an input sheet. */
  function Scorecard(input: seq<Row>): seq<SummaryRow>
  {
    Blocks(DropTotals(input), Strats)
  }

  /** `DropTotals` keeps exactly the rows whose town is not a roll-up line. */
  lemma {:induction false} DropTotalsMembers(rows: seq<Row>, r: Row)
    ensures r in DropTotals(rows) <==> r in rows && !IsTotalTown(r.town)
  {
    if rows != [] {
      DropTotalsMembers(rows[1..], r);
      assert rows == [rows[0]] + rows[1..];
    }
  }

  /** `StratRows` keeps exactly the rows of the stratification. */
  lemma {:induction false} StratRowsMembers(rows: seq<Row>, strat: string, r: Row)
    ensures r in StratRows(rows, strat) <==> r in rows && r.strat == strat
  {
    if rows != [] {
      StratRowsMembers(rows[1..], strat, r);
      assert rows == [rows[0]] + rows[1..];
    }
  }

  /** `ClassRows` keeps exactly the rows of the row type. */
  lemma {:induction false} ClassRowsMembers(rows: seq<Row>, rtype: RowClass, r: Row)
    ensures r in ClassRows(rows, rtype) <==> r in rows && BalClass(r.balType) == rtype
  {
    if rows != [] {
      ClassRowsMembers(rows[1..], rtype, r);
      assert rows == [rows[0]] + rows[1..];
    }
  }

  /** The distinct stratification values of the rows (`dropna().unique()`). */
  function StratValues(rows: seq<Row>): set<string>
  {
    set r | r in rows :: r.strat
  }

  /** A stratification value occurs among the rows exactly when it selects some row. */
  lemma {:induction false} StratPresent(rows: seq<Row>, strat: string)
    ensures strat in StratValues(rows) <==> StratRows(rows, strat) != []
  {
    if strat in StratValues(rows) {
      var r :| r in rows && r.strat == strat;
      StratRowsMembers(rows, strat, r);
    }
    if StratRows(rows, strat) != [] {
      StratRowsMembers(rows, strat, StratRows(rows, strat)[0]);
    }
  }

  /** Extending the list of stratifications by one adds that one's block at the end. */
  lemma BlocksStep(rows: seq<Row>, strats: seq<string>, i: nat)
    requires i < |strats|
    ensures Blocks(rows, strats[..i + 1]) == Blocks(rows, strats[..i]) + BlockOf(rows, strats[i])
  {
    assert strats[..i + 1][..i] == strats[..i];
  }

  /** Extending a block prefix by one row type adds that row type's line. */
  lemma BlockPrefixStep(rows: seq<Row>, strat: string, j: nat)
    requires j < |RowTypes|
    ensures BlockPrefix(rows, strat, j + 1) == BlockPrefix(rows, strat, j) + [RowFor(rows, strat, RowTypes[j])]
  {
  }

  /** The metric block of one bucket (counts, volume sums, ratios, gaps,
      additions and post-intervention figures) for the rows `rowRows` of one
      stratification and row type, assembled as its summary line. */
  method MeasureBucket(strat: string, rtype: RowClass, rowRows: seq<Row>) returns (line: SummaryRow)
    ensures line == BucketRow(strat, rtype, rowRows)
  {
    var balCount := |rowRows|;
    var tvsPri := TvsPriTotal(rowRows);
    var tvsSec := TvsSecTotal(rowRows);
    var tvsTotal := tvsPri + tvsSec;
    var indS1 := SumColumn(rowRows, IndS1);
    var balS1Vol := SumColumn(rowRows, BalS1);
    var tvsS1Vol := SumColumn(rowRows, TvsS1);
    var balMs := if indS1 > 0.0 then balS1Vol / indS1 else 0.0;
    var volGap := tvsS1Vol - balS1Vol;
    var storeGap := tvsTotal - balCount;
    var uniqueLocGap: nat := if rtype == Vacant then balCount else 0;
    if rtype == Vacant {
      uniqueLocGap := |rowRows|;
    } else {
      uniqueLocGap := 0;
    }
    var addPri := NatureCount(rowRows, "BRANCH");
    var addSec := NatureCount(rowRows, "ASD");
    var redPri, redSec := 0, 0;
    var netCountUp := balCount + (addPri + addSec) - (redPri + redSec);
    var gapPost := Max0(uniqueLocGap - (addPri + addSec));
    line := SummaryRow(
      if rtype == PriStore then strat else "",
      rtype, balCount, tvsPri, tvsSec, storeGap, uniqueLocGap,
      indS1, balS1Vol, balMs, tvsS1Vol, volGap,
      addPri, addSec, redPri, redSec, netCountUp, gapPost);
  }

  /** The row-type loop for one present stratification: one line per row
      type, in the order Pri Store, ASD, Vacant. */
  method MeasureStrat(rows: seq<Row>, strat: string) returns (block: seq<SummaryRow>)
    ensures block == BlockPrefix(rows, strat, |RowTypes|)
  {
    var stratRows := StratRows(rows, strat);
    block := [];
    var j := 0;
    while j < |RowTypes|
      invariant 0 <= j <= |RowTypes|
      invariant block == BlockPrefix(rows, strat, j)
    {
      var rtype := RowTypes[j];
      var rowRows := ClassRows(stratRows, rtype);
      var line := MeasureBucket(strat, rtype, rowRows);
      BlockPrefixStep(rows, strat, j);
      block := block + [line];
      j := j + 1;
    }
  }

  /** `generate_summary_logic` from the filtered sheet to the summary list:
      the stratification loop skips the absent ones and appends the block of
      each present one. */
  method GenerateSummary(input: seq<Row>) returns (summary: seq<SummaryRow>)
    ensures summary == Scorecard(input)
  {
    var rows := DropTotals(input);
    var existing := StratValues(rows);
    summary := [];
    var i := 0;
    while i < |Strats|
      invariant 0 <= i <= |Strats|
      invariant summary == Blocks(rows, Strats[..i])
    {
      var strat := Strats[i];
      BlocksStep(rows, Strats, i);
      StratPresent(rows, strat);
      if strat in existing {
        var block := MeasureStrat(rows, strat);
        summary := summary + block;
      }
      i := i + 1;
    }
    assert Strats[..|Strats|] == Strats;
  }
}

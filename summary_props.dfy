/** What the scorecard promises: its layout (stratifications in the fixed
    order, absent ones skipped, three lines each in row-type order, the label
    on the first line only), the partition of a stratification among its
    three lines, the metric definitions and their bounds, and the rows that
    never contribute (roll-up "Total" rows, unlisted stratifications,
    non-numeric volumes). */
module SummaryProps {
  import opened Text
  import opened StoreTypes
  import opened Summary

  /** The stratifications of `strats` that have rows, in the order of `strats`. */
  function Present(rows: seq<Row>, strats: seq<string>): seq<string>
  {
    if strats == [] then []
    else
      var last := strats[|strats| - 1];
      Present(rows, strats[..|strats| - 1]) + (if StratRows(rows, last) != [] then [last] else [])
  }

  /** The stratifications that appear in the scorecard of `input`. */
  function PresentStrats(input: seq<Row>): seq<string>
  {
    Present(DropTotals(input), Strats)
  }

  // ---------------------------------------------------------------------------
  // Sequence helpers for the row filters and sums

  lemma DropTotalsAppend(a: seq<Row>, b: seq<Row>)
    ensures DropTotals(a + b) == DropTotals(a) + DropTotals(b)
    decreases |a|
  {
    if a != [] {
      assert (a + b)[1..] == a[1..] + b;
      DropTotalsAppend(a[1..], b);
    } else {
      assert a + b == b;
    }
  }

  lemma StratRowsAppend(a: seq<Row>, b: seq<Row>, strat: string)
    ensures StratRows(a + b, strat) == StratRows(a, strat) + StratRows(b, strat)
    decreases |a|
  {
    if a != [] {
      assert (a + b)[1..] == a[1..] + b;
      StratRowsAppend(a[1..], b, strat);
    } else {
      assert a + b == b;
    }
  }

  lemma SumColumnAppend(a: seq<Row>, b: seq<Row>, col: Column)
    ensures SumColumn(a + b, col) == SumColumn(a, col) + SumColumn(b, col)
    decreases |a|
  {
    if a != [] {
      assert (a + b)[1..] == a[1..] + b;
      SumColumnAppend(a[1..], b, col);
    } else {
      assert a + b == b;
    }
  }

  // ---------------------------------------------------------------------------
  // One stratification is split among its three lines

  /** Every row of a stratification falls in exactly one of the three row
      types: the three counts add up to the number of rows, and so do the
      three sums of each volume column. */
  lemma {:induction false} ClassPartition(rows: seq<Row>)
    ensures |ClassRows(rows, PriStore)| + |ClassRows(rows, Asd)| + |ClassRows(rows, Vacant)| == |rows|
    ensures forall col: Column ::
              SumColumn(ClassRows(rows, PriStore), col) + SumColumn(ClassRows(rows, Asd), col)
                + SumColumn(ClassRows(rows, Vacant), col) == SumColumn(rows, col)
  {
    if rows != [] {
      ClassPartition(rows[1..]);
      var head := rows[0];
      forall col: Column
        ensures SumColumn(ClassRows(rows, PriStore), col) + SumColumn(ClassRows(rows, Asd), col)
                  + SumColumn(ClassRows(rows, Vacant), col) == SumColumn(rows, col)
      {
        ClassRowsHead(rows, PriStore, col);
        ClassRowsHead(rows, Asd, col);
        ClassRowsHead(rows, Vacant, col);
      }
    }
  }

  /** The sum over the rows of one type, split into the first row and the rest. */
  lemma ClassRowsHead(rows: seq<Row>, c: RowClass, col: Column)
    requires rows != []
    ensures SumColumn(ClassRows(rows, c), col) ==
              (if BalClass(rows[0].balType) == c then Addend(rows[0], col) else 0.0)
              + SumColumn(ClassRows(rows[1..], c), col)
  {
    var first := if BalClass(rows[0].balType) == c then [rows[0]] else [];
    SumColumnAppend(first, ClassRows(rows[1..], c), col);
    assert [rows[0]][1..] == [];
  }

  // ---------------------------------------------------------------------------
  // The metric block of one line

  /** The metrics of one line, as the report defines them: the TVS counts and
      the additions never exceed the BAL count; store gap and volume gap are
      TVS minus BAL; market share is BAL over industry volume, and 0 when the
      industry volume is not positive; the unique location gap is the BAL
      count on the Vacant line and 0 elsewhere; the post-appointment gap is
      that gap less the additions, floored at 0, so it is never more than the
      gap and is 0 on every line but Vacant; reductions are 0, so the network
      count after the plan is the BAL count plus the additions. */
  lemma BucketRowMetrics(strat: string, rtype: RowClass, sub: seq<Row>)
    ensures var line := BucketRow(strat, rtype, sub);
      && line.rowType == rtype
      && line.stratLabel == (if rtype == PriStore then strat else "")
      && line.balCount == |sub|
      && line.tvsPri <= line.balCount && line.tvsSec <= line.balCount
      && line.addPri <= line.balCount && line.addSec <= line.balCount
      && line.storeGap == line.tvsPri + line.tvsSec - line.balCount
      && line.volGap == line.tvsS1Vol - line.balS1Vol
      && (line.indS1 > 0.0 ==> line.balMs * line.indS1 == line.balS1Vol)
      && (line.indS1 <= 0.0 ==> line.balMs == 0.0)
      && line.uniqueLocGap == (if rtype == Vacant then line.balCount else 0)
      && line.uniqueLocGapPost <= line.uniqueLocGap
      && (rtype != Vacant ==> line.uniqueLocGapPost == 0)
      && (line.uniqueLocGapPost == 0 <==> line.addPri + line.addSec >= line.uniqueLocGap)
      && (line.uniqueLocGapPost > 0 ==>
            line.uniqueLocGapPost + line.addPri + line.addSec == line.uniqueLocGap)
      && line.redPri == 0 && line.redSec == 0
      && line.netCountUp == line.balCount + line.addPri + line.addSec
  {
  }

  /** The upper-cased intervention text of the clamp example below. */
  lemma UpperExample()
    ensures Upper("New Branch + ASD") == "NEW BRANCH + ASD"
  {
    var s := "New Branch + ASD";
    forall i | 0 <= i < |s|
      ensures Upper(s)[i] == "NEW BRANCH + ASD"[i]
    {
    }
  }

  /** A single Vacant record whose intervention mentions both a branch and an
      ASD is counted as two additions against a gap of one: the floor at 0 is
      what keeps the post-appointment gap from going negative. */
  lemma ClampedGapExample()
    ensures var sub := [Row("Azamgarh", "Rural", "nan", "nan", "New Branch + ASD", None, None, None)];
      var line := BucketRow("Rural", Vacant, sub);
      line.uniqueLocGap == 1 && line.addPri == 1 && line.addSec == 1 && line.uniqueLocGapPost == 0
  {
    var nature := "New Branch + ASD";
    var u := Upper(nature);
    UpperExample();
    ContainsInfix(u[..4], "BRANCH", u[10..], "BRANCH");
    assert u == u[..4] + "BRANCH" + u[10..];
    ContainsInfix(u[..13], "ASD", [], "ASD");
    assert u == u[..13] + "ASD" + [];
    var sub := [Row("Azamgarh", "Rural", "nan", "nan", nature, None, None, None)];
    assert sub[1..] == [];
    assert NatureCount(sub, "BRANCH") == 1;
    assert NatureCount(sub, "ASD") == 1;
  }

  // ---------------------------------------------------------------------------
  // Layout

  /** Which stratifications are present: exactly those of `strats` with rows. */
  lemma {:induction false} PresentMembers(rows: seq<Row>, strats: seq<string>)
    ensures forall s :: s in Present(rows, strats) <==> s in strats && StratRows(rows, s) != []
  {
    if strats != [] {
      var init := strats[..|strats| - 1];
      PresentMembers(rows, init);
      assert strats == init + [strats[|strats| - 1]];
    }
  }

  /** Any two entries of `p` stand in `order` in the same order as in `p`. */
  ghost predicate InOrderOf(p: seq<string>, order: seq<string>)
  {
    forall a, b :: 0 <= a < b < |p| ==>
      exists x, y :: 0 <= x < y < |order| && order[x] == p[a] && order[y] == p[b]
  }

  /** The present stratifications keep the order of `strats`: each one stands
      in `strats` after those listed before it. */
  lemma {:induction false} PresentInOrder(rows: seq<Row>, strats: seq<string>)
    ensures InOrderOf(Present(rows, strats), strats)
  {
    if strats != [] {
      var n := |strats| - 1;
      var init := strats[..n];
      var last := strats[n];
      PresentInOrder(rows, init);
      PresentMembers(rows, init);
      var p := Present(rows, strats);
      var q := Present(rows, init);
      assert p == q + (if StratRows(rows, last) != [] then [last] else []);
      forall a, b | 0 <= a < b < |p|
        ensures exists x, y :: 0 <= x < y < |strats| && strats[x] == p[a] && strats[y] == p[b]
      {
        if b < |q| {
          assert 0 <= a < b < |q|;
          assert InOrderOf(q, init);
          assert exists x, y :: 0 <= x < y < |init| && init[x] == q[a] && init[y] == q[b];
          var x, y :| 0 <= x < y < |init| && init[x] == q[a] && init[y] == q[b];
          assert strats[x] == p[a] && strats[y] == p[b];
          assert 0 <= x < y < |strats|;
        } else {
          assert p[a] == q[a] && p[b] == last;
          assert q[a] in q;
          assert q[a] in init;
          var x :| 0 <= x < |init| && init[x] == q[a];
          assert strats[x] == p[a] && strats[n] == p[b];
          assert 0 <= x < n < |strats|;
        }
      }
    } else {
      assert Present(rows, strats) == [];
    }
  }

  /** The blocks of `strats` are the present stratifications, three lines
      each: line `i` is the line of row type `i % 3` for stratification
      `i / 3`. */
  lemma {:induction false} BlocksLayout(rows: seq<Row>, strats: seq<string>)
    ensures |Blocks(rows, strats)| == 3 * |Present(rows, strats)|
    ensures forall i :: 0 <= i < |Blocks(rows, strats)| ==>
              Blocks(rows, strats)[i] == RowFor(rows, Present(rows, strats)[i / 3], RowTypes[i % 3])
  {
    if strats != [] {
      var init := strats[..|strats| - 1];
      var last := strats[|strats| - 1];
      BlocksLayout(rows, init);
      var before := Blocks(rows, init);
      var p := Present(rows, strats);
      var q := Present(rows, init);
      if StratRows(rows, last) != [] {
        assert p == q + [last];
        forall i | 0 <= i < |Blocks(rows, strats)|
          ensures Blocks(rows, strats)[i] == RowFor(rows, p[i / 3], RowTypes[i % 3])
        {
          if i < |before| {
            assert i / 3 < |q|;
          } else {
            var j := i - |before|;
            assert i / 3 == |q| && i % 3 == j;
          }
        }
      } else {
        assert p == q;
        assert Blocks(rows, strats) == before;
      }
    }
  }

  /** The scorecard is made of the present stratifications, in the fixed
      order and skipping those without rows, three lines each: line `i` is
      the line of row type `i % 3` (Pri Store, ASD, Vacant) for the
      stratification `i / 3`. */
  lemma ScorecardLines(input: seq<Row>)
    ensures |Scorecard(input)| == 3 * |PresentStrats(input)|
    ensures forall s :: s in PresentStrats(input) <==> s in Strats && StratRows(DropTotals(input), s) != []
    ensures InOrderOf(PresentStrats(input), Strats)
    ensures forall i :: 0 <= i < |Scorecard(input)| ==>
              Scorecard(input)[i] == RowFor(DropTotals(input), PresentStrats(input)[i / 3], RowTypes[i % 3])
  {
    var rows := DropTotals(input);
    BlocksLayout(rows, Strats);
    PresentMembers(rows, Strats);
    PresentInOrder(rows, Strats);
  }

  /** Each line carries its row type, in the order Pri Store, ASD, Vacant
      (printed under those labels), and the stratification's name stands on
      the Pri Store line only. */
  lemma ScorecardLabels(input: seq<Row>)
    ensures |Scorecard(input)| == 3 * |PresentStrats(input)|
    ensures forall i :: 0 <= i < |Scorecard(input)| ==> Scorecard(input)[i].rowType == RowTypes[i % 3]
    ensures forall i :: 0 <= i < |Scorecard(input)| ==>
              Label(Scorecard(input)[i].rowType) == ["Pri Store", "ASD", "Vacant"][i % 3]
    ensures forall i :: 0 <= i < |Scorecard(input)| ==>
              (Scorecard(input)[i].stratLabel != "" <==> i % 3 == 0)
    ensures forall i :: 0 <= i < |Scorecard(input)| && i % 3 == 0 ==>
              Scorecard(input)[i].stratLabel == PresentStrats(input)[i / 3]
  {
    ScorecardLines(input);
    var sc := Scorecard(input);
    var p := PresentStrats(input);
    forall i | 0 <= i < |sc|
      ensures sc[i].rowType == RowTypes[i % 3]
      ensures sc[i].stratLabel != "" <==> i % 3 == 0
      ensures i % 3 == 0 ==> sc[i].stratLabel == p[i / 3]
    {
      var strat := p[i / 3];
      assert strat in p;
      assert strat != "";
    }
  }

  /** The three lines of a present stratification split its rows: their BAL
      counts add up to the number of its rows (at least one), and their
      volume sums add up to the stratification's volume sums. */
  lemma ScorecardBlockTotals(input: seq<Row>, k: nat)
    requires k < |PresentStrats(input)|
    ensures var sc := Scorecard(input);
      var strat := PresentStrats(input)[k];
      var sub := StratRows(DropTotals(input), strat);
      && 3 * k + 2 < |sc|
      && sc[3 * k].balCount + sc[3 * k + 1].balCount + sc[3 * k + 2].balCount == |sub| > 0
      && (forall col: Column :: SumColumn(sub, col) ==
            SumColumn(ClassRows(sub, PriStore), col) + SumColumn(ClassRows(sub, Asd), col)
            + SumColumn(ClassRows(sub, Vacant), col))
      && sc[3 * k].indS1 + sc[3 * k + 1].indS1 + sc[3 * k + 2].indS1 == SumColumn(sub, IndS1)
      && sc[3 * k].balS1Vol + sc[3 * k + 1].balS1Vol + sc[3 * k + 2].balS1Vol == SumColumn(sub, BalS1)
      && sc[3 * k].tvsS1Vol + sc[3 * k + 1].tvsS1Vol + sc[3 * k + 2].tvsS1Vol == SumColumn(sub, TvsS1)
  {
    var sc := Scorecard(input);
    var p := PresentStrats(input);
    var rows := DropTotals(input);
    ScorecardLines(input);
    assert p[k] in p;
    var sub := StratRows(rows, p[k]);
    ClassPartition(sub);
    assert (3 * k) / 3 == k && (3 * k) % 3 == 0;
    assert (3 * k + 1) / 3 == k && (3 * k + 1) % 3 == 1;
    assert (3 * k + 2) / 3 == k && (3 * k + 2) % 3 == 2;
    assert sc[3 * k] == RowFor(rows, p[k], PriStore);
    assert sc[3 * k + 1] == RowFor(rows, p[k], Asd);
    assert sc[3 * k + 2] == RowFor(rows, p[k], Vacant);
  }

  // ---------------------------------------------------------------------------
  // Rows that never contribute

  /** The blocks depend on the rows only through the rows of each listed stratification. */
  lemma {:induction false} BlocksCongruent(r1: seq<Row>, r2: seq<Row>, strats: seq<string>)
    requires forall s :: s in strats ==> StratRows(r1, s) == StratRows(r2, s)
    ensures Blocks(r1, strats) == Blocks(r2, strats)
  {
    if strats != [] {
      var init := strats[..|strats| - 1];
      assert forall s :: s in init ==> s in strats;
      BlocksCongruent(r1, r2, init);
      var last := strats[|strats| - 1];
      assert StratRows(r1, last) == StratRows(r2, last);
      assert BlockPrefix(r1, last, |RowTypes|) == BlockPrefix(r2, last, |RowTypes|);
    }
  }

  /** A "Total" row, wherever it stands in the sheet, changes nothing in the scorecard. */
  lemma TotalRowIgnored(input: seq<Row>, i: nat, t: Row)
    requires i <= |input|
    requires IsTotalTown(t.town)
    ensures Scorecard(input[..i] + [t] + input[i..]) == Scorecard(input)
  {
    var a, b := input[..i], input[i..];
    assert a + b == input;
    DropTotalsAppend(a + [t], b);
    DropTotalsAppend(a, [t]);
    DropTotalsAppend(a, b);
    assert [t][1..] == [];
    assert DropTotals([t]) == [];
    assert DropTotals(a + [t]) == DropTotals(a);
  }

  /** A row of another stratification leaves the kept rows of `s` as they are. */
  lemma StratRowsSkipOther(a: seq<Row>, t: Row, b: seq<Row>, s: string)
    requires t.strat != s
    ensures StratRows(DropTotals(a + [t] + b), s) == StratRows(DropTotals(a + b), s)
  {
    DropTotalsAppend(a + [t], b);
    DropTotalsAppend(a, [t]);
    DropTotalsAppend(a, b);
    StratRowsAppend(DropTotals(a) + DropTotals([t]), DropTotals(b), s);
    StratRowsAppend(DropTotals(a), DropTotals([t]), s);
    StratRowsAppend(DropTotals(a), DropTotals(b), s);
    assert [t][1..] == [];
    assert StratRows(DropTotals([t]), s) == [];
  }

  /** A row whose stratification is not one of the four listed ones changes
      nothing in the scorecard. */
  lemma UnlistedStratIgnored(input: seq<Row>, i: nat, t: Row)
    requires i <= |input|
    requires t.strat !in Strats
    ensures Scorecard(input[..i] + [t] + input[i..]) == Scorecard(input)
  {
    var a, b := input[..i], input[i..];
    assert a + b == input;
    forall s | s in Strats
      ensures StratRows(DropTotals(a + [t] + b), s) == StratRows(DropTotals(input), s)
    {
      StratRowsSkipOther(a, t, b, s);
    }
    BlocksCongruent(DropTotals(a + [t] + b), DropTotals(input), Strats);
  }

  /** A volume that does not parse as a number adds nothing to its column's sum. */
  lemma UnparsedVolumeAddsNothing(a: seq<Row>, r: Row, b: seq<Row>, col: Column)
    requires Volume(r, col) == None
    ensures SumColumn(a + [r] + b, col) == SumColumn(a + b, col)
  {
    SumColumnAppend(a + [r], b, col);
    SumColumnAppend(a, [r], col);
    SumColumnAppend(a, b, col);
    assert [r][1..] == [];
  }

  // ---------------------------------------------------------------------------
  // A worked sheet

  /** Three records of one town: an MD and an ASD outlet in Large Town and a
      record with a blank type in Rural. */
  function SampleSheet(): seq<Row>
  {
    [Row("Azamgarh", "Large Town", "MD", "nan", "nan", Some(100.0), Some(40.0), None),
     Row("Azamgarh", "Large Town", "ASD", "nan", "nan", None, Some(10.0), None),
     Row("Azamgarh", "Rural", "nan", "nan", "nan", None, None, None)]
  }

  /** The sample's town is not a roll-up line. */
  lemma SampleTownNotTotal()
    ensures !IsTotalTown("Azamgarh")
  {
    assert Upper("Azamgarh") == "AZAMGARH";
    NotContains("AZAMGARH", "TOTAL", 'T');
  }

  /** No record of the sample is dropped as a roll-up line. */
  lemma SampleSheetKept()
    ensures DropTotals(SampleSheet()) == SampleSheet()
  {
    var input := SampleSheet();
    SampleTownNotTotal();
    assert input[1..][1..][1..] == [];
    assert DropTotals(input[1..][1..]) == input[1..][1..];
    assert DropTotals(input[1..]) == input[1..];
  }

  /** The sample's rows split into the stratifications: two in Large Town,
      one in Rural, none in the other two. */
  lemma SampleSheetRows()
    ensures StratRows(SampleSheet(), "Large Town") == SampleSheet()[..2]
    ensures StratRows(SampleSheet(), "Rural") == SampleSheet()[2..]
    ensures StratRows(SampleSheet(), "Small Town") == []
    ensures StratRows(SampleSheet(), "Deep Rural") == []
  {
    var input := SampleSheet();
    assert input[1..][1..][1..] == [];
  }

  /** Of four stratifications where only the first and third have rows, those
      two are present, in that order. */
  lemma PresentFirstAndThird(rows: seq<Row>, strats: seq<string>)
    requires |strats| == 4
    requires StratRows(rows, strats[0]) != [] && StratRows(rows, strats[1]) == []
    requires StratRows(rows, strats[2]) != [] && StratRows(rows, strats[3]) == []
    ensures Present(rows, strats) == [strats[0], strats[2]]
  {
    assert Present(rows, strats[..1]) == [strats[0]] by {
      PresentStep(rows, strats, 0);
      assert strats[..0] == [];
    }
    assert Present(rows, strats[..2]) == [strats[0]] by {
      PresentStep(rows, strats, 1);
    }
    assert Present(rows, strats[..3]) == [strats[0], strats[2]] by {
      PresentStep(rows, strats, 2);
    }
    PresentStep(rows, strats, 3);
    assert strats[..4] == strats;
  }

  /** The sample's present stratifications: Large Town and Rural, in that order. */
  lemma SampleSheetPresent()
    ensures PresentStrats(SampleSheet()) == ["Large Town", "Rural"]
  {
    SampleSheetKept();
    SampleSheetRows();
    PresentFirstAndThird(SampleSheet(), Strats);
  }

  /** Extending the list of stratifications by one adds it when it has rows. */
  lemma PresentStep(rows: seq<Row>, strats: seq<string>, i: nat)
    requires i < |strats|
    ensures Present(rows, strats[..i + 1]) ==
              Present(rows, strats[..i]) + (if StratRows(rows, strats[i]) != [] then [strats[i]] else [])
  {
    assert strats[..i + 1][..i] == strats[..i];
  }

  /** The classes of the sample's three store types. */
  lemma SampleSheetClasses()
    ensures BalClass("MD") == PriStore && BalClass("ASD") == Asd && BalClass("nan") == Vacant
    ensures TvsCounts("nan") == (0, 0)
    ensures !ContainsNoCase("nan", "BRANCH") && !ContainsNoCase("nan", "ASD")
  {
    UpperNoLower("MD");
    assert "MD" <= "MD";
    UpperNoLower("ASD");
    NotContains("ASD", "MD", 'M');
    NotContains("ASD", "BRANCH", 'B');
    NotContains("ASD", "DEALER", 'E');
    assert "ASD" <= "ASD";
    MissingCellIsVacant();
    assert Upper("nan") == "NAN";
    NotContains("NAN", "BRANCH", 'B');
    NotContains("NAN", "ASD", 'S');
  }

  /** How the sample's stratification rows fall into the three row types. */
  lemma SampleSheetBuckets()
    ensures ClassRows(SampleSheet()[..2], PriStore) == [SampleSheet()[0]]
    ensures ClassRows(SampleSheet()[..2], Asd) == [SampleSheet()[1]]
    ensures ClassRows(SampleSheet()[..2], Vacant) == []
    ensures ClassRows(SampleSheet()[2..], PriStore) == []
    ensures ClassRows(SampleSheet()[2..], Vacant) == [SampleSheet()[2]]
  {
    var input := SampleSheet();
    SampleSheetClasses();
    var large := input[..2];
    var rural := input[2..];
    assert large == [input[0], input[1]] && large[1..] == [input[1]] && large[1..][1..] == [];
    assert rural == [input[2]] && rural[1..] == [];
  }

  /** The metrics of the MD outlet's line: market share 40 / 100. */
  lemma SampleMdLine()
    ensures var line := BucketRow("Large Town", PriStore, [SampleSheet()[0]]);
      && line.stratLabel == "Large Town" && line.balCount == 1
      && line.indS1 == 100.0 && line.balS1Vol == 40.0 && line.balMs == 0.4
  {
    var md := SampleSheet()[0];
    assert [md][1..] == [];
    assert Addend(md, IndS1) == 100.0 && Addend(md, BalS1) == 40.0;
    assert SumColumn([md], IndS1) == 100.0 && SumColumn([md], BalS1) == 40.0;
  }

  /** The metrics of the ASD outlet's line: no industry volume, so no share. */
  lemma SampleAsdLine()
    ensures var line := BucketRow("Large Town", Asd, [SampleSheet()[1]]);
      && line.balCount == 1 && line.balS1Vol == 10.0 && line.balMs == 0.0
  {
    var asd := SampleSheet()[1];
    assert [asd][1..] == [];
    assert Addend(asd, IndS1) == 0.0 && Addend(asd, BalS1) == 10.0;
    assert SumColumn([asd], IndS1) == 0.0 && SumColumn([asd], BalS1) == 10.0;
  }

  /** The blank record's line: one unique location gap, closed by nothing. */
  lemma SampleBlankLine()
    ensures var line := BucketRow("Rural", Vacant, [SampleSheet()[2]]);
      && line.balCount == 1 && line.uniqueLocGap == 1 && line.uniqueLocGapPost == 1
  {
    var blank := SampleSheet()[2];
    SampleSheetClasses();
    assert [blank][1..] == [];
    assert NatureCount([blank], "BRANCH") == 0 && NatureCount([blank], "ASD") == 0;
  }

  /** A sheet with two present stratifications has six lines: the first
      one's three row types, then the second one's. */
  lemma TwoBlockLines(input: seq<Row>, first: string, second: string)
    requires PresentStrats(input) == [first, second]
    ensures |Scorecard(input)| == 6
    ensures forall i :: 0 <= i < 3 ==>
              Scorecard(input)[i] == RowFor(DropTotals(input), first, RowTypes[i])
    ensures forall i :: 3 <= i < 6 ==>
              Scorecard(input)[i] == RowFor(DropTotals(input), second, RowTypes[i - 3])
  {
    ScorecardLines(input);
    var sc, p := Scorecard(input), PresentStrats(input);
    forall i | 0 <= i < 3
      ensures sc[i] == RowFor(DropTotals(input), first, RowTypes[i])
    {
      assert i / 3 == 0 && i % 3 == i;
    }
    forall i | 3 <= i < 6
      ensures sc[i] == RowFor(DropTotals(input), second, RowTypes[i - 3])
    {
      assert i / 3 == 1 && i % 3 == i - 3;
    }
  }

  /** The scorecard of the sample has the Large Town and Rural blocks only
      (Small Town and Deep Rural have no rows and are skipped), with the MD
      outlet's market share 40 / 100 and the blank record counted as one
      unique location gap that no addition closes. */
  lemma WorkedSheet()
    ensures var sc := Scorecard(SampleSheet());
      && |sc| == 6
      && sc[0].stratLabel == "Large Town" && sc[0].rowType == PriStore
      && sc[0].balCount == 1 && sc[0].indS1 == 100.0 && sc[0].balS1Vol == 40.0 && sc[0].balMs == 0.4
      && sc[1].rowType == Asd && sc[1].balCount == 1 && sc[1].balS1Vol == 10.0 && sc[1].balMs == 0.0
      && sc[2].rowType == Vacant && sc[2].balCount == 0
      && sc[3].stratLabel == "Rural" && sc[3].balCount == 0
      && sc[5].rowType == Vacant && sc[5].balCount == 1
      && sc[5].uniqueLocGap == 1 && sc[5].uniqueLocGapPost == 1
  {
    var input := SampleSheet();
    SampleSheetRows();
    SampleSheetBuckets();
    SampleMdLine();
    SampleAsdLine();
    SampleBlankLine();
    SampleSheetKept();
    SampleSheetPresent();
    TwoBlockLines(input, "Large Town", "Rural");
    var sc := Scorecard(input);
    assert sc[0] == RowFor(input, "Large Town", RowTypes[0]);
    assert sc[1] == RowFor(input, "Large Town", RowTypes[1]);
    assert sc[2] == RowFor(input, "Large Town", RowTypes[2]);
    assert sc[3] == RowFor(input, "Rural", RowTypes[0]);
    assert sc[5] == RowFor(input, "Rural", RowTypes[2]);
  }
}

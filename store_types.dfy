/** The two store-type classifiers of the scorecard: `get_bal_class`, which puts
    a BAL outlet into one of the three row types, and `get_tvs_counts`, which
    turns a TVS outlet into a (primary, secondary) pair of 0/1 flags. Both
    upper-case the cell text first; a missing cell reaches them as "nan". */
module StoreTypes {
  import opened Text

  /** The three row types of a stratification block, in output order. */
  datatype RowClass = PriStore | Asd | Vacant

  /** The label the scorecard prints for a row type. */
  function Label(c: RowClass): string
  {
    match c
    case PriStore => "Pri Store"
    case Asd => "ASD"
    case Vacant => "Vacant"
  }

  const RowTypes: seq<RowClass> := [PriStore, Asd, Vacant]

  /** Keywords that make a BAL type Primary wherever they occur; "BR" counts
      only as the whole text and is tested separately. */
  const PrimaryWords: seq<string> := ["MD", "BRANCH", "DEALER"]
  /** Keywords that make a BAL type Secondary when no Primary test matched. */
  const SecondaryWords: seq<string> := ["ASD", "AD", "SUB", "REP"]

  /** Some keyword of `words` occurs in `u`. */
  predicate Mentions(u: string, words: seq<string>)
  {
    exists k :: k in words && Contains(u, k)
  }

  /** `get_bal_class`: the Primary tests run first, then the Secondary ones;
      text matching neither is Vacant. */
  function BalClass(storeType: string): RowClass
  {
    var u := Upper(storeType);
    if Contains(u, "MD") || Contains(u, "BRANCH") || u == "BR" || Contains(u, "DEALER") then
      PriStore
    else if Contains(u, "ASD") || Contains(u, "AD") || Contains(u, "SUB") || Contains(u, "REP") then
      Asd
    else
      Vacant
  }

  /** `get_tvs_counts`: two independent flags; "BR" and "REP" play no part here. */
  function TvsCounts(storeType: string): (flags: (nat, nat))
    ensures flags.0 <= 1 && flags.1 <= 1
  {
    var u := Upper(storeType);
    var pri := if Contains(u, "MD") || Contains(u, "DEALER") || Contains(u, "BRANCH") then 1 else 0;
    var sec := if Contains(u, "ASD") || Contains(u, "AD") || Contains(u, "SUB") then 1 else 0;
    (pri, sec)
  }

  /** The classifier against the keyword tables, in both directions: a type is
      Primary exactly when it mentions a Primary keyword or is "BR"; Secondary
      exactly when it is not Primary and mentions a Secondary keyword; and
      Vacant exactly when it matches no keyword at all. */
  lemma BalClassByKeywords(storeType: string)
    ensures var u := Upper(storeType);
      && (BalClass(storeType) == PriStore <==> Mentions(u, PrimaryWords) || u == "BR")
      && (BalClass(storeType) == Asd <==>
            !Mentions(u, PrimaryWords) && u != "BR" && Mentions(u, SecondaryWords))
      && (BalClass(storeType) == Vacant <==>
            !Mentions(u, PrimaryWords) && u != "BR" && !Mentions(u, SecondaryWords))
  {
    var u := Upper(storeType);
    if Mentions(u, PrimaryWords) {
      var k :| k in PrimaryWords && Contains(u, k);
    }
    if Mentions(u, SecondaryWords) {
      var k :| k in SecondaryWords && Contains(u, k);
    }
  }

  /** Putting any text before or after a type that mentions MD, BRANCH or
      DEALER leaves it Primary, whatever Secondary keywords are added. */
  lemma BalPrimaryStable(before: string, storeType: string, after: string)
    requires Mentions(Upper(storeType), PrimaryWords)
    ensures BalClass(before + storeType + after) == PriStore
  {
    var k :| k in PrimaryWords && Contains(Upper(storeType), k);
    UpperAppend(before + storeType, after);
    UpperAppend(before, storeType);
    ContainsInfix(Upper(before), Upper(storeType), Upper(after), k);
  }

  /** A Secondary type never becomes Vacant when text is added around it. */
  lemma BalSecondaryNeverVacant(before: string, storeType: string, after: string)
    requires BalClass(storeType) == Asd
    ensures BalClass(before + storeType + after) != Vacant
  {
    var u := Upper(storeType);
    var k: string :| k in SecondaryWords && Contains(u, k);
    UpperAppend(before + storeType, after);
    UpperAppend(before, storeType);
    ContainsInfix(Upper(before), u, Upper(after), k);
  }

  /** Vacancy is inherited by every piece of a Vacant type, except a piece
      that reads exactly "BR" (which is Primary on its own). */
  lemma BalVacantPieces(before: string, piece: string, after: string)
    requires BalClass(before + piece + after) == Vacant
    requires Upper(piece) != "BR"
    ensures BalClass(piece) == Vacant
  {
    var u := Upper(piece);
    UpperAppend(before + piece, after);
    UpperAppend(before, piece);
    forall k | k in PrimaryWords + SecondaryWords && Contains(u, k)
      ensures Contains(Upper(before + piece + after), k)
    {
      ContainsInfix(Upper(before), u, Upper(after), k);
    }
  }

  /** The bare text "BR" mentions none of the keywords of either table. */
  lemma BrMentionsNoKeyword()
    ensures !Mentions("BR", PrimaryWords) && !Mentions("BR", SecondaryWords)
  {
    NotContains("BR", "MD", 'M');
    NotContains("BR", "BRANCH", 'A');
    NotContains("BR", "DEALER", 'D');
    NotContains("BR", "ASD", 'A');
    NotContains("BR", "AD", 'A');
    NotContains("BR", "SUB", 'S');
    NotContains("BR", "REP", 'E');
  }

  /** The TVS primary flag is set exactly for the BAL-Primary types other than
      the bare "BR". */
  lemma TvsPrimaryIffBalPrimary(storeType: string)
    ensures TvsCounts(storeType).0 == 1 <==>
              BalClass(storeType) == PriStore && Upper(storeType) != "BR"
  {
    BrMentionsNoKeyword();
  }

  /** A type is BAL-Secondary exactly when the TVS primary flag is clear, it is
      not "BR", and either the TVS secondary flag is set or it mentions REP
      (which counts for BAL only). */
  lemma BalSecondaryVsTvs(storeType: string)
    ensures BalClass(storeType) == Asd <==>
              TvsCounts(storeType).0 == 0 && Upper(storeType) != "BR" &&
              (TvsCounts(storeType).1 == 1 || Contains(Upper(storeType), "REP"))
  {
  }

  /** A text with AD as a substring is Secondary. */
  lemma RoadIsSecondary()
    ensures BalClass("ROAD") == Asd
  {
    UpperNoLower("ROAD");
    NotContains("ROAD", "MD", 'M');
    NotContains("ROAD", "BRANCH", 'B');
    NotContains("ROAD", "DEALER", 'E');
    assert "AD" <= "ROAD"[2..];
  }

  /** The Primary tests run first: a type mentioning MD and ASD is Primary. */
  lemma MdAsdIsPrimary()
    ensures BalClass("MD/ASD") == PriStore
  {
    UpperNoLower("MD/ASD");
    assert "MD" <= "MD/ASD";
  }

  /** DEALER wins over SUB in "Sub Dealer". */
  lemma SubDealerIsPrimary()
    ensures BalClass("Sub Dealer") == PriStore
  {
    var u := Upper("Sub Dealer");
    assert u == "SUB DEALER";
    assert "DEALER" <= u[4..];
  }

  /** "BR" is a whole-text test: lower-case "br" is Primary, "BR " with a
      trailing blank is Vacant. */
  lemma BrIsWholeText()
    ensures BalClass("br") == PriStore
    ensures BalClass("BR ") == Vacant
  {
    assert Upper("br") == "BR";
    UpperNoLower("BR ");
    NotContains("BR ", "MD", 'M');
    NotContains("BR ", "BRANCH", 'A');
    NotContains("BR ", "DEALER", 'D');
    NotContains("BR ", "ASD", 'A');
    NotContains("BR ", "AD", 'A');
    NotContains("BR ", "SUB", 'S');
    NotContains("BR ", "REP", 'E');
  }

  /** REP makes a type BAL-Secondary but sets no TVS flag. */
  lemma RepCountsForBalOnly()
    ensures BalClass("Rep") == Asd
    ensures TvsCounts("Rep") == (0, 0)
  {
    var u := Upper("Rep");
    assert u == "REP";
    NotContains(u, "MD", 'M');
    NotContains(u, "BRANCH", 'B');
    NotContains(u, "DEALER", 'D');
    NotContains(u, "ASD", 'A');
    NotContains(u, "AD", 'A');
    NotContains(u, "SUB", 'S');
    assert "REP" <= u;
  }

  /** A missing cell reaches the classifiers as "nan" and is Vacant with no TVS flag. */
  lemma MissingCellIsVacant()
    ensures BalClass("nan") == Vacant
    ensures TvsCounts("nan") == (0, 0)
  {
    var u := Upper("nan");
    assert u == "NAN";
    NotContains(u, "MD", 'M');
    NotContains(u, "BRANCH", 'B');
    NotContains(u, "DEALER", 'D');
    NotContains(u, "ASD", 'S');
    NotContains(u, "AD", 'D');
    NotContains(u, "SUB", 'S');
    NotContains(u, "REP", 'E');
  }

  /** Both TVS flags can be set at once. */
  lemma TvsBothFlags()
    ensures TvsCounts("MD/ASD") == (1, 1)
  {
    UpperNoLower("MD/ASD");
    assert "MD" <= "MD/ASD";
    assert "ASD" <= "MD/ASD"[3..];
  }
}

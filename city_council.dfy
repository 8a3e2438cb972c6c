/** The Detroit City Council spider: which calendar events it keeps, and their classification. */
module CityCouncil {
  import opened Wrappers
  import opened Text
  import opened Regex
  import opened Classification

  /** The three alternatives of `Coffee|Recess|District \d{1,2}` under `re.IGNORECASE`. */
  const CoffeePattern := LitsI("Coffee")
  const RecessPattern := LitsI("Recess")
  const DistrictPattern := LitsI("District ") + [Rep(IsDigit, 1, 2)]

  /** `re.match` of the alternation: some alternative matches at the start of the title. */
  predicate SkippedTitle(title: String)
  {
    MatchStart(CoffeePattern, title).Some? || MatchStart(RecessPattern, title).Some? ||
    MatchStart(DistrictPattern, title).Some?
  }

  /**
   * `parse_event_page`'s filter: a budget meeting is always kept; otherwise an event
   * tagged with a district, or titled as a coffee hour, a recess or a district
   * meeting, is dropped.
   */
  function Keep(title: String, tags: seq<String>): (keep: bool)
    ensures Contains(Lower(title), "budget") ==> keep
    ensures (exists i :: 0 <= i < |tags| && Contains(tags[i], "District")) ==> keep == Contains(Lower(title), "budget")
    ensures (forall i :: 0 <= i < |tags| ==> !Contains(tags[i], "District")) && !Contains(Lower(title), "budget") ==>
      keep == !SkippedTitle(title)
  {
    if Contains(Lower(title), "budget") then true
    else !((exists i :: 0 <= i < |tags| && Contains(tags[i], "District")) || SkippedTitle(title))
  }

  /** The skipped titles, without the regular expression: they start, in any case, with "coffee", "recess", or "district " and a digit. */
  lemma SkippedTitleIff(title: String)
    ensures SkippedTitle(title) <==>
      StartsWith(Lower(title), "coffee") || StartsWith(Lower(title), "recess") ||
      (StartsWith(Lower(title), "district ") && |title| > 9 && IsDigit(title[9]))
  {
    Folds("Coffee", "coffee");
    WordAtStart("Coffee", "coffee", title);
    Folds("Recess", "recess");
    WordAtStart("Recess", "recess", title);
    DistrictIff(title);
  }

  lemma Folds(w: String, lw: String)
    requires (w == "Coffee" && lw == "coffee") || (w == "Recess" && lw == "recess") || (w == "District " && lw == "district ")
    ensures |w| == |lw| && forall k :: 0 <= k < |w| ==> LowerChar(w[k]) == lw[k]
  {
  }

  /** The third alternative: "district " in any case and then a digit. */
  lemma DistrictIff(title: String)
    ensures MatchStart(DistrictPattern, title).Some? <==>
      StartsWith(Lower(title), "district ") && |title| > 9 && IsDigit(title[9])
  {
    var d := LitsI("District ");
    SinglesThen(d, [Rep(IsDigit, 1, 2)], title, 0);
    LitsIAt("District ", title, 0);
    Folds("District ", "district ");
    CaseFolded("District ", "district ", title);
    if 9 <= |title| {
      DigitsTail(title, 9);
    }
  }

  /** A case-insensitive word alone matches at the start exactly when the lower-cased title starts with it. */
  lemma WordAtStart(w: String, lw: String, title: String)
    requires |w| == |lw| && forall k :: 0 <= k < |w| ==> LowerChar(w[k]) == lw[k]
    ensures MatchStart(LitsI(w), title).Some? <==> StartsWith(Lower(title), lw)
  {
    var p := LitsI(w);
    assert p + [] == p;
    SinglesThen(p, [], title, 0);
    LitsIAt(w, title, 0);
    CaseFolded(w, lw, title);
  }

  lemma CaseFolded(w: String, lw: String, title: String)
    requires |w| == |lw| && forall k :: 0 <= k < |w| ==> LowerChar(w[k]) == lw[k]
    ensures (|w| <= |title| && forall k :: 0 <= k < |w| ==> LowerChar(title[k]) == LowerChar(w[k])) <==>
      StartsWith(Lower(title), lw)
  {
    if StartsWith(Lower(title), lw) {
      forall k | 0 <= k < |w| ensures LowerChar(title[k]) == LowerChar(w[k]) {
        assert Lower(title)[..|lw|][k] == lw[k];
      }
    }
  }

  /** A "Budget" meeting is kept even when tagged with a district. */
  lemma BudgetAlwaysKept(title: String, tags: seq<String>)
    requires Contains(Lower(title), "budget")
    ensures Keep(title, tags)
  {
  }

  /** `_parse_classification`: "Committee" as written gives a committee, else "forum" in any case a forum, else the council. */
  function ClassificationOf(title: String): (r: Classification)
    ensures r == Committee <==> Contains(title, "Committee")
    ensures r == Forum <==> !Contains(title, "Committee") && Contains(Lower(title), "forum")
    ensures r == CityCouncil <==> !Contains(title, "Committee") && !Contains(Lower(title), "forum")
  {
    if Contains(title, "Committee") then Committee
    else if Contains(Lower(title), "forum") then Forum
    else CityCouncil
  }

  /** The committee test is case-sensitive: a lower-case committee holding a forum is a forum. */
  lemma LowerCaseCommittee()
    ensures ClassificationOf("committee forum") == Forum
  {
    var t := "committee forum";
    CharContains(t, 'C');
    if Contains(t, "Committee") {
      assert OccursAt("Committee", "C", 0);
      ContainsTrans(t, "Committee", "C");
      assert false;
    }
    assert Lower(t) == t;
    assert t[10..15] == "forum";
    assert OccursAt(t, "forum", 10);
  }

  /** `_parse_description` */
  const Description: String := ""
}

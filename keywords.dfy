/**
 * Ordered keyword tables: the first keyword, in table order, that occurs in any
 * of the given texts decides the value. Every classifier in the scrapers has
 * this shape; only the table and the texts differ.
 */
module Keywords {
  import opened Wrappers
  import opened Text

  datatype Rule = Rule(keyword: String, value: String)

  /** `keyword in t` for some `t` among the texts. */
  predicate Hits(keyword: String, texts: seq<String>)
  {
    exists i :: 0 <= i < |texts| && Contains(texts[i], keyword)
  }

  /** The index of the first rule, from `k` on, whose keyword hits. */
  function FirstIndex(table: seq<Rule>, texts: seq<String>, k: nat): (r: Option<nat>)
    decreases |table| - k
    ensures r.Some? ==> k <= r.value < |table| && Hits(table[r.value].keyword, texts)
    ensures r.Some? ==> forall j :: k <= j < r.value ==> !Hits(table[j].keyword, texts)
    ensures r.None? <==> forall j :: k <= j < |table| ==> !Hits(table[j].keyword, texts)
  {
    if k >= |table| then None
    else if Hits(table[k].keyword, texts) then Some(k)
    else FirstIndex(table, texts, k + 1)
  }

  /** The value of the first rule whose keyword hits; `None` when none does. */
  function FirstMatch(table: seq<Rule>, texts: seq<String>): (r: Option<String>)
    ensures r.None? <==> forall j :: 0 <= j < |table| ==> !Hits(table[j].keyword, texts)
    ensures r.Some? ==> exists i :: (0 <= i < |table| && r.value == table[i].value &&
      Hits(table[i].keyword, texts) && forall j :: 0 <= j < i ==> !Hits(table[j].keyword, texts))
  {
    match FirstIndex(table, texts, 0)
    case None => None
    case Some(i) => Some(table[i].value)
  }

  /** A rule that hits decides the outcome when every rule before it misses. */
  lemma FirstMatchAt(table: seq<Rule>, texts: seq<String>, i: nat)
    requires i < |table| && Hits(table[i].keyword, texts)
    requires forall j :: 0 <= j < i ==> !Hits(table[j].keyword, texts)
    ensures FirstMatch(table, texts) == Some(table[i].value)
  {
    assert FirstIndex(table, texts, 0).Some?;
  }

  /** A value no rule carries is never the outcome. */
  lemma FirstMatchNever(table: seq<Rule>, texts: seq<String>, v: String)
    requires forall i :: 0 <= i < |table| ==> table[i].value != v
    ensures FirstMatch(table, texts) != Some(v)
  {
  }

  /** A text that contains a longer word containing the keyword makes the keyword hit too. */
  lemma HitsWithin(keyword: String, word: String, texts: seq<String>)
    requires Contains(word, keyword) && Hits(word, texts)
    ensures Hits(keyword, texts)
  {
    var i :| 0 <= i < |texts| && Contains(texts[i], word);
    ContainsTrans(texts[i], word, keyword);
  }

  /**
   * `classification_map.get(classification, "Board")`: the proper-case map two of the
   * harambe scrapers apply to the upper-case keyword value.
   */
  function ProperClassification(c: Option<String>): (r: String)
    ensures c == Some("BOARD") ==> r == "Board"
    ensures c == Some("COMMITTEE") ==> r == "Committee"
    ensures c == Some("COMMISSION") ==> r == "Commission"
    ensures c == Some("ADVISORY") ==> r == "Advisory Committee"
    ensures c !in {Some("BOARD"), Some("COMMITTEE"), Some("COMMISSION"), Some("ADVISORY")} ==> r == "Board"
  {
    match c
    case Some("BOARD") => "Board"
    case Some("COMMITTEE") => "Committee"
    case Some("COMMISSION") => "Commission"
    case Some("ADVISORY") => "Advisory Committee"
    case _ => "Board"
  }
}

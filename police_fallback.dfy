/**
 * The fallback extraction of the Detroit Police Department orchestrator
 * (`fallback_extraction` in harambe_scrapers/det_police_department.py): when the
 * detail scraper raises or saves nothing, the orchestrator reads the event page
 * itself with looser selectors. Every step sits in its own `try`, so the
 * fallback always produces a record.
 *
 * The page is given as what the selectors find: the inner text under each title
 * selector (`None` where no element matches), the time text, the date attribute,
 * the anchors under each link selector and the description. The current time
 * (for an unreadable date) is the text `now`; the tz database is `zone`.
 */
module PoliceFallback {
  import opened Wrappers
  import opened Text
  import opened Calendar
  import opened Strptime
  import opened Timezone
  import opened Localize
  import opened Keywords
  import opened Regex
  import opened PoliceSdk
  import opened PoliceDetail

  const DefaultTitle: String := "Detroit Police Meeting"

  // ---------------------------------------------------------------- the title

  /** A title selector that found nothing, or only an empty text. */
  predicate Blank(t: Option<String>)
  {
    t.None? || t.value == ""
  }

  /** The title the fallback settles on: the first non-empty selector text, else the default. */
  function FirstTitle(texts: seq<Option<String>>): (r: String)
    ensures r != ""
    ensures (forall j :: 0 <= j < |texts| ==> Blank(texts[j])) ==> r == DefaultTitle
    ensures forall i :: 0 <= i < |texts| && !Blank(texts[i]) && (forall j :: 0 <= j < i ==> Blank(texts[j])) ==>
      r == texts[i].value
  {
    if texts == [] then DefaultTitle
    else if !Blank(texts[0]) then texts[0].value
    else
      var r := FirstTitle(texts[1..]);
      assert forall i :: 1 <= i < |texts| ==> texts[1..][i - 1] == texts[i];
      r
  }

  /** The selector loop: a text replaces the title, a non-empty one ends the loop; `title or "Detroit Police Meeting"`. */
  method FallbackTitle(texts: seq<Option<String>>) returns (title: String)
    ensures title == FirstTitle(texts)
  {
    var current: Option<String> := None;
    for i := 0 to |texts|
      invariant forall j :: 0 <= j < i ==> Blank(texts[j])
      invariant Blank(current)
    {
      if texts[i].Some? {
        current := texts[i];
        if current.value != "" {
          return current.value;
        }
      }
    }
    // `current` is blank here, so `current or …` is the default
    title := DefaultTitle;
  }

  // ---------------------------------------------------------------- the time

  predicate IsAmPmLetter(c: char) { c in "aApP" }

  predicate IsMLetter(c: char) { c in "mM" }

  /** `([0-9]+):([0-9]+)\s*([ap]m)` with `re.IGNORECASE`. */
  const MeridianPattern: Pattern := [Plus(IsDigit), One(IsColon), Plus(IsDigit), Star(IsSpace),
                                     One(IsAmPmLetter), One(IsMLetter)]

  /** A match always takes at least one character, so the scan moves on. */
  lemma MeridianMatchAdvances(s: String, from: nat)
    requires from <= |s| && SearchFrom(MeridianPattern, s, from).Some?
    ensures var m := SearchFrom(MeridianPattern, s, from).value;
      m.0 < MatchEnd(m.0, m.1) <= |s|
  {
    var m := SearchFrom(MeridianPattern, s, from).value;
    SearchFromLeftmost(MeridianPattern, s, from);
    FitLast(MeridianPattern, s, m.0, m.1);
  }

  /** `re.sub(pattern, r"\1:\2 \3", s[from..], flags=re.IGNORECASE)`: each match rewritten with exactly one space before am/pm. */
  function MeridianSpacedFrom(s: String, from: nat): String
    requires from <= |s|
    decreases |s| - from
  {
    match SearchFrom(MeridianPattern, s, from)
    case None => s[from..]
    case Some(m) =>
      MeridianMatchAdvances(s, from);
      s[from..m.0] + (Span(s, m, 0, 1) + (":" + (Span(s, m, 2, 3) + (" " + (Span(s, m, 4, 6) +
        MeridianSpacedFrom(s, MatchEnd(m.0, m.1)))))))
  }

  function MeridianSpaced(s: String): String
  {
    MeridianSpacedFrom(s, 0)
  }

  /** Apart from the colon and the space it writes, the rewrite only copies characters of the text. */
  lemma {:induction false} MeridianSpacedKeeps(s: String, from: nat, c: char)
    requires from <= |s| && c != ':' && c != ' ' && c !in s
    ensures c !in MeridianSpacedFrom(s, from)
    decreases |s| - from
  {
    match SearchFrom(MeridianPattern, s, from)
    case None =>
    case Some(m) =>
      MeridianMatchAdvances(s, from);
      MeridianSpacedKeeps(s, MatchEnd(m.0, m.1), c);
  }

  /** A fit of the pattern holds a colon. */
  lemma MeridianFitColon(s: String, i: nat, ends: seq<nat>)
    requires Fits(MeridianPattern, s, i, ends)
    ensures ':' in s
  {
    var p := MeridianPattern;
    assert Fits(p[1..], s, ends[0], ends[1..]);
    assert p[1..][0] == One(IsColon);
    assert ends[1..][0] == ends[1];
    assert AllIn(IsColon, s, ends[0], ends[1]);
    assert IsColon(s[ends[0]]);
  }

  /** Without a colon the rewrite leaves the text as it is. */
  lemma MeridianSpacedNoColon(s: String)
    requires ':' !in s
    ensures MeridianSpaced(s) == s
  {
    SearchFromLeftmost(MeridianPattern, s, 0);
    if SearchFrom(MeridianPattern, s, 0).Some? {
      var m := SearchFrom(MeridianPattern, s, 0).value;
      MeridianFitColon(s, m.0, m.1);
    }
    assert s[0..] == s;
  }

  /** The time text cleaned: stripped, "." removed, "Noon" written "12:00 PM", one space before am/pm. */
  function FallbackTimeText(time: String): String
  {
    MeridianSpaced(Replace(Replace(Strip(time), ".", ""), "Noon", "12:00 PM"))
  }

  /** The cleaned time text never holds a ".". */
  lemma FallbackTimeNoDot(time: String)
    ensures '.' !in FallbackTimeText(time)
  {
    var a := Replace(Strip(time), ".", "");
    ReplaceRemovesChar(Strip(time), '.', "");
    ReplaceKeepsAbsent(a, "Noon", "12:00 PM", '.');
    MeridianSpacedKeeps(Replace(a, "Noon", "12:00 PM"), 0, '.');
  }

  /**
   * The clock the fallback sets on the date: the cleaned text read as `%I:%M %p`,
   * or 12:00 when it does not parse. Seconds stay zero.
   */
  function FallbackClock(time: String): (r: Time)
    ensures ValidTime(r) && r.second == 0
    ensures Parse(FallbackTimeText(time), ClockLayout).Err? ==> r == NoonTime
    ensures Parse(FallbackTimeText(time), ClockLayout).Ok? ==>
      var c := Parse(FallbackTimeText(time), ClockLayout).value.time;
      r.hour == c.hour && r.minute == c.minute
  {
    match Parse(FallbackTimeText(time), ClockLayout)
    case Ok(c) => Time(c.time.hour, c.time.minute, 0)
    case Err(_) => NoonTime
  }

  /** A time text with no colon and no "N" (so no "Noon") cannot be read and falls back to 12:00. */
  lemma NoColonFallbackNoon(time: String)
    requires ':' !in time && 'N' !in time
    ensures FallbackClock(time) == NoonTime
  {
    var s := Strip(time);
    CharContains(time, ':');
    CharContains(time, 'N');
    StripAbsent(time, ":");
    StripAbsent(time, "N");
    CharContains(s, ':');
    CharContains(s, 'N');
    var a := Replace(s, ".", "");
    ReplaceKeepsAbsent(s, ".", "", ':');
    ReplaceKeepsAbsent(s, ".", "", 'N');
    assert !Contains(a, "Noon") by {
      CharContains(a, 'N');
      if Contains(a, "Noon") {
        forall j | 0 <= j <= |a| - 4 ensures !OccursAt(a, "Noon", j) {
          assert a[j..j + 4][0] == a[j];
        }
      }
    }
    ReplaceAbsent(a, "Noon", "12:00 PM");
    MeridianSpacedNoColon(a);
    ClockNeedsColon(a);
  }

  // ---------------------------------------------------------------- the start time

  /** `datetime.strptime` of the date text, or of its part before "T" when it has one. */
  function FallbackDate(dateText: String): Result<DateTime>
  {
    if Contains(dateText, "T") then Parse(Split(dateText, "T")[0], DateLayout) else Parse(dateText, DateLayout)
  }

  /** The clock set on the date: the fallback clock of a non-empty time text, else 12:00. */
  function StartClock(timeText: Option<String>): (r: Time)
    ensures ValidTime(r)
    ensures timeText.None? || timeText.value == "" ==> r == NoonTime
  {
    if timeText.Some? && timeText.value != "" then FallbackClock(timeText.value) else NoonTime
  }

  /**
   * `start_time`: absent without a date text; the time `now` when the date does
   * not parse; otherwise the date at the fallback clock (12:00 without a time
   * text), localised to Detroit.
   */
  function FallbackStart(dateText: Option<String>, timeText: Option<String>, now: String,
                         zone: DateTime -> DetroitOffset): (r: Option<String>)
    ensures dateText.None? || dateText.value == "" ==> r.None?
    ensures dateText.Some? && dateText.value != "" && FallbackDate(dateText.value).Err? ==> r == Some(now)
    ensures dateText.Some? && dateText.value != "" && FallbackDate(dateText.value).Ok? ==> r.Some? && |r.value| == 25
  {
    if dateText.None? || dateText.value == "" then None
    else
      match FallbackDate(dateText.value)
      case Err(_) => Some(now)
      case Ok(d) =>
        Some(Localized(DateTime(d.date, StartClock(timeText)), zone))
  }

  /** A date attribute written `%Y-%m-%d` has no "T" and reads back as that date. */
  lemma DateAttributeReads(dt: DateTime)
    requires Valid(dt)
    ensures Format(dt, DateLayout) != []
    ensures FallbackDate(Format(dt, DateLayout)) == Ok(Kept(dt, DateLayout))
  {
    var text := Format(dt, DateLayout);
    DateTextNoT(dt);
    CharContains(text, 'T');
    DateLayoutShape();
    FormatParse(dt, DateLayout);
  }

  /** `%Y-%m-%d` writes digits and dashes only, so no "T". */
  lemma DateTextNoT(dt: DateTime)
    requires Valid(dt)
    ensures Format(dt, DateLayout) != [] && 'T' !in Format(dt, DateLayout)
  {
    var text := Format(dt, DateLayout);
    DateNested(dt, []);
    assert text + [] == text;
    forall i | 0 <= i < |text| ensures text[i] != 'T' {
      assert IsDigit(text[i]) || text[i] == '-';
    }
  }

  /**
   * A date attribute written `%Y-%m-%d` gives a start on that very date: the
   * start's text before "T" is the attribute, and without a time text the clock is 12:00.
   */
  lemma FallbackStartOnDate(dt: DateTime, timeText: Option<String>, now: String, zone: DateTime -> DetroitOffset)
    requires Valid(dt)
    ensures var r := FallbackStart(Some(Format(dt, DateLayout)), timeText, now, zone);
      && r.Some?
      && Split(r.value, "T")[0] == Format(dt, DateLayout)
      && (timeText.None? || timeText.value == "" ==> r.value == Localized(DateTime(dt.date, NoonTime), zone))
  {
    FallbackStartValue(dt, timeText, now, zone);
    var start := DateTime(Kept(dt, DateLayout).date, StartClock(timeText));
    LocalizedDate(start, zone);
    SameDateText(start, dt);
  }

  /** The start for a date attribute written `%Y-%m-%d`: that date at the start clock, localised. */
  lemma FallbackStartValue(dt: DateTime, timeText: Option<String>, now: String, zone: DateTime -> DetroitOffset)
    requires Valid(dt)
    ensures FallbackStart(Some(Format(dt, DateLayout)), timeText, now, zone) ==
      Some(Localized(DateTime(dt.date, StartClock(timeText)), zone))
  {
    DateAttributeReads(dt);
  }

  // ---------------------------------------------------------------- the links

  /** An anchor a link selector finds: its `href` attribute and its inner text. */
  datatype LinkElement = LinkElement(href: Option<String>, text: String)

  /** Only anchors with a non-empty `href` become links. */
  predicate HasHref(e: LinkElement)
  {
    e.href.Some? && e.href.value != ""
  }

  /** The link title: "Agenda", "Minutes", or the text without ".pdf", stripped; never padded with whitespace. */
  function FallbackLinkTitle(text: String): (r: String)
    ensures Contains(Lower(text), "agenda") ==> r == "Agenda"
    ensures !Contains(Lower(text), "agenda") && Contains(Lower(text), "minute") ==> r == "Minutes"
    ensures |r| > 0 ==> !IsSpace(r[0]) && !IsSpace(r[|r| - 1])
  {
    if Contains(Lower(text), "agenda") then "Agenda"
    else if Contains(Lower(text), "minute") then "Minutes"
    else Strip(Replace(text, ".pdf", ""))
  }

  /** An anchor with an `href` as a link: the absolute URL and the cleaned title. */
  function FallbackLink(e: LinkElement): (r: Link)
    requires HasHref(e)
    ensures StartsWith(r.url, "http") && r.url == Absolute(e.href.value)
  {
    Link(Absolute(e.href.value), FallbackLinkTitle(e.text))
  }

  /** The anchors with an `href` among `es`. */
  function HrefCount(es: seq<LinkElement>): nat
  {
    if es == [] then 0 else HrefCount(es[..|es| - 1]) + (if HasHref(es[|es| - 1]) then 1 else 0)
  }

  /** The links one selector contributes, in page order: one per anchor with an `href`. */
  function SelectorLinks(es: seq<LinkElement>): (r: seq<Link>)
    ensures |r| == HrefCount(es)
    ensures forall k :: 0 <= k < |r| ==> StartsWith(r[k].url, "http")
  {
    if es == [] then []
    else
      var e := es[|es| - 1];
      SelectorLinks(es[..|es| - 1]) + (if HasHref(e) then [FallbackLink(e)] else [])
  }

  function TotalHrefs(groups: seq<seq<LinkElement>>): nat
  {
    if groups == [] then 0 else TotalHrefs(groups[..|groups| - 1]) + HrefCount(groups[|groups| - 1])
  }

  /**
   * The links of all selectors, selector after selector, with nothing removed:
   * one link per anchor with an `href`, every URL absolute.
   */
  function CollectedLinks(groups: seq<seq<LinkElement>>): (r: seq<Link>)
    ensures |r| == TotalHrefs(groups)
    ensures forall k :: 0 <= k < |r| ==> StartsWith(r[k].url, "http")
  {
    if groups == [] then [] else CollectedLinks(groups[..|groups| - 1]) + SelectorLinks(groups[|groups| - 1])
  }

  /** Links are not deduplicated: an anchor two selectors both find is listed twice. */
  lemma SameAnchorsTwice(groups: seq<seq<LinkElement>>, g: seq<LinkElement>)
    ensures CollectedLinks(groups + [g, g]) == CollectedLinks(groups) + SelectorLinks(g) + SelectorLinks(g)
  {
    assert (groups + [g, g])[..|groups| + 1] == groups + [g];
    assert (groups + [g])[..|groups|] == groups;
  }

  /** The link loops: every selector in order, every anchor in order. */
  method FallbackLinks(groups: seq<seq<LinkElement>>) returns (links: seq<Link>)
    ensures links == CollectedLinks(groups)
  {
    links := [];
    for g := 0 to |groups|
      invariant links == CollectedLinks(groups[..g])
    {
      links := SelectorLoop(links, groups[g]);
      assert groups[..g + 1][..g] == groups[..g];
    }
    assert groups[..|groups|] == groups;
  }

  /** The anchor loop of one selector: its links appended, in page order. */
  method SelectorLoop(start: seq<Link>, elements: seq<LinkElement>) returns (links: seq<Link>)
    ensures links == start + SelectorLinks(elements)
  {
    links := start;
    for k := 0 to |elements|
      invariant links == start + SelectorLinks(elements[..k])
    {
      var e := elements[k];
      if e.href.Some? && e.href.value != "" {
        var href := e.href.value;
        if !StartsWith(href, "http") {
          href := Site + href;
        }
        assert Link(href, FallbackLinkTitle(e.text)) == FallbackLink(e);
        links := links + [Link(href, FallbackLinkTitle(e.text))];
      }
      assert elements[..k + 1][..k] == elements[..k];
      assert SelectorLinks(elements[..k + 1]) ==
        SelectorLinks(elements[..k]) + (if HasHref(e) then [FallbackLink(e)] else []);
    }
    assert elements[..|elements|] == elements;
  }

  // ---------------------------------------------------------------- classification and cancellation

  /** The keyword table of the fallback, in its order. */
  const FallbackTable: seq<Rule> := [
    Rule("committee", "COMMITTEE"), Rule("board", "BOARD"), Rule("commission", "COMMISSION"),
    Rule("public", "PUBLIC"), Rule("community", "COMMUNITY"), Rule("policy", "POLICY"),
    Rule("advisory", "ADVISORY"), Rule("annual", "ANNUAL")]

  /** `(title + " " + description).lower()` */
  function CombinedText(title: String, description: String): String
  {
    Lower(title + " " + description)
  }

  /** The classification the fallback finds, `None` when no keyword occurs. */
  function FallbackClassify(title: String, description: String): Option<String>
  {
    FirstMatch(FallbackTable, [CombinedText(title, description)])
  }

  /** The keyword loop: the first rule whose keyword occurs in the text. */
  method FirstKeyword(table: seq<Rule>, text: String) returns (value: Option<String>)
    ensures value == FirstMatch(table, [text])
  {
    for i := 0 to |table|
      invariant forall j :: 0 <= j < i ==> !Hits(table[j].keyword, [text])
    {
      if Contains(text, table[i].keyword) {
        assert Hits(table[i].keyword, [text]) by { assert [text][0] == text; }
        FirstMatchAt(table, [text], i);
        return Some(table[i].value);
      }
      assert !Hits(table[i].keyword, [text]);
    }
    value := None;
  }

  /** "committee" anywhere in the title or description decides. */
  lemma FallbackCommitteeFirst(title: String, description: String)
    requires Contains(CombinedText(title, description), "committee")
    ensures FallbackClassify(title, description) == Some("COMMITTEE")
  {
    var texts := [CombinedText(title, description)];
    assert Hits(FallbackTable[0].keyword, texts) by { assert texts[0] == CombinedText(title, description); }
    FirstMatchAt(FallbackTable, texts, 0);
  }

  /** "board" comes before "commission": a board of commissioners is classified BOARD. */
  lemma FallbackBoardBeforeCommission(title: String, description: String)
    requires Contains(CombinedText(title, description), "board")
    requires !Contains(CombinedText(title, description), "committee")
    ensures FallbackClassify(title, description) == Some("BOARD")
  {
    var texts := [CombinedText(title, description)];
    assert Hits(FallbackTable[1].keyword, texts) by { assert texts[0] == CombinedText(title, description); }
    assert !Hits(FallbackTable[0].keyword, texts);
    FirstMatchAt(FallbackTable, texts, 1);
  }

  /** `is_cancelled`: "cancel" or "recess" in the lower-cased title and description. */
  function FallbackCancelled(title: String, description: String): (r: bool)
    ensures r <==> (Contains(CombinedText(title, description), "cancel") ||
      Contains(CombinedText(title, description), "recess"))
  {
    var combined := CombinedText(title, description);
    Contains(combined, "cancel") || Contains(combined, "recess")
  }

  /** A title mentioning "cancel" in any case marks the meeting cancelled. */
  lemma CancelledTitle(title: String, description: String)
    requires Contains(Lower(title), "cancel")
    ensures FallbackCancelled(title, description)
  {
    LowerConcat(title, " " + description);
    assert title + " " + description == title + (" " + description);
    ContainsInPrefix(Lower(title), Lower(" " + description), "cancel");
  }

  /** Upper-casing the page texts does not change the verdict. */
  lemma FallbackCancelledIgnoresCase(title: String, description: String)
    ensures FallbackCancelled(Upper(title), Upper(description)) == FallbackCancelled(title, description)
  {
    LowerConcat(Upper(title) + " ", Upper(description));
    LowerConcat(Upper(title), " ");
    LowerConcat(title + " ", description);
    LowerConcat(title, " ");
    assert Lower(Upper(title)) == Lower(title);
    assert Lower(Upper(description)) == Lower(description);
  }

  // ---------------------------------------------------------------- the record

  /** What the fallback selectors find on the page. */
  datatype FallbackPage = FallbackPage(titleTexts: seq<Option<String>>, timeText: Option<String>,
                                       dateText: Option<String>, linkGroups: seq<seq<LinkElement>>,
                                       description: Option<String>)

  /**
   * The dict the fallback returns; `startTime` and `classification` are `None`
   * where the dict has no such key.
   */
  datatype FallbackData = FallbackData(title: String, startTime: Option<String>, links: seq<Link>,
                                       description: String, classification: Option<String>, isCancelled: bool)

  /** The record the fallback builds from the page. */
  function Fallback(page: FallbackPage, now: String, zone: DateTime -> DetroitOffset): (r: FallbackData)
    ensures r.title != "" && |r.links| == TotalHrefs(page.linkGroups)
  {
    var title := FirstTitle(page.titleTexts);
    var description := page.description.GetOr("");
    FallbackData(title, FallbackStart(page.dateText, page.timeText, now, zone), CollectedLinks(page.linkGroups),
                 description, FallbackClassify(title, description), FallbackCancelled(title, description))
  }

  /** `fallback_extraction(page, event_url)`: it never raises. */
  method FallbackExtraction(page: FallbackPage, now: String, zone: DateTime -> DetroitOffset) returns (data: FallbackData)
    ensures data == Fallback(page, now, zone)
  {
    var title := FallbackTitle(page.titleTexts);
    var start := FallbackStart(page.dateText, page.timeText, now, zone);
    var links := FallbackLinks(page.linkGroups);
    var description := page.description.GetOr("");
    var classification := FirstKeyword(FallbackTable, CombinedText(title, description));
    data := FallbackData(title, start, links, description, classification, FallbackCancelled(title, description));
  }
}

/**
 * The Wayne County Commission detail scraper
 * (harambe_scrapers/extractor/wayne_commission/detail.py). A meeting page is
 * read on its main layout (meeting date, type, time range, address, documents
 * and related links); when the main layout's date never appears, it is read on
 * the side layout (a date-time found by a regular expression in the small
 * text, the side address, the body, related links and documents). When the
 * side layout does not appear either, the scraper returns without saving.
 *
 * The browser is given as the texts and attributes its selectors return; a
 * selector that finds nothing is `None`.
 */
module WayneDetail {
  import opened Wrappers
  import opened Text
  import opened Calendar
  import opened Strptime
  import opened Timezone
  import opened Localize
  import opened Keywords
  import opened Regex
  import opened WayneSdk

  const Site: String := "https://www.waynecountymi.gov"

  const TimeoutMessage: String := "TimeoutError: waiting for selector"
  const MissingElement: String := "'NoneType' object has no attribute 'inner_text'"
  const FieldsMissing: String :=
    "AttributeError: Some of the required fields couldn't be extracted, you might wanna incorporate this page's structure"
  const NoHref: String := "argument of type 'NoneType' is not iterable"
  const UnpackMessage: String := "ValueError: the time range does not split into a start and an end"
  const NoCancelFlag: String := "KeyError: 'isCancelled'"

  // ---------------------------------------------------------------- classification

  /** The keyword table of `parse_classification`, in its order ("commission" maps to "COMMISION"). */
  const ClassificationTable: seq<Rule> := [
    Rule("committee", "COMMITTEE"), Rule("board", "BOARD"), Rule("commission", "COMMISION"),
    Rule("public meeting", "PUBLIC"), Rule("policy meeting", "POLICY"), Rule("community", "COMMUNITY"),
    Rule("annual", "ANNUAL"), Rule("cbo", "CBO"), Rule("advisory", "ADVISORY"), Rule("council", "COUNCIL")]

  /** `parse_classification(title)`: the first keyword found in the lower-cased text, `None` for a missing text. */
  function Classify(title: Option<String>): Option<String>
  {
    FirstMatch(ClassificationTable, [Lower(title.GetOr(""))])
  }

  /** "committee" decides whatever else the text mentions. */
  lemma CommitteeFirst(title: String)
    requires Contains(Lower(title), "committee")
    ensures Classify(Some(title)) == Some("COMMITTEE")
  {
    var texts := [Lower(title)];
    assert Contains(texts[0], ClassificationTable[0].keyword);
    FirstMatchAt(ClassificationTable, texts, 0);
  }

  /** A commission that is neither a committee nor a board is classified "COMMISION", as the table spells it. */
  lemma CommissionSpelling(title: String)
    requires Contains(Lower(title), "commission")
    requires !Contains(Lower(title), "committee") && !Contains(Lower(title), "board")
    ensures Classify(Some(title)) == Some("COMMISION")
  {
    var texts := [Lower(title)];
    assert Contains(texts[0], ClassificationTable[2].keyword);
    assert forall j :: 0 <= j < 2 ==> !Hits(ClassificationTable[j].keyword, texts);
    FirstMatchAt(ClassificationTable, texts, 2);
  }

  /** A missing text is never classified. */
  lemma MissingUnclassified()
    ensures Classify(None) == None
  {
    var texts := [Lower("")];
    assert texts[0] == "";
    forall j | 0 <= j < |ClassificationTable| ensures !Hits(ClassificationTable[j].keyword, texts) {
      assert |ClassificationTable[j].keyword| > 0;
    }
  }

  // ---------------------------------------------------------------- the main layout's times

  /** The time element's text without "Time", "Add to Calendar" and line breaks, stripped. */
  function TimeText(raw: String): (r: String)
    ensures '\n' !in r
  {
    var s := Replace(Replace(raw, "Time", ""), "Add to Calendar", "");
    ReplaceRemovesChar(s, '\n', "");
    var t := Replace(s, "\n", "");
    CharContains(t, '\n');
    StripAbsent(t, "\n");
    CharContains(Strip(t), '\n');
    Strip(t)
  }

  /** `start_time, end_time = time_text.split(" - ")`: the unpacking raises unless there are exactly two pieces. */
  function TimeRange(raw: String): (r: Result<(String, String)>)
    ensures var parts := Split(TimeText(raw), " - ");
      r.Ok? <==> |parts| == 2
    ensures r.Ok? ==> r.value.0 + " - " + r.value.1 == TimeText(raw)
    ensures r.Ok? ==> !Contains(r.value.0, " - ") && !Contains(r.value.1, " - ")
  {
    var parts := Split(TimeText(raw), " - ");
    if |parts| == 2 then
      JoinSplit(TimeText(raw), " - ");
      SplitPiecesFree(TimeText(raw), " - ");
      assert parts[1..] == [parts[1]];
      Ok((parts[0], parts[1]))
    else Err(UnpackMessage)
  }

  /** A time text without " - " is not a range, and the scraper raises. */
  lemma NoDashNoRange(raw: String)
    requires !Contains(TimeText(raw), " - ")
    ensures TimeRange(raw).Err?
  {
    SplitWithout(TimeText(raw), " - ");
  }

  /**
   * `strptime(f"{meeting_date} {part}", "%B %d, %Y %I:%M %p")` for both sides of
   * the range; the first failure is the exception raised.
   */
  function MainTimes(date: String, raw: String): (r: Result<(DateTime, DateTime)>)
    ensures r.Ok? ==> Valid(r.value.0) && Valid(r.value.1)
    ensures r.Ok? ==> TimeRange(raw).Ok?
  {
    match TimeRange(raw)
    case Err(e) => Err(e)
    case Ok((a, b)) =>
      match Parse(date + " " + a, LongDateClock)
      case Err(e) => Err(e)
      case Ok(start) =>
        match Parse(date + " " + b, LongDateClock)
        case Err(e) => Err(e)
        case Ok(end) => Ok((start, end))
  }

  /**
   * A meeting date written `%B %d, %Y`, a space and a clock written `%I:%M %p`
   * read back as that date and clock, to the minute.
   */
  lemma MeetingClockReadsBack(dt: DateTime)
    requires Valid(dt)
    ensures Parse(Format(dt, LongDate) + " " + Format(dt, ClockSide), LongDateClock) == Ok(Kept(dt, LongDateClock))
    ensures Kept(dt, LongDateClock) == DateTime(dt.date, Time(dt.time.hour, dt.time.minute, 0))
  {
    LongDateClockShape();
    MeetingClockText(dt);
    FormatParse(dt, LongDateClock);
  }

  /** `%B %d, %Y %I:%M %p` writes the date, a space and the clock side. */
  lemma MeetingClockText(dt: DateTime)
    requires Valid(dt)
    ensures Format(dt, LongDateClock) == Format(dt, LongDate) + " " + Format(dt, ClockSide)
  {
    RenderAppend(LongDate, ClockTail, dt);
    assert ClockTail == [Space] + ClockSide;
    RenderAppend([Space], ClockSide, dt);
  }

  /** `%B %d, %Y %I:%M %p` writes the full date, a 12-hour clock with its half of the day, and no seconds. */
  lemma LongDateClockShape()
    ensures Separated(LongDateClock)
    ensures Year4 in LongDateClock && Year2 !in LongDateClock && MonthName in LongDateClock && Day in LongDateClock
    ensures Hour24 !in LongDateClock && Hour12 in LongDateClock && AmPm in LongDateClock
    ensures Minute in LongDateClock && Second !in LongDateClock
  {
    LongDateClockSeparated();
    var f := LongDateClock;
    assert f == [MonthName, Space, Day, Lit(','), Space, Year4, Space, Hour12, Lit(':'), Minute, Space, AmPm];
    assert f[0] == MonthName && f[2] == Day && f[5] == Year4 && f[7] == Hour12 && f[9] == Minute && f[11] == AmPm;
  }

  lemma LongDateClockSeparated()
    ensures Separated(LongDateClock)
  {
    assert Separated(LongDate) && Separated(ClockTail);
    SeparatedAppend(LongDate, ClockTail);
  }

  // ---------------------------------------------------------------- places

  datatype Location = Location(name: String, address: String)

  /** `location_text.split(",", 1)`, both sides stripped; the address is "" without a comma. */
  function MainPlace(text: String): (r: (String, String))
    ensures !Contains(text, ",") ==> r == (Strip(text), "")
    ensures Contains(text, ",") ==> exists n, a :: n + "," + a == text && !Contains(n, ",") && r == (Strip(n), Strip(a))
  {
    var parts := SplitOnce(text, ",");
    if |parts| == 2 then
      assert parts[0] + "," + parts[1] == text;
      (Strip(parts[0]), Strip(parts[1]))
    else (Strip(parts[0]), "")
  }

  /** The name is read up to the first comma: it never holds one. */
  lemma MainPlaceName(text: String)
    ensures ',' !in MainPlace(text).0
  {
    var parts := SplitOnce(text, ",");
    CharContains(parts[0], ',');
    StripAbsent(parts[0], ",");
    CharContains(Strip(parts[0]), ',');
  }

  /** The side layout's address block: the first line is the name, the other lines joined with ", " the address. */
  function SidePlace(text: String): (r: (String, String))
  {
    var lines := Split(text, "\n");
    (Strip(lines[0]), Strip(Join(", ", lines[1..])))
  }

  /** A one-line block is all name. */
  lemma SidePlaceOneLine(text: String)
    requires '\n' !in text
    ensures SidePlace(text) == (Strip(text), "")
  {
    CharContains(text, '\n');
    SplitWithout(text, "\n");
  }

  /** A block whose first line is `first` has that line, stripped, as its name, and the rest as its address. */
  lemma SidePlaceLines(first: String, rest: String)
    requires '\n' !in first
    ensures SidePlace(first + "\n" + rest) == (Strip(first), Strip(Join(", ", Split(rest, "\n"))))
  {
    SplitCons(first, '\n', rest);
  }

  /** `{"name": …, "address": …} if location_name or location_address else None` */
  function LocationOf(place: Option<(String, String)>): (r: Option<Location>)
    ensures r.Some? <==> place.Some? && (place.value.0 != "" || place.value.1 != "")
    ensures r.Some? ==> r.value == Location(place.value.0, place.value.1)
  {
    match place
    case None => None
    case Some((name, address)) => if name != "" || address != "" then Some(Location(name, address)) else None
  }

  // ---------------------------------------------------------------- links

  /** A `.meeting-document` block: its title element's text, whether it holds an anchor, and that anchor's href. */
  datatype Document = Document(title: Option<String>, hasAnchor: bool, href: Option<String>)

  /** A related-information anchor: its text and its href. */
  datatype Anchor = Anchor(text: String, href: Option<String>)

  /** `{"title": title, "url": url}` */
  datatype Link = Link(title: Option<String>, url: String)

  /** One link the loops consider, before its href is read. */
  datatype Candidate = Candidate(title: Option<String>, href: Option<String>)

  /** A relative href gets the county site in front; one that mentions "http" is kept as it is. */
  function AbsoluteUrl(href: String): (r: String)
    ensures Contains(r, "http")
    ensures Contains(href, "http") ==> r == href
    ensures !Contains(href, "http") ==> r == Site + href
  {
    if Contains(href, "http") then href
    else
      assert OccursAt(Site + href, "http", 0);
      Site + href
  }

  /** Making a URL absolute twice changes nothing more. */
  lemma AbsoluteIdempotent(href: String)
    ensures AbsoluteUrl(AbsoluteUrl(href)) == AbsoluteUrl(href)
  {
  }

  /** Links to YouTube are dropped. */
  predicate Shown(url: String)
  {
    !Contains(url, "youtu")
  }

  /** The link a candidate with an href contributes, if it is shown. */
  function LinkOf(c: Candidate): Link
    requires c.href.Some?
  {
    Link(c.title, AbsoluteUrl(c.href.value))
  }

  /**
   * Both link loops: each candidate in order, its href made absolute, YouTube
   * links left out; an anchor without an href makes `"http" not in url` raise.
   */
  function Collected(cs: seq<Candidate>): (r: Result<seq<Link>>)
    ensures r.Err? ==> r.error == NoHref
    ensures r.Ok? ==> |r.value| <= |cs|
  {
    if cs == [] then Ok([])
    else
      var c := cs[|cs| - 1];
      match Collected(cs[..|cs| - 1])
      case Err(e) => Err(e)
      case Ok(links) =>
        if c.href.None? then Err(NoHref)
        else if Shown(AbsoluteUrl(c.href.value)) then Ok(links + [LinkOf(c)])
        else Ok(links)
  }

  /** One more candidate: its link joins those before it, or its missing href raises. */
  lemma CollectedSnoc(cs: seq<Candidate>, c: Candidate)
    ensures Collected(cs + [c]) ==
      match Collected(cs)
      case Err(e) => Err(e)
      case Ok(links) =>
        if c.href.None? then Err(NoHref)
        else if Shown(AbsoluteUrl(c.href.value)) then Ok(links + [LinkOf(c)])
        else Ok(links)
  {
    assert (cs + [c])[..|cs|] == cs;
  }

  /** The loops raise exactly when some candidate has no href. */
  lemma {:induction false} CollectedFails(cs: seq<Candidate>)
    ensures Collected(cs).Err? <==> exists k :: 0 <= k < |cs| && cs[k].href.None?
  {
    if cs != [] {
      var init := cs[..|cs| - 1];
      CollectedFails(init);
      assert forall k :: 0 <= k < |init| ==> init[k] == cs[k];
      if Collected(init).Err? {
        var k :| 0 <= k < |init| && init[k].href.None?;
        assert cs[k].href.None?;
      }
    }
  }

  /** Every link gathered is absolute, is not a YouTube link, and is the link of one of the candidates. */
  lemma {:induction false} CollectedShape(cs: seq<Candidate>)
    requires Collected(cs).Ok?
    ensures forall l :: l in Collected(cs).value ==> Contains(l.url, "http") && Shown(l.url)
    ensures forall l :: l in Collected(cs).value ==> exists k :: 0 <= k < |cs| && cs[k].href.Some? && l == LinkOf(cs[k])
  {
    if cs != [] {
      var init := cs[..|cs| - 1];
      CollectedShape(init);
      assert forall k :: 0 <= k < |init| ==> init[k] == cs[k];
      var c := cs[|cs| - 1];
      forall l | l in Collected(cs).value
        ensures exists k :: 0 <= k < |cs| && cs[k].href.Some? && l == LinkOf(cs[k])
      {
        if l !in Collected(init).value {
          assert l == LinkOf(c);
        }
      }
    }
  }

  /** Every candidate with a shown URL contributes its link. */
  lemma {:induction false} CollectedHas(cs: seq<Candidate>, k: nat)
    requires k < |cs| && Collected(cs).Ok? && cs[k].href.Some? && Shown(AbsoluteUrl(cs[k].href.value))
    ensures LinkOf(cs[k]) in Collected(cs).value
  {
    var init := cs[..|cs| - 1];
    assert Collected(init).Ok?;
    if k < |cs| - 1 {
      assert init[k] == cs[k];
      CollectedHas(init, k);
    }
  }

  /** The links of two candidate lists run one after the other are those of the first, then those of the second. */
  lemma {:induction false} CollectedAppend(a: seq<Candidate>, b: seq<Candidate>)
    ensures Collected(a + b) == After(Collected(a), Collected(b))
    decreases |b|
  {
    if b == [] {
      assert a + b == a;
      if Collected(a).Ok? {
        assert Collected(a).value + [] == Collected(a).value;
      }
    } else {
      var b0 := b[..|b| - 1];
      var c := b[|b| - 1];
      assert a + b == (a + b0) + [c];
      assert b == b0 + [c];
      CollectedSnoc(a + b0, c);
      CollectedSnoc(b0, c);
      CollectedAppend(a, b0);
      if Collected(a).Ok? && Collected(b0).Ok? && c.href.Some? && Shown(AbsoluteUrl(c.href.value)) {
        var xs, ys := Collected(a).value, Collected(b0).value;
        assert (xs + ys) + [LinkOf(c)] == xs + (ys + [LinkOf(c)]);
      }
    }
  }

  /** The links already gathered, followed by more, or the error that stopped the loop. */
  function After(first: Result<seq<Link>>, more: Result<seq<Link>>): Result<seq<Link>>
  {
    match first
    case Err(e) => Err(e)
    case Ok(xs) =>
      match more
      case Err(e) => Err(e)
      case Ok(ys) => Ok(xs + ys)
  }

  /** Nothing gathered before: the loop's result is its own. */
  lemma AfterNothing(more: Result<seq<Link>>)
    ensures After(Ok([]), more) == more
  {
    if more.Ok? {
      assert [] + more.value == more.value;
    }
  }

  /** The documents that hold an anchor (the others are skipped), as candidates. */
  function DocumentCandidates(docs: seq<Document>): (r: seq<Candidate>)
    ensures |r| <= |docs|
  {
    if docs == [] then []
    else
      var d := docs[|docs| - 1];
      DocumentCandidates(docs[..|docs| - 1]) + if d.hasAnchor then [Candidate(d.title, d.href)] else []
  }

  /** Each anchor, its text as title. */
  function RelatedCandidates(anchors: seq<Anchor>): (r: seq<Candidate>)
    ensures |r| == |anchors|
    ensures forall k :: 0 <= k < |r| ==> r[k] == Candidate(Some(anchors[k].text), anchors[k].href)
  {
    seq(|anchors|, k requires 0 <= k < |anchors| => Candidate(Some(anchors[k].text), anchors[k].href))
  }

  /** A document without an anchor never contributes and never raises. */
  lemma {:induction false} DocumentCandidatesHas(docs: seq<Document>, k: nat)
    requires k < |docs| && docs[k].hasAnchor
    ensures Candidate(docs[k].title, docs[k].href) in DocumentCandidates(docs)
  {
    if k < |docs| - 1 {
      assert docs[..|docs| - 1][k] == docs[k];
      DocumentCandidatesHas(docs[..|docs| - 1], k);
    }
  }

  /** The main layout: documents first, then related links. */
  function MainLinks(docs: seq<Document>, related: seq<Anchor>): Result<seq<Link>>
  {
    Collected(DocumentCandidates(docs) + RelatedCandidates(related))
  }

  /** The side layout: related links first, then documents. */
  function SideLinks(docs: seq<Document>, related: seq<Anchor>): Result<seq<Link>>
  {
    Collected(RelatedCandidates(related) + DocumentCandidates(docs))
  }

  /** The two layouts gather the same two groups of links in opposite orders. */
  lemma LinkOrder(docs: seq<Document>, related: seq<Anchor>)
    ensures MainLinks(docs, related) == After(Collected(DocumentCandidates(docs)), Collected(RelatedCandidates(related)))
    ensures SideLinks(docs, related) == After(Collected(RelatedCandidates(related)), Collected(DocumentCandidates(docs)))
    ensures MainLinks(docs, related).Err? <==> SideLinks(docs, related).Err?
  {
    CollectedAppend(DocumentCandidates(docs), RelatedCandidates(related));
    CollectedAppend(RelatedCandidates(related), DocumentCandidates(docs));
  }

  /** The body both loops share: the href made absolute, the link appended unless it points to YouTube. */
  method AddLink(links: seq<Link>, title: Option<String>, href: String) returns (r: seq<Link>)
    ensures Shown(AbsoluteUrl(href)) ==> r == links + [Link(title, AbsoluteUrl(href))]
    ensures !Shown(AbsoluteUrl(href)) ==> r == links
  {
    var url := href;
    if !Contains(url, "http") {
      url := Site + url;
    }
    r := links;
    if !Contains(url, "youtu") {
      r := links + [Link(title, url)];
    }
  }

  /** A document without an anchor leaves the documents loop's result as it was. */
  lemma DocumentSkip(docs: seq<Document>, i: nat)
    requires i < |docs| && !docs[i].hasAnchor
    ensures DocumentCandidates(docs[..i + 1]) == DocumentCandidates(docs[..i])
  {
    assert docs[..i + 1][..i] == docs[..i];
  }

  /** A document with an anchor adds its candidate to the documents loop's list. */
  lemma DocumentTake(docs: seq<Document>, i: nat)
    requires i < |docs| && docs[i].hasAnchor
    ensures DocumentCandidates(docs[..i + 1]) == DocumentCandidates(docs[..i]) + [Candidate(docs[i].title, docs[i].href)]
  {
    assert docs[..i + 1][..i] == docs[..i];
  }

  /** An anchor without an href anywhere among the documents makes the loop raise. */
  lemma DocumentNoHref(docs: seq<Document>, i: nat)
    requires i < |docs| && docs[i].hasAnchor && docs[i].href.None?
    ensures Collected(DocumentCandidates(docs)) == Err(NoHref)
  {
    DocumentCandidatesHas(docs, i);
    CollectedFails(DocumentCandidates(docs));
  }

  /** The documents loop: blocks without an anchor skipped, hrefs made absolute, YouTube left out. */
  method DocumentLoop(start: seq<Link>, docs: seq<Document>) returns (r: Result<seq<Link>>)
    ensures r == After(Ok(start), Collected(DocumentCandidates(docs)))
  {
    var links := start;
    ghost var gathered: seq<Link> := [];
    for i := 0 to |docs|
      invariant Collected(DocumentCandidates(docs[..i])) == Ok(gathered)
      invariant links == start + gathered
    {
      var d := docs[i];
      if !d.hasAnchor {
        DocumentSkip(docs, i);
        continue;
      }
      if d.href.None? {
        DocumentNoHref(docs, i);
        return Err(NoHref);
      }
      var c := Candidate(d.title, d.href);
      DocumentTake(docs, i);
      CollectedSnoc(DocumentCandidates(docs[..i]), c);
      links := AddLink(links, d.title, d.href.value);
      if Shown(AbsoluteUrl(d.href.value)) {
        gathered := gathered + [LinkOf(c)];
      }
    }
    assert docs[..|docs|] == docs;
    return Ok(links);
  }

  /** The candidates of one anchor more. */
  lemma RelatedStep(anchors: seq<Anchor>, i: nat)
    requires i < |anchors|
    ensures RelatedCandidates(anchors[..i + 1]) == RelatedCandidates(anchors[..i]) + [Candidate(Some(anchors[i].text), anchors[i].href)]
  {
  }

  /** The related-links loop. */
  method RelatedLoop(start: seq<Link>, anchors: seq<Anchor>) returns (r: Result<seq<Link>>)
    ensures r == After(Ok(start), Collected(RelatedCandidates(anchors)))
  {
    var links := start;
    ghost var gathered: seq<Link> := [];
    for i := 0 to |anchors|
      invariant Collected(RelatedCandidates(anchors[..i])) == Ok(gathered)
      invariant links == start + gathered
    {
      var a := anchors[i];
      RelatedStep(anchors, i);
      CollectedSnoc(RelatedCandidates(anchors[..i]), Candidate(Some(a.text), a.href));
      if a.href.None? {
        assert RelatedCandidates(anchors)[i].href.None?;
        CollectedFails(RelatedCandidates(anchors));
        return Err(NoHref);
      }
      var url := a.href.value;
      links := AddLink(links, Some(a.text), url);
      if Shown(AbsoluteUrl(url)) {
        gathered := gathered + [Link(Some(a.text), AbsoluteUrl(url))];
      }
    }
    assert anchors[..|anchors|] == anchors;
    return Ok(links);
  }

  /** The main layout's two loops in its order. */
  method MainLinkLoops(docs: seq<Document>, related: seq<Anchor>) returns (r: Result<seq<Link>>)
    ensures r == MainLinks(docs, related)
  {
    LinkOrder(docs, related);
    r := DocumentLoop([], docs);
    AfterNothing(Collected(DocumentCandidates(docs)));
    if r.Ok? {
      r := RelatedLoop(r.value, related);
    }
  }

  /** The side layout's two loops in its order. */
  method SideLinkLoops(docs: seq<Document>, related: seq<Anchor>) returns (r: Result<seq<Link>>)
    ensures r == SideLinks(docs, related)
  {
    LinkOrder(docs, related);
    r := RelatedLoop([], related);
    AfterNothing(Collected(RelatedCandidates(related)));
    if r.Ok? {
      r := DocumentLoop(r.value, docs);
    }
  }

  // ---------------------------------------------------------------- the side layout's date

  /** `\\b\\w+ \\d{1,2}, \\d{4}, \\d{1,2}:\\d{2} [AP]M\\b` without its two word boundaries. */
  const SmallDatePattern: Pattern := [
    Plus(IsWordChar), One(c => c == ' '), Rep(IsDigit, 1, 2), One(c => c == ','), One(c => c == ' '),
    Rep(IsDigit, 4, 4), One(c => c == ','), One(c => c == ' '), Rep(IsDigit, 1, 2), One(c => c == ':'),
    Rep(IsDigit, 2, 2), One(c => c == ' '), One(c => c == 'A' || c == 'P'), One(c => c == 'M')]

  /** `\\b`: a word character on exactly one side of position `i`. */
  predicate Boundary(s: String, i: nat)
    requires i <= |s|
  {
    (i > 0 && IsWordChar(s[i - 1])) != (i < |s| && IsWordChar(s[i]))
  }

  /**
   * The pattern, boundaries included, matches from `i`. Each piece of the
   * pattern is followed by a character its class excludes, so a match from `i`
   * has only one split and the boundary after it is examined on that split.
   */
  predicate DateAt(s: String, i: nat)
    requires i <= |s|
  {
    Boundary(s, i) &&
    match MatchFrom(SmallDatePattern, s, i)
    case None => false
    case Some(ends) => Boundary(s, MatchEnd(i, ends))
  }

  /** `re.search`: the leftmost position from `from` on where a date matches. */
  function DateSearch(s: String, from: nat): (r: Option<nat>)
    requires from <= |s|
    decreases |s| - from
    ensures r.Some? ==> from <= r.value <= |s| && DateAt(s, r.value)
    ensures r.Some? ==> forall j :: from <= j < r.value ==> !DateAt(s, j)
    ensures r.None? ==> forall j :: from <= j <= |s| ==> !DateAt(s, j)
  {
    if DateAt(s, from) then Some(from)
    else if from == |s| then None
    else DateSearch(s, from + 1)
  }

  /** `date_match.group(0)`, or `None` when the small text holds no date. */
  function DateMatch(s: String): (r: Option<String>)
  {
    match DateSearch(s, 0)
    case None => None
    case Some(i) =>
      var ends := MatchFrom(SmallDatePattern, s, i).value;
      Some(s[i..MatchEnd(i, ends)])
  }

  /** `"%B %d, %Y, %I:%M %p"` */
  const SmallLayout := LongDate + [Lit(',')] + ClockTail

  /** The side layout's start: `None` without a date; a date that is not a real one raises `ValueError`. */
  function SmallStart(small: String): (r: Result<Option<DateTime>>)
    ensures r.Ok? && r.value.Some? ==> Valid(r.value.value)
    ensures DateMatch(small).None? ==> r == Ok(None)
    ensures DateMatch(small).Some? ==> (r.Ok? <==> Parse(DateMatch(small).value, SmallLayout).Ok?)
  {
    match DateMatch(small)
    case None => Ok(None)
    case Some(text) =>
      match Parse(text, SmallLayout)
      case Err(e) => Err(e)
      case Ok(dt) => Ok(Some(dt))
  }

  /** Every match of the pattern holds a digit right after the word and its space. */
  lemma SmallDateDigit(s: String, i: nat, ends: seq<nat>)
    requires Fits(SmallDatePattern, s, i, ends)
    ensures ends[1] < |s| && IsDigit(s[ends[1]])
  {
    var p := SmallDatePattern;
    assert Fits(p[1..], s, ends[0], ends[1..]);
    assert p[1..][1..] == p[2..];
    assert ends[1..][1..] == ends[2..];
    assert Fits(p[2..], s, ends[1], ends[2..]);
    assert p[2..][0] == Rep(IsDigit, 1, 2);
    assert AllIn(IsDigit, s, ends[1], ends[2]);
  }

  /** A small text without a digit holds no date, so the page has no start and nothing is saved. */
  lemma NoDigitNoDate(s: String)
    requires forall k :: 0 <= k < |s| ==> !IsDigit(s[k])
    ensures SmallStart(s) == Ok(None)
  {
    if DateSearch(s, 0).Some? {
      var i := DateSearch(s, 0).value;
      MatchFromFits(SmallDatePattern, s, i);
      SmallDateDigit(s, i, MatchFrom(SmallDatePattern, s, i).value);
    }
  }

  /** `%B %d, %Y, %I:%M %p` writes the full date, a 12-hour clock with its half of the day, and no seconds. */
  lemma SmallLayoutShape()
    ensures Separated(SmallLayout)
    ensures Year4 in SmallLayout && Year2 !in SmallLayout && MonthName in SmallLayout && Day in SmallLayout
    ensures Hour24 !in SmallLayout && Hour12 in SmallLayout && AmPm in SmallLayout
    ensures Minute in SmallLayout && Second !in SmallLayout
  {
    SmallLayoutSeparated();
    var f := SmallLayout;
    assert f == [MonthName, Space, Day, Lit(','), Space, Year4, Lit(','), Space, Hour12, Lit(':'), Minute, Space, AmPm];
    assert f[0] == MonthName && f[2] == Day && f[5] == Year4 && f[8] == Hour12 && f[10] == Minute && f[12] == AmPm;
  }

  lemma SmallLayoutSeparated()
    ensures Separated(SmallLayout)
  {
    assert Separated(LongDate + [Lit(',')]) && Separated(ClockTail);
    SeparatedAppend(LongDate + [Lit(',')], ClockTail);
  }

  /** A date written as the side layout writes it reads back as that date and clock, to the minute. */
  lemma SmallDateReadsBack(dt: DateTime)
    requires Valid(dt)
    ensures Parse(Format(dt, SmallLayout), SmallLayout) == Ok(DateTime(dt.date, Time(dt.time.hour, dt.time.minute, 0)))
  {
    SmallLayoutShape();
    FormatParse(dt, SmallLayout);
  }

  // ---------------------------------------------------------------- the page

  /** The main layout, present when its meeting date appears; each other element is `None` when missing. */
  datatype MainSection = MainSection(
    date: String, meetingType: Option<String>, description: Option<String>, timeText: Option<String>,
    locationText: Option<String>, documents: seq<Document>, related: seq<Anchor>)

  /** The side layout, present when its small text appears. */
  datatype SideSection = SideSection(
    smallText: String, locationText: Option<String>, body: Option<String>,
    related: seq<Anchor>, documents: seq<Document>)

  /**
   * A meeting page: whether the main container loads, the page title, and the
   * two layouts (`None` when the selector that opens it times out).
   */
  datatype WaynePage = WaynePage(loaded: bool, title: Option<String>, main: Option<MainSection>, side: Option<SideSection>)

  /** What either layout yields before the record is built. */
  datatype Parts = Parts(
    start: Option<DateTime>, end: Option<DateTime>, place: Option<(String, String)>,
    description: String, links: seq<Link>, classification: Option<String>)

  /** The times a record can be built from: valid, and an end only with a start. */
  predicate Sound(p: Parts)
  {
    (p.start.Some? ==> Valid(p.start.value)) && (p.end.Some? ==> Valid(p.end.value) && p.start.Some?)
  }

  /**
   * The main layout: a missing type, description, time or address element
   * raises `AttributeError` (it is not caught there); the time range and the
   * link loops raise as they do.
   */
  function MainParts(m: MainSection): (r: Result<Parts>)
    ensures r.Ok? ==> Sound(r.value) && r.value.start.Some? && r.value.end.Some? && r.value.place.Some?
    ensures r.Ok? <==> (m.meetingType.Some? && m.description.Some? && m.timeText.Some? && m.locationText.Some? &&
                        MainTimes(m.date, m.timeText.value).Ok? && MainLinks(m.documents, m.related).Ok?)
    ensures r.Ok? ==> r.value.classification == Classify(m.meetingType) && r.value.description == m.description.value
    ensures r.Ok? ==> r.value.links == MainLinks(m.documents, m.related).value
  {
    if m.meetingType.None? || m.description.None? || m.timeText.None? then Err(MissingElement)
    else match MainTimes(m.date, m.timeText.value)
      case Err(e) => Err(e)
      case Ok((start, end)) =>
        if m.locationText.None? then Err(MissingElement)
        else match MainLinks(m.documents, m.related)
          case Err(e) => Err(e)
          case Ok(links) =>
            Ok(Parts(Some(start), Some(end), Some(MainPlace(m.locationText.value)), m.description.value, links,
                     Classify(m.meetingType)))
  }

  /**
   * The side layout: a start only when the small text holds a date, never an
   * end; a missing body is the `AttributeError` re-raised with its own message.
   */
  function SideParts(title: String, side: SideSection): (r: Result<Parts>)
    ensures r.Ok? ==> Sound(r.value) && r.value.end.None?
    ensures r.Ok? <==> SmallStart(side.smallText).Ok? && side.body.Some? && SideLinks(side.documents, side.related).Ok?
    ensures SmallStart(side.smallText).Ok? && side.body.None? ==> r == Err(FieldsMissing)
    ensures r.Ok? ==> r.value.start == SmallStart(side.smallText).value && r.value.classification == Classify(Some(title))
    ensures r.Ok? ==> (r.value.place.Some? <==> side.locationText.Some?)
  {
    match SmallStart(side.smallText)
    case Err(e) => Err(e)
    case Ok(start) =>
      var place := if side.locationText.Some? then Some(SidePlace(side.locationText.value)) else None;
      if side.body.None? then Err(FieldsMissing)
      else match SideLinks(side.documents, side.related)
        case Err(e) => Err(e)
        case Ok(links) => Ok(Parts(start, None, place, side.body.value, links, Classify(Some(title))))
  }

  /**
   * The page: the container must load and the title must be there; the main
   * layout when it appears, else the side layout, else nothing at all.
   */
  function PageParts(page: WaynePage): (r: Result<Option<Parts>>)
    ensures !page.loaded ==> r == Err(TimeoutMessage)
    ensures page.loaded && page.title.None? ==> r == Err(MissingElement)
    ensures r.Ok? && r.value.Some? ==> Sound(r.value.value) && page.title.Some?
    ensures r == Ok(None) <==> page.loaded && page.title.Some? && page.main.None? && page.side.None?
  {
    if !page.loaded then Err(TimeoutMessage)
    else if page.title.None? then Err(MissingElement)
    else if page.main.Some? then
      match MainParts(page.main.value)
      case Err(e) => Err(e)
      case Ok(p) => Ok(Some(p))
    else if page.side.None? then Ok(None)
    else
      match SideParts(page.title.value, page.side.value)
      case Err(e) => Err(e)
      case Ok(p) => Ok(Some(p))
  }

  // ---------------------------------------------------------------- the record

  /** The record `save_data` receives. */
  datatype Meeting = Meeting(
    title: String, description: String, classification: Option<String>, startTime: String,
    endTime: Option<String>, location: Option<Location>, links: seq<Link>, timeNotes: String,
    isCancelled: Option<bool>, allDay: Option<bool>)

  /** True when the meeting runs a full day or more; otherwise `None`, never `False`. */
  function AllDay(start: Option<DateTime>, end: Option<DateTime>): (r: Option<bool>)
    requires start.Some? ==> 1 <= start.value.date.month <= 12
    requires end.Some? ==> 1 <= end.value.date.month <= 12
    ensures r != Some(false)
    ensures r == Some(true) <==> start.Some? && end.Some? && EpochSeconds(end.value) - EpochSeconds(start.value) >= 86400
  {
    if start.Some? && end.Some? && EpochSeconds(end.value) - EpochSeconds(start.value) >= 86400 then Some(true) else None
  }

  /** A meeting that starts and ends on the same day is never all-day. */
  lemma SameDayNeverAllDay(start: DateTime, end: DateTime)
    requires Valid(start) && Valid(end) && start.date == end.date
    ensures AllDay(Some(start), Some(end)) == None
  {
  }

  /** `True if context["isCancelled"] == "True" else None` */
  function CancelFlag(text: String): (r: Option<bool>)
    ensures r != Some(false)
    ensures r == Some(true) <==> text == "True"
  {
    if text == "True" then Some(true) else None
  }

  /**
   * What one page yields: an error, nothing saved, or the record saved. The
   * listing's `isCancelled` context is read (and raises when absent) whenever
   * a layout was read, before the start is examined.
   */
  function Extract(page: WaynePage, context: Context, zone: DateTime -> DetroitOffset): (r: Result<Option<Meeting>>)
    ensures PageParts(page).Err? ==> r == Err(PageParts(page).error)
    ensures PageParts(page) == Ok(None) ==> r == Ok(None)
    ensures PageParts(page).Ok? && PageParts(page).value.Some? && "isCancelled" !in context ==> r == Err(NoCancelFlag)
    ensures r.Ok? && r.value.Some? ==>
      var p := PageParts(page).value.value;
      var m := r.value.value;
      && p.start.Some? && "isCancelled" in context
      && m.title == page.title.value && m.startTime == Localized(p.start.value, zone)
      && (m.endTime.Some? <==> p.end.Some?) && m.location == LocationOf(p.place) && m.links == p.links
      && m.classification == p.classification && m.description == p.description && m.timeNotes == ""
      && m.isCancelled == CancelFlag(context["isCancelled"]) && m.allDay == AllDay(p.start, p.end)
    ensures PageParts(page).Ok? && PageParts(page).value.Some? && "isCancelled" in context ==>
      (r.Ok? && r.value.Some? <==> PageParts(page).value.value.start.Some?)
  {
    match PageParts(page)
    case Err(e) => Err(e)
    case Ok(None) => Ok(None)
    case Ok(Some(p)) =>
      if "isCancelled" !in context then Err(NoCancelFlag)
      else if p.start.None? then Ok(None)
      else Ok(Some(Record(page.title.value, p, context["isCancelled"], zone)))
  }

  /** The record built from a layout's parts with a start. */
  function Record(title: String, p: Parts, cancelled: String, zone: DateTime -> DetroitOffset): (m: Meeting)
    requires Sound(p) && p.start.Some?
    ensures |m.startTime| == 25 && (m.endTime.Some? ==> |m.endTime.value| == 25)
  {
    Meeting(title, p.description, p.classification, Localized(p.start.value, zone),
            if p.end.Some? then Some(Localized(p.end.value, zone)) else None,
            LocationOf(p.place), p.links, "", CancelFlag(cancelled), AllDay(p.start, p.end))
  }

  /** A meeting read on the side layout has no end and is never all-day. */
  lemma SideNeverAllDay(page: WaynePage, context: Context, zone: DateTime -> DetroitOffset)
    requires page.loaded && page.title.Some? && page.main.None?
    requires Extract(page, context, zone).Ok? && Extract(page, context, zone).value.Some?
    ensures Extract(page, context, zone).value.value.endTime == None
    ensures Extract(page, context, zone).value.value.allDay == None
  {
  }

  /** A main-layout page with every element and a readable time range is saved, start and end from the range. */
  lemma MainSaved(page: WaynePage, context: Context, zone: DateTime -> DetroitOffset)
    requires page.loaded && page.title.Some? && page.main.Some? && "isCancelled" in context
    requires MainParts(page.main.value).Ok?
    ensures var m := page.main.value;
      var times := MainTimes(m.date, m.timeText.value).value;
      && Extract(page, context, zone).Ok? && Extract(page, context, zone).value.Some?
      && Extract(page, context, zone).value.value.startTime == Localized(times.0, zone)
      && Extract(page, context, zone).value.value.endTime == Some(Localized(times.1, zone))
  {
  }

  /** A side-layout page whose small text has no digit saves nothing, even with every other element there. */
  lemma SideWithoutDateSavesNothing(page: WaynePage, context: Context, zone: DateTime -> DetroitOffset)
    requires page.loaded && page.title.Some? && page.main.None? && page.side.Some?
    requires forall k :: 0 <= k < |page.side.value.smallText| ==> !IsDigit(page.side.value.smallText[k])
    requires "isCancelled" in context
    ensures Extract(page, context, zone).Ok? ==> Extract(page, context, zone) == Ok(None)
  {
    NoDigitNoDate(page.side.value.smallText);
  }

  // ---------------------------------------------------------------- scrape

  /**
   * `scrape(sdk, current_url, context)`: the record is saved exactly when the
   * page yields one; an error leaves the SDK as it was.
   */
  method Scrape(sdk: DetailSdk<Meeting>, page: WaynePage, context: Context, zone: DateTime -> DetroitOffset)
    returns (error: Option<String>)
    modifies sdk
    ensures var r := Extract(page, context, zone);
      && (r.Err? ==> error == Some(r.error) && sdk.data == old(sdk.data))
      && (r == Ok(None) ==> error == None && sdk.data == old(sdk.data))
      && (r.Ok? && r.value.Some? ==> error == None && sdk.data == Some(r.value.value))
  {
    var read := ReadLayouts(page);
    if read.Err? {
      return Some(read.error);
    }
    if read.value.None? {
      return None;
    }
    var parts := read.value.value;
    if "isCancelled" !in context {
      return Some(NoCancelFlag);
    }
    if parts.start.Some? {
      sdk.SaveData(Record(page.title.value, parts, context["isCancelled"], zone));
    }
    return None;
  }

  /** The body of the scraper up to the all-day test: the main layout, else the side layout. */
  method ReadLayouts(page: WaynePage) returns (r: Result<Option<Parts>>)
    ensures r == PageParts(page)
  {
    if !page.loaded {
      return Err(TimeoutMessage);
    }
    if page.title.None? {
      return Err(MissingElement);
    }
    if page.main.Some? {
      var main := ReadMain(page.main.value);
      if main.Err? {
        return Err(main.error);
      }
      return Ok(Some(main.value));
    }
    if page.side.None? {
      return Ok(None);
    }
    var side := ReadSide(page.title.value, page.side.value);
    if side.Err? {
      return Err(side.error);
    }
    return Ok(Some(side.value));
  }

  /** The `try` block of the main layout. */
  method ReadMain(m: MainSection) returns (r: Result<Parts>)
    ensures r == MainParts(m)
  {
    if m.meetingType.None? || m.description.None? || m.timeText.None? {
      return Err(MissingElement);
    }
    var times := MainTimes(m.date, m.timeText.value);
    if times.Err? {
      return Err(times.error);
    }
    if m.locationText.None? {
      return Err(MissingElement);
    }
    var links := MainLinkLoops(m.documents, m.related);
    if links.Err? {
      return Err(links.error);
    }
    return Ok(Parts(Some(times.value.0), Some(times.value.1), Some(MainPlace(m.locationText.value)),
                    m.description.value, links.value, Classify(m.meetingType)));
  }

  /** The `except TimeoutError` block: the side layout. */
  method ReadSide(title: String, side: SideSection) returns (r: Result<Parts>)
    ensures r == SideParts(title, side)
  {
    var start := SmallStart(side.smallText);
    if start.Err? {
      return Err(start.error);
    }
    var place := if side.locationText.Some? then Some(SidePlace(side.locationText.value)) else None;
    if side.body.None? {
      return Err(FieldsMissing);
    }
    var links := SideLinkLoops(side.documents, side.related);
    if links.Err? {
      return Err(links.error);
    }
    return Ok(Parts(start.value, None, place, side.body.value, links.value, Classify(Some(title))));
  }
}

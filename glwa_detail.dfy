/**
 * The Great Lakes Water Authority detail scraper
 * (harambe_scrapers/extractor/det_great_lakes_water_authority/detail.py). An
 * event page gives a title, a schedule "Month D[, YYYY] @ H:MM AM - H:MM PM",
 * a description, and perhaps an agenda anchor and a venue. The year, when the
 * schedule omits it, comes from the page URL's text after its last "=". When
 * the agenda anchor says "agenda", the scraper follows it to the agenda page
 * and collects that page's document links; otherwise the venue decides the
 * location.
 *
 * The browser is given as the texts and attributes its selectors return (a
 * selector that finds nothing is `None`), the agenda page as the page the
 * anchor leads to, and the clock's time-zone rule as `zone`.
 */
module GlwaDetail {
  import opened Wrappers
  import opened Text
  import opened Numbers
  import opened Calendar
  import opened Strptime
  import opened Timezone
  import opened Localize
  import opened Keywords
  import opened GlwaSdk

  const TimeoutMessage: String := "TimeoutError: waiting for selector"
  const MissingElement: String := "'NoneType' object has no attribute 'inner_text'"
  const MissingTitle: String := "'NoneType' object has no attribute 'lower'"
  const UnpackMessage: String := "ValueError: wrong number of values to unpack"
  const NoAgendaUrl: String := "TypeError: url: expected string, got NoneType"

  // ---------------------------------------------------------------- the URL's year

  /** `current_url.split("=")[-1]`: the text after the URL's last "=", or all of it without one. */
  function UrlYear(url: String): (r: String)
    ensures '=' !in r && EndsWith(url, r)
    ensures |r| < |url| ==> url[|url| - |r| - 1] == '='
  {
    LastPiece(url, '=')
  }

  /** Whatever comes before its last "=", a URL yields the text after it. */
  lemma UrlYearOf(base: String, year: String)
    requires '=' !in year
    ensures UrlYear(base + "=" + year) == year
  {
    LastPieceOf(base, '=', year);
  }

  // ---------------------------------------------------------------- the schedule

  /**
   * The meeting date of `extract_and_format_date`: when the URL's year does not
   * occur in the schedule, the date part with that year appended, read as
   * `%B %d %Y`; otherwise, or when that reading fails, the date part read as
   * `%B %d, %Y`.
   */
  function EventDate(datePart: String, schedule: String, year: String): (r: Result<Date>)
    ensures r.Ok? ==> ValidDate(r.value)
    ensures !Contains(schedule, year) && Parse(datePart + " " + year, SpacedDate).Ok? ==>
      r == Ok(Parse(datePart + " " + year, SpacedDate).value.date)
    ensures Contains(schedule, year) || Parse(datePart + " " + year, SpacedDate).Err? ==>
      (r.Ok? <==> Parse(datePart, LongDate).Ok?) && (r.Ok? ==> r.value == Parse(datePart, LongDate).value.date)
  {
    var first := if !Contains(schedule, year) then Parse(datePart + " " + year, SpacedDate) else Parse(datePart, LongDate);
    match first
    case Ok(dt) => Ok(dt.date)
    case Err(_) =>
      match Parse(datePart, LongDate)
      case Ok(dt) => Ok(dt.date)
      case Err(e) => Err(e)
  }

  /** `strptime(text.strip(), "%I:%M %p").time()` */
  function Clock(text: String): (r: Result<Time>)
    ensures r.Ok? ==> ValidTime(r.value) && r.value.second == 0
  {
    match Parse(Strip(text), ClockSide)
    case Err(e) => Err(e)
    case Ok(dt) =>
      ParseNoSecond(Strip(text), ClockSide);
      Ok(dt.time)
  }

  /**
   * `extract_and_format_date(date_string, year)` before the ISO rendering: the
   * schedule splits on " @ " into exactly a date and a time part, and the time
   * part on " - " into exactly a start and an end clock, both on the date.
   */
  function EventTimes(schedule: String, year: String): (r: Result<(DateTime, DateTime)>)
    ensures SplitPair(schedule, " @ ").None? ==> r == Err(UnpackMessage)
    ensures r.Ok? ==> Valid(r.value.0) && Valid(r.value.1) && r.value.0.date == r.value.1.date
    ensures r.Ok? ==> SplitPair(schedule, " @ ").Some? && SplitPair(SplitPair(schedule, " @ ").value.1, " - ").Some?
    ensures r.Ok? ==>
      var parts := SplitPair(schedule, " @ ").value;
      var clocks := SplitPair(parts.1, " - ").value;
      && EventDate(parts.0, schedule, year) == Ok(r.value.0.date)
      && Clock(clocks.0) == Ok(r.value.0.time) && Clock(clocks.1) == Ok(r.value.1.time)
  {
    match SplitPair(schedule, " @ ")
    case None => Err(UnpackMessage)
    case Some(parts) =>
      match EventDate(parts.0, schedule, year)
      case Err(e) => Err(e)
      case Ok(date) =>
        match SplitPair(parts.1, " - ")
        case None => Err(UnpackMessage)
        case Some(clocks) =>
          match Clock(clocks.0)
          case Err(e) => Err(e)
          case Ok(start) =>
            match Clock(clocks.1)
            case Err(e) => Err(e)
            case Ok(end) => Ok((Combine(date, start), Combine(date, end)))
  }

  /** `"%B %d"`, the date as the schedule writes it when it leaves out the year. */
  const MonthDay := [MonthName, Space, Day]

  /** `%I:%M %p` writes the 12-hour clock, a colon, the minute, a space and the half of the day. */
  lemma ClockSideText(dt: DateTime)
    requires Valid(dt)
    ensures Format(dt, ClockSide) ==
      Pad(To12(dt.time.hour), 2) + (":" + (Pad(dt.time.minute, 2) + (" " + (if dt.time.hour < 12 then "AM" else "PM"))))
  {
    var l := ClockSide;
    var ap := if dt.time.hour < 12 then "AM" else "PM";
    assert Render(l[4..], dt) == ap by {
      assert l[4..] == [AmPm] && [AmPm][1..] == [];
    }
    assert Render(l[3..], dt) == " " + ap by {
      assert l[3..][0] == Space && l[3..][1..] == l[4..];
    }
    assert Render(l[2..], dt) == Pad(dt.time.minute, 2) + (" " + ap) by {
      assert l[2..][0] == Minute && l[2..][1..] == l[3..];
    }
    assert Render(l[1..], dt) == ":" + (Pad(dt.time.minute, 2) + (" " + ap)) by {
      assert l[1..][0] == Lit(':') && l[1..][1..] == l[2..];
    }
  }

  /** A clock written `%I:%M %p` reads back as that clock, to the minute. */
  lemma ClockReadsBack(dt: DateTime)
    requires Valid(dt)
    ensures Clock(Format(dt, ClockSide)) == Ok(Time(dt.time.hour, dt.time.minute, 0))
  {
    ClockStripped(dt);
    ClockParse(dt);
  }

  /** A clock written `%I:%M %p` has no surrounding whitespace. */
  lemma ClockStripped(dt: DateTime)
    requires Valid(dt)
    ensures Strip(Format(dt, ClockSide)) == Format(dt, ClockSide)
  {
    var c := Format(dt, ClockSide);
    ClockSideText(dt);
    assert IsDigit(c[0]) && c[|c| - 1] == 'M';
    StripNoEdgeSpace(c);
  }

  /** `strptime` on a clock written `%I:%M %p` gives that clock on 1900-01-01. */
  lemma ClockParse(dt: DateTime)
    requires Valid(dt)
    ensures Parse(Format(dt, ClockSide), ClockSide) == Ok(DateTime(Date(1900, 1, 1), Time(dt.time.hour, dt.time.minute, 0)))
  {
    ClockSideShape();
    MatchRender(ClockSide, dt, NoFields);
    RecordAllFields(ClockSide, dt, NoFields);
    To24To12(dt.time.hour);
    assert Valid(DateTime(Date(1900, 1, 1), Time(dt.time.hour, dt.time.minute, 0)));
  }

  /** `%B %d, %Y` ends with the four-digit year. */
  lemma LongDateEndsWithYear(dt: DateTime)
    requires Valid(dt)
    ensures Format(dt, LongDate) == Format(dt, LongDate[..5]) + Pad(dt.date.year, 4)
  {
    RenderAppend(LongDate[..5], [Year4], dt);
    assert LongDate[..5] + [Year4] == LongDate;
    assert Render([Year4], dt) == Pad(dt.date.year, 4) + Render([], dt);
  }

  /** `%B %d %Y` is `%B %d`, a space and the four-digit year. */
  lemma SpacedDateText(dt: DateTime)
    requires Valid(dt)
    ensures Format(dt, SpacedDate) == Format(dt, MonthDay) + " " + Pad(dt.date.year, 4)
  {
    RenderAppend(MonthDay, [Space, Year4], dt);
    assert MonthDay + [Space, Year4] == SpacedDate;
    assert Render([Space, Year4], dt) == " " + Render([Year4], dt) by {
      assert [Space, Year4][1..] == [Year4];
    }
    assert Render([Year4], dt) == Pad(dt.date.year, 4) + Render([], dt);
  }

  /** A clock written `%I:%M %p` holds neither "@" nor "-". */
  lemma ClockFree(dt: DateTime)
    requires Valid(dt)
    ensures '@' !in Format(dt, ClockSide) && '-' !in Format(dt, ClockSide)
  {
    ClockSideShape();
    assert Lit('@') !in ClockSide && Lit('-') !in ClockSide;
    RenderLacks(ClockSide, dt, '@');
    RenderLacks(ClockSide, dt, '-');
  }

  /** A date without "@" and two clocks without "@" or "-" split back apart at " @ " and " - ". */
  lemma ScheduleSplit(d: String, c1: String, c2: String)
    requires '@' !in d && '@' !in c1 && '@' !in c2 && '-' !in c1 && '-' !in c2
    ensures SplitPair(d + " @ " + (c1 + " - " + c2), " @ ") == Some((d, c1 + " - " + c2))
    ensures SplitPair(c1 + " - " + c2, " - ") == Some((c1, c2))
  {
    SplitPairOf(c1, " - ", c2);
    SplitPairOf(d, " @ ", c1 + " - " + c2);
  }

  /**
   * A schedule written "%B %d, %Y @ %I:%M %p - %I:%M %p", on a page whose URL
   * year is the schedule's year, reads back as the day's start and end, to the minute.
   */
  lemma ScheduleReadsBack(start: DateTime, end: DateTime)
    requires Valid(start) && Valid(end)
    ensures var times := Format(start, ClockSide) + " - " + Format(end, ClockSide);
      EventTimes(Format(start, LongDate) + " @ " + times, Pad(start.date.year, 4)) ==
        Ok((DateTime(start.date, Time(start.time.hour, start.time.minute, 0)),
            DateTime(start.date, Time(end.time.hour, end.time.minute, 0))))
  {
    var d := Format(start, LongDate);
    var times := Format(start, ClockSide) + " - " + Format(end, ClockSide);
    NoAtSign(start, LongDate);
    ClockFree(start);
    ClockFree(end);
    ScheduleSplit(d, Format(start, ClockSide), Format(end, ClockSide));
    YearShown(start, " @ " + times);
    assert d + " @ " + times == d + (" @ " + times);
    LongDateShape();
    FormatParse(start, LongDate);
    ClockReadsBack(start);
    ClockReadsBack(end);
  }

  /** A date written `%B %d, %Y` or `%B %d` holds no "@". */
  lemma NoAtSign(dt: DateTime, layout: seq<Directive>)
    requires Valid(dt) && (layout == LongDate || layout == MonthDay)
    ensures '@' !in Format(dt, layout)
  {
    assert Lit('@') !in layout;
    RenderLacks(layout, dt, '@');
  }

  /** A date written `%B %d, %Y` shows its four-digit year, whatever follows it. */
  lemma YearShown(dt: DateTime, tail: String)
    requires Valid(dt)
    ensures Contains(Format(dt, LongDate) + tail, Pad(dt.date.year, 4))
  {
    var year := Pad(dt.date.year, 4);
    LongDateEndsWithYear(dt);
    var front := Format(dt, LongDate[..5]);
    assert Format(dt, LongDate) + tail == front + year + tail;
    assert OccursAt(Format(dt, LongDate) + tail, year, |front|);
  }

  /**
   * A schedule written "%B %d @ %I:%M %p - %I:%M %p" on a page whose URL year
   * does not occur in it reads back on that year.
   */
  lemma ShortScheduleReadsBack(start: DateTime, end: DateTime)
    requires Valid(start) && Valid(end)
    requires !Contains(Format(start, MonthDay) + " @ " + (Format(start, ClockSide) + " - " + Format(end, ClockSide)),
                       Pad(start.date.year, 4))
    ensures var times := Format(start, ClockSide) + " - " + Format(end, ClockSide);
      EventTimes(Format(start, MonthDay) + " @ " + times, Pad(start.date.year, 4)) ==
        Ok((DateTime(start.date, Time(start.time.hour, start.time.minute, 0)),
            DateTime(start.date, Time(end.time.hour, end.time.minute, 0))))
  {
    var d := Format(start, MonthDay);
    NoAtSign(start, MonthDay);
    ClockFree(start);
    ClockFree(end);
    ScheduleSplit(d, Format(start, ClockSide), Format(end, ClockSide));
    SpacedDateText(start);
    SpacedDateShape();
    FormatParse(start, SpacedDate);
    ClockReadsBack(start);
    ClockReadsBack(end);
  }

  // ---------------------------------------------------------------- classification and cancellation

  /** The keyword table of `parse_classification`, in its order ("commission" maps to "COMMISION"). */
  const ClassificationTable: seq<Rule> := [
    Rule("advisory", "ADVISORY"), Rule("committee", "COMMITTEE"), Rule("board", "BOARD"),
    Rule("commission", "COMMISION"), Rule("public meeting", "PUBLIC"), Rule("policy meeting", "POLICY"),
    Rule("community", "COMMUNITY"), Rule("annual", "ANNUAL"), Rule("cbo", "CBO")]

  /**
   * `parse_classification(title, description, current_url)`: the first keyword
   * found in the lower-cased title, the lower-cased description or the URL as it is.
   */
  function Classify(title: String, description: String, url: String): Option<String>
  {
    FirstMatch(ClassificationTable, [Lower(title), Lower(description), url])
  }

  /** "advisory" anywhere in the title decides whatever else the page mentions. */
  lemma AdvisoryFirst(title: String, description: String, url: String)
    requires Contains(Lower(title), "advisory")
    ensures Classify(title, description, url) == Some("ADVISORY")
  {
    var texts := [Lower(title), Lower(description), url];
    assert Contains(texts[0], ClassificationTable[0].keyword);
    FirstMatchAt(ClassificationTable, texts, 0);
  }

  /** The URL alone can classify a page: a "board" URL with no earlier keyword anywhere is a board meeting. */
  lemma UrlClassifies(title: String, description: String, url: String)
    requires Contains(url, "board")
    requires forall j :: 0 <= j < 2 ==> !Hits(ClassificationTable[j].keyword, [Lower(title), Lower(description), url])
    ensures Classify(title, description, url) == Some("BOARD")
  {
    var texts := [Lower(title), Lower(description), url];
    assert Contains(texts[2], ClassificationTable[2].keyword);
    FirstMatchAt(ClassificationTable, texts, 2);
  }

  /** A commission that is neither advisory, a committee nor a board is classified "COMMISION", as the table spells it. */
  lemma CommissionSpelling(title: String, description: String, url: String)
    requires Contains(Lower(title), "commission")
    requires forall j :: 0 <= j < 3 ==> !Hits(ClassificationTable[j].keyword, [Lower(title), Lower(description), url])
    ensures Classify(title, description, url) == Some("COMMISION")
  {
    var texts := [Lower(title), Lower(description), url];
    assert Contains(texts[0], ClassificationTable[3].keyword);
    FirstMatchAt(ClassificationTable, texts, 3);
  }

  /** `"cancel" in title_text.lower()` */
  predicate Cancelled(title: String)
  {
    Contains(Lower(title), "cancel")
  }

  /** The cancellation test ignores case: "CANCELLED" and "Cancelled" count alike. */
  lemma CancelledAnyCase(title: String, word: String)
    requires Contains(title, word) && Lower(word) == "cancel"
    ensures Cancelled(title)
  {
    CaseFoldContains(title, word);
  }

  // ---------------------------------------------------------------- agenda-page links

  const LegistarBase: String := "https://glwater.legistar.com/"
  const NotAvailable: String := "Not\U{00A0}available"

  /** An anchor of the agenda page's fourth table: its `href` and its text, each `None` when absent. */
  datatype LinkAnchor = LinkAnchor(href: Option<String>, text: Option<String>)

  datatype Link = Link(url: String, title: String)

  /**
   * The title `parse_links` gives an anchor's text: "Agenda" when it mentions an
   * agenda, else "Minutes" when it mentions minutes, else the text itself;
   * `None` (the anchor is skipped) for a text reading "Not available" with a
   * no-break space that mentions neither.
   */
  function LinkTitle(text: String): Option<String>
  {
    if Contains(Lower(text), "agenda") then Some("Agenda")
    else if Contains(Lower(text), "minute") then Some("Minutes")
    else if Contains(text, NotAvailable) then None
    else Some(text)
  }

  /** The link an anchor gives: its `href` (or "") after the Legistar address, with its title. */
  function LinkOf(a: LinkAnchor): Option<Link>
  {
    match LinkTitle(a.text.GetOr(""))
    case None => None
    case Some(t) => Some(Link(LegistarBase + a.href.GetOr(""), t))
  }

  /** The links of `parse_links`, in anchor order. */
  function LinksOf(anchors: seq<LinkAnchor>): (r: seq<Link>)
  {
    if anchors == [] then []
    else
      var last := anchors[|anchors| - 1];
      LinksOf(anchors[..|anchors| - 1]) + (if LinkOf(last).Some? then [LinkOf(last).value] else [])
  }

  /** `parse_links(page)`: the anchor loop, skipping with `continue`. */
  method ParseLinks(anchors: seq<LinkAnchor>) returns (links: seq<Link>)
    ensures links == LinksOf(anchors)
  {
    links := [];
    for i := 0 to |anchors|
      invariant links == LinksOf(anchors[..i])
    {
      assert anchors[..i + 1][..i] == anchors[..i];
      var href := anchors[i].href.GetOr("");
      var title := anchors[i].text.GetOr("");
      if Contains(Lower(title), "agenda") {
        title := "Agenda";
      } else if Contains(Lower(title), "minute") {
        title := "Minutes";
      } else if Contains(title, NotAvailable) {
        continue;
      }
      links := links + [Link(LegistarBase + href, title)];
    }
    assert anchors[..|anchors|] == anchors;
  }

  /** An anchor that mentions an agenda is renamed before the "Not available" test can skip it. */
  lemma AgendaBeforeNotAvailable(a: LinkAnchor)
    requires a.text.Some? && Contains(Lower(a.text.value), "agenda")
    ensures LinkOf(a) == Some(Link(LegistarBase + a.href.GetOr(""), "Agenda"))
  {
  }

  /**
   * Every link comes from an anchor, in the Legistar site, titled "Agenda",
   * "Minutes" or with the anchor's own text; there are no more links than anchors.
   */
  lemma {:induction false} LinksFromAnchors(anchors: seq<LinkAnchor>)
    ensures |LinksOf(anchors)| <= |anchors|
    ensures forall l :: l in LinksOf(anchors) ==> exists k :: 0 <= k < |anchors| && LinkOf(anchors[k]) == Some(l)
    ensures forall l :: l in LinksOf(anchors) ==> StartsWith(l.url, LegistarBase)
  {
    if anchors != [] {
      var front := anchors[..|anchors| - 1];
      LinksFromAnchors(front);
      forall l | l in LinksOf(anchors)
        ensures exists k :: 0 <= k < |anchors| && LinkOf(anchors[k]) == Some(l)
      {
        if l in LinksOf(front) {
          var k :| 0 <= k < |front| && LinkOf(front[k]) == Some(l);
          assert anchors[k] == front[k];
        } else {
          assert LinkOf(anchors[|anchors| - 1]) == Some(l);
        }
      }
    }
  }

  /** Anchors none of which reads "Not available" each give one link, in order. */
  lemma {:induction false} LinksKeepAll(anchors: seq<LinkAnchor>)
    requires forall k :: 0 <= k < |anchors| ==> !Contains(anchors[k].text.GetOr(""), NotAvailable)
    ensures |LinksOf(anchors)| == |anchors|
    ensures forall k :: 0 <= k < |anchors| ==> Some(LinksOf(anchors)[k]) == LinkOf(anchors[k])
  {
    if anchors != [] {
      var front := anchors[..|anchors| - 1];
      LinksKeepAll(front);
      assert forall k :: 0 <= k < |front| ==> front[k] == anchors[k];
    }
  }

  // ---------------------------------------------------------------- location and links

  datatype Location = Location(name: String, address: String)

  const Zoom := Location("Virtual", "Zoom")

  /** Virtual on Zoom when the description mentions zoom, in any case; otherwise no location. */
  function DescriptionPlace(description: String): Option<Location>
  {
    if Contains(Lower(description), "zoom") then Some(Zoom) else None
  }

  /** The location the agenda page's address text suggests, which the scraper then overrides. */
  function AddressPlace(address: String): Option<Location>
  {
    if Contains(Lower(address), "zoom") || Contains(Lower(address), "virtual") then Some(Zoom)
    else if Contains(Lower(address), "virtual") then Some(Location("Virtual", ""))
    else if address != "" then Some(Location("", address))
    else None
  }

  /** The branch for a virtual address without Zoom can never be taken: the test before it catches every such address. */
  lemma AddressNeverBareVirtual(address: String)
    ensures AddressPlace(address) != Some(Location("Virtual", ""))
  {
  }

  /** The venue chain: a Zoom venue address, else a named venue with an address, else the description's Zoom. */
  function VenuePlace(name: Option<String>, address: Option<String>, description: String): Option<Location>
  {
    if address.Some? && address.value != "" && Contains(Lower(address.value), "zoom") then Some(Zoom)
    else if address.Some? && address.value != "" && name.Some? && name.value != "" then
      Some(Location(name.value, address.value))
    else DescriptionPlace(description)
  }

  /** A venue address mentioning zoom makes the meeting virtual, whatever the venue's name. */
  lemma VenueZoomFirst(name: Option<String>, address: String, description: String)
    requires Contains(Lower(address), "zoom")
    ensures VenuePlace(name, Some(address), description) == Some(Zoom)
  {
    assert |Lower(address)| >= 4;
  }

  /** A named venue with a non-Zoom address is the location, whatever the description says. */
  lemma VenueNamed(name: String, address: String, description: String)
    requires name != "" && address != "" && !Contains(Lower(address), "zoom")
    ensures VenuePlace(Some(name), Some(address), description) == Some(Location(name, address))
  {
  }

  /** The page the agenda anchor leads to. */
  datatype AgendaPage = AgendaPage(tableAppears: bool, anchors: seq<LinkAnchor>, addressText: Option<String>)

  /** `p > a` in the description: its text, its `href`, and the page it leads to. */
  datatype AgendaAnchor = AgendaAnchor(text: String, href: Option<String>, target: AgendaPage)

  datatype Resources = Resources(links: seq<Link>, location: Option<Location>)

  /**
   * The agenda path: the agenda page's links, or a single "Agenda" link to the
   * anchor's `href` when there are none or the table never appears; the
   * location from the description alone.
   */
  function AgendaResources(link: String, target: AgendaPage, description: String): Resources
  {
    var found := if target.tableAppears then LinksOf(target.anchors) else [];
    Resources(if found == [] then [Link(link, "Agenda")] else found, DescriptionPlace(description))
  }

  /**
   * The links and location of a page: none without an agenda anchor; the agenda
   * path when its text mentions an agenda (its `href` missing raises); the venue
   * chain and no links otherwise.
   */
  function PageResources(agenda: Option<AgendaAnchor>, venueName: Option<String>, venueAddress: Option<String>,
                         description: String): Result<Resources>
  {
    match agenda
    case None => Ok(Resources([], None))
    case Some(a) =>
      if Contains(Lower(a.text), "agenda") then
        if a.href.None? then Err(NoAgendaUrl) else Ok(AgendaResources(a.href.value, a.target, description))
      else Ok(Resources([], VenuePlace(venueName, venueAddress, description)))
  }

  /** On the agenda path the location is Virtual on Zoom exactly when the description mentions zoom, and none otherwise. */
  lemma AgendaLocation(a: AgendaAnchor, venueName: Option<String>, venueAddress: Option<String>, description: String)
    requires Contains(Lower(a.text), "agenda") && a.href.Some?
    ensures var r := PageResources(Some(a), venueName, venueAddress, description);
      && r.Ok?
      && (r.value.location == Some(Zoom) <==> Contains(Lower(description), "zoom"))
      && (r.value.location.None? <==> !Contains(Lower(description), "zoom"))
      && |r.value.links| >= 1
  {
  }

  /** On the agenda path, the agenda page's address text and the venue never reach the result. */
  lemma AgendaIgnoresAddress(a: AgendaAnchor, address: Option<String>, venueName: Option<String>,
                             venueAddress: Option<String>, description: String)
    requires Contains(Lower(a.text), "agenda")
    ensures var b := a.(target := a.target.(addressText := address));
      PageResources(Some(b), None, None, description) == PageResources(Some(a), venueName, venueAddress, description)
  {
  }

  /**
   * The single "Agenda" link to the anchor's `href` stands in when the table
   * times out or holds no link; otherwise the table's links are kept. Either way
   * the agenda path has at least one link.
   */
  lemma AgendaFallback(link: String, target: AgendaPage, description: String)
    ensures var r := AgendaResources(link, target, description);
      && (!target.tableAppears || LinksOf(target.anchors) == [] ==> r.links == [Link(link, "Agenda")])
      && (target.tableAppears && LinksOf(target.anchors) != [] ==> r.links == LinksOf(target.anchors))
      && r.links != []
  {
  }

  /**
   * The resource branches of `scrape` as written: `links` and `location` start
   * empty and are reassigned along the branch chain, including the address-derived location
   * that the agenda path then overwrites.
   */
  method ReadResources(agenda: Option<AgendaAnchor>, venueName: Option<String>, venueAddress: Option<String>,
                       description: String) returns (r: Result<Resources>)
    ensures r == PageResources(agenda, venueName, venueAddress, description)
  {
    var links: seq<Link> := [];
    var location: Option<Location> := None;
    if agenda.Some? {
      var a := agenda.value;
      if Contains(Lower(a.text), "agenda") {
        if a.href.None? {
          return Err(NoAgendaUrl);
        }
        var link := a.href.value;
        if a.target.tableAppears {
          links := ParseLinks(a.target.anchors);
          location := AddressPlace(a.target.addressText.GetOr(""));
          if links == [] {
            links := [Link(link, "Agenda")];
          }
          location := DescriptionPlace(description);
        } else {
          links := [Link(link, "Agenda")];
          location := DescriptionPlace(description);
        }
      } else if venueAddress.Some? && venueAddress.value != "" && Contains(Lower(venueAddress.value), "zoom") {
        location := Some(Zoom);
      } else if venueAddress.Some? && venueAddress.value != "" && venueName.Some? && venueName.value != "" {
        location := Some(Location(venueName.value, venueAddress.value));
      } else if Contains(Lower(description), "zoom") {
        location := Some(Zoom);
      } else {
        location := None;
      }
    }
    return Ok(Resources(links, location));
  }

  // ---------------------------------------------------------------- the page and the record

  /**
   * An event page as its selectors see it: whether the schedule appears before
   * the wait times out, the title, the schedule text, the description, the
   * description's first `p > a` anchor, the venue's name and its address.
   */
  datatype GlwaPage = GlwaPage(
    scheduleAppears: bool, title: Option<String>, schedule: String, description: Option<String>,
    agenda: Option<AgendaAnchor>, venueName: Option<String>, venueAddress: Option<String>)

  /** The record `save_data` receives. */
  datatype Meeting = Meeting(
    title: String, description: Option<String>, classification: Option<String>,
    startTime: Option<String>, endTime: Option<String>, timeNotes: Option<String>, allDay: Option<bool>,
    location: Option<Location>, links: seq<Link>, isCancelled: bool)

  /**
   * What one page yields, failing where the scraper raises and in its order: the
   * schedule wait, the missing description, the schedule's reading, the missing
   * title, the agenda anchor without `href`. The description is kept only when
   * non-empty; both times are localised; the time notes and the all-day flag are
   * never set.
   */
  function Extract(page: GlwaPage, url: String, zone: DateTime -> DetroitOffset): (r: Result<Meeting>)
    ensures !page.scheduleAppears ==> r == Err(TimeoutMessage)
    ensures page.scheduleAppears && page.description.None? ==> r == Err(MissingElement)
    ensures page.scheduleAppears && page.description.Some? && EventTimes(page.schedule, UrlYear(url)).Err? ==>
      r == Err(EventTimes(page.schedule, UrlYear(url)).error)
    ensures (page.scheduleAppears && page.description.Some? && EventTimes(page.schedule, UrlYear(url)).Ok? &&
             page.title.None?) ==> r == Err(MissingTitle)
    ensures r.Ok? <==>
      && page.scheduleAppears && page.description.Some? && page.title.Some?
      && EventTimes(page.schedule, UrlYear(url)).Ok?
      && PageResources(page.agenda, page.venueName, page.venueAddress, page.description.value).Ok?
    ensures r.Ok? ==>
      var times := EventTimes(page.schedule, UrlYear(url)).value;
      var res := PageResources(page.agenda, page.venueName, page.venueAddress, page.description.value).value;
      var m := r.value;
      && m.title == page.title.value
      && (m.description.Some? <==> page.description.value != "")
      && (m.description.Some? ==> m.description.value == page.description.value)
      && m.classification == Classify(page.title.value, page.description.value, url)
      && m.startTime == Some(Localized(times.0, zone)) && m.endTime == Some(Localized(times.1, zone))
      && m.timeNotes.None? && m.allDay.None?
      && m.location == res.location && m.links == res.links
      && m.isCancelled == Cancelled(page.title.value)
  {
    if !page.scheduleAppears then Err(TimeoutMessage)
    else if page.description.None? then Err(MissingElement)
    else
      var description := page.description.value;
      match EventTimes(page.schedule, UrlYear(url))
      case Err(e) => Err(e)
      case Ok(times) =>
        if page.title.None? then Err(MissingTitle)
        else
          match PageResources(page.agenda, page.venueName, page.venueAddress, description)
          case Err(e) => Err(e)
          case Ok(res) => Ok(Record(page.title.value, description, url, times, res, zone))
  }

  /** The record built once every element was read. */
  function Record(title: String, description: String, url: String, times: (DateTime, DateTime), res: Resources,
                  zone: DateTime -> DetroitOffset): (m: Meeting)
    requires Valid(times.0) && Valid(times.1)
    ensures m.startTime.Some? && m.endTime.Some? && |m.startTime.value| == 25 && |m.endTime.value| == 25
  {
    Meeting(title, if description != "" then Some(description) else None, Classify(title, description, url),
            Some(Localized(times.0, zone)), Some(Localized(times.1, zone)), None, None,
            res.location, res.links, Cancelled(title))
  }

  /**
   * A saved record always has both times, on the same day: the listing's rule
   * that skips a record without a start never applies to this scraper's output.
   */
  lemma StartAlwaysSet(page: GlwaPage, url: String, zone: DateTime -> DetroitOffset)
    requires Extract(page, url, zone).Ok?
    ensures var m := Extract(page, url, zone).value;
      && m.startTime.Some? && m.endTime.Some? && |m.startTime.value| == 25 && |m.endTime.value| == 25
      && Split(m.startTime.value, "T")[0] == Split(m.endTime.value, "T")[0]
  {
    var times := EventTimes(page.schedule, UrlYear(url)).value;
    LocalizedDate(times.0, zone);
    LocalizedDate(times.1, zone);
    assert Format(times.0, DateLayout) == Format(times.1, DateLayout) by {
      SameDateText(times.0, times.1);
    }
  }

  /**
   * The page round trip: a page whose schedule is written "%B %d, %Y @ %I:%M %p -
   * %I:%M %p", reached through a URL ending "=" and the schedule's year, with a
   * title and a description and no agenda anchor, saves the meeting at those
   * times, to the minute, localised.
   */
  lemma PageReadsBack(start: DateTime, end: DateTime, base: String, title: String, description: String,
                      venueName: Option<String>, venueAddress: Option<String>, zone: DateTime -> DetroitOffset)
    requires Valid(start) && Valid(end)
    ensures var times := Format(start, ClockSide) + " - " + Format(end, ClockSide);
      var page := GlwaPage(true, Some(title), Format(start, LongDate) + " @ " + times, Some(description),
                           None, venueName, venueAddress);
      var r := Extract(page, base + "=" + Pad(start.date.year, 4), zone);
      && r.Ok?
      && r.value.startTime == Some(Localized(DateTime(start.date, Time(start.time.hour, start.time.minute, 0)), zone))
      && r.value.endTime == Some(Localized(DateTime(start.date, Time(end.time.hour, end.time.minute, 0)), zone))
      && r.value.title == title && r.value.links == [] && r.value.location.None?
  {
    var year := Pad(start.date.year, 4);
    assert '=' !in year by {
      forall j | 0 <= j < |year| ensures year[j] != '=' {
        assert IsDigit(year[j]);
      }
    }
    UrlYearOf(base, Pad(start.date.year, 4));
    ScheduleReadsBack(start, end);
  }

  // ---------------------------------------------------------------- scrape

  /**
   * `scrape(sdk, current_url)`: the statements in their order, saving the
   * record exactly when the page yields one; an error leaves the SDK as it was.
   */
  method Scrape(sdk: DetailSdk<Meeting>, page: GlwaPage, url: String, zone: DateTime -> DetroitOffset)
    returns (error: Option<String>)
    modifies sdk
    ensures var r := Extract(page, url, zone);
      && (r.Err? ==> error == Some(r.error) && sdk.data == old(sdk.data))
      && (r.Ok? ==> error == None && sdk.data == Some(r.value))
  {
    var year := UrlYear(url);
    if !page.scheduleAppears {
      return Some(TimeoutMessage);
    }
    var title := page.title;
    var schedule := page.schedule;
    if page.description.None? {
      return Some(MissingElement);
    }
    var description := page.description.value;
    var times := EventTimes(schedule, year);
    if times.Err? {
      return Some(times.error);
    }
    if title.None? {
      return Some(MissingTitle);
    }
    var isCancelled := Contains(Lower(title.value), "cancel");
    var resources := ReadResources(page.agenda, page.venueName, page.venueAddress, description);
    if resources.Err? {
      return Some(resources.error);
    }
    var meeting := Meeting(
      title.value, if description != "" then Some(description) else None, Classify(title.value, description, url),
      Some(Localized(times.value.0, zone)), Some(Localized(times.value.1, zone)), None, None,
      resources.value.location, resources.value.links, isCancelled);
    sdk.SaveData(meeting);
    return None;
  }
}

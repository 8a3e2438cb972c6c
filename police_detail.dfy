/**
 * The Detroit Police Department detail scraper
 * (harambe_scrapers/det_police_department/detail.py): one event page gives one
 * meeting. The date comes from the `datetime` attribute of the page ("…Z"), the
 * time of day from the page's time text, which is either a range "a - b" or one
 * loosely written time; classification, cancellation, location and links are
 * read off the title, the description and a few page blocks.
 *
 * The page is given as the texts the selectors find (`None` where an element is
 * missing); the tz database is `zone`.
 */
module PoliceDetail {
  import opened Wrappers
  import opened Text
  import opened Numbers
  import opened Calendar
  import opened Strptime
  import opened Timezone
  import opened Localize
  import opened Keywords
  import opened Regex
  import opened PoliceSdk

  // ---------------------------------------------------------------- the time text

  /** `[APap][Mm]` at `k`. */
  predicate MeridianPair(t: String, k: int)
  {
    0 <= k && k + 2 <= |t| && t[k] in "APap" && t[k + 1] in "Mm"
  }

  /**
   * `re.sub("([APap][Mm])$", " \\1", t)`: a space before a final am/pm; `$`
   * also matches just before a final newline.
   */
  function SpaceBeforeMeridian(t: String): String
  {
    if MeridianPair(t, |t| - 2) then t[..|t| - 2] + " " + t[|t| - 2..]
    else if |t| >= 3 && t[|t| - 1] == '\n' && MeridianPair(t, |t| - 3) then t[..|t| - 3] + " " + t[|t| - 3..]
    else t
  }

  /** The substitution only brings in a space. */
  lemma SpaceBeforeMeridianChars(t: String, c: char)
    requires c != ' ' && c !in t
    ensures c !in SpaceBeforeMeridian(t)
  {
    var n := |t|;
    if MeridianPair(t, n - 2) {
      assert t == t[..n - 2] + t[n - 2..];
      NotInConcat(c, t[..n - 2], " ");
      NotInConcat(c, t[..n - 2] + " ", t[n - 2..]);
    } else if n >= 3 && t[n - 1] == '\n' && MeridianPair(t, n - 3) {
      assert t == t[..n - 3] + t[n - 3..];
      NotInConcat(c, t[..n - 3], " ");
      NotInConcat(c, t[..n - 3] + " ", t[n - 3..]);
    }
  }

  /** `new_time_str`: the space before am/pm, then "Noon", "p.m." and "pm" written "PM". */
  function NormalizedTime(t: String): String
  {
    Replace(Replace(Replace(SpaceBeforeMeridian(t), "Noon", "PM"), "p.m.", "PM"), "pm", "PM")
  }

  predicate IsColon(c: char) { c == ':' }

  /** `\s*:\s*` */
  const ColonPattern: Pattern := [Star(IsSpace), One(IsColon), Star(IsSpace)]

  /** `re.sub("\\s*:\\s*", ":", new_time_str)`: no whitespace around the colons. */
  function Cleaned(t: String): String
  {
    Sub(ColonPattern, NormalizedTime(t), ":")
  }

  /** `"%I:%M %p"` */
  const ClockLayout := [Hour12, Lit(':'), Minute, Space, AmPm]

  /** `"%H:%M:%S"` */
  const HmsLayout := [Hour24, Lit(':'), Minute, Lit(':'), Second]

  /** `"%Y-%m-%dT%H:%M:%SZ"` */
  const ZuluLayout := IsoLayout + [Lit('Z')]

  /** `datetime.strptime("12:00 PM", "%I:%M %p").time()` */
  const NoonTime := Time(12, 0, 0)

  /**
   * The time of day the single-time path settles on: the cleaned text read as
   * `%I:%M %p`, or 12:00 PM when it does not parse. Seconds are always zero.
   */
  function SingleClock(time: String): (r: Time)
    ensures ValidTime(r) && r.second == 0
    ensures Parse(Cleaned(time), ClockLayout).Err? ==> r == NoonTime
  {
    match Parse(Cleaned(time), ClockLayout)
    case Ok(c) =>
      ParseNoSecond(Cleaned(time), ClockLayout);
      c.time
    case Err(_) => NoonTime
  }

  /** A fit of `\s*:\s*` contains a colon. */
  lemma ColonFit(s: String, i: nat, ends: seq<nat>)
    requires Fits(ColonPattern, s, i, ends)
    ensures ':' in s
  {
    var p := ColonPattern;
    assert Fits(p[1..], s, ends[0], ends[1..]);
    assert p[1..][0] == One(IsColon);
    assert ends[1..][0] == ends[1];
    assert ends[1] - ends[0] == 1;
    assert AllIn(IsColon, s, ends[0], ends[1]);
    assert IsColon(s[ends[0]]);
  }

  /** Without a colon there is nothing for the colon clean-up to change. */
  lemma CleanedNoColon(s: String)
    requires ':' !in s
    ensures Sub(ColonPattern, s, ":") == s
  {
    SearchFromLeftmost(ColonPattern, s, 0);
    if SearchFrom(ColonPattern, s, 0).Some? {
      var m := SearchFrom(ColonPattern, s, 0).value;
      ColonFit(s, m.0, m.1);
    }
    assert s[0..] == s;
  }

  /** `%I:%M %p` needs a colon right after the hour. */
  lemma ClockNeedsColon(s: String)
    requires ':' !in s
    ensures Parse(s, ClockLayout).Err?
  {
    var n := Number(s, 1, 2, 1, 12);
    if n.Some? {
      var rest := s[n.value.1..];
      if |rest| > 0 {
        assert rest[0] in s;
        assert LowerChar(rest[0]) != LowerChar(':');
      }
      assert Match(ClockLayout[1..], rest, SetNumber(Hour12, NoFields, n.value.0)).None?;
    }
    assert Match(ClockLayout, s, NoFields).None?;
  }

  /**
   * A single time with no colon at all ("Noon", "TBA") always ends up at
   * 12:00 PM: nothing in the clean-up brings a colon in, and `%I:%M %p` needs one.
   */
  lemma NoColonNoon(time: String)
    requires ':' !in time
    ensures SingleClock(time) == NoonTime
  {
    var a := SpaceBeforeMeridian(time);
    SpaceBeforeMeridianChars(time, ':');
    ReplaceKeepsAbsent(a, "Noon", "PM", ':');
    var b := Replace(a, "Noon", "PM");
    ReplaceKeepsAbsent(b, "p.m.", "PM", ':');
    var c := Replace(b, "p.m.", "PM");
    ReplaceKeepsAbsent(c, "pm", "PM", ':');
    CleanedNoColon(NormalizedTime(time));
    ClockNeedsColon(Cleaned(time));
  }

  /** `time.replace("am", " am").replace("pm", " pm").replace("  ", " ")` in the range path. */
  function RangeText(time: String): String
  {
    Replace(Replace(Replace(time, "am", " am"), "pm", " pm"), "  ", " ")
  }

  /** `datetime.strptime(part.strip(), "%I:%M %p")` */
  function ParseClock(part: String): (r: Result<DateTime>)
  {
    Parse(Strip(part), ClockLayout)
  }

  /**
   * The range path: the text must split at "-" into exactly two times, each
   * written after the date part of the attribute as `T%H:%M:%S`.
   */
  function RangeTimes(original: String, time: String): (r: Result<(String, Option<String>)>)
  {
    var datePart := Split(original, "T")[0];
    var parts := Split(RangeText(time), "-");
    if |parts| != 2 then Err(if |parts| < 2 then "not enough values to unpack" else "too many values to unpack")
    else
      match ParseClock(parts[0])
      case Err(e) => Err(e)
      case Ok(s) =>
        match ParseClock(parts[1])
        case Err(e) => Err(e)
        case Ok(e) => Ok((datePart + "T" + Format(s, HmsLayout), Some(datePart + "T" + Format(e, HmsLayout))))
  }

  /** The single-time path: the attribute's date with the single clock, and no end. */
  function SingleTimes(original: String, time: String): (r: Result<(String, Option<String>)>)
  {
    match Parse(original, ZuluLayout)
    case Err(e) => Err(e)
    case Ok(d) => Ok((Format(DateTime(d.date, SingleClock(time)), IsoLayout), None))
  }

  /** `extract_and_format_date(original_datetime_str, time)`; `Err` is the exception it raises. */
  function ExtractAndFormatDate(original: String, time: String): (r: Result<(String, Option<String>)>)
  {
    if Contains(time, "-") then RangeTimes(original, time) else SingleTimes(original, time)
  }

  /**
   * Without a "-" the time text can never make the extraction fail: only a
   * `datetime` attribute that is not `%Y-%m-%dT%H:%M:%SZ` does. The start keeps
   * the attribute's date, the single clock replaces its time, and there is no end.
   */
  lemma SingleNeverFailsOnTime(original: String, time: String)
    requires !Contains(time, "-")
    ensures ExtractAndFormatDate(original, time).Ok? <==> Parse(original, ZuluLayout).Ok?
    ensures ExtractAndFormatDate(original, time).Ok? ==>
      var d := Parse(original, ZuluLayout).value;
      var start := DateTime(d.date, SingleClock(time));
      && Valid(start)
      && ExtractAndFormatDate(original, time).value.1 == None
      && Parse(ExtractAndFormatDate(original, time).value.0, IsoLayout) == Ok(start)
  {
    if Parse(original, ZuluLayout).Ok? {
      var d := Parse(original, ZuluLayout).value;
      IsoRoundTrip(DateTime(d.date, SingleClock(time)));
    }
  }

  /** `%H:%M:%S` text, field by field. */
  lemma HmsText(dt: DateTime)
    requires Valid(dt)
    ensures "T" + Format(dt, HmsLayout) ==
      "T" + (Pad(dt.time.hour, 2) + (":" + (Pad(dt.time.minute, 2) + (":" + Pad(dt.time.second, 2)))))
  {
    TimeTextTail(dt, []);
    assert [Lit('T')] + HmsLayout == [Lit('T'), Hour24, Lit(':'), Minute, Lit(':'), Second];
    assert Render([Lit('T')] + HmsLayout, dt) == "T" + Render(HmsLayout, dt);
    assert Pad(dt.time.second, 2) + [] == Pad(dt.time.second, 2);
    assert Render([Lit('T')] + HmsLayout, dt) + [] == Render([Lit('T')] + HmsLayout, dt);
  }

  /** A date written `%Y-%m-%d`, "T" and a clock written `%H:%M:%S` is the ISO text of the two together. */
  lemma DateClockIso(d: DateTime, c: DateTime)
    requires Valid(d) && Valid(c)
    ensures Valid(DateTime(d.date, c.time))
    ensures Format(d, DateLayout) + "T" + Format(c, HmsLayout) == Format(DateTime(d.date, c.time), IsoLayout)
  {
    var u := DateTime(d.date, c.time);
    var clock := Pad(c.time.hour, 2) + (":" + (Pad(c.time.minute, 2) + (":" + Pad(c.time.second, 2))));
    HmsText(c);
    DateNested(d, "T" + clock);
    IsoTextTail(u, []);
    assert Pad(c.time.second, 2) + [] == Pad(c.time.second, 2);
    assert Format(u, IsoLayout) + [] == Format(u, IsoLayout);
  }

  /**
   * On the range path, with an attribute that starts with a `%Y-%m-%d` date,
   * both times localise on that same date, each with its own clock: the end is
   * not moved to a later day when it reads earlier than the start.
   */
  lemma RangeLocalized(original: String, time: String, d: DateTime, zone: DateTime -> DetroitOffset)
    requires Contains(time, "-") && Valid(d) && Split(original, "T")[0] == Format(d, DateLayout)
    requires ExtractAndFormatDate(original, time).Ok?
    ensures var parts := Split(RangeText(time), "-");
      && |parts| == 2 && ParseClock(parts[0]).Ok? && ParseClock(parts[1]).Ok?
      && var s := ParseClock(parts[0]).value;
      var e := ParseClock(parts[1]).value;
      var r := ExtractAndFormatDate(original, time).value;
      && r.1.Some?
      && ChangeTimezone(r.0, zone) == Ok(Localized(DateTime(d.date, s.time), zone))
      && ChangeTimezone(r.1.value, zone) == Ok(Localized(DateTime(d.date, e.time), zone))
  {
    var parts := Split(RangeText(time), "-");
    var s := ParseClock(parts[0]).value;
    var e := ParseClock(parts[1]).value;
    DateClockIso(d, s);
    DateClockIso(d, e);
    LocalizedChange(DateTime(d.date, s.time), zone);
    LocalizedChange(DateTime(d.date, e.time), zone);
  }

  /** On the single-time path the start localises as the attribute's date at the single clock. */
  lemma SingleLocalized(original: String, time: String, zone: DateTime -> DetroitOffset)
    requires !Contains(time, "-") && Parse(original, ZuluLayout).Ok?
    ensures var start := DateTime(Parse(original, ZuluLayout).value.date, SingleClock(time));
      && Valid(start)
      && ChangeTimezone(ExtractAndFormatDate(original, time).value.0, zone) == Ok(Localized(start, zone))
  {
    var start := DateTime(Parse(original, ZuluLayout).value.date, SingleClock(time));
    LocalizedChange(start, zone);
  }

  // ---------------------------------------------------------------- classification and cancellation

  /** The keyword table of `parse_classification`, in its order ("commission" maps to "COMMISION"). */
  const ClassificationTable: seq<Rule> := [
    Rule("advisory", "ADVISORY"), Rule("committee", "COMMITTEE"), Rule("board", "BOARD"),
    Rule("commission", "COMMISION"), Rule("public meeting", "PUBLIC"), Rule("policy meeting", "POLICY"),
    Rule("community", "COMMUNITY"), Rule("annual", "ANNUAL"), Rule("cbo", "CBO")]

  /** `parse_classification(title, description)`: the first keyword in either lower-cased text. */
  function Classify(title: String, description: String): Option<String>
  {
    FirstMatch(ClassificationTable, [Lower(title), Lower(description)])
  }

  /** "advisory" in the title or the description decides, whatever else they mention. */
  lemma AdvisoryFirst(title: String, description: String)
    requires Contains(Lower(title), "advisory") || Contains(Lower(description), "advisory")
    ensures Classify(title, description) == Some("ADVISORY")
  {
    var texts := [Lower(title), Lower(description)];
    assert Contains(texts[0], ClassificationTable[0].keyword) || Contains(texts[1], ClassificationTable[0].keyword);
    FirstMatchAt(ClassificationTable, texts, 0);
  }

  /** The table spells the commission class "COMMISION", so no page is classified "COMMISSION". */
  lemma NeverCommission(title: String, description: String)
    ensures Classify(title, description) != Some("COMMISSION")
  {
    forall i | 0 <= i < |ClassificationTable| ensures ClassificationTable[i].value != "COMMISSION" {
      assert |ClassificationTable[i].value| != |"COMMISSION"|;
    }
    FirstMatchNever(ClassificationTable, [Lower(title), Lower(description)], "COMMISSION");
  }

  /** `is_cancelled`: "cancel" or "no meeting" in the description, or "cancel" in the title, in any case. */
  function IsCancelled(title: String, description: String): (r: bool)
    ensures r <==> (Contains(Lower(description), "cancel") || Contains(Lower(description), "no meeting") ||
      Contains(Lower(title), "cancel"))
  {
    var d := Lower(description);
    Contains(d, "cancel") || Contains(d, "no meeting") || Contains(Lower(title), "cancel")
  }

  /** Upper-casing the page texts does not change the cancellation verdict. */
  lemma CancelledIgnoresCase(title: String, description: String)
    ensures IsCancelled(Upper(title), Upper(description)) == IsCancelled(title, description)
  {
    assert Lower(Upper(title)) == Lower(title);
    assert Lower(Upper(description)) == Lower(description);
  }

  // ---------------------------------------------------------------- links

  datatype Anchor = Anchor(href: Option<String>, text: Option<String>)

  datatype Link = Link(url: String, title: String)

  /** The link title: whitespace collapsed and stripped, then "Agenda", "Minutes" or the text without ".pdf". */
  function LinkTitle(text: String): (r: String)
    ensures var t := NormalizeSpace(text);
      && (Contains(Lower(t), "agenda") ==> r == "Agenda")
      && (!Contains(Lower(t), "agenda") && Contains(Lower(t), "minute") ==> r == "Minutes")
      && (!Contains(Lower(t), "agenda") && !Contains(Lower(t), "minute") ==> r == Replace(t, ".pdf", ""))
  {
    var t := NormalizeSpace(text);
    if Contains(Lower(t), "agenda") then "Agenda"
    else if Contains(Lower(t), "minute") then "Minutes"
    else Replace(t, ".pdf", "")
  }

  /** One `.file a` anchor as a link: the site followed by the href, missing parts read as "". */
  function DetailLink(a: Anchor): (r: Link)
    ensures StartsWith(r.url, Site) && r.url[|Site|..] == a.href.GetOr("")
  {
    Link(Site + a.href.GetOr(""), LinkTitle(a.text.GetOr("")))
  }

  /** `parse_links(page)`: one link per anchor, in page order. */
  method ParseLinks(anchors: seq<Anchor>) returns (links: seq<Link>)
    ensures |links| == |anchors|
    ensures forall i :: 0 <= i < |anchors| ==> links[i] == DetailLink(anchors[i])
  {
    links := [];
    for i := 0 to |anchors|
      invariant |links| == i
      invariant forall j :: 0 <= j < i ==> links[j] == DetailLink(anchors[j])
    {
      links := links + [DetailLink(anchors[i])];
    }
  }

  /** The links `parse_links` returns, as a value. */
  function DetailLinks(anchors: seq<Anchor>): (r: seq<Link>)
    ensures |r| == |anchors|
    ensures forall i :: 0 <= i < |anchors| ==> r[i] == DetailLink(anchors[i])
  {
    seq(|anchors|, i requires 0 <= i < |anchors| => DetailLink(anchors[i]))
  }

  // ---------------------------------------------------------------- location

  datatype Location = Location(name: String, address: Option<String>)

  /**
   * A "Location:" text: the prefix removed, stripped, and split at the first
   * comma into name and address; with no comma it is all name and no address.
   */
  function LocationParts(text: String): (r: Location)
    ensures var t := Strip(Replace(text, "Location:", ""));
      && (r.address.Some? <==> Contains(t, ","))
      && (r.address.Some? ==> r.name + "," + r.address.value == t && !Contains(r.name, ","))
      && (r.address.None? ==> r.name == t)
  {
    var t := Strip(Replace(text, "Location:", ""));
    var parts := SplitOnce(t, ",");
    if |parts| == 2 then Location(parts[0], Some(parts[1])) else Location(t, None)
  }

  /**
   * The blocks the location is read from: the contact block's name and text when
   * the page has an address block, the text of the "Location" paragraph, and the
   * text of the description's first paragraph mentioning "at".
   */
  datatype LocationBlocks = LocationBlocks(addressBlock: Option<(String, String)>,
                                           locationParagraph: Option<String>, atParagraph: Option<String>)

  /** `inner_text().split("\n")[-1].split(" (")[0].strip()` */
  function ContactAddress(contact: String): (r: String)
    ensures !Contains(r, " (") && '\n' !in r
  {
    var lines := Split(contact, "\n");
    var last := lines[|lines| - 1];
    SplitPiecesFree(contact, "\n");
    SplitHead(last, " (");
    var head := Split(last, " (")[0];
    StripAbsent(head, " (");
    assert !Contains(head, "\n") by {
      if Contains(head, "\n") {
        assert last[0..|head|] == head;
        ContainsWindow(last, 0, |head|, "\n");
      }
    }
    StripAbsent(head, "\n");
    CharContains(Strip(head), '\n');
    Strip(head)
  }

  /** The location chosen by the branch chain of the scraper; `None` when no branch sets one. */
  function PageLocation(b: LocationBlocks): (r: Option<Location>)
    ensures b.addressBlock.Some? ==> r == Some(Location(b.addressBlock.value.0, Some(ContactAddress(b.addressBlock.value.1))))
    ensures b.addressBlock.None? && b.locationParagraph.Some? ==>
      r == if b.locationParagraph.value == "" then None else Some(LocationParts(b.locationParagraph.value))
    ensures b.addressBlock.None? && b.locationParagraph.None? ==>
      (r.Some? <==> b.atParagraph.Some? && Contains(b.atParagraph.value, "at"))
  {
    match b.addressBlock
    case Some((name, contact)) => Some(Location(name, Some(ContactAddress(contact))))
    case None =>
      match b.locationParagraph
      case Some(text) => if text == "" then None else Some(LocationParts(text))
      case None =>
        match b.atParagraph
        case None => None
        case Some(text) =>
          if text != "" && Contains(text, "at") then
            var pieces := RSplitOnce(text, " at");
            Some(LocationParts(pieces[|pieces| - 1]))
          else
            assert text == "" ==> !Contains(text, "at");
            None
  }

  /** The description's paragraph is read from after its last " at". */
  lemma AtParagraphAfterLastAt(text: String)
    requires Contains(text, " at")
    ensures var p := RSplitOnce(text, " at");
      && |p| == 2 && !Contains(p[1], " at")
      && PageLocation(LocationBlocks(None, None, Some(text))) == Some(LocationParts(p[1]))
  {
    var k :| 0 <= k <= |text| - 3 && OccursAt(text, " at", k);
    assert OccursAt(text, "at", k + 1);
    assert text != "";
  }

  // ---------------------------------------------------------------- the page

  /**
   * What the selectors read: the `.title span` text (`None` when the page has
   * none, so that waiting for it times out), the `datetime` attribute, the time text,
   * the description, the location blocks and the `.file a` anchors.
   */
  datatype DetailPage = DetailPage(title: Option<String>, dateAttr: Option<String>, timeText: Option<String>,
                                   description: Option<String>, blocks: LocationBlocks, anchors: seq<Anchor>)

  /** The meeting dict the scraper saves. */
  datatype Meeting = Meeting(title: String, description: String, classification: Option<String>,
                             startTime: String, endTime: Option<String>, timeNotes: Option<String>,
                             allDay: Option<bool>, location: Option<Location>, links: seq<Link>,
                             isCancelled: bool)

  /**
   * The start and end as the meeting dict holds them: the extracted texts, each
   * through `change_timezone`; `Err` is the first exception raised on the way.
   */
  function PageTimes(page: DetailPage, zone: DateTime -> DetroitOffset): (r: Result<(String, Option<String>)>)
  {
    if page.dateAttr.None? || page.timeText.None? then Err("'NoneType' object has no attribute")
    else
      match ExtractAndFormatDate(page.dateAttr.value, Strip(page.timeText.value))
      case Err(e) => Err(e)
      case Ok((start, end)) =>
        match ChangeTimezone(start, zone)
        case Err(e) => Err(e)
        case Ok(startTime) =>
          if end.Some? && end.value != "" then
            match ChangeTimezone(end.value, zone)
            case Err(e) => Err(e)
            case Ok(endTime) => Ok((startTime, Some(endTime)))
          else Ok((startTime, None))
  }

  /** The meeting the page gives, or the exception the scraper raises on the way. */
  function Extract(page: DetailPage, zone: DateTime -> DetroitOffset): (r: Result<Meeting>)
  {
    if page.title.None? then Err(TitleTimeout)
    else
      match PageTimes(page, zone)
      case Err(e) => Err(e)
      case Ok((startTime, endTime)) =>
        var title := page.title.value;
        var description := page.description.GetOr("");
        Ok(Meeting(title, description, Classify(title, description), startTime, endTime, None, None,
                   PageLocation(page.blocks), DetailLinks(page.anchors), IsCancelled(title, description)))
  }

  /** The exception `wait_for_selector(".title span")` raises on a page without a title. */
  const TitleTimeout: String := "Timeout waiting for selector \".title span\""

  /**
   * The title is read before anything else: a page without one fails with the
   * timeout whatever else it holds, and a meeting always carries the page's title.
   */
  lemma TitleFirst(page: DetailPage, zone: DateTime -> DetroitOffset)
    ensures page.title.None? ==> Extract(page, zone) == Err(TitleTimeout)
    ensures Extract(page, zone).Ok? ==> page.title.Some? && Extract(page, zone).value.title == page.title.value
    ensures page.title.Some? ==> (Extract(page, zone).Ok? <==> PageTimes(page, zone).Ok?)
  {
  }

  /** With a `…Z` attribute and a time text without "-", the page's times are the localised single start and no end. */
  lemma SinglePageTimes(page: DetailPage, zone: DateTime -> DetroitOffset)
    requires page.dateAttr.Some? && page.timeText.Some? && !Contains(Strip(page.timeText.value), "-")
    requires Parse(page.dateAttr.value, ZuluLayout).Ok?
    ensures var start := DateTime(Parse(page.dateAttr.value, ZuluLayout).value.date, SingleClock(Strip(page.timeText.value)));
      && Valid(start)
      && PageTimes(page, zone) == Ok((Localized(start, zone), None))
  {
    var t := Strip(page.timeText.value);
    var d := Parse(page.dateAttr.value, ZuluLayout).value;
    var start := DateTime(d.date, SingleClock(t));
    SingleLocalized(page.dateAttr.value, t, zone);
    assert ExtractAndFormatDate(page.dateAttr.value, t) == Ok((Format(start, IsoLayout), None));
  }

  /**
   * A page with a title whose attribute is a `…Z` timestamp and whose time text
   * has no "-" always yields a meeting: it starts on the attribute's date at the single
   * clock, localised, has no end and no all-day flag, and carries one link per anchor.
   */
  lemma SinglePageMeeting(page: DetailPage, zone: DateTime -> DetroitOffset)
    requires page.title.Some? && page.dateAttr.Some? && page.timeText.Some? && !Contains(Strip(page.timeText.value), "-")
    requires Parse(page.dateAttr.value, ZuluLayout).Ok?
    ensures var start := DateTime(Parse(page.dateAttr.value, ZuluLayout).value.date, SingleClock(Strip(page.timeText.value)));
      && Valid(start)
      && Extract(page, zone).Ok?
      && Extract(page, zone).value.startTime == Localized(start, zone)
      && Extract(page, zone).value.endTime == None
      && Extract(page, zone).value.allDay == None
      && |Extract(page, zone).value.links| == |page.anchors|
  {
    SinglePageTimes(page, zone);
  }

  /** `scrape(sdk, …)`: the meeting is saved when the page yields one; an exception saves nothing. */
  method Scrape(sdk: DetailSdk<Meeting>, page: DetailPage, zone: DateTime -> DetroitOffset) returns (error: Option<String>)
    modifies sdk
    ensures Extract(page, zone).Err? ==> error == Some(Extract(page, zone).error) && sdk.data == old(sdk.data)
    ensures Extract(page, zone).Ok? ==> error == None && sdk.data == Some(Extract(page, zone).value)
  {
    var r := Extract(page, zone);
    if r.Err? {
      return Some(r.error);
    }
    var links := ParseLinks(page.anchors);
    var m := r.value.(links := links);
    assert links == DetailLinks(page.anchors);
    sdk.SaveData(m);
    return None;
  }
}

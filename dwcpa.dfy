/**
 * The Detroit Wayne County Port Authority scraper: one schedule page lists the
 * meeting dates under a heading with the year, and a single sentence gives the
 * place and the hour of every meeting.
 *
 * The page's elements are read as text fragments (`Page`); the tz database is the
 * `zone` parameter; `create_ocd_event` is not part of this model, so a saved record
 * is the `Event` holding the arguments the scraper hands to it.
 */
module Dwcpa {
  import opened Wrappers
  import opened Text
  import opened Numbers
  import opened Calendar
  import opened Strptime
  import opened Timezone
  import opened Localize
  import opened Keywords
  import opened Regex

  const ScraperName: String := "det_dwcpa_v2"
  const AgencyName: String := "Detroit Wayne County Port Authority"
  const StartUrl: String := "https://portdetroit.com/board-meeting-schedule/"

  /** The title used when the page has no heading element. */
  const DefaultTitle: String := "Board Meeting"

  // ---------------------------------------------------------------- classification

  /** The keyword table of `parse_classification`, in its order; "committee" comes before "advisory". */
  const ClassificationTable: seq<Rule> := [
    Rule("committee", "COMMITTEE"), Rule("board", "BOARD"), Rule("commission", "COMMISION"),
    Rule("public meeting", "PUBLIC"), Rule("policy meeting", "POLICY"), Rule("community", "COMMUNITY"),
    Rule("annual", "ANNUAL"), Rule("cbo", "CBO"), Rule("advisory", "ADVISORY"), Rule("council", "COUNCIL")]

  /** `parse_classification(title)`: the title lower-cased, `None` read as "". */
  function ParseClassification(title: Option<String>): Option<String>
  {
    FirstMatch(ClassificationTable, [Lower(title.GetOr(""))])
  }

  /** A title mentioning "committee" is COMMITTEE, so "Advisory Committee" is a committee here. */
  lemma CommitteeFirst(title: String)
    requires Contains(Lower(title), "committee")
    ensures ParseClassification(Some(title)) == Some("COMMITTEE")
    ensures ProperClassification(ParseClassification(Some(title))) == "Committee"
  {
    var texts := [Lower(title)];
    assert Contains(texts[0], ClassificationTable[0].keyword);
    FirstMatchAt(ClassificationTable, texts, 0);
  }

  /** A title mentioning "board" and not "committee" is a board. */
  lemma BoardTitle(title: String)
    requires Contains(Lower(title), "board") && !Contains(Lower(title), "committee")
    ensures ProperClassification(ParseClassification(Some(title))) == "Board"
  {
    var texts := [Lower(title)];
    assert ClassificationTable[0].keyword == "committee" && ClassificationTable[1].keyword == "board";
    assert !Hits(ClassificationTable[0].keyword, texts);
    assert Contains(texts[0], ClassificationTable[1].keyword);
    FirstMatchAt(ClassificationTable, texts, 1);
  }

  lemma TableLacksCommission()
    ensures forall i :: 0 <= i < |ClassificationTable| ==> ClassificationTable[i].value != "COMMISSION"
  {
    forall i | 0 <= i < |ClassificationTable| ensures ClassificationTable[i].value != "COMMISSION" {
      assert |ClassificationTable[i].value| != |"COMMISSION"|;
    }
  }

  /**
   * The table spells its value "COMMISION", which the proper-case map does not
   * know, so no title is ever classified "Commission".
   */
  lemma NeverCommission(title: Option<String>)
    ensures ProperClassification(ParseClassification(title)) != "Commission"
  {
    TableLacksCommission();
    FirstMatchNever(ClassificationTable, [Lower(title.GetOr(""))], "COMMISSION");
  }

  // ---------------------------------------------------------------- the year

  /** `\d{4}` */
  const FourDigits: Pattern := [Rep(IsDigit, 4, 4)]

  /** Four digits start at `i`. */
  predicate DigitsAt(s: String, i: int)
  {
    0 <= i && i + 4 <= |s| && AllDigits(s[i..i + 4])
  }

  /** A single four-digit item fits at `i` exactly when four digits start there. */
  lemma FourDigitsFit(s: String, i: nat, ends: seq<nat>)
    requires Fits(FourDigits, s, i, ends)
    ensures DigitsAt(s, i) && ends == [i + 4]
  {
    assert AllIn(IsDigit, s, i, ends[0]);
    var w := s[i..i + 4];
    forall k | 0 <= k < |w| ensures IsDigit(w[k]) {
      assert w[k] == s[i + k];
    }
  }

  lemma FourDigitsFitting(s: String, i: nat)
    requires DigitsAt(s, i)
    ensures Fits(FourDigits, s, i, [i + 4])
  {
    assert forall k :: i <= k < i + 4 ==> s[k] == s[i..i + 4][k - i];
    assert FourDigits[1..] == [];
  }

  /**
   * The year of the schedule heading: `re.search("\d{4}", text).group()`, or ""
   * when the heading has no run of four digits.
   */
  function Year(text: String): (r: String)
    ensures r == "" <==> forall i :: 0 <= i <= |text| ==> !DigitsAt(text, i)
    ensures r != "" ==> exists i :: DigitsAt(text, i) && r == text[i..i + 4] && forall j :: 0 <= j < i ==> !DigitsAt(text, j)
  {
    SearchLeftmost(FourDigits, text);
    match Search(FourDigits, text)
    case None =>
      assert forall i :: 0 <= i <= |text| ==> !DigitsAt(text, i) by {
        forall i | 0 <= i <= |text| && DigitsAt(text, i) ensures false {
          FourDigitsFitting(text, i);
        }
      }
      ""
    case Some(m) =>
      FourDigitsFit(text, m.0, m.1);
      assert forall j :: 0 <= j < m.0 ==> !DigitsAt(text, j) by {
        forall j | 0 <= j < m.0 && DigitsAt(text, j) ensures false {
          FourDigitsFitting(text, j);
        }
      }
      var r := Group(text, m);
      assert r == text[m.0..m.0 + 4];
      r
  }

  // ---------------------------------------------------------------- the location sentence

  /** `location_parts[1].replace("located", "").strip()`, when there is a second part. */
  function LocationName(text: String): (r: Option<String>)
    ensures r.None? <==> !Contains(text, " at ")
    ensures r.Some? ==> r.value == Strip(r.value)
  {
    var parts := Split(text, " at ");
    SplitCount(text, " at ");
    if |parts| > 1 then
      var name := Strip(Replace(parts[1], "located", ""));
      StripIdempotent(Replace(parts[1], "located", ""));
      Some(name)
    else None
  }

  /** `location_parts[2].replace(", beginning", "").strip()`, when there is a third part. */
  function LocationAddress(text: String): (r: Option<String>)
    ensures r.Some? ==> LocationName(text).Some? && r.value == Strip(r.value)
  {
    var parts := Split(text, " at ");
    if |parts| > 2 then
      SplitCount(text, " at ");
      var address := Strip(Replace(parts[2], ", beginning", ""));
      StripIdempotent(Replace(parts[2], ", beginning", ""));
      Some(address)
    else None
  }

  /** A text splits into two or more pieces exactly when the separator occurs. */
  lemma SplitCount(s: String, sep: String)
    requires |sep| > 0
    ensures |Split(s, sep)| >= 2 <==> Contains(s, sep)
  {
    if Contains(s, sep) { SplitMany(s, sep); } else { SplitWithout(s, sep); }
  }

  /** The first occurrence of a separator that cannot start inside `a` is right after `a`. */
  lemma SplitAfter(a: String, sep: String, b: String)
    requires |sep| > 0 && !Contains(a + sep[..|sep| - 1], sep)
    ensures Split(a + sep + b, sep) == [a] + Split(b, sep)
  {
    var s := a + sep + b;
    var w := a + sep[..|sep| - 1];
    assert OccursAt(s, sep, |a|);
    forall j | 0 <= j < |a| ensures !OccursAt(s, sep, j) {
      if OccursAt(s, sep, j) {
        assert w[j..j + |sep|] == s[j..j + |sep|];
        assert OccursAt(w, sep, j);
      }
    }
    assert Find(s, sep) == Some(|a|);
    assert s[..|a|] == a && s[|a| + |sep|..] == b;
  }

  /**
   * "… at NAME located at ADDRESS, beginning at …": the name is the second piece
   * without "located", the address the third without ", beginning", both stripped.
   */
  lemma LocationPieces(a: String, b: String, c: String)
    requires !Contains(a + " at", " at ") && !Contains(b + " at", " at ")
    ensures var text := a + " at " + (b + " at " + c);
      && LocationName(text) == Some(Strip(Replace(b, "located", "")))
      && LocationAddress(text) == Some(Strip(Replace(Split(c, " at ")[0], ", beginning", "")))
  {
    var sep := " at ";
    assert sep[..|sep| - 1] == " at";
    SplitAfter(b, sep, c);
    SplitAfter(a, sep, b + sep + c);
    assert a + " at " + (b + " at " + c) == a + sep + (b + sep + c);
    assert Contains(a + " at " + (b + " at " + c), sep) by {
      assert OccursAt(a + " at " + (b + " at " + c), sep, |a|);
    }
  }

  // ---------------------------------------------------------------- the clock

  /** `(\d{1,2}):(\d{2})\s*(am|pm)` under `re.IGNORECASE`. */
  const ClockPattern: Pattern := [
    Rep(IsDigit, 1, 2), One(c => c == ':'), Rep(IsDigit, 2, 2), Star(IsSpace),
    One(c => LowerChar(c) == 'a' || LowerChar(c) == 'p'), One(c => LowerChar(c) == 'm')]

  /** The three groups of the clock match: hour, minute, and "am" or "pm" lower-cased. */
  datatype Clock = Clock(hour: nat, minute: nat, half: String)

  /** Where an item of a fitting pattern starts and ends, and that its characters are in its class. */
  lemma {:induction false} FitsItem(p: Pattern, s: String, i: nat, ends: seq<nat>, k: nat)
    requires Fits(p, s, i, ends) && k < |p|
    ensures var lo := if k == 0 then i else ends[k - 1];
      lo <= ends[k] <= |s| && Within(p[k], ends[k] - lo) && AllIn(p[k].cls, s, lo, ends[k])
    decreases k
  {
    if k > 0 {
      FitsItem(p[1..], s, ends[0], ends[1..], k - 1);
    }
  }

  /** The first clock in the text, read as numbers and a lower-cased half of the day. */
  function FindClock(text: String): (r: Option<Clock>)
    ensures r.Some? ==> r.value.half == "am" || r.value.half == "pm"
    ensures r.None? <==> NoFitFrom(ClockPattern, text, 0)
  {
    SearchLeftmost(ClockPattern, text);
    match Search(ClockPattern, text)
    case None => None
    case Some(m) =>
      FitsItem(ClockPattern, text, m.0, m.1, 0);
      FitsItem(ClockPattern, text, m.0, m.1, 2);
      FitsItem(ClockPattern, text, m.0, m.1, 4);
      FitsItem(ClockPattern, text, m.0, m.1, 5);
      var hour := Span(text, m, 0, 1);
      var minute := Span(text, m, 2, 3);
      var half := Lower(Span(text, m, 4, 6));
      assert half == [LowerChar(text[m.1[3]]), LowerChar(text[m.1[4]])];
      Some(Clock(DigitsValue(hour), DigitsValue(minute), half))
  }

  /**
   * The time of day every meeting gets: the first clock of the location sentence on
   * the 24-hour clock, or 09:00 when the sentence has none.
   */
  function StartClock(locationText: String): Time
  {
    match FindClock(locationText)
    case None => Time(9, 0, 0)
    case Some(c) => Time(To24(c.hour, Some(c.half == "pm")), c.minute, 0)
  }

  /** `f"{hour:02d}:{minute:02d}:00"` */
  function ClockString(t: Time): (r: String)
    requires t.hour >= 0 && t.minute >= 0
  {
    Pad(t.hour, 2) + ":" + Pad(t.minute, 2) + ":00"
  }

  /**
   * The time part of `scrape`: read the clock from the location sentence and turn a
   * 12-hour reading into the 24-hour one in place.
   */
  method ClockText(locationText: String) returns (parsedTime: String)
    ensures parsedTime == ClockString(StartClock(locationText))
  {
    var found := FindClock(locationText);
    if found.Some? {
      var hour := found.value.hour;
      var minute := found.value.minute;
      var amPm := found.value.half;
      if amPm == "pm" && hour != 12 {
        hour := hour + 12;
      }
      if amPm == "am" && hour == 12 {
        hour := 0;
      }
      parsedTime := Pad(hour, 2) + ":" + Pad(minute, 2) + ":00";
    } else {
      Pow10Values();
      assert Pad(9, 2) == "09" && Pad(0, 2) == "00";
      parsedTime := "09:00:00";
    }
  }

  /** Without a clock in the location sentence every meeting starts at 09:00:00. */
  lemma DefaultClock(locationText: String)
    requires FindClock(locationText).None?
    ensures ClockString(StartClock(locationText)) == "09:00:00"
  {
    Pow10Values();
    assert Pad(9, 2) == "09" && Pad(0, 2) == "00";
  }

  /**
   * A clock with an hour from 1 to 12 becomes a valid 24-hour time that the 12-hour
   * clock shows as the same hour and half of the day: "pm" adds 12 except to 12,
   * and 12 am is hour 0.
   */
  lemma ClockConversion(locationText: String)
    requires FindClock(locationText).Some? && 1 <= FindClock(locationText).value.hour <= 12
    ensures var c := FindClock(locationText).value;
      var h := StartClock(locationText).hour;
      && 0 <= h <= 23
      && To12(h) == c.hour
      && (h >= 12 <==> c.half == "pm")
  {
  }

  /** The text "00:00:00", which makes a meeting all-day, is written for midnight alone. */
  lemma MidnightText(t: Time)
    requires t.hour >= 0 && t.minute >= 0
    ensures ClockString(t) == "00:00:00" <==> t.hour == 0 && t.minute == 0
  {
    Pow10Values();
    assert Pad(0, 2) == "00";
    if ClockString(t) == "00:00:00" {
      PadRoundTrip(t.hour, 2);
      PadRoundTrip(t.minute, 2);
      var h := Pad(t.hour, 2);
      var m := Pad(t.minute, 2);
      assert |h| >= 2 && |m| >= 2;
      assert ClockString(t) == h + (":" + (m + ":00"));
      assert h == ClockString(t)[..2] == "00";
      assert ClockString(t)[3..] == m + ":00";
      assert m == ClockString(t)[3..5] == "00";
      assert DigitsValue("00") == 0;
    }
  }

  // ---------------------------------------------------------------- the date

  /** `(\w+),\s+(\w+\s+\d+)`: weekday, comma, then month word and day number. */
  const DatePattern: Pattern := [
    Plus(IsWordChar), One(c => c == ','), Plus(IsSpace), Plus(IsWordChar), Plus(IsSpace), Plus(IsDigit)]

  /** Group 2 of the first date match: the month word and the day number. */
  function DateWords(text: String): (r: Option<String>)
    ensures r.None? <==> NoFitFrom(DatePattern, text, 0)
  {
    SearchLeftmost(DatePattern, text);
    match Search(DatePattern, text)
    case None => None
    case Some(m) => Some(Span(text, m, 3, 6))
  }

  /** One of the suffixes "st", "nd", "rd", "th" starts at `i`. */
  predicate OrdinalAt(s: String, i: nat)
  {
    i + 2 <= |s| &&
    ((s[i] == 's' && s[i + 1] == 't') || (s[i] == 'n' && s[i + 1] == 'd') ||
     (s[i] == 'r' && s[i + 1] == 'd') || (s[i] == 't' && s[i + 1] == 'h'))
  }

  /**
   * `re.sub(r"(\d+)(st|nd|rd|th)", r"\1", s)`: a run of digits followed by an
   * ordinal suffix loses the suffix.
   */
  function DropOrdinals(s: String): (r: String)
    ensures |r| <= |s|
    decreases |s|
  {
    if s == [] then []
    else if IsDigit(s[0]) then
      var n := LeadingCount(s, IsDigit);
      if OrdinalAt(s, n) then s[..n] + DropOrdinals(s[n + 2..])
      else s[..n] + DropOrdinals(s[n..])
    else [s[0]] + DropOrdinals(s[1..])
  }

  /** The digits of `s`, in order. */
  function Digits(s: String): String
  {
    if s == [] then [] else (if IsDigit(s[0]) then [s[0]] else []) + Digits(s[1..])
  }

  /** Dropping ordinal suffixes keeps every digit, in order. */
  lemma {:induction false} DropOrdinalsKeepsDigits(s: String)
    ensures Digits(DropOrdinals(s)) == Digits(s)
    decreases |s|, 1
  {
    if s != [] {
      if IsDigit(s[0]) {
        DigitRunKeepsDigits(s);
      } else {
        DropOrdinalsKeepsDigits(s[1..]);
        var d := DropOrdinals(s[1..]);
        assert DropOrdinals(s) == [s[0]] + d;
        assert ([s[0]] + d)[1..] == d;
      }
    }
  }

  /** The case of a text that starts with a run of digits. */
  lemma {:induction false} DigitRunKeepsDigits(s: String)
    requires s != [] && IsDigit(s[0])
    ensures Digits(DropOrdinals(s)) == Digits(s)
    decreases |s|, 0
  {
    var digits, suffix, rest := DigitRunShape(s);
    DropOrdinalsKeepsDigits(rest);
    RunDigits(digits, DropOrdinals(rest));
    RunDigits(digits, suffix + rest);
    SuffixNoDigits(suffix, rest);
  }

  /** A text starting with digits: the digit run, the suffix dropped after it (if any), and the rest. */
  lemma DigitRunShape(s: String) returns (digits: String, suffix: String, rest: String)
    requires s != [] && IsDigit(s[0])
    ensures s == digits + (suffix + rest) && |rest| < |s|
    ensures AllDigits(digits) && |suffix| <= 2 && forall k :: 0 <= k < |suffix| ==> !IsDigit(suffix[k])
    ensures DropOrdinals(s) == digits + DropOrdinals(rest)
  {
    var n := LeadingCount(s, IsDigit);
    digits := s[..n];
    if OrdinalAt(s, n) {
      suffix := s[n..n + 2];
      rest := s[n + 2..];
    } else {
      suffix := [];
      rest := s[n..];
    }
  }

  /** A leading run of digits is kept whole. */
  lemma {:induction false} RunDigits(digits: String, rest: String)
    requires AllDigits(digits)
    ensures Digits(digits + rest) == digits + Digits(rest)
    decreases |digits|
  {
    if digits == [] {
      assert digits + rest == rest;
    } else {
      RunDigits(digits[1..], rest);
      assert (digits + rest)[0] == digits[0];
      assert (digits + rest)[1..] == digits[1..] + rest;
    }
  }

  /** A suffix without digits adds none. */
  lemma {:induction false} SuffixNoDigits(suffix: String, rest: String)
    requires forall k :: 0 <= k < |suffix| ==> !IsDigit(suffix[k])
    ensures Digits(suffix + rest) == Digits(rest)
    decreases |suffix|
  {
    if suffix == [] {
      assert suffix + rest == rest;
    } else {
      SuffixNoDigits(suffix[1..], rest);
      assert (suffix + rest)[0] == suffix[0];
      assert (suffix + rest)[1..] == suffix[1..] + rest;
    }
  }

  /**
   * The date of one schedule entry: `None` when the text has no date match,
   * otherwise `strptime(clean_date, "%B %d, %Y")` of the month and day with the
   * heading's year (which fails when the heading had no year).
   */
  function MeetingDate(meetingText: String, year: String): Option<Result<DateTime>>
  {
    match DateWords(meetingText)
    case None => None
    case Some(words) => Some(Parse(DropOrdinals(words + ", " + year), LongDate))
  }

  /** The clock text, right-nested, with any tail after it. */
  lemma ClockNested(c: Time, tail: String)
    requires c.hour >= 0 && c.minute >= 0 && c.second == 0
    ensures ClockString(c) + tail == Pad(c.hour, 2) + (":" + (Pad(c.minute, 2) + (":" + (Pad(c.second, 2) + tail))))
  {
    Pow10Values();
    assert Pad(0, 2) == "00";
  }

  /** The date written as `%Y-%m-%d`, "T" and a clock text make the `%Y-%m-%dT%H:%M:%S` text of that date at that time. */
  lemma IsoStartText(dt: DateTime, c: Time)
    requires Valid(dt) && ValidTime(c) && c.second == 0
    ensures Format(dt, DateLayout) + "T" + ClockString(c) == Format(DateTime(dt.date, c), IsoLayout)
  {
    var at := DateTime(dt.date, c);
    var clock := ClockString(c);
    ClockNested(c, []);
    assert clock + [] == clock;
    IsoTextTail(at, []);
    assert Format(at, IsoLayout) + [] == Format(at, IsoLayout);
    DateNested(dt, "T" + clock);
    assert Format(dt, DateLayout) + "T" + clock == Format(dt, DateLayout) + ("T" + clock);
  }

  // ---------------------------------------------------------------- the saved records

  /** The schedule page as the scraper reads it: heading, year heading, location sentence, one text per meeting. */
  datatype Page = Page(heading: Option<String>, scheduleHeading: Option<String>, locationText: Option<String>,
                       meetingTexts: seq<String>)

  /**
   * What `create_ocd_event` receives for one meeting; the arguments that are the
   * same constants for every meeting (scraper and agency name, source URL, empty
   * description and links, no end, no cancellation flag) are left out.
   */
  datatype Event = Event(title: String, startTime: String, classification: String,
                         locationName: Option<String>, locationAddress: Option<String>, allDay: bool)

  /** The heading's text, or "Board Meeting" when the page has no heading. */
  function PageTitle(page: Page): String
  {
    page.heading.GetOr(DefaultTitle)
  }

  function LocationText(page: Page): String
  {
    page.locationText.GetOr("")
  }

  /** What every record of the page shares: everything but the start time. */
  function Template(page: Page): (e: Event)
    ensures e.startTime == []
    ensures e.allDay <==> StartClock(LocationText(page)) == Time(0, 0, 0)
  {
    var clock := StartClock(LocationText(page));
    MidnightText(clock);
    Event(PageTitle(page), [], ProperClassification(ParseClassification(Some(PageTitle(page)))),
          LocationName(LocationText(page)), LocationAddress(LocationText(page)), ClockString(clock) == "00:00:00")
  }

  /**
   * One meeting element: nothing without a date match, the error `strptime` or
   * the localisation raises, or the record with the localised start time.
   */
  function ElementOutcome(meetingText: String, page: Page, zone: DateTime -> DetroitOffset): (r: Result<Option<Event>>)
    ensures r == Ok(None) <==> DateWords(meetingText).None?
    ensures r.Ok? && r.value.Some? ==> r.value.value.(startTime := []) == Template(page) && |r.value.value.startTime| == 25
  {
    match MeetingDate(meetingText, Year(page.scheduleHeading.GetOr("")))
    case None => Ok(None)
    case Some(Err(e)) => Err(e)
    case Some(Ok(dt)) =>
      match ChangeTimezone(Format(dt, DateLayout) + "T" + ClockString(StartClock(LocationText(page))), zone)
      case Err(e) => Err(e)
      case Ok(start) => Ok(Some(Template(page).(startTime := start)))
  }

  /**
   * A dated element whose date parses, on a page whose clock is a valid time of
   * day, gives the record starting on that date at that clock, with the Detroit
   * offset appended.
   */
  lemma ElementStart(meetingText: String, page: Page, zone: DateTime -> DetroitOffset, dt: DateTime)
    requires Valid(dt) && ValidTime(StartClock(LocationText(page)))
    requires MeetingDate(meetingText, Year(page.scheduleHeading.GetOr(""))) == Some(Ok(dt))
    ensures var at := DateTime(dt.date, StartClock(LocationText(page)));
      ElementOutcome(meetingText, page, zone) == Ok(Some(Template(page).(startTime := Format(at, IsoLayout) + OffsetText(zone(at)))))
  {
    var c := StartClock(LocationText(page));
    IsoStartText(dt, c);
    ChangeTimezoneIso(DateTime(dt.date, c), zone);
  }

  /** `ElementOutcome` for the elements of one page. */
  function Outcomes(page: Page, zone: DateTime -> DetroitOffset): String -> Result<Option<Event>>
  {
    t => ElementOutcome(t, page, zone)
  }

  /** The outcome of the elements so far: the records saved, and the error that stopped the scrape. */
  datatype Plan = Plan(saved: seq<Event>, error: Option<String>)

  /**
   * What `scrape` does with the elements, element by element, stopping at the
   * first error; `outcome` is what one element gives (`Outcomes` of the page).
   */
  function PlanElements(texts: seq<String>, outcome: String -> Result<Option<Event>>): Plan
  {
    if texts == [] then Plan([], None)
    else
      var p := PlanElements(texts[..|texts| - 1], outcome);
      if p.error.Some? then p
      else
        match outcome(texts[|texts| - 1])
        case Err(e) => Plan(p.saved, Some(e))
        case Ok(None) => p
        case Ok(Some(ev)) => Plan(p.saved + [ev], None)
  }

  /** The number of elements with a date match. */
  function DatedCount(texts: seq<String>): nat
  {
    if texts == [] then 0
    else DatedCount(texts[..|texts| - 1]) + (if DateWords(texts[|texts| - 1]).Some? then 1 else 0)
  }

  /** A scrape that runs to the end saves exactly one record per dated element. */
  lemma {:induction false} PlanCount(texts: seq<String>, page: Page, zone: DateTime -> DetroitOffset)
    requires PlanElements(texts, Outcomes(page, zone)).error.None?
    ensures |PlanElements(texts, Outcomes(page, zone)).saved| == DatedCount(texts)
    decreases |texts|
  {
    if texts != [] {
      var outcome := Outcomes(page, zone);
      PlanCount(texts[..|texts| - 1], page, zone);
      var r := ElementOutcome(texts[|texts| - 1], page, zone);
      assert outcome(texts[|texts| - 1]) == r;
    }
  }

  /** Every saved record satisfies what every element's record satisfies. */
  lemma {:induction false} PlanKeeps(texts: seq<String>, outcome: String -> Result<Option<Event>>, keep: Event -> bool, k: nat)
    requires forall t :: outcome(t).Ok? && outcome(t).value.Some? ==> keep(outcome(t).value.value)
    requires k < |PlanElements(texts, outcome).saved|
    ensures keep(PlanElements(texts, outcome).saved[k])
    decreases |texts|
  {
    var p := PlanElements(texts[..|texts| - 1], outcome);
    if k < |p.saved| {
      PlanKeeps(texts[..|texts| - 1], outcome, keep, k);
    }
  }

  /** Every saved record is the page's template with its own 25-character start time. */
  lemma PlanShared(texts: seq<String>, page: Page, zone: DateTime -> DetroitOffset, k: nat)
    requires k < |PlanElements(texts, Outcomes(page, zone)).saved|
    ensures var e := PlanElements(texts, Outcomes(page, zone)).saved[k];
      e.(startTime := []) == Template(page) && |e.startTime| == 25
  {
    var template := Template(page);
    var keep := (e: Event) => e.(startTime := []) == template && |e.startTime| == 25;
    var outcome := Outcomes(page, zone);
    forall t | outcome(t).Ok? && outcome(t).value.Some?
      ensures keep(outcome(t).value.value)
    {
      assert outcome(t) == ElementOutcome(t, page, zone);
    }
    PlanKeeps(texts, outcome, keep, k);
  }

  /** The plan of one more element. */
  lemma PlanStep(texts: seq<String>, i: nat, outcome: String -> Result<Option<Event>>)
    requires i < |texts| && PlanElements(texts[..i], outcome).error.None?
    ensures var p := PlanElements(texts[..i], outcome);
      PlanElements(texts[..i + 1], outcome) ==
        match outcome(texts[i])
        case Err(e) => Plan(p.saved, Some(e))
        case Ok(None) => p
        case Ok(Some(ev)) => Plan(p.saved + [ev], None)
  {
    assert texts[..i + 1][..i] == texts[..i];
  }

  /** Once a prefix has failed, the later elements change nothing. */
  lemma {:induction false} PlanStops(texts: seq<String>, k: nat, outcome: String -> Result<Option<Event>>)
    requires k <= |texts| && PlanElements(texts[..k], outcome).error.Some?
    ensures PlanElements(texts, outcome) == PlanElements(texts[..k], outcome)
    decreases |texts| - k
  {
    if k < |texts| {
      assert texts[..k + 1][..k] == texts[..k];
      PlanStops(texts, k + 1, outcome);
    } else {
      assert texts[..k] == texts;
    }
  }

  // ---------------------------------------------------------------- the scraper runs

  /** The records handed to `sdk.save_data`, in order. */
  class Sdk {
    var saved: seq<Event>

    constructor()
      ensures saved == []
    {
      saved := [];
    }

    /** `sdk.save_data(meeting)` */
    method SaveData(e: Event)
      modifies this
      ensures saved == old(saved) + [e]
    {
      saved := saved + [e];
    }
  }

  /**
   * The body of the element loop up to `save_data`: the record of one element,
   * from the page's parts that `scrape` reads once before the loop.
   */
  method ElementRecord(meetingText: String, page: Page, zone: DateTime -> DetroitOffset,
                       title: String, classification: Option<String>, year: String, locationText: String,
                       name: Option<String>, address: Option<String>) returns (r: Result<Option<Event>>)
    requires title == PageTitle(page) && classification == ParseClassification(Some(title))
    requires year == Year(page.scheduleHeading.GetOr("")) && locationText == LocationText(page)
    requires name == LocationName(locationText) && address == LocationAddress(locationText)
    ensures r == Outcomes(page, zone)(meetingText)
  {
    var words := DateWords(meetingText);
    var parsedTime := ClockText(locationText);
    if words.None? {
      return Ok(None);
    }
    var parsedDate := Parse(DropOrdinals(words.value + ", " + year), LongDate);
    if parsedDate.Err? {
      return Err(parsedDate.error);
    }
    var startTime := ChangeTimezone(Format(parsedDate.value, DateLayout) + "T" + parsedTime, zone);
    if startTime.Err? {
      return Err(startTime.error);
    }
    var allDay := parsedTime == "00:00:00";
    return Ok(Some(Event(title, startTime.value, ProperClassification(classification), name, address, allDay)));
  }

  /**
   * The element loop of `scrape`: `element` is the loop body up to `save_data`
   * (`ElementRecord` on the page's parts); records are saved in element order
   * and the first error ends the loop.
   */
  method SaveElements(sdk: Sdk, texts: seq<String>, element: String -> Result<Option<Event>>) returns (error: Option<String>)
    modifies sdk
    ensures var p := PlanElements(texts, element);
      sdk.saved == old(sdk.saved) + p.saved && error == p.error
  {
    ghost var plan := Plan([], None);
    var i := 0;
    while i < |texts|
      invariant 0 <= i <= |texts|
      invariant plan == PlanElements(texts[..i], element) && plan.error.None?
      invariant sdk.saved == old(sdk.saved) + plan.saved
    {
      var r := element(texts[i]);
      PlanStep(texts, i, element);
      if r.Err? {
        PlanStops(texts, i + 1, element);
        return Some(r.error);
      }
      if r.value.Some? {
        sdk.SaveData(r.value.value);
        plan := Plan(plan.saved + [r.value.value], None);
      }
      i := i + 1;
    }
    assert texts[..i] == texts;
    return None;
  }

  /**
   * `scrape`: read the page's shared parts once, then save one record per dated
   * element, in element order; an element whose date or start time does not
   * parse ends the scrape with the records saved so far.
   */
  method Scrape(sdk: Sdk, page: Page, zone: DateTime -> DetroitOffset) returns (error: Option<String>)
    modifies sdk
    ensures var p := PlanElements(page.meetingTexts, Outcomes(page, zone));
      sdk.saved == old(sdk.saved) + p.saved && error == p.error
  {
    error := SaveElements(sdk, page.meetingTexts, Outcomes(page, zone));
  }
}

/**
 * The Detroit Employment Solutions Corporation spider: the page's sections name a
 * meeting type (Mayor's Workforce Development Board or Career and Education
 * Advisory Council), which the spider keeps in `curr_type` while it reads the
 * meetings of that section. The current year is a parameter.
 */
module EmploymentSolutions {
  import opened Wrappers
  import opened Text
  import opened Numbers
  import opened Calendar
  import opened Strptime
  import opened Classification
  import opened Items

  datatype MeetingType = MWDB | CEAC

  /** A meeting entry: its `strong` text (the day) and its `p` text (the time range). */
  datatype MeetingItem = MeetingItem(strong: String, p: String)

  /** A page section: its HTML, and the entries the CSS selector of each meeting type picks out of it. */
  datatype Section = Section(info: String, select: MeetingType -> seq<MeetingItem>)

  datatype Meeting = Meeting(title: String, classification: Classification, start: Option<DateTime>,
                             end: Option<DateTime>, location: Place)

  /** What `parse` yields, the error that stopped it if any, and `curr_type` afterwards. */
  datatype Run = Run(meetings: seq<Meeting>, failure: Option<String>, currType: Option<MeetingType>)

  const Description: String := ""
  const TimeNotes: String := ""
  const Links: seq<Link> := [Link("", "")]

  function Acronym(t: MeetingType): String
  {
    match t
    case MWDB => "MWDB"
    case CEAC => "CEAC"
  }

  /** `set_current_meeting_type`: "mwdb" sets MWDB, then "CEAC" sets CEAC; neither keeps the type. */
  function NextType(t: Option<MeetingType>, info: String): (r: Option<MeetingType>)
    ensures Contains(info, "CEAC") ==> r == Some(CEAC)
    ensures !Contains(info, "CEAC") && Contains(info, "mwdb") ==> r == Some(MWDB)
    ensures !Contains(info, "CEAC") && !Contains(info, "mwdb") ==> r == t
  {
    var afterMwdb := if Contains(info, "mwdb") then Some(MWDB) else t;
    if Contains(info, "CEAC") then Some(CEAC) else afterMwdb
  }

  /** `_parse_title`: the type's board or council, named with its acronym; "DESC Meeting" without a type. */
  function TypeTitle(t: Option<MeetingType>): (r: String)
    ensures t.None? <==> r == "DESC Meeting"
  {
    match t
    case None => "DESC Meeting"
    case Some(MWDB) => "Mayor's Workforce Development Board (MWDB) Meeting"
    case Some(CEAC) => "Career and Education Advisory Council (CEAC) Meeting"
  }

  /** `_parse_classification`: MWDB is a board, CEAC an advisory committee, no type is not classified. */
  function ClassificationOf(t: Option<MeetingType>): (r: Classification)
    ensures r == Board <==> t == Some(MWDB)
    ensures r == AdvisoryCommittee <==> t == Some(CEAC)
    ensures r == NotClassified <==> t.None?
  {
    match t
    case None => NotClassified
    case Some(MWDB) => Board
    case Some(CEAC) => AdvisoryCommittee
  }

  /** `"%A, %B %d"`, the day as the page writes it (before its ordinal suffix). */
  const DayPart := [WeekdayName, Lit(','), Space, MonthName, Space, Day]

  /** `"%A, %B %d %Y %I:%M%p"` */
  const MwdbLayout := DayPart + MwdbMiddle + CompactClock

  /**
   * The text an MWDB time is parsed from: the stripped day less its last two characters,
   * the year, and piece `k` of the stripped time range split on " - ".
   */
  function DateText(item: MeetingItem, year: nat, k: nat): (r: Result<String>)
    ensures r.Err? <==> k >= |Split(Strip(item.p), " - ")|
  {
    var caldate := PySlice(Strip(item.strong), 0, -2);
    var timeframe := Split(Strip(item.p), " - ");
    if k >= |timeframe| then Err("list index out of range")
    else Ok(caldate + " " + NatToString(year) + " " + timeframe[k])
  }

  /**
   * `_parse_start` (`k` = 0) and `_parse_end` (`k` = 1): nothing without a type; for MWDB
   * the day, year and clock time; for CEAC `strptime("", "")`, which is 1900-01-01 00:00.
   */
  function ParseTime(t: Option<MeetingType>, item: MeetingItem, year: nat, k: nat): (r: Result<Option<DateTime>>)
    ensures t.None? ==> r == Ok(None)
    ensures t == Some(CEAC) ==> r == Ok(Some(DateTime(Date(1900, 1, 1), Midnight)))
    ensures t == Some(MWDB) ==> (r.Ok? <==> DateText(item, year, k).Ok? && Parse(DateText(item, year, k).value, MwdbLayout).Ok?)
    ensures r.Ok? && r.value.Some? ==> Valid(r.value.value)
  {
    match t
    case None => Ok(None)
    case Some(CEAC) =>
      (match Parse("", [])
       case Err(e) => Err(e)
       case Ok(dt) => Ok(Some(dt)))
    case Some(MWDB) =>
      match DateText(item, year, k)
      case Err(e) => Err(e)
      case Ok(s) =>
        match Parse(s, MwdbLayout)
        case Err(e) => Err(e)
        case Ok(dt) => Ok(Some(dt))
  }

  /**
   * `_parse_location`: the name runs to the first ", " and the address starts three
   * characters after it; without ", " the index is -1, so the name loses the last
   * character and the address the first two.
   */
  function ParseLocation(text: String): (r: Place)
    ensures Contains(text, ", ") ==> var i := Find(text, ", ").value;
      r.name == text[..i] && !Contains(r.name, ", ") && r.address == text[Min(i + 3, |text|)..]
    ensures !Contains(text, ", ") ==> r.name == text[..Max(|text| - 1, 0)] && r.address == text[Min(2, |text|)..]
  {
    var index := match Find(text, ", ") case Some(i) => i as int case None => -1;
    FindFirstFree(text, ", ");
    SliceToEnd(text, index + 3);
    var name, address := PySlice(text, 0, index), PySlice(text, index + 3, |text|);
    assert Contains(text, ", ") ==> name == text[..index] && address == text[Min(index + 3, |text|)..];
    assert !Contains(text, ", ") ==> name == text[..Max(|text| - 1, 0)] && address == text[Min(2, |text|)..];
    Place(name, address)
  }

  /** `s[a:]` for a non-negative start. */
  lemma SliceToEnd(s: String, a: int)
    requires a >= 0
    ensures PySlice(s, a, |s|) == s[Min(a, |s|)..]
  {
  }

  function Min(a: int, b: int): int { if a < b then a else b }
  function Max(a: int, b: int): int { if a < b then b else a }

  /** A name without ", ", then ", ", one more character and the address, splits into that name and address. */
  lemma LocationOf(name: String, c: char, address: String)
    requires !Contains(name, ", ")
    ensures ParseLocation(name + ", " + [c] + address) == Place(name, address)
  {
    var s := name + ", " + [c] + address;
    assert s == name + ", " + ([c] + address);
    FindCommaSpace(name, [c] + address);
    assert s[..|name|] == name && s[|name| + 3..] == address;
  }

  /** One meeting entry under a known type, or the error its times raise. */
  function MeetingOf(t: MeetingType, item: MeetingItem, place: Place, year: nat): (r: Result<Meeting>)
    ensures r.Ok? <==> ParseTime(Some(t), item, year, 0).Ok? && ParseTime(Some(t), item, year, 1).Ok?
    ensures r.Ok? ==> r.value.title == TypeTitle(Some(t)) && r.value.classification == ClassificationOf(Some(t))
    ensures r.Ok? ==> Ok(r.value.start) == ParseTime(Some(t), item, year, 0) && Ok(r.value.end) == ParseTime(Some(t), item, year, 1)
    ensures r.Ok? ==> r.value.location == place
  {
    match ParseTime(Some(t), item, year, 0)
    case Err(e) => Err(e)
    case Ok(start) =>
      match ParseTime(Some(t), item, year, 1)
      case Err(e) => Err(e)
      case Ok(end) => Ok(Meeting(TypeTitle(Some(t)), ClassificationOf(Some(t)), start, end, place))
  }

  /** The meetings of one section, in order, until a time that does not parse. */
  function SectionMeetings(t: MeetingType, items: seq<MeetingItem>, place: Place, year: nat): (seq<Meeting>, Option<String>)
  {
    if items == [] then ([], None)
    else
      match MeetingOf(t, items[0], place, year)
      case Err(e) => ([], Some(e))
      case Ok(m) => var rest := SectionMeetings(t, items[1..], place, year); ([m] + rest.0, rest.1)
  }

  /**
   * `parse` over the sections after the first: each section may change the type; a
   * section read with no type raises (there is no selector for `None`).
   */
  function Crawl(t: Option<MeetingType>, sections: seq<Section>, place: Place, year: nat): Run
    decreases |sections|
  {
    if sections == [] then Run([], None, t)
    else
      var t2 := NextType(t, sections[0].info);
      if t2.None? then Run([], Some("KeyError: None"), t2)
      else
        var r := SectionMeetings(t2.value, sections[0].select(t2.value), place, year);
        if r.1.Some? then Run(r.0, r.1, t2)
        else
          var rest := Crawl(t2, sections[1..], place, year);
          Run(r.0 + rest.meetings, rest.failure, rest.currType)
  }

  /** The first section read: its type, then its entries, then the sections after it. */
  lemma CrawlFirst(t: Option<MeetingType>, sections: seq<Section>, place: Place, year: nat)
    requires sections != []
    ensures var t2 := NextType(t, sections[0].info);
      t2.None? ==> Crawl(t, sections, place, year) == Run([], Some("KeyError: None"), t2)
    ensures var t2 := NextType(t, sections[0].info);
      t2.Some? ==> var r := SectionMeetings(t2.value, sections[0].select(t2.value), place, year);
        Crawl(t, sections, place, year) == if r.1.Some? then Run(r.0, r.1, t2) else Prepend(r.0, Crawl(t2, sections[1..], place, year))
  {
  }

  /** The meetings `ms` in front of a run's. */
  function Prepend(ms: seq<Meeting>, r: Run): Run
  {
    Run(ms + r.meetings, r.failure, r.currType)
  }

  lemma PrependTwice(a: seq<Meeting>, b: seq<Meeting>, r: Run)
    ensures Prepend(a, Prepend(b, r)) == Prepend(a + b, r)
  {
    assert a + (b + r.meetings) == (a + b) + r.meetings;
  }

  /** Every meeting of a section has a start and an end, and is named after a type. */
  lemma {:induction false} SectionMeetingsTyped(t: MeetingType, items: seq<MeetingItem>, place: Place, year: nat)
    ensures forall m :: m in SectionMeetings(t, items, place, year).0 ==>
      m.title == TypeTitle(Some(t)) && m.start.Some? && m.end.Some? && m.location == place
  {
    if items != [] {
      SectionMeetingsTyped(t, items[1..], place, year);
    }
  }

  /**
   * No meeting is ever "DESC Meeting" or without a start: a section read before any
   * type is set stops the crawl instead.
   */
  lemma {:induction false} NoUntypedMeeting(t: Option<MeetingType>, sections: seq<Section>, place: Place, year: nat)
    decreases |sections|
    ensures forall m :: m in Crawl(t, sections, place, year).meetings ==>
      m.title != "DESC Meeting" && m.start.Some? && m.end.Some? && m.location == place
  {
    if sections != [] {
      var t2 := NextType(t, sections[0].info);
      if t2.Some? {
        SectionMeetingsTyped(t2.value, sections[0].select(t2.value), place, year);
        NoUntypedMeeting(t2, sections[1..], place, year);
      }
    }
  }

  /** Once a section has set a type, the type is never unset. */
  lemma {:induction false} TypeSticks(t: MeetingType, sections: seq<Section>, place: Place, year: nat)
    decreases |sections|
    ensures Crawl(Some(t), sections, place, year).currType.Some?
  {
    if sections != [] {
      var t2 := NextType(Some(t), sections[0].info);
      var r := SectionMeetings(t2.value, sections[0].select(t2.value), place, year);
      if r.1.None? {
        TypeSticks(t2.value, sections[1..], place, year);
      }
    }
  }

  class Spider {
    var currType: Option<MeetingType>

    constructor()
      ensures currType.None?
    {
      currType := None;
    }

    /** `set_current_meeting_type` */
    method SetCurrentMeetingType(info: String)
      modifies this
      ensures currType == NextType(old(currType), info)
    {
      if Contains(info, "mwdb") {
        currType := Some(MWDB);
      }
      if Contains(info, "CEAC") {
        currType := Some(CEAC);
      }
    }

    /** The inner loop of `parse`: the entries of one section under the current type. */
    method ParseSection(items: seq<MeetingItem>, place: Place, year: nat) returns (meetings: seq<Meeting>, failure: Option<String>)
      requires currType.Some?
      ensures (meetings, failure) == SectionMeetings(currType.value, items, place, year)
    {
      var t := currType.value;
      meetings := [];
      failure := None;
      var i := 0;
      assert items[0..] == items && meetings + SectionMeetings(t, items, place, year).0 == SectionMeetings(t, items, place, year).0;
      while i < |items|
        invariant 0 <= i <= |items|
        invariant SectionMeetings(t, items, place, year) ==
          (meetings + SectionMeetings(t, items[i..], place, year).0, SectionMeetings(t, items[i..], place, year).1)
      {
        assert items[i..][0] == items[i] && items[i..][1..] == items[i + 1..];
        var start := ParseTime(Some(t), items[i], year, 0);
        if start.Err? {
          failure := Some(start.error);
          assert meetings + [] == meetings;
          return;
        }
        var end := ParseTime(Some(t), items[i], year, 1);
        if end.Err? {
          failure := Some(end.error);
          assert meetings + [] == meetings;
          return;
        }
        var m := Meeting(TypeTitle(Some(t)), ClassificationOf(Some(t)), start.value, end.value, place);
        var rest := SectionMeetings(t, items[i + 1..], place, year);
        assert meetings + ([m] + rest.0) == (meetings + [m]) + rest.0;
        meetings := meetings + [m];
        i := i + 1;
      }
      assert items[i..] == [] && meetings + [] == meetings;
    }

    /**
     * `parse`: the location comes from the first section's text; every later section
     * sets the type and yields its entries.
     */
    method Parse(locationText: String, sections: seq<Section>, year: nat) returns (meetings: seq<Meeting>, failure: Option<String>)
      modifies this
      ensures Run(meetings, failure, currType) == Crawl(old(currType), sections, ParseLocation(locationText), year)
    {
      var place := ParseLocation(locationText);
      meetings := [];
      failure := None;
      var i := 0;
      ghost var t0 := currType;
      assert sections[0..] == sections && [] + Crawl(t0, sections, place, year).meetings == Crawl(t0, sections, place, year).meetings;
      while i < |sections|
        invariant 0 <= i <= |sections|
        invariant Crawl(t0, sections, place, year) == Prepend(meetings, Crawl(currType, sections[i..], place, year))
      {
        assert sections[i..][0] == sections[i] && sections[i..][1..] == sections[i + 1..];
        CrawlFirst(currType, sections[i..], place, year);
        SetCurrentMeetingType(sections[i].info);
        if currType.None? {
          failure := Some("KeyError: None");
          assert meetings + [] == meetings;
          return;
        }
        var found, error := ParseSection(sections[i].select(currType.value), place, year);
        if error.Some? {
          failure := error;
          meetings := meetings + found;
          return;
        }
        PrependTwice(meetings, found, Crawl(currType, sections[i + 1..], place, year));
        meetings := meetings + found;
        i := i + 1;
      }
      assert sections[i..] == [] && meetings + [] == meetings;
    }
  }

  /**
   * An MWDB entry written as the page writes it (the day with a two-character ordinal
   * suffix, the start and end clock times around " - ") reads back as the meeting's start
   * and end on that day, to the minute, when the year given is the meeting's year.
   */
  lemma MwdbTimes(dt: DateTime, endTime: Time, ordinal: String)
    requires Valid(dt) && ValidTime(endTime) && dt.date.year >= 1000
    requires |ordinal| == 2 && !IsSpace(ordinal[1])
    ensures var item := MeetingItem(Format(dt, DayPart) + ordinal,
                                    Format(dt, CompactClock) + " - " + Format(DateTime(dt.date, endTime), CompactClock));
      ParseTime(Some(MWDB), item, dt.date.year, 0) == Ok(Some(DateTime(dt.date, Time(dt.time.hour, dt.time.minute, 0)))) &&
      ParseTime(Some(MWDB), item, dt.date.year, 1) == Ok(Some(DateTime(dt.date, Time(endTime.hour, endTime.minute, 0))))
  {
    var dt2 := DateTime(dt.date, endTime);
    var day := Format(dt, DayPart);
    var c1 := Format(dt, CompactClock);
    var c2 := Format(dt2, CompactClock);
    var item := MeetingItem(day + ordinal, c1 + " - " + c2);
    DayText(dt, ordinal);
    ClockText(dt);
    ClockText(dt2);
    RangeText(c1, c2);
    assert PySlice(Strip(item.strong), 0, -2) == day;
    assert Split(Strip(item.p), " - ") == [c1, c2];
    DayPartDateOnly();
    DateOnlyRender(DayPart, dt, dt2);
    MwdbText(dt);
    MwdbText(dt2);
  }

  /** The day text, its ordinal appended, has no edge whitespace, and dropping two characters gives it back. */
  lemma DayText(dt: DateTime, ordinal: String)
    requires Valid(dt) && |ordinal| == 2 && !IsSpace(ordinal[1])
    ensures var s := Format(dt, DayPart) + ordinal; Strip(s) == s && PySlice(s, 0, -2) == Format(dt, DayPart)
  {
    var day := Format(dt, DayPart);
    var s := day + ordinal;
    RenderedStart(WeekdayName, dt);
    assert day == RenderOne(WeekdayName, dt) + Render(DayPart[1..], dt);
    assert s[0] == day[0] && s[|s| - 1] == ordinal[1];
    StripNoEdgeSpace(s);
    assert s[..|s| - 2] == day;
  }

  /** A `%I:%M%p` time has no space, starts with a digit and ends with "M". */
  lemma ClockText(dt: DateTime)
    requires Valid(dt)
    ensures var c := Format(dt, CompactClock); |c| > 0 && ' ' !in c && IsDigit(c[0]) && c[|c| - 1] == 'M'
  {
    var h := Pad(To12(dt.time.hour), 2);
    var m := Pad(dt.time.minute, 2);
    var ap := if dt.time.hour < 12 then "AM" else "PM";
    ClockRender(dt);
    ClockShape(h, m, ap);
  }

  /** Two digit runs around ':' and then "AM" or "PM" have no space, a leading digit and a closing 'M'. */
  lemma ClockShape(h: String, m: String, ap: String)
    requires AllDigits(h) && |h| >= 2 && AllDigits(m) && (ap == "AM" || ap == "PM")
    ensures var c := h + ":" + m + ap; |c| > 0 && ' ' !in c && IsDigit(c[0]) && c[|c| - 1] == 'M'
  {
    var c := h + ":" + m + ap;
    assert c[0] == h[0];
    forall k | 0 <= k < |c| ensures c[k] != ' ' {
      if k < |h| {
        assert c[k] == h[k];
      } else if |h| + 1 <= k < |h| + 1 + |m| {
        assert c[k] == m[k - |h| - 1];
      }
    }
  }

  /** `%I:%M%p` renders the 12-hour clock, ':', the minute and the half of the day. */
  lemma ClockRender(dt: DateTime)
    requires Valid(dt)
    ensures Format(dt, CompactClock)
         == Pad(To12(dt.time.hour), 2) + ":" + Pad(dt.time.minute, 2) + (if dt.time.hour < 12 then "AM" else "PM")
  {
    var h := Pad(To12(dt.time.hour), 2);
    var m := Pad(dt.time.minute, 2);
    var ap := if dt.time.hour < 12 then "AM" else "PM";
    var l := CompactClock;
    assert Render(l[3..], dt) == ap by {
      assert l[3..] == [AmPm] && [AmPm][1..] == [];
    }
    assert Render(l[2..], dt) == m + ap by {
      assert l[2..][0] == Minute && l[2..][1..] == l[3..];
    }
    assert Render(l[1..], dt) == ":" + m + ap by {
      assert l[1..][0] == Lit(':') && l[1..][1..] == l[2..];
    }
    assert Format(dt, l) == h + ":" + m + ap;
  }

  /** Two space-free times around " - " are an edge-trimmed text that splits back into them. */
  lemma RangeText(c1: String, c2: String)
    requires |c1| > 0 && ' ' !in c1 && IsDigit(c1[0]) && |c2| > 0 && ' ' !in c2 && c2[|c2| - 1] == 'M'
    ensures Strip(c1 + " - " + c2) == c1 + " - " + c2
    ensures Split(c1 + " - " + c2, " - ") == [c1, c2]
  {
    var p := c1 + " - " + c2;
    assert p[0] == c1[0] && p[|p| - 1] == 'M';
    StripNoEdgeSpace(p);
    FindAfter(c1, " - ", c2);
    CharContains(c2, ' ');
    SplitWithout(c2, " - ");
  }

  /** The text an MWDB time is parsed from, built from the page's parts, reads back to the minute. */
  lemma MwdbText(dt: DateTime)
    requires Valid(dt) && dt.date.year >= 1000
    ensures var s := Format(dt, DayPart) + " " + NatToString(dt.date.year) + " " + Format(dt, CompactClock);
      Parse(s, MwdbLayout) == Ok(DateTime(dt.date, Time(dt.time.hour, dt.time.minute, 0)))
  {
    MwdbRender(dt);
    MwdbLayoutShape();
    FormatParse(dt, MwdbLayout);
  }

  /** `%A, %B %d %Y %I:%M%p` writes the day part, the year and the clock time, apart by spaces. */
  lemma MwdbRender(dt: DateTime)
    requires Valid(dt) && dt.date.year >= 1000
    ensures Format(dt, MwdbLayout) == Format(dt, DayPart) + " " + NatToString(dt.date.year) + " " + Format(dt, CompactClock)
  {
    MiddleText(dt);
    RenderAppend(DayPart, MwdbMiddle, dt);
    RenderAppend(DayPart + MwdbMiddle, CompactClock, dt);
  }

  /** A year from 1000 on is written in its own four digits. */
  lemma MiddleText(dt: DateTime)
    requires Valid(dt) && dt.date.year >= 1000
    ensures Render(MwdbMiddle, dt) == " " + NatToString(dt.date.year) + " "
  {
    var y := dt.date.year;
    assert Pow10(3) == 1000;
    NatToStringLong(y, 3);
    assert Pad(y, 4) == NatToString(y);
    var l := MwdbMiddle;
    assert Render(l[2..], dt) == " " by {
      assert l[2..] == [Space] && [Space][1..] == [];
    }
    assert Render(l[1..], dt) == NatToString(y) + " " by {
      assert l[1..][0] == Year4 && l[1..][1..] == l[2..];
    }
  }

  lemma DayPartDateOnly()
    ensures forall k :: 0 <= k < |DayPart| ==> DayPart[k] in {WeekdayName, MonthName, Day, Space} || DayPart[k].Lit?
  {
  }

  /** The week-day, month and day part depends only on the date. */
  lemma {:induction false} DateOnlyRender(ds: seq<Directive>, a: DateTime, b: DateTime)
    requires Valid(a) && Valid(b) && a.date == b.date
    requires forall k :: 0 <= k < |ds| ==> ds[k] in {WeekdayName, MonthName, Day, Space} || ds[k].Lit?
    ensures Render(ds, a) == Render(ds, b)
  {
    if ds != [] {
      DateOnlyRender(ds[1..], a, b);
    }
  }

  const MwdbMiddle := [Space, Year4, Space]

  /** `%A, %B %d %Y %I:%M%p` writes the full date, the 12-hour clock and no seconds. */
  lemma MwdbLayoutShape()
    ensures Separated(MwdbLayout)
    ensures Year4 in MwdbLayout && Year2 !in MwdbLayout && MonthName in MwdbLayout && Day in MwdbLayout
    ensures Hour12 in MwdbLayout && AmPm in MwdbLayout && Hour24 !in MwdbLayout && Minute in MwdbLayout && Second !in MwdbLayout
  {
    MwdbSeparated();
    CompactClockShape();
    DayPartShape();
    assert MwdbLayout == DayPart + MwdbMiddle + CompactClock;
    assert MwdbMiddle[1] == Year4;
  }

  lemma MwdbSeparated()
    ensures Separated(MwdbLayout)
  {
    assert Separated(DayPart) && Separated(MwdbMiddle);
    SeparatedAppend(DayPart, MwdbMiddle);
    CompactClockShape();
    SeparatedAppend(DayPart + MwdbMiddle, CompactClock);
  }

  lemma DayPartShape()
    ensures MonthName in DayPart && Day in DayPart
    ensures Year2 !in DayPart && Hour24 !in DayPart && Second !in DayPart
    ensures Year2 !in MwdbMiddle && Hour24 !in MwdbMiddle && Second !in MwdbMiddle
  {
    assert DayPart[3] == MonthName && DayPart[5] == Day;
  }
}

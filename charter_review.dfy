/** The Detroit Charter Review Commission spider: Google Calendar events become meetings. */
module CharterReview {
  import opened Wrappers
  import opened Text
  import opened Items
  import opened Calendar
  import opened Numbers
  import opened Strptime
  import opened Classification

  /** An event's "start" or "end" object: a "dateTime", a "date", both or neither. */
  datatype TimeObj = TimeObj(dateTime: Option<String>, date: Option<String>)

  /** The fields of a calendar item the spider reads. */
  datatype Item = Item(summary: String, location: Option<String>, start: TimeObj, end: TimeObj)

  datatype Meeting = Meeting(title: String, classification: Classification, start: Option<DateTime>,
                             end: Option<DateTime>, location: Place)

  const Description: String := ""
  const Source: String := "https://sites.google.com/view/detroitcharter2018"

  /** `_parse_title`: the stripped summary, less one trailing " Meeting". */
  function Title(summary: String): (r: String)
    ensures EndsWith(Strip(summary), " Meeting") ==> r + " Meeting" == Strip(summary)
    ensures !EndsWith(Strip(summary), " Meeting") ==> r == Strip(summary)
  {
    var t := Strip(summary);
    if EndsWith(t, " Meeting") then t[..|t| - 8] else t
  }

  /** A name that does not start or end with a space, followed by " Meeting", gives back the name. */
  lemma TitleOfMeeting(name: String)
    requires |name| > 0 && !IsSpace(name[0])
    ensures Title(name + " Meeting") == name
  {
    var t := name + " Meeting";
    assert t[0] == name[0] && t[|t| - 1] == 'g';
    StripNoEdgeSpace(t);
    assert t[|t| - 8..] == " Meeting";
    assert t[..|t| - 8] == name;
  }

  /** Only one " Meeting" is removed. */
  lemma TitleOnce(name: String)
    requires |name| > 0 && !IsSpace(name[0])
    ensures Title(name + " Meeting Meeting") == name + " Meeting"
  {
    assert name + " Meeting Meeting" == (name + " Meeting") + " Meeting";
    TitleOfMeeting(name + " Meeting");
  }

  /** `_parse_classification`: committee before focus group, commission otherwise, in any case. */
  function ClassificationOf(title: String): (r: Classification)
    ensures r == Committee <==> Contains(Lower(title), "committee")
    ensures r == Forum <==> !Contains(Lower(title), "committee") && Contains(Lower(title), "focus group")
    ensures r == Commission <==> !Contains(Lower(title), "committee") && !Contains(Lower(title), "focus group")
  {
    if Contains(Lower(title), "committee") then Committee
    else if Contains(Lower(title), "focus group") then Forum
    else Commission
  }

  /**
   * `_parse_dt`: the first 19 characters of "dateTime" as `%Y-%m-%dT%H:%M:%S`, else "date"
   * as `%Y-%m-%d` at midnight, else nothing; text that does not parse is an error.
   */
  function ParseDt(obj: TimeObj): (r: Result<Option<DateTime>>)
    ensures obj.dateTime.None? && obj.date.None? ==> r == Ok(None)
    ensures obj.dateTime.Some? ==> (r.Ok? <==> Parse(PyPrefix(obj.dateTime.value, 19), IsoLayout).Ok?)
    ensures obj.dateTime.None? && obj.date.Some? ==> (r.Ok? <==> Parse(obj.date.value, DateLayout).Ok?)
    ensures r.Ok? && r.value.Some? ==> Valid(r.value.value)
  {
    if obj.dateTime.Some? then
      match Parse(PyPrefix(obj.dateTime.value, 19), IsoLayout)
      case Ok(dt) => Ok(Some(dt))
      case Err(e) => Err(e)
    else if obj.date.Some? then
      match Parse(obj.date.value, DateLayout)
      case Ok(dt) => Ok(Some(dt))
      case Err(e) => Err(e)
    else Ok(None)
  }

  /** The width of a directive that always writes the same number of characters for a valid datetime. */
  function FixedWidth(d: Directive): nat
  {
    match d
    case Year4 => 4
    case Month => 2
    case Day => 2
    case Hour24 => 2
    case Minute => 2
    case Second => 2
    case _ => 1
  }

  predicate IsFixed(d: Directive)
  {
    d.Lit? || d in {Year4, Month, Day, Hour24, Minute, Second}
  }

  function TotalWidth(ds: seq<Directive>): nat
  {
    if ds == [] then 0 else FixedWidth(ds[0]) + TotalWidth(ds[1..])
  }

  /** A layout of fixed-width directives writes a valid datetime in its total width. */
  lemma {:induction false} RenderWidth(ds: seq<Directive>, dt: DateTime)
    requires Valid(dt) && forall k :: 0 <= k < |ds| ==> IsFixed(ds[k])
    ensures |Render(ds, dt)| == TotalWidth(ds)
  {
    if ds != [] {
      RenderWidth(ds[1..], dt);
      var d := ds[0];
      Pow10Values();
      assert IsFixed(d);
      match d
      case Year4 => PadRoundTrip(dt.date.year, 4);
      case Month => PadRoundTrip(dt.date.month, 2);
      case Day => PadRoundTrip(dt.date.day, 2);
      case Hour24 => PadRoundTrip(dt.time.hour, 2);
      case Minute => PadRoundTrip(dt.time.minute, 2);
      case Second => PadRoundTrip(dt.time.second, 2);
      case _ =>
    }
  }

  /** `%H:%M:%S` */
  const ClockLayout := [Hour24, Lit(':'), Minute, Lit(':'), Second]

  /** A valid datetime is written in exactly 19 characters by `IsoLayout`. */
  lemma IsoLength(dt: DateTime)
    requires Valid(dt)
    ensures |Format(dt, IsoLayout)| == 19
  {
    assert IsoLayout == DateLayout + ([Lit('T')] + ClockLayout);
    RenderAppend(DateLayout, [Lit('T')] + ClockLayout, dt);
    RenderAppend([Lit('T')], ClockLayout, dt);
    assert forall k :: 0 <= k < |DateLayout| ==> IsFixed(DateLayout[k]);
    assert forall k :: 0 <= k < |ClockLayout| ==> IsFixed(ClockLayout[k]);
    assert forall k :: 0 <= k < 1 ==> IsFixed([Lit('T')][k]);
    RenderWidth(DateLayout, dt);
    RenderWidth(ClockLayout, dt);
    RenderWidth([Lit('T')], dt);
    DateWidth();
    ClockWidth();
  }

  lemma DateWidth()
    ensures TotalWidth(DateLayout) == 10
  {
    assert DateLayout[1..][1..][1..][1..] == [Day];
  }

  lemma ClockWidth()
    ensures TotalWidth(ClockLayout) == 8
  {
    assert ClockLayout[1..][1..][1..][1..] == [Second];
  }

  /**
   * A "dateTime" that starts with a written datetime gives that datetime back, whatever
   * follows it (Google Calendar appends the UTC offset) and whatever "date" says.
   */
  lemma DateTimeRoundTrip(dt: DateTime, offset: String, date: Option<String>)
    requires Valid(dt)
    ensures ParseDt(TimeObj(Some(Format(dt, IsoLayout) + offset), date)) == Ok(Some(dt))
  {
    var w := Format(dt, IsoLayout);
    IsoLength(dt);
    assert PyPrefix(w + offset, 19) == w;
    IsoRoundTrip(dt);
  }

  /** An all-day "date" gives that date at midnight. */
  lemma DateRoundTrip(d: Date)
    requires ValidDate(d)
    ensures ParseDt(TimeObj(None, Some(Format(DateTime(d, Midnight), DateLayout)))) == Ok(Some(DateTime(d, Midnight)))
  {
    DateLayoutShape();
    FormatParse(DateTime(d, Midnight), DateLayout);
  }

  /** `(?<=[a-z]), (?=\d)`: a ", " between a lowercase letter and a digit starts at `i`. */
  predicate CommaBreak(s: String, i: int)
  {
    0 < i && i + 2 < |s| && s[i] == ',' && s[i + 1] == ' ' && IsLower(s[i - 1]) && IsDigit(s[i + 2])
  }

  /** The first break at or after `from`. */
  function BreakFrom(s: String, from: nat): (r: Option<nat>)
    decreases |s| - from
    ensures r.Some? ==> from <= r.value && CommaBreak(s, r.value)
    ensures r.Some? ==> forall j :: from <= j < r.value ==> !CommaBreak(s, j)
    ensures r.None? ==> forall j :: from <= j ==> !CommaBreak(s, j)
  {
    if from + 2 >= |s| then None
    else if CommaBreak(s, from) then Some(from)
    else BreakFrom(s, from + 1)
  }

  /** `re.split` on the breaks, scanning left to right. */
  function SplitLocation(s: String): (r: seq<String>)
    decreases |s|
    ensures |r| >= 1
  {
    match BreakFrom(s, 0)
    case None => [s]
    case Some(i) => [s[..i]] + SplitLocation(s[i + 2..])
  }

  /** Joining the pieces back with ", " gives the location text. */
  lemma {:induction false} SplitLocationJoin(s: String)
    decreases |s|
    ensures Join(", ", SplitLocation(s)) == s
  {
    match BreakFrom(s, 0)
    case None =>
    case Some(i) =>
      var rest := SplitLocation(s[i + 2..]);
      SplitLocationJoin(s[i + 2..]);
      JoinCons(s[..i], ", ", rest);
      assert s == s[..i] + ", " + s[i + 2..];
  }

  /**
   * `_parse_location`: no location means no meeting; a location without a break is all
   * address; otherwise the name runs to the first break and the rest is the address.
   */
  function ParseLocation(location: Option<String>): (r: Option<Place>)
    ensures r.None? <==> location.None?
    ensures r.Some? && BreakFrom(location.value, 0).None? ==> r.value == Place("", location.value)
    ensures r.Some? && BreakFrom(location.value, 0).Some? ==>
      var i := BreakFrom(location.value, 0).value;
      r.value == Place(location.value[..i], location.value[i + 2..])
  {
    if location.None? then None
    else
      var s := location.value;
      var parts := SplitLocation(s);
      if |parts| == 1 then Some(Place("", parts[0]))
      else
        SplitLocationJoin(s[BreakFrom(s, 0).value + 2..]);
        Some(Place(parts[0], Join(", ", parts[1..])))
  }

  /**
   * A location has a name exactly when it has a break; the name and the address are
   * then joined by ", ", the name ends in a lowercase letter, has no break inside it,
   * and the address starts with a digit.
   */
  lemma LocationParts(s: String)
    ensures var p := ParseLocation(Some(s)).value;
      && (p.name == "" <==> forall j :: 0 <= j < |s| ==> !CommaBreak(s, j))
      && (p.name != "" ==> p.name + ", " + p.address == s && CommaBreak(s, |p.name|))
      && (p.name != "" ==> IsLower(p.name[|p.name| - 1]) && IsDigit(p.address[0]))
      && (p.name != "" ==> forall j :: 0 <= j < |p.name| ==> !CommaBreak(s, j))
  {
    match BreakFrom(s, 0)
    case None =>
    case Some(i) =>
      assert s == s[..i] + ", " + s[i + 2..];
  }

  /** The meeting one item gives: none without a location, an error when a time does not parse. */
  function MeetingOf(item: Item): (r: Option<Result<Meeting>>)
    ensures r.None? <==> item.location.None?
    ensures r.Some? ==> (r.value.Ok? <==> ParseDt(item.start).Ok? && ParseDt(item.end).Ok?)
    ensures r.Some? && r.value.Ok? ==> var m := r.value.value;
      m.title == Title(item.summary) && m.classification == ClassificationOf(m.title) &&
      Some(m.location) == ParseLocation(item.location) && Ok(m.start) == ParseDt(item.start) && Ok(m.end) == ParseDt(item.end)
  {
    var title := Title(item.summary);
    match ParseLocation(item.location)
    case None => None
    case Some(place) =>
      match ParseDt(item.start)
      case Err(e) => Some(Err(e))
      case Ok(start) =>
        match ParseDt(item.end)
        case Err(e) => Some(Err(e))
        case Ok(end) => Some(Ok(Meeting(title, ClassificationOf(title), start, end, place)))
  }

  /** What `parse` yields: the meetings in order, until a time that does not parse raises. */
  function Yielded(items: seq<Item>): (seq<Meeting>, Option<String>)
  {
    if items == [] then ([], None)
    else
      match MeetingOf(items[0])
      case None => Yielded(items[1..])
      case Some(Err(e)) => ([], Some(e))
      case Some(Ok(m)) => var rest := Yielded(items[1..]); ([m] + rest.0, rest.1)
  }

  /** The items that have a location. */
  function Located(items: seq<Item>): (r: seq<Item>)
    ensures |r| <= |items|
    ensures forall i :: 0 <= i < |r| ==> r[i].location.Some?
  {
    if items == [] then []
    else (if items[0].location.Some? then [items[0]] else []) + Located(items[1..])
  }

  /** Items without a location change nothing in what is yielded. */
  lemma {:induction false} SkipUnlocated(items: seq<Item>)
    ensures Yielded(items) == Yielded(Located(items))
  {
    if items != [] {
      SkipUnlocated(items[1..]);
      var l := Located(items);
      if items[0].location.Some? {
        assert l == [items[0]] + Located(items[1..]);
        assert l[0] == items[0] && l[1..] == Located(items[1..]);
      } else {
        assert l == Located(items[1..]);
        assert MeetingOf(items[0]).None?;
      }
    }
  }

  /** Without an error, one meeting is yielded per located item, and never more. */
  lemma {:induction false} YieldedCount(items: seq<Item>)
    ensures |Yielded(items).0| <= |Located(items)|
    ensures Yielded(items).1.None? ==> |Yielded(items).0| == |Located(items)|
  {
    if items != [] {
      YieldedCount(items[1..]);
    }
  }

  /** One step of `Yielded`: what the item at `i` contributes in front of the rest. */
  lemma YieldedStep(items: seq<Item>, i: nat)
    requires i < |items|
    ensures var m := MeetingOf(items[i]);
      var rest := Yielded(items[i + 1..]);
      Yielded(items[i..]) == if m.None? then rest else if m.value.Err? then ([], Some(m.value.error)) else ([m.value.value] + rest.0, rest.1)
  {
    assert items[i..][0] == items[i] && items[i..][1..] == items[i + 1..];
  }

  /** `MeetingOf` in the order `parse` does its steps. */
  lemma MeetingOfSteps(item: Item)
    ensures var place := ParseLocation(item.location);
      var start := ParseDt(item.start);
      var end := ParseDt(item.end);
      var title := Title(item.summary);
      MeetingOf(item) ==
        if place.None? then None
        else if start.Err? then Some(Err(start.error))
        else if end.Err? then Some(Err(end.error))
        else Some(Ok(Meeting(title, ClassificationOf(title), start.value, end.value, place.value)))
  {
  }

  /** `parse`: the loop over the calendar's items, skipping those without a location. */
  method ParseItems(items: seq<Item>) returns (meetings: seq<Meeting>, failure: Option<String>)
    ensures (meetings, failure) == Yielded(items)
  {
    meetings := [];
    failure := None;
    var i := 0;
    assert items[0..] == items && meetings + Yielded(items).0 == Yielded(items).0;
    while i < |items|
      invariant 0 <= i <= |items|
      invariant Yielded(items) == (meetings + Yielded(items[i..]).0, Yielded(items[i..]).1)
    {
      YieldedStep(items, i);
      MeetingOfSteps(items[i]);
      var item := items[i];
      var title := Title(item.summary);
      var location := ParseLocation(item.location);
      if location.None? {
        i := i + 1;
        continue;
      }
      var start := ParseDt(item.start);
      if start.Err? {
        failure := Some(start.error);
        assert meetings + [] == meetings;
        return;
      }
      var end := ParseDt(item.end);
      if end.Err? {
        failure := Some(end.error);
        assert meetings + [] == meetings;
        return;
      }
      var m := Meeting(title, ClassificationOf(title), start.value, end.value, location.value);
      assert meetings + ([m] + Yielded(items[i + 1..]).0) == (meetings + [m]) + Yielded(items[i + 1..]).0;
      meetings := meetings + [m];
      i := i + 1;
    }
    assert items[i..] == [] && meetings + [] == meetings;
  }
}

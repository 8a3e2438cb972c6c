/**
 * `datetime.strptime` and `datetime.strftime` for the directives the scrapers use:
 * `%B %A %d %m %Y %y %H %I %M %S %p`.
 *
 * A format is given as its list of directives: `"%B %d, %Y"` is
 * `[MonthName, Space, Day, Lit(','), Space, Year4]`. As in CPython's `_strptime`,
 * a run of whitespace in the format (`Space`) matches one or more whitespace
 * characters, every other character and every name matches case-insensitively,
 * and the whole input must be consumed.
 * A one-or-two digit field takes as many digits as are there (at most two);
 * this equals the regular expression's choice whenever the following format item
 * cannot itself start with a digit, which holds for every format in this model.
 */
module Strptime {
  import opened Wrappers
  import opened Text
  import opened Numbers
  import opened Calendar

  datatype Directive =
    | Lit(c: char)
    | Space
    | MonthName
    | WeekdayName
    | Day
    | Month
    | Year4
    | Year2
    | Hour24
    | Hour12
    | Minute
    | Second
    | AmPm

  /** The fields found so far; a missing one takes its default when the datetime is built. */
  datatype Fields = Fields(year: Option<int>, month: Option<int>, day: Option<int>,
                           hour24: Option<int>, hour12: Option<int>, minute: Option<int>,
                           second: Option<int>, pm: Option<bool>)

  const NoFields := Fields(None, None, None, None, None, None, None, None)

  /** The number of digits at the start of `s`, at most `max`. */
  function LeadingDigits(s: String, max: nat): (k: nat)
    ensures k <= max && k <= |s|
    ensures forall i :: 0 <= i < k ==> IsDigit(s[i])
    ensures k < max && k < |s| ==> !IsDigit(s[k])
  {
    if max == 0 || |s| == 0 || !IsDigit(s[0]) then 0 else 1 + LeadingDigits(s[1..], max - 1)
  }

  /** A number of `minWidth` to `maxWidth` digits within `[lo, hi]` at the start of `s`: its value and length. */
  function Number(s: String, minWidth: nat, maxWidth: nat, lo: int, hi: int): (r: Option<(int, nat)>)
    ensures r.Some? ==> minWidth <= r.value.1 <= maxWidth && r.value.1 <= |s| && lo <= r.value.0 <= hi
  {
    var k := LeadingDigits(s, maxWidth);
    if k < minWidth then None
    else
      var v := DigitsValue(s[..k]);
      if lo <= v <= hi then Some((v, k)) else None
  }

  predicate StartsWithIgnoreCase(s: String, p: String)
  {
    |p| <= |s| && forall i :: 0 <= i < |p| ==> LowerChar(s[i]) == LowerChar(p[i])
  }

  /** The first of `names` (from index `k` on) that starts `s`, ignoring case. */
  function NameAt(s: String, names: seq<string>, k: nat): (r: Option<nat>)
    decreases |names| - k
    ensures r.Some? ==> k <= r.value < |names| && StartsWithIgnoreCase(s, names[r.value])
    ensures r.Some? ==> forall j :: k <= j < r.value ==> !StartsWithIgnoreCase(s, names[j])
    ensures r.None? ==> forall j :: k <= j < |names| ==> !StartsWithIgnoreCase(s, names[j])
  {
    if k >= |names| then None
    else if StartsWithIgnoreCase(s, names[k]) then Some(k)
    else NameAt(s, names, k + 1)
  }

  /** A two-digit `%y` year: 69-99 are in the 1900s, 00-68 in the 2000s. */
  function CenturyYear(v: int): int
  {
    if v <= 68 then 2000 + v else 1900 + v
  }

  function SetNumber(d: Directive, f: Fields, v: int): Fields
  {
    match d
    case Day => f.(day := Some(v))
    case Month => f.(month := Some(v))
    case Year4 => f.(year := Some(v))
    case Year2 => f.(year := Some(CenturyYear(v)))
    case Hour24 => f.(hour24 := Some(v))
    case Hour12 => f.(hour12 := Some(v))
    case Minute => f.(minute := Some(v))
    case Second => f.(second := Some(v))
    case _ => f
  }

  /** Width and range of each numeric directive, as in CPython's pattern table. */
  function NumberShape(d: Directive): Option<(nat, nat, int, int)>
  {
    match d
    case Day => Some((1, 2, 1, 31))
    case Month => Some((1, 2, 1, 12))
    case Year4 => Some((4, 4, 0, 9999))
    case Year2 => Some((2, 2, 0, 99))
    case Hour24 => Some((1, 2, 0, 23))
    case Hour12 => Some((1, 2, 1, 12))
    case Minute => Some((1, 2, 0, 59))
    case Second => Some((1, 2, 0, 61))
    case _ => None
  }

  /** Matches the whole of `s` against `ds`, collecting fields into `f`. */
  function Match(ds: seq<Directive>, s: String, f: Fields): Option<Fields>
    decreases |ds|
  {
    if ds == [] then (if s == [] then Some(f) else None)
    else
      var rest := ds[1..];
      match ds[0]
      case Lit(c) =>
        if |s| > 0 && LowerChar(s[0]) == LowerChar(c) then Match(rest, s[1..], f) else None
      case Space =>
        var n := SpaceRun(s);
        if n > 0 then Match(rest, s[n..], f) else None
      case MonthName =>
        (match NameAt(s, MonthNames, 0)
         case None => None
         case Some(k) => Match(rest, s[|MonthNames[k]|..], f.(month := Some(k + 1))))
      case WeekdayName =>
        (match NameAt(s, WeekdayNames, 0)
         case None => None
         case Some(k) => Match(rest, s[|WeekdayNames[k]|..], f))
      case AmPm =>
        if StartsWithIgnoreCase(s, "am") then Match(rest, s[2..], f.(pm := Some(false)))
        else if StartsWithIgnoreCase(s, "pm") then Match(rest, s[2..], f.(pm := Some(true)))
        else None
      case _ =>
        match NumberShape(ds[0])
        case None => None
        case Some(shape) =>
          match Number(s, shape.0, shape.1, shape.2, shape.3)
          case None => None
          case Some(n) => Match(rest, s[n.1..], SetNumber(ds[0], f, n.0))
  }

  /** `%I` with `%p`: 12 AM is hour 0, 12 PM is hour 12; without `%p` the hour is taken as AM. */
  function To24(h12: int, pm: Option<bool>): int
  {
    if pm == Some(true) then (if h12 == 12 then 12 else h12 + 12)
    else (if h12 == 12 then 0 else h12)
  }

  /** The hour as `%I` shows it. */
  function To12(h: int): int
  {
    if h % 12 == 0 then 12 else h % 12
  }

  /** Defaults (1900-01-01 00:00:00) for missing fields, then the `datetime` constructor's range checks. */
  function Build(f: Fields): (r: Result<DateTime>)
    ensures r.Ok? ==> Valid(r.value)
  {
    var hour := if f.hour12.Some? then To24(f.hour12.value, f.pm) else f.hour24.GetOr(0);
    var dt := DateTime(Date(f.year.GetOr(1900), f.month.GetOr(1), f.day.GetOr(1)),
                       Time(hour, f.minute.GetOr(0), f.second.GetOr(0)));
    if Valid(dt) then Ok(dt) else Err("day or second is out of range")
  }

  /** `datetime.strptime(s, fmt)`; `Err` stands for the `ValueError` it raises. */
  function Parse(s: String, fmt: seq<Directive>): (r: Result<DateTime>)
    ensures r.Ok? ==> Valid(r.value)
  {
    match Match(fmt, s, NoFields)
    case None => Err("time data does not match format")
    case Some(f) => Build(f)
  }

  function RenderOne(d: Directive, dt: DateTime): String
    requires Valid(dt)
  {
    match d
    case Lit(c) => [c]
    case Space => " "
    case MonthName => MonthNames[dt.date.month - 1]
    case WeekdayName => WeekdayNames[Weekday(dt.date)]
    case Day => Pad(dt.date.day, 2)
    case Month => Pad(dt.date.month, 2)
    case Year4 => Pad(dt.date.year, 4)
    case Year2 => Pad(dt.date.year % 100, 2)
    case Hour24 => Pad(dt.time.hour, 2)
    case Hour12 => Pad(To12(dt.time.hour), 2)
    case Minute => Pad(dt.time.minute, 2)
    case Second => Pad(dt.time.second, 2)
    case AmPm => if dt.time.hour < 12 then "AM" else "PM"
  }

  function Render(ds: seq<Directive>, dt: DateTime): String
    requires Valid(dt)
  {
    if ds == [] then [] else RenderOne(ds[0], dt) + Render(ds[1..], dt)
  }

  /** `dt.strftime(fmt)` */
  function Format(dt: DateTime, fmt: seq<Directive>): String
    requires Valid(dt)
  {
    Render(fmt, dt)
  }

  /** The fields that matching the rendering of `d` records. */
  function Record(d: Directive, dt: DateTime, f: Fields): Fields
  {
    match d
    case MonthName => f.(month := Some(dt.date.month))
    case AmPm => f.(pm := Some(dt.time.hour >= 12))
    case Year2 => f.(year := Some(CenturyYear(dt.date.year % 100)))
    case Hour12 => f.(hour12 := Some(To12(dt.time.hour)))
    case Day => f.(day := Some(dt.date.day))
    case Month => f.(month := Some(dt.date.month))
    case Year4 => f.(year := Some(dt.date.year))
    case Hour24 => f.(hour24 := Some(dt.time.hour))
    case Minute => f.(minute := Some(dt.time.minute))
    case Second => f.(second := Some(dt.time.second))
    case _ => f
  }

  function RecordAll(ds: seq<Directive>, dt: DateTime, f: Fields): Fields
  {
    if ds == [] then f else RecordAll(ds[1..], dt, Record(ds[0], dt, f))
  }

  /** A whitespace item is never followed by another whitespace item. */
  predicate Separated(ds: seq<Directive>)
  {
    forall i :: 0 <= i < |ds| - 1 && ds[i] == Space ==>
      ds[i + 1] != Space && !(ds[i + 1].Lit? && IsSpace(ds[i + 1].c))
  }

  /** Two separated layouts stay separated when joined, unless a whitespace item meets another. */
  lemma SeparatedAppend(a: seq<Directive>, b: seq<Directive>)
    requires Separated(a) && Separated(b)
    requires |a| > 0 && a[|a| - 1] == Space && |b| > 0 ==> b[0] != Space && !(b[0].Lit? && IsSpace(b[0].c))
    ensures Separated(a + b)
  {
    var s := a + b;
    forall i | 0 <= i < |s| - 1 && s[i] == Space
      ensures s[i + 1] != Space && !(s[i + 1].Lit? && IsSpace(s[i + 1].c))
    {
      if i < |a| - 1 {
        assert s[i] == a[i] && s[i + 1] == a[i + 1];
      } else if i == |a| - 1 {
        assert s[i] == a[i] && s[i + 1] == b[0];
      } else {
        assert s[i] == b[i - |a|] && s[i + 1] == b[i - |a| + 1];
      }
    }
  }

  /** Two names that differ, ignoring case, within their first three characters. */
  predicate DifferEarly(a: string, b: string)
  {
    |a| >= 3 && |b| >= 3 &&
    (LowerChar(a[0]) != LowerChar(b[0]) || LowerChar(a[1]) != LowerChar(b[1]) || LowerChar(a[2]) != LowerChar(b[2]))
  }

  lemma MonthNamesDistinct()
    ensures forall j, k :: 0 <= j < 12 && 0 <= k < 12 && j != k ==> DifferEarly(MonthNames[j], MonthNames[k])
  {
  }

  lemma WeekdayNamesDistinct()
    ensures forall j, k :: 0 <= j < 7 && 0 <= k < 7 && j != k ==> DifferEarly(WeekdayNames[j], WeekdayNames[k])
  {
  }

  /** Matching a rendered name finds that name, because no other name shares its first three letters. */
  lemma NameAtRendered(names: seq<string>, k: nat, rest: String)
    requires k < |names|
    requires forall j :: 0 <= j < |names| && j != k ==> DifferEarly(names[j], names[k])
    ensures NameAt(names[k] + rest, names, 0) == Some(k)
  {
    var s := names[k] + rest;
    assert StartsWithIgnoreCase(s, names[k]);
    forall j | 0 <= j < k
      ensures !StartsWithIgnoreCase(s, names[j])
    {
      assert DifferEarly(names[j], names[k]);
      assert s[0] == names[k][0] && s[1] == names[k][1] && s[2] == names[k][2];
    }
  }

  lemma RenderedStart(d: Directive, dt: DateTime)
    requires Valid(dt) && d != Space && !(d.Lit? && IsSpace(d.c))
    ensures |RenderOne(d, dt)| > 0 && !IsSpace(RenderOne(d, dt)[0])
  {
    match d
    case MonthName =>
    case WeekdayName =>
    case AmPm =>
    case Lit(c) =>
    case Space =>
    case _ =>
      var p := RenderOne(d, dt);
      assert IsDigit(p[0]);
  }

  /** One numeric directive reads back exactly the digits it rendered. */
  lemma NumberRendered(d: Directive, dt: DateTime, rest: String)
    requires Valid(dt) && NumberShape(d).Some?
    ensures var p := RenderOne(d, dt);
            var shape := NumberShape(d).value;
            Number(p + rest, shape.0, shape.1, shape.2, shape.3) == Some((NumberValue(d, dt), |p|))
  {
    var p := RenderOne(d, dt);
    var shape := NumberShape(d).value;
    var v := NumberValue(d, dt);
    Pow10Values();
    PadRoundTrip(v, shape.1);
    assert |p| == shape.1;
    var k := LeadingDigits(p + rest, shape.1);
    assert (p + rest)[..|p|] == p;
    assert k == |p|;
  }

  function NumberValue(d: Directive, dt: DateTime): nat
    requires Valid(dt)
  {
    match d
    case Day => dt.date.day
    case Month => dt.date.month
    case Year4 => dt.date.year
    case Year2 => dt.date.year % 100
    case Hour24 => dt.time.hour
    case Hour12 => To12(dt.time.hour)
    case Minute => dt.time.minute
    case Second => dt.time.second
    case _ => 0
  }

  /** What may follow the rendering of `d` so that matching `d` stops where its rendering ends. */
  predicate FitsAfter(d: Directive, tail: String)
  {
    d == Space ==> tail == [] || !IsSpace(tail[0])
  }

  lemma MatchStep(ds: seq<Directive>, dt: DateTime, f: Fields, tail: String)
    requires Valid(dt) && ds != [] && FitsAfter(ds[0], tail)
    ensures Match(ds, RenderOne(ds[0], dt) + tail, f) == Match(ds[1..], tail, Record(ds[0], dt, f))
  {
    match ds[0]
    case Lit(c) => MatchStepLit(ds, dt, f, tail);
    case Space => MatchStepSpace(ds, dt, f, tail);
    case MonthName => MatchStepMonth(ds, dt, f, tail);
    case WeekdayName => MatchStepWeekday(ds, dt, f, tail);
    case AmPm => MatchStepAmPm(ds, dt, f, tail);
    case _ => MatchStepNumber(ds, dt, f, tail);
  }

  lemma MatchStepLit(ds: seq<Directive>, dt: DateTime, f: Fields, tail: String)
    requires Valid(dt) && ds != [] && ds[0].Lit?
    ensures Match(ds, RenderOne(ds[0], dt) + tail, f) == Match(ds[1..], tail, Record(ds[0], dt, f))
  {
    assert (RenderOne(ds[0], dt) + tail)[1..] == tail;
  }

  lemma MatchStepSpace(ds: seq<Directive>, dt: DateTime, f: Fields, tail: String)
    requires Valid(dt) && ds != [] && ds[0] == Space && FitsAfter(ds[0], tail)
    ensures Match(ds, RenderOne(ds[0], dt) + tail, f) == Match(ds[1..], tail, Record(ds[0], dt, f))
  {
    var s := RenderOne(ds[0], dt) + tail;
    assert SpaceRun(s) == 1;
    assert s[1..] == tail;
  }

  lemma MatchStepMonth(ds: seq<Directive>, dt: DateTime, f: Fields, tail: String)
    requires Valid(dt) && ds != [] && ds[0] == MonthName
    ensures Match(ds, RenderOne(ds[0], dt) + tail, f) == Match(ds[1..], tail, Record(ds[0], dt, f))
  {
    MonthNamesDistinct();
    var k := dt.date.month - 1;
    NameAtRendered(MonthNames, k, tail);
    assert (MonthNames[k] + tail)[|MonthNames[k]|..] == tail;
  }

  lemma MatchStepWeekday(ds: seq<Directive>, dt: DateTime, f: Fields, tail: String)
    requires Valid(dt) && ds != [] && ds[0] == WeekdayName
    ensures Match(ds, RenderOne(ds[0], dt) + tail, f) == Match(ds[1..], tail, Record(ds[0], dt, f))
  {
    WeekdayNamesDistinct();
    var k := Weekday(dt.date);
    NameAtRendered(WeekdayNames, k, tail);
    assert (WeekdayNames[k] + tail)[|WeekdayNames[k]|..] == tail;
  }

  lemma MatchStepAmPm(ds: seq<Directive>, dt: DateTime, f: Fields, tail: String)
    requires Valid(dt) && ds != [] && ds[0] == AmPm
    ensures Match(ds, RenderOne(ds[0], dt) + tail, f) == Match(ds[1..], tail, Record(ds[0], dt, f))
  {
    var s := RenderOne(ds[0], dt) + tail;
    assert s[2..] == tail;
    if dt.time.hour < 12 {
      assert s[0] == 'A' && s[1] == 'M';
      assert StartsWithIgnoreCase(s, "am");
    } else {
      assert s[0] == 'P' && s[1] == 'M';
      assert !StartsWithIgnoreCase(s, "am");
      assert StartsWithIgnoreCase(s, "pm");
    }
  }

  lemma MatchStepNumber(ds: seq<Directive>, dt: DateTime, f: Fields, tail: String)
    requires Valid(dt) && ds != [] && NumberShape(ds[0]).Some?
    ensures Match(ds, RenderOne(ds[0], dt) + tail, f) == Match(ds[1..], tail, Record(ds[0], dt, f))
  {
    var p := RenderOne(ds[0], dt);
    NumberRendered(ds[0], dt, tail);
    assert (p + tail)[|p|..] == tail;
  }

  /** Rendering a datetime with a format and matching the text against the same format recovers its fields. */
  lemma {:induction false} MatchRender(ds: seq<Directive>, dt: DateTime, f: Fields)
    requires Valid(dt) && Separated(ds)
    ensures Match(ds, Render(ds, dt), f) == Some(RecordAll(ds, dt, f))
    decreases |ds|
  {
    if ds != [] {
      var rest := ds[1..];
      var tail := Render(rest, dt);
      assert Separated(rest);
      MatchRender(rest, dt, Record(ds[0], dt, f));
      if ds[0] == Space && rest != [] {
        RenderedStart(rest[0], dt);
      }
      MatchStep(ds, dt, f, tail);
    }
  }

  /*
   * Which fields matching a rendering fills in: a directive's own field, from `dt`,
   * or the field as it was when no directive of that kind occurs.
   */
  lemma {:induction false} RecordAllYear(ds: seq<Directive>, dt: DateTime, f: Fields)
    requires Year2 !in ds
    ensures RecordAll(ds, dt, f).year == (if Year4 in ds then Some(dt.date.year) else f.year)
    decreases |ds|
  {
    if ds != [] {
      var rest := ds[1..];
      RecordAllYear(rest, dt, Record(ds[0], dt, f));
      assert forall d :: d in ds <==> d == ds[0] || d in rest;
    }
  }

  /** With `%y` and no `%Y`, the year is the two-digit year's reading in its century window. */
  lemma {:induction false} RecordAllYear2(ds: seq<Directive>, dt: DateTime, f: Fields)
    requires Year4 !in ds
    ensures RecordAll(ds, dt, f).year == (if Year2 in ds then Some(CenturyYear(dt.date.year % 100)) else f.year)
    decreases |ds|
  {
    if ds != [] {
      var rest := ds[1..];
      RecordAllYear2(rest, dt, Record(ds[0], dt, f));
      assert forall d :: d in ds <==> d == ds[0] || d in rest;
    }
  }

  lemma {:induction false} RecordAllMonth(ds: seq<Directive>, dt: DateTime, f: Fields)
    ensures RecordAll(ds, dt, f).month == (if Month in ds || MonthName in ds then Some(dt.date.month) else f.month)
    decreases |ds|
  {
    if ds != [] {
      var rest := ds[1..];
      RecordAllMonth(rest, dt, Record(ds[0], dt, f));
      assert forall d :: d in ds <==> d == ds[0] || d in rest;
    }
  }

  lemma {:induction false} RecordAllDay(ds: seq<Directive>, dt: DateTime, f: Fields)
    ensures RecordAll(ds, dt, f).day == (if Day in ds then Some(dt.date.day) else f.day)
    decreases |ds|
  {
    if ds != [] {
      var rest := ds[1..];
      RecordAllDay(rest, dt, Record(ds[0], dt, f));
      assert forall d :: d in ds <==> d == ds[0] || d in rest;
    }
  }

  lemma {:induction false} RecordAllHour24(ds: seq<Directive>, dt: DateTime, f: Fields)
    ensures RecordAll(ds, dt, f).hour24 == (if Hour24 in ds then Some(dt.time.hour) else f.hour24)
    decreases |ds|
  {
    if ds != [] {
      var rest := ds[1..];
      RecordAllHour24(rest, dt, Record(ds[0], dt, f));
      assert forall d :: d in ds <==> d == ds[0] || d in rest;
    }
  }

  lemma {:induction false} RecordAllHour12(ds: seq<Directive>, dt: DateTime, f: Fields)
    ensures RecordAll(ds, dt, f).hour12 == (if Hour12 in ds then Some(To12(dt.time.hour)) else f.hour12)
    decreases |ds|
  {
    if ds != [] {
      var rest := ds[1..];
      RecordAllHour12(rest, dt, Record(ds[0], dt, f));
      assert forall d :: d in ds <==> d == ds[0] || d in rest;
    }
  }

  lemma {:induction false} RecordAllMinute(ds: seq<Directive>, dt: DateTime, f: Fields)
    ensures RecordAll(ds, dt, f).minute == (if Minute in ds then Some(dt.time.minute) else f.minute)
    decreases |ds|
  {
    if ds != [] {
      var rest := ds[1..];
      RecordAllMinute(rest, dt, Record(ds[0], dt, f));
      assert forall d :: d in ds <==> d == ds[0] || d in rest;
    }
  }

  lemma {:induction false} RecordAllSecond(ds: seq<Directive>, dt: DateTime, f: Fields)
    ensures RecordAll(ds, dt, f).second == (if Second in ds then Some(dt.time.second) else f.second)
    decreases |ds|
  {
    if ds != [] {
      var rest := ds[1..];
      RecordAllSecond(rest, dt, Record(ds[0], dt, f));
      assert forall d :: d in ds <==> d == ds[0] || d in rest;
    }
  }

  lemma {:induction false} RecordAllPm(ds: seq<Directive>, dt: DateTime, f: Fields)
    ensures RecordAll(ds, dt, f).pm == (if AmPm in ds then Some(dt.time.hour >= 12) else f.pm)
    decreases |ds|
  {
    if ds != [] {
      var rest := ds[1..];
      RecordAllPm(rest, dt, Record(ds[0], dt, f));
      assert forall d :: d in ds <==> d == ds[0] || d in rest;
    }
  }

  lemma RecordAllFields(ds: seq<Directive>, dt: DateTime, f: Fields)
    requires Year2 !in ds
    ensures var r := RecordAll(ds, dt, f);
      && r.year == (if Year4 in ds then Some(dt.date.year) else f.year)
      && r.month == (if Month in ds || MonthName in ds then Some(dt.date.month) else f.month)
      && r.day == (if Day in ds then Some(dt.date.day) else f.day)
      && r.hour24 == (if Hour24 in ds then Some(dt.time.hour) else f.hour24)
      && r.hour12 == (if Hour12 in ds then Some(To12(dt.time.hour)) else f.hour12)
      && r.minute == (if Minute in ds then Some(dt.time.minute) else f.minute)
      && r.second == (if Second in ds then Some(dt.time.second) else f.second)
      && r.pm == (if AmPm in ds then Some(dt.time.hour >= 12) else f.pm)
  {
    RecordAllYear(ds, dt, f);
    RecordAllMonth(ds, dt, f);
    RecordAllDay(ds, dt, f);
    RecordAllHour24(ds, dt, f);
    RecordAllHour12(ds, dt, f);
    RecordAllMinute(ds, dt, f);
    RecordAllSecond(ds, dt, f);
    RecordAllPm(ds, dt, f);
  }

  /** Rendering a concatenation renders each part in turn. */
  lemma {:induction false} RenderAppend(a: seq<Directive>, b: seq<Directive>, dt: DateTime)
    requires Valid(dt)
    ensures Render(a + b, dt) == Render(a, dt) + Render(b, dt)
  {
    if a != [] {
      assert (a + b)[0] == a[0] && (a + b)[1..] == a[1..] + b;
      RenderAppend(a[1..], b, dt);
    } else {
      assert a + b == b;
    }
  }

  /** `"%Y-%m-%dT%H:%M:%S"`, the layout of every time the scrapers hand on. */
  const IsoLayout := [Year4, Lit('-'), Month, Lit('-'), Day, Lit('T'), Hour24, Lit(':'), Minute, Lit(':'), Second]

  /** Formatting a valid datetime as `%Y-%m-%dT%H:%M:%S` and parsing it back gives the same datetime. */
  lemma IsoRoundTrip(dt: DateTime)
    requires Valid(dt)
    ensures Parse(Format(dt, IsoLayout), IsoLayout) == Ok(dt)
  {
    IsoLayoutShape();
    FormatParse(dt, IsoLayout);
  }

  /** `IsoLayout` writes every field once, with the 24-hour clock. */
  lemma IsoLayoutShape()
    ensures Separated(IsoLayout)
    ensures Year4 in IsoLayout && Year2 !in IsoLayout && Month in IsoLayout && Day in IsoLayout
    ensures Hour24 in IsoLayout && Hour12 !in IsoLayout && Minute in IsoLayout && Second in IsoLayout
  {
    assert IsoLayout[0] == Year4 && IsoLayout[2] == Month && IsoLayout[4] == Day;
    assert IsoLayout[6] == Hour24 && IsoLayout[8] == Minute && IsoLayout[10] == Second;
    SpacelessSeparated(IsoLayout);
  }

  /** `"%Y-%m-%d"` */
  const DateLayout := [Year4, Lit('-'), Month, Lit('-'), Day]

  /** `%Y-%m-%d` writes the full date and no time of day. */
  lemma DateLayoutShape()
    ensures Separated(DateLayout)
    ensures Year4 in DateLayout && Year2 !in DateLayout && Month in DateLayout && Day in DateLayout
    ensures Hour24 !in DateLayout && Hour12 !in DateLayout && Minute !in DateLayout && Second !in DateLayout
  {
    assert DateLayout[0] == Year4 && DateLayout[2] == Month && DateLayout[4] == Day;
  }

  /** `"%I:%M%p"` */
  const CompactClock := [Hour12, Lit(':'), Minute, AmPm]

  /** `%I:%M%p` writes the hour, the minute and the half of the day, and nothing else. */
  lemma CompactClockShape()
    ensures Separated(CompactClock) && Hour12 in CompactClock && Minute in CompactClock && AmPm in CompactClock
    ensures Second !in CompactClock && Hour24 !in CompactClock && Year4 !in CompactClock && Year2 !in CompactClock
    ensures Month !in CompactClock && MonthName !in CompactClock && Day !in CompactClock
  {
    assert CompactClock[0] == Hour12 && CompactClock[2] == Minute && CompactClock[3] == AmPm;
    SpacelessSeparated(CompactClock);
  }

  /** A layout without whitespace items is trivially separated. */
  lemma SpacelessSeparated(ds: seq<Directive>)
    requires Space !in ds
    ensures Separated(ds)
  {
    forall i | 0 <= i < |ds| - 1
      ensures ds[i] != Space
    {
      assert ds[i] in ds;
    }
  }

  /** `%I` and `%p` together give back the hour they were rendered from. */
  lemma To24To12(h: int)
    requires 0 <= h <= 23
    ensures To24(To12(h), Some(h >= 12)) == h
  {
  }

  /** What formatting with `fmt` keeps of `dt`: the date, and the time fields `fmt` writes. */
  function Kept(dt: DateTime, fmt: seq<Directive>): DateTime
  {
    DateTime(dt.date, Time(if Hour24 in fmt || Hour12 in fmt then dt.time.hour else 0,
                           if Minute in fmt then dt.time.minute else 0,
                           if Second in fmt then dt.time.second else 0))
  }

  /**
   * Parsing what a format wrote gives back the datetime, less the time fields the
   * format leaves out, for any format that writes the full date and at most one kind of hour.
   */
  lemma FormatParse(dt: DateTime, fmt: seq<Directive>)
    requires Valid(dt) && Separated(fmt)
    requires Year4 in fmt && Year2 !in fmt && (Month in fmt || MonthName in fmt) && Day in fmt
    requires !(Hour24 in fmt && Hour12 in fmt) && (Hour12 in fmt ==> AmPm in fmt)
    ensures Parse(Format(dt, fmt), fmt) == Ok(Kept(dt, fmt))
  {
    MatchRender(fmt, dt, NoFields);
    RecordAllFields(fmt, dt, NoFields);
    To24To12(dt.time.hour);
  }

  /** A successful match consumes some prefix for its first directive and matches the rest after it. */
  lemma MatchHead(ds: seq<Directive>, s: String, f: Fields) returns (j: nat, f2: Fields)
    requires ds != [] && Match(ds, s, f).Some?
    ensures j <= |s| && Match(ds[1..], s[j..], f2) == Match(ds, s, f)
    ensures ds[0] != Second ==> f2.second == f.second
  {
    match ds[0]
    case Lit(c) => j, f2 := 1, f;
    case Space => j, f2 := SpaceRun(s), f;
    case MonthName =>
      var k := NameAt(s, MonthNames, 0).value;
      j, f2 := |MonthNames[k]|, f.(month := Some(k + 1));
    case WeekdayName =>
      var k := NameAt(s, WeekdayNames, 0).value;
      j, f2 := |WeekdayNames[k]|, f;
    case AmPm =>
      j, f2 := 2, f.(pm := Some(!StartsWithIgnoreCase(s, "am")));
    case _ =>
      var shape := NumberShape(ds[0]).value;
      var n := Number(s, shape.0, shape.1, shape.2, shape.3).value;
      j, f2 := n.1, SetNumber(ds[0], f, n.0);
  }

  /** A successful match of `p + t` matches `t` against some suffix of the text. */
  lemma {:induction false} MatchSuffix(p: seq<Directive>, t: seq<Directive>, s: String, f: Fields)
    returns (k: nat, h: Fields)
    requires Match(p + t, s, f).Some?
    ensures k <= |s| && Match(t, s[k..], h) == Match(p + t, s, f)
    ensures NoSecond(p) ==> h.second == f.second
    decreases |p|
  {
    if p == [] {
      EmptyPrefix(p, t, s);
      k, h := 0, f;
    } else {
      var j, f2 := MatchFirst(p, t, s, f);
      var k2, h2 := MatchSuffix(p[1..], t, s[j..], f2);
      assert s[j..][k2..] == s[j + k2..];
      k, h := j + k2, h2;
    }
  }

  /** No `%S` in the directives. */
  predicate NoSecond(p: seq<Directive>)
  {
    p == [] || (p[0] != Second && NoSecond(p[1..]))
  }

  lemma {:induction false} NoSecondIn(p: seq<Directive>)
    requires Second !in p
    ensures NoSecond(p)
  {
    if p != [] {
      assert p[0] in p;
      assert forall d :: d in p[1..] ==> d in p;
      NoSecondIn(p[1..]);
    }
  }

  lemma EmptyPrefix(p: seq<Directive>, t: seq<Directive>, s: String)
    requires p == []
    ensures p + t == t && s[0..] == s
  {
  }

  /** `MatchHead` for a format of the form `p + t` with `p` non-empty. */
  lemma MatchFirst(p: seq<Directive>, t: seq<Directive>, s: String, f: Fields) returns (j: nat, f2: Fields)
    requires p != [] && Match(p + t, s, f).Some?
    ensures j <= |s| && Match(p[1..] + t, s[j..], f2) == Match(p + t, s, f)
    ensures NoSecond(p) ==> f2.second == f.second && NoSecond(p[1..])
  {
    j, f2 := MatchHead(p + t, s, f);
    ConcatParts(p, t);
  }

  lemma ConcatParts(p: seq<Directive>, t: seq<Directive>)
    requires p != []
    ensures (p + t)[1..] == p[1..] + t && (p + t)[0] == p[0]
  {
    assert (p + t)[1..] == p[1..] + t;
    assert p == [p[0]] + p[1..];
  }

  /** `"%B %d, %Y"` */
  const LongDate := [MonthName, Space, Day, Lit(','), Space, Year4]

  /** `"%B %d, %Y %I:%M %p"` */
  const LongDateClock := LongDate + ClockTail

  /** `" %I:%M %p"`, the clock part that ends the scrapers' date-time layouts. */
  const ClockTail := [Space, Hour12, Lit(':'), Minute, Space, AmPm]

  /** `"%I:%M %p"`, a clock without a date. */
  const ClockSide := [Hour12, Lit(':'), Minute, Space, AmPm]

  /** `"%B %d %Y"` */
  const SpacedDate := [MonthName, Space, Day, Space, Year4]

  /** `%B %d %Y` writes the full date and no time. */
  lemma SpacedDateShape()
    ensures Separated(SpacedDate) && Year4 in SpacedDate && Year2 !in SpacedDate && MonthName in SpacedDate && Day in SpacedDate
    ensures Hour24 !in SpacedDate && Hour12 !in SpacedDate && Minute !in SpacedDate && Second !in SpacedDate
  {
    assert SpacedDate[0] == MonthName && SpacedDate[2] == Day && SpacedDate[4] == Year4;
  }

  /** `%B %d, %Y` writes the full date and no time. */
  lemma LongDateShape()
    ensures Separated(LongDate) && Year4 in LongDate && Year2 !in LongDate && MonthName in LongDate && Day in LongDate
    ensures Hour24 !in LongDate && Hour12 !in LongDate && Minute !in LongDate && Second !in LongDate
  {
    assert LongDate[0] == MonthName && LongDate[2] == Day && LongDate[5] == Year4;
  }

  /** `%I:%M %p` writes the hour, the minute and the half of the day, and nothing of the date. */
  lemma ClockSideShape()
    ensures Separated(ClockSide) && Hour12 in ClockSide && Minute in ClockSide && AmPm in ClockSide
    ensures Second !in ClockSide && Hour24 !in ClockSide && Year4 !in ClockSide && Year2 !in ClockSide
    ensures Month !in ClockSide && MonthName !in ClockSide && Day !in ClockSide
  {
    assert ClockSide[0] == Hour12 && ClockSide[2] == Minute && ClockSide[4] == AmPm;
  }

  /** A format writes names, digits, spaces, `AM`/`PM` and its own literals: no other character. */
  lemma {:induction false} RenderLacks(ds: seq<Directive>, dt: DateTime, c: char)
    requires Valid(dt) && Lit(c) !in ds && !IsAlpha(c) && !IsDigit(c) && c != ' '
    ensures c !in Render(ds, dt)
    decreases |ds|
  {
    if ds != [] {
      assert Lit(c) !in ds[1..] by {
        assert forall x :: x in ds[1..] ==> x in ds;
      }
      RenderLacks(ds[1..], dt, c);
      var p := RenderOne(ds[0], dt);
      NamesAlpha();
      assert forall i :: 0 <= i < |p| ==> p[i] != c;
    }
  }

  /** Month and weekday names are letters only. */
  lemma NamesAlpha()
    ensures forall k, i :: 0 <= k < 12 && 0 <= i < |MonthNames[k]| ==> IsAlpha(MonthNames[k][i])
    ensures forall k, i :: 0 <= k < 7 && 0 <= i < |WeekdayNames[k]| ==> IsAlpha(WeekdayNames[k][i])
  {
  }

  const MidnightText: String := " 12:00 AM"

  /** The last `min(|z|, 9)` characters of `z` are those of " 12:00 AM". */
  predicate EndsLikeMidnight(z: String)
  {
    forall i :: 0 <= i < |z| && |z| - 9 <= i ==> z[i] == MidnightText[i - (|z| - 9)]
  }

  lemma MatchSpaceStep(ds: seq<Directive>, s: String, f: Fields)
    requires ds != [] && ds[0] == Space && Match(ds, s, f).Some?
    ensures SpaceRun(s) > 0 && Match(ds, s, f) == Match(ds[1..], s[SpaceRun(s)..], f)
  {
  }

  lemma MatchLitStep(ds: seq<Directive>, s: String, f: Fields)
    requires ds != [] && ds[0].Lit? && Match(ds, s, f).Some?
    ensures |s| > 0 && LowerChar(s[0]) == LowerChar(ds[0].c) && Match(ds, s, f) == Match(ds[1..], s[1..], f)
  {
  }

  /** A one-or-two digit field: the digits it takes and the field it sets. */
  lemma MatchTwoDigitStep(ds: seq<Directive>, s: String, f: Fields)
    requires ds != [] && (ds[0] == Hour12 || ds[0] == Minute) && Match(ds, s, f).Some?
    ensures var k := LeadingDigits(s, 2);
      && 1 <= k && AllDigits(s[..k])
      && Match(ds, s, f) == Match(ds[1..], s[k..], SetNumber(ds[0], f, DigitsValue(s[..k])))
  {
  }

  lemma MatchAmPmStep(ds: seq<Directive>, s: String, f: Fields)
    requires ds != [] && ds[0] == AmPm && Match(ds, s, f).Some?
    ensures |s| >= 2 && Match(ds, s, f) == Match(ds[1..], s[2..], f.(pm := Some(!StartsWithIgnoreCase(s, "am"))))
  {
  }

  /** `" %I:"`: spaces, a one-or-two digit hour, a colon. */
  lemma HourUnroll(t: seq<Directive>, z: String, h: Fields) returns (n1: nat, k1: nat)
    requires |t| >= 3 && t[0] == Space && t[1] == Hour12 && t[2] == Lit(':')
    requires Match(t, z, h).Some?
    ensures 1 <= n1 && 1 <= k1 <= 2 && n1 + k1 + 1 <= |z|
    ensures forall i :: 0 <= i < n1 ==> IsSpace(z[i])
    ensures z[n1 + k1] == ':' && AllDigits(z[n1..n1 + k1])
    ensures Match(t, z, h) == Match(t[3..], z[n1 + k1 + 1..], h.(hour12 := Some(DigitsValue(z[n1..n1 + k1]))))
  {
    MatchSpaceStep(t, z, h);
    n1 := SpaceRun(z);
    var z1 := z[n1..];
    MatchTwoDigitStep(t[1..], z1, h);
    k1 := LeadingDigits(z1, 2);
    var z2 := z1[k1..];
    assert z1[..k1] == z[n1..n1 + k1];
    var h1 := h.(hour12 := Some(DigitsValue(z1[..k1])));
    MatchLitStep(t[2..], z2, h1);
    assert t[2..][1..] == t[3..];
    assert z2[1..] == z[n1 + k1 + 1..];
  }

  /** `"%M %p"`: a one-or-two digit minute, spaces, AM or PM, and nothing after. */
  lemma MinuteUnroll(t: seq<Directive>, z: String, h: Fields) returns (k2: nat, n2: nat)
    requires |t| == 3 && t[0] == Minute && t[1] == Space && t[2] == AmPm
    requires Match(t, z, h).Some?
    ensures 1 <= k2 <= 2 && 1 <= n2 && |z| == k2 + n2 + 2
    ensures forall i :: k2 <= i < k2 + n2 ==> IsSpace(z[i])
    ensures AllDigits(z[..k2])
    ensures Match(t, z, h) == Some(h.(minute := Some(DigitsValue(z[..k2])),
                                      pm := Some(!StartsWithIgnoreCase(z[|z| - 2..], "am"))))
  {
    MatchTwoDigitStep(t, z, h);
    k2 := LeadingDigits(z, 2);
    var z4 := z[k2..];
    var h2 := h.(minute := Some(DigitsValue(z[..k2])));
    n2 := AmPmUnroll(t[1..], z4, h2);
    assert z4[|z4| - 2..] == z[|z| - 2..];
  }

  /** `" %p"`: spaces, then AM or PM, and nothing after. */
  lemma AmPmUnroll(t: seq<Directive>, z: String, h: Fields) returns (n: nat)
    requires |t| == 2 && t[0] == Space && t[1] == AmPm
    requires Match(t, z, h).Some?
    ensures 1 <= n && |z| == n + 2
    ensures forall i :: 0 <= i < n ==> IsSpace(z[i])
    ensures Match(t, z, h) == Some(h.(pm := Some(!StartsWithIgnoreCase(z[|z| - 2..], "am"))))
  {
    MatchSpaceStep(t, z, h);
    n := SpaceRun(z);
    var z5 := z[n..];
    MatchAmPmStep(t[1..], z5, h);
    assert |z5| == 2;
    assert z5 == z[|z| - 2..];
  }

  /** The shape of any text the clock part matches: spaces, an hour, a colon, a minute, spaces, AM or PM. */
  lemma ClockTailUnroll(t: seq<Directive>, z: String, h: Fields) returns (n1: nat, k1: nat, k2: nat, n2: nat)
    requires |t| == 6 && t[0] == Space && t[1] == Hour12 && t[2] == Lit(':') && t[3] == Minute
    requires t[4] == Space && t[5] == AmPm
    requires Match(t, z, h).Some?
    ensures 1 <= n1 && 1 <= k1 <= 2 && 1 <= k2 <= 2 && 1 <= n2
    ensures |z| == n1 + k1 + 1 + k2 + n2 + 2
    ensures forall i :: 0 <= i < n1 ==> IsSpace(z[i])
    ensures z[n1 + k1] == ':'
    ensures forall i :: n1 + k1 + 1 + k2 <= i < n1 + k1 + 1 + k2 + n2 ==> IsSpace(z[i])
    ensures AllDigits(z[n1..n1 + k1]) && AllDigits(z[n1 + k1 + 1..n1 + k1 + 1 + k2])
    ensures Match(t, z, h) == Some(h.(hour12 := Some(DigitsValue(z[n1..n1 + k1])),
                                      minute := Some(DigitsValue(z[n1 + k1 + 1..n1 + k1 + 1 + k2])),
                                      pm := Some(!StartsWithIgnoreCase(z[|z| - 2..], "am"))))
  {
    n1, k1 := HourUnroll(t, z, h);
    var z3 := z[n1 + k1 + 1..];
    var h1 := h.(hour12 := Some(DigitsValue(z[n1..n1 + k1])));
    k2, n2 := MinuteUnroll(t[3..], z3, h1);
    assert z3[..k2] == z[n1 + k1 + 1..n1 + k1 + 1 + k2];
    assert z3[|z3| - 2..] == z[|z| - 2..];
    assert forall i :: k2 <= i < k2 + n2 ==> z3[i] == z[n1 + k1 + 1 + i];
  }

  /**
   * Matching the clock part against text that ends in " 12:00 AM" can only read 12, 00
   * and AM: a shorter hour or minute would need a space or colon where a digit is.
   */
  lemma ClockTailMidnight(t: seq<Directive>, z: String, h: Fields)
    requires |t| == 6 && t[0] == Space && t[1] == Hour12 && t[2] == Lit(':') && t[3] == Minute
    requires t[4] == Space && t[5] == AmPm
    requires Match(t, z, h).Some? && EndsLikeMidnight(z)
    ensures Match(t, z, h) == Some(h.(hour12 := Some(12), minute := Some(0), pm := Some(false)))
  {
    var n1, k1, k2, n2 := ClockTailUnroll(t, z, h);
    ClockTailPositions(z, n1, k1, k2, n2);
    DigitsValues();
    assert StartsWithIgnoreCase(z[|z| - 2..], "am");
  }

  lemma DigitsValues()
    ensures DigitsValue("12") == 12 && DigitsValue("00") == 0
  {
    assert "12"[..1] == "1" && "00"[..1] == "0";
  }

  /** Where each part of the clock must sit in text that ends in " 12:00 AM". */
  lemma ClockTailPositions(z: String, n1: nat, k1: nat, k2: nat, n2: nat)
    requires EndsLikeMidnight(z)
    requires 1 <= n1 && 1 <= k1 <= 2 && 1 <= k2 <= 2 && 1 <= n2
    requires |z| == n1 + k1 + 1 + k2 + n2 + 2
    requires forall i :: 0 <= i < n1 ==> IsSpace(z[i])
    requires z[n1 + k1] == ':'
    requires forall i :: n1 + k1 + 1 + k2 <= i < n1 + k1 + 1 + k2 + n2 ==> IsSpace(z[i])
    ensures k1 == 2 && k2 == 2 && n2 == 1
    ensures z[n1..n1 + 2] == "12" && z[n1 + 3..n1 + 5] == "00" && z[|z| - 2..] == "AM"
  {
    var m := |z|;
    assert z[m - 4] == '0';
    assert n2 == 1;
    assert z[m - 5] == '0';
    assert k2 == 2;
    assert z[m - 8] == '1';
    assert k1 == 2;
    assert z[m - 7] == '2';
    assert z[m - 2] == 'A' && z[m - 1] == 'M';
  }

  lemma SuffixEndsLikeMidnight(d: String, k: nat)
    requires k <= |d + MidnightText|
    ensures EndsLikeMidnight((d + MidnightText)[k..])
  {
    var s := d + MidnightText;
    var z := s[k..];
    forall i | 0 <= i < |z| && |z| - 9 <= i ensures z[i] == MidnightText[i - (|z| - 9)] {
      assert z[i] == s[k + i];
    }
  }

  /**
   * Whatever precedes " 12:00 AM", a successful parse with a layout that ends in the
   * clock part `" %I:%M %p"` (and has no seconds) yields midnight.
   */
  lemma ParseAtMidnight(p: seq<Directive>, d: String)
    requires Second !in p && Parse(d + MidnightText, p + ClockTail).Ok?
    ensures Parse(d + MidnightText, p + ClockTail).value.time == Midnight
  {
    var s := d + MidnightText;
    NoSecondIn(p);
    var k, h := MatchSuffix(p, ClockTail, s, NoFields);
    SuffixEndsLikeMidnight(d, k);
    ClockTailMidnight(ClockTail, s[k..], h);
  }

  /** A format without `%S` leaves the seconds at their default of zero. */
  lemma ParseNoSecond(s: String, fmt: seq<Directive>)
    requires Second !in fmt && Parse(s, fmt).Ok?
    ensures Parse(s, fmt).value.time.second == 0
  {
    assert fmt + [] == fmt;
    NoSecondIn(fmt);
    var k, h := MatchSuffix(fmt, [], s, NoFields);
  }
}

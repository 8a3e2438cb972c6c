/**
 * The Michigan Belle Isle Advisory Committee scraper (harambe_scrapers/mi_belle_isle.py).
 *
 * The current year's table gives one row per meeting (date, time, status or
 * location); agenda and minutes anchors are matched to rows by date; an archive
 * of older minutes adds links to the dates already known. Meetings are kept in a
 * dictionary keyed by the local date, so a later row for the same day replaces
 * the earlier one, and are saved in the dictionary's order at the end.
 *
 * The page is given as values. `dateutil`'s parser is the parameter `dateparse`
 * (`None` where it raises), `urljoin(page.url, ·)` is `join`, and the tz database
 * is `zone`.
 */
module BelleIsle {
  import opened Wrappers
  import opened Text
  import opened Calendar
  import opened Strptime
  import opened Timezone
  import opened Localize
  import opened Keywords

  const StartUrl: String := "https://www.michigan.gov/dnr/about/boards/belle-isle"
  const ScraperName: String := "mi_belle_isle_v2"
  const AgencyName: String := "Michigan Belle Isle Advisory Committee"
  const DefaultTitle: String := "Belle Isle Advisory Committee Meeting"

  /** A `datetime` Python can hold: what `dateparse` returns when it does not raise. */
  type Stamp = dt: DateTime | Valid(dt) witness DateTime(Date(2000, 1, 1), Midnight)

  // ---------------------------------------------------------------- scanning

  /** The first position `k` with `i <= k < n` where `at` holds: the leftmost start `re.search` and `re.findall` report. */
  function Leftmost(n: nat, i: nat, at: nat -> bool): (r: Option<nat>)
    requires i <= n
    decreases n - i
    ensures r.Some? ==> i <= r.value < n && at(r.value)
    ensures forall k :: i <= k < n && (r.None? || k < r.value) ==> !at(k)
  {
    if i == n then None else if at(i) then Some(i) else Leftmost(n, i + 1, at)
  }

  /** No newline in `s[i..k]`: the stretch `.` can match. */
  predicate OneLine(s: String, i: nat, k: nat)
    requires i <= k <= |s|
  {
    forall j :: i <= j < k ==> s[j] != '\n'
  }

  /**
   * `.*?` from `i` followed by the rest of a pattern: the shortest stretch after
   * which the rest matches, never crossing a newline.
   */
  function Lazy(s: String, i: nat, rest: nat -> bool): (r: Option<nat>)
    requires i <= |s|
    decreases |s| - i
    ensures r.Some? ==> i <= r.value <= |s| && OneLine(s, i, r.value) && rest(r.value)
  {
    if rest(i) then Some(i)
    else if i == |s| || s[i] == '\n' then None
    else Lazy(s, i + 1, rest)
  }

  /** No shorter stretch of the line lets the rest match: `.*?` takes the fewest characters it can. */
  lemma {:induction false} LazyShortest(s: String, i: nat, rest: nat -> bool, k: nat)
    requires i <= k <= |s| && OneLine(s, i, k)
    requires Lazy(s, i, rest).None? || k < Lazy(s, i, rest).value
    ensures !rest(k)
    decreases |s| - i
  {
    if k > i {
      assert s[i] != '\n';
      LazyShortest(s, i + 1, rest, k);
    }
  }

  /** The length of the run of class characters from `i`: a greedy `c*`. */
  function RunFrom(s: String, i: nat, cls: char -> bool): (n: nat)
    requires i <= |s|
    decreases |s| - i
    ensures i + n <= |s|
    ensures forall k :: i <= k < i + n ==> cls(s[k])
    ensures i + n < |s| ==> !cls(s[i + n])
  {
    if i < |s| && cls(s[i]) then 1 + RunFrom(s, i + 1, cls) else 0
  }

  predicate IsColon(c: char) { c == ':' }

  // ---------------------------------------------------------------- the date and time cells

  /** The characters `re.sub("[^a-zA-Z,\d\s]", "", ·)` keeps in the date cell. */
  predicate DateChar(c: char) { IsAlpha(c) || c == ',' || IsDigit(c) || IsSpace(c) }

  /** The characters `re.sub("[^a-zA-Z,\d\s:-]", "", ·)` keeps in the time cell. */
  predicate TimeChar(c: char) { DateChar(c) || c == ':' || c == '-' }

  /** "am" or "pm" at `k`. */
  predicate MeridianAt(s: String, k: nat)
  {
    k + 2 <= |s| && (s[k] == 'a' || s[k] == 'p') && s[k + 1] == 'm'
  }

  /** `re.findall("(am|pm)", time_str.lower())[0]`, `None` when the list is empty. */
  function Meridian(timeStr: String): (r: Option<String>)
    ensures r.Some? ==> r.value == "am" || r.value == "pm"
    ensures r.None? <==> forall k :: 0 <= k < |timeStr| ==> !MeridianAt(Lower(timeStr), k)
  {
    var t := Lower(timeStr);
    var at := (k: nat) => MeridianAt(t, k);
    match Leftmost(|t|, 0, at)
    case None =>
      assert forall k :: 0 <= k < |t| ==> !MeridianAt(t, k) by {
        forall k | 0 <= k < |t| ensures !MeridianAt(t, k) { assert !at(k); }
      }
      None
    case Some(k) =>
      assert at(k);
      Some(t[k..k + 2])
  }

  /** The first "am" or "pm" in the lower-cased time decides the meridian. */
  lemma MeridianFirst(timeStr: String, k: nat)
    requires MeridianAt(Lower(timeStr), k)
    requires forall j :: 0 <= j < k ==> !MeridianAt(Lower(timeStr), j)
    ensures Meridian(timeStr) == Some(Lower(timeStr)[k..k + 2])
  {
    var t := Lower(timeStr);
    var at := (j: nat) => MeridianAt(t, j);
    var r := Leftmost(|t|, 0, at);
    assert at(k);
    assert r.Some?;
    assert at(r.value);
    assert r.value == k;
  }

  /** The end of the `\d+:*\d*` token at `p`: digits, then colons, then digits. */
  function TokenEnd(s: String, p: nat): (e: nat)
    requires p <= |s|
    ensures p <= e <= |s|
    ensures forall k :: p <= k < e ==> IsDigit(s[k]) || s[k] == ':'
  {
    var d := RunFrom(s, p, IsDigit);
    var c := RunFrom(s, p + d, IsColon);
    p + d + c + RunFrom(s, p + d + c, IsDigit)
  }

  /** The lookahead `(?=\s*-)` at `e`: optional whitespace, then a hyphen. */
  predicate DashAhead(s: String, e: nat)
  {
    e <= |s| && var w := RunFrom(s, e, IsSpace); e + w < |s| && s[e + w] == '-'
  }

  /** A start time begins at `p`: a digit whose token is followed by `\s*-`. */
  predicate StartAt(s: String, p: nat)
  {
    p < |s| && IsDigit(s[p]) && DashAhead(s, TokenEnd(s, p))
  }

  /**
   * `re.findall("(\d+?:*?\d*?)(?=\s*-)", time_str)[0]`. The lazy items stop at the
   * first end the lookahead accepts, and inside the token no end is accepted
   * (`StartLazyWhole`), so the match is the whole token.
   */
  function StartText(s: String): (r: Option<String>)
    ensures r.Some? ==> |r.value| > 0 && IsDigit(r.value[0])
  {
    var at := (p: nat) => StartAt(s, p);
    match Leftmost(|s|, 0, at)
    case None => None
    case Some(p) =>
      assert at(p);
      Some(s[p..TokenEnd(s, p)])
  }

  /** No proper prefix of a token is followed by `\s*-`: the lazy match takes the whole token. */
  lemma StartLazyWhole(s: String, p: nat, e: nat)
    requires p <= |s| && p < e < TokenEnd(s, p)
    ensures !DashAhead(s, e)
  {
    assert IsDigit(s[e]) || s[e] == ':';
    assert RunFrom(s, e, IsSpace) == 0;
  }

  /** An end time begins at `q`: `(?<=-)\s*` then a digit. */
  predicate EndAt(s: String, q: nat)
  {
    0 < q <= |s| && s[q - 1] == '-' && var w := RunFrom(s, q, IsSpace); q + w < |s| && IsDigit(s[q + w])
  }

  /**
   * `re.findall("((?<=-)\s*)(\d+?:*?\d*)", time_str)[0][1]`: the digits after the
   * first hyphen that is followed by a number. `:*?` takes no colon when nothing
   * after it forces one, so the minutes of the end time are not part of it.
   */
  function EndText(s: String): (r: Option<String>)
    ensures r.Some? ==> |r.value| > 0 && AllDigits(r.value)
  {
    match Leftmost(|s|, 0, (q: nat) => EndAt(s, q))
    case None => None
    case Some(q) =>
      var b := q + RunFrom(s, q, IsSpace);
      Some(s[b..b + RunFrom(s, b, IsDigit)])
  }

  /** `re.search("(\d+)(:\d+)?", time_str).group()`: the first number, with its minutes when a colon and digits follow. */
  function ClockNumber(s: String): (r: Option<String>)
    ensures r.None? <==> forall k :: 0 <= k < |s| ==> !IsDigit(s[k])
    ensures r.Some? ==> |r.value| > 0 && IsDigit(r.value[0])
  {
    var at := (p: nat) => p < |s| && IsDigit(s[p]);
    match Leftmost(|s|, 0, at)
    case None =>
      assert forall k :: 0 <= k < |s| ==> !IsDigit(s[k]) by {
        forall k | 0 <= k < |s| ensures !IsDigit(s[k]) { assert !at(k); }
      }
      None
    case Some(p) =>
      assert at(p);
      var e := p + RunFrom(s, p, IsDigit);
      if e + 1 < |s| && s[e] == ':' && IsDigit(s[e + 1]) then Some(s[p..e + 1 + RunFrom(s, e + 1, IsDigit)])
      else Some(s[p..e])
  }

  /**
   * The start text and, when the time is a range, the end text. `Err` is the
   * `AttributeError` of calling `.group()` on a failed search, which happens when
   * the time has a hyphen and no digit at all.
   */
  function ClockTexts(timeStr: String): (r: Result<Option<(String, Option<String>)>>)
    ensures r.Err? <==> '-' in timeStr && ClockNumber(timeStr).None?
    ensures r == Ok(None) <==> '-' !in timeStr && ClockNumber(timeStr).None?
    ensures r.Ok? && r.value.Some? ==>
      (r.value.value.1.Some? <==> '-' in timeStr && StartText(timeStr).Some? && EndText(timeStr).Some?)
  {
    if '-' in timeStr then
      if StartText(timeStr).Some? && EndText(timeStr).Some? then Ok(Some((StartText(timeStr).value, EndText(timeStr))))
      else if ClockNumber(timeStr).None? then Err("'NoneType' object has no attribute 'group'")
      else Ok(Some((ClockNumber(timeStr).value, None)))
    else if ClockNumber(timeStr).None? then Ok(None)
    else Ok(Some((ClockNumber(timeStr).value, None)))
  }

  /** A row's start and, for a range, its end. */
  datatype Times = Times(start: Stamp, end: Option<Stamp>)

  /** The text handed to `dateparse` for a clock: `f"{date_str} {clock} {meridian_str}"`. */
  function Query(dateStr: String, clock: String, meridian: String): String
  {
    dateStr + " " + clock + " " + meridian
  }

  /** `datetime.combine(day.date(), clock.time())` */
  function At(day: Stamp, clock: Stamp): Stamp
  {
    DateTime(day.date, clock.time)
  }

  /** The end of a range: the end clock parsed with the meridian, on the row's day. */
  function EndStamp(dateStr: String, day: Stamp, endClock: Option<String>, meridian: String,
                    dateparse: String -> Option<Stamp>): (r: Result<Option<Stamp>>)
    ensures r.Ok? && r.value.Some? ==>
      endClock.Some? && dateparse(Query(dateStr, endClock.value, meridian)).Some? &&
      r.value.value == At(day, dateparse(Query(dateStr, endClock.value, meridian)).value)
    ensures r == Ok(None) <==> endClock.None?
  {
    if endClock.None? then Ok(None)
    else match dateparse(Query(dateStr, endClock.value, meridian))
      case None => Err("the end time does not parse")
      case Some(v) => Ok(Some(At(day, v)))
  }

  /**
   * `parse_start_end` once the meridian and the clock texts are read off the
   * filtered time string. `Ok(None)` is the row being skipped; `Err` is an
   * exception escaping the scraper (the clocks are parsed outside the `try`).
   */
  function TimesFrom(dateStr: String, meridian: Option<String>, clocks: Result<Option<(String, Option<String>)>>,
                     dateparse: String -> Option<Stamp>): (r: Result<Option<Times>>)
    ensures r == Ok(None) <==> meridian.None? || dateparse(dateStr).None? || clocks == Ok(None)
    ensures r.Err? ==> meridian.Some? && dateparse(dateStr).Some?
    ensures r.Ok? && r.value.Some? ==>
      clocks.Ok? && clocks.value.Some? &&
      r.value.value.start.date == dateparse(dateStr).value.date &&
      (r.value.value.end.Some? <==> clocks.value.value.1.Some?) &&
      (r.value.value.end.Some? ==> r.value.value.end.value.date == r.value.value.start.date)
  {
    match meridian
    case None => Ok(None)
    case Some(m) =>
      match dateparse(dateStr)
      case None => Ok(None)
      case Some(day) =>
        match clocks
        case Err(e) => Err(e)
        case Ok(None) => Ok(None)
        case Ok(Some((startClock, endClock))) =>
          match EndStamp(dateStr, day, endClock, m, dateparse)
          case Err(e) => Err(e)
          case Ok(end) =>
            match dateparse(Query(dateStr, startClock, m))
            case None => Err("the start time does not parse")
            case Some(v) => Ok(Some(Times(At(day, v), end)))
  }

  /**
   * The same am/pm is appended to both the start and the end clock before they
   * are parsed, and the day comes from the date cell.
   */
  lemma SameMeridian(dateStr: String, meridian: Option<String>, clocks: Result<Option<(String, Option<String>)>>,
                     dateparse: String -> Option<Stamp>)
    requires var r := TimesFrom(dateStr, meridian, clocks, dateparse); r.Ok? && r.value.Some? && r.value.value.end.Some?
    ensures var t := TimesFrom(dateStr, meridian, clocks, dateparse).value.value;
      meridian.Some? && clocks.Ok? && clocks.value.Some? && clocks.value.value.1.Some? &&
      dateparse(Query(dateStr, clocks.value.value.0, meridian.value)).Some? &&
      dateparse(Query(dateStr, clocks.value.value.1.value, meridian.value)).Some? &&
      t.start.time == dateparse(Query(dateStr, clocks.value.value.0, meridian.value)).value.time &&
      t.end.value.time == dateparse(Query(dateStr, clocks.value.value.1.value, meridian.value)).value.time
  {
  }

  /** `parse_start_end` once both cells are present: the date and time strings filtered, then read. */
  function ParseTimes(dateText: String, timeText: String, dateparse: String -> Option<Stamp>): (r: Result<Option<Times>>)
    ensures var dateStr, timeStr := Filter(dateText, DateChar), Filter(timeText, TimeChar);
      (r == Ok(None) <==> Meridian(timeStr).None? || dateparse(dateStr).None? || ('-' !in timeStr && ClockNumber(timeStr).None?)) &&
      (r.Ok? && r.value.Some? ==>
        (r.value.value.end.Some? <==> '-' in timeStr && StartText(timeStr).Some? && EndText(timeStr).Some?))
  {
    var timeStr := Filter(timeText, TimeChar);
    TimesFrom(Filter(dateText, DateChar), Meridian(timeStr), ClockTexts(timeStr), dateparse)
  }

  // ---------------------------------------------------------------- the location cell

  /** A comma: what ends the `.*?` of the name pattern's second group. */
  function CommaRest(s: String): nat -> bool
  {
    (j: nat) => j < |s| && s[j] == ','
  }

  /** `, (\d+ .*?),` at `k`: a comma and a space, digits, a space, then a comma later on the line. */
  predicate NameTailAt(s: String, k: nat)
  {
    k + 2 < |s| && s[k] == ',' && s[k + 1] == ' ' && IsDigit(s[k + 2]) &&
    var e := k + 2 + RunFrom(s, k + 2, IsDigit);
    e < |s| && s[e] == ' ' && Lazy(s, e + 1, CommaRest(s)).Some?
  }

  function NameRest(s: String): nat -> bool
  {
    (k: nat) => NameTailAt(s, k)
  }

  /** `re.match("^(.*?), (\d+ .*?),", text).group(1)`: the shortest first-line prefix followed by ", ", a house number and a later comma. */
  function NameText(s: String): (r: Option<String>)
    ensures r.Some? ==> |r.value| <= |s| && r.value == s[..|r.value|] && NameTailAt(s, |r.value|) && '\n' !in r.value
  {
    match Lazy(s, 0, NameRest(s))
    case None => None
    case Some(k) =>
      assert forall j :: 0 <= j < k ==> s[..k][j] == s[j];
      Some(s[..k])
  }

  /** `, [A-Z]{2} \d{5}` at `j`: the state and ZIP code that end an address. */
  predicate ZipAt(s: String, j: nat)
  {
    j + 10 <= |s| && s[j] == ',' && s[j + 1] == ' ' && IsUpper(s[j + 2]) && IsUpper(s[j + 3]) && s[j + 4] == ' ' &&
    IsDigit(s[j + 5]) && IsDigit(s[j + 6]) && IsDigit(s[j + 7]) && IsDigit(s[j + 8]) && IsDigit(s[j + 9])
  }

  function ZipRest(s: String): nat -> bool
  {
    (k: nat) => ZipAt(s, k)
  }

  /** `, .*?, [A-Z]{2} \d{5}` at `j`: a comma and a space, the city, then the state and ZIP code on the same line. */
  predicate CityAt(s: String, j: nat)
  {
    j + 2 <= |s| && s[j] == ',' && s[j + 1] == ' ' && Lazy(s, j + 2, ZipRest(s)).Some?
  }

  function CityRest(s: String): nat -> bool
  {
    (j: nat) => CityAt(s, j)
  }

  /** `\d+ .*?, .*?, [A-Z]{2} \d{5}` matches at `p`. */
  predicate AddressAt(s: String, p: nat)
  {
    p < |s| && IsDigit(s[p]) &&
    var e := p + RunFrom(s, p, IsDigit);
    e < |s| && s[e] == ' ' && Lazy(s, e + 1, CityRest(s)).Some?
  }

  /** Where the address matched at `p` ends: after the ZIP code the two lazy stretches reach first. */
  function AddressEnd(s: String, p: nat): (e: nat)
    requires AddressAt(s, p)
    ensures p + 11 <= e <= |s| && ZipAt(s, e - 10)
  {
    var d := p + RunFrom(s, p, IsDigit);
    var j := Lazy(s, d + 1, CityRest(s)).value;
    assert CityRest(s)(j);
    var k := Lazy(s, j + 2, ZipRest(s)).value;
    assert ZipRest(s)(k);
    k + 10
  }

  function AddressRest(s: String): nat -> bool
  {
    (p: nat) => AddressAt(s, p)
  }

  /** The leftmost position where the address pattern matches. */
  function AddressStart(s: String): (r: Option<nat>)
    ensures r.Some? ==> AddressAt(s, r.value)
    ensures r.Some? ==> forall k :: 0 <= k < r.value ==> !AddressAt(s, k)
    ensures s == [] ==> r.None?
  {
    var r := Leftmost(|s|, 0, AddressRest(s));
    assert r.Some? ==> AddressRest(s)(r.value);
    forall k | 0 <= k < |s| && (r.None? || k < r.value) ensures !AddressAt(s, k) {
      assert !AddressRest(s)(k);
    }
    r
  }

  /** `re.search("(\d+ .*?, .*?, [A-Z]{2} \d{5})", text).group(1)` */
  function AddressText(s: String): (r: Option<String>)
    ensures r.Some? ==> |r.value| >= 11 && IsDigit(r.value[0]) && Contains(s, r.value)
    ensures r.Some? ==> ZipAt(r.value, |r.value| - 10)
    ensures s == [] ==> r.None?
  {
    match AddressStart(s)
    case None => None
    case Some(p) =>
      var e := AddressEnd(s, p);
      ZipWindow(s, p, e);
      assert OccursAt(s, s[p..e], p);
      Some(s[p..e])
  }

  /** The state and ZIP code that end `s[..e]` also end the window `s[p..e]`. */
  lemma ZipWindow(s: String, p: nat, e: nat)
    requires p + 10 <= e <= |s| && ZipAt(s, e - 10)
    ensures ZipAt(s[p..e], e - p - 10)
  {
  }

  datatype Location = Location(name: Option<String>, address: Option<String>)

  /**
   * `parse_location`: a name and an address when both patterns match (a name
   * that is empty text counts as missing), the address alone, or else the
   * stripped cell as the name; nothing for a missing or blank cell.
   */
  function ParseLocation(cell: Option<String>): (r: Option<Location>)
    ensures r.None? <==> cell.None? || (AddressText(cell.value).None? && Strip(cell.value) == [])
    ensures r.Some? && r.value.address.None? ==> r.value.name == Some(Strip(cell.value)) && Strip(cell.value) != []
    ensures r.Some? && r.value.address.Some? ==>
      r.value.address == AddressText(cell.value) &&
      (r.value.name.Some? <==> NameText(cell.value).Some? && NameText(cell.value).value != []) &&
      (r.value.name.Some? ==> r.value.name == NameText(cell.value))
  {
    if cell.None? || cell.value == [] then None
    else
      var text := cell.value;
      var name, address := NameText(text), AddressText(text);
      if name.Some? && name.value != [] && address.Some? then Some(Location(name, address))
      else if address.Some? then Some(Location(None, address))
      else if Strip(text) != [] then Some(Location(Some(Strip(text)), None))
      else None
  }

  // ---------------------------------------------------------------- agenda and minutes links

  /** An anchor as the page gives it: its `href` attribute, if any, and its inner text. */
  datatype Anchor = Anchor(href: Option<String>, text: String)

  datatype Link = Link(url: String, title: String)

  /** The text an anchor is dated by: " (draft)" dropped and, for an agenda, only what precedes the first " - ". */
  function LinkDateText(text: String, agenda: bool): String
  {
    var t := Replace(text, " (draft)", "");
    if agenda then Split(t, " - ")[0] else t
  }

  /** The date an anchor files its href under: it needs an href and text, and its text must parse. */
  function AnchorDate(a: Anchor, agenda: bool, dateparse: String -> Option<Stamp>): (r: Option<Date>)
    ensures r.Some? ==> a.href.Some? && a.href.value != [] && a.text != []
    ensures r.Some? <==> a.href.Some? && a.href.value != [] && a.text != [] && dateparse(LinkDateText(a.text, agenda)).Some?
  {
    if a.href.None? || a.href.value == [] || a.text == [] then None
    else match dateparse(LinkDateText(a.text, agenda))
      case None => None
      case Some(dt) => Some(dt.date)
  }

  /** The dictionary `parse_links` fills from the anchors in order. */
  function LinkTable(anchors: seq<Anchor>, agenda: bool, dateparse: String -> Option<Stamp>): map<Date, String>
    decreases |anchors|
  {
    if anchors == [] then map[]
    else
      var table := LinkTable(anchors[..|anchors| - 1], agenda, dateparse);
      var a := anchors[|anchors| - 1];
      match AnchorDate(a, agenda, dateparse)
      case None => table
      case Some(d) => table[d := a.href.value]
  }

  /** A date has a link exactly when some anchor is dated by it. */
  lemma {:induction false} LinkTableKeys(anchors: seq<Anchor>, agenda: bool, dateparse: String -> Option<Stamp>, d: Date)
    ensures d in LinkTable(anchors, agenda, dateparse) <==>
      exists i :: 0 <= i < |anchors| && AnchorDate(anchors[i], agenda, dateparse) == Some(d)
    decreases |anchors|
  {
    if anchors != [] {
      var init := anchors[..|anchors| - 1];
      LinkTableKeys(init, agenda, dateparse, d);
      if exists i :: 0 <= i < |init| && AnchorDate(init[i], agenda, dateparse) == Some(d) {
        var i :| 0 <= i < |init| && AnchorDate(init[i], agenda, dateparse) == Some(d);
        assert anchors[i] == init[i];
      }
      if exists i :: 0 <= i < |anchors| && AnchorDate(anchors[i], agenda, dateparse) == Some(d) {
        var i :| 0 <= i < |anchors| && AnchorDate(anchors[i], agenda, dateparse) == Some(d);
        if i < |init| { assert init[i] == anchors[i]; }
      }
    }
  }

  /** A date's link is the href of the last anchor dated by it: later anchors overwrite earlier ones. */
  lemma {:induction false} LinkTableLast(anchors: seq<Anchor>, agenda: bool, dateparse: String -> Option<Stamp>, i: nat)
    requires i < |anchors| && AnchorDate(anchors[i], agenda, dateparse).Some?
    requires forall j :: i < j < |anchors| ==>
      AnchorDate(anchors[j], agenda, dateparse) != AnchorDate(anchors[i], agenda, dateparse)
    ensures var d := AnchorDate(anchors[i], agenda, dateparse).value;
      d in LinkTable(anchors, agenda, dateparse) && LinkTable(anchors, agenda, dateparse)[d] == anchors[i].href.value
    decreases |anchors|
  {
    var init := anchors[..|anchors| - 1];
    if i < |init| {
      assert init[i] == anchors[i];
      forall j | i < j < |init| ensures AnchorDate(init[j], agenda, dateparse) != AnchorDate(init[i], agenda, dateparse) {
        assert init[j] == anchors[j];
      }
      LinkTableLast(init, agenda, dateparse, i);
    }
  }

  /** `parse_links`' loop over one list of anchors: each dated anchor sets its date's href. */
  method ParseLinks(anchors: seq<Anchor>, agenda: bool, dateparse: String -> Option<Stamp>) returns (table: map<Date, String>)
    ensures table == LinkTable(anchors, agenda, dateparse)
  {
    table := map[];
    var i := 0;
    while i < |anchors|
      invariant 0 <= i <= |anchors|
      invariant table == LinkTable(anchors[..i], agenda, dateparse)
    {
      var a := anchors[i];
      if a.href.Some? && a.href.value != [] && a.text != [] {
        var parsed := dateparse(LinkDateText(a.text, agenda));
        if parsed.Some? {
          table := table[parsed.value.date := a.href.value];
        }
      }
      assert anchors[..i + 1][..i] == anchors[..i];
      i := i + 1;
    }
    assert anchors[..i] == anchors;
  }

  /**
   * `match_links`: the agenda and then the minutes filed under the meeting's
   * date, each joined to the page URL.
   */
  function MatchLinks(day: Date, agendas: map<Date, String>, minutes: map<Date, String>, join: String -> String): (r: seq<Link>)
    ensures |r| <= 2
    ensures forall l :: l in r ==>
      (l.title == "Agenda" && day in agendas && l.url == join(agendas[day])) ||
      (l.title == "Minutes" && day in minutes && l.url == join(minutes[day]))
    ensures |r| == (if day in agendas then 1 else 0) + (if day in minutes then 1 else 0)
    ensures day in agendas ==> r[0] == Link(join(agendas[day]), "Agenda")
    ensures day in minutes ==> r[|r| - 1] == Link(join(minutes[day]), "Minutes")
  {
    (if day in agendas then [Link(join(agendas[day]), "Agenda")] else []) +
    (if day in minutes then [Link(join(minutes[day]), "Minutes")] else [])
  }

  // ---------------------------------------------------------------- rows of the schedule table

  /** A table row: the inner texts of its first three cells, `None` for a cell the row lacks. */
  datatype Row = Row(dateCell: Option<String>, timeCell: Option<String>, thirdCell: Option<String>)

  /** `parse_start_end(row)`: no meeting when the date or the time cell is missing. */
  function ParseStartEnd(row: Row, dateparse: String -> Option<Stamp>): (r: Result<Option<Times>>)
    ensures row.dateCell.None? || row.timeCell.None? ==> r == Ok(None)
    ensures row.dateCell.Some? && row.timeCell.Some? ==> r == ParseTimes(row.dateCell.value, row.timeCell.value, dateparse)
  {
    if row.dateCell.None? || row.timeCell.None? then Ok(None)
    else ParseTimes(row.dateCell.value, row.timeCell.value, dateparse)
  }

  /** The third cell's text, "TBD" when the row has no third cell; it becomes the description. */
  function Status(row: Row): String
  {
    row.thirdCell.GetOr("TBD")
  }

  /** A row is cancelled when its status mentions "cancel" in any letter case. */
  function IsCancelled(row: Row): (r: bool)
    ensures row.thirdCell.None? ==> !r
    ensures r <==> Contains(Lower(Status(row)), "cancel")
  {
    var status := Lower(Status(row));
    assert row.thirdCell.None? ==> status == "tbd" && !Contains(status, "cancel");
    Contains(status, "cancel")
  }

  /** The keyword table of `parse_classification`, in its order ("commission" maps to "COMMISION"). */
  const ClassificationTable: seq<Rule> := [
    Rule("advisory", "ADVISORY"), Rule("committee", "COMMITTEE"), Rule("board", "BOARD"),
    Rule("commission", "COMMISION"), Rule("public meeting", "PUBLIC"), Rule("policy meeting", "POLICY"),
    Rule("community", "COMMUNITY"), Rule("annual", "ANNUAL"), Rule("cbo", "CBO")]

  /** `parse_classification(title, "")`: the title lower-cased, with an empty description. */
  function Classify(title: String): Option<String>
  {
    FirstMatch(ClassificationTable, [Lower(title), ""])
  }

  /** A title mentioning "advisory" is ADVISORY, whatever else it mentions. */
  lemma AdvisoryFirst(title: String)
    requires Contains(Lower(title), "advisory")
    ensures Classify(title) == Some("ADVISORY")
  {
    var texts := [Lower(title), ""];
    assert Contains(texts[0], ClassificationTable[0].keyword);
    FirstMatchAt(ClassificationTable, texts, 0);
  }

  /** The table spells the commission class "COMMISION", so no title is classified "COMMISSION". */
  lemma NeverCommission(title: String)
    ensures Classify(title) != Some("COMMISSION")
  {
    forall i | 0 <= i < |ClassificationTable| ensures ClassificationTable[i].value != "COMMISSION" {
      assert |ClassificationTable[i].value| != |"COMMISSION"|;
    }
    FirstMatchNever(ClassificationTable, [Lower(title), ""], "COMMISSION");
  }

  /** The dictionary value `current_year_meetings` stores for one row. */
  datatype Entry = Entry(title: String, description: String, classification: Option<String>,
                         startTime: String, endTime: Option<String>, location: Option<Location>,
                         links: seq<Link>, isCancelled: bool)

  /**
   * One pass of the row loop: `Err` for an exception out of `parse_start_end`,
   * `None` for a skipped row, otherwise the date key and the entry stored
   * under it. `agendas` and `minutes` are the two tables `parse_links` builds.
   */
  function RowEntry(row: Row, title: String, agendas: map<Date, String>, minutes: map<Date, String>,
                    dateparse: String -> Option<Stamp>, join: String -> String,
                    zone: DateTime -> DetroitOffset): (r: Result<Option<(String, Entry)>>)
    ensures r.Err? <==> ParseStartEnd(row, dateparse).Err?
    ensures r == Ok(None) <==> ParseStartEnd(row, dateparse) == Ok(None)
  {
    match ParseStartEnd(row, dateparse)
    case Err(e) => Err(e)
    case Ok(None) => Ok(None)
    case Ok(Some(t)) =>
      var start := Localized(t.start, zone);
      var end := if t.end.Some? then Some(Localized(t.end.value, zone)) else None;
      var entry := Entry(title, Status(row), Classify(title), start, end, ParseLocation(row.thirdCell),
                         MatchLinks(t.start.date, agendas, minutes, join), IsCancelled(row));
      Ok(Some((Split(start, "T")[0], entry)))
  }

  /** The all-day rule the save loop applies to a stored start time. */
  predicate AllDay(startTime: String)
  {
    EndsWith(startTime, "T00:00:00-05:00") || EndsWith(startTime, "T00:00:00-04:00")
  }

  /**
   * A row with a start is stored under its start's `%Y-%m-%d` date, with the
   * localised start and end, and it is all-day exactly when it starts at midnight.
   */
  lemma RowStored(row: Row, title: String, agendas: map<Date, String>, minutes: map<Date, String>,
                  dateparse: String -> Option<Stamp>, join: String -> String,
                  zone: DateTime -> DetroitOffset, t: Times)
    requires ParseStartEnd(row, dateparse) == Ok(Some(t))
    ensures var r := RowEntry(row, title, agendas, minutes, dateparse, join, zone);
      r.Ok? && r.value.Some? && r.value.value.0 == Format(t.start, DateLayout) &&
      r.value.value.1.startTime == Localized(t.start, zone) &&
      (r.value.value.1.endTime.Some? <==> t.end.Some?) &&
      (t.end.Some? ==> r.value.value.1.endTime == Some(Localized(t.end.value, zone))) &&
      (AllDay(r.value.value.1.startTime) <==> t.start.time == Midnight) &&
      r.value.value.1.links == MatchLinks(t.start.date, agendas, minutes, join) &&
      r.value.value.1.location == ParseLocation(row.thirdCell) &&
      r.value.value.1.isCancelled == Contains(Lower(Status(row)), "cancel")
  {
    LocalizedDate(t.start, zone);
    LocalizedMidnight(t.start, zone);
  }

  /** `RowEntry` for the rows of one page. */
  function RowOutcomes(title: String, agendas: map<Date, String>, minutes: map<Date, String>,
                       dateparse: String -> Option<Stamp>, join: String -> String,
                       zone: DateTime -> DetroitOffset): Row -> Result<Option<(String, Entry)>>
  {
    row => RowEntry(row, title, agendas, minutes, dateparse, join, zone)
  }

  // ---------------------------------------------------------------- the date-keyed meeting dictionary

  /** `meeting_dict` as a value: its keys in insertion order and its entries. */
  datatype Dict = Dict(keys: seq<String>, entries: map<String, Entry>)

  const EmptyDict := Dict([], map[])

  /** A Python dict: the key list holds every key of the map, and each once. */
  predicate Keyed(d: Dict)
  {
    (forall k :: k in d.entries ==> k in d.keys) && (forall k :: k in d.keys ==> k in d.entries) &&
    (forall i, j :: 0 <= i < j < |d.keys| ==> d.keys[i] != d.keys[j])
  }

  /** `meeting_dict[k] = e`: a new key goes last, an existing key keeps its place and gets the new entry. */
  function Stored(d: Dict, k: String, e: Entry): (r: Dict)
    ensures Keyed(d) ==> Keyed(r)
    ensures k in r.entries && r.entries[k] == e
    ensures forall k' :: k' != k ==> (k' in r.entries <==> k' in d.entries)
    ensures forall k' :: k' != k && k' in d.entries ==> r.entries[k'] == d.entries[k']
    ensures Keyed(d) && k in d.entries ==> r.keys == d.keys
    ensures Keyed(d) && k !in d.entries ==> r.keys == d.keys + [k]
  {
    if k in d.entries then Dict(d.keys, d.entries[k := e])
    else Dict(d.keys + [k], d.entries[k := e])
  }

  /** `meeting_dict[k]["links"] = meeting_dict[k]["links"] + [link]` for a key already present. */
  function WithLink(d: Dict, k: String, link: Link): (r: Dict)
    requires k in d.entries
    ensures Keyed(d) ==> Keyed(r)
    ensures r.keys == d.keys && r.entries.Keys == d.entries.Keys
    ensures r.entries[k].links == d.entries[k].links + [link]
    ensures r.entries[k].(links := []) == d.entries[k].(links := [])
    ensures forall k' :: k' != k && k' in d.entries ==> r.entries[k'] == d.entries[k']
  {
    Dict(d.keys, d.entries[k := d.entries[k].(links := d.entries[k].links + [link])])
  }

  /** The dictionary after the rows so far, and the error that stopped the row loop. */
  datatype Filing = Filing(dict: Dict, error: Option<String>)

  /**
   * The row loop of `current_year_meetings` from the dictionary `d`: each row
   * with a start is stored under its date key, and an exception stops the loop;
   * `outcome` is what one row gives (`RowOutcomes` of the page).
   */
  function Filed(d: Dict, rows: seq<Row>, outcome: Row -> Result<Option<(String, Entry)>>): Filing
  {
    if rows == [] then Filing(d, None)
    else
      var f := Filed(d, rows[..|rows| - 1], outcome);
      if f.error.Some? then f
      else
        match outcome(rows[|rows| - 1])
        case Err(e) => Filing(f.dict, Some(e))
        case Ok(None) => f
        case Ok(Some(ke)) => Filing(Stored(f.dict, ke.0, ke.1), None)
  }

  /** The row loop keeps the dictionary a dictionary. */
  lemma {:induction false} FiledKeyed(d: Dict, rows: seq<Row>, outcome: Row -> Result<Option<(String, Entry)>>)
    requires Keyed(d)
    ensures Keyed(Filed(d, rows, outcome).dict)
    decreases |rows|
  {
    if rows != [] {
      FiledKeyed(d, rows[..|rows| - 1], outcome);
    }
  }

  /** Without an error, a key is present exactly when it was present before or some row was stored under it. */
  lemma {:induction false} FiledKeys(d: Dict, rows: seq<Row>, outcome: Row -> Result<Option<(String, Entry)>>, k: String)
    requires Filed(d, rows, outcome).error.None?
    ensures k in Filed(d, rows, outcome).dict.entries <==>
      k in d.entries || (exists i :: 0 <= i < |rows| && outcome(rows[i]).Ok? && outcome(rows[i]).value.Some? &&
                                     outcome(rows[i]).value.value.0 == k)
    decreases |rows|
  {
    if rows != [] {
      var init := rows[..|rows| - 1];
      FiledKeys(d, init, outcome, k);
      if exists i :: 0 <= i < |init| && outcome(init[i]).Ok? && outcome(init[i]).value.Some? && outcome(init[i]).value.value.0 == k {
        var i :| 0 <= i < |init| && outcome(init[i]).Ok? && outcome(init[i]).value.Some? && outcome(init[i]).value.value.0 == k;
        assert rows[i] == init[i];
      }
      if exists i :: 0 <= i < |rows| && outcome(rows[i]).Ok? && outcome(rows[i]).value.Some? && outcome(rows[i]).value.value.0 == k {
        var i :| 0 <= i < |rows| && outcome(rows[i]).Ok? && outcome(rows[i]).value.Some? && outcome(rows[i]).value.value.0 == k;
        if i < |init| { assert init[i] == rows[i]; }
      }
    }
  }

  /** A key's entry is the one from the last row stored under it: a later row with the same date replaces an earlier one. */
  lemma {:induction false} LaterRowWins(d: Dict, rows: seq<Row>, outcome: Row -> Result<Option<(String, Entry)>>,
                                        i: nat, k: String, e: Entry)
    requires Filed(d, rows, outcome).error.None?
    requires i < |rows| && outcome(rows[i]) == Ok(Some((k, e)))
    requires forall j :: i < j < |rows| && outcome(rows[j]).Ok? && outcome(rows[j]).value.Some? ==>
      outcome(rows[j]).value.value.0 != k
    ensures k in Filed(d, rows, outcome).dict.entries && Filed(d, rows, outcome).dict.entries[k] == e
    decreases |rows|
  {
    var init := rows[..|rows| - 1];
    if i < |init| {
      assert init[i] == rows[i];
      forall j | i < j < |init| && outcome(init[j]).Ok? && outcome(init[j]).value.Some?
        ensures outcome(init[j]).value.value.0 != k
      {
        assert init[j] == rows[j];
      }
      LaterRowWins(d, init, outcome, i, k, e);
    }
  }

  /** The filing of one more row. */
  lemma FiledStep(d: Dict, rows: seq<Row>, i: nat, outcome: Row -> Result<Option<(String, Entry)>>)
    requires i < |rows| && Filed(d, rows[..i], outcome).error.None?
    ensures var f := Filed(d, rows[..i], outcome);
      Filed(d, rows[..i + 1], outcome) ==
        match outcome(rows[i])
        case Err(e) => Filing(f.dict, Some(e))
        case Ok(None) => f
        case Ok(Some(ke)) => Filing(Stored(f.dict, ke.0, ke.1), None)
  {
    assert rows[..i + 1][..i] == rows[..i];
  }

  /** Once a prefix of the rows has failed, the later rows change nothing. */
  lemma {:induction false} FiledStops(d: Dict, rows: seq<Row>, k: nat, outcome: Row -> Result<Option<(String, Entry)>>)
    requires k <= |rows| && Filed(d, rows[..k], outcome).error.Some?
    ensures Filed(d, rows, outcome) == Filed(d, rows[..k], outcome)
    decreases |rows| - k
  {
    if k < |rows| {
      assert rows[..k + 1][..k] == rows[..k];
      FiledStops(d, rows, k + 1, outcome);
    } else {
      assert rows[..k] == rows;
    }
  }

  // ---------------------------------------------------------------- archived minutes

  /** `convert_date`'s clean-up: "(draft)" dropped, "Feb." spelled out, surrounding white space stripped. */
  function ArchiveText(text: String): String
  {
    Strip(Replace(Replace(text, "(draft)", ""), "Feb.", "February"))
  }

  /** The date in an archive link's text, read with `%B %d, %Y`; `None` for the `ValueError`. */
  function ArchiveDate(text: String): (r: Option<Stamp>)
    ensures r.None? <==> Parse(ArchiveText(text), LongDate).Err?
    ensures r.Some? ==> r.value == Parse(ArchiveText(text), LongDate).value
  {
    match Parse(ArchiveText(text), LongDate)
    case Err(_) => None
    case Ok(dt) => var stamp: Stamp := dt; Some(stamp)
  }

  /**
   * The key an archive date is filed under: `change_timezone` of its
   * `"%Y-%m-%dT00:00:00"` text, cut at the "T" — the same date written `%Y-%m-%d`,
   * the key a row on that date has.
   */
  function ArchiveKey(dt: Stamp, zone: DateTime -> DetroitOffset): (r: String)
    ensures r == Format(dt, DateLayout)
  {
    var midnight := DateTime(dt.date, Midnight);
    MidnightIso(dt);
    LocalizedChange(midnight, zone);
    LocalizedDate(midnight, zone);
    DateNested(dt, []);
    DateNested(midnight, []);
    assert Format(dt, DateLayout) + [] == Format(dt, DateLayout);
    assert Format(midnight, DateLayout) + [] == Format(midnight, DateLayout);
    Split(ChangeTimezone(Format(dt, DateLayout) + "T00:00:00", zone).value, "T")[0]
  }

  /** What one archive anchor contributes: the date key and a "Minutes" link, or nothing when its text is not a date. */
  function ArchiveLink(a: Anchor, join: String -> String, zone: DateTime -> DetroitOffset): (r: Option<(String, Link)>)
    ensures r.None? <==> Parse(ArchiveText(a.text), LongDate).Err?
    ensures r.Some? ==> r.value.0 == Format(Parse(ArchiveText(a.text), LongDate).value, DateLayout) &&
                        r.value.1 == Link(join(a.href.GetOr([])), "Minutes")
  {
    match ArchiveDate(a.text)
    case None => None
    case Some(dt) => Some((ArchiveKey(dt, zone), Link(join(a.href.GetOr([])), "Minutes")))
  }

  /** `ArchiveLink` for one page. */
  function ArchiveLinks(join: String -> String, zone: DateTime -> DetroitOffset): Anchor -> Option<(String, Link)>
  {
    a => ArchiveLink(a, join, zone)
  }

  /**
   * `archive_meetings` on the dictionary `d`: each dated anchor appends its
   * link to the entry of its date, when there is one; an unknown date creates
   * nothing, and nothing but links changes.
   */
  function Archived(d: Dict, anchors: seq<Anchor>, link: Anchor -> Option<(String, Link)>): Dict
    decreases |anchors|
  {
    if anchors == [] then d
    else
      var p := Archived(d, anchors[..|anchors| - 1], link);
      match link(anchors[|anchors| - 1])
      case None => p
      case Some(kl) => if kl.0 in p.entries then WithLink(p, kl.0, kl.1) else p
  }

  /** The archive pass creates no date and changes nothing but links, which only grow. */
  lemma {:induction false} ArchiveNeverCreates(d: Dict, anchors: seq<Anchor>, link: Anchor -> Option<(String, Link)>)
    ensures var r := Archived(d, anchors, link);
      (Keyed(d) ==> Keyed(r)) && r.keys == d.keys && r.entries.Keys == d.entries.Keys &&
      forall k :: k in d.entries ==>
        r.entries[k].(links := []) == d.entries[k].(links := []) && d.entries[k].links <= r.entries[k].links
    decreases |anchors|
  {
    if anchors != [] {
      ArchiveNeverCreates(d, anchors[..|anchors| - 1], link);
    }
  }

  /** The archive links a date's entry gains are the links of the anchors filed under that date, in anchor order. */
  function LinksFor(anchors: seq<Anchor>, link: Anchor -> Option<(String, Link)>, k: String): seq<Link>
    decreases |anchors|
  {
    if anchors == [] then []
    else
      var more := LinksFor(anchors[..|anchors| - 1], link, k);
      match link(anchors[|anchors| - 1])
      case Some(kl) => if kl.0 == k then more + [kl.1] else more
      case None => more
  }

  /** An entry's links after the archive pass are its own links followed by the links of its date's anchors. */
  lemma {:induction false} ArchivedLinks(d: Dict, anchors: seq<Anchor>, link: Anchor -> Option<(String, Link)>, k: String)
    requires k in d.entries
    ensures k in Archived(d, anchors, link).entries
    ensures Archived(d, anchors, link).entries[k].links == d.entries[k].links + LinksFor(anchors, link, k)
    decreases |anchors|
  {
    if anchors != [] {
      ArchivedLinks(d, anchors[..|anchors| - 1], link, k);
    }
  }

  /** The step of `Archived` for one more anchor. */
  lemma ArchivedStep(d: Dict, anchors: seq<Anchor>, i: nat, link: Anchor -> Option<(String, Link)>)
    requires i < |anchors|
    ensures var p := Archived(d, anchors[..i], link);
      Archived(d, anchors[..i + 1], link) ==
        match link(anchors[i])
        case None => p
        case Some(kl) => if kl.0 in p.entries then WithLink(p, kl.0, kl.1) else p
  {
    assert anchors[..i + 1][..i] == anchors[..i];
  }

  // ---------------------------------------------------------------- the saved records

  /**
   * What `create_ocd_event` receives for one dictionary entry; the scraper and
   * agency names, time zone and source URL are the same constants for every meeting.
   */
  datatype Event = Event(meeting: Entry, allDay: bool)

  /** The records of the final loop, one per key in insertion order. */
  function Events(keys: seq<String>, entries: map<String, Entry>): (r: seq<Event>)
    requires forall k :: k in keys ==> k in entries
    ensures |r| == |keys|
    ensures forall i :: 0 <= i < |keys| ==>
      r[i].meeting == entries[keys[i]] && (r[i].allDay <==> AllDay(entries[keys[i]].startTime))
    decreases |keys|
  {
    if keys == [] then []
    else
      var e := entries[keys[|keys| - 1]];
      Events(keys[..|keys| - 1], entries) + [Event(e, AllDay(e.startTime))]
  }

  /** The records for one more key. */
  lemma EventsStep(keys: seq<String>, entries: map<String, Entry>, i: nat)
    requires i < |keys| && forall k :: k in keys ==> k in entries
    ensures Events(keys[..i + 1], entries) == Events(keys[..i], entries) + [Event(entries[keys[i]], AllDay(entries[keys[i]].startTime))]
  {
    assert keys[..i + 1][..i] == keys[..i];
    assert keys[..i + 1][i] == keys[i];
  }

  // ---------------------------------------------------------------- the scraper runs

  /** `meeting_dict`, filled by the row loop and extended by the archive loop. */
  class MeetingDict {
    var keys: seq<String>
    var entries: map<String, Entry>

    function Value(): Dict
      reads this
    {
      Dict(keys, entries)
    }

    constructor()
      ensures Value() == EmptyDict
    {
      keys := [];
      entries := map[];
    }

    /** `meeting_dict[k] = e` */
    method Store(k: String, e: Entry)
      modifies this
      ensures Value() == Stored(old(Value()), k, e)
    {
      if k !in entries {
        keys := keys + [k];
      }
      entries := entries[k := e];
    }

    /** `meeting_dict[k]["links"] = meeting_dict[k]["links"] + [link]` */
    method AddLink(k: String, link: Link)
      requires k in entries
      modifies this
      ensures Value() == WithLink(old(Value()), k, link)
    {
      entries := entries[k := entries[k].(links := entries[k].links + [link])];
    }
  }

  /** The records handed to `sdk.save_data`, in order. */
  class Sdk {
    var saved: seq<Event>

    constructor()
      ensures saved == []
    {
      saved := [];
    }

    /** `sdk.save_data(meeting)` */
    method SaveData(e: Event)
      modifies this
      ensures saved == old(saved) + [e]
    {
      saved := saved + [e];
    }
  }

  /**
   * The row loop of `current_year_meetings`: `row` is the loop body up to the
   * dictionary assignment (`RowOutcomes` of the page); an exception ends the loop.
   */
  method CurrentYearMeetings(dict: MeetingDict, rows: seq<Row>, row: Row -> Result<Option<(String, Entry)>>)
    returns (error: Option<String>)
    modifies dict
    ensures var f := Filed(old(dict.Value()), rows, row);
      dict.Value() == f.dict && error == f.error
  {
    ghost var start := dict.Value();
    var i := 0;
    while i < |rows|
      invariant 0 <= i <= |rows|
      invariant Filed(start, rows[..i], row) == Filing(dict.Value(), None)
    {
      var r := row(rows[i]);
      FiledStep(start, rows, i, row);
      if r.Err? {
        FiledStops(start, rows, i + 1, row);
        return Some(r.error);
      }
      if r.value.Some? {
        dict.Store(r.value.value.0, r.value.value.1);
      }
      i := i + 1;
    }
    assert rows[..i] == rows;
    return None;
  }

  /** The loop of `archive_meetings`: `link` is what one anchor gives (`ArchiveLinks` of the page). */
  method ArchiveMeetings(dict: MeetingDict, anchors: seq<Anchor>, link: Anchor -> Option<(String, Link)>)
    modifies dict
    ensures dict.Value() == Archived(old(dict.Value()), anchors, link)
  {
    ghost var start := dict.Value();
    var i := 0;
    while i < |anchors|
      invariant 0 <= i <= |anchors|
      invariant dict.Value() == Archived(start, anchors[..i], link)
    {
      var found := link(anchors[i]);
      ArchivedStep(start, anchors, i, link);
      if found.Some? && found.value.0 in dict.entries {
        dict.AddLink(found.value.0, found.value.1);
      }
      i := i + 1;
    }
    assert anchors[..i] == anchors;
  }

  /** The final loop: one record per dictionary entry, in insertion order. */
  method SaveMeetings(sdk: Sdk, dict: MeetingDict)
    requires Keyed(dict.Value())
    modifies sdk
    ensures sdk.saved == old(sdk.saved) + Events(dict.keys, dict.entries)
  {
    var keys := dict.keys;
    var i := 0;
    while i < |keys|
      invariant 0 <= i <= |keys|
      invariant sdk.saved == old(sdk.saved) + Events(keys[..i], dict.entries)
    {
      var e := dict.entries[keys[i]];
      EventsStep(keys, dict.entries, i);
      sdk.SaveData(Event(e, AllDay(e.startTime)));
      i := i + 1;
    }
    assert keys[..i] == keys;
  }

  /** The page as the scraper reads it: the table rows, the navigation title and the three groups of anchors. */
  datatype Page = Page(rows: seq<Row>, navTitle: Option<String>, agendaAnchors: seq<Anchor>,
                       minutesAnchors: seq<Anchor>, archiveAnchors: seq<Anchor>)

  /** The navigation title, or the committee's default title when the page has none. */
  function Title(page: Page): String
  {
    page.navTitle.GetOr(DefaultTitle)
  }

  /** The dictionary the row loop builds from a page. */
  function PageFiling(page: Page, dateparse: String -> Option<Stamp>, join: String -> String,
                      zone: DateTime -> DetroitOffset): Filing
  {
    var agendas, minutes := LinkTable(page.agendaAnchors, true, dateparse), LinkTable(page.minutesAnchors, false, dateparse);
    Filed(EmptyDict, page.rows, RowOutcomes(Title(page), agendas, minutes, dateparse, join, zone))
  }

  /**
   * `scrape`: fill the dictionary from the rows, add the archived minutes, then
   * save one record per date; an exception in the row loop saves nothing.
   */
  method Scrape(sdk: Sdk, page: Page, dateparse: String -> Option<Stamp>, join: String -> String,
                zone: DateTime -> DetroitOffset) returns (error: Option<String>)
    modifies sdk
    ensures var f := PageFiling(page, dateparse, join, zone);
      error == f.error &&
      (error.Some? ==> sdk.saved == old(sdk.saved)) &&
      (error.None? ==>
        var d := Archived(f.dict, page.archiveAnchors, ArchiveLinks(join, zone));
        Keyed(d) && sdk.saved == old(sdk.saved) + Events(d.keys, d.entries))
  {
    var dict := new MeetingDict();
    var agendas := ParseLinks(page.agendaAnchors, true, dateparse);
    var minutes := ParseLinks(page.minutesAnchors, false, dateparse);
    var title := page.navTitle.GetOr(DefaultTitle);
    var rows := RowOutcomes(title, agendas, minutes, dateparse, join, zone);
    error := CurrentYearMeetings(dict, page.rows, rows);
    if error.Some? {
      return;
    }
    FiledKeyed(EmptyDict, page.rows, rows);
    ArchiveNeverCreates(dict.Value(), page.archiveAnchors, ArchiveLinks(join, zone));
    ArchiveMeetings(dict, page.archiveAnchors, ArchiveLinks(join, zone));
    SaveMeetings(sdk, dict);
  }
}

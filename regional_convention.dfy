/**
 * The Detroit Regional Convention Facility Authority spider. Each report link on
 * the meetings page is one meeting, dated from the numbers in the report's file
 * name. A link whose file name does not hold exactly three numbers raises the
 * spider's `_ignore` flag and its meeting is built but not yielded.
 */
module RegionalConvention {
  import opened Wrappers
  import opened Text
  import opened Numbers
  import opened Calendar
  import opened Classification
  import opened Items

  /** A report link's `href` and `title` attributes (either may be missing). */
  datatype Anchor = Anchor(href: Option<String>, title: Option<String>)

  datatype Meeting = Meeting(title: String, description: String, classification: Classification,
                             start: DateTime, end: Option<DateTime>, allDay: bool, timeNotes: String,
                             location: Place, links: seq<Link>)

  /**
   * `_parse_title`. The backslash continuation inside the source's string literal
   * keeps the next line's indentation, so nine spaces separate "Regional" and "Convention".
   */
  const BoardTitle := "Boards of directors of Detroit Regional         Convention Facility Authority"
  const StartTime := Time(8, 30, 0)
  const Location := Place("Cobo Conference and Exhibition Center", "1 Washington Blvd, Detroit, MI 48226")

  const NoAttribute := "IndexError: list index out of range"
  const BadDate := "ValueError: date value out of range"

  /** `href.split("/")[-1]`: the text after the last "/", or all of it. */
  function ReportName(href: String): (r: String)
    ensures '/' !in r && EndsWith(href, r)
    ensures |r| < |href| ==> href[|href| - |r| - 1] == '/'
  {
    LastPiece(href, '/')
  }

  /** Whatever precedes the last "/", the report name is the part after it. */
  lemma ReportNameOf(prefix: String, name: String)
    requires '/' !in name
    ensures ReportName(prefix + "/" + name) == name
  {
    LastPieceOf(prefix, '/', name);
  }

  /** The file name with "-" and "_" turned into ".", split at ".". */
  function Tokens(href: String): (r: seq<String>)
    ensures forall k :: 0 <= k < |r| ==> '.' !in r[k] && '-' !in r[k] && '_' !in r[k] && '/' !in r[k]
  {
    var name := ReportName(href);
    var dotted := Replace(Replace(name, "-", "."), "_", ".");
    ReplaceRemovesChar(name, '-', ".");
    ReplaceKeepsAbsent(Replace(name, "-", "."), "_", ".", '-');
    ReplaceRemovesChar(Replace(name, "-", "."), '_', ".");
    ReplaceKeepsAbsent(name, "-", ".", '/');
    ReplaceKeepsAbsent(Replace(name, "-", "."), "_", ".", '/');
    var r := Split(dotted, ".");
    SplitPiecesFree(dotted, ".");
    forall k | 0 <= k < |r| ensures '.' !in r[k] && '-' !in r[k] && '_' !in r[k] && '/' !in r[k] {
      CharContains(r[k], '.');
      SplitPieceChars(dotted, ".", k, '-');
      SplitPieceChars(dotted, ".", k, '_');
      SplitPieceChars(dotted, ".", k, '/');
    }
    r
  }

  /** `str.isdigit()` restricted to ASCII: at least one character, all digits. */
  predicate IsNumber(t: String) { |t| > 0 && AllDigits(t) }

  /** `[int(t) for t in tokens if t.isdigit()]` */
  function DateNumbers(tokens: seq<String>): (r: seq<nat>)
    ensures |r| <= |tokens|
  {
    if tokens == [] then []
    else (if IsNumber(tokens[0]) then [DigitsValue(tokens[0])] else []) + DateNumbers(tokens[1..])
  }

  /** `2000 + int(str(n)[:2])`: the century is fixed and only the first two digits count. */
  function Year(n: nat): (r: nat)
    ensures 2000 <= r <= 2099
  {
    var s := PyPrefix(NatToString(n), 2);
    assert AllDigits(s) by {
      forall i | 0 <= i < |s| ensures IsDigit(s[i]) { assert s[i] == NatToString(n)[i]; }
    }
    TwoDigitsBelow100(s);
    2000 + DigitsValue(s)
  }

  lemma TwoDigitsBelow100(s: String)
    requires |s| <= 2 && AllDigits(s)
    ensures DigitsValue(s) <= 99
  {
    if |s| == 2 {
      assert DigitsValue(s[..1]) <= 9 by { assert s[..1][..0] == []; }
    }
  }

  /** A one- or two-digit year is taken as that year of the 2000s. */
  lemma YearShort(n: nat)
    requires n < 100
    ensures Year(n) == 2000 + n
  {
    var s := NatToString(n);
    NatToStringLength(n, 2);
    NatToStringValue(n);
    assert PyPrefix(s, 2) == s[..|s|] == s;
  }

  /** A four-digit year loses its last two digits: 2015 is read as 2020. */
  lemma YearLong(n: nat)
    requires 1000 <= n < 10000
    ensures Year(n) == 2000 + n / 100
  {
    var s := NatToString(n);
    assert s == NatToString(n / 10) + [DigitChar(n % 10)];
    assert NatToString(n / 10) == NatToString(n / 100) + [DigitChar(n / 10 % 10)];
    NatToStringLength(n / 100, 2);
    NatToStringLong(n / 100, 1);
    assert s[..2] == NatToString(n / 100);
    NatToStringValue(n / 100);
  }

  /**
   * `_parse_start`: with exactly three numbers, month, day and year at 08:30, or the
   * `ValueError` `datetime` raises for an impossible date; `None` (the item is
   * ignored) for any other count.
   */
  function StartOf(href: String): (r: Option<Result<DateTime>>)
    ensures var ns := DateNumbers(Tokens(href));
      r.None? <==> |ns| != 3
    ensures var ns := DateNumbers(Tokens(href));
      r.Some? && r.value.Ok? <==> |ns| == 3 && ValidDate(Date(Year(ns[2]), ns[0], ns[1]))
    ensures var ns := DateNumbers(Tokens(href));
      r.Some? && r.value.Ok? ==> r.value.value == DateTime(Date(Year(ns[2]), ns[0], ns[1]), StartTime)
  {
    var ns := DateNumbers(Tokens(href));
    if |ns| == 3 then
      var d := Date(Year(ns[2]), ns[0], ns[1]);
      if ValidDate(d) then Some(Ok(DateTime(d, StartTime))) else Some(Err(BadDate))
    else None
  }

  /** A file-name piece without any of the separators. */
  predicate Plain(t: String)
  {
    '/' !in t && '-' !in t && '_' !in t && '.' !in t
  }

  /** A report file name of the form word-month-day-year.ext. */
  function NamedReport(word: String, m: String, d: String, y: String, ext: String): String
  {
    word + "-" + (m + "-" + (d + "-" + (y + "." + ext)))
  }

  /** Such a name, after any prefix ending in "/", splits into its five pieces. */
  lemma NamedReportTokens(prefix: String, word: String, m: String, d: String, y: String, ext: String)
    requires Plain(word) && Plain(m) && Plain(d) && Plain(y) && Plain(ext)
    ensures Tokens(prefix + "/" + NamedReport(word, m, d, y, ext)) == [word, m, d, y, ext]
  {
    var name := NamedReport(word, m, d, y, ext);
    ReportNameOf(prefix, name);
    DashesToDots(word, m, d, y + "." + ext);
    var dotted := word + "." + (m + "." + (d + "." + (y + "." + ext)));
    CharContains(dotted, '_');
    ReplaceAbsent(dotted, "_", ".");
    DotsSplit(word, m, d, y, ext);
  }

  /**
   * A report named like "Approved-Minutes-1-29-15.pdf" (a word that is not a number,
   * then month, day and year, then an extension) is dated from its three numbers.
   */
  lemma NamedReportDate(prefix: String, word: String, m: String, d: String, y: String, ext: String)
    requires Plain(word) && Plain(m) && Plain(d) && Plain(y) && Plain(ext)
    requires !IsNumber(word) && !IsNumber(ext) && IsNumber(m) && IsNumber(d) && IsNumber(y)
    ensures var date := Date(Year(DigitsValue(y)), DigitsValue(m), DigitsValue(d));
      ValidDate(date) ==>
        StartOf(prefix + "/" + NamedReport(word, m, d, y, ext)) == Some(Ok(DateTime(date, StartTime)))
  {
    NamedReportTokens(prefix, word, m, d, y, ext);
    ReportNumbers(word, m, d, y, ext);
    TokensStart(prefix + "/" + NamedReport(word, m, d, y, ext), [DigitsValue(m), DigitsValue(d), DigitsValue(y)]);
  }

  /** Only the three middle tokens are numbers. */
  lemma ReportNumbers(word: String, m: String, d: String, y: String, ext: String)
    requires !IsNumber(word) && !IsNumber(ext) && IsNumber(m) && IsNumber(d) && IsNumber(y)
    ensures DateNumbers([word, m, d, y, ext]) == [DigitsValue(m), DigitsValue(d), DigitsValue(y)]
  {
    var tokens := [word, m, d, y, ext];
    assert tokens[1..][1..] == tokens[2..] && tokens[2..][1..] == tokens[3..];
    assert tokens[3..][1..] == tokens[4..] && tokens[4..][1..] == [];
    assert DateNumbers(tokens[4..]) == [];
    assert DateNumbers(tokens[3..]) == [DigitsValue(y)];
    assert DateNumbers(tokens[2..]) == [DigitsValue(d), DigitsValue(y)];
    assert DateNumbers(tokens[1..]) == [DigitsValue(m), DigitsValue(d), DigitsValue(y)];
  }

  /** An address whose tokens hold exactly three numbers is dated by them, when they make a date. */
  lemma TokensStart(href: String, ns: seq<nat>)
    requires DateNumbers(Tokens(href)) == ns && |ns| == 3
    ensures var date := Date(Year(ns[2]), ns[0], ns[1]);
      ValidDate(date) ==> StartOf(href) == Some(Ok(DateTime(date, StartTime)))
  {
  }

  lemma DashesToDots(word: String, m: String, d: String, tail: String)
    requires '-' !in word && '-' !in m && '-' !in d && '-' !in tail
    ensures Replace(word + "-" + (m + "-" + (d + "-" + tail)), "-", ".") == word + "." + (m + "." + (d + "." + tail))
  {
    var s3 := d + "-" + tail;
    var s2 := m + "-" + s3;
    CharContains(tail, '-');
    SplitWithout(tail, "-");
    SplitPrepend(d, '-', tail, [tail]);
    SplitPrepend(m, '-', s3, [d, tail]);
    SplitPrepend(word, '-', s2, [m, d, tail]);
    var dashed := [word, m, d, tail];
    JoinCons(d, ".", [tail]);
    JoinCons(m, ".", dashed[2..]);
    JoinCons(word, ".", dashed[1..]);
  }

  lemma DotsSplit(word: String, m: String, d: String, y: String, ext: String)
    requires '.' !in word && '.' !in m && '.' !in d && '.' !in y && '.' !in ext
    ensures Split(word + "." + (m + "." + (d + "." + (y + "." + ext))), ".") == [word, m, d, y, ext]
  {
    var s4 := y + "." + ext;
    var s3 := d + "." + s4;
    var s2 := m + "." + s3;
    CharContains(ext, '.');
    SplitWithout(ext, ".");
    SplitPrepend(y, '.', ext, [ext]);
    SplitPrepend(d, '.', s4, [y, ext]);
    SplitPrepend(m, '.', s3, [d, y, ext]);
    SplitPrepend(word, '.', s2, [m, d, y, ext]);
  }

  /** `_parse_links`: the report itself, titled by its `title` attribute. */
  function LinksOf(item: Anchor): (r: Result<seq<Link>>)
    ensures r.Ok? <==> item.href.Some? && item.title.Some?
    ensures r.Ok? ==> r.value == [Link(item.href.value, item.title.value)]
  {
    if item.href.None? || item.title.None? then Err(NoAttribute)
    else Ok([Link(item.href.value, item.title.value)])
  }

  /** The item raises the `_ignore` flag: its report name does not hold three numbers. */
  predicate Ignored(item: Anchor)
  {
    item.href.Some? && StartOf(item.href.value).None?
  }

  /**
   * One pass of the loop in `parse`: the meeting to yield, `None` when the item is
   * ignored, or the exception building the meeting raised. The fields are evaluated
   * in order, so a missing `href` or a bad date raises before a missing `title`.
   */
  function ItemMeeting(item: Anchor): (r: Result<Option<Meeting>>)
    ensures r.Ok? && r.value.None? <==> Ignored(item) && item.title.Some?
  {
    match item.href
    case None => Err(NoAttribute)
    case Some(href) =>
      match StartOf(href)
      case Some(Err(e)) => Err(e)
      case Some(Ok(start)) =>
        (match LinksOf(item)
         case Err(e) => Err(e)
         case Ok(links) => Ok(Some(Meeting(BoardTitle, "", Board, start, None, false, "", Location, links))))
      case None =>
        match LinksOf(item)
        case Err(e) => Err(e)
        case Ok(_) => Ok(None)
  }

  /** How the parts of a meeting decide what the item gives. */
  lemma ItemMeetingCases(item: Anchor)
    ensures item.href.None? ==> ItemMeeting(item) == Err(NoAttribute)
    ensures item.href.Some? && StartOf(item.href.value).Some? && StartOf(item.href.value).value.Err? ==>
      ItemMeeting(item) == Err(StartOf(item.href.value).value.error)
    ensures item.href.Some? && (StartOf(item.href.value).None? || StartOf(item.href.value).value.Ok?) ==>
      ItemMeeting(item) ==
        if LinksOf(item).Err? then Err(LinksOf(item).error)
        else if StartOf(item.href.value).None? then Ok(None)
        else Ok(Some(Meeting(BoardTitle, "", Board, StartOf(item.href.value).value.value, None, false, "",
                             Location, LinksOf(item).value)))
  {
  }

  /** What one item adds to the output: its meeting, or nothing when it is ignored. */
  function Found(m: Option<Meeting>): seq<Meeting>
  {
    if m.Some? then [m.value] else []
  }

  /** The meetings `ms` yielded before the run `y`. */
  function After(ms: seq<Meeting>, y: (seq<Meeting>, Option<String>)): (seq<Meeting>, Option<String>)
  {
    (ms + y.0, y.1)
  }

  /** The meetings `parse` yields, and the exception that ended it, if any. */
  function Yielded(items: seq<Anchor>): (seq<Meeting>, Option<String>)
    decreases |items|
  {
    if items == [] then ([], None)
    else
      match ItemMeeting(items[0])
      case Err(e) => ([], Some(e))
      case Ok(m) => After(Found(m), Yielded(items[1..]))
  }

  /**
   * Every meeting yielded is dated from its report's three numbers, in the 2000s,
   * at 08:30, and links that report alone.
   */
  lemma {:induction false} YieldedDated(items: seq<Anchor>)
    ensures forall m :: m in Yielded(items).0 ==>
      m.start.time == StartTime && ValidDate(m.start.date) && 2000 <= m.start.date.year <= 2099 &&
      |m.links| == 1 && m.title == BoardTitle && m.end.None?
    decreases |items|
  {
    if items != [] {
      YieldedDated(items[1..]);
    }
  }

  /** An ignored item is never yielded, and it does not stop the items after it. */
  lemma IgnoredSkipped(item: Anchor, rest: seq<Anchor>)
    requires Ignored(item) && item.title.Some?
    ensures Yielded([item] + rest) == Yielded(rest)
  {
    assert ([item] + rest)[1..] == rest;
    assert [] + Yielded(rest).0 == Yielded(rest).0;
  }

  /** One pass of the loop, seen from the spec of the remaining items. */
  lemma YieldedStep(items: seq<Anchor>, i: nat)
    requires i < |items|
    ensures ItemMeeting(items[i]).Err? ==> Yielded(items[i..]) == ([], Some(ItemMeeting(items[i]).error))
    ensures ItemMeeting(items[i]).Ok? ==>
      Yielded(items[i..]) == After(Found(ItemMeeting(items[i]).value), Yielded(items[i + 1..]))
  {
    assert items[i..][0] == items[i] && items[i..][1..] == items[i + 1..];
  }

  lemma AfterAfter(a: seq<Meeting>, b: seq<Meeting>, y: (seq<Meeting>, Option<String>))
    ensures After(a, After(b, y)) == After(a + b, y)
  {
    assert a + (b + y.0) == a + b + y.0;
  }

  class Spider {
    /** `_ignore`: set by `_parse_start` when the report name is not a date. */
    var ignore: bool

    constructor()
      ensures !ignore
    {
      ignore := false;
    }

    /** `_parse_start`; an undated report raises the flag and starts at `now`. */
    method ParseStart(item: Anchor, now: DateTime) returns (r: Result<DateTime>)
      modifies this
      ensures item.href.None? ==> r == Err(NoAttribute) && ignore == old(ignore)
      ensures Ignored(item) ==> r == Ok(now) && ignore
      ensures item.href.Some? && !Ignored(item) ==> r == StartOf(item.href.value).value && ignore == old(ignore)
    {
      if item.href.None? {
        return Err(NoAttribute);
      }
      var start := StartOf(item.href.value);
      if start.None? {
        ignore := true;
        return Ok(now);
      }
      return start.value;
    }

    /** The loop body of `parse`: lower the flag, build the meeting, then read the flag. */
    method ParseItem(item: Anchor, now: DateTime) returns (r: Result<Option<Meeting>>)
      modifies this
      ensures r == ItemMeeting(item)
      ensures r.Ok? ==> ignore == Ignored(item)
    {
      ignore := false;
      ItemMeetingCases(item);
      var start := ParseStart(item, now);
      if start.Err? {
        return Err(start.error);
      }
      var links := LinksOf(item);
      if links.Err? {
        return Err(links.error);
      }
      var meeting := Meeting(BoardTitle, "", Board, start.value, None, false, "", Location, links.value);
      if ignore {
        return Ok(None);
      }
      return Ok(Some(meeting));
    }

    /** `parse`: one pass of the loop body per report link, stopping at the first exception. */
    method Parse(items: seq<Anchor>, now: DateTime) returns (meetings: seq<Meeting>, failure: Option<String>)
      modifies this
      ensures (meetings, failure) == Yielded(items)
    {
      meetings, failure := [], None;
      var i := 0;
      assert items[0..] == items && [] + Yielded(items).0 == Yielded(items).0;
      while i < |items|
        invariant 0 <= i <= |items|
        invariant Yielded(items) == After(meetings, Yielded(items[i..]))
      {
        YieldedStep(items, i);
        var r := ParseItem(items[i], now);
        if r.Err? {
          failure := Some(r.error);
          assert meetings + [] == meetings;
          return;
        }
        AfterAfter(meetings, Found(r.value), Yielded(items[i + 1..]));
        meetings := meetings + Found(r.value);
        i := i + 1;
      }
      assert items[i..] == [];
      assert meetings + [] == meetings;
    }
  }
}

/**
 * The Michigan Independent Citizens Redistricting Commission spider. The documents
 * page is read first, and every document link is filed under a day. Then each
 * paragraph of the meetings page (a date line followed by detail lines) gives one
 * meeting per non-blank detail line, and each meeting carries the links filed
 * under its day.
 *
 * `dateutil`'s parser is foreign: `dateOf` and `timeOf` stand for
 * `dateparse(s).date()` and `dateparse(s).time()`, with `None` where it raises.
 * `response.urljoin` is the parameter `join`.
 */
module MiRedistricting {
  import opened Wrappers
  import opened Text
  import opened Calendar
  import opened Strptime
  import opened Regex
  import opened Classification
  import opened Items

  /** A calendar day, as Python's `date` objects always are. */
  type Day = d: Date | ValidDate(d) witness Date(2000, 1, 1)

  /** One paragraph or block of the documents page. */
  datatype Line = Line(text: Option<String>, link: Option<Anchor>)

  /**
   * The line's anchors, when it has any: the first text node inside them and the
   * first anchor's `href` attribute (either may be missing).
   */
  datatype Anchor = Anchor(text: Option<String>, href: Option<String>)

  /** What the documents loop carries from line to line. */
  datatype DocState = DocState(docs: map<String, seq<Link>>, lastDate: Option<Day>)

  datatype Meeting = Meeting(title: String, description: String, classification: Classification,
                             start: DateTime, end: Option<DateTime>, location: Place, links: seq<Link>)

  /** Meetings yielded, the exception that ended the generator (if any), and the document map afterwards. */
  datatype Run = Run(meetings: seq<Meeting>, failure: Option<String>, docs: map<String, seq<Link>>)

  const Location := Place("Remote", "")

  const NoText := "TypeError: expected string or bytes-like object"
  const NoHref := "KeyError: 'href'"
  const BadDate := "ParserError: String does not contain a date"
  const BadTime := "ParserError: String does not contain a time"
  const NoDateLine := "ValueError: not enough values to unpack"

  // ---- `_parse_document_date` ----

  /** `[A-Z][a-z]{2,9}\.? \d\d?,? \d{2,4}`, as in "Nov. 10, 2020". */
  const MonthDayYear: Pattern :=
    [One(IsUpper), Rep(IsLower, 2, 9), Opt(c => c == '.'), One(c => c == ' '),
     One(IsDigit), Opt(IsDigit), Opt(c => c == ','), One(c => c == ' '), Rep(IsDigit, 2, 4)]

  /** `\d\d?[\.-]\d\d?[\.-]\d{2,4}`, as in "11.10.2020" or "11-10-20". */
  const DottedDate: Pattern :=
    [One(IsDigit), Opt(IsDigit), One(c => c == '.' || c == '-'),
     One(IsDigit), Opt(IsDigit), One(c => c == '.' || c == '-'), Rep(IsDigit, 2, 4)]

  /** `\d\d?/\d\d?/\d{2,4}`, as in "11/10/2020". */
  const SlashDate: Pattern :=
    [One(IsDigit), Opt(IsDigit), One(c => c == '/'),
     One(IsDigit), Opt(IsDigit), One(c => c == '/'), Rep(IsDigit, 2, 4)]

  /** `dateparse(text).date()`, raising when the parser rejects the text. */
  function ParsedDate(dateOf: String -> Option<Day>, text: String): (r: Result<Option<Day>>)
    ensures r.Ok? <==> dateOf(text).Some?
    ensures r.Ok? ==> r.value == dateOf(text)
  {
    match dateOf(text)
    case Some(d) => Ok(Some(d))
    case None => Err(BadDate)
  }

  /**
   * `_parse_document_date`: after collapsing whitespace, the leftmost "Month D, YYYY"
   * text, else the leftmost "D.D.YYYY"/"D-D-YYYY" text, else the leftmost "D/D/YYYY"
   * text, parsed; `None` when no pattern occurs.
   */
  function DocumentDate(text: String, dateOf: String -> Option<Day>): (r: Result<Option<Day>>)
    ensures r == Ok(None) <==>
      NoFitFrom(MonthDayYear, CollapseSpaces(text), 0) && NoFitFrom(DottedDate, CollapseSpaces(text), 0) &&
      NoFitFrom(SlashDate, CollapseSpaces(text), 0)
  {
    var clean := CollapseSpaces(text);
    SearchLeftmost(MonthDayYear, clean);
    SearchLeftmost(DottedDate, clean);
    SearchLeftmost(SlashDate, clean);
    match Search(MonthDayYear, clean)
    case Some(m) => ParsedDate(dateOf, Group(clean, m))
    case None =>
      match Search(DottedDate, clean)
      case Some(m) => ParsedDate(dateOf, Group(clean, m))
      case None =>
        match Search(SlashDate, clean)
        case Some(m) => ParsedDate(dateOf, Group(clean, m))
        case None => Ok(None)
  }

  /** `r` is the parse of the text of a fit of `p` in `s` that starts further left than any other. */
  ghost predicate LeftmostParsed(p: Pattern, s: String, dateOf: String -> Option<Day>, r: Result<Option<Day>>)
  {
    exists j: nat, ends: seq<nat> ::
      j <= |s| && Ordered(j, ends, |s|) && Fits(p, s, j, ends) &&
      (forall i: nat, e: seq<nat> :: i < j && Fits(p, s, i, e) ==> false) &&
      r == ParsedDate(dateOf, Group(s, (j, ends)))
  }

  /**
   * The patterns are tried in order of priority: a "Month D, YYYY" text anywhere in
   * the line wins over a dotted or dashed date, which wins over a slashed date.
   */
  lemma DatePriority(text: String, dateOf: String -> Option<Day>)
    ensures var s := CollapseSpaces(text);
      !NoFitFrom(MonthDayYear, s, 0) ==> LeftmostParsed(MonthDayYear, s, dateOf, DocumentDate(text, dateOf))
    ensures var s := CollapseSpaces(text);
      NoFitFrom(MonthDayYear, s, 0) && !NoFitFrom(DottedDate, s, 0) ==>
        LeftmostParsed(DottedDate, s, dateOf, DocumentDate(text, dateOf))
    ensures var s := CollapseSpaces(text);
      NoFitFrom(MonthDayYear, s, 0) && NoFitFrom(DottedDate, s, 0) && !NoFitFrom(SlashDate, s, 0) ==>
        LeftmostParsed(SlashDate, s, dateOf, DocumentDate(text, dateOf))
  {
    var s := CollapseSpaces(text);
    SearchLeftmost(MonthDayYear, s);
    SearchLeftmost(DottedDate, s);
    SearchLeftmost(SlashDate, s);
    var r := DocumentDate(text, dateOf);
    if Search(MonthDayYear, s).Some? {
      var m := Search(MonthDayYear, s).value;
      assert r == ParsedDate(dateOf, Group(s, m));
      assert LeftmostParsed(MonthDayYear, s, dateOf, r) by {
        var j: nat, ends := m.0, m.1;
        assert j <= |s| && Ordered(j, ends, |s|) && Fits(MonthDayYear, s, j, ends);
      }
    } else if Search(DottedDate, s).Some? {
      var m := Search(DottedDate, s).value;
      assert r == ParsedDate(dateOf, Group(s, m));
      assert LeftmostParsed(DottedDate, s, dateOf, r) by {
        var j: nat, ends := m.0, m.1;
        assert j <= |s| && Ordered(j, ends, |s|) && Fits(DottedDate, s, j, ends);
      }
    } else if Search(SlashDate, s).Some? {
      var m := Search(SlashDate, s).value;
      assert r == ParsedDate(dateOf, Group(s, m));
      assert LeftmostParsed(SlashDate, s, dateOf, r) by {
        var j: nat, ends := m.0, m.1;
        assert j <= |s| && Ordered(j, ends, |s|) && Fits(SlashDate, s, j, ends);
      }
    }
  }

  // ---- `_parse_documents` ----

  /** `doc_date`: the date in the line's first text node; `re.sub` raises on a line without text. */
  function LineDate(line: Line, dateOf: String -> Option<Day>): (r: Result<Option<Day>>)
    ensures line.text.None? ==> r.Err?
    ensures line.text.Some? ==> r == DocumentDate(line.text.value, dateOf)
  {
    match line.text
    case None => Err(NoText)
    case Some(t) => DocumentDate(t, dateOf)
  }

  /** The line's date, forgetting why it has none. */
  function Dated(line: Line, dateOf: String -> Option<Day>): Option<Day>
  {
    match LineDate(line, dateOf)
    case Ok(d) => d
    case Err(_) => None
  }

  /** `"%Y-%m-%d"`, the key of the document map. */
  function DayKey(d: Date): String
    requires ValidDate(d)
  {
    Format(DateTime(d, Midnight), DateLayout)
  }

  /** Distinct valid days get distinct keys, so a lookup finds exactly one day's links. */
  lemma DayKeyInjective(d1: Date, d2: Date)
    requires ValidDate(d1) && ValidDate(d2)
    ensures DayKey(d1) == DayKey(d2) ==> d1 == d2
  {
    DateLayoutShape();
    FormatParse(DateTime(d1, Midnight), DateLayout);
    FormatParse(DateTime(d2, Midnight), DateLayout);
  }

  /** The link record: whitespace-collapsed stripped text, and the joined `href`. */
  function LinkOf(a: Anchor, join: String -> String): (r: Link)
    ensures a.text.Some? ==> SpacesCollapsed(r.title) && r.title == NormalizeSpace(a.text.value)
    ensures a.href.Some? ==> r.href == join(a.href.value)
  {
    Link(join(a.href.GetOr("")), NormalizeSpace(a.text.GetOr("")))
  }

  /** `document_date_map[key]` of a `defaultdict(list)`. */
  function Lookup(docs: map<String, seq<Link>>, key: String): seq<Link>
  {
    if key in docs then docs[key] else []
  }

  /** One pass of the loop body of `_parse_documents`. */
  function FileLine(st: DocState, line: Line, dateOf: String -> Option<Day>, join: String -> String): (r: Result<DocState>)
    ensures r.Ok? ==> LineDate(line, dateOf).Ok?
    ensures r.Ok? && line.link.None? ==> r.value.docs == st.docs
    ensures r.Ok? && line.link.Some? ==> r.value.lastDate == st.lastDate
  {
    match LineDate(line, dateOf)
    case Err(e) => Err(e)
    case Ok(date) =>
      if line.link.Some? then
        var linkDate := if date.Some? then date else st.lastDate;
        if linkDate.None? then Ok(st)
        else if line.link.value.text.None? then Err(NoText)
        else if line.link.value.href.None? then Err(NoHref)
        else
          var key := DayKey(linkDate.value);
          Ok(DocState(st.docs[key := Lookup(st.docs, key) + [LinkOf(line.link.value, join)]], st.lastDate))
      else if date.Some? then Ok(DocState(st.docs, date))
      else Ok(st)
  }

  /** The loop's state after the given lines, or the exception one of them raised. */
  function FileLines(lines: seq<Line>, dateOf: String -> Option<Day>, join: String -> String): Result<DocState>
    decreases |lines|
  {
    if lines == [] then Ok(DocState(map[], None))
    else
      match FileLines(lines[..|lines| - 1], dateOf, join)
      case Err(e) => Err(e)
      case Ok(st) => FileLine(st, lines[|lines| - 1], dateOf, join)
  }

  /** One more line read, from the state the lines before it left. */
  lemma FileLinesStep(lines: seq<Line>, i: nat, dateOf: String -> Option<Day>, join: String -> String)
    requires i < |lines| && FileLines(lines[..i], dateOf, join).Ok?
    ensures FileLines(lines[..i + 1], dateOf, join) == FileLine(FileLines(lines[..i], dateOf, join).value, lines[i], dateOf, join)
  {
    assert lines[..i + 1][..i] == lines[..i];
  }

  /** Once a line raises, the lines after it change nothing. */
  lemma {:induction false} FileLinesErr(lines: seq<Line>, n: nat, dateOf: String -> Option<Day>, join: String -> String)
    requires n <= |lines| && FileLines(lines[..n], dateOf, join).Err?
    ensures FileLines(lines, dateOf, join) == FileLines(lines[..n], dateOf, join)
    decreases |lines|
  {
    if n < |lines| {
      var p := lines[..|lines| - 1];
      assert p[..n] == lines[..n];
      FileLinesErr(p, n, dateOf, join);
    } else {
      assert lines[..n] == lines;
    }
  }

  /** The date of the latest line that has a date and no link. */
  ghost function LastLinkFreeDate(lines: seq<Line>, dateOf: String -> Option<Day>): Option<Day>
    decreases |lines|
  {
    if lines == [] then None
    else
      var line := lines[|lines| - 1];
      if line.link.None? && Dated(line, dateOf).Some? then Dated(line, dateOf)
      else LastLinkFreeDate(lines[..|lines| - 1], dateOf)
  }

  /**
   * The links filed under `key`, in page order: a line's link goes under its own date,
   * else under the date of the latest earlier line that has a date and no link; with
   * neither, it is dropped.
   */
  ghost function Filed(lines: seq<Line>, dateOf: String -> Option<Day>, join: String -> String, key: String): seq<Link>
    decreases |lines|
  {
    if lines == [] then []
    else
      var p := lines[..|lines| - 1];
      var line := lines[|lines| - 1];
      var linkDate := if Dated(line, dateOf).Some? then Dated(line, dateOf) else LastLinkFreeDate(p, dateOf);
      Filed(p, dateOf, join, key) +
        (if line.link.Some? && linkDate.Some? && DayKey(linkDate.value) == key
         then [LinkOf(line.link.value, join)] else [])
  }

  /**
   * What `_parse_documents` returns: `last_date` is the date of the latest dated
   * link-free line, and the map holds, under each day, exactly the links filed there.
   */
  lemma {:induction false} FileLinesFiled(lines: seq<Line>, dateOf: String -> Option<Day>, join: String -> String)
    requires FileLines(lines, dateOf, join).Ok?
    ensures FileLines(lines, dateOf, join).value.lastDate == LastLinkFreeDate(lines, dateOf)
    ensures forall key :: Lookup(FileLines(lines, dateOf, join).value.docs, key) == Filed(lines, dateOf, join, key)
    ensures forall key :: key in FileLines(lines, dateOf, join).value.docs ==> Filed(lines, dateOf, join, key) != []
    decreases |lines|
  {
    if lines != [] {
      var p := lines[..|lines| - 1];
      var line := lines[|lines| - 1];
      FileLinesFiled(p, dateOf, join);
      var st := FileLines(p, dateOf, join).value;
      var st2 := FileLines(lines, dateOf, join).value;
      assert st2 == FileLine(st, line, dateOf, join).value;
      assert Dated(line, dateOf) == LineDate(line, dateOf).value;
      forall key
        ensures Lookup(st2.docs, key) == Filed(lines, dateOf, join, key)
        ensures key in st2.docs ==> Filed(lines, dateOf, join, key) != []
      {
        FileLineKey(lines, dateOf, join, st, key);
      }
    }
  }

  /** One more line files its link, if any, under exactly the key `Filed` names. */
  lemma FileLineKey(lines: seq<Line>, dateOf: String -> Option<Day>, join: String -> String, st: DocState, key: String)
    requires lines != [] && FileLine(st, lines[|lines| - 1], dateOf, join).Ok?
    requires var p := lines[..|lines| - 1];
      && st.lastDate == LastLinkFreeDate(p, dateOf)
      && Lookup(st.docs, key) == Filed(p, dateOf, join, key)
      && (key in st.docs ==> Filed(p, dateOf, join, key) != [])
    ensures var st2 := FileLine(st, lines[|lines| - 1], dateOf, join).value;
      && Lookup(st2.docs, key) == Filed(lines, dateOf, join, key)
      && (key in st2.docs ==> Filed(lines, dateOf, join, key) != [])
  {
    var line := lines[|lines| - 1];
    var p := lines[..|lines| - 1];
    var date := LineDate(line, dateOf).value;
    assert Dated(line, dateOf) == date;
    var st2 := FileLine(st, line, dateOf, join).value;
    if line.link.None? {
      assert Filed(lines, dateOf, join, key) == Filed(p, dateOf, join, key) + [];
      assert st2.docs == st.docs;
    } else {
      var linkDate := if date.Some? then date else st.lastDate;
      var added := if linkDate.Some? && DayKey(linkDate.value) == key then [LinkOf(line.link.value, join)] else [];
      assert Filed(lines, dateOf, join, key) == Filed(p, dateOf, join, key) + added;
    }
  }

  /** `_parse_documents` never files an empty list, and a lookup gives the filed links. */
  lemma DocumentsLookup(lines: seq<Line>, dateOf: String -> Option<Day>, join: String -> String, key: String)
    requires FileLines(lines, dateOf, join).Ok?
    ensures Lookup(FileLines(lines, dateOf, join).value.docs, key) == Filed(lines, dateOf, join, key)
  {
    FileLinesFiled(lines, dateOf, join);
  }

  // ---- `_parse_title`, `_parse_description` ----

  /**
   * `_parse_title`. The test for the advisory committee looks for the misspelt
   * "Advisory Commitee", so a correctly spelt detail falls through to "Commission".
   */
  function Title(detail: String): (r: String)
    ensures r == "Advisory Committee" <==> Contains(detail, "Advisory Commitee")
    ensures r == "Full Commission" <==> !Contains(detail, "Advisory Commitee") && Contains(detail, "Full Commission")
    ensures r in {"Advisory Committee", "Full Commission", "Commission"}
  {
    if Contains(detail, "Advisory Commitee") then "Advisory Committee"
    else if Contains(detail, "Full Commission") then "Full Commission"
    else "Commission"
  }

  /** A correctly spelt "Advisory Committee" meeting is titled "Commission". */
  lemma CommitteeSpelledRight()
    ensures Title("Advisory Committee") == "Commission"
  {
    var s := "Advisory Committee";
    forall i | 0 <= i <= |s| - 17 ensures !OccursAt(s, "Advisory Commitee", i) {
      assert s[i..i + 17][0] == s[i] && s[i..i + 17][15] == s[i + 15];
    }
    forall i | 0 <= i <= |s| - 15 ensures !OccursAt(s, "Full Commission", i) {
      assert s[i..i + 15][0] == s[i];
    }
  }

  /** `_parse_description`: the parts after the first " - ", joined with spaces, whitespace collapsed. */
  function Description(detail: String): (r: String)
    ensures SpacesCollapsed(r)
    ensures !Contains(detail, " - ") ==> r == ""
  {
    CollapseSpacesCollapsed(Join(" ", Split(detail, " - ")[1..]));
    CollapseSpaces(Join(" ", Split(detail, " - ")[1..]))
  }

  /**
   * The description is the text after the first " - ", with every later " - "
   * turned into a single space and whitespace collapsed.
   */
  lemma DescriptionAfterDash(detail: String)
    requires Contains(detail, " - ")
    ensures Description(detail) == CollapseSpaces(Replace(detail[Find(detail, " - ").value + 3..], " - ", " "))
  {
  }

  /** With a single " - ", the description is the collapsed text after it. */
  lemma DescriptionOneDash(head: String, tail: String)
    requires !Contains(head + " -", " - ") && !Contains(tail, " - ")
    ensures Description(head + " - " + tail) == CollapseSpaces(tail)
  {
    var s := head + " - " + tail;
    assert OccursAt(s, " - ", |head|);
    forall j | 0 <= j < |head| ensures !OccursAt(s, " - ", j) {
      assert s[j..j + 3] == (head + " -")[j..j + 3];
      assert !OccursAt(head + " -", " - ", j);
    }
    assert s[|head| + 3..] == tail;
    DescriptionAfterDash(s);
    ReplaceAbsent(tail, " - ", " ");
  }

  // ---- `_parse_start_end` ----

  /** `\(.*\)`: a parenthesis, any characters but a newline, and the last closing parenthesis after them. */
  const Parenthesised: Pattern := [One(c => c == '('), Star(c => c != '\n'), One(c => c == ')')]

  /** A date line without "(" is passed to the date parser unchanged. */
  lemma NoParenUnchanged(s: String)
    requires '(' !in s
    ensures Sub(Parenthesised, s, "") == s
  {
    SearchLeftmost(Parenthesised, s);
    forall j: nat, ends: seq<nat> | 0 <= j <= |s| ensures !Fits(Parenthesised, s, j, ends) {
      assert j < |s| ==> s[j] in s;
    }
    assert s[0..] == s;
  }

  predicate IsMeridiemChar(c: char) { c == 'a' || c == 'p' || c == 'm' || c == '.' }

  /**
   * `\d\d?(?::\d\d)?\s?[apm\.]{2,4}` is tried as the branch with the minutes, then the
   * branch without. Python tries the optional group before giving back the second
   * hour digit, but the group can only begin right after the first digit when there
   * is no second one, so the two orders reach the same match.
   */
  const ClockWithMinutes: Pattern :=
    [One(IsDigit), Opt(IsDigit), One(c => c == ':'), One(IsDigit), One(IsDigit), Opt(IsSpace), Rep(IsMeridiemChar, 2, 4)]
  const ClockHourOnly: Pattern :=
    [One(IsDigit), Opt(IsDigit), Opt(IsSpace), Rep(IsMeridiemChar, 2, 4)]

  /** Where the time pattern's match starting at `i` ends, if it matches there. */
  function TimeAt(s: String, i: nat): (r: Option<nat>)
    requires i <= |s|
    ensures r.Some? ==> i < r.value <= |s| && IsDigit(s[i])
  {
    match MatchFrom(ClockWithMinutes, s, i)
    case Some(ends) =>
      MatchEndsAfterDigit(ClockWithMinutes, s, i);
      Some(MatchEnd(i, ends))
    case None =>
      match MatchFrom(ClockHourOnly, s, i)
      case Some(ends) =>
        MatchEndsAfterDigit(ClockHourOnly, s, i);
        Some(MatchEnd(i, ends))
      case None => None
  }

  /** A match of a pattern that opens with one digit starts on a digit and is not empty. */
  lemma MatchEndsAfterDigit(p: Pattern, s: String, i: nat)
    requires i <= |s| && |p| >= 2 && p[0] == One(IsDigit) && MatchFrom(p, s, i).Some?
    ensures var ends := MatchFrom(p, s, i).value; i < MatchEnd(i, ends) <= |s| && i < |s| && IsDigit(s[i])
  {
    var ends := MatchFrom(p, s, i).value;
    MatchFromFits(p, s, i);
    assert AllIn(p[0].cls, s, i, ends[0]);
    OrderedApart(i, ends, |s|, 0, |ends| - 1);
  }

  /** `re.findall` of the time pattern from `i` on: non-overlapping matches, left to right. */
  function TimesFrom(s: String, i: nat): (r: seq<String>)
    requires i <= |s|
    decreases |s| - i
    ensures forall k :: 0 <= k < |r| ==> |r[k]| > 0 && IsDigit(r[k][0]) && Contains(s, r[k])
  {
    if i == |s| then []
    else
      match TimeAt(s, i)
      case Some(e) =>
        assert OccursAt(s, s[i..e], i);
        [s[i..e]] + TimesFrom(s, e)
      case None => TimesFrom(s, i + 1)
  }

  function Times(detail: String): (r: seq<String>)
    ensures forall k :: 0 <= k < |r| ==> |r[k]| > 0 && IsDigit(r[k][0]) && Contains(detail, r[k])
  {
    TimesFrom(detail, 0)
  }

  /** A detail line without a digit names no time. */
  lemma {:induction false} NoDigitNoTimes(s: String, i: nat)
    requires i <= |s| && forall k :: 0 <= k < |s| ==> !IsDigit(s[k])
    ensures TimesFrom(s, i) == []
    decreases |s| - i
  {
    if i < |s| {
      assert TimeAt(s, i).None?;
      NoDigitNoTimes(s, i + 1);
    }
  }

  /**
   * `_parse_start_end`: the day of the date line (parenthesised remarks removed) at the
   * first time in the detail, or at midnight when there is none; the second time, when
   * there is one, gives the end on the same day.
   */
  function StartEnd(dateStr: String, detail: String, dateOf: String -> Option<Day>, timeOf: String -> Option<Time>)
    : (r: Result<(DateTime, Option<DateTime>)>)
    ensures var day := dateOf(Sub(Parenthesised, dateStr, "")); var ts := Times(detail);
      r.Ok? <==> day.Some? && (|ts| >= 1 ==> timeOf(ts[0]).Some?) && (|ts| >= 2 ==> timeOf(ts[1]).Some?)
    ensures r.Ok? ==> var ts := Times(detail);
      r.value.0.date == dateOf(Sub(Parenthesised, dateStr, "")).value &&
      (|ts| == 0 ==> r.value.0.time == Midnight) &&
      (|ts| >= 1 ==> r.value.0.time == timeOf(ts[0]).value) &&
      (r.value.1.Some? <==> |ts| >= 2) &&
      (|ts| >= 2 ==> r.value.1.value == Combine(r.value.0.date, timeOf(ts[1]).value))
  {
    match dateOf(Sub(Parenthesised, dateStr, ""))
    case None => Err(BadDate)
    case Some(day) =>
      var ts := Times(detail);
      if |ts| == 0 then Ok((Combine(day, Midnight), None))
      else
        match timeOf(ts[0])
        case None => Err(BadTime)
        case Some(t0) =>
          if |ts| == 1 then Ok((Combine(day, t0), None))
          else
            match timeOf(ts[1])
            case None => Err(BadTime)
            case Some(t1) => Ok((Combine(day, t0), Some(Combine(day, t1))))
  }

  // ---- `_parse_meetings` ----

  /** The meeting for one non-blank detail line, and the map after the `defaultdict` lookup. */
  function MeetingOf(docs: map<String, seq<Link>>, dateStr: String, detail: String,
                     dateOf: String -> Option<Day>, timeOf: String -> Option<Time>)
    : (r: Result<(Meeting, map<String, seq<Link>>)>)
    ensures r.Ok? <==> StartEnd(dateStr, detail, dateOf, timeOf).Ok?
    ensures r.Ok? ==> ValidDate(r.value.0.start.date)
    ensures r.Ok? ==> var m := r.value.0;
      m.links == Lookup(docs, DayKey(m.start.date)) && Extends(docs, r.value.1) &&
      m.title == Title(detail) && m.description == Description(detail) &&
      m.classification == Commission && m.location == Location
  {
    match StartEnd(dateStr, detail, dateOf, timeOf)
    case Err(e) => Err(e)
    case Ok((start, end)) =>
      var key := DayKey(start.date);
      var links := Lookup(docs, key);
      Ok((Meeting(Title(detail), Description(detail), Commission, start, end, Location, links), docs[key := links]))
  }

  /** `b` is `a` plus only the empty lists a `defaultdict` lookup inserts. */
  ghost predicate Extends(a: map<String, seq<Link>>, b: map<String, seq<Link>>)
  {
    (forall k :: k in a ==> k in b && b[k] == a[k]) &&
    (forall k :: k in b && k !in a ==> b[k] == [])
  }

  lemma ExtendsLookup(a: map<String, seq<Link>>, b: map<String, seq<Link>>, key: String)
    requires Extends(a, b)
    ensures Lookup(b, key) == Lookup(a, key)
  {
  }

  /** Every meeting starts on a valid calendar day. */
  predicate DatedStarts(ms: seq<Meeting>)
  {
    forall k :: 0 <= k < |ms| ==> ValidDate(ms[k].start.date)
  }

  /** `r` after the meetings in `ms` were already yielded. */
  function After(ms: seq<Meeting>, r: Run): Run
  {
    Run(ms + r.meetings, r.failure, r.docs)
  }

  /** The meetings of one paragraph's (stripped) detail lines. */
  function GroupMeetings(docs: map<String, seq<Link>>, dateStr: String, details: seq<String>,
                         dateOf: String -> Option<Day>, timeOf: String -> Option<Time>): Run
    decreases |details|
  {
    if details == [] then Run([], None, docs)
    else if details[0] == "" then GroupMeetings(docs, dateStr, details[1..], dateOf, timeOf)
    else
      match MeetingOf(docs, dateStr, details[0], dateOf, timeOf)
      case Err(e) => Run([], Some(e), docs)
      case Ok((m, docs2)) => After([m], GroupMeetings(docs2, dateStr, details[1..], dateOf, timeOf))
  }

  function Stripped(texts: seq<String>): (r: seq<String>)
    ensures |r| == |texts| && forall k :: 0 <= k < |r| ==> r[k] == Strip(texts[k])
  {
    seq(|texts|, k requires 0 <= k < |texts| => Strip(texts[k]))
  }

  /** `_parse_meetings` over the paragraphs' text nodes. */
  function MeetingsOf(docs: map<String, seq<Link>>, groups: seq<seq<String>>,
                      dateOf: String -> Option<Day>, timeOf: String -> Option<Time>): Run
    decreases |groups|
  {
    if groups == [] then Run([], None, docs)
    else if groups[0] == [] then Run([], Some(NoDateLine), docs)
    else
      var texts := Stripped(groups[0]);
      var r := GroupMeetings(docs, texts[0], texts[1..], dateOf, timeOf);
      if r.failure.Some? then r
      else After(r.meetings, MeetingsOf(r.docs, groups[1..], dateOf, timeOf))
  }

  /** The number of non-empty lines. */
  function NonBlank(details: seq<String>): nat
  {
    if details == [] then 0 else (if details[0] == "" then 0 else 1) + NonBlank(details[1..])
  }

  /** One meeting per non-blank detail line, unless a line raised. */
  lemma {:induction false} GroupMeetingsCount(docs: map<String, seq<Link>>, dateStr: String, details: seq<String>,
                                              dateOf: String -> Option<Day>, timeOf: String -> Option<Time>)
    ensures var r := GroupMeetings(docs, dateStr, details, dateOf, timeOf);
      r.failure.None? ==> |r.meetings| == NonBlank(details)
    decreases |details|
  {
    if details != [] {
      if details[0] == "" {
        GroupMeetingsCount(docs, dateStr, details[1..], dateOf, timeOf);
      } else {
        var mo := MeetingOf(docs, dateStr, details[0], dateOf, timeOf);
        if mo.Ok? {
          GroupMeetingsCount(mo.value.1, dateStr, details[1..], dateOf, timeOf);
        }
      }
    }
  }

  /**
   * Each meeting of a paragraph carries the links the map held for its day before
   * the paragraph was read; the lookups add only empty lists.
   */
  lemma {:induction false} GroupMeetingsLinks(docs: map<String, seq<Link>>, dateStr: String, details: seq<String>,
                                              dateOf: String -> Option<Day>, timeOf: String -> Option<Time>)
    ensures var r := GroupMeetings(docs, dateStr, details, dateOf, timeOf);
      Extends(docs, r.docs) && DatedStarts(r.meetings) &&
      forall k :: 0 <= k < |r.meetings| ==> r.meetings[k].links == Lookup(docs, DayKey(r.meetings[k].start.date))
    decreases |details|
  {
    if details != [] {
      if details[0] == "" {
        GroupMeetingsLinks(docs, dateStr, details[1..], dateOf, timeOf);
      } else {
        var mo := MeetingOf(docs, dateStr, details[0], dateOf, timeOf);
        if mo.Ok? {
          var docs2 := mo.value.1;
          GroupMeetingsLinks(docs2, dateStr, details[1..], dateOf, timeOf);
          var rest := GroupMeetings(docs2, dateStr, details[1..], dateOf, timeOf);
          forall k | 0 <= k < |rest.meetings|
            ensures rest.meetings[k].links == Lookup(docs, DayKey(rest.meetings[k].start.date))
          {
            ExtendsLookup(docs, docs2, DayKey(rest.meetings[k].start.date));
          }
        }
      }
    }
  }

  /** Every meeting on the page carries the links filed under its day before the page was read. */
  lemma {:induction false} MeetingsOfLinks(docs: map<String, seq<Link>>, groups: seq<seq<String>>,
                                           dateOf: String -> Option<Day>, timeOf: String -> Option<Time>)
    ensures var r := MeetingsOf(docs, groups, dateOf, timeOf);
      Extends(docs, r.docs) && DatedStarts(r.meetings) &&
      forall k :: 0 <= k < |r.meetings| ==> r.meetings[k].links == Lookup(docs, DayKey(r.meetings[k].start.date))
    decreases |groups|
  {
    if groups != [] && groups[0] != [] {
      var texts := Stripped(groups[0]);
      GroupMeetingsLinks(docs, texts[0], texts[1..], dateOf, timeOf);
      var g := GroupMeetings(docs, texts[0], texts[1..], dateOf, timeOf);
      if g.failure.None? {
        MeetingsOfLinks(g.docs, groups[1..], dateOf, timeOf);
        var rest := MeetingsOf(g.docs, groups[1..], dateOf, timeOf);
        forall k | 0 <= k < |rest.meetings|
          ensures rest.meetings[k].links == Lookup(docs, DayKey(rest.meetings[k].start.date))
        {
          ExtendsLookup(docs, g.docs, DayKey(rest.meetings[k].start.date));
        }
      }
    }
  }

  /** End to end: a meeting's links are exactly the document links filed under its day. */
  lemma MeetingLinksFiled(lines: seq<Line>, groups: seq<seq<String>>, dateOf: String -> Option<Day>,
                          join: String -> String, timeOf: String -> Option<Time>)
    requires FileLines(lines, dateOf, join).Ok?
    ensures var r := MeetingsOf(FileLines(lines, dateOf, join).value.docs, groups, dateOf, timeOf);
      DatedStarts(r.meetings) &&
      forall k :: 0 <= k < |r.meetings| ==> r.meetings[k].links == Filed(lines, dateOf, join, DayKey(r.meetings[k].start.date))
  {
    FileLinesFiled(lines, dateOf, join);
    MeetingsOfLinks(FileLines(lines, dateOf, join).value.docs, groups, dateOf, timeOf);
  }

  /** One pass of the detail loop: a blank line is skipped, else its meeting is yielded or its exception raised. */
  lemma GroupStep(docs: map<String, seq<Link>>, dateStr: String, details: seq<String>, i: nat,
                  dateOf: String -> Option<Day>, timeOf: String -> Option<Time>)
    requires i < |details|
    ensures details[i] == "" ==>
      GroupMeetings(docs, dateStr, details[i..], dateOf, timeOf) == GroupMeetings(docs, dateStr, details[i + 1..], dateOf, timeOf)
    ensures details[i] != "" ==>
      var mo := MeetingOf(docs, dateStr, details[i], dateOf, timeOf);
      GroupMeetings(docs, dateStr, details[i..], dateOf, timeOf) ==
        if mo.Err? then Run([], Some(mo.error), docs)
        else After([mo.value.0], GroupMeetings(mo.value.1, dateStr, details[i + 1..], dateOf, timeOf))
  {
    assert details[i..][0] == details[i] && details[i..][1..] == details[i + 1..];
  }

  /** One pass of the paragraph loop: a paragraph without lines raises, else its meetings come before the rest's. */
  lemma MeetingsFirst(docs: map<String, seq<Link>>, groups: seq<seq<String>>, i: nat,
                      dateOf: String -> Option<Day>, timeOf: String -> Option<Time>)
    requires i < |groups|
    ensures groups[i] == [] ==> MeetingsOf(docs, groups[i..], dateOf, timeOf) == Run([], Some(NoDateLine), docs)
    ensures groups[i] != [] ==>
      var texts := Stripped(groups[i]);
      var r := GroupMeetings(docs, texts[0], texts[1..], dateOf, timeOf);
      MeetingsOf(docs, groups[i..], dateOf, timeOf) ==
        if r.failure.Some? then r else After(r.meetings, MeetingsOf(r.docs, groups[i + 1..], dateOf, timeOf))
  {
    assert groups[i..][0] == groups[i] && groups[i..][1..] == groups[i + 1..];
  }

  lemma AfterAfter(a: seq<Meeting>, b: seq<Meeting>, r: Run)
    ensures After(a, After(b, r)) == After(a + b, r)
  {
    assert a + (b + r.meetings) == a + b + r.meetings;
  }

  class Spider {
    /** The `defaultdict` `parse` fills; `_parse_meetings` reads it, adding empty lists for missing days. */
    var documentDateMap: map<String, seq<Link>>

    constructor()
      ensures documentDateMap == map[]
    {
      documentDateMap := map[];
    }

    /** `_parse_documents`: the map of links by day, or the exception a line raised. */
    method ParseDocuments(lines: seq<Line>, dateOf: String -> Option<Day>, join: String -> String)
      returns (r: Result<map<String, seq<Link>>>)
      ensures r.Ok? <==> FileLines(lines, dateOf, join).Ok?
      ensures r.Ok? ==> r.value == FileLines(lines, dateOf, join).value.docs
      ensures r.Err? ==> r.error == FileLines(lines, dateOf, join).error
    {
      var docs: map<String, seq<Link>> := map[];
      var lastDate: Option<Day> := None;
      var i := 0;
      while i < |lines|
        invariant 0 <= i <= |lines|
        invariant FileLines(lines[..i], dateOf, join) == Ok(DocState(docs, lastDate))
      {
        FileLinesStep(lines, i, dateOf, join);
        var line := lines[i];
        var docDate := LineDate(line, dateOf);
        if docDate.Err? {
          FileLinesErr(lines, i + 1, dateOf, join);
          return Err(docDate.error);
        }
        if line.link.Some? {
          var linkDate := if docDate.value.Some? then docDate.value else lastDate;
          if linkDate.Some? {
            if line.link.value.text.None? {
              FileLinesErr(lines, i + 1, dateOf, join);
              return Err(NoText);
            }
            if line.link.value.href.None? {
              FileLinesErr(lines, i + 1, dateOf, join);
              return Err(NoHref);
            }
            var key := DayKey(linkDate.value);
            docs := docs[key := Lookup(docs, key) + [LinkOf(line.link.value, join)]];
          }
        } else if docDate.value.Some? {
          lastDate := docDate.value;
        }
        i := i + 1;
      }
      assert lines[..i] == lines;
      return Ok(docs);
    }

    /** `parse`: the documents page fills the map; the meetings page is requested next. */
    method Parse(lines: seq<Line>, dateOf: String -> Option<Day>, join: String -> String)
      returns (failure: Option<String>)
      modifies this
      ensures FileLines(lines, dateOf, join).Ok? ==>
        failure.None? && documentDateMap == FileLines(lines, dateOf, join).value.docs
      ensures FileLines(lines, dateOf, join).Err? ==>
        failure == Some(FileLines(lines, dateOf, join).error) && documentDateMap == old(documentDateMap)
    {
      var r := ParseDocuments(lines, dateOf, join);
      if r.Ok? {
        documentDateMap := r.value;
        failure := None;
      } else {
        failure := Some(r.error);
      }
    }

    /** The inner loop of `_parse_meetings`, over one paragraph's detail lines. */
    method ParseGroup(dateStr: String, details: seq<String>, dateOf: String -> Option<Day>, timeOf: String -> Option<Time>)
      returns (meetings: seq<Meeting>, failure: Option<String>)
      modifies this
      ensures Run(meetings, failure, documentDateMap) == GroupMeetings(old(documentDateMap), dateStr, details, dateOf, timeOf)
    {
      meetings, failure := [], None;
      var i := 0;
      assert details[0..] == details;
      while i < |details|
        invariant 0 <= i <= |details|
        invariant GroupMeetings(old(documentDateMap), dateStr, details, dateOf, timeOf) ==
                  After(meetings, GroupMeetings(documentDateMap, dateStr, details[i..], dateOf, timeOf))
      {
        var detail := details[i];
        GroupStep(documentDateMap, dateStr, details, i, dateOf, timeOf);
        if detail != "" {
          var mo := MeetingOf(documentDateMap, dateStr, detail, dateOf, timeOf);
          if mo.Err? {
            failure := Some(mo.error);
            assert meetings + [] == meetings;
            return;
          }
          AfterAfter(meetings, [mo.value.0], GroupMeetings(mo.value.1, dateStr, details[i + 1..], dateOf, timeOf));
          meetings := meetings + [mo.value.0];
          documentDateMap := mo.value.1;
        }
        i := i + 1;
      }
      assert meetings + [] == meetings;
    }

    /** `_parse_meetings`: the meetings of every paragraph, stopping at the first exception. */
    method ParseMeetings(groups: seq<seq<String>>, dateOf: String -> Option<Day>, timeOf: String -> Option<Time>)
      returns (meetings: seq<Meeting>, failure: Option<String>)
      modifies this
      ensures Run(meetings, failure, documentDateMap) == MeetingsOf(old(documentDateMap), groups, dateOf, timeOf)
    {
      meetings, failure := [], None;
      var i := 0;
      assert groups[0..] == groups;
      while i < |groups|
        invariant 0 <= i <= |groups|
        invariant MeetingsOf(old(documentDateMap), groups, dateOf, timeOf) ==
                  After(meetings, MeetingsOf(documentDateMap, groups[i..], dateOf, timeOf))
      {
        MeetingsFirst(documentDateMap, groups, i, dateOf, timeOf);
        if groups[i] == [] {
          failure := Some(NoDateLine);
          assert meetings + [] == meetings;
          return;
        }
        var texts := Stripped(groups[i]);
        var found, stop := ParseGroup(texts[0], texts[1..], dateOf, timeOf);
        if stop.Some? {
          meetings, failure := meetings + found, stop;
          return;
        }
        AfterAfter(meetings, found, MeetingsOf(documentDateMap, groups[i + 1..], dateOf, timeOf));
        meetings := meetings + found;
        i := i + 1;
      }
      assert meetings + [] == meetings;
    }
  }
}

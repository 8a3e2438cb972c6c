/**
 * The shared behaviour of the Detroit retirement-system spiders. A page of past
 * documents fills a map from each document date to its links. The meetings page
 * then gives one meeting per table row, taking (and removing) the links filed
 * under the row's date, and one more meeting for every date still left in the map.
 *
 * `dateutil`'s parser (`dateparse`, `None` when it raises), `urljoin` (`join`) and
 * the wall clock (`today`) are parameters. `_get_status` and `_get_id` are not part
 * of this model, so a meeting carries the text `_get_status` would be given.
 */
module RetirementMixin {
  import opened Wrappers
  import opened Text
  import opened Regex
  import opened Numbers
  import opened Calendar
  import opened Strptime
  import opened Classification
  import opened Items
  import Authority

  /** An `a` element: its `href` attribute (if any), whether it is `aria-hidden="true"`, its first text. */
  datatype Anchor = Anchor(href: Option<String>, hidden: bool, text: Option<String>)

  /** A document link: the anchor's first text (absent when it has none) and its absolute address. */
  datatype DocLink = DocLink(title: Option<String>, href: String)

  /** A row of the past-documents table: the first text directly inside a `td` (if any) and its anchors. */
  datatype DocRow = DocRow(firstText: Option<String>, anchors: seq<Anchor>)

  /** A row of the meetings table: the text nodes of each of its cells. */
  datatype Row = Row(cells: seq<seq<String>>)

  /**
   * What one response offers: its address, the text nodes of the first paragraph of
   * the post (absent when there is none), the meeting rows after the header row and
   * the rows of the past-documents table.
   */
  datatype Page = Page(url: String, intro: Option<seq<String>>, rows: seq<Row>, docRows: seq<DocRow>)

  /** A meeting as yielded: `statusText` is the text `_get_status` is given, `description` is always blank. */
  datatype Meeting = Meeting(title: String, description: String, classification: Classification,
                             start: DateTime, end: Option<DateTime>, allDay: bool, timeNotes: String,
                             location: Place, links: seq<DocLink>, source: String, statusText: String)

  /** What `parse` yields: a request for the upcoming-meetings page, or the meetings. */
  datatype Output = Follow(url: String) | Meetings(meetings: seq<Meeting>)

  const Location := Place("Retirement Systems", "500 Woodward Ave. Suite 300 Detroit, MI 48226")

  const NoText := "AttributeError: 'NoneType' object has no attribute 'strip'"
  const NoIntro := "IndexError: list index out of range"
  const Moved := "ValueError: Meeting location has changed"
  const NoDefaultTime := "TypeError: combine() argument 2 must be datetime.time, not None"
  const BadStart := "ParserError: String does not contain a date"

  // ---- The document map: a `dict` keeps its keys in insertion order ----

  /** `document_date_map`: dates and their links, in insertion order. */
  type DocMap = seq<(Date, seq<DocLink>)>

  function Keys(m: DocMap): set<Date>
  {
    if m == [] then {} else {m[0].0} + Keys(m[1..])
  }

  /** No date occurs twice. */
  predicate Distinct(m: DocMap)
  {
    m == [] || (m[0].0 !in Keys(m[1..]) && Distinct(m[1..]))
  }

  /** `m.get(k)` */
  function Get(m: DocMap, k: Date): (r: Option<seq<DocLink>>)
    ensures r.None? <==> k !in Keys(m)
  {
    if m == [] then None else if m[0].0 == k then Some(m[0].1) else Get(m[1..], k)
  }

  /** `m[k] = v`: a new key goes last, an existing one keeps its place. */
  function Put(m: DocMap, k: Date, v: seq<DocLink>): (r: DocMap)
    ensures Keys(r) == Keys(m) + {k}
  {
    if m == [] then [(k, v)]
    else if m[0].0 == k then [(k, v)] + m[1..]
    else [m[0]] + Put(m[1..], k, v)
  }

  /** `m.pop(k, [])`: the links under `k` (or none) and the map without `k`. */
  function Pop(m: DocMap, k: Date): (r: (seq<DocLink>, DocMap))
    ensures Keys(r.1) <= Keys(m)
  {
    if m == [] then ([], [])
    else if m[0].0 == k then (m[0].1, m[1..])
    else
      var rest := Pop(m[1..], k);
      (rest.0, [m[0]] + rest.1)
  }

  /** After `m[k] = v`, `k` holds `v`, the other keys are untouched, and no key is doubled. */
  lemma {:induction false} PutGet(m: DocMap, k: Date, v: seq<DocLink>)
    requires Distinct(m)
    ensures Distinct(Put(m, k, v))
    ensures Get(Put(m, k, v), k) == Some(v)
    ensures forall j :: j != k ==> Get(Put(m, k, v), j) == Get(m, j)
  {
    if m != [] {
      if m[0].0 == k {
        assert ([(k, v)] + m[1..])[1..] == m[1..];
      } else {
        PutGet(m[1..], k, v);
        assert ([m[0]] + Put(m[1..], k, v))[1..] == Put(m[1..], k, v);
      }
    }
  }

  /** Assigning to a key already present keeps the order of the keys; a new key is appended. */
  lemma {:induction false} PutOrder(m: DocMap, k: Date, v: seq<DocLink>)
    ensures k !in Keys(m) ==> Put(m, k, v) == m + [(k, v)]
    ensures k in Keys(m) ==> |Put(m, k, v)| == |m| && forall i :: 0 <= i < |m| ==> Put(m, k, v)[i].0 == m[i].0
  {
    if m != [] && m[0].0 != k {
      PutOrder(m[1..], k, v);
      assert [m[0]] + (m[1..] + [(k, v)]) == m + [(k, v)];
      if k in Keys(m) {
        var r := Put(m, k, v);
        forall i | 0 <= i < |m| ensures r[i].0 == m[i].0 {
          if i > 0 { assert r[i] == Put(m[1..], k, v)[i - 1]; }
        }
      }
    }
  }

  /** `pop` hands out what `get` sees and leaves every other key as it was, `k` gone. */
  lemma {:induction false} PopGet(m: DocMap, k: Date)
    requires Distinct(m)
    ensures Pop(m, k).0 == Get(m, k).GetOr([])
    ensures Distinct(Pop(m, k).1)
    ensures Get(Pop(m, k).1, k) == None
    ensures forall j :: j != k ==> Get(Pop(m, k).1, j) == Get(m, j)
  {
    if m != [] && m[0].0 != k {
      PopGet(m[1..], k);
      var rest := Pop(m[1..], k);
      assert ([m[0]] + rest.1)[1..] == rest.1;
    }
  }

  // ---- Past documents ----

  /** `%m/%d/%y` */
  const DocDateLayout := [Month, Lit('/'), Day, Lit('/'), Year2]

  /** `_parse_doc_date` of the first space-separated word of the row's first text. */
  function DocDate(row: DocRow): (r: Result<Date>)
    ensures row.firstText.None? ==> r == Err(NoText)
    ensures r.Ok? ==> ValidDate(r.value)
  {
    match row.firstText
    case None => Err(NoText)
    case Some(t) =>
      match Parse(Strip(Split(Strip(t), " ")[0]), DocDateLayout)
      case Err(e) => Err(e)
      case Ok(dt) => Ok(dt.date)
  }

  /** Numbers and slashes render without whitespace. */
  lemma {:induction false} RenderNoSpace(ds: seq<Directive>, dt: DateTime)
    requires Valid(dt)
    requires forall k :: 0 <= k < |ds| ==> ds[k].Month? || ds[k].Day? || ds[k].Year2? || ds[k] == Lit('/')
    ensures forall i :: 0 <= i < |Render(ds, dt)| ==> !IsSpace(Render(ds, dt)[i])
    decreases |ds|
  {
    if ds != [] {
      RenderNoSpace(ds[1..], dt);
      var head := RenderOne(ds[0], dt);
      assert forall i :: 0 <= i < |head| ==> !IsSpace(head[i]);
    }
  }

  /** A whitespace-free first text is read whole. */
  lemma DocDateWord(s: String, anchors: seq<Anchor>)
    requires forall i :: 0 <= i < |s| ==> !IsSpace(s[i])
    ensures var p := Parse(s, DocDateLayout);
      DocDate(DocRow(Some(s), anchors)) == if p.Ok? then Ok(p.value.date) else Err(p.error)
  {
    StripNoEdgeSpace(s);
    CharContains(s, ' ');
    assert ' ' !in s;
    SplitWithout(s, " ");
  }

  /** Reading `%m/%d/%y` fills in the month, the day and the windowed year, and nothing else. */
  lemma DocDateFields(dt: DateTime)
    ensures RecordAll(DocDateLayout, dt, NoFields) ==
      Fields(Some(CenturyYear(dt.date.year % 100)), Some(dt.date.month), Some(dt.date.day), None, None, None, None, None)
  {
    var l := DocDateLayout;
    assert l[0] == Month && l[2] == Day && l[4] == Year2;
    assert Year4 !in l && Hour24 !in l && Hour12 !in l && Minute !in l && Second !in l && AmPm !in l;
    RecordAllYear2(l, dt, NoFields);
    RecordAllMonth(l, dt, NoFields);
    RecordAllDay(l, dt, NoFields);
    RecordAllHour24(l, dt, NoFields);
    RecordAllHour12(l, dt, NoFields);
    RecordAllMinute(l, dt, NoFields);
    RecordAllSecond(l, dt, NoFields);
    RecordAllPm(l, dt, NoFields);
  }

  /** Every year from 1969 to 2068 survives being cut to two digits and read back. */
  lemma CenturyWindow(y: int)
    requires 1969 <= y <= 2068
    ensures CenturyYear(y % 100) == y
  {
    if y < 2000 { assert y % 100 == y - 1900; } else { assert y % 100 == y - 2000; }
  }

  /** `%m/%d/%y` gives back a midnight date whose year lies in the 1969-2068 window of `%y`. */
  lemma DocDateParse(d: Date)
    requires ValidDate(d) && 1969 <= d.year <= 2068
    ensures Parse(Format(DateTime(d, Midnight), DocDateLayout), DocDateLayout) == Ok(DateTime(d, Midnight))
  {
    var dt := DateTime(d, Midnight);
    var s := Format(dt, DocDateLayout);
    assert Space !in DocDateLayout;
    SpacelessSeparated(DocDateLayout);
    MatchRender(DocDateLayout, dt, NoFields);
    DocDateFields(dt);
    CenturyWindow(d.year);
    var f := Fields(Some(d.year), Some(d.month), Some(d.day), None, None, None, None, None);
    assert Match(DocDateLayout, s, NoFields) == Some(f);
    assert Build(f) == Ok(dt);
  }

  /** A date written as `%m/%d/%y` reads back as itself within the 1969-2068 window of `%y`. */
  lemma DocDateRoundTrip(d: Date, anchors: seq<Anchor>)
    requires ValidDate(d) && 1969 <= d.year <= 2068
    ensures DocDate(DocRow(Some(Format(DateTime(d, Midnight), DocDateLayout)), anchors)) == Ok(d)
  {
    var l := DocDateLayout;
    var dt := DateTime(d, Midnight);
    assert l[0] == Month && l[2] == Day && l[4] == Year2 && l[1] == l[3] == Lit('/');
    RenderNoSpace(l, dt);
    DocDateWord(Format(dt, l), anchors);
    DocDateParse(d);
  }

  /** `_parse_doc_links`: the anchors with an `href` that are not hidden, in order. */
  function DocLinks(anchors: seq<Anchor>, join: String -> String): (r: seq<DocLink>)
    ensures |r| <= |anchors|
  {
    if anchors == [] then []
    else
      var front := DocLinks(anchors[..|anchors| - 1], join);
      var a := anchors[|anchors| - 1];
      if a.href.Some? && !a.hidden then front + [DocLink(a.text, join(a.href.value))] else front
  }

  /** Every document link comes from a visible anchor: its text and its joined address. */
  lemma {:induction false} DocLinksFrom(anchors: seq<Anchor>, join: String -> String)
    ensures forall l :: l in DocLinks(anchors, join) ==>
      exists a :: a in anchors && a.href.Some? && !a.hidden && l == DocLink(a.text, join(a.href.value))
    decreases |anchors|
  {
    if anchors != [] {
      var front := anchors[..|anchors| - 1];
      DocLinksFrom(front, join);
      forall l | l in DocLinks(front, join)
        ensures exists a :: a in anchors && a.href.Some? && !a.hidden && l == DocLink(a.text, join(a.href.value))
      {
        var a :| a in front && a.href.Some? && !a.hidden && l == DocLink(a.text, join(a.href.value));
        assert a in anchors;
      }
      assert anchors[|anchors| - 1] in anchors;
    }
  }

  /** A visible anchor with an address always gives a link; any other anchor gives none. */
  lemma DocLinksSnoc(anchors: seq<Anchor>, a: Anchor, join: String -> String)
    ensures DocLinks(anchors + [a], join) ==
      DocLinks(anchors, join) + (if a.href.Some? && !a.hidden then [DocLink(a.text, join(a.href.value))] else [])
  {
    assert (anchors + [a])[..|anchors|] == anchors;
  }

  /** The map after some rows of the past-documents table, and the error that stopped it, if any. */
  datatype Filed = Filed(docs: DocMap, failure: Option<String>)

  function PastFiled(docs: DocMap, rows: seq<DocRow>, join: String -> String): Filed
    decreases |rows|
  {
    if rows == [] then Filed(docs, None)
    else
      var prev := PastFiled(docs, rows[..|rows| - 1], join);
      var row := rows[|rows| - 1];
      if prev.failure.Some? then prev
      else
        match DocDate(row)
        case Err(e) => Filed(prev.docs, Some(e))
        case Ok(d) => Filed(Put(prev.docs, d, DocLinks(row.anchors, join)), None)
  }

  /** Filing keeps the dates distinct. */
  lemma {:induction false} PastFiledDistinct(docs: DocMap, rows: seq<DocRow>, join: String -> String)
    requires Distinct(docs)
    ensures Distinct(PastFiled(docs, rows, join).docs)
    decreases |rows|
  {
    if rows != [] {
      var prev := PastFiled(docs, rows[..|rows| - 1], join);
      PastFiledDistinct(docs, rows[..|rows| - 1], join);
      if prev.failure.None? && DocDate(rows[|rows| - 1]).Ok? {
        PutGet(prev.docs, DocDate(rows[|rows| - 1]).value, DocLinks(rows[|rows| - 1].anchors, join));
      }
    }
  }

  /**
   * Filing a row puts its links under its date, replacing what an earlier row with
   * that date filed, and leaves every other date alone.
   */
  lemma PastFiledStep(docs: DocMap, rows: seq<DocRow>, row: DocRow, join: String -> String)
    requires Distinct(docs) && PastFiled(docs, rows, join).failure.None? && DocDate(row).Ok?
    ensures var before := PastFiled(docs, rows, join).docs;
      var after := PastFiled(docs, rows + [row], join);
      && after.failure.None? && Distinct(after.docs)
      && Get(after.docs, DocDate(row).value) == Some(DocLinks(row.anchors, join))
      && forall j :: j != DocDate(row).value ==> Get(after.docs, j) == Get(before, j)
  {
    assert (rows + [row])[..|rows|] == rows;
    PastFiledDistinct(docs, rows, join);
    PutGet(PastFiled(docs, rows, join).docs, DocDate(row).value, DocLinks(row.anchors, join));
  }

  /** Once a row fails, the rows after it are never read. */
  lemma {:induction false} PastFiledStops(docs: DocMap, rows: seq<DocRow>, i: nat, join: String -> String)
    requires i <= |rows| && PastFiled(docs, rows[..i], join).failure.Some?
    ensures PastFiled(docs, rows, join) == PastFiled(docs, rows[..i], join)
    decreases |rows| - i
  {
    if i < |rows| {
      assert rows[..i + 1][..i] == rows[..i];
      PastFiledStops(docs, rows, i + 1, join);
    } else {
      assert rows[..i] == rows;
    }
  }

  // ---- Title, classification, location ----

  /** `_parse_title`; `firstCell` is the texts of the row's first cell, absent for the page-level title. */
  function MeetingTitle(url: String, firstCell: Option<seq<String>>): (r: String)
    ensures Contains(url, "board_of_trustees") ==> StartsWith(r, "Board of Trustees")
    ensures !Contains(url, "board_of_trustees") ==> StartsWith(r, "Investment Committee")
    ensures EndsWith(r, ": Special Meeting") <==> firstCell.Some? && Contains(Lower(Join(" ", firstCell.value)), "special")
  {
    var base := if Contains(url, "board_of_trustees") then "Board of Trustees" else "Investment Committee";
    if firstCell.Some? && Contains(Lower(Join(" ", firstCell.value)), "special") then
      StartsWithConcat(base, ": Special Meeting");
      assert (base + ": Special Meeting")[|base|..] == ": Special Meeting";
      base + ": Special Meeting"
    else
      base
  }

  /** `_parse_classification` */
  function MeetingClassification(url: String): (r: Classification)
    ensures r == Board <==> Contains(url, "board_of_trustees")
    ensures r != Board ==> r == Committee
  {
    if Contains(url, "board_of_trustees") then Board else Committee
  }

  /** The title-cased room named in the last cell, blank when there is none. */
  function Room(lastCell: seq<String>): String
  {
    Text.Title(Strip(Join(" ", lastCell)))
  }

  /** `_parse_location`: the base place, its name extended by the room when there is one. */
  function LocationOf(lastCell: seq<String>): (r: Place)
    ensures r.address == Location.address
    ensures Room(lastCell) == "" ==> r == Location
    ensures Room(lastCell) != "" ==> StartsWith(r.name, Location.name + " ") && r.name[|Location.name| + 1..] == Room(lastCell)
  {
    var room := Room(lastCell);
    if room != "" then
      StartsWithConcat(Location.name + " ", room);
      Place(Location.name + " " + room, Location.address)
    else Location
  }

  // ---- Start ----

  /** `\(.+\)` */
  const Parenthetical: Pattern := [One(c => c == '('), Plus(c => c != '\n'), One(c => c == ')')]

  /** `[A-Z][a-z]{2,8} \d{1,2},? \d{4}` */
  const WrittenDate: Pattern :=
    [One(IsUpper), Rep(IsLower, 2, 8), One(c => c == ' '), Rep(IsDigit, 1, 2), Opt(c => c == ','),
     One(c => c == ' '), Rep(IsDigit, 4, 4)]

  /** `cancel[a-z]+` under `re.I` */
  const CancelWord: Pattern := LitsI("cancel") + [Plus(IsAlpha)]

  /** The text nodes of the `k`-th cell, none when the row is shorter. */
  function CellTexts(row: Row, k: nat): seq<String>
  {
    if k < |row.cells| then row.cells[k] else []
  }

  function LastCell(row: Row): seq<String>
  {
    if row.cells == [] then [] else row.cells[|row.cells| - 1]
  }

  /** All the text nodes of the row, cell after cell. */
  function RowTexts(cells: seq<seq<String>>): seq<String>
  {
    if cells == [] then [] else cells[0] + RowTexts(cells[1..])
  }

  /** The first cell without parentheticals and with whitespace collapsed. */
  function CleanDateCell(row: Row): String
  {
    CollapseSpaces(Sub(Parenthetical, Strip(Join(" ", CellTexts(row, 0))), ""))
  }

  /** The date part of `_parse_start`: the written date found in the first cell (or all of it), cancel words removed. */
  function DateText(row: Row): String
  {
    var s := CleanDateCell(row);
    var d := match Search(WrittenDate, s) case Some(m) => Group(s, m) case None => s;
    Strip(Sub(CancelWord, d, ""))
  }

  /** The time cell with "Noon" read as PM, dots dropped and " M" closed up. */
  function RawTime(row: Row): String
  {
    Replace(Replace(Replace(Strip(Join(" ", CellTexts(row, 1))), "Noon", "PM"), ".", ""), " M", "M")
  }

  /** The time part of `_parse_start`: a cancelled time reads as midnight. */
  function TimeText(row: Row): (r: String)
    ensures '.' !in r
    ensures Contains(Lower(RawTime(row)), "cancel") ==> r == "12:00 am"
    ensures !Contains(Lower(RawTime(row)), "cancel") ==> r == RawTime(row)
  {
    var t1 := Replace(Strip(Join(" ", CellTexts(row, 1))), "Noon", "PM");
    var t2 := Replace(t1, ".", "");
    ReplaceRemovesChar(t1, '.', "");
    ReplaceKeepsAbsent(t2, " M", "M", '.');
    if Contains(Lower(RawTime(row)), "cancel") then "12:00 am" else RawTime(row)
  }

  /** The text handed to the parser: date and time, whitespace collapsed and stripped. */
  function StartText(row: Row): (r: String)
    ensures SpacesCollapsed(r) && (|r| > 0 ==> r[0] != ' ' && r[|r| - 1] != ' ')
  {
    NormalizeSpace(DateText(row) + " " + TimeText(row))
  }

  /** `_parse_start` */
  function StartOf(row: Row, dateparse: String -> Option<DateTime>): (r: Result<DateTime>)
    ensures r.Ok? <==> dateparse(StartText(row)).Some?
    ensures r.Ok? ==> r.value == dateparse(StartText(row)).value
  {
    match dateparse(StartText(row))
    case None => Err(BadStart)
    case Some(dt) => Ok(dt)
  }

  /** A match of the written-date pattern starts with a capital and ends with a digit. */
  lemma WrittenDateEdges(s: String)
    requires Search(WrittenDate, s).Some?
    ensures var g := Group(s, Search(WrittenDate, s).value);
      |g| > 0 && IsUpper(g[0]) && IsDigit(g[|g| - 1])
  {
    var m := Search(WrittenDate, s).value;
    SearchLeftmost(WrittenDate, s);
    FitFirst(WrittenDate, s, m.0, m.1);
    FitLast(WrittenDate, s, m.0, m.1);
  }

  /** Removing a pattern that is nowhere found changes nothing. */
  lemma SubNotFound(p: Pattern, s: String, rep: String)
    requires Search(p, s).None?
    ensures Sub(p, s, rep) == s
  {
  }

  /** `_parse_start` as a function of the row alone. */
  function Starts(dateparse: String -> Option<DateTime>): Row -> Result<DateTime>
  {
    row => StartOf(row, dateparse)
  }

  /**
   * When a written date is found in the first cell and it holds no cancel word, the
   * date part is exactly that written date: it starts with a capital and ends with a digit.
   */
  lemma DateTextFound(row: Row)
    requires Search(WrittenDate, CleanDateCell(row)).Some?
    requires Search(CancelWord, Group(CleanDateCell(row), Search(WrittenDate, CleanDateCell(row)).value)).None?
    ensures var g := Group(CleanDateCell(row), Search(WrittenDate, CleanDateCell(row)).value);
      DateText(row) == g && |g| > 0 && IsUpper(g[0]) && IsDigit(g[|g| - 1])
  {
    var s := CleanDateCell(row);
    var g := Group(s, Search(WrittenDate, s).value);
    WrittenDateEdges(s);
    SubNotFound(CancelWord, g, "");
    StripNoEdgeSpace(g);
  }

  // ---- Meetings ----

  /** A meeting for a table row that starts at `start` and carries the links popped for its date. */
  function RowMeeting(url: String, row: Row, start: DateTime, links: seq<DocLink>): Meeting
  {
    Meeting(MeetingTitle(url, Some(CellTexts(row, 0))), "", MeetingClassification(url), start, None, false, "",
            LocationOf(LastCell(row)), links, url, Join(" ", RowTexts(row.cells)))
  }

  /** The meetings built from the rows so far, the map left, the default start time and the error that stopped it. */
  datatype Built = Built(meetings: seq<Meeting>, docs: DocMap, defaultTime: Option<Time>, failure: Option<String>)

  /**
   * One row of the first loop: read its start (`startOf` is `_parse_start`), note the
   * first start time, pop its date's links.
   */
  function RowStep(prev: Built, url: String, row: Row, startOf: Row -> Result<DateTime>): Built
  {
    if prev.failure.Some? then prev
    else
      match startOf(row)
      case Err(e) => prev.(failure := Some(e))
      case Ok(start) =>
        var time := if prev.defaultTime.None? then Some(start.time) else prev.defaultTime;
        var popped := Pop(prev.docs, start.date);
        Built(prev.meetings + [RowMeeting(url, row, start, popped.0)], popped.1, time, None)
  }

  function RowsBuilt(docs: DocMap, url: String, rows: seq<Row>, startOf: Row -> Result<DateTime>): Built
    decreases |rows|
  {
    if rows == [] then Built([], docs, None, None)
    else RowStep(RowsBuilt(docs, url, rows[..|rows| - 1], startOf), url, rows[|rows| - 1], startOf)
  }

  /** Some meeting of `ms` is on date `d`. */
  predicate Claimed(ms: seq<Meeting>, d: Date)
  {
    exists i :: 0 <= i < |ms| && ms[i].start.date == d
  }

  /** Once a row fails, the rows after it are never read. */
  lemma {:induction false} RowsBuiltStops(docs: DocMap, url: String, rows: seq<Row>, i: nat,
                                          startOf: Row -> Result<DateTime>)
    requires i <= |rows| && RowsBuilt(docs, url, rows[..i], startOf).failure.Some?
    ensures RowsBuilt(docs, url, rows, startOf) == RowsBuilt(docs, url, rows[..i], startOf)
    decreases |rows| - i
  {
    if i < |rows| {
      assert rows[..i + 1][..i] == rows[..i];
      RowsBuiltStops(docs, url, rows, i + 1, startOf);
    } else {
      assert rows[..i] == rows;
    }
  }

  /** Every row's start parses. */
  predicate AllStart(rows: seq<Row>, startOf: Row -> Result<DateTime>)
  {
    forall i :: 0 <= i < |rows| ==> startOf(rows[i]).Ok?
  }

  lemma AllStartSnoc(rows: seq<Row>, startOf: Row -> Result<DateTime>)
    requires rows != []
    ensures AllStart(rows, startOf) <==> AllStart(rows[..|rows| - 1], startOf) && startOf(rows[|rows| - 1]).Ok?
  {
    var front := rows[..|rows| - 1];
    if AllStart(front, startOf) && startOf(rows[|rows| - 1]).Ok? {
      forall i | 0 <= i < |rows| ensures startOf(rows[i]).Ok? {
        if i < |front| { assert rows[i] == front[i]; }
      }
    }
  }

  /** The rows all go through exactly when every row's start parses. */
  lemma {:induction false} RowsBuiltOk(docs: DocMap, url: String, rows: seq<Row>, startOf: Row -> Result<DateTime>)
    ensures RowsBuilt(docs, url, rows, startOf).failure.None? <==> AllStart(rows, startOf)
    decreases |rows|
  {
    if rows != [] {
      RowsBuiltOk(docs, url, rows[..|rows| - 1], startOf);
      AllStartSnoc(rows, startOf);
    }
  }

  /** The meetings of the rows so far, then the next row's if it goes through. */
  lemma RowsBuiltSnoc(docs: DocMap, url: String, rows: seq<Row>, startOf: Row -> Result<DateTime>)
    requires rows != [] && RowsBuilt(docs, url, rows, startOf).failure.None?
    ensures var prev := RowsBuilt(docs, url, rows[..|rows| - 1], startOf);
      var b := RowsBuilt(docs, url, rows, startOf);
      var start := startOf(rows[|rows| - 1]);
      && prev.failure.None? && start.Ok?
      && b.meetings == prev.meetings + [RowMeeting(url, rows[|rows| - 1], start.value, Pop(prev.docs, start.value.date).0)]
      && b.defaultTime == if prev.defaultTime.None? then Some(start.value.time) else prev.defaultTime
  {
  }

  /**
   * When the rows all go through there is one meeting per row, and the default
   * start time is the first meeting's.
   */
  lemma {:induction false} RowsBuiltCount(docs: DocMap, url: String, rows: seq<Row>, startOf: Row -> Result<DateTime>)
    requires AllStart(rows, startOf)
    ensures var b := RowsBuilt(docs, url, rows, startOf);
      && b.failure.None?
      && |b.meetings| == |rows|
      && b.defaultTime == if rows == [] then None else Some(b.meetings[0].start.time)
    decreases |rows|
  {
    RowsBuiltOk(docs, url, rows, startOf);
    if rows != [] {
      AllStartSnoc(rows, startOf);
      RowsBuiltCount(docs, url, rows[..|rows| - 1], startOf);
      RowsBuiltSnoc(docs, url, rows, startOf);
    }
  }

  /** `m` is the meeting built for `row` starting at `start`, whatever links it carries. */
  predicate FromRow(m: Meeting, url: String, row: Row, start: DateTime)
  {
    m == RowMeeting(url, row, start, m.links)
  }

  /** When the rows all go through, the `i`-th meeting is the `i`-th row's. */
  lemma {:induction false} RowsBuiltAt(docs: DocMap, url: String, rows: seq<Row>, startOf: Row -> Result<DateTime>, i: nat)
    requires AllStart(rows, startOf) && i < |rows|
    ensures var ms := RowsBuilt(docs, url, rows, startOf).meetings;
      i < |ms| && FromRow(ms[i], url, rows[i], startOf(rows[i]).value)
    decreases |rows|
  {
    RowsBuiltCount(docs, url, rows, startOf);
    AllStartSnoc(rows, startOf);
    RowsBuiltSnoc(docs, url, rows, startOf);
    var front := rows[..|rows| - 1];
    var ms := RowsBuilt(docs, url, rows, startOf).meetings;
    var prev := RowsBuilt(docs, url, front, startOf);
    var start := startOf(rows[|rows| - 1]).value;
    var last := RowMeeting(url, rows[|rows| - 1], start, Pop(prev.docs, start.date).0);
    assert ms == prev.meetings + [last];
    if i < |front| {
      RowsBuiltAt(docs, url, front, startOf, i);
      RowsBuiltCount(docs, url, front, startOf);
      assert rows[i] == front[i];
      assert ms[i] == prev.meetings[i];
      assert FromRow(ms[i], url, rows[i], startOf(rows[i]).value);
    } else {
      assert i == |rows| - 1 && ms[i] == last;
      FromRowOf(url, rows[|rows| - 1], start, Pop(prev.docs, start.date).0);
    }
  }

  lemma FromRowOf(url: String, row: Row, start: DateTime, links: seq<DocLink>)
    ensures FromRow(RowMeeting(url, row, start, links), url, row, start)
  {
  }

  /** When the rows all go through, the meetings follow the rows in order, with each row's title, start and place. */
  lemma RowsBuiltMeetings(docs: DocMap, url: String, rows: seq<Row>, startOf: Row -> Result<DateTime>)
    requires AllStart(rows, startOf)
    ensures var ms := RowsBuilt(docs, url, rows, startOf).meetings;
      |ms| == |rows| &&
      forall i :: 0 <= i < |rows| ==> FromRow(ms[i], url, rows[i], startOf(rows[i]).value)
  {
    RowsBuiltCount(docs, url, rows, startOf);
    forall i | 0 <= i < |rows|
      ensures FromRow(RowsBuilt(docs, url, rows, startOf).meetings[i], url, rows[i], startOf(rows[i]).value)
    {
      RowsBuiltAt(docs, url, rows, startOf, i);
    }
  }

  /** A date is claimed by the meetings plus one more exactly when it is the new one's or already claimed. */
  lemma ClaimedSnoc(ms: seq<Meeting>, m: Meeting, d: Date)
    ensures Claimed(ms + [m], d) <==> m.start.date == d || Claimed(ms, d)
  {
    if Claimed(ms, d) {
      var i :| 0 <= i < |ms| && ms[i].start.date == d;
      assert (ms + [m])[i] == ms[i];
    }
    if Claimed(ms + [m], d) && m.start.date != d {
      var i :| 0 <= i < |ms + [m]| && (ms + [m])[i].start.date == d;
      assert ms[i] == (ms + [m])[i];
    }
    assert (ms + [m])[|ms|] == m;
  }

  /**
   * With distinct dates in the map, the map left after the rows holds the dates no
   * row meeting took, each with its original links, and the dates stay distinct.
   */
  lemma {:induction false} RowsBuiltDocs(docs: DocMap, url: String, rows: seq<Row>, startOf: Row -> Result<DateTime>)
    requires Distinct(docs)
    ensures var b := RowsBuilt(docs, url, rows, startOf);
      && Distinct(b.docs)
      && forall d :: Get(b.docs, d) == if Claimed(b.meetings, d) then None else Get(docs, d)
    decreases |rows|
  {
    if rows != [] {
      var front := rows[..|rows| - 1];
      RowsBuiltDocs(docs, url, front, startOf);
      var prev := RowsBuilt(docs, url, front, startOf);
      var row := rows[|rows| - 1];
      if prev.failure.None? && startOf(row).Ok? {
        var start := startOf(row).value;
        var popped := Pop(prev.docs, start.date);
        var m := RowMeeting(url, row, start, popped.0);
        assert RowsBuilt(docs, url, rows, startOf) == Built(prev.meetings + [m], popped.1, RowStep(prev, url, row, startOf).defaultTime, None);
        PopGet(prev.docs, start.date);
        forall d
          ensures Get(popped.1, d) == if Claimed(prev.meetings + [m], d) then None else Get(docs, d)
        {
          ClaimedSnoc(prev.meetings, m, d);
        }
      }
    }
  }

  /**
   * Each date's links go to one meeting: a row meeting carries the links filed under
   * its date unless an earlier row meeting on the same date has already taken them.
   */
  lemma {:induction false} RowsBuiltLinks(docs: DocMap, url: String, rows: seq<Row>, startOf: Row -> Result<DateTime>)
    requires Distinct(docs)
    ensures var ms := RowsBuilt(docs, url, rows, startOf).meetings;
      forall i :: 0 <= i < |ms| ==>
        ms[i].links == if Claimed(ms[..i], ms[i].start.date) then [] else Get(docs, ms[i].start.date).GetOr([])
    decreases |rows|
  {
    if rows != [] {
      var front := rows[..|rows| - 1];
      RowsBuiltLinks(docs, url, front, startOf);
      var prev := RowsBuilt(docs, url, front, startOf);
      var row := rows[|rows| - 1];
      if prev.failure.None? && startOf(row).Ok? {
        var start := startOf(row).value;
        var popped := Pop(prev.docs, start.date);
        var m := RowMeeting(url, row, start, popped.0);
        var ms := prev.meetings + [m];
        assert RowsBuilt(docs, url, rows, startOf).meetings == ms;
        RowsBuiltDocs(docs, url, front, startOf);
        PopGet(prev.docs, start.date);
        assert ms[..|prev.meetings|] == prev.meetings;
        forall i | 0 <= i < |prev.meetings|
          ensures ms[..i] == prev.meetings[..i] && ms[i] == prev.meetings[i]
        {
        }
      }
    }
  }

  /** A meeting for a date left in the map, at the default start time, in the base place. */
  function DocMeeting(url: String, entry: (Date, seq<DocLink>), time: Time): Meeting
  {
    Meeting(MeetingTitle(url, None), "", MeetingClassification(url), Combine(entry.0, time), None, false, "",
            Location, entry.1, url, "")
  }

  function DocMeetings(docs: DocMap, url: String, time: Time): (r: seq<Meeting>)
    ensures |r| == |docs|
  {
    if docs == [] then [] else DocMeetings(docs[..|docs| - 1], url, time) + [DocMeeting(url, docs[|docs| - 1], time)]
  }

  /** One meeting per date left, in the map's order, on that date and with its links. */
  lemma {:induction false} DocMeetingsAt(docs: DocMap, url: String, time: Time)
    ensures forall i :: 0 <= i < |docs| ==>
      DocMeetings(docs, url, time)[i] == DocMeeting(url, docs[i], time) &&
      DocMeetings(docs, url, time)[i].start == DateTime(docs[i].0, time) &&
      DocMeetings(docs, url, time)[i].links == docs[i].1
    decreases |docs|
  {
    if docs != [] {
      DocMeetingsAt(docs[..|docs| - 1], url, time);
    }
  }

  /** The second loop of `_parse_meetings`: nothing left, or a meeting per date left when a default time is known. */
  function Leftovers(docs: DocMap, url: String, time: Option<Time>): (r: Result<seq<Meeting>>)
    ensures r.Err? <==> docs != [] && time.None?
    ensures r.Ok? ==> |r.value| == |docs|
  {
    if docs == [] then Ok([])
    else if time.None? then Err(NoDefaultTime)
    else Ok(DocMeetings(docs, url, time.value))
  }

  /** Meetings that start before the cutoff are dropped unless archiving. */
  function Recent(ms: seq<Meeting>, cutoff: DateTime, archive: bool): seq<Meeting>
  {
    if ms == [] then []
    else
      var last := ms[|ms| - 1];
      Recent(ms[..|ms| - 1], cutoff, archive) + (if Before(last.start, cutoff) && !archive then [] else [last])
  }

  /** What is kept is a subsequence that, unless archiving, starts no earlier than the cutoff; archiving keeps all. */
  lemma {:induction false} RecentWindow(ms: seq<Meeting>, cutoff: DateTime, archive: bool)
    ensures var k := Recent(ms, cutoff, archive);
      && |k| <= |ms|
      && (forall m :: m in k ==> m in ms)
      && (!archive ==> forall i :: 0 <= i < |k| ==> !Before(k[i].start, cutoff))
      && (archive ==> k == ms)
    decreases |ms|
  {
    if ms != [] {
      RecentWindow(ms[..|ms| - 1], cutoff, archive);
      if archive {
        assert ms[..|ms| - 1] + [ms[|ms| - 1]] == ms;
      }
    }
  }

  /** `_parse_meetings`: the result and the map it leaves behind. */
  function MeetingsPage(docs: DocMap, page: Page, today: DateTime, archive: bool,
                        dateparse: String -> Option<DateTime>): (r: (Result<seq<Meeting>>, DocMap))
    requires Valid(today)
  {
    if page.intro.None? then (Err(NoIntro), docs)
    else if !Contains(Lower(Join(" ", page.intro.value)), "500 woodward ave") then (Err(Moved), docs)
    else
      var b := RowsBuilt(docs, page.url, page.rows, Starts(dateparse));
      if b.failure.Some? then (Err(b.failure.value), b.docs)
      else
        match Leftovers(b.docs, page.url, b.defaultTime)
        case Err(e) => (Err(e), b.docs)
        case Ok(extra) =>
          match Authority.YearAgo(today)
          case Err(e) => (Err(e), b.docs)
          case Ok(cutoff) => (Ok(Recent(b.meetings + extra, cutoff, archive)), b.docs)
  }

  /**
   * No date gets two meetings from the map: a date left over for its own meeting is
   * never a row meeting's date.
   */
  lemma LeftoverDatesUnclaimed(docs: DocMap, url: String, rows: seq<Row>, startOf: Row -> Result<DateTime>)
    requires Distinct(docs)
    ensures var b := RowsBuilt(docs, url, rows, startOf);
      forall i, j :: 0 <= i < |b.meetings| && 0 <= j < |b.docs| ==> b.meetings[i].start.date != b.docs[j].0
  {
    var b := RowsBuilt(docs, url, rows, startOf);
    RowsBuiltDocs(docs, url, rows, startOf);
    forall i, j | 0 <= i < |b.meetings| && 0 <= j < |b.docs|
      ensures b.meetings[i].start.date != b.docs[j].0
    {
      assert Claimed(b.meetings, b.meetings[i].start.date);
      KeysAt(b.docs, j);
    }
  }

  lemma {:induction false} KeysAt(m: DocMap, j: nat)
    requires j < |m|
    ensures m[j].0 in Keys(m)
    decreases j
  {
    if j > 0 { KeysAt(m[1..], j - 1); }
  }

  // ---- The follow-up request ----

  /** The length of the run of characters other than `.` and `/` at the start of `s`. */
  function NameRun(s: String): nat
  {
    LeadingCount(s, c => c != '.' && c != '/')
  }

  /** `(?<=/)[^\./]*(?=\.php)` matches at `k`: right after a slash, a name running up to `.php`. */
  predicate PageNameAt(s: String, k: nat)
  {
    0 < k < |s| && s[k - 1] == '/' && OccursAt(s, ".php", k + NameRun(s[k..]))
  }

  /** The text from `from` on with each page name before `.php` replaced by `upcoming_meetings`. */
  function Rename(s: String, from: nat): String
    requires from <= |s|
    decreases |s| - from
  {
    if from == |s| then []
    else if PageNameAt(s, from) then
      var e := from + NameRun(s[from..]);
      if e == from then "upcoming_meetings" + [s[from]] + Rename(s, from + 1)
      else "upcoming_meetings" + Rename(s, e)
    else [s[from]] + Rename(s, from + 1)
  }

  /** The address of the upcoming-meetings page next to the past-meetings page. */
  function UpcomingUrl(url: String): String
  {
    Rename(url, 0)
  }

  /** Where no page name starts, one character is copied. */
  lemma RenameStep(s: String, from: nat)
    requires from < |s| && !PageNameAt(s, from)
    ensures Rename(s, from) == [s[from]] + Rename(s, from + 1)
  {
  }

  /** Where no page name starts, the text is copied as it is. */
  lemma {:induction false} RenameCopies(s: String, from: nat, upto: nat)
    requires from <= upto <= |s|
    requires forall k :: from <= k < upto ==> !PageNameAt(s, k)
    ensures Rename(s, from) == s[from..upto] + Rename(s, upto)
    decreases upto - from
  {
    if from < upto {
      assert !PageNameAt(s, from);
      RenameCopies(s, from + 1, upto);
      RenameCopiesStep(s, from, upto);
    }
  }

  /** One copied character in front of a copied stretch. */
  lemma RenameCopiesStep(s: String, from: nat, upto: nat)
    requires from < upto <= |s| && !PageNameAt(s, from)
    requires Rename(s, from + 1) == s[from + 1..upto] + Rename(s, upto)
    ensures Rename(s, from) == s[from..upto] + Rename(s, upto)
  {
    RenameStep(s, from);
    var tail := Rename(s, upto);
    assert [s[from]] + (s[from + 1..upto] + tail) == ([s[from]] + s[from + 1..upto]) + tail;
    assert [s[from]] + s[from + 1..upto] == s[from..upto];
  }

  /** An address without `.php` is requested as it is. */
  lemma UpcomingUrlNoPage(url: String)
    requires !Contains(url, ".php")
    ensures UpcomingUrl(url) == url
  {
    forall k | 0 <= k < |url| ensures !PageNameAt(url, k) { }
    RenameCopies(url, 0, |url|);
  }

  /** After its dot, the closing `.php` is copied through. */
  lemma RenameExtension(s: String, e: nat)
    requires e + 4 == |s| && s[e..] == ".php"
    ensures Rename(s, e + 1) == "php"
  {
    assert s[e] == '.' && s[e + 1] == 'p' && s[e + 2] == 'h' && s[e + 3] == 'p';
    assert !PageNameAt(s, e + 3) && !PageNameAt(s, e + 2) && !PageNameAt(s, e + 1);
    assert Rename(s, e + 3) == "p";
    assert Rename(s, e + 2) == "hp";
  }

  /** The closing `.php`, not right after a slash, is copied through. */
  lemma RenameTail(s: String, e: nat)
    requires e + 4 == |s| && s[e..] == ".php" && (e > 0 ==> s[e - 1] != '/')
    ensures Rename(s, e) == ".php"
  {
    RenameExtension(s, e);
    assert s[e] == '.' && !PageNameAt(s, e);
  }

  /** A name free of dots and slashes runs up to the dot that follows it. */
  lemma NameRunOf(name: String, rest: String)
    requires '.' !in name && '/' !in name && rest != [] && rest[0] == '.'
    ensures NameRun(name + rest) == |name|
  {
    var r := NameRun(name + rest);
    assert (name + rest)[|name|] == '.';
  }

  /** Where a page name starts, it is replaced (an empty one before the character there). */
  lemma RenameReplace(s: String, from: nat)
    requires from < |s| && PageNameAt(s, from)
    ensures var e := from + NameRun(s[from..]);
      Rename(s, from) == if e == from then "upcoming_meetings" + [s[from]] + Rename(s, from + 1)
                         else "upcoming_meetings" + Rename(s, e)
  {
  }

  /** A name after a slash, free of dots and slashes and followed by the closing `.php`, is a page name. */
  lemma LastPageName(s: String, j: nat, name: String)
    requires 0 < j <= |s| && s[j - 1] == '/' && s[j..] == name + ".php" && '.' !in name && '/' !in name
    ensures j < |s| && PageNameAt(s, j) && NameRun(s[j..]) == |name|
    ensures s[j + |name|..] == ".php" && (|name| > 0 ==> s[j + |name| - 1] != '/') && (|name| == 0 ==> s[j] == '.')
  {
    NameRunOf(name, ".php");
    var e := j + |name|;
    assert s[e..] == ".php";
    assert OccursAt(s, ".php", e);
    if |name| > 0 {
      assert s[e - 1] == name[|name| - 1];
    }
  }

  /** A page name right after a slash and running to the closing `.php` is replaced. */
  lemma RenameLastPage(s: String, j: nat, name: String)
    requires 0 < j <= |s| && s[j - 1] == '/' && s[j..] == name + ".php" && '.' !in name && '/' !in name
    ensures Rename(s, j) == "upcoming_meetings.php"
  {
    LastPageName(s, j, name);
    UpcomingName();
    if |name| > 0 {
      RenameNamedPage(s, j, j + |name|);
    } else {
      RenameEmptyPage(s, j);
    }
  }

  lemma RenameNamedPage(s: String, j: nat, e: nat)
    requires j < e && e + 4 == |s| && PageNameAt(s, j) && j + NameRun(s[j..]) == e
    requires s[e..] == ".php" && s[e - 1] != '/'
    ensures Rename(s, j) == "upcoming_meetings" + ".php"
  {
    RenameReplace(s, j);
    RenameTail(s, e);
  }

  lemma RenameEmptyPage(s: String, j: nat)
    requires j + 4 == |s| && PageNameAt(s, j) && NameRun(s[j..]) == 0 && s[j..] == ".php"
    ensures Rename(s, j) == "upcoming_meetings" + "." + "php"
  {
    RenameReplace(s, j);
    RenameExtension(s, j);
  }

  lemma UpcomingName()
    ensures "upcoming_meetings" + ".php" == "upcoming_meetings.php"
    ensures "upcoming_meetings" + "." + "php" == "upcoming_meetings.php"
  {
  }

  /** No page name starts before a slash when the text before it holds no `.php`. */
  lemma NoPageNameBefore(s: String, n: nat, k: nat)
    requires k <= n < |s| && s[n] == '/' && !Contains(s[..n], ".php")
    ensures !PageNameAt(s, k)
  {
    if k < |s| {
      assert s[k..][n - k] == s[n];
      var e := k + NameRun(s[k..]);
      assert e <= n;
      if e + 4 <= n {
        assert s[e..e + 4] == s[..n][e..e + 4];
        assert !OccursAt(s[..n], ".php", e);
        assert !OccursAt(s, ".php", e);
      } else if e + 4 <= |s| {
        assert s[e..e + 4][n - e] == s[n];
      }
    }
  }

  /** After the last slash, a page name running to the closing `.php` is replaced, and nothing before it is. */
  lemma UpcomingAfterSlash(s: String, n: nat, name: String)
    requires n < |s| && s[n] == '/' && !Contains(s[..n], ".php")
    requires s[n + 1..] == name + ".php" && '.' !in name && '/' !in name
    ensures UpcomingUrl(s) == s[..n + 1] + "upcoming_meetings.php"
  {
    forall k | 0 <= k < n + 1 ensures !PageNameAt(s, k) {
      NoPageNameBefore(s, n, k);
    }
    RenameCopies(s, 0, n + 1);
    RenameLastPage(s, n + 1, name);
  }

  /** The page name at the end of the address is replaced: `.../past_meetings.php` becomes `.../upcoming_meetings.php`. */
  lemma UpcomingUrlPage(base: String, name: String)
    requires !Contains(base, ".php") && '.' !in name && '/' !in name
    ensures UpcomingUrl(base + "/" + name + ".php") == base + "/upcoming_meetings.php"
  {
    var s := base + "/" + name + ".php";
    var n := |base|;
    assert s[..n] == base && s[n] == '/' && s[n + 1..] == name + ".php";
    UpcomingAfterSlash(s, n, name);
    assert s[..n + 1] == base + "/";
    assert "/" + "upcoming_meetings.php" == "/upcoming_meetings.php";
  }

  // ---- The spider ----

  class Spider {
    /** `document_date_map` */
    var documents: DocMap

    constructor()
      ensures documents == []
    {
      documents := [];
    }

    /** `_parse_doc_links` */
    method ParseDocLinks(anchors: seq<Anchor>, join: String -> String) returns (links: seq<DocLink>)
      ensures links == DocLinks(anchors, join)
    {
      links := [];
      for i := 0 to |anchors|
        invariant links == DocLinks(anchors[..i], join)
      {
        DocLinksSnoc(anchors[..i], anchors[i], join);
        assert anchors[..i + 1] == anchors[..i] + [anchors[i]];
        if anchors[i].href.Some? && !anchors[i].hidden {
          links := links + [DocLink(anchors[i].text, join(anchors[i].href.value))];
        }
      }
      assert anchors[..|anchors|] == anchors;
    }

    /** `_parse_past_documents`: file each row's links under its date; the first bad row stops it. */
    method ParsePastDocuments(rows: seq<DocRow>, join: String -> String) returns (failure: Option<String>)
      modifies this
      ensures Filed(documents, failure) == PastFiled(old(documents), rows, join)
    {
      for i := 0 to |rows|
        invariant PastFiled(old(documents), rows[..i], join) == Filed(documents, None)
      {
        assert rows[..i + 1][..i] == rows[..i];
        var date := DocDate(rows[i]);
        if date.Err? {
          PastFiledStops(old(documents), rows, i + 1, join);
          return Some(date.error);
        }
        var links := ParseDocLinks(rows[i].anchors, join);
        documents := Put(documents, date.value, links);
      }
      assert rows[..|rows|] == rows;
      return None;
    }

    /** The first loop of `_parse_meetings`: a meeting per row, popping its date's links. */
    method BuildMeetings(url: String, rows: seq<Row>, startOf: Row -> Result<DateTime>)
      returns (meetings: seq<Meeting>, defaultTime: Option<Time>, failure: Option<String>)
      modifies this
      ensures Built(meetings, documents, defaultTime, failure) == RowsBuilt(old(documents), url, rows, startOf)
    {
      meetings, defaultTime := [], None;
      for i := 0 to |rows|
        invariant RowsBuilt(old(documents), url, rows[..i], startOf) == Built(meetings, documents, defaultTime, None)
      {
        assert rows[..i + 1][..i] == rows[..i];
        var start := startOf(rows[i]);
        if start.Err? {
          RowsBuiltStops(old(documents), url, rows, i + 1, startOf);
          return meetings, defaultTime, Some(start.error);
        }
        if defaultTime.None? {
          defaultTime := Some(start.value.time);
        }
        var popped := Pop(documents, start.value.date);
        documents := popped.1;
        meetings := meetings + [RowMeeting(url, rows[i], start.value, popped.0)];
      }
      assert rows[..|rows|] == rows;
      return meetings, defaultTime, None;
    }

    /** The second loop of `_parse_meetings`: a meeting per date left in the map. */
    method LeftoverMeetings(url: String, time: Option<Time>) returns (r: Result<seq<Meeting>>)
      ensures r == Leftovers(documents, url, time)
    {
      var extra: seq<Meeting> := [];
      for i := 0 to |documents|
        invariant time.None? ==> i == 0 && extra == []
        invariant time.Some? ==> extra == DocMeetings(documents[..i], url, time.value)
      {
        assert documents[..i + 1][..i] == documents[..i];
        if time.None? {
          return Err(NoDefaultTime);
        }
        extra := extra + [DocMeeting(url, documents[i], time.value)];
      }
      assert documents[..|documents|] == documents;
      return Ok(extra);
    }

    /** The last loop of `_parse_meetings`: drop what started over a year ago unless archiving. */
    method KeepRecent(ms: seq<Meeting>, cutoff: DateTime, archive: bool) returns (kept: seq<Meeting>)
      ensures kept == Recent(ms, cutoff, archive)
    {
      kept := [];
      for i := 0 to |ms|
        invariant kept == Recent(ms[..i], cutoff, archive)
      {
        assert ms[..i + 1][..i] == ms[..i];
        if Before(ms[i].start, cutoff) && !archive {
          continue;
        }
        kept := kept + [ms[i]];
      }
      assert ms[..|ms|] == ms;
    }

    /** `_parse_meetings` */
    method ParseMeetings(page: Page, today: DateTime, archive: bool, dateparse: String -> Option<DateTime>)
      returns (r: Result<seq<Meeting>>)
      requires Valid(today)
      modifies this
      ensures (r, documents) == MeetingsPage(old(documents), page, today, archive, dateparse)
    {
      if page.intro.None? {
        return Err(NoIntro);
      }
      if !Contains(Lower(Join(" ", page.intro.value)), "500 woodward ave") {
        return Err(Moved);
      }
      var meetings, defaultTime, failure := BuildMeetings(page.url, page.rows, Starts(dateparse));
      if failure.Some? {
        return Err(failure.value);
      }
      var extra := LeftoverMeetings(page.url, defaultTime);
      if extra.Err? {
        return Err(extra.error);
      }
      var cutoff := Authority.YearAgo(today);
      if cutoff.Err? {
        return Err(cutoff.error);
      }
      var kept := KeepRecent(meetings + extra.value, cutoff.value, archive);
      return Ok(kept);
    }

    /**
     * `parse`: a past-meetings page files its documents and asks for the upcoming
     * meetings page; any other page gives its meetings.
     */
    method Parse(page: Page, today: DateTime, archive: bool, dateparse: String -> Option<DateTime>,
                 join: String -> String) returns (r: Result<Output>)
      requires Valid(today)
      modifies this
      ensures Contains(page.url, "past") ==>
        var f := PastFiled(old(documents), page.docRows, join);
        documents == f.docs && r == if f.failure.Some? then Err(f.failure.value) else Ok(Follow(UpcomingUrl(page.url)))
      ensures !Contains(page.url, "past") ==>
        var m := MeetingsPage(old(documents), page, today, archive, dateparse);
        documents == m.1 && r == if m.0.Err? then Err(m.0.error) else Ok(Meetings(m.0.value))
    {
      if Contains(page.url, "past") {
        var failure := ParsePastDocuments(page.docRows, join);
        if failure.Some? {
          return Err(failure.value);
        }
        return Ok(Follow(UpcomingUrl(page.url)));
      }
      var meetings := ParseMeetings(page, today, archive, dateparse);
      if meetings.Err? {
        return Err(meetings.error);
      }
      return Ok(Meetings(meetings.value));
    }
  }
}

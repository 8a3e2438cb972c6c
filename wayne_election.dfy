/**
 * The Wayne County Election Commission spider. The page holds tables of meeting
 * rows. A table whose header names a four-digit year sets the year for its own
 * rows and for the tables after it that name none; a row is a meeting when its
 * first cell holds a capitalised month and a day.
 *
 * `dateutil`'s parser is foreign: `parse` stands for it (`None` when it raises),
 * and `join` for the response's `urljoin`.
 */
module WayneElection {
  import opened Wrappers
  import opened Text
  import opened Regex
  import opened Calendar
  import opened Classification
  import opened Items

  /** A `td` cell: its text nodes in document order and the first `href` beneath it. */
  datatype Cell = Cell(texts: seq<String>, href: Option<String>)

  /** A `tr` row: its `td` cells (header cells are not `td`). */
  datatype Row = Row(cells: seq<Cell>)

  /** A table: the text nodes of its header cells, and its rows. */
  datatype Table = Table(header: seq<String>, rows: seq<Row>)

  /** A document link, titled by the cell's first text (absent when the cell has no text). */
  datatype Document = Document(href: String, title: Option<String>)

  datatype Meeting = Meeting(title: String, description: String, classification: Classification,
                             start: DateTime, end: Option<DateTime>, timeNotes: String, allDay: bool,
                             location: Place, links: seq<Document>)

  const MeetingTitle := "Election Commission"
  const Location := Place("Coleman A. Young Municipal Center, Conference Room 700A", "2 Woodward Ave, Detroit, MI 48226")
  const BadDate := "ParserError: String does not contain a date"

  /** `\d{4}` */
  const YearPattern: Pattern := [One(IsDigit), One(IsDigit), One(IsDigit), One(IsDigit)]

  /** `[A-Z][a-z]{2,9} \d\d?` */
  const DatePattern: Pattern := [One(IsUpper), Rep(IsLower, 2, 9), One(c => c == ' '), One(IsDigit), Opt(IsDigit)]

  /** The first four-digit run of the space-joined header text, if any. */
  function HeaderYear(header: seq<String>): (r: Option<String>)
    ensures r.None? <==> NoFitFrom(YearPattern, Join(" ", header), 0)
    ensures r.Some? ==> |r.value| == 4 && AllDigits(r.value) && Contains(Join(" ", header), r.value)
  {
    var text := Join(" ", header);
    SearchLeftmost(YearPattern, text);
    match Search(YearPattern, text)
    case None => None
    case Some(m) => YearGroup(text, m); Some(Group(text, m))
  }

  lemma YearGroup(text: String, m: (nat, seq<nat>))
    requires m.0 <= |text| && Ordered(m.0, m.1, |text|) && Fits(YearPattern, text, m.0, m.1)
    ensures var g := Group(text, m); |g| == 4 && AllDigits(g) && Contains(text, g)
  {
    SinglesFits(YearPattern, text, m.0, m.1);
    var g := text[m.0..m.0 + 4];
    forall k | 0 <= k < 4 ensures IsDigit(g[k]) {
      assert YearPattern[k].cls(text[m.0 + k]);
    }
    assert OccursAt(text, g, m.0);
  }

  /** The year after reading a table's header: the header's own, or the one carried. */
  function YearOf(header: seq<String>, year: String): (r: String)
    ensures NoFitFrom(YearPattern, Join(" ", header), 0) ==> r == year
    ensures !NoFitFrom(YearPattern, Join(" ", header), 0) ==>
      |r| == 4 && AllDigits(r) && Contains(Join(" ", header), r)
  {
    match HeaderYear(header)
    case None => year
    case Some(y) => y
  }

  /** `td[1]//text()`, first or "": the first text of the first cell. */
  function FirstCellText(row: Row): String
  {
    if row.cells == [] || row.cells[0].texts == [] then "" else row.cells[0].texts[0]
  }

  /** The first month-and-day in a text, such as "March 12". */
  function DateMatch(text: String): (r: Option<String>)
    ensures r.None? <==> NoFitFrom(DatePattern, text, 0)
    ensures r.Some? ==> 5 <= |r.value| && IsUpper(r.value[0]) && IsDigit(r.value[|r.value| - 1]) && Contains(text, r.value)
  {
    SearchLeftmost(DatePattern, text);
    match Search(DatePattern, text)
    case None => None
    case Some(m) => DateGroup(text, m); Some(Group(text, m))
  }

  lemma DateGroup(text: String, m: (nat, seq<nat>))
    requires m.0 <= |text| && Ordered(m.0, m.1, |text|) && Fits(DatePattern, text, m.0, m.1)
    ensures var g := Group(text, m);
      5 <= |g| && IsUpper(g[0]) && IsDigit(g[|g| - 1]) && Contains(text, g)
  {
    var e := m.1;
    var p := DatePattern;
    assert p[1..][1..][1..][1..] == [Opt(IsDigit)];
    assert Fits(p[1..], text, e[0], e[1..]);
    assert Fits(p[1..][1..], text, e[1], e[1..][1..]);
    assert Fits(p[1..][1..][1..], text, e[2], e[1..][1..][1..]);
    assert Fits(p[1..][1..][1..][1..], text, e[3], e[1..][1..][1..][1..]);
    assert e[0] == m.0 + 1 && IsUpper(text[m.0]);
    assert e[1] >= e[0] + 2;
    assert e[2] == e[1] + 1;
    assert e[3] == e[2] + 1 && IsDigit(text[e[2]]);
    assert e[4] == e[3] || (e[4] == e[3] + 1 && IsDigit(text[e[3]]));
    var g := text[m.0..e[4]];
    assert MatchEnd(m.0, e) == e[4];
    assert g[|g| - 1] == text[e[4] - 1];
    assert OccursAt(text, g, m.0);
  }

  /**
   * `_parse_start`: `None` (the row is skipped) when the first cell has no month and
   * day; otherwise the parser's reading of that match, a space and the carried year.
   */
  function StartOf(row: Row, year: String, parse: String -> Option<DateTime>): (r: Option<Result<DateTime>>)
    ensures r.None? <==> NoFitFrom(DatePattern, FirstCellText(row), 0)
    ensures r.Some? ==>
      var text := DateMatch(FirstCellText(row)).value + " " + year;
      (r.value.Ok? <==> parse(text).Some?) && (r.value.Ok? ==> r.value.value == parse(text).value)
  {
    match DateMatch(FirstCellText(row))
    case None => None
    case Some(d) =>
      match parse(d + " " + year)
      case None => Some(Err(BadDate))
      case Some(dt) => Some(Ok(dt))
  }

  /** `_has_url`: the cell has a non-empty `href`. */
  predicate HasUrl(cell: Cell)
  {
    cell.href.Some? && cell.href.value != ""
  }

  /** `_build_document` */
  function DocumentOf(cell: Cell, join: String -> String): (r: Document)
    requires HasUrl(cell)
    ensures r.href == join(cell.href.value)
    ensures r.title.None? <==> cell.texts == []
    ensures r.title.Some? ==> r.title.value == cell.texts[0]
  {
    Document(join(cell.href.value), if cell.texts == [] then None else Some(cell.texts[0]))
  }

  /** One document per cell with a link, in cell order. */
  function CellLinks(cells: seq<Cell>, join: String -> String): (r: seq<Document>)
    ensures |r| <= |cells|
    ensures forall k :: 0 <= k < |r| ==> exists j :: 0 <= j < |cells| && HasUrl(cells[j]) && r[k] == DocumentOf(cells[j], join)
  {
    if cells == [] then []
    else
      var rest := CellLinks(cells[1..], join);
      assert forall k :: 0 <= k < |rest| ==> exists j :: 0 <= j < |cells| && HasUrl(cells[j]) && rest[k] == DocumentOf(cells[j], join) by {
        forall k | 0 <= k < |rest|
          ensures exists j :: 0 <= j < |cells| && HasUrl(cells[j]) && rest[k] == DocumentOf(cells[j], join)
        {
          var j :| 0 <= j < |cells[1..]| && HasUrl(cells[1..][j]) && rest[k] == DocumentOf(cells[1..][j], join);
          assert cells[1..][j] == cells[j + 1];
        }
      }
      if HasUrl(cells[0]) then [DocumentOf(cells[0], join)] + rest else rest
  }

  /** `_parse_links`: every cell after the first that has a link. */
  function LinksOf(row: Row, join: String -> String): (r: seq<Document>)
    ensures |r| < |row.cells| || r == []
  {
    if row.cells == [] then [] else CellLinks(row.cells[1..], join)
  }

  /** Links of adjacent cells come out in the same order, one after the other. */
  lemma {:induction false} CellLinksAppend(a: seq<Cell>, b: seq<Cell>, join: String -> String)
    ensures CellLinks(a + b, join) == CellLinks(a, join) + CellLinks(b, join)
    decreases |a|
  {
    if a == [] {
      assert a + b == b;
    } else {
      assert (a + b)[0] == a[0] && (a + b)[1..] == a[1..] + b;
      CellLinksAppend(a[1..], b, join);
    }
  }

  /** A cell with a link gives exactly its document; one without gives nothing. */
  lemma CellLinksOne(cell: Cell, join: String -> String)
    ensures HasUrl(cell) ==> CellLinks([cell], join) == [DocumentOf(cell, join)]
    ensures !HasUrl(cell) ==> CellLinks([cell], join) == []
  {
    assert [cell][1..] == [];
  }

  /** The meeting a row gives, if it has a date; the parser's error if the date does not parse. */
  function RowMeeting(row: Row, year: String, parse: String -> Option<DateTime>, join: String -> String): (r: Option<Result<Meeting>>)
    ensures r.None? <==> NoFitFrom(DatePattern, FirstCellText(row), 0)
    ensures r.Some? ==> (r.value.Ok? <==> StartOf(row, year, parse).value.Ok?)
    ensures r.Some? && r.value.Ok? ==>
      var m := r.value.value;
      m.start == StartOf(row, year, parse).value.value && m.links == LinksOf(row, join) && Constant(m)
  {
    match StartOf(row, year, parse)
    case None => None
    case Some(Err(e)) => Some(Err(e))
    case Some(Ok(start)) =>
      Some(Ok(Meeting(MeetingTitle, "", Commission, start, None, "", false, Location, LinksOf(row, join))))
  }

  /** The fields every meeting of this spider shares. */
  predicate Constant(m: Meeting)
  {
    m.title == MeetingTitle && m.description == "" && m.classification == Commission &&
    m.end.None? && m.timeNotes == "" && !m.allDay && m.location == Location
  }

  /** The meetings of a table's rows in order, and the error that stopped them, if any. */
  function RowsRun(rows: seq<Row>, year: String, parse: String -> Option<DateTime>, join: String -> String): (seq<Meeting>, Option<String>)
    decreases |rows|
  {
    if rows == [] then ([], None)
    else
      var prev := RowsRun(rows[..|rows| - 1], year, parse, join);
      if prev.1.Some? then prev
      else
        match RowMeeting(rows[|rows| - 1], year, parse, join)
        case None => prev
        case Some(Err(e)) => (prev.0, Some(e))
        case Some(Ok(m)) => (prev.0 + [m], None)
  }

  /** What `parse` has yielded after some tables, how it stopped, and the year it carries. */
  datatype Run = Run(meetings: seq<Meeting>, failure: Option<String>, year: String)

  function TablesRun(tables: seq<Table>, parse: String -> Option<DateTime>, join: String -> String): Run
    decreases |tables|
  {
    if tables == [] then Run([], None, "")
    else
      var prev := TablesRun(tables[..|tables| - 1], parse, join);
      if prev.failure.Some? then prev
      else
        var year := YearOf(tables[|tables| - 1].header, prev.year);
        var rows := RowsRun(tables[|tables| - 1].rows, year, parse, join);
        Run(prev.meetings + rows.0, rows.1, year)
  }

  /** A row without a month and day yields nothing and does not stop the table. */
  lemma RowWithoutDate(rows: seq<Row>, row: Row, year: String, parse: String -> Option<DateTime>, join: String -> String)
    requires NoFitFrom(DatePattern, FirstCellText(row), 0)
    ensures RowsRun(rows + [row], year, parse, join) == RowsRun(rows, year, parse, join)
  {
    assert (rows + [row])[..|rows|] == rows;
  }

  /** No table yields more meetings than it has rows. */
  lemma {:induction false} RowsRunCount(rows: seq<Row>, year: String, parse: String -> Option<DateTime>, join: String -> String)
    ensures |RowsRun(rows, year, parse, join).0| <= |rows|
    decreases |rows|
  {
    if rows != [] {
      RowsRunCount(rows[..|rows| - 1], year, parse, join);
    }
  }

  /** Every meeting of a table has the shared fields and a row's links. */
  lemma {:induction false} RowsRunConstant(rows: seq<Row>, year: String, parse: String -> Option<DateTime>, join: String -> String)
    ensures forall m :: m in RowsRun(rows, year, parse, join).0 ==>
      Constant(m) && exists k :: 0 <= k < |rows| && m.links == LinksOf(rows[k], join)
    decreases |rows|
  {
    if rows != [] {
      var front := rows[..|rows| - 1];
      RowsRunConstant(front, year, parse, join);
      forall m | m in RowsRun(front, year, parse, join).0
        ensures exists k :: 0 <= k < |rows| && m.links == LinksOf(rows[k], join)
      {
        var k :| 0 <= k < |front| && m.links == LinksOf(front[k], join);
        assert front[k] == rows[k];
      }
    }
  }

  /** Every meeting the page yields has the shared fields. */
  lemma {:induction false} TablesRunConstant(tables: seq<Table>, parse: String -> Option<DateTime>, join: String -> String)
    ensures forall m :: m in TablesRun(tables, parse, join).meetings ==> Constant(m)
    decreases |tables|
  {
    if tables != [] {
      TablesRunConstant(tables[..|tables| - 1], parse, join);
      var prev := TablesRun(tables[..|tables| - 1], parse, join);
      RowsRunConstant(tables[|tables| - 1].rows, YearOf(tables[|tables| - 1].header, prev.year), parse, join);
    }
  }

  /** Looking back from table `i`: the year of the nearest header that has one, or "". */
  function LatestYear(tables: seq<Table>, i: nat): String
    requires i < |tables|
  {
    match HeaderYear(tables[i].header)
    case Some(y) => y
    case None => if i == 0 then "" else LatestYear(tables, i - 1)
  }

  /** The rows of table `i` are read with the year of the nearest header up to it that has one. */
  lemma {:induction false} YearCarried(tables: seq<Table>, i: nat, parse: String -> Option<DateTime>, join: String -> String)
    requires i < |tables| && TablesRun(tables[..i], parse, join).failure.None?
    ensures YearOf(tables[i].header, TablesRun(tables[..i], parse, join).year) == LatestYear(tables, i)
  {
    if i > 0 {
      var prev := TablesRun(tables[..i], parse, join);
      assert tables[..i][..i - 1] == tables[..i - 1] && tables[..i][i - 1] == tables[i - 1];
      assert TablesRun(tables[..i - 1], parse, join).failure.None?;
      YearCarried(tables, i - 1, parse, join);
      assert prev.year == YearOf(tables[i - 1].header, TablesRun(tables[..i - 1], parse, join).year);
    }
  }

  /** No header up to table `i` has a year: its rows are read with "". */
  lemma {:induction false} LatestYearNone(tables: seq<Table>, i: nat)
    requires i < |tables| && forall j :: 0 <= j <= i ==> HeaderYear(tables[j].header).None?
    ensures LatestYear(tables, i) == ""
  {
    if i > 0 {
      LatestYearNone(tables, i - 1);
    }
  }

  /** Table `k` names a year and none after it up to `i` does: table `i` reads with that year. */
  lemma {:induction false} LatestYearFrom(tables: seq<Table>, k: nat, i: nat)
    requires k <= i < |tables| && HeaderYear(tables[k].header).Some?
    requires forall j :: k < j <= i ==> HeaderYear(tables[j].header).None?
    ensures LatestYear(tables, i) == HeaderYear(tables[k].header).value
    decreases i
  {
    if k < i {
      LatestYearFrom(tables, k, i - 1);
    }
  }

  /** `parse`: the tables in order, each header read before its rows, stopping at the first parser error. */
  method Parse(tables: seq<Table>, parse: String -> Option<DateTime>, join: String -> String)
    returns (meetings: seq<Meeting>, failure: Option<String>)
    ensures meetings == TablesRun(tables, parse, join).meetings
    ensures failure == TablesRun(tables, parse, join).failure
  {
    meetings, failure := [], None;
    var year := "";
    var i := 0;
    while i < |tables|
      invariant 0 <= i <= |tables|
      invariant TablesRun(tables[..i], parse, join) == Run(meetings, None, year)
    {
      assert tables[..i + 1][..i] == tables[..i] && tables[..i + 1][i] == tables[i];
      year := YearOf(tables[i].header, year);
      var tableMeetings, tableFailure := ParseRows(tables[i].rows, year, parse, join);
      meetings := meetings + tableMeetings;
      if tableFailure.Some? {
        failure := tableFailure;
        TablesRunStops(tables, i + 1, parse, join);
        return;
      }
      i := i + 1;
    }
    assert tables[..i] == tables;
  }

  /** Once a parser error stops the page, later tables change nothing. */
  lemma {:induction false} TablesRunStops(tables: seq<Table>, i: nat, parse: String -> Option<DateTime>, join: String -> String)
    requires i <= |tables| && TablesRun(tables[..i], parse, join).failure.Some?
    ensures TablesRun(tables, parse, join) == TablesRun(tables[..i], parse, join)
    decreases |tables| - i
  {
    if i < |tables| {
      assert tables[..i + 1][..i] == tables[..i];
      TablesRunStops(tables, i + 1, parse, join);
    } else {
      assert tables[..i] == tables;
    }
  }

  /** The inner loop of `parse`: one table's rows, skipping those without a date. */
  method ParseRows(rows: seq<Row>, year: String, parse: String -> Option<DateTime>, join: String -> String)
    returns (meetings: seq<Meeting>, failure: Option<String>)
    ensures (meetings, failure) == RowsRun(rows, year, parse, join)
  {
    meetings, failure := [], None;
    var j := 0;
    while j < |rows|
      invariant 0 <= j <= |rows|
      invariant RowsRun(rows[..j], year, parse, join) == (meetings, None)
    {
      assert rows[..j + 1][..j] == rows[..j] && rows[..j + 1][j] == rows[j];
      var start := StartOf(rows[j], year, parse);
      if start.Some? {
        if start.value.Err? {
          failure := Some(start.value.error);
          RowsRunStops(rows, j + 1, year, parse, join);
          return;
        }
        var meeting := Meeting(MeetingTitle, "", Commission, start.value.value, None, "", false, Location, LinksOf(rows[j], join));
        meetings := meetings + [meeting];
      }
      j := j + 1;
    }
    assert rows[..j] == rows;
  }

  /** Once a parser error stops a table, later rows change nothing. */
  lemma {:induction false} RowsRunStops(rows: seq<Row>, j: nat, year: String, parse: String -> Option<DateTime>, join: String -> String)
    requires j <= |rows| && RowsRun(rows[..j], year, parse, join).1.Some?
    ensures RowsRun(rows, year, parse, join) == RowsRun(rows[..j], year, parse, join)
    decreases |rows| - j
  {
    if j < |rows| {
      assert rows[..j + 1][..j] == rows[..j];
      RowsRunStops(rows, j + 1, year, parse, join);
    } else {
      assert rows[..j] == rows;
    }
  }
}

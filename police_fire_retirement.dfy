/**
 * The Detroit Police & Fire Retirement System scraper: its slug, id and status
 * helpers, the listing scrape over the meetings table and the detail scrape that
 * adds document links.
 */
module PoliceFireRetirement {
  import opened Wrappers
  import opened Text
  import opened Numbers
  import opened Calendar
  import opened Strptime
  import opened Timezone
  import opened Keywords

  const ScraperName: String := "det_police_fire_retirement_v2"
  const AgencyName: String := "Detroit Police & Fire Retirement System"

  // ---------------------------------------------------------------- slugify

  /** The kinds of value `slugify` is given; `str()` turns each into text. */
  datatype PyValue = PyStr(s: String) | PyNone | PyInt(i: int)

  /** `str(v)` */
  function Str(v: PyValue): String
  {
    match v
    case PyStr(s) => s
    case PyNone => "None"
    case PyInt(i) => IntToString(i)
  }

  /** What `[^\w\s-]` does not match, and so survives the first substitution. */
  predicate KeptBySlug(c: char) { IsWordChar(c) || IsSpace(c) || c == '-' }

  /** `[\s_]` */
  predicate SlugSeparator(c: char) { IsSpace(c) || c == '_' }

  /** `re.sub(r"[\s_]+", "_", s)`: every maximal run of whitespace and underscores becomes one underscore. */
  function UnderscoreRuns(s: String): (r: String)
    decreases |s|
    ensures |r| <= |s|
    ensures |r| > 0 <==> |s| > 0
    ensures |r| > 0 ==> (r[0] == '_' <==> SlugSeparator(s[0]))
    ensures forall i :: 0 <= i < |r| ==> !IsSpace(r[i]) && (r[i] == '_' || r[i] in s)
    ensures forall i :: 0 <= i < |r| - 1 ==> !(r[i] == '_' && r[i + 1] == '_')
  {
    if s == [] then []
    else if SlugSeparator(s[0]) then
      var n := LeadingCount(s, SlugSeparator);
      var rest := UnderscoreRuns(s[n..]);
      assert forall c :: c in s[n..] ==> c in s;
      "_" + rest
    else
      var rest := UnderscoreRuns(s[1..]);
      assert forall c :: c in s[1..] ==> c in s;
      [s[0]] + rest
  }

  /**
   * `slugify(text)`: lower-case and strip, drop everything but word characters,
   * whitespace and hyphens, turn each whitespace/underscore run into one underscore,
   * and strip hyphens from both ends.
   */
  function Slugify(v: PyValue): String
  {
    var t := Strip(Lower(Str(v)));
    StripChars(UnderscoreRuns(Filter(t, KeptBySlug)), {'-'})
  }

  predicate SlugChar(c: char) { IsLower(c) || IsDigit(c) || c == '_' || c == '-' }

  /** The shape every slug has: `[a-z0-9_-]*`, no hyphen at either end, no `__`. */
  predicate IsSlug(s: String)
  {
    && (forall i :: 0 <= i < |s| ==> SlugChar(s[i]))
    && (|s| > 0 ==> s[0] != '-' && s[|s| - 1] != '-')
    && (forall i :: 0 <= i < |s| - 1 ==> !(s[i] == '_' && s[i + 1] == '_'))
  }

  /** Every character that survives the filtering of `slugify` is a slug character or whitespace. */
  lemma KeptChars(v: PyValue)
    ensures var k := Filter(Strip(Lower(Str(v))), KeptBySlug);
      forall i :: 0 <= i < |k| ==> SlugChar(k[i]) || IsSpace(k[i])
  {
    var low := Lower(Str(v));
    var a := StripWindow(low);
    var t := Strip(low);
    forall i | 0 <= i < |t| ensures !IsUpper(t[i]) {
      assert t[i] == low[a + i];
    }
  }

  lemma RunsOfKept(kept: String)
    requires forall i :: 0 <= i < |kept| ==> SlugChar(kept[i]) || IsSpace(kept[i])
    ensures forall i :: 0 <= i < |UnderscoreRuns(kept)| ==> SlugChar(UnderscoreRuns(kept)[i])
  {
    var u := UnderscoreRuns(kept);
    forall i | 0 <= i < |u| ensures SlugChar(u[i]) {
      if u[i] != '_' {
        var j :| 0 <= j < |kept| && kept[j] == u[i];
      }
    }
  }

  lemma StripDashes(u: String)
    requires forall i :: 0 <= i < |u| ==> SlugChar(u[i])
    requires forall i :: 0 <= i < |u| - 1 ==> !(u[i] == '_' && u[i + 1] == '_')
    ensures IsSlug(StripChars(u, {'-'}))
  {
    var a := StripCharsWindow(u, {'-'});
    var r := StripChars(u, {'-'});
    forall i | 0 <= i < |r| ensures SlugChar(r[i]) {
      assert r[i] == u[a + i];
    }
    forall i | 0 <= i < |r| - 1 ensures !(r[i] == '_' && r[i + 1] == '_') {
      assert r[i] == u[a + i] && r[i + 1] == u[a + i + 1];
    }
  }

  /** Every value slugifies to a slug. */
  lemma SlugifyIsSlug(v: PyValue)
    ensures IsSlug(Slugify(v))
  {
    var kept := Filter(Strip(Lower(Str(v))), KeptBySlug);
    KeptChars(v);
    RunsOfKept(kept);
    StripDashes(UnderscoreRuns(kept));
  }

  lemma LowerOfSlug(s: String)
    requires IsSlug(s)
    ensures Lower(s) == s
  {
    forall i | 0 <= i < |s| ensures Lower(s)[i] == s[i] {
      assert SlugChar(s[i]);
    }
  }

  lemma {:induction false} UnderscoreRunsOfSlug(s: String)
    requires forall i :: 0 <= i < |s| ==> !IsSpace(s[i])
    requires forall i :: 0 <= i < |s| - 1 ==> !(s[i] == '_' && s[i + 1] == '_')
    ensures UnderscoreRuns(s) == s
    decreases |s|
  {
    if s != [] {
      if SlugSeparator(s[0]) {
        assert |s| > 1 ==> !SlugSeparator(s[1]);
        assert LeadingCount(s, SlugSeparator) == 1;
      }
      UnderscoreRunsOfSlug(s[1..]);
    }
  }

  lemma SlugKept(s: String)
    requires IsSlug(s)
    ensures Filter(s, KeptBySlug) == s
  {
    forall i | 0 <= i < |s| ensures KeptBySlug(s[i]) {
      assert SlugChar(s[i]);
    }
  }

  lemma SlugStripped(s: String)
    requires IsSlug(s)
    ensures Strip(s) == s
  {
    if |s| > 0 {
      assert SlugChar(s[0]) && SlugChar(s[|s| - 1]);
    }
    StripNoEdgeSpace(s);
  }

  lemma SlugNoSpace(s: String)
    requires IsSlug(s)
    ensures forall i :: 0 <= i < |s| ==> !IsSpace(s[i])
  {
    forall i | 0 <= i < |s| ensures !IsSpace(s[i]) {
      assert SlugChar(s[i]);
    }
  }

  lemma SlugDashStripped(s: String)
    requires IsSlug(s)
    ensures StripChars(s, {'-'}) == s
  {
    StripCharsUnchanged(s, {'-'});
  }

  /** A slug is its own slug. */
  lemma SlugifyFixes(s: String)
    requires IsSlug(s)
    ensures Slugify(PyStr(s)) == s
  {
    LowerOfSlug(s);
    SlugStripped(s);
    SlugKept(s);
    SlugNoSpace(s);
    UnderscoreRunsOfSlug(s);
    SlugDashStripped(s);
  }

  /** `slugify(slugify(x)) == slugify(x)` */
  lemma SlugifyIdempotent(v: PyValue)
    ensures Slugify(PyStr(Slugify(v))) == Slugify(v)
  {
    SlugifyIsSlug(v);
    SlugifyFixes(Slugify(v));
  }

  // ---------------------------------------------------------------- ids and status

  /**
   * `generate_id(name, start_time)`: the start time is read with `fromisoformat`
   * after "Z" becomes "+00:00"; its wall-clock fields, not converted by the offset,
   * make the 12-digit stamp.
   */
  function GenerateId(name: PyValue, startTime: String): (r: Result<String>)
    ensures r.Ok? ==> StartsWith(r.value, ScraperName + "/")
  {
    match FromIsoFormat(Replace(startTime, "Z", "+00:00"))
    case Err(e) => Err(e)
    case Ok(parsed) =>
      var stamp := Format(parsed.0, StampLayout);
      StartsWithConcat(ScraperName + "/", stamp);
      StartsWithExtend(ScraperName + "/" + stamp, ScraperName + "/", "/x/");
      StartsWithExtend(ScraperName + "/" + stamp + "/x/", ScraperName + "/", Slugify(name));
      Ok(ScraperName + "/" + stamp + "/x/" + Slugify(name))
  }

  /** No 'Z' occurs in what `change_timezone` writes. */
  lemma NoZInLocalised(dt: DateTime, off: int)
    requires Valid(dt) && -1440 < off < 1440
    ensures 'Z' !in Format(dt, IsoLayout) + OffsetText(off)
  {
    NoZInIso(dt);
    NoZInOffset(off);
  }

  lemma NoZInIso(dt: DateTime)
    requires Valid(dt)
    ensures 'Z' !in Format(dt, IsoLayout)
  {
    IsoTextTail(dt, []);
    assert Format(dt, IsoLayout) + [] == Format(dt, IsoLayout);
    var t := Pad(dt.time.hour, 2) + (":" + (Pad(dt.time.minute, 2) + (":" + (Pad(dt.time.second, 2) + []))));
    NoZInClock(dt.time.hour, dt.time.minute, dt.time.second);
    NoZInDigits(Pad(dt.date.day, 2));
    NotInConcat('Z', "T", t);
    NotInConcat('Z', Pad(dt.date.day, 2), "T" + t);
    NotInConcat('Z', "-", Pad(dt.date.day, 2) + ("T" + t));
    NoZInDigits(Pad(dt.date.month, 2));
    NotInConcat('Z', Pad(dt.date.month, 2), "-" + (Pad(dt.date.day, 2) + ("T" + t)));
    NotInConcat('Z', "-", Pad(dt.date.month, 2) + ("-" + (Pad(dt.date.day, 2) + ("T" + t))));
    NoZInDigits(Pad(dt.date.year, 4));
  }

  lemma NoZInClock(hour: nat, minute: nat, second: nat)
    ensures 'Z' !in Pad(hour, 2) + (":" + (Pad(minute, 2) + (":" + (Pad(second, 2) + []))))
  {
    NoZInDigits(Pad(hour, 2));
    NoZInDigits(Pad(minute, 2));
    NoZInDigits(Pad(second, 2));
    assert Pad(second, 2) + [] == Pad(second, 2);
    NotInConcat('Z', ":", Pad(second, 2));
    NotInConcat('Z', Pad(minute, 2), ":" + Pad(second, 2));
    NotInConcat('Z', ":", Pad(minute, 2) + (":" + Pad(second, 2)));
  }

  lemma NoZInOffset(off: int)
    requires -1440 < off < 1440
    ensures 'Z' !in OffsetText(off)
  {
    OffsetTextShape(off);
    var a: nat := if off < 0 then -off else off;
    NoZInDigits(Pad(a / 60, 2));
    NoZInDigits(Pad(a % 60, 2));
  }

  lemma NoZInDigits(s: String)
    requires AllDigits(s)
    ensures 'Z' !in s
  {
    forall i | 0 <= i < |s|
      ensures s[i] != 'Z'
    {
      assert IsDigit(s[i]);
    }
  }

  /** The text `change_timezone` writes needs no "Z" rewriting and parses back to its fields and offset. */
  lemma ReadLocalised(dt: DateTime, off: int)
    requires Valid(dt) && -1440 < off < 1440
    ensures FromIsoFormat(Replace(Format(dt, IsoLayout) + OffsetText(off), "Z", "+00:00")) == Ok((dt, Some(off)))
  {
    var s := Format(dt, IsoLayout) + OffsetText(off);
    NoZInLocalised(dt, off);
    CharContains(s, 'Z');
    ReplaceAbsent(s, "Z", "+00:00");
    FromIsoFormatLocalised(dt, off);
  }

  /**
   * The id of a meeting whose start `change_timezone` wrote: the scraper name, the
   * wall-clock stamp as written (the offset is not applied) and the slug of the name.
   */
  lemma GenerateIdLocalised(name: PyValue, dt: DateTime, off: int)
    requires Valid(dt) && -1440 < off < 1440
    ensures GenerateId(name, Format(dt, IsoLayout) + OffsetText(off)) ==
      Ok(ScraperName + "/" + Format(dt, StampLayout) + "/x/" + Slugify(name))
  {
    ReadLocalised(dt, off);
  }

  lemma OffsetZero()
    ensures OffsetText(0) == "+00:00"
  {
    Pow10Values();
    assert Pad(0, 2) == "00";
  }

  /** "Z" at the end of an ISO text becomes the "+00:00" offset. */
  lemma ReplaceZulu(dt: DateTime)
    requires Valid(dt)
    ensures Replace(Format(dt, IsoLayout) + "Z", "Z", "+00:00") == Format(dt, IsoLayout) + OffsetText(0)
  {
    var s := Format(dt, IsoLayout);
    NoZInLocalised(dt, 0);
    assert forall c :: c in s ==> c in s + OffsetText(0);
    ReplaceLastChar(s, 'Z', "+00:00");
    OffsetZero();
  }

  /** A UTC time written with "Z" gives the same id as one written with "+00:00". */
  lemma GenerateIdZulu(name: PyValue, dt: DateTime)
    requires Valid(dt)
    ensures GenerateId(name, Format(dt, IsoLayout) + "Z") ==
      Ok(ScraperName + "/" + Format(dt, StampLayout) + "/x/" + Slugify(name))
  {
    ReplaceZulu(dt);
    FromIsoFormatLocalised(dt, 0);
  }

  predicate IsHex(s: String)
  {
    forall i :: 0 <= i < |s| ==> IsDigit(s[i]) || 'a' <= s[i] <= 'f'
  }

  /**
   * `generate_ocd_id(scraper_id)`: "ocd-event/" and the MD5 hex digest cut 8-4-4-4-12.
   * The digest is a parameter; `hashlib.md5(...).hexdigest()` is not modelled.
   */
  function GenerateOcdId(scraperId: String, md5: String -> String): String
  {
    var h := md5(scraperId);
    "ocd-event/" + PySlice(h, 0, 8) + "-" + PySlice(h, 8, 12) + "-" + PySlice(h, 12, 16) + "-" +
      PySlice(h, 16, 20) + "-" + PySlice(h, 20, 32)
  }

  predicate NotDash(c: char) { c != '-' }

  lemma {:induction false} FilterConcat(a: String, b: String, f: char -> bool)
    ensures Filter(a + b, f) == Filter(a, f) + Filter(b, f)
    decreases |a|
  {
    if a != [] {
      var h := if f(a[0]) then [a[0]] else [];
      assert (a + b)[1..] == a[1..] + b;
      FilterConcat(a[1..], b, f);
      calc {
        Filter(a + b, f);
        { assert (a + b)[0] == a[0]; }
        h + Filter(a[1..] + b, f);
        h + (Filter(a[1..], f) + Filter(b, f));
        (h + Filter(a[1..], f)) + Filter(b, f);
        Filter(a, f) + Filter(b, f);
      }
    } else {
      assert a + b == b;
    }
  }

  /**
   * For a 32-digit hex digest the id is 46 characters: the prefix, then the digest
   * in the 8-4-4-4-12 grouping of the UUID string form (section 3 of RFC 4122),
   * from which removing the hyphens gives back the digest.
   */
  lemma OcdIdLayout(scraperId: String, md5: String -> String)
    requires |md5(scraperId)| == 32 && IsHex(md5(scraperId))
    ensures var r := GenerateOcdId(scraperId, md5);
      && |r| == 46 && r[..10] == "ocd-event/"
      && r[18] == '-' && r[23] == '-' && r[28] == '-' && r[33] == '-'
      && Filter(r[10..], NotDash) == md5(scraperId)
  {
    var h := md5(scraperId);
    OcdIdGrouped(scraperId, md5);
    forall i | 0 <= i < |h| ensures NotDash(h[i]) {
      assert IsDigit(h[i]) || 'a' <= h[i] <= 'f';
    }
    GroupedDigest(h[0..8], h[8..12], h[12..16], h[16..20], h[20..32]);
    DigestPieces(h);
  }

  lemma OcdIdGrouped(scraperId: String, md5: String -> String)
    requires |md5(scraperId)| == 32
    ensures var h := md5(scraperId);
      GenerateOcdId(scraperId, md5) == "ocd-event/" + Grouped(h[0..8], h[8..12], h[12..16], h[16..20], h[20..32])
  {
  }

  lemma DigestPieces(h: String)
    requires |h| == 32
    ensures h == h[0..8] + (h[8..12] + (h[12..16] + (h[16..20] + h[20..32])))
  {
    assert h[16..20] + h[20..32] == h[16..32];
    assert h[12..16] + h[16..32] == h[12..32];
    assert h[8..12] + h[12..32] == h[8..32];
    assert h[0..8] + h[8..32] == h;
  }

  /** The five groups joined by hyphens. */
  function Grouped(p0: String, p1: String, p2: String, p3: String, p4: String): String
  {
    p0 + ("-" + (p1 + ("-" + (p2 + ("-" + (p3 + ("-" + p4)))))))
  }

  lemma DashFree(a: String, b: String)
    requires forall i :: 0 <= i < |a| ==> NotDash(a[i])
    ensures Filter(a + ("-" + b), NotDash) == a + Filter(b, NotDash)
  {
    FilterConcat(a, "-" + b, NotDash);
    NoDashKept(a);
    DashSkipped(b);
  }

  lemma NoDashKept(a: String)
    requires forall i :: 0 <= i < |a| ==> NotDash(a[i])
    ensures Filter(a, NotDash) == a
  {
  }

  lemma DashSkipped(b: String)
    ensures Filter("-" + b, NotDash) == Filter(b, NotDash)
  {
    FilterConcat("-", b, NotDash);
    assert Filter("-", NotDash) == [] by {
      assert "-"[1..] == [];
    }
  }

  /** Dropping the hyphens from the grouped digest gives the digest. */
  lemma GroupedDigest(p0: String, p1: String, p2: String, p3: String, p4: String)
    requires forall i :: 0 <= i < |p0 + (p1 + (p2 + (p3 + p4)))| ==> NotDash((p0 + (p1 + (p2 + (p3 + p4))))[i])
    ensures Filter(Grouped(p0, p1, p2, p3, p4), NotDash) == p0 + (p1 + (p2 + (p3 + p4)))
  {
    var all := p0 + (p1 + (p2 + (p3 + p4)));
    assert forall i :: 0 <= i < |p0| ==> p0[i] == all[i];
    assert forall i :: 0 <= i < |p1| ==> p1[i] == all[|p0| + i];
    assert forall i :: 0 <= i < |p2| ==> p2[i] == all[|p0| + |p1| + i];
    assert forall i :: 0 <= i < |p3| ==> p3[i] == all[|p0| + |p1| + |p2| + i];
    assert forall i :: 0 <= i < |p4| ==> p4[i] == all[|p0| + |p1| + |p2| + |p3| + i];
    DashFree(p3, p4);
    DashFree(p2, p3 + ("-" + p4));
    DashFree(p1, p2 + ("-" + (p3 + ("-" + p4))));
    DashFree(p0, p1 + ("-" + (p2 + ("-" + (p3 + ("-" + p4))))));
  }

  /**
   * The present moment, as `datetime.now` sees it: seconds since the epoch in UTC,
   * and the host's UTC offset in minutes for the naive case.
   */
  datatype Now = Now(utcSeconds: int, hostOffset: int)

  /**
   * `determine_status(is_cancelled, start_time)`: "canceled" for a cancelled
   * meeting; otherwise "tentative" when the start is strictly later than now and
   * "passed" when it is now or earlier. An aware start is compared as an instant,
   * a naive one against the host's wall clock.
   */
  function DetermineStatus(isCancelled: bool, startTime: String, now: Now): (r: Result<String>)
    ensures isCancelled ==> r == Ok("canceled")
    ensures r.Ok? ==> r.value in {"canceled", "tentative", "passed"}
  {
    if isCancelled then Ok("canceled")
    else
      match FromIsoFormat(Replace(startTime, "Z", "+00:00"))
      case Err(e) => Err(e)
      case Ok(parsed) =>
        var (dt, offset) := parsed;
        var later := match offset
          case Some(m) => EpochSeconds(dt) - m * 60 > now.utcSeconds
          case None => EpochSeconds(dt) > now.utcSeconds + now.hostOffset * 60;
        Ok(if later then "tentative" else "passed")
  }

  /** The instant a wall-clock time with a UTC offset names, in seconds since the epoch. */
  function Instant(dt: DateTime, off: int): int
    requires 1 <= dt.date.month <= 12
  {
    EpochSeconds(dt) - off * 60
  }

  /** An uncancelled meeting is "tentative" exactly when it starts after now, else "passed". */
  lemma StatusOfLocalised(dt: DateTime, off: int, now: Now)
    requires Valid(dt) && -1440 < off < 1440
    ensures DetermineStatus(false, Format(dt, IsoLayout) + OffsetText(off), now) ==
      Ok(if Instant(dt, off) > now.utcSeconds then "tentative" else "passed")
  {
    ReadLocalised(dt, off);
  }

  // ---------------------------------------------------------------- classification

  /** The keyword table of `parse_classification`, in its order; note the "COMMISION" spelling. */
  const ClassificationTable: seq<Rule> := [
    Rule("advisory", "ADVISORY"), Rule("committee", "COMMITTEE"), Rule("board", "BOARD"),
    Rule("commission", "COMMISION"), Rule("public meeting", "PUBLIC"), Rule("policy meeting", "POLICY"),
    Rule("community", "COMMUNITY"), Rule("annual", "ANNUAL"), Rule("cbo", "CBO"), Rule("authority", "Authority")]

  /** `parse_classification(title, description_text)`: both lower-cased, `None` read as "". */
  function ParseClassification(title: Option<String>, description: Option<String>): Option<String>
  {
    FirstMatch(ClassificationTable, [Lower(title.GetOr("")), Lower(description.GetOr(""))])
  }

  /** A title mentioning "advisory" is ADVISORY whatever else it says, "Advisory Committee" included. */
  lemma AdvisoryFirst(title: String, description: Option<String>)
    requires Contains(Lower(title), "advisory")
    ensures ParseClassification(Some(title), description) == Some("ADVISORY")
  {
    var texts := [Lower(title), Lower(description.GetOr(""))];
    assert Contains(texts[0], ClassificationTable[0].keyword);
    FirstMatchAt(ClassificationTable, texts, 0);
  }

  lemma TableLacksCommission()
    ensures forall i :: 0 <= i < |ClassificationTable| ==> ClassificationTable[i].value != "COMMISSION"
  {
    forall i | 0 <= i < |ClassificationTable| ensures ClassificationTable[i].value != "COMMISSION" {
      assert |ClassificationTable[i].value| != 10;
    }
  }

  /** The table never yields "COMMISSION", so the proper-case "Commission" is never chosen. */
  lemma NeverCommission(title: Option<String>, description: Option<String>)
    ensures ProperClassification(ParseClassification(title, description)) != "Commission"
  {
    TableLacksCommission();
    FirstMatchNever(ClassificationTable, [Lower(title.GetOr("")), Lower(description.GetOr(""))], "COMMISSION");
  }

  // ---------------------------------------------------------------- the listing page

  /** `cell.inner_text().replace("\n", " ").strip()` */
  function CellText(cell: String): String
  {
    Strip(Replace(cell, "\n", " "))
  }

  /** The dotted spellings "A.M." and "P.M." become "AM" and "PM". */
  function NormalizeAmPm(t: String): String
  {
    Replace(Replace(t, "A.M.", "AM"), "P.M.", "PM")
  }

  predicate RowCancelled(dateText: String, timeText: String)
  {
    Contains(Upper(dateText), "CANCELLED") || Contains(Upper(timeText), "CANCELLED")
  }

  /** The start of a table row and whether the row is cancelled. */
  datatype RowTimes = RowTimes(start: DateTime, cancelled: bool)

  /**
   * The date and time cells of a row read as `"%B %d, %Y %I:%M %p"`. A row whose
   * upper-cased date or time cell says "CANCELLED" has the marker (and its
   * misspelling "CANELLED") removed from the date and is read at 12:00 AM; any
   * text that does not parse is the "Error parsing date/time" failure.
   */
  function RowStart(dateCell: String, timeCell: String): (r: Result<RowTimes>)
    ensures r.Ok? ==> Valid(r.value.start)
    ensures r.Ok? ==> r.value.cancelled == RowCancelled(CellText(dateCell), NormalizeAmPm(CellText(timeCell)))
    ensures r.Ok? && r.value.cancelled ==> r.value.start.time == Midnight
    ensures r.Err? ==> StartsWith(r.error, "Error parsing date/time: ")
  {
    var dateText := CellText(dateCell);
    var timeText := NormalizeAmPm(CellText(timeCell));
    var cancelled := RowCancelled(dateText, timeText);
    if cancelled then
      var d := Strip(Replace(Replace(dateText, "CANCELLED", ""), "CANELLED", ""));
      match Parse(d + MidnightText, LongDateClock)
      case Err(e) =>
        StartsWithConcat("Error parsing date/time: ", e);
        Err("Error parsing date/time: " + e)
      case Ok(dt) =>
        CancelledAtMidnight(d);
        Ok(RowTimes(dt, true))
    else
      match Parse(Strip(dateText) + " " + Strip(timeText), LongDateClock)
      case Err(e) =>
        StartsWithConcat("Error parsing date/time: ", e);
        Err("Error parsing date/time: " + e)
      case Ok(dt) => Ok(RowTimes(dt, false))
  }

  /** A date parsed with the clock part fixed to " 12:00 AM" is at midnight. */
  lemma CancelledAtMidnight(d: String)
    requires Parse(d + MidnightText, LongDateClock).Ok?
    ensures Parse(d + MidnightText, LongDateClock).value.time == Midnight
  {
    assert LongDate[0] != Second && LongDate[2] != Second && LongDate[5] != Second;
    assert Second !in LongDate;
    ParseAtMidnight(LongDate, d);
  }

  /** A row's detail link, made absolute against the folder of the listing page; no link or an empty one is `None`. */
  function DetailUrl(href: Option<String>, currentUrl: String): (r: Option<String>)
    ensures r.Some? <==> href.Some? && href.value != ""
    ensures r.Some? && StartsWith(href.value, "http") ==> r.value == href.value
  {
    match href
    case None => None
    case Some(h) =>
      if h == "" then None
      else if StartsWith(h, "http") then Some(h)
      else
        var parts := Split(currentUrl, "/");
        Some(Join("/", parts[..|parts| - 1]) + "/" + h)
  }

  /** A relative link replaces the last path segment of the listing page's URL. */
  lemma DetailUrlSibling(href: String, currentUrl: String)
    requires href != "" && !StartsWith(href, "http") && Contains(currentUrl, "/")
    ensures var parts := Split(currentUrl, "/");
      var base := Join("/", parts[..|parts| - 1]);
      && base + "/" + parts[|parts| - 1] == currentUrl
      && DetailUrl(Some(href), currentUrl) == Some(base + "/" + href)
  {
    var parts := Split(currentUrl, "/");
    SplitMany(currentUrl, "/");
    JoinSnoc("/", parts);
    JoinSplit(currentUrl, "/");
  }

  /** `title_text.split("<br>")[0].strip()`, or "" when the page has no title element. */
  function PageTitle(titleText: Option<String>): (r: String)
    ensures !Contains(r, "<br>")
  {
    match titleText
    case None => ""
    case Some(t) =>
      var piece := Split(t, "<br>")[0];
      SplitPiecesFree(t, "<br>");
      StripAbsent(piece, "<br>");
      Strip(piece)
  }

  /** The meeting place named on the page: a name and an address. */
  datatype Place = Place(name: String, address: String)

  /**
   * The text after "Meeting Location:", stripped and split into lines: the first
   * line is the name and the second the address. Text that mentions "Meeting
   * Location" without the colon fails, as indexing the missing second piece does.
   */
  function PageLocation(postText: Option<String>): (r: Result<Place>)
    ensures r.Err? <==> postText.Some? && Contains(postText.value, "Meeting Location")
                                        && !Contains(postText.value, "Meeting Location:")
    ensures r.Ok? ==> !Contains(r.value.name, "\n") && !Contains(r.value.address, "\n")
  {
    if postText.None? || !Contains(postText.value, "Meeting Location") then Ok(Place("", ""))
    else
      var t := postText.value;
      if !Contains(t, "Meeting Location:") then
        SplitWithout(t, "Meeting Location:");
        Err("list index out of range")
      else
        SplitMany(t, "Meeting Location:");
        var details := Split(Strip(Split(t, "Meeting Location:")[1]), "\n");
        SplitPiecesFree(Strip(Split(t, "Meeting Location:")[1]), "\n");
        var name := StrippedLine(details[0]);
        var address := if |details| > 1 then StrippedLine(details[1]) else "";
        Ok(Place(name, address))
  }

  /** A line stripped of surrounding whitespace: still one line. */
  function StrippedLine(line: String): (r: String)
    requires !Contains(line, "\n")
    ensures !Contains(r, "\n") && |r| <= |line|
  {
    StripAbsent(line, "\n");
    Strip(line)
  }

  /** The row's location cell, after the page's location name and a comma when there is one. */
  function CombinedLocationName(place: Place, locationCell: String): (r: String)
    ensures place.name == "" ==> r == Strip(locationCell)
    ensures place.name != "" ==> StartsWith(r, place.name + ", ") && EndsWith(r, Strip(locationCell))
  {
    if place.name != "" then
      var r := place.name + ", " + Strip(locationCell);
      assert r[..|place.name + ", "|] == place.name + ", ";
      assert r[|r| - |Strip(locationCell)|..] == Strip(locationCell);
      r
    else Strip(locationCell)
  }

  // ---------------------------------------------------------------- meetings

  /** What the scraper takes from outside: the page URL, the zone rule, the digest and the clock. */
  datatype Env = Env(currentUrl: String, zone: DateTime -> DetroitOffset, md5: String -> String, now: Now)

  datatype Link = Link(note: String, url: String)

  /**
   * The meeting record the scraper emits, less its constant fields and the
   * `updated_at` timestamp.
   */
  datatype Meeting = Meeting(
    id: String, name: String, classification: String, status: String, allDay: bool,
    startTime: String, locationName: String, scraperId: String, address: String, links: seq<Link>)

  /** The localised ISO text of a start, as `change_timezone(start.isoformat())` writes it. */
  function LocalIso(dt: DateTime, zone: DateTime -> DetroitOffset): (r: String)
    requires Valid(dt)
    ensures ChangeTimezone(Format(dt, IsoLayout), zone) == Ok(r)
    ensures r == Format(dt, IsoLayout) + OffsetText(zone(dt))
  {
    ChangeTimezoneIso(dt, zone);
    Format(dt, IsoLayout) + OffsetText(zone(dt))
  }

  /** The meeting of one table row. */
  function MeetingOf(title: String, place: Place, row: RowTimes, locationCell: String, env: Env): (m: Meeting)
    requires Valid(row.start)
    ensures m.startTime == Format(row.start, IsoLayout) + OffsetText(env.zone(row.start))
    ensures m.scraperId == ScraperName + "/" + Format(row.start, StampLayout) + "/x/" + Slugify(PyStr(title))
    ensures m.id == GenerateOcdId(m.scraperId, env.md5)
    ensures m.status == (if row.cancelled then "canceled"
                         else if Instant(row.start, env.zone(row.start)) > env.now.utcSeconds then "tentative"
                         else "passed")
    ensures m.allDay <==> row.start.time.hour == 0 && row.start.time.minute == 0
    ensures m.name == Join(" ", Words(title))
    ensures m.classification == ProperClassification(ParseClassification(Some(title), Some("")))
    ensures m.locationName == CombinedLocationName(place, locationCell) && m.address == place.address
    ensures m.links == []
  {
    var iso := LocalIso(row.start, env.zone);
    GenerateIdLocalised(PyStr(title), row.start, env.zone(row.start));
    var scraperId := GenerateId(PyStr(title), iso).value;
    StatusOfLocalised(row.start, env.zone(row.start), env.now);
    var status := DetermineStatus(row.cancelled, iso, env.now).value;
    Meeting(GenerateOcdId(scraperId, env.md5), Join(" ", Words(title)),
            ProperClassification(ParseClassification(Some(title), Some(""))), status,
            row.start.time.hour == 0 && row.start.time.minute == 0, iso,
            CombinedLocationName(place, locationCell), scraperId, place.address, [])
  }

  /** A cancelled row is an all-day meeting with status "canceled". */
  lemma CancelledRowMeeting(title: String, place: Place, dateCell: String, timeCell: String, locationCell: String, env: Env)
    requires RowStart(dateCell, timeCell).Ok? && RowStart(dateCell, timeCell).value.cancelled
    ensures var m := MeetingOf(title, place, RowStart(dateCell, timeCell).value, locationCell, env);
      m.allDay && m.status == "canceled"
  {
  }

  /** One row of the meetings table: its cells and the href of its first link, if any. */
  datatype Row = Row(cells: seq<String>, href: Option<String>)

  /** What one row gives: nothing (fewer than three cells), a failure, or a meeting with its detail URL. */
  function RowOutcome(row: Row, title: String, place: Place, env: Env): Result<Option<(Option<String>, Meeting)>>
  {
    if |row.cells| < 3 then Ok(None)
    else
      match RowStart(row.cells[0], row.cells[1])
      case Err(e) => Err(e)
      case Ok(times) =>
        Ok(Some((DetailUrl(row.href, env.currentUrl), MeetingOf(title, place, times, row.cells[2], env))))
  }

  /**
   * What the rows do, in order: meetings with a detail URL are enqueued, the others
   * kept for saving; the first failing row stops the scan with its error.
   */
  datatype Plan = Plan(enqueued: seq<(String, Meeting)>, kept: seq<Meeting>, error: Option<String>)

  function PlanRows(rows: seq<Row>, title: String, place: Place, env: Env): (p: Plan)
    decreases |rows|
  {
    if rows == [] then Plan([], [], None)
    else
      var p := PlanRows(rows[..|rows| - 1], title, place, env);
      if p.error.Some? then p else Extend(p, RowOutcome(rows[|rows| - 1], title, place, env))
  }

  /** The plan after one more row's outcome. */
  function Extend(p: Plan, outcome: Result<Option<(Option<String>, Meeting)>>): (q: Plan)
    ensures outcome.Err? ==> q == p.(error := Some(outcome.error))
    ensures outcome.Ok? && outcome.value.None? ==> q == p
    ensures outcome.Ok? && outcome.value.Some? && outcome.value.value.0.Some? ==>
      q == p.(enqueued := p.enqueued + [(outcome.value.value.0.value, outcome.value.value.1)])
    ensures outcome.Ok? && outcome.value.Some? && outcome.value.value.0.None? ==>
      q == p.(kept := p.kept + [outcome.value.value.1])
  {
    match outcome
    case Err(e) => p.(error := Some(e))
    case Ok(None) => p
    case Ok(Some((url, m))) =>
      if url.Some? then p.(enqueued := p.enqueued + [(url.value, m)]) else p.(kept := p.kept + [m])
  }

  /** The number of rows with at least three cells. */
  function FullRows(rows: seq<Row>): nat
  {
    if rows == [] then 0
    else FullRows(rows[..|rows| - 1]) + (if |rows[|rows| - 1].cells| >= 3 then 1 else 0)
  }

  /** Without a failure every row of three or more cells yields exactly one meeting, enqueued or kept. */
  lemma {:induction false} PlanCounts(rows: seq<Row>, title: String, place: Place, env: Env)
    requires PlanRows(rows, title, place, env).error.None?
    ensures var p := PlanRows(rows, title, place, env); |p.enqueued| + |p.kept| == FullRows(rows)
    decreases |rows|
  {
    if rows != [] {
      PlanCounts(rows[..|rows| - 1], title, place, env);
    }
  }

  /** Every enqueued meeting came with a detail URL; a kept meeting had none. */
  lemma {:induction false} PlanRouting(rows: seq<Row>, title: String, place: Place, env: Env)
    ensures var p := PlanRows(rows, title, place, env);
      forall e :: e in p.enqueued ==> exists i :: 0 <= i < |rows| && DetailUrl(rows[i].href, env.currentUrl) == Some(e.0)
    decreases |rows|
  {
    if rows != [] {
      var n := |rows| - 1;
      PlanRouting(rows[..n], title, place, env);
      var p := PlanRows(rows[..n], title, place, env);
      forall e | e in p.enqueued
        ensures exists i :: 0 <= i < |rows| && DetailUrl(rows[i].href, env.currentUrl) == Some(e.0)
      {
        var i :| 0 <= i < n && DetailUrl(rows[..n][i].href, env.currentUrl) == Some(e.0);
        assert rows[..n][i] == rows[i];
      }
    }
  }

  // ---------------------------------------------------------------- the scraper runs

  /** The scraper's view of the SDK: what it has enqueued and what it has saved, in order. */
  class Sdk {
    var enqueued: seq<(String, Meeting)>
    var saved: seq<Meeting>

    constructor()
      ensures enqueued == [] && saved == []
    {
      enqueued := [];
      saved := [];
    }

    /** `sdk.enqueue(url, context=meeting)` */
    method Enqueue(url: String, m: Meeting)
      modifies this
      ensures enqueued == old(enqueued) + [(url, m)] && saved == old(saved)
    {
      enqueued := enqueued + [(url, m)];
    }

    /** `sdk.save_data(meeting)` */
    method SaveData(m: Meeting)
      modifies this
      ensures saved == old(saved) + [m] && enqueued == old(enqueued)
    {
      saved := saved + [m];
    }
  }

  /** The listing page as the scraper reads it: the title element's text, the location block's text, the table rows. */
  datatype ListingPage = ListingPage(titleText: Option<String>, postText: Option<String>, rows: seq<Row>)

  /** `rows[1:]`: the header row is skipped. */
  function BodyRows(rows: seq<Row>): seq<Row>
  {
    if rows == [] then [] else rows[1..]
  }

  /** What scraping a listing page does: fail on the location block, or follow the plan of its body rows. */
  function ListingPlan(page: ListingPage, env: Env): Result<Plan>
  {
    match PageLocation(page.postText)
    case Err(e) => Err(e)
    case Ok(place) => Ok(PlanRows(BodyRows(page.rows), PageTitle(page.titleText), place, env))
  }

  /**
   * `scrape`: each body row with a detail link is enqueued with its meeting as
   * context, as soon as it is read; the rest are saved together after the last
   * row, so a row that fails to parse leaves the earlier enqueues in place and
   * saves nothing.
   */
  method Scrape(sdk: Sdk, page: ListingPage, env: Env) returns (error: Option<String>)
    modifies sdk
    ensures ListingPlan(page, env).Err? ==>
      error == Some(ListingPlan(page, env).error) && sdk.enqueued == old(sdk.enqueued) && sdk.saved == old(sdk.saved)
    ensures ListingPlan(page, env).Ok? ==>
      var p := ListingPlan(page, env).value;
      && error == p.error
      && sdk.enqueued == old(sdk.enqueued) + p.enqueued
      && sdk.saved == old(sdk.saved) + (if p.error.None? then p.kept else [])
  {
    var title := PageTitle(page.titleText);
    var location := PageLocation(page.postText);
    if location.Err? {
      return Some(location.error);
    }
    var meetings;
    meetings, error := ScrapeRows(sdk, BodyRows(page.rows), title, location.value, env);
    if error.None? {
      SaveAll(sdk, meetings);
    }
  }

  /**
   * The row loop of `scrape`: enqueue as the plan says, collect the meetings to
   * save, and stop at the first row that fails.
   */
  method ScrapeRows(sdk: Sdk, body: seq<Row>, title: String, place: Place, env: Env)
    returns (meetings: seq<Meeting>, error: Option<String>)
    modifies sdk
    ensures var p := PlanRows(body, title, place, env);
      && error == p.error
      && sdk.enqueued == old(sdk.enqueued) + p.enqueued
      && sdk.saved == old(sdk.saved)
      && (error.None? ==> meetings == p.kept)
  {
    meetings := [];
    ghost var plan := Plan([], [], None);
    var i := 0;
    while i < |body|
      invariant 0 <= i <= |body|
      invariant plan == PlanRows(body[..i], title, place, env) && plan.error.None?
      invariant sdk.enqueued == old(sdk.enqueued) + plan.enqueued && meetings == plan.kept
      invariant sdk.saved == old(sdk.saved)
    {
      var outcome := RowOutcome(body[i], title, place, env);
      PlanStep(body, i, title, place, env);
      if outcome.Err? {
        PlanStops(body, i + 1, title, place, env);
        return meetings, Some(outcome.error);
      }
      ExtendShift(old(sdk.enqueued), plan, outcome);
      meetings := FollowRow(sdk, meetings, outcome);
      plan := Extend(plan, outcome);
      i := i + 1;
    }
    assert body[..i] == body;
    return meetings, None;
  }

  /** One parsed row: enqueue its meeting when it has a detail URL, otherwise keep it for saving. */
  method FollowRow(sdk: Sdk, meetings: seq<Meeting>, outcome: Result<Option<(Option<String>, Meeting)>>)
    returns (kept: seq<Meeting>)
    requires outcome.Ok?
    modifies sdk
    ensures var q := Extend(Plan(old(sdk.enqueued), meetings, None), outcome);
      sdk.enqueued == q.enqueued && kept == q.kept && sdk.saved == old(sdk.saved)
  {
    kept := meetings;
    if outcome.value.Some? {
      var (detailUrl, meeting) := outcome.value.value;
      if detailUrl.Some? {
        sdk.Enqueue(detailUrl.value, meeting);
      } else {
        kept := meetings + [meeting];
      }
    }
  }

  /** Extending a plan commutes with prefixing what was enqueued before it. */
  lemma ExtendShift(before: seq<(String, Meeting)>, p: Plan, outcome: Result<Option<(Option<String>, Meeting)>>)
    requires outcome.Ok? && p.error.None?
    ensures var q := Extend(p, outcome);
      Extend(Plan(before + p.enqueued, p.kept, None), outcome) == Plan(before + q.enqueued, q.kept, None)
  {
  }

  /** `for meeting in meetings: sdk.save_data(meeting)` */
  method SaveAll(sdk: Sdk, meetings: seq<Meeting>)
    modifies sdk
    ensures sdk.saved == old(sdk.saved) + meetings && sdk.enqueued == old(sdk.enqueued)
  {
    var j := 0;
    while j < |meetings|
      invariant 0 <= j <= |meetings|
      invariant sdk.saved == old(sdk.saved) + meetings[..j]
      invariant sdk.enqueued == old(sdk.enqueued)
    {
      sdk.SaveData(meetings[j]);
      assert meetings[..j + 1] == meetings[..j] + [meetings[j]];
      j := j + 1;
    }
    assert meetings[..j] == meetings;
  }

  /** The plan of one more row. */
  lemma PlanStep(rows: seq<Row>, i: nat, title: String, place: Place, env: Env)
    requires i < |rows| && PlanRows(rows[..i], title, place, env).error.None?
    ensures PlanRows(rows[..i + 1], title, place, env) ==
      Extend(PlanRows(rows[..i], title, place, env), RowOutcome(rows[i], title, place, env))
  {
    assert rows[..i + 1][..i] == rows[..i];
  }

  /** Once a prefix of the rows has failed, the later rows change nothing. */
  lemma {:induction false} PlanStops(rows: seq<Row>, k: nat, title: String, place: Place, env: Env)
    requires k <= |rows| && PlanRows(rows[..k], title, place, env).error.Some?
    ensures PlanRows(rows, title, place, env) == PlanRows(rows[..k], title, place, env)
    decreases |rows| - k
  {
    if k < |rows| {
      assert rows[..k + 1][..k] == rows[..k];
      PlanStops(rows, k + 1, title, place, env);
    } else {
      assert rows[..k] == rows;
    }
  }

  // ---------------------------------------------------------------- the detail page

  /** A document anchor on a detail page: its href attribute and its text. */
  datatype Anchor = Anchor(href: Option<String>, text: String)

  /** `"/".join(current_url.split("/")[:3])`: scheme and host. */
  function SiteRoot(currentUrl: String): String
  {
    Join("/", PyPrefix(Split(currentUrl, "/"), 3))
  }

  /** For an address `scheme//host/path`, the root is `scheme//host`. */
  lemma SiteRootOf(scheme: String, host: String, path: String)
    requires '/' !in scheme && '/' !in host
    ensures SiteRoot(scheme + "//" + host + "/" + path) == scheme + "//" + host
  {
    var parts := AddressPieces(scheme, host, path);
    assert PyPrefix(parts, 3) == [scheme, [], host];
    JoinCons(scheme, "/", [[], host]);
    JoinCons([], "/", [host]);
  }

  lemma AddressPieces(scheme: String, host: String, path: String) returns (parts: seq<String>)
    requires '/' !in scheme && '/' !in host
    ensures parts == Split(scheme + "//" + host + "/" + path, "/")
    ensures |parts| >= 3 && parts[..3] == [scheme, [], host]
  {
    var r1 := ['/'] + host + ['/'] + path;
    assert scheme + "//" + host + "/" + path == scheme + ['/'] + r1;
    SplitCons(scheme, '/', r1);
    HostPieces(host, path);
    parts := [scheme] + ([[]] + ([host] + Split(path, "/")));
  }

  /** The pieces of `/host/path` split at `/`. */
  lemma HostPieces(host: String, path: String)
    requires '/' !in host
    ensures Split(['/'] + host + ['/'] + path, "/") == [[]] + ([host] + Split(path, "/"))
  {
    var r2 := host + ['/'] + path;
    assert ['/'] + host + ['/'] + path == [] + ['/'] + r2;
    SplitCons([], '/', r2);
    SplitCons(host, '/', path);
  }

  /** A link URL made absolute: relative ones hang off the site root, with their leading slashes removed. */
  function AbsoluteLink(url: String, currentUrl: String): (r: String)
    ensures StartsWith(url, "http") ==> r == url
    ensures !StartsWith(url, "http") ==> StartsWith(r, SiteRoot(currentUrl) + "/")
  {
    if StartsWith(url, "http") then url
    else
      var r := SiteRoot(currentUrl) + "/" + LStripChars(url, {'/'});
      assert r[..|SiteRoot(currentUrl) + "/"|] == SiteRoot(currentUrl) + "/";
      r
  }

  /** The link an anchor gives: one with both an href and text, titled by the stripped text. */
  function LinkOf(a: Anchor, currentUrl: String): Option<Link>
  {
    if a.href.Some? && a.href.value != "" && a.text != "" then
      Some(Link(Strip(a.text), AbsoluteLink(a.href.value, currentUrl)))
    else None
  }

  /** The links of a detail page, in page order; every URL is absolute. */
  function DetailLinks(anchors: seq<Anchor>, currentUrl: String): (r: seq<Link>)
    ensures |r| <= |anchors|
    ensures forall k :: 0 <= k < |r| ==>
      StartsWith(r[k].url, "http") || StartsWith(r[k].url, SiteRoot(currentUrl) + "/")
  {
    if anchors == [] then []
    else
      var n := |anchors| - 1;
      var init := DetailLinks(anchors[..n], currentUrl);
      match LinkOf(anchors[n], currentUrl)
      case None => init
      case Some(l) => init + [l]
  }

  /** Every anchor with an href and text gives a link. */
  lemma {:induction false} DetailLinksComplete(anchors: seq<Anchor>, currentUrl: String)
    requires forall i :: 0 <= i < |anchors| ==> anchors[i].href.Some? && anchors[i].href.value != "" && anchors[i].text != ""
    ensures |DetailLinks(anchors, currentUrl)| == |anchors|
    decreases |anchors|
  {
    if anchors != [] {
      DetailLinksComplete(anchors[..|anchors| - 1], currentUrl);
    }
  }

  /** The meeting with the page's links, when it has any; otherwise unchanged. */
  function WithLinks(m: Meeting, links: seq<Link>): (r: Meeting)
    ensures r.links == (if links == [] then m.links else links)
    ensures r.(links := m.links) == m
  {
    if links == [] then m else m.(links := links)
  }

  /** `scrape_detail`: collect the page's links, put them on the meeting from the context, save it. */
  method ScrapeDetail(sdk: Sdk, currentUrl: String, context: Meeting, anchors: seq<Anchor>)
    modifies sdk
    ensures sdk.saved == old(sdk.saved) + [WithLinks(context, DetailLinks(anchors, currentUrl))]
    ensures sdk.enqueued == old(sdk.enqueued)
  {
    var links: seq<Link> := [];
    var i := 0;
    while i < |anchors|
      invariant 0 <= i <= |anchors|
      invariant links == DetailLinks(anchors[..i], currentUrl)
    {
      var a := anchors[i];
      assert anchors[..i + 1][..i] == anchors[..i];
      assert anchors[..i + 1][i] == a;
      if a.href.Some? && a.href.value != "" && a.text != "" {
        var url := a.href.value;
        if !StartsWith(url, "http") {
          url := SiteRoot(currentUrl) + "/" + LStripChars(url, {'/'});
        }
        links := links + [Link(Strip(a.text), url)];
      }
      i := i + 1;
    }
    assert anchors[..i] == anchors;
    var meeting := context;
    if links != [] {
      meeting := meeting.(links := links);
    }
    sdk.SaveData(meeting);
  }

  /**
   * `scrape_router`: a context that carries a meeting (it has "_type") means a
   * detail page; the empty context of the start URL means the listing page.
   */
  method ScrapeRouter(sdk: Sdk, context: Option<Meeting>, page: ListingPage, anchors: seq<Anchor>, env: Env)
    returns (error: Option<String>)
    modifies sdk
    ensures context.Some? ==>
      && error.None? && sdk.enqueued == old(sdk.enqueued)
      && sdk.saved == old(sdk.saved) + [WithLinks(context.value, DetailLinks(anchors, env.currentUrl))]
    ensures context.None? && ListingPlan(page, env).Ok? ==>
      var p := ListingPlan(page, env).value;
      && error == p.error
      && sdk.enqueued == old(sdk.enqueued) + p.enqueued
      && sdk.saved == old(sdk.saved) + (if p.error.None? then p.kept else [])
    ensures context.None? && ListingPlan(page, env).Err? ==>
      error == Some(ListingPlan(page, env).error) && sdk.enqueued == old(sdk.enqueued) && sdk.saved == old(sdk.saved)
  {
    if context.Some? {
      ScrapeDetail(sdk, env.currentUrl, context.value, anchors);
      error := None;
    } else {
      error := Scrape(sdk, page, env);
    }
  }
}

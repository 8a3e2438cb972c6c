/**
 * The shared behaviour of the Detroit public-authority spiders (DEGC pages):
 * reading times and dates out of page text, grouping the document links of past
 * meetings by the date in their text, picking the links of an upcoming meeting,
 * the links of a calendar event, and the one-year window on past meetings.
 * `response.urljoin` is a parameter; the page queries are not modelled.
 */
module Authority {
  import opened Wrappers
  import opened Text
  import opened Calendar
  import opened Numbers
  import opened Strptime
  import opened Regex
  import opened Items

  /** `" ".join(link["title"] for link in links)`, the text the spiders' title rules read. */
  function LinkText(links: seq<Link>): String
  {
    Join(" ", Titles(links))
  }

  function Titles(links: seq<Link>): (r: seq<String>)
    ensures |r| == |links| && forall i :: 0 <= i < |links| ==> r[i] == links[i].title
  {
    seq(|links|, i requires 0 <= i < |links| => links[i].title)
  }

  /** A word in any one title is in the joined text. */
  lemma LinkTextContains(links: seq<Link>, k: nat, w: String)
    requires k < |links| && Contains(links[k].title, w)
    ensures Contains(LinkText(links), w)
  {
    JoinContains(" ", Titles(links), k, w);
  }

  /** A word in one title, in any case, is in the lower-cased joined text. */
  lemma LowerKeyword(links: seq<Link>, k: nat, w: String)
    requires k < |links| && Contains(Lower(links[k].title), w)
    ensures Contains(Lower(LinkText(links)), w)
  {
    var t := links[k].title;
    ContainsSelf(t);
    LinkTextContains(links, k, t);
    CaseFoldContains(LinkText(links), t);
    ContainsTrans(Lower(LinkText(links)), Lower(t), w);
  }

  /** A word in one title, in any case, is in the upper-cased joined text. */
  lemma UpperKeyword(links: seq<Link>, k: nat, w: String)
    requires k < |links| && Contains(Upper(links[k].title), w)
    ensures Contains(Upper(LinkText(links)), w)
  {
    var t := links[k].title;
    ContainsSelf(t);
    LinkTextContains(links, k, t);
    CaseFoldContains(LinkText(links), t);
    ContainsTrans(Upper(LinkText(links)), Upper(t), w);
  }

  /**
   * `"{} Label".format(text.upper().split(marker)[0])`, the title rule of the spiders on
   * this mixin: the upper-cased text before the first `marker` (all of it when there is
   * none), followed by `tag`.
   */
  function SectionTitle(text: String, marker: String, tag: String): (r: String)
    requires |marker| > 0
    ensures EndsWith(r, tag)
    ensures var h := r[..|r| - |tag|]; var u := Upper(text);
      && StartsWith(u, h) && !Contains(h, marker)
      && (h == u <==> !Contains(u, marker))
      && (h != u ==> OccursAt(u, marker, |h|))
  {
    var u := Upper(text);
    var h := Split(u, marker)[0];
    SplitHead(u, marker);
    assert (h + tag)[..|h|] == h;
    assert (h + tag)[|h|..] == tag;
    h + tag
  }

  /** The committee title: the section before ` COMMITTEE`, then ` Committee`, with the agency's tab name and a space removed. */
  function CommitteeTitle(text: String, tab: String): String
  {
    Replace(SectionTitle(text, " COMMITTEE", " Committee"), tab + " ", "")
  }

  // ---- Times: `\d{1,2}:\d{1,2}\s*[apmAPM\.]{2,4}`, then `%I:%M%p` ----

  predicate IsAmPmDot(c: char) { c in "apmAPM." }

  const TimePattern: Pattern :=
    [Rep(IsDigit, 1, 2), One(c => c == ':'), Rep(IsDigit, 1, 2), Star(IsSpace), Rep(IsAmPmDot, 2, 4)]

  /** The time of day a `%I:%M%p` text reads as. */
  function ClockOf(t: String): Option<Time>
  {
    match Parse(t, CompactClock)
    case Err(_) => None
    case Ok(dt) => Some(dt.time)
  }

  /** The characters `Squeeze` keeps. */
  predicate NotDotOrSpace(c: char) { c != '.' && !IsSpace(c) }

  /**
   * `re.sub(r"[\.\s]", "", t).upper()`: no dot, whitespace or lower-case letter
   * is left, and a text that has none of them is kept as it is.
   */
  function Squeeze(t: String): (r: String)
    ensures |r| <= |t|
    ensures forall i :: 0 <= i < |r| ==> r[i] != '.' && !IsSpace(r[i]) && !IsLower(r[i])
    ensures (forall i :: 0 <= i < |t| ==> NotDotOrSpace(t[i]) && !IsLower(t[i])) ==> r == t
  {
    var f := Filter(t, NotDotOrSpace);
    var r := Upper(f);
    assert forall i :: 0 <= i < |r| ==> r[i] != '.' && !IsSpace(r[i]) by {
      forall i | 0 <= i < |r| ensures r[i] != '.' && !IsSpace(r[i]) {
        assert NotDotOrSpace(f[i]);
      }
    }
    assert (forall i :: 0 <= i < |t| ==> NotDotOrSpace(t[i]) && !IsLower(t[i])) ==> r == t by {
      if forall i :: 0 <= i < |t| ==> NotDotOrSpace(t[i]) && !IsLower(t[i]) {
        assert f == t;
      }
    }
    r
  }

  /** Squeezing a concatenation squeezes each part. */
  lemma SqueezeAppend(a: String, b: String)
    ensures Squeeze(a + b) == Squeeze(a) + Squeeze(b)
  {
    FilterConcat(a, b, NotDotOrSpace);
    UpperConcat(Filter(a, NotDotOrSpace), Filter(b, NotDotOrSpace));
  }

  /** One character: a dot or whitespace is dropped, anything else upper-cased. */
  lemma SqueezeChar(c: char)
    ensures Squeeze([c]) == if c == '.' || IsSpace(c) then "" else [UpperChar(c)]
  {
    assert [c][1..] == [];
  }

  /**
   * `_parse_start_time`: the first time-like run of the text, without dots and
   * spaces, read as `%I:%M%p`. No such run raises (`.group()` on `None`), as
   * does a run that is not a 12-hour time.
   */
  function ParseStartTime(text: String): (r: Result<Time>)
    ensures Search(TimePattern, text).None? ==> r.Err?
    ensures r.Ok? ==> ValidTime(r.value) && r.value.second == 0
    ensures r.Ok? ==> exists m :: Search(TimePattern, text) == Some(m) && ClockOf(Squeeze(Group(text, m))) == Some(r.value)
  {
    match Search(TimePattern, text)
    case None => Err("no time in text")
    case Some(m) =>
      var squeezed := Squeeze(Group(text, m));
      match Parse(squeezed, CompactClock)
      case Err(e) => Err(e)
      case Ok(dt) =>
        ParseNoSecond(squeezed, CompactClock);
        Ok(dt.time)
  }

  /** "a.m." or "p.m.", the half of the day as schedules print it. */
  function DottedMeridian(hour: int): String
  {
    if hour < 12 then "a.m." else "p.m."
  }

  /** A time as the pages print it: `%I:%M`, a space, then "a.m." or "p.m." with its dots. */
  function DottedClock(t: Time): (r: String)
    requires ValidTime(t)
    ensures |r| == 10
  {
    Pow10Values();
    PadRoundTrip(To12(t.hour), 2);
    PadRoundTrip(t.minute, 2);
    Pad(To12(t.hour), 2) + (":" + (Pad(t.minute, 2) + (" " + DottedMeridian(t.hour))))
  }

  /** The squeezed half of the day is what `%p` reads. */
  lemma SqueezeMeridian(hour: int)
    ensures Squeeze(" " + DottedMeridian(hour)) == if hour < 12 then "AM" else "PM"
  {
    if hour < 12 {
      assert " " + DottedMeridian(hour) == [' ', 'a', '.', 'm', '.'];
      SqueezeDotted('a');
    } else {
      assert " " + DottedMeridian(hour) == [' ', 'p', '.', 'm', '.'];
      SqueezeDotted('p');
    }
  }

  /** " a.m." with any letter for "a": the space and the dots go, the letters are upper-cased. */
  lemma SqueezeDotted(c: char)
    requires IsLower(c)
    ensures Squeeze([' ', c, '.', 'm', '.']) == [UpperChar(c), 'M']
  {
    var s := [' ', c, '.', 'm', '.'];
    var f := NotDotOrSpace;
    assert s[4..][1..] == [];
    assert Filter(s[4..], f) == [];
    assert s[3..][1..] == s[4..];
    assert Filter(s[3..], f) == ['m'];
    assert s[2..][1..] == s[3..];
    assert Filter(s[2..], f) == ['m'];
    assert s[1..][1..] == s[2..];
    assert Filter(s[1..], f) == [c, 'm'];
    assert Filter(s, f) == [c, 'm'];
  }

  /** Digits and the colon come through squeezing unchanged. */
  lemma SqueezeDigits(s: String)
    requires forall i :: 0 <= i < |s| ==> IsDigit(s[i]) || s[i] == ':'
    ensures Squeeze(s) == s
  {
    assert forall i :: 0 <= i < |s| ==> NotDotOrSpace(s[i]) && !IsLower(s[i]);
  }

  /** `%I:%M%p` written out: the two-digit hour, a colon, the two-digit minute, "AM" or "PM". */
  lemma CompactClockText(t: Time)
    requires ValidTime(t)
    ensures Format(DateTime(Date(1900, 1, 1), t), CompactClock) ==
      Pad(To12(t.hour), 2) + (":" + (Pad(t.minute, 2) + (if t.hour < 12 then "AM" else "PM")))
  {
    var dt := DateTime(Date(1900, 1, 1), t);
    var c := CompactClock;
    assert c[3..][1..] == [] && c[2..][1..] == c[3..] && c[1..][1..] == c[2..];
    assert Render(c[3..], dt) == (if t.hour < 12 then "AM" else "PM");
    assert Render(c[2..], dt) == Pad(t.minute, 2) + Render(c[3..], dt);
    assert Render(c[1..], dt) == ":" + Render(c[2..], dt);
  }

  /** Digits and colons followed by " a.m." or " p.m." squeeze to the digits and colons followed by "AM" or "PM". */
  lemma SqueezePrinted(digits: String, hour: int)
    requires forall i :: 0 <= i < |digits| ==> IsDigit(digits[i]) || digits[i] == ':'
    ensures Squeeze(digits + (" " + DottedMeridian(hour))) == digits + (if hour < 12 then "AM" else "PM")
  {
    SqueezeAppend(digits, " " + DottedMeridian(hour));
    SqueezeDigits(digits);
    SqueezeMeridian(hour);
  }

  /** A printed time squeezes to its `%I:%M%p` rendering. */
  lemma SqueezeDottedClock(t: Time)
    requires ValidTime(t)
    ensures Squeeze(DottedClock(t)) == Format(DateTime(Date(1900, 1, 1), t), CompactClock)
  {
    var h, m := Pad(To12(t.hour), 2), Pad(t.minute, 2);
    var digits := h + (":" + m);
    assert DottedClock(t) == digits + (" " + DottedMeridian(t.hour));
    forall i | 0 <= i < |digits| ensures IsDigit(digits[i]) || digits[i] == ':' {
      if i < |h| { assert digits[i] == h[i]; }
      else if i > |h| { assert digits[i] == m[i - |h| - 1]; }
    }
    SqueezePrinted(digits, t.hour);
    CompactClockText(t);
  }

  /** The tail ` *[apmAPM.]{2,4}` of the time pattern on " a.m." or " p.m.": one space, then the four characters. */
  lemma MeridianRun(s: String, j: nat)
    requires j + 5 <= |s| && s[j] == ' ' && (s[j + 1] == 'a' || s[j + 1] == 'p')
    requires s[j + 2] == '.' && s[j + 3] == 'm' && s[j + 4] == '.'
    ensures MatchFrom(TimePattern[3..], s, j) == Some([j + 1, j + 5])
  {
    var p3 := TimePattern[3..];
    MeridianTail(s, j + 1);
    assert p3[0] == Star(IsSpace) && p3[1..] == TimePattern[4..];
    RunExact(p3[0], s, j, 1);
    GreedyStep(p3, s, j, [j + 5]);
    assert [j + 1] + [j + 5] == [j + 1, j + 5];
  }

  /** A step of `MeridianRun`: "a.m." or "p.m." is the whole meridian run that ends the pattern. */
  lemma MeridianTail(s: String, j: nat)
    requires j + 4 <= |s| && (s[j] == 'a' || s[j] == 'p') && s[j + 1] == '.' && s[j + 2] == 'm' && s[j + 3] == '.'
    ensures MatchFrom(TimePattern[4..], s, j) == Some([j + 4])
  {
    var p4 := TimePattern[4..];
    assert p4[0] == Rep(IsAmPmDot, 2, 4) && p4[1..] == [];
    assert AllIn(IsAmPmDot, s, j, j + 4);
    RunExact(p4[0], s, j, 4);
    GreedyStep(p4, s, j, []);
    assert [j + 4] + [] == [j + 4];
  }


  /** The minutes and the rest: `:\d{1,2}` then the meridian tail, on ":" and two digits. */
  lemma MinuteRun(s: String, k: nat)
    requires k + 8 <= |s| && s[k] == ':' && IsDigit(s[k + 1]) && IsDigit(s[k + 2])
    requires s[k + 3] == ' ' && (s[k + 4] == 'a' || s[k + 4] == 'p')
    requires s[k + 5] == '.' && s[k + 6] == 'm' && s[k + 7] == '.'
    ensures MatchFrom(TimePattern[1..], s, k) == Some([k + 1, k + 3, k + 4, k + 8])
  {
    var p1 := TimePattern[1..];
    MinuteDigits(s, k + 1);
    assert p1[0] == TimePattern[1] && p1[1..] == TimePattern[2..];
    RunExact(p1[0], s, k, 1);
    GreedyStep(p1, s, k, [k + 3, k + 4, k + 8]);
    assert [k + 1] + [k + 3, k + 4, k + 8] == [k + 1, k + 3, k + 4, k + 8];
  }

  /** A step of `MinuteRun`: two minute digits, then the meridian run. */
  lemma MinuteDigits(s: String, k: nat)
    requires k + 7 <= |s| && IsDigit(s[k]) && IsDigit(s[k + 1])
    requires s[k + 2] == ' ' && (s[k + 3] == 'a' || s[k + 3] == 'p')
    requires s[k + 4] == '.' && s[k + 5] == 'm' && s[k + 6] == '.'
    ensures MatchFrom(TimePattern[2..], s, k) == Some([k + 2, k + 3, k + 7])
  {
    var p2 := TimePattern[2..];
    MeridianRun(s, k + 2);
    assert p2[0] == Rep(IsDigit, 1, 2) && p2[1..] == TimePattern[3..];
    RunExact(p2[0], s, k, 2);
    GreedyStep(p2, s, k, [k + 3, k + 7]);
    assert [k + 2] + [k + 3, k + 7] == [k + 2, k + 3, k + 7];
  }


  /**
   * The time pattern on a text that starts with a one- or two-digit hour, a colon,
   * two digits and " a.m." or " p.m.": the whole printed time is the match.
   */
  lemma ClockRun(s: String, k: nat)
    requires (k == 1 || k == 2) && k + 8 <= |s|
    requires IsDigit(s[0]) && IsDigit(s[k - 1]) && s[k] == ':' && IsDigit(s[k + 1]) && IsDigit(s[k + 2])
    requires s[k + 3] == ' ' && (s[k + 4] == 'a' || s[k + 4] == 'p')
    requires s[k + 5] == '.' && s[k + 6] == 'm' && s[k + 7] == '.'
    ensures MatchFrom(TimePattern, s, 0) == Some([k, k + 1, k + 3, k + 4, k + 8])
  {
    var p := TimePattern;
    MinuteRun(s, k);
    assert p[0] == Rep(IsDigit, 1, 2);
    RunExact(p[0], s, 0, k);
    GreedyStep(p, s, 0, [k + 1, k + 3, k + 4, k + 8]);
    assert [0 + k] + [k + 1, k + 3, k + 4, k + 8] == [k, k + 1, k + 3, k + 4, k + 8];
  }

  /** `\d{1,2}:\d{1,2}\s*[apmAPM\.]{2,4}` on a printed time: the whole time is the match, whatever follows it. */
  lemma DottedClockMatch(t: Time, rest: String)
    requires ValidTime(t)
    ensures MatchFrom(TimePattern, DottedClock(t) + rest, 0) == Some([2, 3, 5, 6, 10])
  {
    var s := DottedClock(t) + rest;
    var h, m := Pad(To12(t.hour), 2), Pad(t.minute, 2);
    var mer := DottedMeridian(t.hour);
    Pow10Values();
    PadRoundTrip(To12(t.hour), 2);
    PadRoundTrip(t.minute, 2);
    assert s[0] == h[0] && s[1] == h[1] && s[2] == ':' && s[3] == m[0] && s[4] == m[1] && s[5] == ' ';
    assert s[6] == mer[0] && s[7] == '.' && s[8] == 'm' && s[9] == '.';
    ClockRun(s, 2);
  }

  /**
   * A text that starts with a printed time, say "07:00 p.m.", is read as that
   * time of day: the dots and the space go, the rest reads as `%I:%M%p`, and the
   * half of the day gives the 24-hour clock ("07:00 p.m." is 19:00).
   */
  lemma ParseStartTimeDotted(t: Time, rest: String)
    requires ValidTime(t)
    ensures ParseStartTime(DottedClock(t) + rest) == Ok(Time(t.hour, t.minute, 0))
  {
    var s := DottedClock(t) + rest;
    DottedClockMatch(t, rest);
    assert Search(TimePattern, s) == Some((0, [2, 3, 5, 6, 10]));
    assert Group(s, (0, [2, 3, 5, 6, 10])) == DottedClock(t);
    SqueezeDottedClock(t);
    ClockRoundTrip(t);
  }

  /** A worked example: "07:00 p.m." is 19:00. */
  lemma SevenPm()
    ensures ParseStartTime("07:00 p.m.") == Ok(Time(19, 0, 0))
  {
    var t := Time(19, 0, 0);
    assert To12(19) == 7;
    assert Pad(7, 2) == "07" by { assert NatToString(7) == "7"; }
    assert Pad(0, 2) == "00" by { assert NatToString(0) == "0"; }
    assert DottedClock(t) + "" == "07:00 p.m.";
    ParseStartTimeDotted(t, "");
  }

  /** Without the leading zero too: "7:00 p.m." is 19:00, since `%I` takes one or two digits. */
  lemma SevenPmUnpadded()
    ensures ParseStartTime("7:00 p.m.") == Ok(Time(19, 0, 0))
  {
    var s := "7:00 p.m.";
    SevenPmSearch();
    assert Group(s, (0, [1, 2, 4, 5, 9])) == s;
    SevenPmSqueeze();
    SevenPmClock();
  }

  lemma SevenPmSearch()
    ensures Search(TimePattern, "7:00 p.m.") == Some((0, [1, 2, 4, 5, 9]))
  {
    ClockRun("7:00 p.m.", 1);
  }

  lemma SevenPmSqueeze()
    ensures Squeeze("7:00 p.m.") == "7:00PM"
  {
    var a := "7:00";
    SevenPmDigits(a);
    SqueezePrinted(a, 19);
    SevenPmText();
  }

  lemma SevenPmDigits(a: String)
    requires a == "7:00"
    ensures forall i :: 0 <= i < |a| ==> IsDigit(a[i]) || a[i] == ':'
  {
  }

  lemma SevenPmText()
    ensures "7:00" + (" " + DottedMeridian(19)) == "7:00 p.m." && "7:00" + "PM" == "7:00PM"
  {
  }

  lemma SevenPmClock()
    ensures ClockOf("7:00PM") == Some(Time(19, 0, 0))
  {
    var c := CompactClock;
    var f1 := NoFields.(hour12 := Some(7));
    var f2 := f1.(minute := Some(0));
    var f3 := f2.(pm := Some(true));
    SevenPmTail(f2);
    assert c[2..][1..] == [AmPm];
    assert c[2..][0] == Minute;
    SevenPmMinute(f1, c[2..]);
    assert c[1..][1..] == c[2..] && c[1..][0] == Lit(':');
    assert ":00PM"[1..] == "00PM";
    assert Match(c[1..], ":00PM", f1) == Some(f3);
    SevenPmHour(c, f3);
    assert Build(f3) == Ok(DateTime(Date(1900, 1, 1), Time(19, 0, 0)));
  }

  lemma SevenPmTail(f: Fields)
    ensures Match([AmPm], "PM", f) == Some(f.(pm := Some(true)))
  {
    assert [AmPm][1..] == [];
    assert LowerChar('P') == 'p' && LowerChar('M') == 'm' && LowerChar('a') == 'a';
    assert LowerChar("PM"[0]) != LowerChar("am"[0]);
    assert !StartsWithIgnoreCase("PM", "am");
    assert StartsWithIgnoreCase("PM", "pm");
    assert "PM"[2..] == [];
  }

  lemma SevenPmMinute(f: Fields, c: seq<Directive>)
    requires c == [Minute, AmPm]
    ensures Match(c, "00PM", f) == Some(f.(minute := Some(0), pm := Some(true)))
  {
    assert LeadingDigits("00PM", 2) == 2;
    assert DigitsValue("00") == 0;
    assert Number("00PM", 1, 2, 0, 59) == Some((0, 2));
    assert "00PM"[2..] == "PM" && c[1..] == [AmPm];
    SevenPmTail(f.(minute := Some(0)));
  }

  lemma SevenPmHour(c: seq<Directive>, f3: Fields)
    requires c == CompactClock && Match(c[1..], ":00PM", NoFields.(hour12 := Some(7))) == Some(f3)
    ensures Match(c, "7:00PM", NoFields) == Some(f3)
  {
    assert c[0] == Hour12 && NumberShape(Hour12) == Some((1, 2, 1, 12));
    assert SetNumber(Hour12, NoFields, 7) == NoFields.(hour12 := Some(7));
    assert LeadingDigits("7:00PM", 2) == 1;
    assert DigitsValue("7") == 7;
    assert Number("7:00PM", 1, 2, 1, 12) == Some((7, 1));
    assert "7:00PM"[1..] == ":00PM";
  }

  // ---- Dates: `\w{3,10}\s+\d{1,2},?\s+\d{4}`, commas dropped, then `%B %d %Y` ----

  /** A time rendered as `%I:%M%p` reads back as that time, less its seconds: the 12-hour conversion is undone. */
  lemma ClockRoundTrip(t: Time)
    requires ValidTime(t)
    ensures ClockOf(Format(DateTime(Date(1900, 1, 1), t), CompactClock)) == Some(Time(t.hour, t.minute, 0))
  {
    var dt := DateTime(Date(1900, 1, 1), t);
    CompactClockShape();
    MatchRender(CompactClock, dt, NoFields);
    RecordAllFields(CompactClock, dt, NoFields);
    To24To12(t.hour);
  }

  /** A date rendered as `%B %d %Y` reads back as that date. */
  lemma DateRoundTrip(d: Date)
    requires ValidDate(d)
    ensures DateOfMatch(Format(DateTime(d, Midnight), SpacedDate)) == Ok(d)
  {
    var dt := DateTime(d, Midnight);
    var s := Format(dt, SpacedDate);
    SpacedDateShape();
    FormatParse(dt, SpacedDate);
    RenderLacks(SpacedDate, dt, ',');
    CharContains(s, ',');
    ReplaceAbsent(s, ",", "");
  }

  /** The start-date pattern of `_parse_start` (`\w`, case as written). */
  const StartDatePattern: Pattern :=
    [Rep(IsWordChar, 3, 10), Plus(IsSpace), Rep(IsDigit, 1, 2), Opt(c => c == ','), Plus(IsSpace), Rep(IsDigit, 4, 4)]

  /** The link-date pattern: `[a-z]{3,10}\s+\d{1,2},?\s+\d{4}` under `re.I`. */
  const LinkDatePattern: Pattern :=
    [Rep(IsAlpha, 3, 10), Plus(IsSpace), Rep(IsDigit, 1, 2), Opt(c => c == ','), Plus(IsSpace), Rep(IsDigit, 4, 4)]

  /** The date text a match stands for: commas removed, read as `%B %d %Y`. */
  function DateOfMatch(t: String): (r: Result<Date>)
    ensures r.Ok? ==> ValidDate(r.value)
  {
    match Parse(Replace(t, ",", ""), SpacedDate)
    case Err(e) => Err(e)
    case Ok(dt) => Ok(dt.date)
  }

  /**
   * `_parse_start`: the first date-like run of the text, combined with the given
   * time. No run raises, as does a run that is not a full month name, day and year.
   */
  function ParseStart(dateText: String, t: Time): (r: Result<DateTime>)
    ensures Search(StartDatePattern, dateText).None? ==> r.Err?
    ensures r.Ok? ==> r.value.time == t && ValidDate(r.value.date)
    ensures r.Ok? ==> exists m :: Search(StartDatePattern, dateText) == Some(m) && DateOfMatch(Group(dateText, m)) == Ok(r.value.date)
  {
    match Search(StartDatePattern, dateText)
    case None => Err("no date in text")
    case Some(m) =>
      match DateOfMatch(Group(dateText, m))
      case Err(e) => Err(e)
      case Ok(d) => Ok(Combine(d, t))
  }

  /** The text of a link and, when it has one, the date in it. */
  datatype TextDate = TextDate(text: Option<String>, date: Option<Date>)

  /**
   * `_parse_link_text_date`: the link's text nodes joined and stripped. Without a
   * date-like run the text comes back with no date; a run that is not a real date
   * gives neither; otherwise both.
   */
  function ParseLinkTextDate(nodes: seq<String>): (r: TextDate)
    ensures var text := Strip(Join(" ", nodes));
      && (Search(LinkDatePattern, text).None? <==> r == TextDate(Some(text), None))
      && (r.date.Some? <==> r.text.Some? && Search(LinkDatePattern, text).Some?)
      && (r.text.Some? ==> r.text.value == text)
      && (r.date.Some? ==> ValidDate(r.date.value))
  {
    var text := Strip(Join(" ", nodes));
    match Search(LinkDatePattern, text)
    case None => TextDate(Some(text), None)
    case Some(m) =>
      match DateOfMatch(Group(text, m))
      case Err(_) => TextDate(None, None)
      case Ok(d) => TextDate(Some(text), Some(d))
  }

  /** The title a dated link gets: its text less every date-like run, whitespace collapsed. */
  function LinkTitle(text: String): (r: String)
    ensures SpacesCollapsed(r)
    ensures |r| > 0 ==> r[0] != ' ' && r[|r| - 1] != ' '
  {
    NormalizeSpace(Sub(LinkDatePattern, text, ""))
  }

  // ---- The links of past meetings, grouped by date ----

  /** An anchor on the page: its `href` and its text nodes. */
  datatype Anchor = Anchor(href: String, nodes: seq<String>)

  /** What one anchor contributes: the date in its text and its link, when the date parses. */
  function AnchorLink(a: Anchor, join: String -> String): (r: Option<(Date, Link)>)
    ensures r.Some? <==> ParseLinkTextDate(a.nodes).date.Some?
  {
    var td := ParseLinkTextDate(a.nodes);
    if td.date.None? then None
    else Some((td.date.value, Link(join(a.href), LinkTitle(td.text.value))))
  }

  /** The links of the anchors dated `d`, in page order. */
  function LinksOn(anchors: seq<Anchor>, join: String -> String, d: Date): seq<Link>
  {
    if anchors == [] then []
    else
      var last := AnchorLink(anchors[|anchors| - 1], join);
      LinksOn(anchors[..|anchors| - 1], join, d) +
        (if last.Some? && last.value.0 == d then [last.value.1] else [])
  }

  /** A dictionary from meeting time to its links, in the order its keys were first added. */
  type LinkGroups = seq<(DateTime, seq<Link>)>

  function Keys(g: LinkGroups): seq<DateTime>
    ensures |Keys(g)| == |g| && forall i :: 0 <= i < |g| ==> Keys(g)[i] == g[i].0
  {
    seq(|g|, i requires 0 <= i < |g| => g[i].0)
  }

  /** `link_map[k].append(l)` on a `defaultdict(list)`. */
  function AddLink(g: LinkGroups, k: DateTime, l: Link): (r: LinkGroups)
    ensures k in Keys(g) ==> |r| == |g| && forall i :: 0 <= i < |g| ==>
      r[i] == (if g[i].0 == k then (k, g[i].1 + [l]) else g[i])
    ensures k !in Keys(g) ==> r == g + [(k, [l])]
  {
    if k in Keys(g) then seq(|g|, i requires 0 <= i < |g| => if g[i].0 == k then (k, g[i].1 + [l]) else g[i])
    else g + [(k, [l])]
  }

  /** The dictionary `_parse_prev_links` builds from the anchors. */
  function Grouped(anchors: seq<Anchor>, join: String -> String): LinkGroups
  {
    if anchors == [] then []
    else
      var g := Grouped(anchors[..|anchors| - 1], join);
      match AnchorLink(anchors[|anchors| - 1], join)
      case None => g
      case Some(dl) => AddLink(g, Combine(dl.0, Midnight), dl.1)
  }

  /** `_parse_prev_links`: every dated anchor's link is appended under its date at midnight. */
  method PrevLinks(anchors: seq<Anchor>, join: String -> String) returns (groups: LinkGroups)
    ensures groups == Grouped(anchors, join)
  {
    groups := [];
    for i := 0 to |anchors|
      invariant groups == Grouped(anchors[..i], join)
    {
      assert anchors[..i + 1][..i] == anchors[..i];
      var td := ParseLinkTextDate(anchors[i].nodes);
      if td.date.None? {
        continue;
      }
      var key := Combine(td.date.value, Midnight);
      var title := LinkTitle(td.text.value);
      groups := AddLink(groups, key, Link(join(anchors[i].href), title));
    }
    assert anchors[..|anchors|] == anchors;
  }

  /** No key appears twice. */
  predicate Distinct(ks: seq<DateTime>)
  {
    forall i, j :: 0 <= i < j < |ks| ==> ks[i] != ks[j]
  }

  /** Adding a link adds its key only when the key is new, at the end. */
  lemma AddLinkKeys(g: LinkGroups, k: DateTime, l: Link)
    ensures Keys(AddLink(g, k, l)) == if k in Keys(g) then Keys(g) else Keys(g) + [k]
  {
    var r := AddLink(g, k, l);
    if k in Keys(g) {
      assert forall i :: 0 <= i < |g| ==> Keys(r)[i] == Keys(g)[i];
    } else {
      assert forall i :: 0 <= i < |g| ==> Keys(r)[i] == Keys(g)[i];
    }
  }

  /** The keys are distinct dates at midnight. */
  lemma {:induction false} GroupedKeys(anchors: seq<Anchor>, join: String -> String)
    ensures var ks := Keys(Grouped(anchors, join));
      Distinct(ks) && forall i :: 0 <= i < |ks| ==> ks[i].time == Midnight
    decreases |anchors|
  {
    if anchors != [] {
      var init := anchors[..|anchors| - 1];
      GroupedKeys(init, join);
      match AnchorLink(anchors[|anchors| - 1], join)
      case None =>
      case Some(dl) =>
        var g0, k := Grouped(init, join), Combine(dl.0, Midnight);
        assert Grouped(anchors, join) == AddLink(g0, k, dl.1);
        AddLinkMidnight(g0, k, dl.1);
    }
  }

  /** Adding a link under a midnight key keeps the keys distinct and at midnight. */
  lemma AddLinkMidnight(g: LinkGroups, k: DateTime, l: Link)
    requires Distinct(Keys(g)) && forall i :: 0 <= i < |Keys(g)| ==> Keys(g)[i].time == Midnight
    requires k.time == Midnight
    ensures var ks := Keys(AddLink(g, k, l));
      Distinct(ks) && forall i :: 0 <= i < |ks| ==> ks[i].time == Midnight
  {
    AddLinkKeys(g, k, l);
    if k !in Keys(g) {
      DistinctSnoc(Keys(g), k);
    }
  }

  lemma DistinctSnoc(ks: seq<DateTime>, k: DateTime)
    requires Distinct(ks) && k !in ks
    ensures Distinct(ks + [k])
  {
  }

  /** Every date some anchor's link is dated has a key. */
  lemma {:induction false} GroupedCovers(anchors: seq<Anchor>, join: String -> String, d: Date)
    requires LinksOn(anchors, join, d) != []
    ensures Combine(d, Midnight) in Keys(Grouped(anchors, join))
    decreases |anchors|
  {
    var init := anchors[..|anchors| - 1];
    var last := AnchorLink(anchors[|anchors| - 1], join);
    if LinksOn(init, join, d) != [] {
      GroupedCovers(init, join, d);
    }
    if last.Some? {
      AddLinkKeys(Grouped(init, join), Combine(last.value.0, Midnight), last.value.1);
    }
  }

  /** Each group holds exactly the links of its date, in page order. */
  lemma {:induction false} GroupedGroup(anchors: seq<Anchor>, join: String -> String, i: nat)
    requires i < |Grouped(anchors, join)|
    ensures var e := Grouped(anchors, join)[i];
      e.1 == LinksOn(anchors, join, e.0.date)
    decreases |anchors|
  {
    var init := anchors[..|anchors| - 1];
    var g0 := Grouped(init, join);
    var last := AnchorLink(anchors[|anchors| - 1], join);
    if last.None? {
      GroupedGroup(init, join, i);
    } else {
      var k := Combine(last.value.0, Midnight);
      GroupedKeys(init, join);
      if i < |g0| {
        GroupedGroup(init, join, i);
        assert Keys(g0)[i] == g0[i].0;
      } else {
        assert k !in Keys(g0);
        if LinksOn(init, join, last.value.0) != [] {
          GroupedCovers(init, join, last.value.0);
        }
      }
    }
  }

  /**
   * The grouped links: keys are distinct, all at midnight, and each holds exactly
   * the links of its date in page order; every date that has links has a key.
   */
  lemma GroupedShape(anchors: seq<Anchor>, join: String -> String)
    ensures var g := Grouped(anchors, join);
      && Distinct(Keys(g))
      && (forall i :: 0 <= i < |g| ==> g[i].0.time == Midnight && g[i].1 == LinksOn(anchors, join, g[i].0.date))
      && (forall d :: LinksOn(anchors, join, d) != [] ==> Combine(d, Midnight) in Keys(g))
  {
    var g := Grouped(anchors, join);
    GroupedKeys(anchors, join);
    forall i | 0 <= i < |g| ensures g[i].0.time == Midnight && g[i].1 == LinksOn(anchors, join, g[i].0.date) {
      assert Keys(g)[i] == g[i].0;
      GroupedGroup(anchors, join, i);
    }
    forall d | LinksOn(anchors, join, d) != [] ensures Combine(d, Midnight) in Keys(g) {
      GroupedCovers(anchors, join, d);
    }
  }

  // ---- The links of an upcoming meeting ----

  /** The links `_parse_next_links` keeps: those dated the meeting's start date, in page order. */
  method NextLinks(start: DateTime, anchors: seq<Anchor>, join: String -> String) returns (links: seq<Link>)
    ensures links == LinksOn(anchors, join, start.date)
  {
    links := [];
    for i := 0 to |anchors|
      invariant links == LinksOn(anchors[..i], join, start.date)
    {
      assert anchors[..i + 1][..i] == anchors[..i];
      var td := ParseLinkTextDate(anchors[i].nodes);
      if td.date != Some(start.date) {
        continue;
      }
      var title := LinkTitle(td.text.value);
      links := links + [Link(join(anchors[i].href), title)];
    }
    assert anchors[..|anchors|] == anchors;
  }

  /** An upcoming meeting gets exactly the links a past meeting on the same date would be grouped under. */
  lemma NextLinksArePrevGroup(start: DateTime, anchors: seq<Anchor>, join: String -> String, i: nat)
    requires i < |Grouped(anchors, join)| && Grouped(anchors, join)[i].0.date == start.date
    ensures Grouped(anchors, join)[i].1 == LinksOn(anchors, join, start.date)
  {
    GroupedGroup(anchors, join, i);
  }

  // ---- Event links and the location check ----

  /** A calendar event: its url, description, and its `location` entry if any, with the url it holds. */
  datatype Event = Event(url: String, description: String, location: Option<Option<String>>)

  /**
   * `_parse_event_links`: the event url with an empty title, then the fourth word of a
   * non-empty description as the Zoom link, then a non-empty location url. A description
   * of fewer than four words, or a location without a url, raises.
   */
  function EventLinks(e: Event): (r: Result<seq<Link>>)
    ensures r.Err? <==> (e.description != [] && |Words(e.description)| < 4) ||
                        (e.location == Some(None) && (e.description == [] || |Words(e.description)| >= 4))
    ensures r.Ok? ==> |r.value| >= 1 && r.value[0] == Link(e.url, "")
    ensures r.Ok? ==> |r.value| == 1 + (if e.description != [] then 1 else 0) +
                                    (if e.location.Some? && e.location.value.Some? && e.location.value.value != [] then 1 else 0)
    ensures r.Ok? && e.description != [] ==> r.value[1] == Link(Words(e.description)[3], "Zoom Meeting")
  {
    var first := [Link(e.url, "")];
    var words := Words(e.description);
    if e.description != [] && |words| < 4 then Err("list index out of range")
    else
      var zoom := if e.description != [] then [Link(words[3], "Zoom Meeting")] else [];
      match e.location
      case None => Ok(first + zoom)
      case Some(None) => Err("KeyError: 'url'")
      case Some(Some(u)) => Ok(first + zoom + (if u != [] then [Link(u, "")] else []))
  }

  /** `_validate_location`: the page must still name the Guardian Building address. */
  function ValidateLocation(text: String): (r: Result<()>)
    ensures r.Ok? <==> Contains(text, "500 Griswold")
  {
    if Contains(text, "500 Griswold") then Ok(()) else Err("Meeting location has changed")
  }

  // ---- Past meetings and the one-year window ----

  /** `today.replace(year=today.year - 1)`, which fails on 29 February. */
  function YearAgo(today: DateTime): (r: Result<DateTime>)
    requires Valid(today)
    ensures r.Err? <==> (today.date.month == 2 && today.date.day == 29) || today.date.year == 1
    ensures r.Ok? ==> Valid(r.value) && r.value.time == today.time
    ensures r.Ok? ==> r.value.date == Date(today.date.year - 1, today.date.month, today.date.day)
  {
    var d := today.date.(year := today.date.year - 1);
    if d.year >= 1 && d.day <= DaysInMonth(d.year, d.month) then Ok(DateTime(d, today.time)) else Err("day is out of range for month")
  }

  datatype PastMeeting = PastMeeting(title: String, start: DateTime, links: seq<Link>)

  /** The past meetings kept from the groups: one per date, in key order. */
  function KeptMeetings(g: LinkGroups, cutoff: DateTime, archive: bool, titleOf: seq<Link> -> String): seq<PastMeeting>
  {
    if g == [] then []
    else
      var last := g[|g| - 1];
      KeptMeetings(g[..|g| - 1], cutoff, archive, titleOf) +
        (if Before(last.0, cutoff) && !archive then [] else [PastMeeting(titleOf(last.1), last.0, last.1)])
  }

  /**
   * `_parse_prev_meetings`: a meeting per date group, titled by the spider's rule,
   * dropped when it starts before a year ago unless archiving is on.
   */
  method PrevMeetings(groups: LinkGroups, today: DateTime, archive: bool, titleOf: seq<Link> -> String)
    returns (r: Result<seq<PastMeeting>>)
    requires Valid(today)
    ensures YearAgo(today).Err? <==> r.Err?
    ensures r.Ok? ==> r.value == KeptMeetings(groups, YearAgo(today).value, archive, titleOf)
  {
    var cutoff := YearAgo(today);
    if cutoff.Err? {
      return Err(cutoff.error);
    }
    var kept: seq<PastMeeting> := [];
    for i := 0 to |groups|
      invariant kept == KeptMeetings(groups[..i], cutoff.value, archive, titleOf)
    {
      assert groups[..i + 1][..i] == groups[..i];
      var (dt, links) := groups[i];
      var meeting := PastMeeting(titleOf(links), dt, links);
      if Before(meeting.start, cutoff.value) && !archive {
        continue;
      }
      kept := kept + [meeting];
    }
    assert groups[..|groups|] == groups;
    return Ok(kept);
  }

  /** Every kept meeting is within the window unless archiving; with archiving nothing is dropped. */
  lemma {:induction false} KeptMeetingsWindow(g: LinkGroups, cutoff: DateTime, archive: bool, titleOf: seq<Link> -> String)
    ensures var k := KeptMeetings(g, cutoff, archive, titleOf);
      && |k| <= |g|
      && (!archive ==> forall i :: 0 <= i < |k| ==> !Before(k[i].start, cutoff))
      && (archive ==> |k| == |g| && forall i :: 0 <= i < |g| ==> k[i].start == g[i].0 && k[i].links == g[i].1)
    decreases |g|
  {
    if g != [] {
      KeptMeetingsWindow(g[..|g| - 1], cutoff, archive, titleOf);
    }
  }
}

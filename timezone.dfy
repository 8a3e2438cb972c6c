/**
 * Localising a wall-clock time to America/Detroit and writing it with a numeric
 * offset, and reading such a string back (`datetime.fromisoformat`).
 *
 * The tz database is not modelled: `zone` gives the UTC offset, in minutes, that
 * America/Detroit has at a wall-clock time, which is -300 (EST) or -240 (EDT).
 */
module Timezone {
  import opened Wrappers
  import opened Text
  import opened Numbers
  import opened Calendar
  import opened Strptime

  /** The two offsets America/Detroit uses, in minutes east of UTC. */
  type DetroitOffset = m: int | m == -300 || m == -240 witness -300

  /** `%z`: sign, then hours and minutes as two digits each ("-0500"). */
  function OffsetZ(m: int): (r: String)
    requires -1440 < m < 1440
    ensures |r| == 5 && (r[0] == '-' <==> m < 0) && (r[0] == '+' <==> m >= 0)
  {
    var a: nat := if m < 0 then -m else m;
    Pow10Values();
    PadRoundTrip(a / 60, 2);
    PadRoundTrip(a % 60, 2);
    (if m < 0 then "-" else "+") + Pad(a / 60, 2) + Pad(a % 60, 2)
  }

  /** The `time-numoffset` form of section 5.6 of RFC 3339 ("-05:00"). */
  function OffsetText(m: int): (r: String)
    requires -1440 < m < 1440
    ensures |r| == 6 && r[3] == ':'
  {
    var z := OffsetZ(m);
    z[..3] + ":" + z[3..]
  }

  /** Inserting a colon before the last two characters, as `s[:-2] + ":" + s[-2:]` does. */
  function ColonBeforeLastTwo(s: String): (r: String)
    requires |s| >= 2
    ensures |r| == |s| + 1 && r[|s| - 2] == ':'
  {
    s[..|s| - 2] + ":" + s[|s| - 2..]
  }

  /**
   * `change_timezone(date)`: parse `%Y-%m-%dT%H:%M:%S`, localise to America/Detroit,
   * format with `%z` and put a colon into the offset.
   */
  function ChangeTimezone(date: String, zone: DateTime -> DetroitOffset): (r: Result<String>)
    ensures r.Ok? <==> Parse(date, IsoLayout).Ok?
    ensures r.Ok? ==> |r.value| == 25
  {
    match Parse(date, IsoLayout)
    case Err(e) => Err(e)
    case Ok(dt) =>
      IsoLength(dt);
      Ok(ColonBeforeLastTwo(Format(dt, IsoLayout) + OffsetZ(zone(dt))))
  }

  /** `Format(dt, IsoLayout)` followed by `tail`: each field zero-padded, with its separator. */
  lemma IsoTextTail(dt: DateTime, tail: String)
    requires Valid(dt)
    ensures Format(dt, IsoLayout) + tail ==
      Pad(dt.date.year, 4) + ("-" + (Pad(dt.date.month, 2) + ("-" + (Pad(dt.date.day, 2) + ("T" +
      (Pad(dt.time.hour, 2) + (":" + (Pad(dt.time.minute, 2) + (":" + (Pad(dt.time.second, 2) + tail))))))))))
  {
    var l5 := [Lit('T'), Hour24, Lit(':'), Minute, Lit(':'), Second];
    assert IsoLayout == [Year4, Lit('-'), Month, Lit('-'), Day] + l5;
    DateTextTail(dt, l5, tail);
    TimeTextTail(dt, tail);
  }

  lemma DateTextTail(dt: DateTime, l5: seq<Directive>, tail: String)
    requires Valid(dt)
    ensures Render([Year4, Lit('-'), Month, Lit('-'), Day] + l5, dt) + tail ==
      Pad(dt.date.year, 4) + ("-" + (Pad(dt.date.month, 2) + ("-" + (Pad(dt.date.day, 2) + (Render(l5, dt) + tail)))))
  {
    var l3 := [Lit('-'), Day] + l5;
    RenderCons3(Year4, Lit('-'), Month, l3, dt, tail);
    RenderCons2(Lit('-'), Day, l5, dt, tail);
    assert [Year4, Lit('-'), Month] + l3 == [Year4, Lit('-'), Month, Lit('-'), Day] + l5;
  }

  lemma TimeTextTail(dt: DateTime, tail: String)
    requires Valid(dt)
    ensures Render([Lit('T'), Hour24, Lit(':'), Minute, Lit(':'), Second], dt) + tail ==
      "T" + (Pad(dt.time.hour, 2) + (":" + (Pad(dt.time.minute, 2) + (":" + (Pad(dt.time.second, 2) + tail)))))
  {
    var l3 := [Minute, Lit(':'), Second];
    var clock := Pad(dt.time.minute, 2) + (":" + (Pad(dt.time.second, 2) + tail));
    assert Render(l3, dt) + tail == clock by {
      RenderCons3(Minute, Lit(':'), Second, [], dt, tail);
      assert l3 + [] == l3;
    }
    assert Render([Lit('T'), Hour24, Lit(':')] + l3, dt) + tail == "T" + (Pad(dt.time.hour, 2) + (":" + clock)) by {
      RenderCons3(Lit('T'), Hour24, Lit(':'), l3, dt, tail);
    }
    assert [Lit('T'), Hour24, Lit(':')] + l3 == [Lit('T'), Hour24, Lit(':'), Minute, Lit(':'), Second];
  }

  /** `"%Y%m%d%H%M"` */
  const StampLayout := [Year4, Month, Day, Hour24, Minute]

  /** `%Y%m%d%H%M` of a valid datetime: twelve digits, the fields zero-padded in order. */
  lemma StampText(dt: DateTime)
    requires Valid(dt)
    ensures Format(dt, StampLayout) ==
      Pad(dt.date.year, 4) + (Pad(dt.date.month, 2) + (Pad(dt.date.day, 2) + (Pad(dt.time.hour, 2) + Pad(dt.time.minute, 2))))
    ensures |Format(dt, StampLayout)| == 12 && AllDigits(Format(dt, StampLayout))
  {
    StampPieces(dt);
    StampDigits(dt.date.year, dt.date.month, dt.date.day, dt.time.hour, dt.time.minute);
  }

  lemma StampPieces(dt: DateTime)
    requires Valid(dt)
    ensures Format(dt, StampLayout) ==
      Pad(dt.date.year, 4) + (Pad(dt.date.month, 2) + (Pad(dt.date.day, 2) + (Pad(dt.time.hour, 2) + Pad(dt.time.minute, 2))))
  {
    StampTextTail(dt, []);
    assert Pad(dt.time.minute, 2) + [] == Pad(dt.time.minute, 2);
    assert Format(dt, StampLayout) + [] == Format(dt, StampLayout);
  }

  lemma StampTextTail(dt: DateTime, tail: String)
    requires Valid(dt)
    ensures Format(dt, StampLayout) + tail ==
      Pad(dt.date.year, 4) + (Pad(dt.date.month, 2) + (Pad(dt.date.day, 2) + (Pad(dt.time.hour, 2) + (Pad(dt.time.minute, 2) + tail))))
  {
    assert StampLayout == [Year4, Month, Day, Hour24, Minute] + [];
    DigitFieldsText(dt, [], tail);
    assert Render([], dt) + tail == tail;
  }

  lemma StampDigits(year: nat, month: nat, day: nat, hour: nat, minute: nat)
    requires year <= 9999 && month < 100 && day < 100 && hour < 100 && minute < 100
    ensures var s := Pad(year, 4) + (Pad(month, 2) + (Pad(day, 2) + (Pad(hour, 2) + Pad(minute, 2))));
      |s| == 12 && AllDigits(s)
  {
    Pow10Values();
    PadRoundTrip(year, 4);
    PadRoundTrip(month, 2);
    PadRoundTrip(day, 2);
    PadRoundTrip(hour, 2);
    PadRoundTrip(minute, 2);
  }

  /** `%Y%m%d%H%M` followed by further directives. */
  lemma DigitFieldsText(dt: DateTime, rest: seq<Directive>, tail: String)
    requires Valid(dt)
    ensures Render([Year4, Month, Day, Hour24, Minute] + rest, dt) + tail ==
      Pad(dt.date.year, 4) + (Pad(dt.date.month, 2) + (Pad(dt.date.day, 2) + (Pad(dt.time.hour, 2) +
      (Pad(dt.time.minute, 2) + (Render(rest, dt) + tail)))))
  {
    var l2 := [Hour24, Minute] + rest;
    RenderCons3(Year4, Month, Day, l2, dt, tail);
    RenderCons2(Hour24, Minute, rest, dt, tail);
    assert [Year4, Month, Day] + l2 == [Year4, Month, Day, Hour24, Minute] + rest;
  }

  lemma RenderCons2(a: Directive, b: Directive, ds: seq<Directive>, dt: DateTime, tail: String)
    requires Valid(dt)
    ensures Render([a, b] + ds, dt) + tail == RenderOne(a, dt) + (RenderOne(b, dt) + (Render(ds, dt) + tail))
  {
    RenderCons(a, [b] + ds, dt, tail);
    RenderCons(b, ds, dt, tail);
    assert [a, b] + ds == [a] + ([b] + ds);
  }

  lemma RenderCons3(a: Directive, b: Directive, c: Directive, ds: seq<Directive>, dt: DateTime, tail: String)
    requires Valid(dt)
    ensures Render([a, b, c] + ds, dt) + tail ==
      RenderOne(a, dt) + (RenderOne(b, dt) + (RenderOne(c, dt) + (Render(ds, dt) + tail)))
  {
    RenderCons(a, [b, c] + ds, dt, tail);
    RenderCons2(b, c, ds, dt, tail);
    assert [a, b, c] + ds == [a] + ([b, c] + ds);
  }

  lemma RenderCons(d: Directive, ds: seq<Directive>, dt: DateTime, tail: String)
    requires Valid(dt)
    ensures Render([d] + ds, dt) + tail == RenderOne(d, dt) + (Render(ds, dt) + tail)
  {
    assert ([d] + ds)[1..] == ds;
  }

  /** `Format(dt, IsoLayout)` is always 19 characters long. */
  lemma IsoLength(dt: DateTime)
    requires Valid(dt)
    ensures |Format(dt, IsoLayout)| == 19
  {
    IsoTextTail(dt, []);
    Pow10Values();
    PadRoundTrip(dt.date.year, 4);
    PadRoundTrip(dt.date.month, 2);
    PadRoundTrip(dt.date.day, 2);
    PadRoundTrip(dt.time.hour, 2);
    PadRoundTrip(dt.time.minute, 2);
    PadRoundTrip(dt.time.second, 2);
  }

  lemma ColonInOffset(s: String, z: String)
    requires |z| == 5
    ensures ColonBeforeLastTwo(s + z) == s + (z[..3] + ":" + z[3..])
  {
    assert (s + z)[..|s + z| - 2] == s + z[..3];
    assert (s + z)[|s + z| - 2..] == z[3..];
  }

  /**
   * Localising keeps the date and time as written and only appends the offset,
   * in the colon form: "2025-01-16T09:00:00" becomes "2025-01-16T09:00:00-05:00".
   */
  lemma ChangeTimezoneIso(dt: DateTime, zone: DateTime -> DetroitOffset)
    requires Valid(dt)
    ensures ChangeTimezone(Format(dt, IsoLayout), zone) == Ok(Format(dt, IsoLayout) + OffsetText(zone(dt)))
  {
    IsoRoundTrip(dt);
    ColonInOffset(Format(dt, IsoLayout), OffsetZ(zone(dt)));
  }

  /** The offset text, right-nested: sign, hours, colon, minutes. */
  lemma OffsetTextShape(m: int)
    requires -1440 < m < 1440
    ensures var a: nat := if m < 0 then -m else m;
      OffsetText(m) == [OffsetZ(m)[0]] + (Pad(a / 60, 2) + (":" + Pad(a % 60, 2)))
  {
    var a: nat := if m < 0 then -m else m;
    var z := OffsetZ(m);
    Pow10Values();
    PadRoundTrip(a / 60, 2);
    PadRoundTrip(a % 60, 2);
    assert z[..3] == [z[0]] + Pad(a / 60, 2);
    assert z[3..] == Pad(a % 60, 2);
  }

  /** The two Detroit offsets as written into every start time. */
  lemma DetroitOffsetTexts()
    ensures OffsetText(-300) == "-05:00" && OffsetText(-240) == "-04:00"
  {
    Pow10Values();
    assert Pad(5, 2) == "05" && Pad(4, 2) == "04" && Pad(0, 2) == "00";
  }

  /** `n` decimal digits at the start of `s`: their value and what follows them. */
  function TakeDigits(s: String, n: nat): (r: Option<(nat, String)>)
    ensures r.Some? ==> |r.value.1| == |s| - n
  {
    if |s| >= n && AllDigits(s[..n]) then Some((DigitsValue(s[..n]), s[n..])) else None
  }

  /** The character `c` at the start of `s`: what follows it. */
  function TakeChar(s: String, c: char): (r: Option<String>)
    ensures r.Some? ==> |r.value| == |s| - 1
  {
    if |s| > 0 && s[0] == c then Some(s[1..]) else None
  }

  /** `YYYY-MM-DDTHH:MM:SS` at the start of `s`: the fields, unchecked, and the rest of `s`. */
  function IsoHead(s: String): (r: Option<(DateTime, String)>)
    ensures r.Some? ==> |r.value.1| == |s| - 19
  {
    var y :- TakeDigits(s, 4);
    var s1 :- TakeChar(y.1, '-');
    var mo :- TakeDigits(s1, 2);
    var s2 :- TakeChar(mo.1, '-');
    var d :- TakeDigits(s2, 2);
    var s3 :- TakeChar(d.1, 'T');
    var h :- TakeDigits(s3, 2);
    var s4 :- TakeChar(h.1, ':');
    var mi :- TakeDigits(s4, 2);
    var s5 :- TakeChar(mi.1, ':');
    var se :- TakeDigits(s5, 2);
    Some((DateTime(Date(y.0, mo.0, d.0), Time(h.0, mi.0, se.0)), se.1))
  }

  /** `+HH:MM` or `-HH:MM`, in minutes; Python requires it to be under 24 hours. */
  function IsoOffset(s: String): (r: Option<int>)
    ensures r.Some? ==> -1440 < r.value < 1440
  {
    if |s| == 0 || (s[0] != '+' && s[0] != '-') then None
    else
      var h :- TakeDigits(s[1..], 2);
      var s1 :- TakeChar(h.1, ':');
      var mi :- TakeDigits(s1, 2);
      if mi.1 != [] || h.0 >= 24 || mi.0 >= 60 then None
      else Some(if s[0] == '-' then -(h.0 * 60 + mi.0) else h.0 * 60 + mi.0)
  }

  /**
   * `datetime.fromisoformat` on the two shapes the scrapers produce:
   * `YYYY-MM-DDTHH:MM:SS`, optionally followed by `+HH:MM` or `-HH:MM`.
   * The result carries the offset in minutes when there is one.
   */
  function FromIsoFormat(s: String): (r: Result<(DateTime, Option<int>)>)
    ensures r.Ok? ==> Valid(r.value.0) && (|s| == 19 <==> r.value.1.None?)
    ensures r.Ok? && r.value.1.Some? ==> -1440 < r.value.1.value < 1440
  {
    match IsoHead(s)
    case None => Err("Invalid isoformat string")
    case Some(head) =>
      var (dt, rest) := head;
      if !Valid(dt) then Err("month, day, hour, minute or second out of range")
      else if rest == [] then Ok((dt, None))
      else
        match IsoOffset(rest)
        case None => Err("Invalid isoformat string")
        case Some(m) => Ok((dt, Some(m)))
  }

  lemma TakeDigitsPad(v: nat, n: nat, rest: String)
    requires 1 <= n && v < Pow10(n)
    ensures TakeDigits(Pad(v, n) + rest, n) == Some((v, rest))
  {
    PadRoundTrip(v, n);
    var s := Pad(v, n) + rest;
    assert s[..n] == Pad(v, n);
    assert s[n..] == rest;
  }

  lemma TakeCharCons(c: char, rest: String)
    ensures TakeChar([c] + rest, c) == Some(rest)
  {
    assert ([c] + rest)[1..] == rest;
  }

  /** The ISO text of a valid datetime, followed by anything, reads back as that datetime. */
  lemma IsoHeadFormat(dt: DateTime, tail: String)
    requires Valid(dt)
    ensures IsoHead(Format(dt, IsoLayout) + tail) == Some((dt, tail))
  {
    IsoTextTail(dt, tail);
    Pow10Values();
    var se := Pad(dt.time.second, 2) + tail;
    TakeDigitsPad(dt.time.second, 2, tail);
    TakeCharCons(':', se);
    var mi := Pad(dt.time.minute, 2) + (":" + se);
    TakeDigitsPad(dt.time.minute, 2, ":" + se);
    TakeCharCons(':', mi);
    var h := Pad(dt.time.hour, 2) + (":" + mi);
    TakeDigitsPad(dt.time.hour, 2, ":" + mi);
    TakeCharCons('T', h);
    var d := Pad(dt.date.day, 2) + ("T" + h);
    TakeDigitsPad(dt.date.day, 2, "T" + h);
    TakeCharCons('-', d);
    var mo := Pad(dt.date.month, 2) + ("-" + d);
    TakeDigitsPad(dt.date.month, 2, "-" + d);
    TakeCharCons('-', mo);
    TakeDigitsPad(dt.date.year, 4, "-" + mo);
  }

  /** The ISO text of a valid datetime reads back as that datetime, with no offset. */
  lemma FromIsoFormatNaive(dt: DateTime)
    requires Valid(dt)
    ensures FromIsoFormat(Format(dt, IsoLayout)) == Ok((dt, None))
  {
    IsoHeadFormat(dt, []);
    assert Format(dt, IsoLayout) + [] == Format(dt, IsoLayout);
  }

  /** The offset text reads back as the offset. */
  lemma IsoOffsetText(m: int)
    requires -1440 < m < 1440
    ensures IsoOffset(OffsetText(m)) == Some(m)
  {
    var t := OffsetText(m);
    var a: nat := if m < 0 then -m else m;
    var hh, mm := Pad(a / 60, 2), Pad(a % 60, 2);
    Pow10Values();
    OffsetTextShape(m);
    var body := hh + (":" + mm);
    assert t[0] == OffsetZ(m)[0] && t[1..] == body;
    TakeDigitsPad(a / 60, 2, ":" + mm);
    TakeCharCons(':', mm);
    TakeDigitsPad(a % 60, 2, []);
    assert mm + [] == mm;
    assert a / 60 * 60 + a % 60 == a;
  }

  /** What `change_timezone` writes reads back as the same wall-clock time and offset. */
  lemma FromIsoFormatLocalised(dt: DateTime, off: int)
    requires Valid(dt) && -1440 < off < 1440
    ensures FromIsoFormat(Format(dt, IsoLayout) + OffsetText(off)) == Ok((dt, Some(off)))
  {
    IsoHeadFormat(dt, OffsetText(off));
    IsoOffsetText(off);
  }
}

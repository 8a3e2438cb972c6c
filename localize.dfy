/**
 * The localised start text every harambe scraper writes: `change_timezone`
 * applied to `datetime.isoformat()`, and what can be read off it (the date
 * before the "T", the all-day test on its suffix).
 */
module Localize {
  import opened Wrappers
  import opened Text
  import opened Numbers
  import opened Calendar
  import opened Strptime
  import opened Timezone

  /** The `%Y-%m-%d` text, right-nested, with any tail after it. */
  lemma DateNested(dt: DateTime, tail: String)
    requires Valid(dt)
    ensures Format(dt, DateLayout) + tail ==
      Pad(dt.date.year, 4) + ("-" + (Pad(dt.date.month, 2) + ("-" + (Pad(dt.date.day, 2) + tail))))
  {
    DateTextTail(dt, [], tail);
    assert Render([], dt) + tail == tail;
    assert DateLayout + [] == DateLayout;
  }

  /** Two datetimes on the same date are written alike by `%Y-%m-%d`. */
  lemma SameDateText(a: DateTime, b: DateTime)
    requires Valid(a) && Valid(b) && a.date == b.date
    ensures Format(a, DateLayout) == Format(b, DateLayout)
  {
    DateNested(a, []);
    DateNested(b, []);
    assert Format(a, DateLayout) + [] == Format(a, DateLayout);
    assert Format(b, DateLayout) + [] == Format(b, DateLayout);
  }

  /**
   * `change_timezone(dt.isoformat())` for a datetime Python can hold: the
   * `%Y-%m-%dT%H:%M:%S` text followed by the Detroit offset, 25 characters.
   */
  function Localized(dt: DateTime, zone: DateTime -> DetroitOffset): (r: String)
    requires Valid(dt)
    ensures |r| == 25
  {
    IsoLength(dt);
    DetroitOffsetTexts();
    Format(dt, IsoLayout) + OffsetText(zone(dt))
  }

  /** `Localized` is what `change_timezone` returns for the ISO text of the datetime. */
  lemma LocalizedChange(dt: DateTime, zone: DateTime -> DetroitOffset)
    requires Valid(dt)
    ensures ChangeTimezone(Format(dt, IsoLayout), zone) == Ok(Localized(dt, zone))
  {
    ChangeTimezoneIso(dt, zone);
  }

  /** `change_timezone(dt.isoformat()).split("T")[0]` is the date written `%Y-%m-%d`. */
  lemma LocalizedDate(dt: DateTime, zone: DateTime -> DetroitOffset)
    requires Valid(dt)
    ensures Split(Localized(dt, zone), "T")[0] == Format(dt, DateLayout)
  {
    var off := OffsetText(zone(dt));
    var rest := Pad(dt.time.hour, 2) + (":" + (Pad(dt.time.minute, 2) + (":" + (Pad(dt.time.second, 2) + off))));
    IsoTextTail(dt, off);
    DateNested(dt, "T" + rest);
    DateNested(dt, []);
    var a := Format(dt, DateLayout);
    assert a + [] == a;
    assert 'T' !in a by {
      forall i | 0 <= i < |a| ensures a[i] != 'T' {
        assert IsDigit(a[i]) || a[i] == '-';
      }
    }
    assert Localized(dt, zone) == a + "T" + rest;
    FindAfter(a, "T", rest);
  }

  /** What follows the date in a localised start: "T", the clock and the offset. */
  lemma LocalizedTail(dt: DateTime, zone: DateTime -> DetroitOffset)
    requires Valid(dt)
    ensures Localized(dt, zone)[10..] == "T" + (Pad(dt.time.hour, 2) + (":" + (Pad(dt.time.minute, 2) + (":" +
      (Pad(dt.time.second, 2) + OffsetText(zone(dt)))))))
  {
    var off := OffsetText(zone(dt));
    var y, m, d := Pad(dt.date.year, 4), Pad(dt.date.month, 2), Pad(dt.date.day, 2);
    var c := "T" + (Pad(dt.time.hour, 2) + (":" + (Pad(dt.time.minute, 2) + (":" + (Pad(dt.time.second, 2) + off)))));
    Pow10Values();
    PadRoundTrip(dt.date.year, 4);
    PadRoundTrip(dt.date.month, 2);
    PadRoundTrip(dt.date.day, 2);
    IsoTextTail(dt, off);
    var r := "-" + (m + ("-" + (d + c)));
    assert Localized(dt, zone) == y + r;
    Skip(y, r);
    Skip("-", m + ("-" + (d + c)));
    Skip(m, "-" + (d + c));
    Skip("-", d + c);
    Skip(d, c);
  }

  /** Dropping a prefix leaves what followed it. */
  lemma Skip(a: String, b: String)
    ensures (a + b)[|a|..] == b
  {
  }

  /** Two concatenations with equally long heads are equal exactly when heads and tails are. */
  lemma ConcatEqual(a: String, b: String, c: String, d: String)
    requires |a| == |c|
    ensures a + b == c + d <==> a == c && b == d
  {
    if a + b == c + d {
      assert a == (a + b)[..|a|] && c == (c + d)[..|c|];
      Skip(a, b);
      Skip(c, d);
    }
  }

  /** A two-digit field reads "00" exactly when it is zero. */
  lemma PadZero(n: nat)
    requires n < 100
    ensures |Pad(n, 2)| == 2 && (Pad(n, 2) == "00" <==> n == 0)
  {
    Pow10Values();
    PadRoundTrip(n, 2);
    assert Pad(0, 2) == "00";
  }

  /** "T00:00:00" and a tail, right-nested field by field. */
  lemma MidnightClock(off: String)
    ensures "T00:00:00" + off == "T" + ("00" + (":" + ("00" + (":" + ("00" + off)))))
  {
    var z := "T00:00:00";
    assert z == "T" + ("00" + (":" + ("00" + (":" + "00"))));
  }

  /** A clock text is midnight followed by `off` exactly when every field is zero. */
  lemma ClockZeros(h: nat, m: nat, s: nat, off: String)
    requires h < 100 && m < 100 && s < 100
    ensures "T" + (Pad(h, 2) + (":" + (Pad(m, 2) + (":" + (Pad(s, 2) + off))))) == "T00:00:00" + off
      <==> h == 0 && m == 0 && s == 0
  {
    PadZero(h);
    PadZero(m);
    PadZero(s);
    var u, u0 := Pad(s, 2) + off, "00" + off;
    var t, t0 := ":" + u, ":" + u0;
    var q, q0 := Pad(m, 2) + t, "00" + t0;
    var p, p0 := ":" + q, ":" + q0;
    var o, o0 := Pad(h, 2) + p, "00" + p0;
    ConcatEqual("T", o, "T", o0);
    ConcatEqual(Pad(h, 2), p, "00", p0);
    ConcatEqual(":", q, ":", q0);
    ConcatEqual(Pad(m, 2), t, "00", t0);
    ConcatEqual(":", u, ":", u0);
    ConcatEqual(Pad(s, 2), off, "00", off);
    MidnightClock(off);
  }

  /**
   * The all-day test on a localised start: it ends with midnight and one of the
   * two Detroit offsets exactly when the wall-clock time is midnight.
   */
  lemma LocalizedMidnight(dt: DateTime, zone: DateTime -> DetroitOffset)
    requires Valid(dt)
    ensures EndsWith(Localized(dt, zone), "T00:00:00-05:00") || EndsWith(Localized(dt, zone), "T00:00:00-04:00")
      <==> dt.time == Midnight
  {
    var off := OffsetText(zone(dt));
    DetroitOffsetTexts();
    LocalizedTail(dt, zone);
    ClockZeros(dt.time.hour, dt.time.minute, dt.time.second, off);
    var l := Localized(dt, zone);
    assert "T00:00:00-05:00" == "T00:00:00" + "-05:00" && "T00:00:00-04:00" == "T00:00:00" + "-04:00";
    assert EndsWith(l, "T00:00:00-05:00") <==> l[10..] == "T00:00:00-05:00";
    assert EndsWith(l, "T00:00:00-04:00") <==> l[10..] == "T00:00:00-04:00";
  }

  /** `strftime("%Y-%m-%dT00:00:00")` of a date is the ISO text of that date at midnight. */
  lemma MidnightIso(dt: DateTime)
    requires Valid(dt)
    ensures Format(dt, DateLayout) + "T00:00:00" == Format(DateTime(dt.date, Midnight), IsoLayout)
  {
    var m := DateTime(dt.date, Midnight);
    DateNested(dt, "T00:00:00");
    IsoTextTail(m, []);
    assert Format(m, IsoLayout) + [] == Format(m, IsoLayout);
    PadZero(0);
    MidnightClock([]);
    assert "T00:00:00" + [] == "T00:00:00";
  }
}

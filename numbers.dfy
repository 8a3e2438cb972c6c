/** Decimal rendering and parsing of integers: `str(n)`, `f"{n:02d}"` and `int(s)`. */
module Numbers {
  import opened Wrappers
  import opened Text

  function DigitChar(d: nat): (c: char)
    requires d < 10
    ensures IsDigit(c)
  {
    ('0' as int + d) as char
  }

  function DigitValue(c: char): (d: nat)
    requires IsDigit(c)
    ensures d < 10
  {
    c as int - '0' as int
  }

  /** `str(n)` for a natural number: no leading zeros. */
  function NatToString(n: nat): (r: String)
    ensures |r| >= 1 && AllDigits(r)
    ensures |r| > 1 ==> r[0] != '0'
    decreases n
  {
    if n < 10 then [DigitChar(n)] else NatToString(n / 10) + [DigitChar(n % 10)]
  }

  /** `str(i)` for any integer. */
  function IntToString(i: int): String
  {
    if i < 0 then "-" + NatToString(-i) else NatToString(i)
  }

  /** The value of a string of decimal digits (the empty string is 0). */
  function DigitsValue(s: String): nat
    requires AllDigits(s)
  {
    if s == [] then 0 else DigitsValue(s[..|s| - 1]) * 10 + DigitValue(s[|s| - 1])
  }

  function Pow10(k: nat): (p: nat)
    ensures p >= 1
  {
    if k == 0 then 1 else 10 * Pow10(k - 1)
  }

  /** Reading back a rendered number gives the number. */
  lemma {:induction false} NatToStringValue(n: nat)
    ensures DigitsValue(NatToString(n)) == n
    decreases n
  {
    if n >= 10 {
      NatToStringValue(n / 10);
      var s := NatToString(n);
      assert s[..|s| - 1] == NatToString(n / 10);
    }
  }

  /** A number below `10^k` renders in at most `k` digits (and always at least one). */
  lemma {:induction false} NatToStringLength(n: nat, k: nat)
    requires n < Pow10(k) && k >= 1
    ensures |NatToString(n)| <= k
    decreases n
  {
    if n >= 10 {
      assert k >= 2;
      NatToStringLength(n / 10, k - 1);
    }
  }

  /** A number of at least `10^k` renders in more than `k` digits. */
  lemma {:induction false} NatToStringLong(n: nat, k: nat)
    requires n >= Pow10(k)
    ensures |NatToString(n)| > k
    decreases n
  {
    if k > 0 {
      assert n >= 10;
      NatToStringLong(n / 10, k - 1);
    }
  }

  function Zeros(k: nat): (r: String)
    ensures |r| == k && AllDigits(r)
    ensures forall i :: 0 <= i < k ==> r[i] == '0'
  {
    seq(k, i => '0')
  }

  /** `f"{n:0{width}d}"`: zero-padded to at least `width` digits. */
  function Pad(n: nat, width: nat): (r: String)
    ensures AllDigits(r) && |r| >= width
  {
    var d := NatToString(n);
    if |d| >= width then d else Zeros(width - |d|) + d
  }

  lemma {:induction false} ZerosPrefixValue(k: nat, s: String)
    requires AllDigits(s)
    ensures DigitsValue(Zeros(k) + s) == DigitsValue(s)
    decreases |s|
  {
    if s == [] {
      ZerosValue(k);
      assert Zeros(k) + s == Zeros(k);
    } else {
      var t := Zeros(k) + s;
      assert t[..|t| - 1] == Zeros(k) + s[..|s| - 1];
      ZerosPrefixValue(k, s[..|s| - 1]);
    }
  }

  lemma {:induction false} ZerosValue(k: nat)
    ensures DigitsValue(Zeros(k)) == 0
  {
    if k > 0 {
      assert Zeros(k)[..k - 1] == Zeros(k - 1);
      ZerosValue(k - 1);
    }
  }

  /** Padding round-trips and, below `10^width`, has exactly `width` digits. */
  lemma PadRoundTrip(n: nat, width: nat)
    ensures DigitsValue(Pad(n, width)) == n
    ensures 1 <= width && n < Pow10(width) ==> |Pad(n, width)| == width
  {
    NatToStringValue(n);
    var d := NatToString(n);
    if |d| < width { ZerosPrefixValue(width - |d|, d); }
    if 1 <= width && n < Pow10(width) { NatToStringLength(n, width); }
  }

  /** Concrete values of the powers used for two- and four-digit fields. */
  lemma Pow10Values()
    ensures Pow10(2) == 100 && Pow10(4) == 10000
  {
  }

  /**
   * Python's `int(s)` on decimal text: surrounding whitespace, an optional sign,
   * then at least one digit. Anything else raises `ValueError`. Unlike Python,
   * an underscore between digits (`int("1_0")` is 10) is refused; the pager's
   * page numbers this reads never contain one.
   */
  function ParseInt(s: String): (r: Result<int>)
    ensures r.Ok? ==> |Strip(s)| >= 1
  {
    var t := Strip(s);
    if |t| > 0 && (t[0] == '-' || t[0] == '+') then
      var body := t[1..];
      if |body| > 0 && AllDigits(body) then
        Ok(if t[0] == '-' then -(DigitsValue(body) as int) else DigitsValue(body))
      else Err("invalid literal for int()")
    else if |t| > 0 && AllDigits(t) then Ok(DigitsValue(t))
    else Err("invalid literal for int()")
  }

  /** `int(str(n))` is `n`, for any integer. */
  lemma ParseIntRoundTrip(i: int)
    ensures ParseInt(IntToString(i)) == Ok(i)
  {
    var n: nat := if i < 0 then -i else i;
    var d := NatToString(n);
    NatToStringValue(n);
    if i < 0 {
      var s := IntToString(i);
      assert s[1..] == d;
      ParseNegative(s);
    } else {
      ParseDigits(d);
    }
  }

  lemma ParseDigits(d: String)
    requires |d| > 0 && AllDigits(d)
    ensures ParseInt(d) == Ok(DigitsValue(d))
  {
    assert !IsSpace(d[0]) && !IsSpace(d[|d| - 1]);
    StripNoEdgeSpace(d);
  }

  /** A `-` and digits, with no space around, reads as the negated digits. */
  lemma ParseNegative(s: String)
    requires |s| > 1 && s[0] == '-' && AllDigits(s[1..])
    ensures ParseInt(s) == Ok(-(DigitsValue(s[1..]) as int))
  {
    assert s[|s| - 1] == s[1..][|s| - 2];
    assert !IsSpace(s[0]) && !IsSpace(s[|s| - 1]);
    StripNoEdgeSpace(s);
  }
}

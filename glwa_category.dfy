/**
 * The Great Lakes Water Authority category scraper
 * (harambe_scrapers/extractor/det_great_lakes_water_authority/category.py): for
 * the year before the current one, the current one and the next, it enqueues
 * the authority's month page of every month, January to December, with the
 * month written in two digits.
 *
 * The current year, which the scraper reads from the clock, is a parameter.
 */
module GlwaCategory {
  import opened Wrappers
  import opened Text
  import opened Numbers
  import opened GlwaSdk
  import Localize

  const MonthBase: String := "https://www.glwater.org/events/month/"

  /** The month as the scraper writes it: "0" and the digit below 10, the number itself from 10 on. */
  function MonthText(month: nat): (r: String)
    ensures 1 <= month <= 12 ==> |r| == 2 && AllDigits(r) && DigitsValue(r) == month
  {
    if month < 10 then
      var r := "0" + NatToString(month);
      assert r[..1] == "0" && r[1] == DigitChar(month);
      assert DigitsValue(r[..1]) == 0 by { assert r[..1][..0] == []; }
      r
    else
      assert month >= 10 ==> NatToString(month) == NatToString(month / 10) + [DigitChar(month % 10)];
      NatToStringValue(month);
      NatToString(month)
  }

  /** The month page of `year`-`month`. */
  function MonthUrl(year: int, month: nat): String
  {
    MonthBase + (IntToString(year) + ("-" + (MonthText(month) + "/")))
  }

  /** The pages of the months 1 to `k` of one year, in order. */
  function YearUrls(year: int, k: nat): (r: seq<String>)
    ensures |r| == k
  {
    if k == 0 then [] else YearUrls(year, k - 1) + [MonthUrl(year, k)]
  }

  /** The pages of all twelve months of each year from `first` up to, not including, `last`. */
  function MonthUrls(first: int, last: int): (r: seq<String>)
    decreases last - first
  {
    if last <= first then [] else MonthUrls(first, last - 1) + YearUrls(last - 1, 12)
  }

  /** The inner loop: the twelve months of one year. */
  method EnqueueYear(sdk: AppendSdk, year: int)
    modifies sdk.urls
    ensures sdk.urls.items == old(sdk.urls.items) + YearUrls(year, 12)
  {
    for month := 1 to 13
      invariant sdk.urls.items == old(sdk.urls.items) + YearUrls(year, month - 1)
    {
      sdk.Enqueue(MonthUrl(year, month));
    }
  }

  /** One more year of months, as the outer loop adds it. */
  lemma YearsStep(saved: seq<String>, first: int, year: int)
    requires first <= year
    ensures saved + MonthUrls(first, year) + YearUrls(year, 12) == saved + MonthUrls(first, year + 1)
  {
    var before := MonthUrls(first, year);
    var months := YearUrls(year, 12);
    assert MonthUrls(first, year + 1) == before + months;
    Regroup(saved, before, months);
  }

  lemma Regroup(a: seq<String>, b: seq<String>, c: seq<String>)
    ensures a + b + c == a + (b + c)
  {
  }

  /** `scrape(sdk, ...)`: every month page of the previous, current and next year, in order. */
  method Scrape(sdk: AppendSdk, currentYear: int)
    modifies sdk.urls
    ensures sdk.urls.items == old(sdk.urls.items) + MonthUrls(currentYear - 1, currentYear + 2)
  {
    for year := currentYear - 1 to currentYear + 2
      invariant sdk.urls.items == old(sdk.urls.items) + MonthUrls(currentYear - 1, year)
    {
      EnqueueYear(sdk, year);
      YearsStep(old(sdk.urls.items), currentYear - 1, year);
    }
  }

  /** Month `m` of a year sits at index `m - 1` of that year's pages. */
  lemma {:induction false} YearUrlsAt(year: int, k: nat, m: nat)
    requires 1 <= m <= k
    ensures YearUrls(year, k)[m - 1] == MonthUrl(year, m)
  {
    var init := YearUrls(year, k - 1);
    assert YearUrls(year, k) == init + [MonthUrl(year, k)];
    if m < k {
      YearUrlsAt(year, k - 1, m);
      assert (init + [MonthUrl(year, k)])[m - 1] == init[m - 1];
    } else {
      assert m == k && (init + [MonthUrl(year, k)])[k - 1] == MonthUrl(year, k);
    }
  }

  /** Month `m` of year `y` sits at index `12 * (y - first) + m - 1`. */
  lemma {:induction false} MonthUrlsAt(first: int, last: int, y: int, m: nat)
    requires first <= y < last && 1 <= m <= 12
    ensures |MonthUrls(first, last)| == 12 * (last - first)
    ensures MonthUrls(first, last)[12 * (y - first) + m - 1] == MonthUrl(y, m)
    decreases last - first
  {
    var before := MonthUrls(first, last - 1);
    var months := YearUrls(last - 1, 12);
    assert MonthUrls(first, last) == before + months;
    MonthUrlsLength(first, last - 1);
    var i := 12 * (y - first) + m - 1;
    if y < last - 1 {
      MonthUrlsAt(first, last - 1, y, m);
      IndexFront(before, months, i);
    } else {
      YearUrlsAt(y, 12, m);
      assert i == |before| + (m - 1);
      IndexBack(before, months, m - 1);
    }
  }

  lemma IndexFront(a: seq<String>, b: seq<String>, i: nat)
    requires i < |a|
    ensures (a + b)[i] == a[i]
  {
  }

  lemma IndexBack(a: seq<String>, b: seq<String>, k: nat)
    requires k < |b|
    ensures (a + b)[|a| + k] == b[k]
  {
  }

  /** Twelve pages for each year of the range. */
  lemma {:induction false} MonthUrlsLength(first: int, last: int)
    ensures |MonthUrls(first, last)| == if last <= first then 0 else 12 * (last - first)
    decreases last - first
  {
    if last > first {
      MonthUrlsLength(first, last - 1);
    }
  }

  /** Different months, or different years, have different pages. */
  lemma MonthUrlInjective(y1: int, m1: nat, y2: int, m2: nat)
    requires 1 <= m1 <= 12 && 1 <= m2 <= 12
    requires MonthUrl(y1, m1) == MonthUrl(y2, m2)
    ensures y1 == y2 && m1 == m2
  {
    var t1 := "-" + (MonthText(m1) + "/");
    var t2 := "-" + (MonthText(m2) + "/");
    Localize.ConcatEqual(MonthBase, IntToString(y1) + t1, MonthBase, IntToString(y2) + t2);
    Localize.ConcatEqual(IntToString(y1), t1, IntToString(y2), t2);
    Localize.ConcatEqual("-", MonthText(m1) + "/", "-", MonthText(m2) + "/");
    Localize.ConcatEqual(MonthText(m1), "/", MonthText(m2), "/");
    ParseIntRoundTrip(y1);
    ParseIntRoundTrip(y2);
  }

  /** What one run enqueues: 36 pages, month `i % 12 + 1` of year `currentYear - 1 + i / 12` at index `i`. */
  lemma ThreeYears(currentYear: int)
    ensures var urls := MonthUrls(currentYear - 1, currentYear + 2);
      && |urls| == 36
      && forall i :: 0 <= i < |urls| ==> urls[i] == MonthUrl(currentYear - 1 + i / 12, i % 12 + 1)
  {
    MonthUrlsLength(currentYear - 1, currentYear + 2);
    forall i | 0 <= i < 36
      ensures MonthUrls(currentYear - 1, currentYear + 2)[i] == MonthUrl(currentYear - 1 + i / 12, i % 12 + 1)
    {
      ThreeYearsAt(currentYear, i);
    }
  }

  /** The page at index `i` of one run. */
  lemma ThreeYearsAt(currentYear: int, i: nat)
    requires i < 36
    ensures |MonthUrls(currentYear - 1, currentYear + 2)| == 36
    ensures MonthUrls(currentYear - 1, currentYear + 2)[i] == MonthUrl(currentYear - 1 + i / 12, i % 12 + 1)
  {
    MonthUrlsAt(currentYear - 1, currentYear + 2, currentYear - 1 + i / 12, i % 12 + 1);
  }

  /** Different months, or different years, have different pages. */
  lemma MonthUrlsDiffer(y1: int, m1: nat, y2: int, m2: nat)
    requires 1 <= m1 <= 12 && 1 <= m2 <= 12 && (y1 != y2 || m1 != m2)
    ensures MonthUrl(y1, m1) != MonthUrl(y2, m2)
  {
    if MonthUrl(y1, m1) == MonthUrl(y2, m2) {
      MonthUrlInjective(y1, m1, y2, m2);
    }
  }

  /** Two different indices differ in their twelve-month year or in their month. */
  lemma IndexMonths(i: nat, j: nat)
    requires i < j
    ensures i / 12 != j / 12 || i % 12 != j % 12
  {
    assert i == 12 * (i / 12) + i % 12 && j == 12 * (j / 12) + j % 12;
  }

  /** No month page is enqueued twice in one run. */
  lemma ThreeYearsDistinct(currentYear: int)
    ensures var urls := MonthUrls(currentYear - 1, currentYear + 2);
      forall i, j :: 0 <= i < j < |urls| ==> urls[i] != urls[j]
  {
    var urls := MonthUrls(currentYear - 1, currentYear + 2);
    MonthUrlsLength(currentYear - 1, currentYear + 2);
    forall i, j | 0 <= i < j < |urls|
      ensures urls[i] != urls[j]
    {
      PagesDiffer(currentYear, i, j);
    }
  }

  /** The pages at two different indices of one run differ. */
  lemma PagesDiffer(currentYear: int, i: nat, j: nat)
    requires i < j < 36
    ensures |MonthUrls(currentYear - 1, currentYear + 2)| == 36
    ensures MonthUrls(currentYear - 1, currentYear + 2)[i] != MonthUrls(currentYear - 1, currentYear + 2)[j]
  {
    var first := currentYear - 1;
    var a := MonthUrl(first + i / 12, i % 12 + 1);
    var b := MonthUrl(first + j / 12, j % 12 + 1);
    ThreeYearsAt(currentYear, i);
    ThreeYearsAt(currentYear, j);
    IndexMonths(i, j);
    MonthUrlsDiffer(first + i / 12, i % 12 + 1, first + j / 12, j % 12 + 1);
    DifferentAt(MonthUrls(first, currentYear + 2), i, j, a, b);
  }

  lemma DifferentAt(urls: seq<String>, i: nat, j: nat, a: String, b: String)
    requires i < |urls| && j < |urls| && urls[i] == a && urls[j] == b && a != b
    ensures urls[i] != urls[j]
  {
  }
}

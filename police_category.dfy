/**
 * The Detroit Police Department category scraper
 * (harambe_scrapers/det_police_department/category.py): it filters the city's
 * event calendar to the commissioners' category from January 1 of the previous
 * year, then enqueues every page of the result, "page=0" to the last page the
 * pager links to. When the pager cannot be read, the current page alone is enqueued.
 *
 * The browser steps are given as values: the category title, the last-page
 * link's href and the URL the browser is on; the current year is a parameter.
 */
module PoliceCategory {
  import opened Wrappers
  import opened Text
  import opened Numbers
  import opened Calendar
  import opened Strptime
  import opened Localize
  import opened PoliceSdk

  const EventLink: String := "https://detroitmi.gov/events?term_node_tid_depth_1=941"
  const FilterKey: String := "&field_start_value="
  const PageKey: String := "page="
  const FilterBase: String := EventLink + FilterKey

  /** The filtered calendar the scraper opens: events from January 1 of the year before `year`. */
  function FilterUrl(year: int): String
  {
    FilterBase + (IntToString(year - 1) + "-01-01")
  }

  /** A four-digit number is written with four digits, as `%Y` writes it. */
  lemma FourDigits(n: nat)
    requires 1000 <= n <= 9999
    ensures NatToString(n) == Pad(n, 4)
  {
    Pow10Values();
    NatToStringLength(n, 4);
    NatToStringLong(n, 3);
  }

  /**
   * For a previous year of four digits, the filter value is that year's
   * January 1 written `%Y-%m-%d`, and reads back as that date.
   */
  lemma FilterStartsPreviousYear(year: int)
    requires 1001 <= year <= 10000
    ensures var start := DateTime(Date(year - 1, 1, 1), Midnight);
      && Valid(start)
      && FilterUrl(year) == FilterBase + Format(start, DateLayout)
      && Parse(FilterUrl(year)[|FilterBase|..], DateLayout) == Ok(start)
  {
    var start := DateTime(Date(year - 1, 1, 1), Midnight);
    JanuaryFirstText(year - 1);
    JanuaryFirstReadsBack(year - 1);
    assert FilterUrl(year)[|FilterBase|..] == Format(start, DateLayout);
  }

  /** January 1 of a four-digit year written `%Y-%m-%d`. */
  lemma JanuaryFirstText(y: int)
    requires 1000 <= y <= 9999
    ensures Valid(DateTime(Date(y, 1, 1), Midnight))
    ensures Format(DateTime(Date(y, 1, 1), Midnight), DateLayout) == IntToString(y) + "-01-01"
  {
    var start := DateTime(Date(y, 1, 1), Midnight);
    FourDigits(y);
    DateNested(start, []);
    Pow10Values();
    PadRoundTrip(1, 2);
    assert Pad(1, 2) == "01";
    assert Format(start, DateLayout) + [] == Format(start, DateLayout);
  }

  /** January 1 written `%Y-%m-%d` reads back as itself. */
  lemma JanuaryFirstReadsBack(y: int)
    requires 1000 <= y <= 9999
    ensures var start := DateTime(Date(y, 1, 1), Midnight);
      Parse(Format(start, DateLayout), DateLayout) == Ok(start)
  {
    var start := DateTime(Date(y, 1, 1), Midnight);
    DateLayoutShape();
    FormatParse(start, DateLayout);
  }

  /** The option selected in the category drop-down: "-" and the stripped category title. */
  function OptionValue(title: String): (r: String)
    ensures |r| >= 1 && r[0] == '-' && r[1..] == Strip(title)
  {
    "-" + Strip(title)
  }

  /** Surrounding whitespace in the title never reaches the option value. */
  lemma OptionValueStripped(title: String)
    ensures OptionValue(Strip(title)) == OptionValue(title)
  {
    StripIdempotent(title);
  }

  /**
   * The pages to enqueue for the last-page href: the text before its first
   * "page=", then "page=" and each index from 0 to the number after its last
   * "page="; `None` when that number is not an integer (`int()` raises).
   */
  function PageUrls(href: String): (r: Option<seq<String>>)
    ensures var pieces := Split(href, PageKey);
      && (r.Some? <==> ParseInt(pieces[|pieces| - 1]).Ok?)
      && (r.Some? ==> var n := ParseInt(pieces[|pieces| - 1]).value; |r.value| == if n < 0 then 0 else n + 1)
  {
    var pieces := Split(href, PageKey);
    match ParseInt(pieces[|pieces| - 1])
    case Err(_) => None
    case Ok(n) =>
      Some(Pages(pieces[0], if n < 0 then 0 else n + 1))
  }

  /** `base + "page=" + str(index)` for each index below `count`, in order. */
  function Pages(base: String, count: nat): (r: seq<String>)
    ensures |r| == count
  {
    seq(count, i requires 0 <= i < count => base + PageKey + NatToString(i))
  }

  /** A page URL splits back at "page=" into its base and its index. */
  lemma PagesReadBack(base: String, count: nat, i: nat)
    requires !Contains(base, PageKey) && i < count
    ensures Split(Pages(base, count)[i], PageKey) == [base, NatToString(i)]
    ensures ParseInt(NatToString(i)) == Ok(i)
  {
    var d := NatToString(i);
    DigitsNoPageKey(d);
    FindPageKey(base, d);
    SplitWithout(d, PageKey);
    ParseIntRoundTrip(i);
  }

  /** "page=" is first found right after a text that does not contain it. */
  lemma FindPageKey(a: String, b: String)
    requires !Contains(a, PageKey)
    ensures Split(a + PageKey + b, PageKey) == [a] + Split(b, PageKey)
  {
    var s := a + PageKey + b;
    assert OccursAt(s, PageKey, |a|);
    forall j | 0 <= j < |a| ensures !OccursAt(s, PageKey, j) {
      if j + 5 <= |a| {
        assert s[j..j + 5] == a[j..j + 5];
        assert !OccursAt(a, PageKey, j);
      } else if j + 5 <= |s| {
        assert s[j..j + 5][|a| - j] == s[|a|] == 'p';
        assert PageKey[|a| - j] != 'p';
      }
    }
    assert Find(s, PageKey) == Some(|a|);
    assert s[..|a|] == a && s[|a| + 5..] == b;
  }

  /** A number's digits never contain "page=". */
  lemma DigitsNoPageKey(d: String)
    requires AllDigits(d)
    ensures !Contains(d, PageKey)
  {
    forall j | 0 <= j <= |d| - 5 ensures !OccursAt(d, PageKey, j) {
      assert d[j..j + 5][0] == d[j];
      assert IsDigit(d[j]);
    }
  }

  /**
   * Read back by the same rule, the `i`-th page URL keeps the href's text before
   * "page=" and names page `i`: it splits at "page=" into exactly that text and `str(i)`.
   */
  lemma PageUrlReadsBack(href: String, i: nat)
    requires PageUrls(href).Some? && i < |PageUrls(href).value|
    ensures var u := PageUrls(href).value[i];
      && Split(u, PageKey) == [Split(href, PageKey)[0], NatToString(i)]
      && ParseInt(Split(u, PageKey)[1]) == Ok(i)
  {
    var pieces := Split(href, PageKey);
    var n := ParseInt(pieces[|pieces| - 1]).value;
    SplitHead(href, PageKey);
    PagesReadBack(pieces[0], if n < 0 then 0 else n + 1, i);
  }

  /** The category page as the scraper reads it. */
  datatype CategoryPage = CategoryPage(title: Option<String>, lastPageHref: Option<String>, url: String)

  /** What the category SDK stores for a list of enqueued URLs, in order. */
  function Rewritten(urls: seq<String>): (r: seq<String>)
    ensures |r| == |urls|
  {
    if urls == [] then [] else Rewritten(urls[..|urls| - 1]) + [CategoryUrl(urls[|urls| - 1])]
  }

  /** Each stored URL is the rewrite of the URL enqueued at the same position. */
  lemma {:induction false} RewrittenAt(urls: seq<String>, i: nat)
    requires i < |urls|
    ensures Rewritten(urls)[i] == CategoryUrl(urls[i])
  {
    if i < |urls| - 1 {
      RewrittenAt(urls[..|urls| - 1], i);
    }
  }

  /** The pages the scraper enqueues: the pager's pages, or the current page when reading the pager raises. */
  function Enqueued(page: CategoryPage): (r: seq<String>)
    ensures page.lastPageHref.Some? && PageUrls(page.lastPageHref.value).Some? ==> r == PageUrls(page.lastPageHref.value).value
    ensures page.lastPageHref.None? || PageUrls(page.lastPageHref.value).None? ==> r == [page.url]
  {
    if page.lastPageHref.Some? && PageUrls(page.lastPageHref.value).Some? then PageUrls(page.lastPageHref.value).value
    else [page.url]
  }

  /**
   * `scrape(sdk, …)`: without a category title the scraper raises before
   * enqueueing anything; otherwise the pages, in increasing order, go through
   * the SDK, and a failure to read the pager enqueues the current page exactly once.
   */
  method Scrape(sdk: CategorySdk, page: CategoryPage) returns (error: Option<String>)
    modifies sdk.urls
    ensures page.title.None? ==> error.Some? && sdk.urls.items == old(sdk.urls.items)
    ensures page.title.Some? ==> error == None && sdk.urls.items == old(sdk.urls.items) + Rewritten(Enqueued(page))
  {
    if page.title.None? {
      return Some("'NoneType' object has no attribute 'inner_text'");
    }
    error := None;
    var urls := if page.lastPageHref.Some? then PageUrls(page.lastPageHref.value) else None;
    if urls.None? {
      sdk.Enqueue(page.url);
      assert [page.url][..0] == [];
      return;
    }
    var pieces := Split(page.lastPageHref.value, PageKey);
    EnqueuePages(sdk, pieces[0], |urls.value|);
  }

  /** The pagination loop: page URLs 0 to `count - 1` of `base`, enqueued in order. */
  method EnqueuePages(sdk: CategorySdk, base: String, count: nat)
    modifies sdk.urls
    ensures sdk.urls.items == old(sdk.urls.items) + Rewritten(Pages(base, count))
  {
    ghost var all := Pages(base, count);
    for index := 0 to count
      invariant sdk.urls.items == old(sdk.urls.items) + Rewritten(all[..index])
    {
      sdk.Enqueue(base + PageKey + NatToString(index));
      assert all[..index + 1][..index] == all[..index];
    }
    assert all[..count] == all;
  }
}

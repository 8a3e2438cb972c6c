/**
 * The stand-in SDKs the Detroit Police Department orchestrator hands to its
 * category, listing and detail scrapers (harambe_scrapers/det_police_department.py).
 *
 * The category and listing SDKs append to a list the orchestrator owns, so the
 * list is an object of its own (`UrlList`) that both hold; a URL a scraper
 * enqueues is rewritten to an absolute detroitmi.gov URL first. The detail SDK
 * keeps only the last record saved.
 */
module PoliceSdk {
  import opened Wrappers
  import opened Text

  const Site: String := "https://detroitmi.gov"
  const EventsQuery: String := "https://detroitmi.gov/events?"

  /** `f"https://detroitmi.gov{url}"` for a non-empty URL not starting with "http". */
  function Absolute(url: String): (r: String)
    ensures url != "" && !StartsWith(url, "http") ==> r == Site + url
    ensures url == "" || StartsWith(url, "http") ==> r == url
    ensures url != "" ==> StartsWith(r, "http")
  {
    if url != "" && !StartsWith(url, "http") then Site + url else url
  }

  /** Making a URL absolute twice is making it absolute once. */
  lemma AbsoluteIdempotent(url: String)
    ensures Absolute(Absolute(url)) == Absolute(url)
  {
  }

  /** The rewrite of `CategorySDK.enqueue`: absolute, then a query without "/events" moved under "/events?". */
  function CategoryUrl(url: String): (r: String)
  {
    var u := Absolute(url);
    if u != "" && Contains(u, "?") && !Contains(u, "/events") then
      CharContains(u, '?');
      SplitMany(u, "?");
      EventsQuery + Split(u, "?")[1]
    else u
  }

  /** `EventsQuery` itself mentions "/events". */
  lemma EventsQueryHasEvents(q: String)
    ensures Contains(EventsQuery + q, "/events")
  {
    assert OccursAt(EventsQuery + q, "/events", 21);
  }

  /**
   * What `CategorySDK.enqueue` stores: every non-empty URL comes out absolute; a
   * URL with a query and no "/events" becomes "/events?" followed by the text
   * between its first and second "?"; any other URL is only made absolute.
   */
  lemma CategoryUrlShape(url: String)
    ensures url != "" ==> StartsWith(CategoryUrl(url), "http")
    ensures var u := Absolute(url);
      u != "" && Contains(u, "?") && !Contains(u, "/events") ==>
        CategoryUrl(url) == EventsQuery + Split(u, "?")[1] && |Split(u, "?")| >= 2
    ensures var u := Absolute(url);
      !(u != "" && Contains(u, "?") && !Contains(u, "/events")) ==> CategoryUrl(url) == u
  {
    var u := Absolute(url);
    if u != "" && Contains(u, "?") && !Contains(u, "/events") {
      SplitMany(u, "?");
      assert StartsWith(EventsQuery + Split(u, "?")[1], "http");
    }
  }

  /** Enqueueing an already rewritten URL through the category SDK again changes nothing more. */
  lemma CategoryUrlIdempotent(url: String)
    ensures CategoryUrl(CategoryUrl(url)) == CategoryUrl(url)
  {
    var u := Absolute(url);
    CategoryUrlShape(url);
    if u != "" && Contains(u, "?") && !Contains(u, "/events") {
      var r := CategoryUrl(url);
      EventsQueryHasEvents(Split(u, "?")[1]);
      assert Absolute(r) == r;
    } else {
      AbsoluteIdempotent(url);
    }
  }

  /** A list shared between the orchestrator and the SDK that appends to it. */
  class UrlList {
    var items: seq<String>

    constructor()
      ensures items == []
    {
      items := [];
    }
  }

  /** `CategorySDK(page, urls_list)` */
  class CategorySdk {
    const urls: UrlList

    constructor(urls: UrlList)
      ensures this.urls == urls
    {
      this.urls := urls;
    }

    /** `enqueue(url)`: the rewritten URL goes at the end of the shared list. */
    method Enqueue(url: String)
      modifies urls
      ensures urls.items == old(urls.items) + [CategoryUrl(url)]
    {
      urls.items := urls.items + [CategoryUrl(url)];
    }
  }

  /** `ListingSDK(page, urls_list)` */
  class ListingSdk {
    const urls: UrlList

    constructor(urls: UrlList)
      ensures this.urls == urls
    {
      this.urls := urls;
    }

    /** `enqueue(url)`: the absolute URL goes at the end of the shared list. */
    method Enqueue(url: String)
      modifies urls
      ensures urls.items == old(urls.items) + [Absolute(url)]
    {
      urls.items := urls.items + [Absolute(url)];
    }
  }

  /** `DetailSDK(page)`: the record of the last `save_data`, `None` before any. */
  class DetailSdk<T> {
    var data: Option<T>

    constructor()
      ensures data == None
    {
      data := None;
    }

    /** `save_data(data)` replaces whatever was saved before. */
    method SaveData(d: T)
      modifies this
      ensures data == Some(d)
    {
      data := Some(d);
    }
  }
}

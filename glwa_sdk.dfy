/**
 * The stand-in SDKs of the Great Lakes Water Authority orchestrator
 * (harambe_scrapers/det_great_lakes_water_authority.py). Its category and
 * listing SDKs are the same class twice over: `enqueue` appends the URL, as
 * given, to a list the orchestrator owns, and `save_data` does nothing. The
 * detail SDK keeps only the last record saved.
 */
module GlwaSdk {
  import opened Wrappers
  import opened Text

  /** A list of URLs shared between the orchestrator and the SDK that appends to it. */
  class UrlList {
    var items: seq<String>

    constructor()
      ensures items == []
    {
      items := [];
    }
  }

  /** `CategorySDK(page, month_urls)` and `ListingSDK(page, event_urls)`, which behave alike. */
  class AppendSdk {
    const urls: UrlList

    constructor(urls: UrlList)
      ensures this.urls == urls
    {
      this.urls := urls;
    }

    /** `enqueue(url)`: the URL, unchanged, goes at the end of the shared list. */
    method Enqueue(url: String)
      modifies urls
      ensures urls.items == old(urls.items) + [url]
    {
      urls.items := urls.items + [url];
    }
  }

  /** `DetailSDK(page)`: the record of the last `save_data`, `None` before any. */
  class DetailSdk<T> {
    var data: Option<T>

    constructor()
      ensures data == None
    {
      data := None;
    }

    /** `save_data(data)` replaces whatever was saved before. */
    method SaveData(d: T)
      modifies this
      ensures data == Some(d)
    {
      data := Some(d);
    }
  }
}

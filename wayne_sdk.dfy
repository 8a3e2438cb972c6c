/**
 * The stand-in SDKs of the Wayne County Commission orchestrator
 * (harambe_scrapers/wayne_commission.py). The listing SDK appends each meeting
 * URL, with its context, to a list the orchestrator owns; the detail SDK keeps
 * only the last record saved.
 */
module WayneSdk {
  import opened Wrappers
  import opened Text

  /** A context dict of string values, such as `{"isCancelled": "True"}`. */
  type Context = map<String, String>

  /** `{"url": url, "context": context}` */
  datatype Entry = Entry(url: String, context: Context)

  /** The `detail_urls` list, shared between the orchestrator and the listing SDK. */
  class EntryList {
    var entries: seq<Entry>

    constructor()
      ensures entries == []
    {
      entries := [];
    }
  }

  /** `ListingSDK(page, detail_urls)` */
  class ListingSdk {
    const list: EntryList

    constructor(list: EntryList)
      ensures this.list == list
    {
      this.list := list;
    }

    /** `enqueue(url, context)`: the URL and the context (`{}` when none or empty) go at the end. */
    method Enqueue(url: String, context: Option<Context>)
      modifies list
      ensures list.entries == old(list.entries) + [Entry(url, context.GetOr(map[]))]
      ensures context.None? ==> list.entries[|list.entries| - 1].context == map[]
    {
      list.entries := list.entries + [Entry(url, context.GetOr(map[]))];
    }
  }

  /** `DetailSDK(page)`: the record of the last `save_data`, `None` before any. */
  class DetailSdk<T> {
    var data: Option<T>

    constructor()
      ensures data == None
    {
      data := None;
    }

    /** `save_data(data)` replaces whatever was saved before. */
    method SaveData(d: T)
      modifies this
      ensures data == Some(d)
    {
      data := Some(d);
    }
  }
}

/**
 * The Detroit Police Department orchestrator
 * (`DetroitPoliceOrchestrator` in harambe_scrapers/det_police_department.py).
 * It runs three stages with one browser page:
 *  - the category stage collects listing pages;
 *  - the listing stage collects event URLs and drops duplicates;
 *  - the detail stage reads each event page and saves one OCD event through
 *    the `DataCollector` observer.
 * The detail stage reads a page with the detail scraper first and with its own
 * fallback when that raises or saves nothing.
 *
 * The orchestrator imports its category and detail scrapers from
 * harambe_scrapers/extractor/det_police_department/, which holds only the
 * listing scraper here; the category and detail scrapers of
 * harambe_scrapers/det_police_department/ stand in for them. The listing
 * scraper (extractor/det_police_department/listing.py) enqueues the href of
 * every "h3 a" link of a listing page; the browser is given as the function
 * from a listing URL to those hrefs, empty when the links never appear.
 */
module PoliceDepartment {
  import opened Wrappers
  import opened Text
  import opened Calendar
  import opened Timezone
  import opened PoliceSdk
  import opened PoliceCategory
  import opened PoliceDetail
  import opened PoliceFallback
  import opened Observers
  import opened Stages

  const ScraperName: String := "det_police_department"

  // ---------------------------------------------------------------- the raw record

  /**
   * The dict a stage returns, as `transform_to_ocd_format` reads it: `None`
   * stands for a missing key. `classification` keeps an explicit `None` apart
   * from a missing key, because only a missing key takes the default.
   */
  datatype RawData = RawData(title: Option<String>, startTime: Option<String>, description: Option<String>,
                             classification: Option<Option<String>>, location: Option<Location>,
                             links: Option<seq<Link>>, endTime: Option<String>, isCancelled: Option<bool>,
                             allDay: Option<bool>)

  /** The meeting the detail scraper saves: every key is there. */
  function DetailRaw(m: Meeting): RawData
  {
    RawData(Some(m.title), Some(m.startTime), Some(m.description), Some(m.classification), m.location,
            Some(m.links), m.endTime, Some(m.isCancelled), m.allDay)
  }

  /** The fallback dict: no location, end or all-day key, and no classification key when nothing matched. */
  function FallbackRaw(d: FallbackData): RawData
  {
    RawData(Some(d.title), d.startTime, Some(d.description),
            if d.classification.Some? then Some(d.classification) else None,
            None, Some(d.links), None, Some(d.isCancelled), None)
  }

  /** The arguments `transform_to_ocd_format` hands to `create_ocd_event`. */
  datatype OcdEvent = OcdEvent(title: String, startTime: Option<String>, description: String,
                               classification: Option<String>, location: Option<Location>,
                               links: Option<seq<Link>>, endTime: Option<String>, isCancelled: bool,
                               sourceUrl: String, allDay: bool)

  /**
   * `transform_to_ocd_format(raw_data)`: a missing title, description,
   * classification or cancellation flag takes its default; a missing or `None`
   * all-day flag is false.
   */
  function Transform(raw: RawData, sourceUrl: String): (r: OcdEvent)
    ensures r.allDay <==> raw.allDay == Some(true)
    ensures r.classification == (if raw.classification.None? then Some("COMMITTEE") else raw.classification.value)
    ensures r.title == raw.title.GetOr(DefaultTitle) && r.sourceUrl == sourceUrl
  {
    OcdEvent(raw.title.GetOr(DefaultTitle), raw.startTime, raw.description.GetOr(""),
             if raw.classification.None? then Some("COMMITTEE") else raw.classification.value,
             raw.location, raw.links, raw.endTime, raw.isCancelled.GetOr(false), sourceUrl,
             raw.allDay.GetOr(false))
  }

  /**
   * An event from the detail scraper keeps the meeting as it was saved, an
   * unclassified meeting included, and is never all-day.
   */
  lemma DetailEvent(m: Meeting, sourceUrl: String)
    requires m.allDay == None
    ensures var e := Transform(DetailRaw(m), sourceUrl);
      && e.title == m.title && e.startTime == Some(m.startTime) && e.description == m.description
      && e.classification == m.classification && e.endTime == m.endTime && e.location == m.location
      && e.links == Some(m.links) && e.isCancelled == m.isCancelled && !e.allDay
  {
  }

  /** The detail scraper never sets the all-day flag, so its meetings are never all-day events. */
  lemma DetailNeverAllDay(page: DetailPage, zone: DateTime -> DetroitOffset, sourceUrl: String)
    requires Extract(page, zone).Ok?
    ensures !Transform(DetailRaw(Extract(page, zone).value), sourceUrl).allDay
  {
  }

  /**
   * An event from the fallback is always classified ("COMMITTEE" when no
   * keyword matched), has no location or end and is never all-day.
   */
  lemma FallbackEvent(d: FallbackData, sourceUrl: String)
    ensures var e := Transform(FallbackRaw(d), sourceUrl);
      && e.title == d.title && e.startTime == d.startTime && e.description == d.description
      && e.classification == Some(d.classification.GetOr("COMMITTEE"))
      && e.location == None && e.endTime == None && !e.allDay
      && e.links == Some(d.links) && e.isCancelled == d.isCancelled
  {
  }

  // ---------------------------------------------------------------- the stages as values

  /** What `ListingSDK` stores for the URLs a listing page enqueues. */
  function AbsoluteAll(hrefs: seq<String>): (r: seq<String>)
    ensures |r| == |hrefs|
  {
    if hrefs == [] then [] else AbsoluteAll(hrefs[..|hrefs| - 1]) + [Absolute(hrefs[|hrefs| - 1])]
  }

  /** Every event URL the listing stage collects, before deduplication, listing page after listing page. */
  function Listed(urls: seq<String>, listing: String -> seq<String>): seq<String>
  {
    if urls == [] then [] else Listed(urls[..|urls| - 1], listing) + AbsoluteAll(listing(urls[|urls| - 1]))
  }

  /** One more listing URL adds the absolute URLs of its page at the end. */
  lemma ListedStep(saved: seq<String>, urls: seq<String>, listing: String -> seq<String>, i: nat)
    requires i < |urls|
    ensures saved + Listed(urls[..i + 1], listing) == saved + Listed(urls[..i], listing) + AbsoluteAll(listing(urls[i]))
  {
    assert urls[..i + 1][..i] == urls[..i];
  }

  /** A listing page with no URLs adds nothing. */
  lemma ListedEmptyPage(urls: seq<String>, url: String, listing: String -> seq<String>)
    requires listing(url) == []
    ensures Listed(urls + [url], listing) == Listed(urls, listing)
  {
    assert (urls + [url])[..|urls|] == urls;
  }

  /** Every non-empty event URL the listing stage collects is absolute. */
  lemma {:induction false} ListedAbsolute(urls: seq<String>, listing: String -> seq<String>)
    ensures forall u :: u in Listed(urls, listing) && u != "" ==> StartsWith(u, "http")
  {
    if urls != [] {
      ListedAbsolute(urls[..|urls| - 1], listing);
      AbsoluteAllShape(listing(urls[|urls| - 1]));
    }
  }

  /** The listing SDK makes every non-empty href absolute. */
  lemma {:induction false} AbsoluteAllShape(hrefs: seq<String>)
    ensures forall u :: u in AbsoluteAll(hrefs) && u != "" ==> StartsWith(u, "http")
  {
    if hrefs != [] {
      AbsoluteAllShape(hrefs[..|hrefs| - 1]);
    }
  }

  /** One event page as both extractions see it. */
  datatype EventPage = EventPage(detail: DetailPage, fallback: FallbackPage)

  /** The record the detail stage returns: the saved meeting, else the fallback's dict. */
  function StageRaw(page: EventPage, now: String, zone: DateTime -> DetroitOffset): RawData
  {
    if Extract(page.detail, zone).Ok? then DetailRaw(Extract(page.detail, zone).value)
    else FallbackRaw(Fallback(page.fallback, now, zone))
  }

  /** The event saved for an event URL. */
  function EventOf(pageAt: String -> EventPage, now: String, zone: DateTime -> DetroitOffset): String -> OcdEvent
  {
    url => Transform(StageRaw(pageAt(url), now, zone), url)
  }

  /** The events saved for the event URLs, in order. */
  function Events(urls: seq<String>, eventOf: String -> OcdEvent): (r: seq<OcdEvent>)
    ensures |r| == |urls|
  {
    if urls == [] then [] else Events(urls[..|urls| - 1], eventOf) + [eventOf(urls[|urls| - 1])]
  }

  /** The `i`-th saved event is the one of the `i`-th event URL. */
  lemma {:induction false} EventsAt(urls: seq<String>, eventOf: String -> OcdEvent, i: nat)
    requires i < |urls|
    ensures Events(urls, eventOf)[i] == eventOf(urls[i])
  {
    if i < |urls| - 1 {
      EventsAt(urls[..|urls| - 1], eventOf, i);
    }
  }

  /**
   * Every event URL is saved exactly once: the saved events carry the event URLs
   * as their source URLs, in order, so deduplicated URLs give events with
   * distinct source URLs.
   */
  lemma EventSources(urls: seq<String>, pageAt: String -> EventPage, now: String, zone: DateTime -> DetroitOffset,
                      eventOf: String -> OcdEvent)
    requires Distinct(urls) && Gives(eventOf, pageAt, now, zone)
    ensures var es := Events(urls, eventOf);
      && (forall i :: 0 <= i < |urls| ==> es[i].sourceUrl == urls[i])
      && forall i, j :: 0 <= i < j < |es| ==> es[i].sourceUrl != es[j].sourceUrl
  {
    var es := Events(urls, eventOf);
    forall i | 0 <= i < |urls| ensures es[i].sourceUrl == urls[i] {
      EventsAt(urls, eventOf, i);
      assert eventOf(urls[i]) == Transform(StageRaw(pageAt(urls[i]), now, zone), urls[i]);
    }
  }


  /**
   * A page the detail scraper cannot read still gives an event: the fallback's
   * title, start and links, always classified, with no location or end.
   */
  lemma FallbackTakesOver(page: EventPage, now: String, zone: DateTime -> DetroitOffset, url: String)
    requires Extract(page.detail, zone).Err?
    ensures var d := Fallback(page.fallback, now, zone);
      var e := Transform(StageRaw(page, now, zone), url);
      && e.title == d.title && e.startTime == d.startTime && e.links == Some(d.links)
      && e.classification.Some? && e.location == None && e.endTime == None
  {
    var d := Fallback(page.fallback, now, zone);
    assert StageRaw(page, now, zone) == FallbackRaw(d);
    FallbackEvent(d, url);
  }

  /** One more event URL adds its event at the end. */
  lemma EventsNext(urls: seq<String>, eventOf: String -> OcdEvent, i: nat)
    requires i < |urls|
    ensures Events(urls[..i + 1], eventOf) == Events(urls[..i], eventOf) + [eventOf(urls[i])]
  {
    assert urls[..i + 1][..i] == urls[..i];
  }


  /**
   * `eventOf` gives, for every URL, the event of the record the detail stage
   * returns for its page. The trigger is the stage's record, so the fact is
   * used exactly where that record is computed.
   */
  ghost predicate Gives(eventOf: String -> OcdEvent, pageAt: String -> EventPage, now: String,
                        zone: DateTime -> DetroitOffset)
  {
    forall u {:trigger StageRaw(pageAt(u), now, zone)} :: eventOf(u) == Transform(StageRaw(pageAt(u), now, zone), u)
  }

  /** `EventOf` is such a function, and the only one: any two agree on every URL. */
  lemma EventOfGives(pageAt: String -> EventPage, now: String, zone: DateTime -> DetroitOffset, eventOf: String -> OcdEvent)
    ensures Gives(EventOf(pageAt, now, zone), pageAt, now, zone)
    ensures Gives(eventOf, pageAt, now, zone) ==> forall u :: eventOf(u) == EventOf(pageAt, now, zone)(u)
  {
    if Gives(eventOf, pageAt, now, zone) {
      forall u ensures eventOf(u) == EventOf(pageAt, now, zone)(u) {
        assert eventOf(u) == Transform(StageRaw(pageAt(u), now, zone), u);
      }
    }
  }

  // ---------------------------------------------------------------- the orchestrator

  /** The listing scraper's `fetch_links`: every href goes through the SDK, in order. */
  method EnqueueListed(sdk: ListingSdk, hrefs: seq<String>)
    modifies sdk.urls
    ensures sdk.urls.items == old(sdk.urls.items) + AbsoluteAll(hrefs)
  {
    for k := 0 to |hrefs|
      invariant sdk.urls.items == old(sdk.urls.items) + AbsoluteAll(hrefs[..k])
    {
      sdk.Enqueue(hrefs[k]);
      assert hrefs[..k + 1][..k] == hrefs[..k];
    }
    assert hrefs[..|hrefs|] == hrefs;
  }

  class Orchestrator {
    const listingUrls: UrlList
    const eventUrls: UrlList
    var failedUrls: seq<(String, String)>
    var currentUrl: Option<String>
    const observer: DataCollector<OcdEvent>

    /** The listing and event lists are two different lists. */
    predicate Valid()
      reads this
    {
      listingUrls != eventUrls
    }

    /** `DetroitPoliceOrchestrator()`; `container` is the observer's blob container, `null` without credentials. */
    constructor(container: BlobContainer?)
      ensures Valid() && fresh(listingUrls) && fresh(eventUrls) && fresh(observer)
      ensures listingUrls.items == [] && eventUrls.items == [] && failedUrls == [] && currentUrl == None
      ensures observer.data == [] && observer.scraperName == ScraperName && observer.container == container
    {
      listingUrls := new UrlList();
      eventUrls := new UrlList();
      failedUrls := [];
      currentUrl := None;
      observer := new DataCollector(ScraperName, container);
    }

    /** `run_category_stage`: the category scraper fills the listing list; its exception is raised again. */
    method RunCategoryStage(page: CategoryPage) returns (error: Option<String>)
      modifies listingUrls
      ensures page.title.None? ==> error.Some? && listingUrls.items == old(listingUrls.items)
      ensures page.title.Some? ==> error == None && listingUrls.items == old(listingUrls.items) + Rewritten(Enqueued(page))
    {
      var sdk := new CategorySdk(listingUrls);
      error := PoliceCategory.Scrape(sdk, page);
    }

    /**
     * `run_listing_stage`: each listing page's URLs go to the event list (a page
     * that raises keeps what it enqueued before), then duplicates are dropped.
     */
    method RunListingStage(listing: String -> seq<String>)
      requires Valid()
      modifies eventUrls
      ensures Distinct(eventUrls.items)
      ensures forall u :: u in eventUrls.items <==> u in old(eventUrls.items) + Listed(listingUrls.items, listing)
    {
      EnqueueAll(listingUrls.items, listing);
      var unique := Dedup(eventUrls.items);
      eventUrls.items := unique;
    }

    /** The loop of `RunListingStage`: one listing SDK per listing URL, all sharing the event list. */
    method EnqueueAll(urls: seq<String>, listing: String -> seq<String>)
      modifies eventUrls
      ensures eventUrls.items == old(eventUrls.items) + Listed(urls, listing)
    {
      for i := 0 to |urls|
        invariant eventUrls.items == old(eventUrls.items) + Listed(urls[..i], listing)
      {
        var sdk := new ListingSdk(eventUrls);
        EnqueueListed(sdk, listing(urls[i]));
        ListedStep(old(eventUrls.items), urls, listing, i);
      }
      assert urls[..|urls|] == urls;
    }

    /**
     * `run_detail_stage`: the detail scraper's meeting when it saves one, else the
     * fallback's dict. The fallback never raises, so no URL is recorded as failed.
     */
    method RunDetailStage(page: EventPage, now: String, zone: DateTime -> DetroitOffset) returns (raw: RawData)
      ensures raw == StageRaw(page, now, zone)
    {
      var sdk := new DetailSdk<Meeting>();
      var error := PoliceDetail.Scrape(sdk, page.detail, zone);
      if error.None? && sdk.data.Some? {
        return DetailRaw(sdk.data.value);
      }
      var data := FallbackExtraction(page.fallback, now, zone);
      raw := FallbackRaw(data);
    }

    /**
     * One turn of the detail loop: the event of `url` goes to the observer, whose
     * upload falls in the minute the clock shows for it.
     */
    method SaveEvent(url: String, pageAt: String -> EventPage, now: String, clock: nat -> DateTime,
                     zone: DateTime -> DetroitOffset, dumps: OcdEvent -> String, ghost eventOf: String -> OcdEvent)
      requires ValidClock(clock) && Gives(eventOf, pageAt, now, zone)
      modifies this, observer, observer.container
      ensures observer.data == old(observer.data) + [eventOf(url)]
      ensures observer.container != null ==>
        observer.container.blobs ==
          Uploads(old(observer.container.blobs), [eventOf(url)], |old(observer.data)|, UploadPaths(clock, observer.scraperName), dumps)
      ensures currentUrl == Some(url) && failedUrls == old(failedUrls)
    {
      currentUrl := Some(url);
      var raw := RunDetailStage(pageAt(url), now, zone);
      var event := Transform(raw, currentUrl.value);
      observer.OnSaveData(event, clock, dumps);
    }

    /**
     * `run`: the three stages. A failing category stage ends the run; otherwise
     * every event URL, after deduplication, gives one saved event whose source
     * URL is that URL, uploaded to the blob of the minute the clock shows for it.
     * `now` is the text of the current time the fallback uses; `eventOf` gives
     * each URL the event of its page (`EventOf` is that function).
     */
    method Run(categoryPage: CategoryPage, listing: String -> seq<String>, pageAt: String -> EventPage,
               now: String, clock: nat -> DateTime, zone: DateTime -> DetroitOffset, dumps: OcdEvent -> String,
               ghost eventOf: String -> OcdEvent)
      returns (error: Option<String>)
      requires Valid() && ValidClock(clock) && Gives(eventOf, pageAt, now, zone)
      modifies this, listingUrls, eventUrls, observer, observer.container
      ensures error.Some? <==> categoryPage.title.None?
      ensures error.Some? ==> observer.data == old(observer.data) && eventUrls.items == old(eventUrls.items)
      ensures error.Some? ==> listingUrls.items == old(listingUrls.items)
      ensures error.Some? && observer.container != null ==> observer.container.blobs == old(observer.container.blobs)
      ensures error.None? ==> listingUrls.items == old(listingUrls.items) + Rewritten(Enqueued(categoryPage))
      ensures error.None? ==> Distinct(eventUrls.items)
      ensures error.None? ==>
        forall u :: u in eventUrls.items <==> u in old(eventUrls.items) + Listed(listingUrls.items, listing)
      ensures error.None? ==>
        observer.data == old(observer.data) + Events(eventUrls.items, eventOf)
      ensures error.None? && observer.container != null ==>
        observer.container.blobs ==
          Uploads(old(observer.container.blobs), Events(eventUrls.items, eventOf),
                  |old(observer.data)|, UploadPaths(clock, observer.scraperName), dumps)
      ensures failedUrls == old(failedUrls)
    {
      error := RunCategoryStage(categoryPage);
      if error.Some? {
        return;
      }
      RunListingStage(listing);
      DetailStage(pageAt, now, clock, zone, dumps, eventOf);
    }

    /**
     * The detail loop of `run`: each event URL, in order, gives one saved event,
     * uploaded to the blob of the minute the clock shows for it.
     */
    method DetailStage(pageAt: String -> EventPage, now: String, clock: nat -> DateTime,
                       zone: DateTime -> DetroitOffset, dumps: OcdEvent -> String, ghost eventOf: String -> OcdEvent)
      requires ValidClock(clock) && Gives(eventOf, pageAt, now, zone)
      modifies this, observer, observer.container
      ensures observer.data == old(observer.data) + Events(eventUrls.items, eventOf)
      ensures observer.container != null ==>
        observer.container.blobs ==
          Uploads(old(observer.container.blobs), Events(eventUrls.items, eventOf), |old(observer.data)|,
                  UploadPaths(clock, observer.scraperName), dumps)
      ensures failedUrls == old(failedUrls)
    {
      var urls := eventUrls.items;
      SaveEvents(urls, pageAt, now, clock, zone, dumps, eventOf);
      assert eventUrls.items == urls;
    }

    /** The loop of `DetailStage`, over the event URLs it starts with. */
    method SaveEvents(urls: seq<String>, pageAt: String -> EventPage, now: String, clock: nat -> DateTime,
                      zone: DateTime -> DetroitOffset, dumps: OcdEvent -> String, ghost eventOf: String -> OcdEvent)
      requires ValidClock(clock) && Gives(eventOf, pageAt, now, zone)
      modifies this, observer, observer.container
      ensures observer.data == old(observer.data) + Events(urls, eventOf)
      ensures observer.container != null ==>
        observer.container.blobs ==
          Uploads(old(observer.container.blobs), Events(urls, eventOf), |old(observer.data)|,
                  UploadPaths(clock, observer.scraperName), dumps)
      ensures failedUrls == old(failedUrls)
    {
      ghost var start := |observer.data|;
      for i := 0 to |urls|
        invariant failedUrls == old(failedUrls)
        invariant observer.data == old(observer.data) + Events(urls[..i], eventOf)
        invariant observer.container != null ==>
          observer.container.blobs ==
            Uploads(old(observer.container.blobs), Events(urls[..i], eventOf), start, UploadPaths(clock, observer.scraperName), dumps)
      {
        ghost var done := Events(urls[..i], eventOf);
        ghost var blobs := if observer.container != null then observer.container.blobs else map[];
        ghost var saved := observer.data;
        SaveEvent(urls[i], pageAt, now, clock, zone, dumps, eventOf);
        EventsNext(urls, eventOf, i);
        assert old(observer.data) + done + [eventOf(urls[i])] == old(observer.data) + (done + [eventOf(urls[i])]);
        if observer.container != null {
          UploadsNext(old(observer.container.blobs), done, [eventOf(urls[i])], blobs, observer.container.blobs,
                      start, |saved|, UploadPaths(clock, observer.scraperName), dumps);
        }
      }
      assert urls[..|urls|] == urls;
    }
  }
}

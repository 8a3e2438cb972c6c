/**
 * The Great Lakes Water Authority orchestrator (`GLWAOrchestrator` in
 * harambe_scrapers/det_great_lakes_water_authority.py). It runs three stages:
 *  - the category stage enqueues one calendar URL per month of the years
 *    around the current one;
 *  - the listing stage reads each month page and collects its event URLs, then
 *    drops duplicates;
 *  - the detail stage reads each event page and saves one OCD event per page
 *    that yields a meeting with a start time, through the `DataCollector`
 *    observer.
 * The listing scraper (extractor/det_great_lakes_water_authority/listing.py) is
 * not part of this model: what a month page enqueues is given as the function
 * `listing`, and the browser as the function from an event URL to its page.
 */
module Glwa {
  import opened Wrappers
  import opened Text
  import opened Calendar
  import opened Timezone
  import opened GlwaSdk
  import opened GlwaDetail
  import GlwaCategory
  import opened Observers
  import opened Stages

  const ScraperName: String := "det_great_lakes_water_authority_v2"
  const DefaultTitle: String := "Great Lakes Water Authority Meeting"

  // ---------------------------------------------------------------- the event

  /** The arguments `transform_to_ocd_format` hands to `create_ocd_event`; `location == None` stands for `{}`. */
  datatype OcdEvent = OcdEvent(title: String, startTime: String, description: String,
                               classification: Option<String>, location: Option<Location>, links: seq<Link>,
                               endTime: Option<String>, isCancelled: bool, sourceUrl: String, allDay: bool)

  /** `raw_data and raw_data.get("start_time")`: the test `run` applies before saving. */
  predicate HasStart(m: Meeting)
  {
    m.startTime.Some? && m.startTime.value != ""
  }

  /**
   * `transform_to_ocd_format(raw_data)` for a meeting with a start: an empty
   * title takes the default, a missing description is empty, and an all-day
   * flag that is not set is false.
   */
  function Transform(m: Meeting, sourceUrl: String): (r: OcdEvent)
    requires m.startTime.Some?
    ensures r.title != "" && (m.title != "" ==> r.title == m.title)
    ensures r.description == m.description.GetOr("")
    ensures r.allDay <==> m.allDay == Some(true)
    ensures r.startTime == m.startTime.value && r.endTime == m.endTime && r.isCancelled == m.isCancelled
    ensures r.location == m.location && r.links == m.links && r.classification == m.classification
    ensures r.sourceUrl == sourceUrl
  {
    OcdEvent(if m.title == "" then DefaultTitle else m.title, m.startTime.value, m.description.GetOr(""),
             m.classification, m.location, m.links, m.endTime, m.isCancelled, sourceUrl, m.allDay.GetOr(false))
  }

  // ---------------------------------------------------------------- the stages as values

  /** Every event URL the listing stage collects, before deduplication, month page after month page. */
  function Listed(urls: seq<String>, listing: String -> seq<String>): (r: seq<String>)
  {
    if urls == [] then [] else Listed(urls[..|urls| - 1], listing) + listing(urls[|urls| - 1])
  }

  /** An event URL is collected exactly when some month page lists it. */
  lemma {:induction false} ListedFrom(urls: seq<String>, listing: String -> seq<String>, u: String)
    ensures u in Listed(urls, listing) <==> exists k :: 0 <= k < |urls| && u in listing(urls[k])
  {
    if urls != [] {
      var init := urls[..|urls| - 1];
      ListedFrom(init, listing, u);
      if u in Listed(urls, listing) && u !in Listed(init, listing) {
        assert u in listing(urls[|urls| - 1]);
      }
      if exists k :: 0 <= k < |urls| && u in listing(urls[k]) {
        var k :| 0 <= k < |urls| && u in listing(urls[k]);
        if k < |init| {
          assert init[k] == urls[k];
        }
      }
    }
  }

  /** What `run_detail_stage` returns: the meeting saved, `None` when the scraper raises. */
  function Saved(page: GlwaPage, url: String, zone: DateTime -> DetroitOffset): (r: Option<Meeting>)
    ensures r.Some? <==> Extract(page, url, zone).Ok?
    ensures r.Some? ==> r.value == Extract(page, url, zone).value
  {
    match Extract(page, url, zone)
    case Ok(m) => Some(m)
    case Err(_) => None
  }

  /** The event saved for an event URL, if any. */
  function EventOf(pageAt: String -> GlwaPage, zone: DateTime -> DetroitOffset): String -> Option<OcdEvent>
  {
    (url: String) => match Saved(pageAt(url), url, zone)
                     case Some(m) => if HasStart(m) then Some(Transform(m, url)) else None
                     case None => None
  }

  /** The event of an event URL, in terms of what its detail stage returns. */
  lemma EventOfSaved(pageAt: String -> GlwaPage, zone: DateTime -> DetroitOffset, url: String, raw: Option<Meeting>)
    requires raw == Saved(pageAt(url), url, zone)
    ensures EventOf(pageAt, zone)(url) == if raw.Some? && HasStart(raw.value) then Some(Transform(raw.value, url)) else None
  {
  }

  /**
   * The start-time test of `run` never skips a meeting the detail scraper
   * saved: an event URL gives an event exactly when its page reads.
   */
  lemma NeverSkipped(pageAt: String -> GlwaPage, zone: DateTime -> DetroitOffset, url: String)
    ensures EventOf(pageAt, zone)(url).Some? <==> Extract(pageAt(url), url, zone).Ok?
  {
    if Extract(pageAt(url), url, zone).Ok? {
      StartAlwaysSet(pageAt(url), url, zone);
    }
  }

  /**
   * The event of an event URL: its source URL is that URL, it is never an
   * all-day event, and it is cancelled exactly when its title mentions a
   * cancellation in any case.
   */
  lemma EventFields(pageAt: String -> GlwaPage, zone: DateTime -> DetroitOffset, url: String)
    requires EventOf(pageAt, zone)(url).Some?
    ensures var ev := EventOf(pageAt, zone)(url).value;
      var page := pageAt(url);
      && ev.sourceUrl == url && !ev.allDay
      && page.title.Some? && ev.isCancelled == Cancelled(page.title.value)
      && page.description.Some? && ev.description == page.description.value
  {
  }

  // ---------------------------------------------------------------- the orchestrator

  /** A month page's event URLs go through the listing SDK, in order. */
  method EnqueueListed(sdk: AppendSdk, urls: seq<String>)
    modifies sdk.urls
    ensures sdk.urls.items == old(sdk.urls.items) + urls
  {
    for k := 0 to |urls|
      invariant sdk.urls.items == old(sdk.urls.items) + urls[..k]
    {
      sdk.Enqueue(urls[k]);
      assert urls[..k + 1] == urls[..k] + [urls[k]];
    }
    assert urls[..|urls|] == urls;
  }

  class Orchestrator {
    const monthUrls: UrlList
    const eventUrls: UrlList
    var currentUrl: Option<String>
    const observer: DataCollector<OcdEvent>

    /** The month and event lists are two different lists. */
    predicate Valid()
      reads this
    {
      monthUrls != eventUrls
    }

    /** `GLWAOrchestrator()`; `container` is the observer's blob container, `null` without credentials. */
    constructor(container: BlobContainer?)
      ensures Valid() && fresh(monthUrls) && fresh(eventUrls) && fresh(observer)
      ensures monthUrls.items == [] && eventUrls.items == [] && currentUrl == None
      ensures observer.data == [] && observer.scraperName == ScraperName && observer.container == container
    {
      monthUrls := new UrlList();
      eventUrls := new UrlList();
      currentUrl := None;
      observer := new DataCollector(ScraperName, container);
    }

    /** `run_category_stage`: the category scraper adds the month URLs of the years around `currentYear`. */
    method RunCategoryStage(currentYear: int)
      modifies monthUrls
      ensures monthUrls.items == old(monthUrls.items) + GlwaCategory.MonthUrls(currentYear - 1, currentYear + 2)
    {
      var sdk := new AppendSdk(monthUrls);
      GlwaCategory.Scrape(sdk, currentYear);
    }

    /**
     * `run_listing_stage`: each month page's URLs go to the event list (a page
     * that raises keeps what it enqueued before), then duplicates are dropped.
     */
    method RunListingStage(listing: String -> seq<String>)
      requires Valid()
      modifies eventUrls
      ensures Distinct(eventUrls.items)
      ensures forall u :: u in eventUrls.items <==> u in old(eventUrls.items) + Listed(monthUrls.items, listing)
    {
      var urls := monthUrls.items;
      for i := 0 to |urls|
        invariant monthUrls.items == urls
        invariant eventUrls.items == old(eventUrls.items) + Listed(urls[..i], listing)
      {
        var sdk := new AppendSdk(eventUrls);
        EnqueueListed(sdk, listing(urls[i]));
        assert urls[..i + 1][..i] == urls[..i];
      }
      assert urls[..|urls|] == urls;
      var unique := Dedup(eventUrls.items);
      eventUrls.items := unique;
    }

    /** `run_detail_stage`: the current URL is the event URL, and the meeting saved, if any, is returned. */
    method RunDetailStage(url: String, pageAt: String -> GlwaPage, zone: DateTime -> DetroitOffset)
      returns (raw: Option<Meeting>)
      modifies this
      ensures raw == Saved(pageAt(url), url, zone) && currentUrl == Some(url)
    {
      currentUrl := Some(url);
      var sdk := new DetailSdk<Meeting>();
      var error := GlwaDetail.Scrape(sdk, pageAt(url), url, zone);
      if error.Some? {
        return None;
      }
      raw := sdk.data;
    }

    /**
     * One turn of the detail loop: the event of `url`, if any, goes to the
     * observer, whose upload falls in the minute the clock shows for it.
     */
    method SaveEvent(url: String, pageAt: String -> GlwaPage, zone: DateTime -> DetroitOffset,
                     clock: nat -> DateTime, dumps: OcdEvent -> String)
      requires ValidClock(clock)
      modifies this, observer, observer.container
      ensures var ev := EventOf(pageAt, zone)(url);
        observer.data == old(observer.data) + if ev.Some? then [ev.value] else []
      ensures var ev := EventOf(pageAt, zone)(url);
        observer.container != null ==>
          observer.container.blobs ==
            Uploads(old(observer.container.blobs), if ev.Some? then [ev.value] else [],
                    |old(observer.data)|, UploadPaths(clock, observer.scraperName), dumps)
      ensures currentUrl == Some(url)
    {
      var raw := RunDetailStage(url, pageAt, zone);
      EventOfSaved(pageAt, zone, url, raw);
      SaveRaw(raw, clock, dumps);
    }

    /**
     * The test of `run` on what the detail stage returned: a meeting with a start
     * is transformed and saved, its upload in the minute the clock shows for it.
     */
    method SaveRaw(raw: Option<Meeting>, clock: nat -> DateTime, dumps: OcdEvent -> String)
      requires ValidClock(clock) && currentUrl.Some?
      modifies observer, observer.container
      ensures observer.data == old(observer.data) +
        if raw.Some? && HasStart(raw.value) then [Transform(raw.value, currentUrl.value)] else []
      ensures observer.container != null ==>
        observer.container.blobs ==
          Uploads(old(observer.container.blobs),
                  if raw.Some? && HasStart(raw.value) then [Transform(raw.value, currentUrl.value)] else [],
                  |old(observer.data)|, UploadPaths(clock, observer.scraperName), dumps)
    {
      if raw.Some? && HasStart(raw.value) {
        var event := Transform(raw.value, currentUrl.value);
        observer.OnSaveData(event, clock, dumps);
      }
    }

    /**
     * The detail loop of `run`: the event URLs, in order, each event uploaded to
     * the blob of the minute the clock shows for it.
     */
    method DetailStage(pageAt: String -> GlwaPage, zone: DateTime -> DetroitOffset, clock: nat -> DateTime,
                       dumps: OcdEvent -> String)
      requires ValidClock(clock)
      modifies this, observer, observer.container
      ensures observer.data == old(observer.data) + Kept(eventUrls.items, EventOf(pageAt, zone))
      ensures observer.container != null ==>
        observer.container.blobs ==
          Uploads(old(observer.container.blobs), Kept(eventUrls.items, EventOf(pageAt, zone)),
                  |old(observer.data)|, UploadPaths(clock, observer.scraperName), dumps)
    {
      var urls := eventUrls.items;
      ghost var eventOf := EventOf(pageAt, zone);
      ghost var start := |observer.data|;
      for i := 0 to |urls|
        invariant observer.data == old(observer.data) + Kept(urls[..i], eventOf)
        invariant observer.container != null ==>
          observer.container.blobs ==
            Uploads(old(observer.container.blobs), Kept(urls[..i], eventOf), start, UploadPaths(clock, observer.scraperName), dumps)
      {
        ghost var blobs := if observer.container != null then observer.container.blobs else map[];
        ghost var saved := observer.data;
        SaveEvent(urls[i], pageAt, zone, clock, dumps);
        KeptStep(old(observer.data), urls, eventOf, i);
        if observer.container != null {
          UploadsKept(urls, eventOf, i, old(observer.container.blobs), blobs, observer.container.blobs,
                      start, |saved|, UploadPaths(clock, observer.scraperName), dumps);
        }
      }
      assert urls[..|urls|] == urls;
    }

    /**
     * `run`: the three stages. The month URLs of the years around `currentYear`
     * are listed, the event URLs they give are deduplicated, and every event
     * URL whose page reads is saved once, in order, each upload going to the blob
     * of the minute the clock shows for it.
     */
    method Run(currentYear: int, listing: String -> seq<String>, pageAt: String -> GlwaPage,
               zone: DateTime -> DetroitOffset, clock: nat -> DateTime, dumps: OcdEvent -> String)
      requires Valid() && ValidClock(clock)
      modifies this, monthUrls, eventUrls, observer, observer.container
      ensures monthUrls.items == old(monthUrls.items) + GlwaCategory.MonthUrls(currentYear - 1, currentYear + 2)
      ensures Distinct(eventUrls.items)
      ensures forall u :: u in eventUrls.items <==> u in old(eventUrls.items) + Listed(monthUrls.items, listing)
      ensures observer.data == old(observer.data) + Kept(eventUrls.items, EventOf(pageAt, zone))
      ensures observer.container != null ==>
        observer.container.blobs ==
          Uploads(old(observer.container.blobs), Kept(eventUrls.items, EventOf(pageAt, zone)),
                  |old(observer.data)|, UploadPaths(clock, observer.scraperName), dumps)
    {
      RunCategoryStage(currentYear);
      RunListingStage(listing);
      DetailStage(pageAt, zone, clock, dumps);
    }
  }
}

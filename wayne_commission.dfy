/**
 * The Wayne County Commission orchestrator (`WayneCommissionOrchestrator` in
 * harambe_scrapers/wayne_commission.py). It runs two stages:
 *  - the listing stage asks the county calendar for the meetings of all the
 *    commission's bodies and collects one entry (URL and context) per meeting;
 *  - the detail stage reads each entry's page, at most `limit_meetings` of
 *    them when a limit is set, and saves one OCD event per meeting read
 *    through the `DataCollector` observer.
 * The browser is given as the function from a meeting URL to its page.
 */
module WayneCommission {
  import opened Wrappers
  import opened Text
  import opened Calendar
  import opened Timezone
  import opened WayneSdk
  import opened WayneDetail
  import WayneListing
  import opened Observers
  import opened Stages

  const ScraperName: String :=
    "wayne_health_human_services,wayne_economic_development,wayne_ethics_board," +
    "wayne_government_operations,wayne_ways_means,wayne_audit,wayne_public_services," +
    "wayne_building_authority,wayne_election_commission,wayne_public_safety,wayne_cow," +
    "wayne_local_emergency_planning,wayne_full_commission"

  const DefaultTitle: String := "Wayne County Commission Meeting"

  // ---------------------------------------------------------------- the event

  /** The arguments `transform_to_ocd_format` hands to `create_ocd_event`; `location == None` stands for `{}`. */
  datatype OcdEvent = OcdEvent(title: String, startTime: String, description: String,
                               classification: Option<String>, location: Option<Location>, links: seq<Link>,
                               endTime: Option<String>, isCancelled: Option<bool>, sourceUrl: String, allDay: bool)

  /**
   * `transform_to_ocd_format(raw_data)` for the meeting the detail scraper
   * saves: an empty title takes the default, and an all-day flag that is not
   * set is false. The meeting always carries an `is_cancelled` key, so its
   * value, `None` included, passes through and the `False` default never applies.
   */
  function Transform(m: Meeting, sourceUrl: String): (r: OcdEvent)
    ensures r.title != "" && (m.title != "" ==> r.title == m.title)
    ensures r.allDay <==> m.allDay == Some(true)
    ensures r.startTime == m.startTime && r.endTime == m.endTime && r.isCancelled == m.isCancelled
    ensures r.location == m.location && r.links == m.links && r.classification == m.classification
    ensures r.description == m.description && r.sourceUrl == sourceUrl
  {
    OcdEvent(if m.title == "" then DefaultTitle else m.title, m.startTime, m.description, m.classification,
             m.location, m.links, m.endTime, m.isCancelled, sourceUrl, m.allDay.GetOr(false))
  }

  // ---------------------------------------------------------------- the detail stage as values

  /** What `run_detail_stage` returns: the meeting saved, `None` when the scraper raises or saves nothing. */
  function Saved(page: WaynePage, context: Context, zone: DateTime -> DetroitOffset): (r: Option<Meeting>)
    ensures r.Some? <==> Extract(page, context, zone).Ok? && Extract(page, context, zone).value.Some?
    ensures r.Some? ==> r.value == Extract(page, context, zone).value.value
  {
    match Extract(page, context, zone)
    case Ok(m) => m
    case Err(_) => None
  }

  /** The event saved for an entry, if any. */
  function EventOf(pageAt: String -> WaynePage, zone: DateTime -> DetroitOffset): Entry -> Option<OcdEvent>
  {
    (e: Entry) => match Saved(pageAt(e.url), e.context, zone)
                  case Some(m) => Some(Transform(m, e.url))
                  case None => None
  }

  /** The event of an entry carries the entry's URL as its source URL. */
  lemma EventSource(pageAt: String -> WaynePage, zone: DateTime -> DetroitOffset, e: Entry)
    ensures EventOf(pageAt, zone)(e).Some? ==> EventOf(pageAt, zone)(e).value.sourceUrl == e.url
  {
  }

  /**
   * A saved meeting always has its 25-character start time, so the
   * `raw_data.get("start_time")` test of `run` never skips a saved meeting.
   */
  lemma StartAlwaysSet(page: WaynePage, context: Context, zone: DateTime -> DetroitOffset)
    requires Saved(page, context, zone).Some?
    ensures |Saved(page, context, zone).value.startTime| == 25
  {
    var p := PageParts(page).value.value;
    assert Sound(p);
  }

  /**
   * An event is an all-day event exactly when its meeting runs a full day or
   * more, and is cancelled exactly when its listing context says "True".
   */
  lemma EventFlags(page: WaynePage, context: Context, zone: DateTime -> DetroitOffset, url: String)
    requires Saved(page, context, zone).Some?
    ensures var p := PageParts(page).value.value;
      var ev := Transform(Saved(page, context, zone).value, url);
      && (ev.allDay <==> p.start.Some? && p.end.Some? && EpochSeconds(p.end.value) - EpochSeconds(p.start.value) >= 86400)
      && "isCancelled" in context
      && (ev.isCancelled == Some(true) <==> context["isCancelled"] == "True")
  {
    assert Sound(PageParts(page).value.value);
  }

  /**
   * Through both stages: a meeting the listing enqueues is saved as cancelled
   * exactly when the calendar's `IsCancelled` is anything but `false`.
   */
  lemma ListedCancel(r: WayneListing.ContentResponse, page: WaynePage, zone: DateTime -> DetroitOffset)
    requires WayneListing.EntryOf(r).Some?
    requires Saved(page, WayneListing.EntryOf(r).value.context, zone).Some?
    ensures var e := WayneListing.EntryOf(r).value;
      Saved(page, e.context, zone).value.isCancelled == Some(true) <==> r.isCancelled != WayneListing.Bool(false)
  {
    var e := WayneListing.EntryOf(r).value;
    EventFlags(page, e.context, zone, e.url);
  }

  // ---------------------------------------------------------------- the limit

  /**
   * `detail_urls[:limit_meetings]` when the limit is set and not zero, with
   * Python's slicing: a negative limit drops that many entries from the end.
   */
  function Limited(entries: seq<Entry>, limit: Option<int>): (r: seq<Entry>)
    ensures limit.None? || limit == Some(0) ==> r == entries
    ensures r <= entries
    ensures limit.Some? && limit.value > 0 ==> |r| == if limit.value < |entries| then limit.value else |entries|
    ensures limit.Some? && limit.value < 0 ==> |r| == if -limit.value < |entries| then |entries| + limit.value else 0
  {
    if limit.None? || limit.value == 0 then entries
    else if limit.value > 0 then (if limit.value < |entries| then entries[..limit.value] else entries)
    else if -limit.value < |entries| then entries[..|entries| + limit.value]
    else []
  }

  /** With a positive limit only the first entries are read, and none after them. */
  lemma LimitedFirst(entries: seq<Entry>, k: int, i: nat)
    requires 0 < k && i < |entries|
    ensures entries[i] in Limited(entries, Some(k)) <== i < k
    ensures i < |Limited(entries, Some(k))| <==> i < k
  {
    var r := Limited(entries, Some(k));
    if i < k {
      assert r[i] == entries[i];
    }
  }

  // ---------------------------------------------------------------- the orchestrator

  class Orchestrator {
    const limit: Option<int>
    const detailUrls: EntryList
    var currentUrl: Option<String>
    const observer: DataCollector<OcdEvent>

    /** `WayneCommissionOrchestrator(limit_meetings)`; `container` is the observer's blob container, `null` without credentials. */
    constructor(limit: Option<int>, container: BlobContainer?)
      ensures this.limit == limit && fresh(detailUrls) && fresh(observer)
      ensures detailUrls.entries == [] && currentUrl == None
      ensures observer.data == [] && observer.scraperName == ScraperName && observer.container == container
    {
      this.limit := limit;
      detailUrls := new EntryList();
      currentUrl := None;
      observer := new DataCollector(ScraperName, container);
    }

    /** `run_listing_stage`: the listing scraper fills the entry list; its exception is raised again. */
    method RunListingStage(api: WayneListing.Api, options: seq<WayneListing.FilterOption>, year: int, stamp: String)
      returns (error: Option<String>)
      modifies detailUrls, api
      ensures error.Some? <==> WayneListing.FilterIds(options).Err?
      ensures error.Some? ==> detailUrls.entries == old(detailUrls.entries)
      ensures error.None? ==> (detailUrls.entries == old(detailUrls.entries) +
        WayneListing.ListingEntries(api.calendar, api.content, WayneListing.FilterIds(options).value, year, stamp))
    {
      var sdk := new ListingSdk(detailUrls);
      error := WayneListing.Scrape(sdk, api, options, year, stamp);
    }

    /** `run_detail_stage`: the current URL is the entry's, and the meeting saved, if any, is returned. */
    method RunDetailStage(entry: Entry, pageAt: String -> WaynePage, zone: DateTime -> DetroitOffset)
      returns (raw: Option<Meeting>)
      modifies this
      ensures raw == Saved(pageAt(entry.url), entry.context, zone) && currentUrl == Some(entry.url)
    {
      currentUrl := Some(entry.url);
      var sdk := new DetailSdk<Meeting>();
      var error := WayneDetail.Scrape(sdk, pageAt(entry.url), entry.context, zone);
      if error.Some? {
        return None;
      }
      raw := sdk.data;
    }

    /**
     * One turn of the detail loop: the entry's event, if any, goes to the
     * observer, whose upload falls in the minute the clock shows for it.
     */
    method SaveEvent(entry: Entry, pageAt: String -> WaynePage, zone: DateTime -> DetroitOffset,
                     clock: nat -> DateTime, dumps: OcdEvent -> String)
      requires ValidClock(clock)
      modifies this, observer, observer.container
      ensures var ev := EventOf(pageAt, zone)(entry);
        observer.data == old(observer.data) + if ev.Some? then [ev.value] else []
      ensures var ev := EventOf(pageAt, zone)(entry);
        observer.container != null ==>
          observer.container.blobs ==
            Uploads(old(observer.container.blobs), if ev.Some? then [ev.value] else [],
                    |old(observer.data)|, UploadPaths(clock, observer.scraperName), dumps)
      ensures currentUrl == Some(entry.url)
    {
      var raw := RunDetailStage(entry, pageAt, zone);
      if raw.Some? {
        var event := Transform(raw.value, currentUrl.value);
        observer.OnSaveData(event, clock, dumps);
      }
    }

    /**
     * The detail loop of `run`: the entries within the limit, in order, each
     * event uploaded to the blob of the minute the clock shows for it.
     */
    method DetailStage(pageAt: String -> WaynePage, zone: DateTime -> DetroitOffset, clock: nat -> DateTime,
                       dumps: OcdEvent -> String)
      requires ValidClock(clock)
      modifies this, observer, observer.container
      ensures observer.data == old(observer.data) + Kept(Limited(detailUrls.entries, limit), EventOf(pageAt, zone))
      ensures observer.container != null ==>
        observer.container.blobs ==
          Uploads(old(observer.container.blobs), Kept(Limited(detailUrls.entries, limit), EventOf(pageAt, zone)),
                  |old(observer.data)|, UploadPaths(clock, observer.scraperName), dumps)
    {
      var entries := Limited(detailUrls.entries, limit);
      ghost var eventOf := EventOf(pageAt, zone);
      ghost var start := |observer.data|;
      for i := 0 to |entries|
        invariant observer.data == old(observer.data) + Kept(entries[..i], eventOf)
        invariant observer.container != null ==>
          observer.container.blobs ==
            Uploads(old(observer.container.blobs), Kept(entries[..i], eventOf), start, UploadPaths(clock, observer.scraperName), dumps)
      {
        ghost var blobs := if observer.container != null then observer.container.blobs else map[];
        ghost var saved := observer.data;
        SaveEvent(entries[i], pageAt, zone, clock, dumps);
        KeptStep(old(observer.data), entries, eventOf, i);
        if observer.container != null {
          UploadsKept(entries, eventOf, i, old(observer.container.blobs), blobs, observer.container.blobs,
                      start, |saved|, UploadPaths(clock, observer.scraperName), dumps);
        }
      }
      assert entries[..|entries|] == entries;
    }

    /**
     * `run`: the listing stage, then the detail stage. A failing listing stage
     * ends the run; otherwise every entry within the limit whose page gives a
     * meeting is saved once, in order, each upload going to the blob of the
     * minute the clock shows for it.
     */
    method Run(api: WayneListing.Api, options: seq<WayneListing.FilterOption>, year: int, stamp: String,
               pageAt: String -> WaynePage, zone: DateTime -> DetroitOffset, clock: nat -> DateTime,
               dumps: OcdEvent -> String)
      returns (error: Option<String>)
      requires ValidClock(clock)
      modifies this, detailUrls, api, observer, observer.container
      ensures error.Some? <==> WayneListing.FilterIds(options).Err?
      ensures error.Some? ==> observer.data == old(observer.data) && detailUrls.entries == old(detailUrls.entries)
      ensures error.Some? && observer.container != null ==> observer.container.blobs == old(observer.container.blobs)
      ensures error.None? ==> (detailUrls.entries == old(detailUrls.entries) +
        WayneListing.ListingEntries(api.calendar, api.content, WayneListing.FilterIds(options).value, year, stamp))
      ensures error.None? ==>
        observer.data == old(observer.data) + Kept(Limited(detailUrls.entries, limit), EventOf(pageAt, zone))
      ensures error.None? && observer.container != null ==>
        observer.container.blobs ==
          Uploads(old(observer.container.blobs), Kept(Limited(detailUrls.entries, limit), EventOf(pageAt, zone)),
                  |old(observer.data)|, UploadPaths(clock, observer.scraperName), dumps)
    {
      error := RunListingStage(api, options, year, stamp);
      if error.Some? {
        return;
      }
      DetailStage(pageAt, zone, clock, dumps);
    }
  }
}

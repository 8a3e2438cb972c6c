/**
 * The Wayne County Commission listing scraper
 * (harambe_scrapers/extractor/wayne_commission/listing.py). It collects the
 * calendar filter ids whose labels name one of the commission's bodies, asks
 * the county's calendar API for the items of the previous and the current
 * year, looks each item up, and enqueues the meeting page of every item the
 * lookup answers with a link, together with its cancellation flag.
 *
 * The browser gives the filter options; the two HTTP endpoints are functions
 * from request to response held by an `Api` object that records the requests
 * made. The current year and the formatted current time are parameters.
 */
module WayneListing {
  import opened Wrappers
  import opened Text
  import opened Numbers
  import opened WayneSdk

  const MissingLabel: String := "'NoneType' object has no attribute 'inner_text'"

  /** The bodies whose filter ids the scraper collects, in its order. */
  const Names: seq<String> := [
    "Ways & Means", "Audit", "Building Authority", "Committee of the Whole", "Full Commission",
    "Economic Development", "Government Operations", "Health and Human Services", "Public Safety",
    "Public Services", "Election Commission", "Local Emergency Planning", "Ethics Board"]

  // ---------------------------------------------------------------- filter ids

  /** A `.calendar-filter-list-item`: its label text (`None` without the label element) and its `data-filter-option-id`. */
  datatype FilterOption = FilterOption(text: Option<String>, id: Option<String>)

  /** The configured names, from the first `k`, that occur in the label text, in order. */
  function NamesIn(text: String, k: nat): (r: seq<String>)
    requires k <= |Names|
    ensures |r| <= k
    ensures forall n :: n in r ==> n in Names[..k] && Contains(text, n)
  {
    if k == 0 then []
    else NamesIn(text, k - 1) + if Contains(text, Names[k - 1]) then [Names[k - 1]] else []
  }

  /** A configured name occurring in the label is counted. */
  lemma {:induction false} NamesInHas(text: String, k: nat, j: nat)
    requires j < k <= |Names| && Contains(text, Names[j])
    ensures Names[j] in NamesIn(text, k)
  {
    if j < k - 1 {
      NamesInHas(text, k - 1, j);
    }
  }

  /** The ids one option contributes: its id once per configured name in its label. */
  function IdsOf(o: FilterOption): (r: seq<Option<String>>)
    requires o.text.Some?
    ensures forall i :: 0 <= i < |r| ==> r[i] == o.id
  {
    var n := |NamesIn(o.text.value, |Names|)|;
    seq(n, _ => o.id)
  }

  /** The ids the options contribute, in order; a missing label raises. */
  function FilterIds(options: seq<FilterOption>): (r: Result<seq<Option<String>>>)
    ensures r.Err? <==> exists k :: 0 <= k < |options| && options[k].text.None?
    ensures r.Err? ==> r.error == MissingLabel
  {
    if options == [] then Ok([])
    else
      var o := options[|options| - 1];
      var init := options[..|options| - 1];
      assert forall k :: 0 <= k < |init| ==> init[k] == options[k];
      match FilterIds(init)
      case Err(e) => Err(e)
      case Ok(ids) => if o.text.None? then Err(MissingLabel) else Ok(ids + IdsOf(o))
  }

  /** A label without any configured name contributes nothing. */
  lemma NoNameNoId(o: FilterOption)
    requires o.text.Some? && forall n :: n in Names ==> !Contains(o.text.value, n)
    ensures IdsOf(o) == []
  {
    NamesInNone(o.text.value, |Names|);
  }

  lemma {:induction false} NamesInNone(text: String, k: nat)
    requires k <= |Names| && forall n :: n in Names ==> !Contains(text, n)
    ensures NamesIn(text, k) == []
  {
    if k > 0 {
      NamesInNone(text, k - 1);
      assert Names[k - 1] in Names;
    }
  }

  /** A label naming two configured bodies contributes its id at least twice. */
  lemma RepeatedId(o: FilterOption, i: nat, j: nat)
    requires o.text.Some? && i < j < |Names| && Contains(o.text.value, Names[i]) && Contains(o.text.value, Names[j])
    ensures |IdsOf(o)| >= 2
  {
    var r := NamesIn(o.text.value, |Names|);
    NamesInHas(o.text.value, |Names|, i);
    NamesInHas(o.text.value, |Names|, j);
    assert Names[i] != Names[j] by {
      NamesDistinct(i, j);
    }
    var a :| 0 <= a < |r| && r[a] == Names[i];
    var b :| 0 <= b < |r| && r[b] == Names[j];
    assert a != b;
  }

  /** The configured names are all different. */
  lemma NamesDistinct(i: nat, j: nat)
    requires i < j < |Names|
    ensures Names[i] != Names[j]
  {
    // each name's length and first two letters, which no two names share
    var keys := [(12, 'W', 'a'), (5, 'A', 'u'), (18, 'B', 'u'), (22, 'C', 'o'), (15, 'F', 'u'), (20, 'E', 'c'), (21, 'G', 'o'),
                 (25, 'H', 'e'), (13, 'P', 'u'), (15, 'P', 'u'), (19, 'E', 'l'), (24, 'L', 'o'), (12, 'E', 't')];
    assert (|Names[i]|, Names[i][0], Names[i][1]) == keys[i];
    assert (|Names[j]|, Names[j][0], Names[j][1]) == keys[j];
  }

  /** The nested loop over options and configured names. */
  method CollectIds(options: seq<FilterOption>) returns (r: Result<seq<Option<String>>>)
    ensures r == FilterIds(options)
  {
    var ids: seq<Option<String>> := [];
    for i := 0 to |options|
      invariant FilterIds(options[..i]) == Ok(ids)
    {
      var o := options[i];
      assert options[..i + 1][..i] == options[..i];
      if o.text.None? {
        assert options[i].text.None?;
        return Err(MissingLabel);
      }
      var text := o.text.value;
      ghost var before := ids;
      for j := 0 to |Names|
        invariant ids == before + seq(|NamesIn(text, j)|, _ => o.id)
      {
        if Contains(text, Names[j]) {
          ids := ids + [o.id];
        }
      }
    }
    assert options[..|options|] == options;
    return Ok(ids);
  }

  // ---------------------------------------------------------------- the API

  /**
   * The body of the calendar request for one year: the ids, with `StartDate`
   * and `EndDate` the first and last day of the year.
   */
  datatype CalendarQuery = CalendarQuery(ids: seq<Option<String>>, year: int)

  /** A calendar item: its calendar, content and main content ids. */
  datatype Item = Item(calendarId: String, contentId: String, mainContentId: String)

  /** A lookup of one item's content at the formatted current time; `ContentUrl` renders it. */
  datatype ContentQuery = ContentQuery(item: Item, stamp: String)

  /** The calendar answer: its status and, for each group under "data", the group's "Items" (`[]` when absent). */
  datatype CalendarResponse = CalendarResponse(status: int, groups: seq<seq<Item>>)

  /** `IsCancelled` as the JSON holds it. */
  datatype JsonFlag = Absent | Null | Bool(b: bool) | OtherValue

  /** The content answer: its status, the "Link" (`None` when absent or null) and "IsCancelled". */
  datatype ContentResponse = ContentResponse(status: int, link: Option<String>, isCancelled: JsonFlag)

  /** The two endpoints, and the requests made to them in order. */
  class Api {
    const calendar: CalendarQuery -> CalendarResponse
    const content: ContentQuery -> ContentResponse
    var posts: seq<CalendarQuery>
    var gets: seq<ContentQuery>

    constructor(calendar: CalendarQuery -> CalendarResponse, content: ContentQuery -> ContentResponse)
      ensures this.calendar == calendar && this.content == content && posts == [] && gets == []
    {
      this.calendar := calendar;
      this.content := content;
      posts := [];
      gets := [];
    }

    /** The POST to the calendar endpoint. */
    method Post(q: CalendarQuery) returns (r: CalendarResponse)
      modifies this
      ensures r == calendar(q) && posts == old(posts) + [q] && gets == old(gets)
    {
      posts := posts + [q];
      r := calendar(q);
    }

    /** The GET of one item's content. */
    method Get(q: ContentQuery) returns (r: ContentResponse)
      modifies this
      ensures r == content(q) && gets == old(gets) + [q] && posts == old(posts)
    {
      gets := gets + [q];
      r := content(q);
    }
  }

  /** `"StartDate"`: January 1 of the query's year. */
  function StartDate(q: CalendarQuery): String
  {
    IntToString(q.year) + "-01-01"
  }

  /** `"EndDate"`: December 31 of the query's year. */
  function EndDate(q: CalendarQuery): String
  {
    IntToString(q.year) + "-12-31"
  }

  /** The lookup URL of an item at the formatted current time. */
  function ContentUrl(q: ContentQuery): String
  {
    "https://www.waynecountymi.gov/ocapi/get/contentinfo?calendarId=" + q.item.calendarId + "&contentId=" +
    q.item.contentId + "&language=en-US&currentDateTime=" + q.stamp + "&mainContentId=" + q.item.mainContentId
  }

  /** The context flag: "False" only when the API says exactly `false`; a missing, null or true flag gives "True". */
  function CancelText(f: JsonFlag): (r: String)
    ensures r == "False" <==> f == Bool(false)
    ensures r == "True" <==> f != Bool(false)
  {
    if f == Bool(false) then "False" else "True"
  }

  /** What an item's lookup enqueues: its link and context, for a 200 answer with a non-empty link. */
  function EntryOf(r: ContentResponse): (e: Option<Entry>)
    ensures e.Some? <==> r.status == 200 && r.link.Some? && r.link.value != ""
    ensures e.Some? ==> e.value.url == r.link.value && e.value.context == map["isCancelled" := CancelText(r.isCancelled)]
  {
    if r.status == 200 && r.link.Some? && r.link.value != "" then
      Some(Entry(r.link.value, map["isCancelled" := CancelText(r.isCancelled)]))
    else None
  }

  // ---------------------------------------------------------------- what a run requests and enqueues

  /** The lookup URLs of a group's items, in order. */
  function ItemLookups(items: seq<Item>, stamp: String): (r: seq<ContentQuery>)
  {
    if items == [] then [] else ItemLookups(items[..|items| - 1], stamp) + [ContentQuery(items[|items| - 1], stamp)]
  }

  /** The entries a group's items enqueue, in order. */
  function ItemEntries(content: ContentQuery -> ContentResponse, items: seq<Item>, stamp: String): (r: seq<Entry>)
    ensures |r| <= |items|
  {
    if items == [] then []
    else
      var e := EntryOf(content(ContentQuery(items[|items| - 1], stamp)));
      ItemEntries(content, items[..|items| - 1], stamp) + if e.Some? then [e.value] else []
  }

  /** The lookup URLs of all groups, group by group. */
  function GroupLookups(groups: seq<seq<Item>>, stamp: String): seq<ContentQuery>
  {
    if groups == [] then [] else GroupLookups(groups[..|groups| - 1], stamp) + ItemLookups(groups[|groups| - 1], stamp)
  }

  /** The entries of all groups, group by group. */
  function GroupEntries(content: ContentQuery -> ContentResponse, groups: seq<seq<Item>>, stamp: String): seq<Entry>
  {
    if groups == [] then []
    else GroupEntries(content, groups[..|groups| - 1], stamp) + ItemEntries(content, groups[|groups| - 1], stamp)
  }

  /** The lookups one year makes: none unless the calendar answers 200. */
  function YearLookups(calendar: CalendarQuery -> CalendarResponse, ids: seq<Option<String>>, year: int, stamp: String): seq<ContentQuery>
  {
    var r := calendar(CalendarQuery(ids, year));
    if r.status == 200 then GroupLookups(r.groups, stamp) else []
  }

  /** The entries one year enqueues. */
  function YearEntries(calendar: CalendarQuery -> CalendarResponse, content: ContentQuery -> ContentResponse,
                       ids: seq<Option<String>>, year: int, stamp: String): seq<Entry>
  {
    var r := calendar(CalendarQuery(ids, year));
    if r.status == 200 then GroupEntries(content, r.groups, stamp) else []
  }

  /** The queries of the years from `first` up to, not including, `last`, in order. */
  function YearsQueries(ids: seq<Option<String>>, first: int, last: int): (r: seq<CalendarQuery>)
    decreases last - first
  {
    if last <= first then [] else YearsQueries(ids, first, last - 1) + [CalendarQuery(ids, last - 1)]
  }

  /** The lookups of the years from `first` up to, not including, `last`, in order. */
  function YearsLookups(calendar: CalendarQuery -> CalendarResponse, ids: seq<Option<String>>, first: int, last: int, stamp: String): seq<ContentQuery>
    decreases last - first
  {
    if last <= first then []
    else YearsLookups(calendar, ids, first, last - 1, stamp) + YearLookups(calendar, ids, last - 1, stamp)
  }

  /** The entries of the years from `first` up to, not including, `last`, in order. */
  function YearsEntries(calendar: CalendarQuery -> CalendarResponse, content: ContentQuery -> ContentResponse,
                        ids: seq<Option<String>>, first: int, last: int, stamp: String): seq<Entry>
    decreases last - first
  {
    if last <= first then []
    else YearsEntries(calendar, content, ids, first, last - 1, stamp) + YearEntries(calendar, content, ids, last - 1, stamp)
  }

  /** The calendar queries of a run: `range(current_year - 1, current_year + 1)` when there are ids. */
  function Queries(ids: seq<Option<String>>, year: int): seq<CalendarQuery>
  {
    if ids == [] then [] else YearsQueries(ids, year - 1, year + 1)
  }

  /** The lookups of a run, both years in order. */
  function ListingLookups(calendar: CalendarQuery -> CalendarResponse, ids: seq<Option<String>>, year: int, stamp: String): seq<ContentQuery>
  {
    if ids == [] then [] else YearsLookups(calendar, ids, year - 1, year + 1, stamp)
  }

  /** The entries of a run, both years in order. */
  function ListingEntries(calendar: CalendarQuery -> CalendarResponse, content: ContentQuery -> ContentResponse,
                          ids: seq<Option<String>>, year: int, stamp: String): seq<Entry>
  {
    if ids == [] then [] else YearsEntries(calendar, content, ids, year - 1, year + 1, stamp)
  }

  /** The window the two queries cover: January 1 of the previous year to December 31 of the current one. */
  lemma TwoYearWindow(ids: seq<Option<String>>, year: int)
    requires ids != []
    ensures Queries(ids, year) == [CalendarQuery(ids, year - 1), CalendarQuery(ids, year)]
    ensures StartDate(Queries(ids, year)[0]) == IntToString(year - 1) + "-01-01"
    ensures EndDate(Queries(ids, year)[1]) == IntToString(year) + "-12-31"
  {
    assert YearsQueries(ids, year - 1, year) == [CalendarQuery(ids, year - 1)];
  }

  /** Without ids nothing is requested and nothing enqueued. */
  lemma NoIdsNoRequests(calendar: CalendarQuery -> CalendarResponse, content: ContentQuery -> ContentResponse, year: int, stamp: String)
    ensures Queries([], year) == [] && ListingLookups(calendar, [], year, stamp) == [] && ListingEntries(calendar, content, [], year, stamp) == []
  {
  }

  /** Every entry enqueued was answered with a non-empty link and carries a "True" or "False" flag. */
  lemma {:induction false} ItemEntriesShape(content: ContentQuery -> ContentResponse, items: seq<Item>, stamp: String)
    ensures forall e :: e in ItemEntries(content, items, stamp) ==>
      e.url != "" && "isCancelled" in e.context && e.context["isCancelled"] in {"True", "False"}
  {
    if items != [] {
      ItemEntriesShape(content, items[..|items| - 1], stamp);
    }
  }

  /** An item whose lookup answers 200 with a link is enqueued. */
  lemma {:induction false} ItemEntriesHas(content: ContentQuery -> ContentResponse, items: seq<Item>, stamp: String, k: nat)
    requires k < |items| && EntryOf(content(ContentQuery(items[k], stamp))).Some?
    ensures EntryOf(content(ContentQuery(items[k], stamp))).value in ItemEntries(content, items, stamp)
  {
    if k < |items| - 1 {
      assert items[..|items| - 1][k] == items[k];
      ItemEntriesHas(content, items[..|items| - 1], stamp, k);
    }
  }

  // ---------------------------------------------------------------- the loops

  /** The item loop of one group: one lookup per item, an entry for each answered link. */
  method ItemLoop(sdk: ListingSdk, api: Api, items: seq<Item>, stamp: String)
    modifies sdk.list, api
    ensures sdk.list.entries == old(sdk.list.entries) + ItemEntries(api.content, items, stamp)
    ensures api.gets == old(api.gets) + ItemLookups(items, stamp) && api.posts == old(api.posts)
  {
    for i := 0 to |items|
      invariant sdk.list.entries == old(sdk.list.entries) + ItemEntries(api.content, items[..i], stamp)
      invariant api.gets == old(api.gets) + ItemLookups(items[..i], stamp) && api.posts == old(api.posts)
    {
      assert items[..i + 1][..i] == items[..i];
      var url := ContentQuery(items[i], stamp);
      var response := api.Get(url);
      if response.status == 200 {
        var link := response.link;
        if link.Some? && link.value != "" {
          var cancelled := if response.isCancelled == Bool(false) then "False" else "True";
          sdk.Enqueue(link.value, Some(map["isCancelled" := cancelled]));
        }
      }
    }
    assert items[..|items|] == items;
  }

  /** The group loop of one year. */
  method GroupLoop(sdk: ListingSdk, api: Api, groups: seq<seq<Item>>, stamp: String)
    modifies sdk.list, api
    ensures sdk.list.entries == old(sdk.list.entries) + GroupEntries(api.content, groups, stamp)
    ensures api.gets == old(api.gets) + GroupLookups(groups, stamp) && api.posts == old(api.posts)
  {
    for g := 0 to |groups|
      invariant sdk.list.entries == old(sdk.list.entries) + GroupEntries(api.content, groups[..g], stamp)
      invariant api.gets == old(api.gets) + GroupLookups(groups[..g], stamp) && api.posts == old(api.posts)
    {
      assert groups[..g + 1][..g] == groups[..g];
      assert GroupEntries(api.content, groups[..g + 1], stamp)
          == GroupEntries(api.content, groups[..g], stamp) + ItemEntries(api.content, groups[g], stamp);
      assert GroupLookups(groups[..g + 1], stamp) == GroupLookups(groups[..g], stamp) + ItemLookups(groups[g], stamp);
      ItemLoop(sdk, api, groups[g], stamp);
    }
    assert groups[..|groups|] == groups;
  }

  /** One year: the calendar query, then its groups when it answers 200. */
  method YearStep(sdk: ListingSdk, api: Api, ids: seq<Option<String>>, year: int, stamp: String)
    modifies sdk.list, api
    ensures sdk.list.entries == old(sdk.list.entries) + YearEntries(api.calendar, api.content, ids, year, stamp)
    ensures api.gets == old(api.gets) + YearLookups(api.calendar, ids, year, stamp)
    ensures api.posts == old(api.posts) + [CalendarQuery(ids, year)]
  {
    var response := api.Post(CalendarQuery(ids, year));
    if response.status == 200 {
      GroupLoop(sdk, api, response.groups, stamp);
    }
  }

  /** One more year appends that year's requests and entries. */
  lemma YearsStep(calendar: CalendarQuery -> CalendarResponse, content: ContentQuery -> ContentResponse,
                  ids: seq<Option<String>>, first: int, year: int, stamp: String)
    requires first <= year
    ensures YearsQueries(ids, first, year + 1) == YearsQueries(ids, first, year) + [CalendarQuery(ids, year)]
    ensures YearsLookups(calendar, ids, first, year + 1, stamp) == YearsLookups(calendar, ids, first, year, stamp) + YearLookups(calendar, ids, year, stamp)
    ensures YearsEntries(calendar, content, ids, first, year + 1, stamp)
         == YearsEntries(calendar, content, ids, first, year, stamp) + YearEntries(calendar, content, ids, year, stamp)
  {
  }

  /** The year loop: one calendar query per year, in order. */
  method YearLoop(sdk: ListingSdk, api: Api, ids: seq<Option<String>>, first: int, last: int, stamp: String)
    requires first <= last
    modifies sdk.list, api
    ensures api.posts == old(api.posts) + YearsQueries(ids, first, last)
    ensures api.gets == old(api.gets) + YearsLookups(api.calendar, ids, first, last, stamp)
    ensures sdk.list.entries == old(sdk.list.entries) + YearsEntries(api.calendar, api.content, ids, first, last, stamp)
  {
    var calendar, content := api.calendar, api.content;
    for year := first to last
      invariant api.posts == old(api.posts) + YearsQueries(ids, first, year)
      invariant api.gets == old(api.gets) + YearsLookups(calendar, ids, first, year, stamp)
      invariant sdk.list.entries == old(sdk.list.entries) + YearsEntries(calendar, content, ids, first, year, stamp)
    {
      YearsStep(calendar, content, ids, first, year, stamp);
      YearStep(sdk, api, ids, year, stamp);
    }
  }

  /**
   * `scrape(sdk, …)`: the filter ids, then, when there are any, the previous
   * and the current year. A missing text raises before any request.
   */
  method Scrape(sdk: ListingSdk, api: Api, options: seq<FilterOption>, year: int, stamp: String)
    returns (error: Option<String>)
    modifies sdk.list, api
    ensures error.Some? <==> FilterIds(options).Err?
    ensures error.Some? ==> sdk.list.entries == old(sdk.list.entries) && api.posts == old(api.posts) && api.gets == old(api.gets)
    ensures error.None? ==> var ids := FilterIds(options).value;
      && api.posts == old(api.posts) + Queries(ids, year)
      && api.gets == old(api.gets) + ListingLookups(api.calendar, ids, year, stamp)
      && sdk.list.entries == old(sdk.list.entries) + ListingEntries(api.calendar, api.content, ids, year, stamp)
  {
    var ids := CollectIds(options);
    if ids.Err? {
      return Some(ids.error);
    }
    if ids.value != [] {
      YearLoop(sdk, api, ids.value, year - 1, year + 1, stamp);
    }
    return None;
  }
}

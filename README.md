# Detroit meeting scrapers, modelled in Dafny

City-Bureau's city-scrapers-det collects public-meeting records for Detroit-area agencies. There are two families of scrapers:

- **Scrapy spiders** (city_scrapers/spiders) and the two mixins they share (city_scrapers/mixins/det_authority.py, city_scrapers/mixins/det_retirement.py). They read agency pages and turn text into meetings: titles, classifications, start times, locations and document links.
- **harambe scrapers** (harambe_scrapers). They are browser-driven scrapers with a category, listing and detail stage. Orchestrators own the URL lists between the stages, and a `DataCollector` observer keeps every saved record and can append it to blob storage.

This project models the deterministic half of every scraper: the string, date and list logic that turns the extracted page text into meeting records. Pages are given as values, that is, the texts and attributes the selectors return. The orchestrators, SDK stand-ins and observer are classes whose fields the methods update.

The layout is one module per source file, plus shared base modules:

- `Text`: Python `str` operations on ASCII.
- `Numbers`: `str(n)`, `f"{n:02d}"` and `int(s)`.
- `Calendar`.
- `Strptime`: `strptime` and `strftime` for the directives used.
- `Regex`: the `re` patterns used.
- `Timezone` and `Localize`: `change_timezone`.
- `Keywords`: ordered first-match classifiers.
- `Stages`: deduplication and the detail loop.
- `Json`, `Items`, `Classification` and `Wrappers`.

Each operation comes with the property its source promises. Round trips are proved for formatting and parsing (schedules, clocks, ISO timestamps with offsets, slugs and blob paths). For classes, the invariants and "nothing else changes" are stated in each method's postcondition.

## Model

| member | source | states |
|---|---|---|
| Timezone.ChangeTimezone | harambe_scrapers/extractor/det_great_lakes_water_authority/detail.py:18-30 | the conversion succeeds exactly when the text reads as "%Y-%m-%dT%H:%M:%S", and then yields a 25-character timestamp with a colon in its offset |
| Timezone.ChangeTimezoneIso | harambe_scrapers/extractor/det_great_lakes_water_authority/detail.py:18-30 | localising keeps the date and time as written and only appends the Detroit offset in the "-05:00" form |
| Timezone.DetroitOffsetTexts | harambe_scrapers/extractor/det_great_lakes_water_authority/detail.py:27-29 | the two Detroit offsets are written "-05:00" and "-04:00" |
| Timezone.FromIsoFormatLocalised | harambe_scrapers/det_great_lakes_water_authority.py:121-142 | a localised timestamp reads back as the same wall-clock time and the same offset |
| Timezone.FromIsoFormatNaive | harambe_scrapers/det_great_lakes_water_authority.py:121-142 | a timestamp without an offset reads back as the same wall-clock time and no offset |
| Localize.Localized | harambe_scrapers/extractor/det_great_lakes_water_authority/detail.py:184-185 | a localised start or end is always 25 characters long |
| Localize.LocalizedChange | harambe_scrapers/extractor/det_great_lakes_water_authority/detail.py:184-185 | the localised text is exactly what the time-zone conversion returns for the ISO text of the datetime |
| Localize.LocalizedDate | harambe_scrapers/extractor/det_great_lakes_water_authority/detail.py:184-185 | the part of a localised timestamp before "T" is the date written "%Y-%m-%d" |
| Localize.LocalizedMidnight | harambe_scrapers/mi_belle_isle.py:239-241 | a localised start ends in midnight and a Detroit offset exactly when its wall-clock time is midnight |
| Keywords.FirstMatch | harambe_scrapers/extractor/det_great_lakes_water_authority/detail.py:90-99 | no value exactly when no keyword occurs in any text; otherwise the value of a rule whose keyword occurs, all earlier keywords missing |
| Keywords.FirstMatchAt | harambe_scrapers/extractor/det_great_lakes_water_authority/detail.py:90-99 | a keyword that occurs decides the classification when every earlier keyword is absent |
| Keywords.FirstMatchNever | harambe_scrapers/extractor/det_great_lakes_water_authority/detail.py:90-99 | a value no rule carries is never the classification |
| Keywords.ProperClassification | harambe_scrapers/det_dwcpa.py:145-151 | BOARD, COMMITTEE, COMMISSION and ADVISORY map to their proper-case names and everything else, none included, to "Board" |
| Stages.Dedup | harambe_scrapers/det_great_lakes_water_authority.py:106 | the list afterwards holds no duplicates and exactly the URLs it held before |
| Stages.Kept | harambe_scrapers/det_great_lakes_water_authority.py:167-176 | no more records are saved than there are event URLs |
| Stages.KeptFrom | harambe_scrapers/det_great_lakes_water_authority.py:167-176 | every saved record is the outcome of some event URL |
| Stages.KeptHas | harambe_scrapers/det_great_lakes_water_authority.py:167-176 | every event URL with an outcome has that outcome saved |
| Stages.KeptAll | harambe_scrapers/det_great_lakes_water_authority.py:167-176 | when every event URL has an outcome, one record is saved per URL, at the URL's position |
| Stages.KeptStep | harambe_scrapers/det_great_lakes_water_authority.py:167-176 | one more turn of the loop adds that URL's record, if any, after what was saved before |
| Authority.LinkTextContains | city_scrapers/mixins/det_authority.py:68 | a word in any one link title is in the space-joined link text |
| Authority.LowerKeyword | city_scrapers/mixins/det_authority.py:68 | a word in one link title, lower-cased, is in the lower-cased joined text, which is what the spiders' `in link_text.lower()` tests |
| Authority.UpperKeyword | city_scrapers/mixins/det_authority.py:68 | a word in one link title, upper-cased, is in the upper-cased joined text |
| Authority.SectionTitle | city_scrapers/mixins/det_authority.py:101-103 | `"{} Label".format(text.upper().split(marker)[0])`: ends with the label; what precedes it is a prefix of the upper-cased text without the marker, equal to all of it exactly when the marker is absent, and otherwise followed by the marker |
| Authority.Squeeze | city_scrapers/mixins/det_authority.py:87 | no dot, whitespace or lower-case letter is left, and a text with none of them is kept as it is |
| Authority.SqueezeAppend | city_scrapers/mixins/det_authority.py:87 | squeezing a concatenation squeezes each part; with SqueezeChar this fixes the result for every text: the characters other than dots and whitespace, upper-cased, in order |
| Authority.SqueezeChar | city_scrapers/mixins/det_authority.py:87 | one character: a dot or whitespace is dropped, any other character is upper-cased |
| Authority.SqueezePrinted | city_scrapers/mixins/det_authority.py:87 | digits and colons followed by " a.m." or " p.m." squeeze to the same digits and colons followed by "AM" or "PM" |
| Authority.SqueezeDottedClock | city_scrapers/mixins/det_authority.py:86-88 | a time printed as "HH:MM a.m." or "HH:MM p.m." squeezes to exactly its `%I:%M%p` rendering |
| Authority.CompactClockText | city_scrapers/mixins/det_authority.py:86-88 | `%I:%M%p` writes the two-digit 12-hour hour, a colon, the two-digit minute and "AM" or "PM" |
| Authority.ParseStartTime | city_scrapers/mixins/det_authority.py:83-88 | no `\d{1,2}:\d{1,2}\s*[apmAPM\.]{2,4}` run raises; a result is a valid time with zero seconds, read as `%I:%M%p` from the first such run with dots and spaces removed |
| Authority.ClockRoundTrip | city_scrapers/mixins/det_authority.py:86-88 | any time written as `%I:%M%p` reads back as that hour and minute: the 12-hour conversion is undone |
| Authority.ClockRun | city_scrapers/mixins/det_authority.py:85 | on a text that starts with a one- or two-digit hour, a colon, two digits and " a.m." or " p.m.", the time pattern matches exactly that printed time, whatever follows |
| Authority.DottedClockMatch | city_scrapers/mixins/det_authority.py:85 | a printed "HH:MM a.m." or "HH:MM p.m." at the start of a text is the whole match, with the hour, minute and half-of-day groups at their places |
| Authority.ParseStartTimeDotted | city_scrapers/mixins/det_authority.py:83-88 | a text that starts with any valid time printed "HH:MM a.m." or "HH:MM p.m." is read as that hour and minute with zero seconds, the half of the day giving the 24-hour clock |
| Authority.SevenPm | city_scrapers/mixins/det_authority.py:83-88 | "07:00 p.m." is read as 19:00 |
| Authority.SevenPmUnpadded | city_scrapers/mixins/det_authority.py:83-88 | "7:00 p.m." is read as 19:00 too: `%I` takes one or two digits |
| Authority.DateRoundTrip | city_scrapers/mixins/det_authority.py:96-98 | any date written as `%B %d %Y` reads back as that date |
| Authority.DateOfMatch | city_scrapers/mixins/det_authority.py:96-98 | the commas are removed and the text read as `%B %d %Y`; a result is a valid date |
| Authority.ParseStart | city_scrapers/mixins/det_authority.py:90-99 | no date-like run raises; a result has exactly the given time and the valid date read from the first `\w{3,10}\s+\d{1,2},?\s+\d{4}` run |
| Authority.ParseLinkTextDate | city_scrapers/mixins/det_authority.py:150-163 | the text is the stripped join of the text nodes; no date-like run gives the text without a date; a run that does not parse gives neither; otherwise both, with a valid date |
| Authority.LinkTitle | city_scrapers/mixins/det_authority.py:140-144 | the date-like runs are removed and whitespace collapsed: no two spaces in a row, and no space at either end |
| Authority.AnchorLink | city_scrapers/mixins/det_authority.py:136-147 | an anchor contributes a dated link exactly when its text yields a date |
| Authority.AddLink | city_scrapers/mixins/det_authority.py:145-147 | `link_map[k].append(l)` on a `defaultdict(list)`: a known key gets the link at the end of its list and nothing else changes; a new key is added last, holding just the link |
| Authority.PrevLinks | city_scrapers/mixins/det_authority.py:132-148 | the loop builds exactly the date-grouped link map of the anchors, in page order |
| Authority.AddLinkKeys | city_scrapers/mixins/det_authority.py:145-147 | adding a link adds its key only when the key is new, and then at the end |
| Authority.GroupedKeys | city_scrapers/mixins/det_authority.py:139-147 | the keys of the link map are distinct and all at `default_start_time` (midnight) |
| Authority.GroupedCovers | city_scrapers/mixins/det_authority.py:136-147 | every date some anchor's link carries has a key |
| Authority.GroupedGroup | city_scrapers/mixins/det_authority.py:136-147 | each key holds exactly the links dated that day, in page order |
| Authority.GroupedShape | city_scrapers/mixins/det_authority.py:132-148 | the link map as a whole: distinct midnight keys, each holding exactly its date's links in page order, and a key for every date that has links |
| Authority.NextLinks | city_scrapers/mixins/det_authority.py:114-130 | the links kept are exactly those dated the meeting's start date, in page order |
| Authority.NextLinksArePrevGroup | city_scrapers/mixins/det_authority.py:114-148 | an upcoming meeting gets exactly the links a past meeting on the same date is grouped under |
| Authority.EventLinks | city_scrapers/mixins/det_authority.py:51-61 | raises exactly when a non-empty description has fewer than four words, or when a location without a url is reached; otherwise the event url comes first with an empty title, the fourth description word follows as "Zoom Meeting", and a non-empty location url comes last |
| Authority.ValidateLocation | city_scrapers/mixins/det_authority.py:109-112 | the page passes exactly when it still contains "500 Griswold" |
| Authority.YearAgo | city_scrapers/mixins/det_authority.py:66 | `today.replace(year=today.year - 1)` fails exactly on 29 February (and in year 1); otherwise the same day and time one year earlier |
| Authority.PrevMeetings | city_scrapers/mixins/det_authority.py:63-80 | fails exactly when the year-ago date does not exist; otherwise the meetings are the date groups in order, titled by the spider's rule, keeping only those not before a year ago unless archiving is on |
| Authority.KeptMeetingsWindow | city_scrapers/mixins/det_authority.py:76-80 | never more meetings than groups; without archiving none starts before the cutoff; with archiving every group gives its meeting with its date and links |
| RetirementMixin.Get | city_scrapers/mixins/det_retirement.py:63 | looking a date up in `document_date_map` finds nothing exactly when the date is not a key |
| RetirementMixin.Put | city_scrapers/mixins/det_retirement.py:155 | `document_date_map[d] = links` makes the keys the old keys plus `d` |
| RetirementMixin.Pop | city_scrapers/mixins/det_retirement.py:63 | `pop(d, [])` never adds a key |
| RetirementMixin.PutGet | city_scrapers/mixins/det_retirement.py:155 | after an assignment the date holds the new links, every other date holds what it held, and no date appears twice |
| RetirementMixin.PutOrder | city_scrapers/mixins/det_retirement.py:155 | assigning to a date already present keeps the order of the keys; a new date is appended last |
| RetirementMixin.PopGet | city_scrapers/mixins/det_retirement.py:63 | `pop(d, [])` returns what the map held under `d` (or no links), removes `d` and leaves every other date as it was |
| RetirementMixin.DocDate | city_scrapers/mixins/det_retirement.py:153-158 | a row without text raises; a date read from the first space-separated word of the stripped text with `%m/%d/%y` is valid |
| RetirementMixin.DocDateWord | city_scrapers/mixins/det_retirement.py:153-158 | a first text without whitespace is read whole with `%m/%d/%y` |
| RetirementMixin.DocDateFields | city_scrapers/mixins/det_retirement.py:158 | reading `%m/%d/%y` fills in the month, the day and the windowed year, and nothing else |
| RetirementMixin.CenturyWindow | city_scrapers/mixins/det_retirement.py:158 | every year from 1969 to 2068 survives being written with `%y` and read back |
| RetirementMixin.DocDateParse | city_scrapers/mixins/det_retirement.py:158 | a date written as `%m/%d/%y` parses back to that date at midnight when its year lies in 1969-2068 |
| RetirementMixin.DocDateRoundTrip | city_scrapers/mixins/det_retirement.py:153-158 | a row whose first text is a date written as `%m/%d/%y` files under that date when its year lies in 1969-2068 |
| RetirementMixin.DocLinks | city_scrapers/mixins/det_retirement.py:160-169 | never more links than anchors |
| RetirementMixin.DocLinksFrom | city_scrapers/mixins/det_retirement.py:160-169 | every document link comes from a visible anchor with an href: its text and its joined address |
| RetirementMixin.DocLinksSnoc | city_scrapers/mixins/det_retirement.py:162-168 | one more anchor adds its link at the end exactly when it has an href and is not `aria-hidden` |
| RetirementMixin.PastFiledDistinct | city_scrapers/mixins/det_retirement.py:151-155 | filing rows keeps the map's dates distinct |
| RetirementMixin.PastFiledStep | city_scrapers/mixins/det_retirement.py:152-155 | filing a row puts its links under its date, replacing what an earlier row with that date filed, and leaves every other date alone |
| RetirementMixin.PastFiledStops | city_scrapers/mixins/det_retirement.py:151-155 | once a row raises, the rows after it are never read |
| RetirementMixin.MeetingTitle | city_scrapers/mixins/det_retirement.py:100-111 | starts with "Board of Trustees" exactly for a `board_of_trustees` url and with "Investment Committee" otherwise; ends with ": Special Meeting" exactly when a first cell is given and its joined text mentions "special" in any case |
| RetirementMixin.MeetingClassification | city_scrapers/mixins/det_retirement.py:113-116 | a board exactly for a `board_of_trustees` url, a committee otherwise |
| RetirementMixin.LocationOf | city_scrapers/mixins/det_retirement.py:144-149 | the address is always the base address; without a room the place is the base place; with one, the name is the base name, a space and the title-cased room |
| RetirementMixin.TimeText | city_scrapers/mixins/det_retirement.py:132-140 | the time text has no dots; a time cell mentioning "cancel" in any case reads as "12:00 am"; otherwise it is the cleaned cell |
| RetirementMixin.StartText | city_scrapers/mixins/det_retirement.py:141 | the text handed to `dateparse` has whitespace collapsed and no space at either end |
| RetirementMixin.StartOf | city_scrapers/mixins/det_retirement.py:118-142 | the start succeeds exactly when `dateparse` accepts the combined text, and is what it returns |
| RetirementMixin.WrittenDateEdges | city_scrapers/mixins/det_retirement.py:128 | a match of `[A-Z][a-z]{2,8} \d{1,2},? \d{4}` starts with a capital and ends with a digit |
| RetirementMixin.DateTextFound | city_scrapers/mixins/det_retirement.py:119-131 | when a written date is found in the first cell and holds no cancel word, the date part is exactly that written date |
| RetirementMixin.RowsBuiltStops | city_scrapers/mixins/det_retirement.py:58-76 | once a row's start raises, the rows after it are never read |
| RetirementMixin.RowsBuiltOk | city_scrapers/mixins/det_retirement.py:58-76 | the first loop finishes exactly when every row's start parses |
| RetirementMixin.RowsBuiltSnoc | city_scrapers/mixins/det_retirement.py:58-76 | one more row adds its meeting, with the links popped for its date, and sets the default start time only if none was set |
| RetirementMixin.RowsBuiltCount | city_scrapers/mixins/det_retirement.py:57-76 | when every row parses there is one meeting per row, and the default start time is the first meeting's time |
| RetirementMixin.RowsBuiltAt | city_scrapers/mixins/det_retirement.py:58-76 | when every row parses, the `i`-th meeting is built from the `i`-th row: its title, start and place |
| RetirementMixin.RowsBuiltMeetings | city_scrapers/mixins/det_retirement.py:58-76 | when every row parses, the meetings follow the rows in order, each with its row's title, start and place |
| RetirementMixin.RowsBuiltDocs | city_scrapers/mixins/det_retirement.py:63 | the map left after the rows holds exactly the dates no row meeting took, each with its original links, and its dates stay distinct |
| RetirementMixin.RowsBuiltLinks | city_scrapers/mixins/det_retirement.py:63-75 | a row meeting carries the links filed under its date unless an earlier row meeting on the same date already took them, in which case it carries none |
| RetirementMixin.DocMeetings | city_scrapers/mixins/det_retirement.py:78-86 | one meeting per date left in the map |
| RetirementMixin.DocMeetingsAt | city_scrapers/mixins/det_retirement.py:78-86 | the leftover meetings follow the map's order, each on its date at the default start time and with its links |
| RetirementMixin.Leftovers | city_scrapers/mixins/det_retirement.py:78-86 | the second loop raises exactly when dates are left but no default start time was set; otherwise one meeting per date left |
| RetirementMixin.RecentWindow | city_scrapers/mixins/det_retirement.py:88-98 | what is kept is drawn from the meetings, never more of them; without archiving nothing starts before a year ago; with archiving everything is kept |
| RetirementMixin.LeftoverDatesUnclaimed | city_scrapers/mixins/det_retirement.py:63-86 | no date gets two meetings from the map: a date left over for its own meeting is never a row meeting's date |
| RetirementMixin.UpcomingUrlNoPage | city_scrapers/mixins/det_retirement.py:32-34 | an address without `.php` is requested unchanged |
| RetirementMixin.UpcomingAfterSlash | city_scrapers/mixins/det_retirement.py:32-34 | after the last slash, a name running to the closing `.php` is replaced by "upcoming_meetings", and nothing before it changes |
| RetirementMixin.UpcomingUrlPage | city_scrapers/mixins/det_retirement.py:32-34 | `…/past_meetings.php` (any name free of dots and slashes) becomes `…/upcoming_meetings.php` |
| RetirementMixin.Spider.ParseDocLinks | city_scrapers/mixins/det_retirement.py:160-169 | the loop collects exactly the document links of the visible anchors, in order |
| RetirementMixin.Spider.ParsePastDocuments | city_scrapers/mixins/det_retirement.py:151-155 | `document_date_map` and the exception, if any, are what filing the rows in order gives; the first bad row stops it |
| RetirementMixin.Spider.BuildMeetings | city_scrapers/mixins/det_retirement.py:57-76 | the meetings, the map left, the default start time and the exception are what the first loop's fold over the rows gives |
| RetirementMixin.Spider.LeftoverMeetings | city_scrapers/mixins/det_retirement.py:78-86 | the second loop gives exactly the leftover meetings, or its exception |
| RetirementMixin.Spider.KeepRecent | city_scrapers/mixins/det_retirement.py:88-98 | the last loop keeps exactly the recent meetings, in order |
| RetirementMixin.Spider.ParseMeetings | city_scrapers/mixins/det_retirement.py:41-98 | the meetings and the map left are those of `_parse_meetings`: a page without the "500 woodward ave" intro raises, and otherwise the row meetings, the leftover meetings and the year-ago filter apply in that order |
| RetirementMixin.Spider.Parse | city_scrapers/mixins/det_retirement.py:23-39 | a url containing "past" files its documents and requests the upcoming-meetings address, unless a row raises; any other page gives its meetings |
| BoardEthics.Title | city_scrapers/spiders/det_board_ethics.py:13-17 | a calendar title mentioning "board" in any case becomes "Board of Ethics"; any other title is kept unchanged |
| BoardEthics.TitleIdempotent | city_scrapers/spiders/det_board_ethics.py:13-17 | fixing a title a second time changes nothing |
| EmergencyPlanning.Title | city_scrapers/spiders/det_emergency_planning.py:14-18 | a calendar title mentioning "committee" in any case becomes "Local Emergency Planning Committee"; any other title is kept unchanged |
| EmergencyPlanning.TitleIdempotent | city_scrapers/spiders/det_emergency_planning.py:14-18 | fixing a title a second time changes nothing |
| EntertainmentCommission.Title | city_scrapers/spiders/det_entertainment_commission.py:13-17 | a calendar title mentioning "commission" in any case becomes "Entertainment Commission"; any other title is kept unchanged |
| EntertainmentCommission.TitleIdempotent | city_scrapers/spiders/det_entertainment_commission.py:13-17 | fixing a title a second time changes nothing |
| DowntownDevelopment.Title | city_scrapers/spiders/det_downtown_development_authority.py:19-26 | "committee" anywhere in the space-joined link titles gives the committee title built from the upper-cased text before " COMMITTEE" with "DDA " removed; otherwise "Board of Directors" |
| DowntownDevelopment.CommitteeInOneTitle | city_scrapers/spiders/det_downtown_development_authority.py:20-24 | "committee" in any one link title, in any case, is enough to make the meeting a committee meeting |
| DowntownDevelopment.NoLinks | city_scrapers/spiders/det_downtown_development_authority.py:25-26 | a meeting without links is titled "Board of Directors" |
| EightMileWoodward.Title | city_scrapers/spiders/det_eight_mile_woodward_corridor_improvement_authority.py:21-25 | the title is "Public Information Meeting" exactly when the upper-cased joined link titles contain "PUBLIC INFORMATION", and "Board of Directors" otherwise |
| EightMileWoodward.InOneTitle | city_scrapers/spiders/det_eight_mile_woodward_corridor_improvement_authority.py:22-23 | the words in any one link title, in any case, give the public information meeting |
| EightMileWoodward.AcrossTitles | city_scrapers/spiders/det_eight_mile_woodward_corridor_improvement_authority.py:22-23 | the words also match when they straddle two consecutive link titles ("Public", "Information"), because the join inserts a space |
| EightMileWoodward.NoLinks | city_scrapers/spiders/det_eight_mile_woodward_corridor_improvement_authority.py:24-25 | a meeting without links is titled "Board of Directors" |
| LocalDevelopmentFinance.Title | city_scrapers/spiders/det_local_development_finance_authority.py:19-23 | the title is "Public Information Meeting" exactly when the upper-cased joined link titles contain "PUBLIC INFORMATION", and "Board of Directors" otherwise |
| LocalDevelopmentFinance.InOneTitle | city_scrapers/spiders/det_local_development_finance_authority.py:20-21 | the words in any one link title, in any case, give the public information meeting |
| LocalDevelopmentFinance.NoLinks | city_scrapers/spiders/det_local_development_finance_authority.py:22-23 | a meeting without links is titled "Board of Directors" |
| NextMichigan.Title | city_scrapers/spiders/det_next_michigan_development_corporation.py:21-26 | the title is "Special Board Meeting" exactly when the lower-cased joined link titles contain "special", and "Board of Directors" otherwise |
| NextMichigan.InOneTitle | city_scrapers/spiders/det_next_michigan_development_corporation.py:22-24 | "special" in any one link title, in any case, gives the special meeting |
| NextMichigan.NoLinks | city_scrapers/spiders/det_next_michigan_development_corporation.py:25-26 | a meeting without links is titled "Board of Directors" |
| EconomicDevelopment.Title | city_scrapers/spiders/det_economic_development_corporation.py:23-32 | without "committee" in the joined link titles the title is "Special Board Meeting" when they say "special" and "Board of Directors" otherwise; with it, the committee title with "EDC " removed |
| EconomicDevelopment.CommitteeBeforeSpecial | city_scrapers/spiders/det_economic_development_corporation.py:25-30 | "committee" in one link title decides even when another link title says "special" |
| EconomicDevelopment.SpecialMeeting | city_scrapers/spiders/det_economic_development_corporation.py:29-30 | "special" in one link title and "committee" in none gives "Special Board Meeting" |
| EconomicDevelopment.NoLinks | city_scrapers/spiders/det_economic_development_corporation.py:31-32 | a meeting without links is titled "Board of Directors" |
| EconomicDevelopment.ValidateLocation | city_scrapers/spiders/det_economic_development_corporation.py:19-21 | the overriding location check accepts every page text |
| EconomicDevelopment.ValidateLocationOverride | city_scrapers/spiders/det_economic_development_corporation.py:19-21 | a page without "500 Griswold" is refused by the mixin's check but accepted by this spider's override |
| Brownfield.Title | city_scrapers/spiders/det_brownfield_redevelopment_authority.py:19-32 | with no "committee" in the joined link titles: a "public hearing" title ends in " Public Hearing"; otherwise a title text starting `DBRA-CAC` or `DBRA CAC` gives "Community Advisory Committee" and anything else "Board of Directors" |
| Brownfield.CommitteeFirst | city_scrapers/spiders/det_brownfield_redevelopment_authority.py:21-24 | "committee" in any one link title, in any case, gives the committee title whatever the other titles say |
| Brownfield.HearingTitle | city_scrapers/spiders/det_brownfield_redevelopment_authority.py:25-28 | the hearing title is a prefix of the upper-cased link text that holds no " PUBLIC HEARING", followed by " Public Hearing" |
| Brownfield.TabSwallowsLabel | city_scrapers/spiders/det_brownfield_redevelopment_authority.py:21-24 | a single link titled "DBRA Committee" names the meeting just "Committee": the tab name goes together with its space |
| Brownfield.NoLinks | city_scrapers/spiders/det_brownfield_redevelopment_authority.py:31-32 | a meeting without links is titled "Board of Directors" |
| Brownfield.Trim | city_scrapers/spiders/det_brownfield_redevelopment_authority.py:38 | a trimmed title neither starts nor ends with whitespace |
| Brownfield.TrimWindow | city_scrapers/spiders/det_brownfield_redevelopment_authority.py:38 | a trimmed title is one window of the title, everything dropped before and after it is "–" or whitespace, and it neither starts nor ends with whitespace |
| Text.StripBothEdges | city_scrapers/spiders/det_brownfield_redevelopment_authority.py:38 | `.strip(chars).strip()` keeps one window of the text, and everything it drops from either end is one of `chars` or whitespace |
| Brownfield.TrimTwice | city_scrapers/spiders/det_brownfield_redevelopment_authority.py:38 | stripping "–" before whitespace is not idempotent: " –a" trims to "–a", which trims again to "a" |
| Brownfield.Trimmed | city_scrapers/spiders/det_brownfield_redevelopment_authority.py:37-38 | each link keeps its target and position and gets its title trimmed |
| Brownfield.TrimTitles | city_scrapers/spiders/det_brownfield_redevelopment_authority.py:37-38 | the inner loop trims every title of one date's links in turn, giving exactly the trimmed links |
| Brownfield.PrevLinks | city_scrapers/spiders/det_brownfield_redevelopment_authority.py:34-39 | the mixin's date groups keep their dates, their order and their links' targets and order; every link title is trimmed |
| Brownfield.PrevLinksByDate | city_scrapers/spiders/det_brownfield_redevelopment_authority.py:34-39 | after trimming, each date still holds exactly the links dated that day, trimmed |
| CityCouncil.Keep | city_scrapers/spiders/det_city_council.py:14-25 | a title mentioning "budget" in any case is always kept; otherwise a district tag drops the event, and with no district tag the event is kept exactly when the title does not match `Coffee\|Recess\|District \d{1,2}` |
| CityCouncil.SkippedTitleIff | city_scrapers/spiders/det_city_council.py:21-23 | the case-insensitive `re.match` of the alternation holds exactly when the lower-cased title starts with "coffee", "recess", or "district " followed by a digit |
| CityCouncil.DistrictIff | city_scrapers/spiders/det_city_council.py:22 | the `District \d{1,2}` alternative matches at the start exactly when the title starts, in any case, with "district " and a digit |
| CityCouncil.WordAtStart | city_scrapers/spiders/det_city_council.py:22 | a literal word matched with `re.IGNORECASE` matches at the start exactly when the lower-cased title starts with it |
| CityCouncil.BudgetAlwaysKept | city_scrapers/spiders/det_city_council.py:18-20 | a budget meeting is kept even when it carries a district tag |
| CityCouncil.ClassificationOf | city_scrapers/spiders/det_city_council.py:30-36 | a committee exactly when the title holds "Committee" as written; a forum exactly when it does not and holds "forum" in any case; the council otherwise |
| CityCouncil.LowerCaseCommittee | city_scrapers/spiders/det_city_council.py:32-35 | the committee test is case-sensitive: "committee forum" is classified as a forum |
| WaterSewage.ParseLocation | city_scrapers/spiders/det_water_sewage_department.py:34-58 | "online" in any case gives an unnamed "Virtual Meeting"; text without "water board" is kept as the unnamed address; a Water Board address is named "Water Board Building" and its address ends with "735 Randolph St Detroit, MI 48226" |
| WaterSewage.VirtualIsNotWaterBoard | city_scrapers/spiders/det_water_sewage_department.py:41-44 | the replacement text "Virtual Meeting" never takes the Water Board branch |
| WaterSewage.NoRoom | city_scrapers/spiders/det_water_sewage_department.py:44-54 | without "room" in the part before the first ", ", the address is exactly "735 Randolph St Detroit, MI 48226" |
| WaterSewage.RoomKept | city_scrapers/spiders/det_water_sewage_department.py:44-54 | a room before the first ", " is kept, followed by a space and the building's address |
| CharterReview.Title | city_scrapers/spiders/det_charter_review.py:54-55 | the stripped summary loses one trailing " Meeting" when it has one (putting " Meeting" back gives the stripped summary) and is kept unchanged otherwise |
| CharterReview.TitleOfMeeting | city_scrapers/spiders/det_charter_review.py:54-55 | a name followed by " Meeting" gives the name back |
| CharterReview.TitleOnce | city_scrapers/spiders/det_charter_review.py:55 | the `$`-anchored substitution removes only one " Meeting": "X Meeting Meeting" gives "X Meeting" |
| CharterReview.ClassificationOf | city_scrapers/spiders/det_charter_review.py:57-62 | a committee exactly when the lower-cased title holds "committee"; a forum exactly when it does not and holds "focus group"; a commission otherwise |
| CharterReview.ParseDt | city_scrapers/spiders/det_charter_review.py:64-68 | "dateTime" wins over "date"; it succeeds exactly when its first 19 characters parse as `%Y-%m-%dT%H:%M:%S`; a "date" alone succeeds exactly when it parses as `%Y-%m-%d`; neither key gives None; every parsed datetime is valid |
| CharterReview.IsoLength | city_scrapers/spiders/det_charter_review.py:66 | every valid datetime is written in exactly 19 characters by `%Y-%m-%dT%H:%M:%S`, so the slice `[:19]` keeps all of it |
| CharterReview.DateTimeRoundTrip | city_scrapers/spiders/det_charter_review.py:64-66 | a "dateTime" that starts with a written datetime gives that datetime back, whatever follows it and whatever "date" says |
| CharterReview.DateRoundTrip | city_scrapers/spiders/det_charter_review.py:67-68 | an all-day "date" gives that date at midnight |
| CharterReview.BreakFrom | city_scrapers/spiders/det_charter_review.py:73 | the first position at or after `from` where ", " sits between a lowercase letter and a digit, or None when there is no such position |
| CharterReview.SplitLocationJoin | city_scrapers/spiders/det_charter_review.py:73-79 | joining the pieces of `re.split(r"(?<=[a-z]), (?=\d)")` back with ", " gives the location text |
| CharterReview.ParseLocation | city_scrapers/spiders/det_charter_review.py:70-83 | no location gives None; a location with no break is all address with an empty name; otherwise the name runs up to the first break and the address is everything after its ", " |
| CharterReview.LocationParts | city_scrapers/spiders/det_charter_review.py:73-83 | the name is empty exactly when the text has no break; otherwise name + ", " + address is the text, the name ends in a lowercase letter and has no break inside, and the address starts with a digit |
| CharterReview.MeetingOf | city_scrapers/spiders/det_charter_review.py:34-49 | an item gives no meeting exactly when it has no location; a located item succeeds exactly when both its start and its end parse, and then carries its title, its classification, its location and both times |
| CharterReview.Located | city_scrapers/spiders/det_charter_review.py:33-37 | the items kept are at most as many as given and every one of them has a location |
| CharterReview.SkipUnlocated | city_scrapers/spiders/det_charter_review.py:36-37 | items without a location change nothing in what is yielded |
| CharterReview.YieldedCount | city_scrapers/spiders/det_charter_review.py:33-52 | at most one meeting is yielded per located item, and exactly one when no time raises |
| CharterReview.ParseItems | city_scrapers/spiders/det_charter_review.py:31-52 | the loop yields exactly the meetings of `Yielded`, in item order, and the exception that stops it, if any |
| EmploymentSolutions.NextType | city_scrapers/spiders/det_employment_solutions.py:23-32 | "CEAC" in the section sets CEAC, whether or not "mwdb" is also there; otherwise "mwdb" sets MWDB; otherwise the type is kept |
| EmploymentSolutions.TypeTitle | city_scrapers/spiders/det_employment_solutions.py:76-82 | the title is "DESC Meeting" exactly when no type is set |
| EmploymentSolutions.ClassificationOf | city_scrapers/spiders/det_employment_solutions.py:89-95 | a board exactly for MWDB, an advisory committee exactly for CEAC, not classified exactly without a type |
| EmploymentSolutions.DateText | city_scrapers/spiders/det_employment_solutions.py:104-109 | building the MWDB text raises exactly when the stripped time range has no piece `k` after splitting on " - " |
| EmploymentSolutions.ParseTime | city_scrapers/spiders/det_employment_solutions.py:97-134 | no type gives None; CEAC gives `strptime("", "")`, 1900-01-01 00:00; MWDB succeeds exactly when its text parses as `%A, %B %d %Y %I:%M%p`; every result is a valid datetime |
| EmploymentSolutions.MwdbTimes | city_scrapers/spiders/det_employment_solutions.py:97-134 | an MWDB entry written as the page writes it (the day with a two-character ordinal suffix, then start and end clock times around " - ") reads back as the meeting's start and end on that day, to the minute, given the meeting's year |
| EmploymentSolutions.MwdbLayoutShape | city_scrapers/spiders/det_employment_solutions.py:110 | `%A, %B %d %Y %I:%M%p` carries the four-digit year, the month name, the day, the 12-hour clock with its half of the day and the minute, and no seconds |
| EmploymentSolutions.ParseLocation | city_scrapers/spiders/det_employment_solutions.py:141-148 | with ", " the name runs up to its first occurrence and has no ", ", and the address starts three characters after it; without ", " `find` gives -1, so the name loses its last character and the address its first two |
| EmploymentSolutions.LocationOf | city_scrapers/spiders/det_employment_solutions.py:141-148 | a name without ", ", then ", ", one more character and the address, splits back into that name and address |
| EmploymentSolutions.MeetingOf | city_scrapers/spiders/det_employment_solutions.py:58-69 | an entry gives a meeting exactly when both its start and its end parse; the meeting has its type's title and classification, those times and the page's location |
| EmploymentSolutions.SectionMeetingsTyped | city_scrapers/spiders/det_employment_solutions.py:54-74 | every meeting of a section has a start and an end, the section type's title and the page's location |
| EmploymentSolutions.NoUntypedMeeting | city_scrapers/spiders/det_employment_solutions.py:52-74 | no meeting is ever "DESC Meeting" or without a start or an end: a section read before any type is set stops the crawl at the selector map lookup instead |
| EmploymentSolutions.TypeSticks | city_scrapers/spiders/det_employment_solutions.py:23-32 | once a type is set, no later section unsets it |
| EmploymentSolutions.Spider.SetCurrentMeetingType | city_scrapers/spiders/det_employment_solutions.py:23-32 | the current type becomes what the section's text selects, from the old type |
| EmploymentSolutions.Spider.ParseSection | city_scrapers/spiders/det_employment_solutions.py:54-74 | the inner loop gives exactly the section's meetings under the current type, in order, and the first exception, if any |
| EmploymentSolutions.Spider.Parse | city_scrapers/spiders/det_employment_solutions.py:34-74 | the meetings, the exception and the final type are those of crawling the later sections in order, with the location from the first section's text |
| MiRedistricting.ParsedDate | city_scrapers/spiders/mi_redistricting_commission.py:64-69 | `dateparse(text).date()` succeeds exactly when the parser accepts the text, and gives its day |
| MiRedistricting.DocumentDate | city_scrapers/spiders/mi_redistricting_commission.py:58-69 | the line gives no date exactly when, after collapsing whitespace, none of the three date patterns occurs in it |
| MiRedistricting.DatePriority | city_scrapers/spiders/mi_redistricting_commission.py:58-69 | the patterns are tried in priority order: a "Month D, YYYY" text anywhere in the line wins over a dotted or dashed date, which wins over a slashed date, and each time the leftmost occurrence is the one parsed |
| MiRedistricting.LineDate | city_scrapers/spiders/mi_redistricting_commission.py:39 | a line without a text node raises in `re.sub`; otherwise its date is that of its first text node |
| MiRedistricting.DayKeyInjective | city_scrapers/spiders/mi_redistricting_commission.py:46 | distinct days give distinct `%Y-%m-%d` keys, so a key lookup finds exactly one day's links |
| MiRedistricting.LinkOf | city_scrapers/spiders/mi_redistricting_commission.py:47-52 | the link title is the anchor text with whitespace collapsed and stripped; the href is the joined address |
| MiRedistricting.FileLine | city_scrapers/spiders/mi_redistricting_commission.py:38-55 | one pass of the loop succeeds only when the line's date reads; a line without a link files nothing; a line with a link leaves `last_date` alone |
| MiRedistricting.FileLinesErr | city_scrapers/spiders/mi_redistricting_commission.py:38-55 | once a line raises, the lines after it change nothing |
| MiRedistricting.FileLinesFiled | city_scrapers/spiders/mi_redistricting_commission.py:35-56 | `last_date` is the date of the latest dated line without a link; each day's key holds exactly the links filed under it (own date, else the carried-forward `last_date`); no key holds an empty list |
| MiRedistricting.DocumentsLookup | city_scrapers/spiders/mi_redistricting_commission.py:35-56 | looking a key up in the returned map gives exactly the links filed under it |
| MiRedistricting.Title | city_scrapers/spiders/mi_redistricting_commission.py:101-107 | "Advisory Committee" exactly when the detail contains the misspelt "Advisory Commitee"; "Full Commission" exactly when it does not and contains "Full Commission"; otherwise "Commission" |
| MiRedistricting.CommitteeSpelledRight | city_scrapers/spiders/mi_redistricting_commission.py:103-107 | a correctly spelt "Advisory Committee" detail falls through to "Commission" |
| MiRedistricting.Description | city_scrapers/spiders/mi_redistricting_commission.py:109-111 | the description has whitespace collapsed, and is empty when the detail has no " - " |
| MiRedistricting.DescriptionAfterDash | city_scrapers/spiders/mi_redistricting_commission.py:109-111 | the description is the text after the first " - ", with every later " - " turned into one space and whitespace collapsed |
| MiRedistricting.DescriptionOneDash | city_scrapers/spiders/mi_redistricting_commission.py:109-111 | with exactly one " - ", the description is the collapsed text after it |
| MiRedistricting.NoParenUnchanged | city_scrapers/spiders/mi_redistricting_commission.py:115 | a date line without "(" is handed to the date parser unchanged |
| MiRedistricting.TimesFrom | city_scrapers/spiders/mi_redistricting_commission.py:116 | every time `re.findall` returns is non-empty, starts with a digit and occurs in the detail |
| MiRedistricting.NoDigitNoTimes | city_scrapers/spiders/mi_redistricting_commission.py:116-118 | a detail without a digit names no time, so the meeting starts at midnight |
| MiRedistricting.StartEnd | city_scrapers/spiders/mi_redistricting_commission.py:113-125 | succeeds exactly when the date line (parenthesised remarks removed) parses and the first two times found parse; the start is on that day, at midnight without a time and at the first time otherwise; an end exists exactly when two or more times are found, at the second time on the same day |
| MiRedistricting.MeetingOf | city_scrapers/spiders/mi_redistricting_commission.py:79-92 | a detail gives a meeting exactly when its start and end parse; the meeting has the detail's title and description, "Commission", the fixed location, and the links under its day's key, which the `defaultdict` lookup inserts empty when missing |
| MiRedistricting.GroupMeetingsCount | city_scrapers/spiders/mi_redistricting_commission.py:76-99 | a paragraph yields one meeting per non-blank detail line unless a line raises |
| MiRedistricting.GroupMeetingsLinks | city_scrapers/spiders/mi_redistricting_commission.py:76-99 | each meeting of a paragraph carries the links the map held for its day before the paragraph was read; the lookups add only empty lists |
| MiRedistricting.MeetingsOfLinks | city_scrapers/spiders/mi_redistricting_commission.py:71-99 | every meeting on the page carries the links the map held for its day before the page was read |
| MiRedistricting.MeetingLinksFiled | city_scrapers/spiders/mi_redistricting_commission.py:35-99 | end to end, a meeting's links are exactly the document links filed under its day |
| MiRedistricting.GroupStep | city_scrapers/spiders/mi_redistricting_commission.py:76-99 | one pass of the detail loop: a blank line is skipped; otherwise its meeting is yielded before the rest, or its exception stops the paragraph |
| MiRedistricting.MeetingsFirst | city_scrapers/spiders/mi_redistricting_commission.py:72-75 | one pass of the paragraph loop: a paragraph without text nodes raises on unpacking `date_str`; otherwise its meetings come before those of the later paragraphs |
| MiRedistricting.Spider.ParseDocuments | city_scrapers/spiders/mi_redistricting_commission.py:35-56 | the loop succeeds exactly when filing the lines does, and returns that map, or that exception |
| MiRedistricting.Spider.Parse | city_scrapers/spiders/mi_redistricting_commission.py:21-33 | a documents page that files without error becomes `document_date_map` and the meetings page is requested next; a line that raises stops it |
| MiRedistricting.Spider.ParseGroup | city_scrapers/spiders/mi_redistricting_commission.py:76-99 | the inner loop yields exactly the paragraph's meetings and leaves the map that its lookups leave |
| MiRedistricting.Spider.ParseMeetings | city_scrapers/spiders/mi_redistricting_commission.py:71-99 | the meetings of every paragraph in order, stopping at the first exception, and the map the lookups leave |
| RegionalConvention.ReportName | city_scrapers/spiders/det_regional_convention.py:55 | `href.split("/")[-1]` has no "/", ends the href, and when shorter than it follows a "/" |
| RegionalConvention.ReportNameOf | city_scrapers/spiders/det_regional_convention.py:55 | whatever precedes the last "/", the report name is the part after it |
| RegionalConvention.Tokens | city_scrapers/spiders/det_regional_convention.py:56 | no piece of the name split at ".", "-" and "_" contains a separator or "/" |
| RegionalConvention.DateNumbers | city_scrapers/spiders/det_regional_convention.py:57 | never more numbers than pieces |
| RegionalConvention.Year | city_scrapers/spiders/det_regional_convention.py:60 | `2000 + int(str(n)[:2])` always lies in 2000-2099 |
| RegionalConvention.YearShort | city_scrapers/spiders/det_regional_convention.py:60 | a one- or two-digit year `n` is read as 2000 + n |
| RegionalConvention.YearLong | city_scrapers/spiders/det_regional_convention.py:60 | a four-digit year keeps only its first two digits: 2015 is read as 2020 |
| RegionalConvention.StartOf | city_scrapers/spiders/det_regional_convention.py:52-66 | the item is ignored exactly when the name does not hold exactly three numbers; with three it starts exactly when month, day and windowed year make a real date, at 08:30 on that date; otherwise `datetime` raises |
| RegionalConvention.NamedReportTokens | city_scrapers/spiders/det_regional_convention.py:55-56 | a name like word-month-day-year.ext after any prefix ending in "/" splits into its five pieces |
| RegionalConvention.NamedReportDate | city_scrapers/spiders/det_regional_convention.py:52-66 | a report named like "Approved-Minutes-1-29-15.pdf" (a word that is not a number, then month, day and year, then an extension) starts at 08:30 on the date its three numbers make |
| RegionalConvention.ReportNumbers | city_scrapers/spiders/det_regional_convention.py:57 | in such a name only the three middle pieces are numbers |
| RegionalConvention.TokensStart | city_scrapers/spiders/det_regional_convention.py:58-66 | an address whose pieces hold exactly three numbers starts on the date they make, at 08:30, when that date is real |
| RegionalConvention.LinksOf | city_scrapers/spiders/det_regional_convention.py:87-91 | succeeds exactly when the anchor has both an href and a title, and then gives one link to the report with that title |
| RegionalConvention.ItemMeeting | city_scrapers/spiders/det_regional_convention.py:18-37 | an item builds a meeting that is not yielded exactly when it is ignored and has a title |
| RegionalConvention.ItemMeetingCases | city_scrapers/spiders/det_regional_convention.py:18-37 | the fields are built in order: no href raises first; then an impossible date raises; then a missing title raises; an ignored item yields nothing; otherwise the board meeting at its start, at the fixed place, linking its report |
| RegionalConvention.YieldedDated | city_scrapers/spiders/det_regional_convention.py:18-66 | every meeting yielded starts at 08:30 on a real date in 2000-2099, has no end, carries the board title and links exactly one report |
| RegionalConvention.IgnoredSkipped | city_scrapers/spiders/det_regional_convention.py:36-37 | an ignored item is never yielded, and it does not stop the items after it |
| RegionalConvention.YieldedStep | city_scrapers/spiders/det_regional_convention.py:18-37 | one pass of the loop: an exception ends the run with nothing more yielded; otherwise the item's meeting, if any, comes before those of the later items |
| RegionalConvention.Spider.ParseStart | city_scrapers/spiders/det_regional_convention.py:52-66 | no href raises and leaves the flag; an ignored report sets `_ignore` and starts at `now`; otherwise the start is the report's date at 08:30, or its exception, and the flag is left alone |
| RegionalConvention.Spider.ParseItem | city_scrapers/spiders/det_regional_convention.py:18-37 | the loop body resets `_ignore`, builds the meeting and gives exactly what the item gives; afterwards the flag says whether the item was ignored |
| RegionalConvention.Spider.Parse | city_scrapers/spiders/det_regional_convention.py:14-37 | the loop yields exactly the meetings of the items in order, stopping at the first exception |
| WayneElection.HeaderYear | city_scrapers/spiders/wayne_election_commission.py:22-23 | no year exactly when the joined header has no four-digit run; a year found is four digits occurring in the header |
| WayneElection.YearOf | city_scrapers/spiders/wayne_election_commission.py:22-26 | a header without a four-digit run keeps the carried year; otherwise the year becomes four digits from the header |
| WayneElection.DateMatch | city_scrapers/spiders/wayne_election_commission.py:53 | no match exactly when the text has no `[A-Z][a-z]{2,9} \d\d?`; a match is at least five characters, starts with a capital, ends with a digit and occurs in the text |
| WayneElection.StartOf | city_scrapers/spiders/wayne_election_commission.py:50-56 | the row is skipped exactly when its first cell has no month and day; otherwise the start is the parser's reading of the match, a space and the carried year, and fails exactly when the parser fails |
| WayneElection.DocumentOf | city_scrapers/spiders/wayne_election_commission.py:70-73 | the document's href is the joined first href of the cell; its title is the cell's first text, or None when the cell has no text |
| WayneElection.CellLinks | city_scrapers/spiders/wayne_election_commission.py:62-63 | never more documents than cells, and every document is built from a cell that has a url |
| WayneElection.LinksOf | city_scrapers/spiders/wayne_election_commission.py:58-63 | only cells after the first count, so a row has fewer documents than cells, or none |
| WayneElection.CellLinksAppend | city_scrapers/spiders/wayne_election_commission.py:63 | links of adjacent cells come out in cell order, one group after the other |
| WayneElection.CellLinksOne | city_scrapers/spiders/wayne_election_commission.py:63-67 | a cell with a url gives exactly its document; one without gives nothing |
| WayneElection.RowMeeting | city_scrapers/spiders/wayne_election_commission.py:27-47 | a row gives nothing exactly when its first cell has no date; a dated row gives a meeting exactly when its start parses, with that start, the row's links and the fixed title, classification, location and flags |
| WayneElection.RowWithoutDate | city_scrapers/spiders/wayne_election_commission.py:28-30 | a row without a month and day yields nothing and does not stop the table |
| WayneElection.RowsRunCount | city_scrapers/spiders/wayne_election_commission.py:27-47 | no table yields more meetings than it has rows |
| WayneElection.RowsRunConstant | city_scrapers/spiders/wayne_election_commission.py:31-42 | every meeting of a table has the fixed fields and the links of one of the table's rows |
| WayneElection.TablesRunConstant | city_scrapers/spiders/wayne_election_commission.py:19-47 | every meeting the page yields has the fixed fields |
| WayneElection.YearCarried | city_scrapers/spiders/wayne_election_commission.py:20-26 | the rows of table `i` are read with the year of the nearest header, up to and including `i`, that has one |
| WayneElection.LatestYearNone | city_scrapers/spiders/wayne_election_commission.py:20 | when no header up to table `i` has a year, its rows are read with "" |
| WayneElection.LatestYearFrom | city_scrapers/spiders/wayne_election_commission.py:24-26 | when table `k` names a year and no table after it up to `i` does, table `i` is read with that year |
| WayneElection.Parse | city_scrapers/spiders/wayne_election_commission.py:19-47 | the loop yields exactly the page's meetings, table by table with each header read before its rows, and stops at the first parser error |
| WayneElection.TablesRunStops | city_scrapers/spiders/wayne_election_commission.py:19-47 | once a parser error stops the page, later tables change nothing |
| WayneElection.ParseRows | city_scrapers/spiders/wayne_election_commission.py:27-47 | the inner loop yields exactly one table's meetings, skipping undated rows, and stops at the first parser error |
| WayneElection.RowsRunStops | city_scrapers/spiders/wayne_election_commission.py:27-47 | once a parser error stops a table, later rows change nothing |
| PoliceFireRetirement.UnderscoreRuns | harambe_scrapers/det_police_fire_retirement.py:33-34 | no longer than its input and empty only for empty input; no whitespace remains, no two underscores are adjacent, and every other character comes from the input |
| PoliceFireRetirement.KeptChars | harambe_scrapers/det_police_fire_retirement.py:29-32 | after lower-casing, stripping and dropping special characters only slug characters and whitespace are left |
| PoliceFireRetirement.SlugifyIsSlug | harambe_scrapers/det_police_fire_retirement.py:27-36 | every slug is lower-case letters, digits, underscores and inner hyphens, with no two underscores in a row |
| PoliceFireRetirement.SlugifyFixes | harambe_scrapers/det_police_fire_retirement.py:27-36 | a slug is its own slug |
| PoliceFireRetirement.SlugifyIdempotent | harambe_scrapers/det_police_fire_retirement.py:27-36 | slugifying twice gives what slugifying once gives |
| PoliceFireRetirement.GenerateId | harambe_scrapers/det_police_fire_retirement.py:39-48 | a scraper id, when the start reads as ISO, begins with the scraper name and a slash |
| PoliceFireRetirement.ReadLocalised | harambe_scrapers/det_police_fire_retirement.py:45 | the text the timezone change writes needs no "Z" rewriting and reads back to its own fields and offset |
| PoliceFireRetirement.GenerateIdLocalised | harambe_scrapers/det_police_fire_retirement.py:39-48 | the id of a localised start is the scraper name, the wall-clock stamp as written (the offset is not applied), "x" and the slug of the name |
| PoliceFireRetirement.GenerateIdZulu | harambe_scrapers/det_police_fire_retirement.py:45 | a UTC start written with "Z" gives the same id as one written with "+00:00" |
| PoliceFireRetirement.OcdIdLayout | harambe_scrapers/det_police_fire_retirement.py:51-59 | for a 32-digit hex digest the OCD id is 46 characters: "ocd-event/", then the digest in 8-4-4-4-12 groups, and dropping the hyphens gives back the digest |
| PoliceFireRetirement.DetermineStatus | harambe_scrapers/det_police_fire_retirement.py:62-75 | a cancelled meeting is "canceled"; any status is one of "canceled", "tentative", "passed" |
| PoliceFireRetirement.StatusOfLocalised | harambe_scrapers/det_police_fire_retirement.py:62-75 | an uncancelled localised start is "tentative" exactly when its instant is after now, else "passed" |
| PoliceFireRetirement.AdvisoryFirst | harambe_scrapers/det_police_fire_retirement.py:97-117 | a title mentioning "advisory" is classified ADVISORY whatever else it says |
| PoliceFireRetirement.NeverCommission | harambe_scrapers/det_police_fire_retirement.py:225-232 | the table spells "COMMISION", so the proper-case "Commission" is never chosen |
| PoliceFireRetirement.RowStart | harambe_scrapers/det_police_fire_retirement.py:171-198 | a parsed start is a valid date and time; it is cancelled exactly when a cell says "CANCELLED", and then it is at midnight; a failure is the "Error parsing date/time" error |
| PoliceFireRetirement.CancelledAtMidnight | harambe_scrapers/det_police_fire_retirement.py:190-192 | a date read with " 12:00 AM" appended is at midnight |
| PoliceFireRetirement.DetailUrl | harambe_scrapers/det_police_fire_retirement.py:159-167 | a row has a detail URL exactly when its link has a non-empty href; an href starting with "http" is kept as it is |
| PoliceFireRetirement.DetailUrlSibling | harambe_scrapers/det_police_fire_retirement.py:164-167 | a relative href replaces the last path segment of the listing page's URL |
| PoliceFireRetirement.PageTitle | harambe_scrapers/det_police_fire_retirement.py:120-124 | the title never contains "<br>" |
| PoliceFireRetirement.PageLocation | harambe_scrapers/det_police_fire_retirement.py:127-140 | the page fails exactly when it mentions "Meeting Location" without the colon; the name and address are single lines |
| PoliceFireRetirement.CombinedLocationName | harambe_scrapers/det_police_fire_retirement.py:201-205 | without a page location name the location is the stripped cell; with one it is that name, a comma and the stripped cell |
| PoliceFireRetirement.LocalIso | harambe_scrapers/det_police_fire_retirement.py:83-95 | the timezone change succeeds on an ISO start and writes it with the zone's offset for that wall-clock time |
| PoliceFireRetirement.MeetingOf | harambe_scrapers/det_police_fire_retirement.py:200-271 | the meeting's start, scraper id, OCD id, status, all-day flag, name, classification, location, address and empty links are those the row and the page determine |
| PoliceFireRetirement.CancelledRowMeeting | harambe_scrapers/det_police_fire_retirement.py:178-220 | a cancelled row is an all-day meeting with status "canceled" |
| PoliceFireRetirement.Extend | harambe_scrapers/det_police_fire_retirement.py:152-277 | a failing row records the error; a short row changes nothing; a row with a detail URL is enqueued; any other row is kept for saving |
| PoliceFireRetirement.PlanCounts | harambe_scrapers/det_police_fire_retirement.py:152-277 | without a failure every body row of three or more cells yields exactly one meeting, enqueued or kept |
| PoliceFireRetirement.PlanRouting | harambe_scrapers/det_police_fire_retirement.py:273-277 | every enqueued URL is the detail URL of one of the rows |
| PoliceFireRetirement.PlanStops | harambe_scrapers/det_police_fire_retirement.py:196-198 | once a row fails, the later rows change nothing |
| PoliceFireRetirement.Scrape | harambe_scrapers/det_police_fire_retirement.py:78-281 | a bad location block fails before anything is enqueued; otherwise rows with a detail URL are enqueued as read, and the others are saved after the last row only when no row failed |
| PoliceFireRetirement.ScrapeRows | harambe_scrapers/det_police_fire_retirement.py:152-277 | the row loop enqueues exactly the plan's meetings, saves nothing, and returns the plan's error or the meetings to save |
| PoliceFireRetirement.SaveAll | harambe_scrapers/det_police_fire_retirement.py:280-281 | the meetings are saved in order and nothing is enqueued |
| PoliceFireRetirement.SiteRootOf | harambe_scrapers/det_police_fire_retirement.py:308-309 | the root of "scheme//host/path" is "scheme//host" |
| PoliceFireRetirement.AbsoluteLink | harambe_scrapers/det_police_fire_retirement.py:306-310 | a URL starting with "http" is kept; any other hangs off the site root |
| PoliceFireRetirement.DetailLinks | harambe_scrapers/det_police_fire_retirement.py:302-312 | no more links than anchors, and every link URL is absolute |
| PoliceFireRetirement.DetailLinksComplete | harambe_scrapers/det_police_fire_retirement.py:302-312 | every anchor with an href and a text gives a link |
| PoliceFireRetirement.WithLinks | harambe_scrapers/det_police_fire_retirement.py:315-318 | the meeting takes the page's links when there are any, and nothing else changes |
| PoliceFireRetirement.ScrapeDetail | harambe_scrapers/det_police_fire_retirement.py:285-321 | the context meeting, with the page's links, is saved once and nothing is enqueued |
| PoliceFireRetirement.ScrapeRouter | harambe_scrapers/det_police_fire_retirement.py:339-347 | a context carrying a meeting is handled as a detail page; an empty one as the listing page, with the listing's outcome |
| Dwcpa.CommitteeFirst | harambe_scrapers/det_dwcpa.py:44-66 | a title mentioning "committee" is COMMITTEE and so "Committee", "Advisory Committee" included |
| Dwcpa.BoardTitle | harambe_scrapers/det_dwcpa.py:44-66 | a title mentioning "board" and not "committee" is "Board" |
| Dwcpa.NeverCommission | harambe_scrapers/det_dwcpa.py:48-51 | the table spells "COMMISION", so no title is ever classified "Commission" |
| Dwcpa.FourDigitsFit | harambe_scrapers/det_dwcpa.py:87 | the pattern \d{4} matches at a position exactly over four digits |
| Dwcpa.Year | harambe_scrapers/det_dwcpa.py:85-88 | the year is "" exactly when the heading has no four-digit run; otherwise it is the first such run |
| Dwcpa.LocationName | harambe_scrapers/det_dwcpa.py:95-100 | there is a name exactly when the sentence contains " at "; it is stripped |
| Dwcpa.LocationAddress | harambe_scrapers/det_dwcpa.py:101-105 | an address is present only when a name is, and it is stripped |
| Dwcpa.SplitCount | harambe_scrapers/det_dwcpa.py:95-105 | a text splits into two or more pieces exactly when the separator occurs in it |
| Dwcpa.LocationPieces | harambe_scrapers/det_dwcpa.py:95-105 | for "… at NAME located at ADDRESS, beginning …" the name is NAME without "located" and the address ADDRESS without ", beginning", both stripped |
| Dwcpa.FindClock | harambe_scrapers/det_dwcpa.py:112-114 | no clock exactly when the case-insensitive clock pattern matches nowhere; a found half of the day is "am" or "pm" |
| Dwcpa.ClockText | harambe_scrapers/det_dwcpa.py:124-135 | the time text written is the two-digit 24-hour clock of the location sentence, or 09:00:00 |
| Dwcpa.DefaultClock | harambe_scrapers/det_dwcpa.py:134-135 | without a clock in the location sentence every meeting starts at 09:00:00 |
| Dwcpa.ClockConversion | harambe_scrapers/det_dwcpa.py:126-132 | an hour from 1 to 12 becomes a valid 24-hour hour that shows as the same 12-hour hour, and it is afternoon exactly when the text says pm |
| Dwcpa.MidnightText | harambe_scrapers/det_dwcpa.py:142 | the time text is "00:00:00", making the meeting all-day, exactly at midnight |
| Dwcpa.DateWords | harambe_scrapers/det_dwcpa.py:111 | no date exactly when the date pattern matches nowhere in the element text |
| Dwcpa.DropOrdinals | harambe_scrapers/det_dwcpa.py:119 | removing ordinal suffixes never lengthens the text |
| Dwcpa.DropOrdinalsKeepsDigits | harambe_scrapers/det_dwcpa.py:119 | removing ordinal suffixes keeps every digit, in order |
| Dwcpa.IsoStartText | harambe_scrapers/det_dwcpa.py:138 | the date as %Y-%m-%d, "T" and the time text form the ISO text of that date at that time |
| Dwcpa.Template | harambe_scrapers/det_dwcpa.py:153-168 | the shared part of every record has no start time and is all-day exactly when the page's clock is midnight |
| Dwcpa.ElementOutcome | harambe_scrapers/det_dwcpa.py:107-168 | an element gives nothing exactly when it has no date match; a record is the page's template with a 25-character localised start |
| Dwcpa.ElementStart | harambe_scrapers/det_dwcpa.py:116-139 | a dated element whose date parses gives the template starting on that date at the page's clock, with the Detroit offset for it |
| Dwcpa.PlanCount | harambe_scrapers/det_dwcpa.py:107-170 | a scrape that runs to the end saves exactly one record per dated element |
| Dwcpa.PlanShared | harambe_scrapers/det_dwcpa.py:153-170 | every saved record is the page's template with its own 25-character start time |
| Dwcpa.PlanStops | harambe_scrapers/det_dwcpa.py:120 | once an element's date fails to parse, later elements change nothing |
| Dwcpa.ElementRecord | harambe_scrapers/det_dwcpa.py:108-168 | the loop body computes the outcome of one element from the parts read once before the loop |
| Dwcpa.SaveElements | harambe_scrapers/det_dwcpa.py:107-170 | records are saved in element order and the first error ends the loop |
| Dwcpa.Scrape | harambe_scrapers/det_dwcpa.py:25-170 | the page's records are saved in element order and an element that fails ends the scrape with the records saved so far |
| BelleIsle.Meridian | harambe_scrapers/mi_belle_isle.py:74-77 | the meridian is "am" or "pm", and missing exactly when the lower-cased time has neither |
| BelleIsle.MeridianFirst | harambe_scrapers/mi_belle_isle.py:74-77 | the first "am" or "pm" in the lower-cased time decides the meridian |
| BelleIsle.StartText | harambe_scrapers/mi_belle_isle.py:85-88 | a range's start text is a non-empty token beginning with a digit |
| BelleIsle.StartLazyWhole | harambe_scrapers/mi_belle_isle.py:85 | no proper prefix of a token is followed by spaces and a hyphen, so the lazy match takes the whole token |
| BelleIsle.EndText | harambe_scrapers/mi_belle_isle.py:86-89 | a range's end text is a non-empty run of digits, without the minutes |
| BelleIsle.ClockNumber | harambe_scrapers/mi_belle_isle.py:93-99 | there is a clock number exactly when the time has a digit, and it begins with a digit |
| BelleIsle.ClockTexts | harambe_scrapers/mi_belle_isle.py:84-100 | the time fails exactly when it has a hyphen and no digit; the row is skipped exactly when it has neither; an end text exists exactly when the time is a range whose start and end both match |
| BelleIsle.EndStamp | harambe_scrapers/mi_belle_isle.py:90-91 | a range's end is the parsed end clock on the row's day; there is none exactly when there is no end text |
| BelleIsle.TimesFrom | harambe_scrapers/mi_belle_isle.py:74-103 | a row is skipped exactly when it has no meridian, its date does not parse or it has no clock; a failure needs both; a start is on the row's date, and an end exists exactly when an end text does, on the same date |
| BelleIsle.SameMeridian | harambe_scrapers/mi_belle_isle.py:90-102 | the same am/pm is appended to both the start and the end clock before they are parsed |
| BelleIsle.ParseTimes | harambe_scrapers/mi_belle_isle.py:68-103 | after filtering both cells, a row is skipped exactly when it has no meridian, no parsable date or no clock, and it has an end exactly when it is a complete range |
| BelleIsle.NameText | harambe_scrapers/mi_belle_isle.py:112-113 | a name is a first-line prefix of the cell followed by ", ", a house number and a later comma |
| BelleIsle.AddressStart | harambe_scrapers/mi_belle_isle.py:115 | the address starts at the leftmost position where the pattern matches |
| BelleIsle.AddressText | harambe_scrapers/mi_belle_isle.py:115-116 | an address is at least 11 characters, begins with a digit, occurs in the cell and ends with a state code and ZIP code |
| BelleIsle.ParseLocation | harambe_scrapers/mi_belle_isle.py:105-125 | nothing exactly when the cell is missing or has neither an address nor non-blank text; without an address the name is the stripped cell; with one the name is the matched name when it is non-empty |
| BelleIsle.AnchorDate | harambe_scrapers/mi_belle_isle.py:133-152 | an anchor is filed under a date exactly when it has an href and text and its cleaned text parses |
| BelleIsle.LinkTableKeys | harambe_scrapers/mi_belle_isle.py:127-154 | a date has a link exactly when some anchor is dated by it |
| BelleIsle.LinkTableLast | harambe_scrapers/mi_belle_isle.py:139-150 | a date's link is the href of the last anchor dated by it |
| BelleIsle.ParseLinks | harambe_scrapers/mi_belle_isle.py:133-152 | the loop builds exactly the table of the anchors' dated hrefs |
| BelleIsle.MatchLinks | harambe_scrapers/mi_belle_isle.py:156-174 | at most two links: the agenda, first, exactly when the date has one, and the minutes, last, exactly when it has them, each joined to the page URL |
| BelleIsle.ParseStartEnd | harambe_scrapers/mi_belle_isle.py:60-66 | a row missing its date or time cell is skipped; otherwise the times are read from both cells |
| BelleIsle.IsCancelled | harambe_scrapers/mi_belle_isle.py:191-193 | a row is cancelled exactly when its status text mentions "cancel" in any letter case; a row without the cell is not |
| BelleIsle.AdvisoryFirst | harambe_scrapers/mi_belle_isle.py:40-57 | a title mentioning "advisory" is ADVISORY whatever else it mentions |
| BelleIsle.NeverCommission | harambe_scrapers/mi_belle_isle.py:43-53 | the table spells "COMMISION", so no title is classified "COMMISSION" |
| BelleIsle.RowEntry | harambe_scrapers/mi_belle_isle.py:184-205 | a row fails exactly when its times fail, and is skipped exactly when they are missing |
| BelleIsle.RowStored | harambe_scrapers/mi_belle_isle.py:189-205 | a row with a start is filed under its start's date with the localised start and end, its matched links, its location and its cancelled flag |
| BelleIsle.Stored | harambe_scrapers/mi_belle_isle.py:196 | the key is set to the entry, a new key goes last, an existing key keeps its place, other keys are unchanged |
| BelleIsle.WithLink | harambe_scrapers/mi_belle_isle.py:230-233 | only the links of the entry change, by one appended link; keys and their order stay |
| BelleIsle.FiledKeys | harambe_scrapers/mi_belle_isle.py:184-205 | without an error a key is present exactly when it was before or some row was filed under it |
| BelleIsle.LaterRowWins | harambe_scrapers/mi_belle_isle.py:195-196 | a date's entry is the one from the last row filed under it |
| BelleIsle.FiledStops | harambe_scrapers/mi_belle_isle.py:185 | once a row's times raise, later rows change nothing |
| BelleIsle.ArchiveDate | harambe_scrapers/mi_belle_isle.py:208-216 | no date exactly when the cleaned text does not read as "%B %d, %Y" |
| BelleIsle.ArchiveKey | harambe_scrapers/mi_belle_isle.py:224-228 | the localised midnight text cut at "T" is the date written %Y-%m-%d, the key a row on that date has |
| BelleIsle.ArchiveLink | harambe_scrapers/mi_belle_isle.py:222-233 | an anchor gives nothing exactly when its text is not a date; otherwise its date key and a "Minutes" link to its joined href |
| BelleIsle.ArchiveNeverCreates | harambe_scrapers/mi_belle_isle.py:230-233 | the archive pass creates no date and changes nothing but links, which only grow |
| BelleIsle.ArchivedLinks | harambe_scrapers/mi_belle_isle.py:222-233 | an entry's links after the archive pass are its own links followed by those of its date's archive anchors |
| BelleIsle.Events | harambe_scrapers/mi_belle_isle.py:238-257 | one record per key in insertion order, all-day exactly when it starts at local midnight |
| BelleIsle.MeetingDict.Store | harambe_scrapers/mi_belle_isle.py:196-205 | the dictionary becomes the stored one |
| BelleIsle.MeetingDict.AddLink | harambe_scrapers/mi_belle_isle.py:231-233 | the dictionary becomes the one with the link added |
| BelleIsle.CurrentYearMeetings | harambe_scrapers/mi_belle_isle.py:184-205 | the row loop files exactly the rows' entries and stops at the first error |
| BelleIsle.ArchiveMeetings | harambe_scrapers/mi_belle_isle.py:222-233 | the archive loop adds exactly the archived links |
| BelleIsle.SaveMeetings | harambe_scrapers/mi_belle_isle.py:238-259 | one record is saved per dictionary entry, in insertion order |
| BelleIsle.Scrape | harambe_scrapers/mi_belle_isle.py:26-259 | an error in the row loop saves nothing; otherwise one record per filed date, with its archived minutes, in insertion order |
| PoliceSdk.Absolute | harambe_scrapers/det_police_department.py:59-62 | a non-empty URL not starting with "http" gets the site prefix; any other is kept; a non-empty result starts with "http" |
| PoliceSdk.AbsoluteIdempotent | harambe_scrapers/det_police_department.py:59-62 | making a URL absolute twice is making it absolute once |
| PoliceSdk.CategoryUrlShape | harambe_scrapers/det_police_department.py:41-49 | every non-empty URL comes out absolute; an absolute URL with a query and no "/events" becomes the events URL with the text between its first and second "?"; any other is only made absolute |
| PoliceSdk.CategoryUrlIdempotent | harambe_scrapers/det_police_department.py:41-49 | enqueueing an already rewritten URL again changes nothing more |
| PoliceSdk.CategorySdk.Enqueue | harambe_scrapers/det_police_department.py:41-49 | the rewritten URL is appended to the shared list |
| PoliceSdk.ListingSdk.Enqueue | harambe_scrapers/det_police_department.py:59-62 | the absolute URL is appended to the shared list |
| PoliceSdk.DetailSdk.SaveData | harambe_scrapers/det_police_department.py:72-73 | the saved data replaces whatever was saved before |
| PoliceCategory.FilterStartsPreviousYear | harambe_scrapers/det_police_department/category.py:21-22 | the filter value is January 1 of the previous year written %Y-%m-%d, and reads back as that date |
| PoliceCategory.JanuaryFirstReadsBack | harambe_scrapers/det_police_department/category.py:22 | January 1 of a four-digit year written %Y-%m-%d reads back as itself |
| PoliceCategory.OptionValue | harambe_scrapers/det_police_department/category.py:24-26 | the option is "-" followed by the stripped category title |
| PoliceCategory.OptionValueStripped | harambe_scrapers/det_police_department/category.py:25 | surrounding whitespace in the title never reaches the option value |
| PoliceCategory.PageUrls | harambe_scrapers/det_police_department/category.py:33-36 | the pager gives pages exactly when the text after the last "page=" is an integer n, and then n + 1 pages (none for a negative n) |
| PoliceCategory.Pages | harambe_scrapers/det_police_department/category.py:35-36 | one URL per index below the count |
| PoliceCategory.PagesReadBack | harambe_scrapers/det_police_department/category.py:36 | each page URL splits back at "page=" into its base and its index |
| PoliceCategory.PageUrlReadsBack | harambe_scrapers/det_police_department/category.py:33-36 | the i-th page URL keeps the href's text before "page=" and names page i |
| PoliceCategory.RewrittenAt | harambe_scrapers/det_police_department.py:41-49 | each stored URL is the rewrite of the URL enqueued at the same position |
| PoliceCategory.Enqueued | harambe_scrapers/det_police_department/category.py:29-38 | the pager's pages when the pager reads, otherwise the current page alone |
| PoliceCategory.Scrape | harambe_scrapers/det_police_department/category.py:10-38 | without a category title nothing is enqueued and the scrape fails; otherwise the pages, in order, go through the SDK's rewrite |
| PoliceCategory.EnqueuePages | harambe_scrapers/det_police_department/category.py:35-36 | pages 0 to count - 1 of the base are enqueued in order |
| PoliceFallback.FirstTitle | harambe_scrapers/det_police_department.py:182-193 | never empty: the first non-empty selector text, or the default title when every selector is missing or empty |
| PoliceFallback.FallbackTitle | harambe_scrapers/det_police_department.py:182-193 | the selector loop settles on the first non-empty text, else the default |
| PoliceFallback.MeridianSpacedNoColon | harambe_scrapers/det_police_department.py:228-233 | without a colon the meridian rewrite leaves the text as it is |
| PoliceFallback.FallbackTimeNoDot | harambe_scrapers/det_police_department.py:224-226 | the cleaned time text never holds a "." |
| PoliceFallback.FallbackClock | harambe_scrapers/det_police_department.py:234-241 | a valid clock with zero seconds: the hour and minute read as %I:%M %p, or 12:00 when the text does not parse |
| PoliceFallback.NoColonFallbackNoon | harambe_scrapers/det_police_department.py:224-241 | a time with no colon and no "N" cannot be read and falls back to 12:00 |
| PoliceFallback.StartClock | harambe_scrapers/det_police_department.py:223-243 | a valid clock, 12:00 without a time text |
| PoliceFallback.FallbackStart | harambe_scrapers/det_police_department.py:214-253 | no start without a date text; the current time when the date does not parse; otherwise a 25-character localised start |
| PoliceFallback.DateAttributeReads | harambe_scrapers/det_police_department.py:217-220 | a date attribute written %Y-%m-%d reads back as that date |
| PoliceFallback.FallbackStartOnDate | harambe_scrapers/det_police_department.py:214-248 | a %Y-%m-%d date attribute gives a start whose text before "T" is the attribute, at 12:00 without a time text |
| PoliceFallback.FallbackStartValue | harambe_scrapers/det_police_department.py:214-248 | the start for a %Y-%m-%d date attribute is that date at the start clock, localised |
| PoliceFallback.FallbackLinkTitle | harambe_scrapers/det_police_department.py:274-280 | "Agenda" when the text mentions agenda; otherwise "Minutes" when it mentions minute; never padded with whitespace |
| PoliceFallback.FallbackLink | harambe_scrapers/det_police_department.py:270-282 | the link's URL is the absolute href and starts with "http" |
| PoliceFallback.SelectorLinks | harambe_scrapers/det_police_department.py:266-282 | one link per anchor with an href, each URL absolute |
| PoliceFallback.CollectedLinks | harambe_scrapers/det_police_department.py:256-286 | one link per anchor with an href across all selectors, each URL absolute |
| PoliceFallback.SameAnchorsTwice | harambe_scrapers/det_police_department.py:259-282 | links are not deduplicated: an anchor two selectors find is listed twice |
| PoliceFallback.FallbackLinks | harambe_scrapers/det_police_department.py:265-282 | the link loops collect exactly the links of every selector in order |
| PoliceFallback.SelectorLoop | harambe_scrapers/det_police_department.py:267-282 | the anchor loop appends exactly one selector's links, in page order |
| PoliceFallback.FirstKeyword | harambe_scrapers/det_police_department.py:313-317 | the keyword loop returns the first rule whose keyword occurs in the text |
| PoliceFallback.FallbackCommitteeFirst | harambe_scrapers/det_police_department.py:302-317 | "committee" anywhere in the title or description classifies COMMITTEE |
| PoliceFallback.FallbackBoardBeforeCommission | harambe_scrapers/det_police_department.py:302-317 | "board" without "committee" classifies BOARD, a board of commissioners included |
| PoliceFallback.FallbackCancelled | harambe_scrapers/det_police_department.py:324-326 | cancelled exactly when the lower-cased title and description mention "cancel" or "recess" |
| PoliceFallback.CancelledTitle | harambe_scrapers/det_police_department.py:298-326 | a title mentioning "cancel" in any case marks the meeting cancelled |
| PoliceFallback.FallbackCancelledIgnoresCase | harambe_scrapers/det_police_department.py:298-326 | upper-casing the page texts does not change the verdict |
| PoliceFallback.Fallback | harambe_scrapers/det_police_department.py:175-328 | the fallback always has a non-empty title and one link per anchor with an href |
| PoliceFallback.FallbackExtraction | harambe_scrapers/det_police_department.py:175-328 | the fallback never raises and builds exactly the page's fallback record |
| PoliceDetail.SingleClock | harambe_scrapers/det_police_department/detail.py:60-79 | a valid clock with zero seconds, 12:00 PM when the cleaned text does not read as %I:%M %p |
| PoliceDetail.ClockNeedsColon | harambe_scrapers/det_police_department/detail.py:68 | a text without a colon never reads as %I:%M %p |
| PoliceDetail.NoColonNoon | harambe_scrapers/det_police_department/detail.py:39-79 | a single time with no colon at all ("Noon", "TBA") always ends up at 12:00 PM |
| PoliceDetail.SingleNeverFailsOnTime | harambe_scrapers/det_police_department/detail.py:37-83 | without a "-" the extraction fails exactly when the attribute is not %Y-%m-%dT%H:%M:%SZ; the start keeps the attribute's date at the single clock, and there is no end |
| PoliceDetail.DateClockIso | harambe_scrapers/det_police_department/detail.py:55-56 | a date written %Y-%m-%d, "T" and a clock written %H:%M:%S is the ISO text of the two together |
| PoliceDetail.RangeLocalized | harambe_scrapers/det_police_department/detail.py:45-58 | a range splits into exactly two clocks, and both localise on the attribute's date, each with its own clock; an end earlier than the start is not moved to the next day |
| PoliceDetail.SingleLocalized | harambe_scrapers/det_police_department/detail.py:59-83 | on the single-time path the start localises as the attribute's date at the single clock |
| PoliceDetail.AdvisoryFirst | harambe_scrapers/det_police_department/detail.py:85-107 | "advisory" in the title or the description classifies ADVISORY whatever else they mention |
| PoliceDetail.NeverCommission | harambe_scrapers/det_police_department/detail.py:90-100 | the table spells "COMMISION", so no page is classified "COMMISSION" |
| PoliceDetail.IsCancelled | harambe_scrapers/det_police_department/detail.py:181-188 | cancelled exactly when the description mentions "cancel" or "no meeting", or the title mentions "cancel", in any case |
| PoliceDetail.CancelledIgnoresCase | harambe_scrapers/det_police_department/detail.py:181-188 | upper-casing the page texts does not change the verdict |
| PoliceDetail.LinkTitle | harambe_scrapers/det_police_department/detail.py:114-121 | after collapsing whitespace: "Agenda" when it mentions agenda, else "Minutes" when it mentions minute, else the text without ".pdf" |
| PoliceDetail.DetailLink | harambe_scrapers/det_police_department/detail.py:113-122 | the URL is the site followed by the href, "" for a missing href |
| PoliceDetail.ParseLinks | harambe_scrapers/det_police_department/detail.py:109-123 | one link per anchor, in page order |
| PoliceDetail.DetailLinks | harambe_scrapers/det_police_department/detail.py:109-123 | one link per anchor, in page order |
| PoliceDetail.LocationParts | harambe_scrapers/det_police_department/detail.py:158-164 | after removing "Location:" and stripping, the text is split at its first comma into name and address; with no comma it is all name |
| PoliceDetail.ContactAddress | harambe_scrapers/det_police_department/detail.py:146-149 | the address is one line and holds no " (" |
| PoliceDetail.PageLocation | harambe_scrapers/det_police_department/detail.py:139-180 | the contact block wins, then the "Location" paragraph, then the description's first paragraph; an empty text gives no location |
| PoliceDetail.AtParagraphAfterLastAt | harambe_scrapers/det_police_department/detail.py:166-180 | the description's paragraph is read from after its last " at" |
| PoliceDetail.TitleFirst | harambe_scrapers/det_police_department/detail.py:125-128 | a page without a title fails with the timeout whatever else it holds; with one it yields a meeting exactly when its times read, and the meeting carries the page's title |
| PoliceDetail.SinglePageTimes | harambe_scrapers/det_police_department/detail.py:129-134 | a Z attribute and a time without "-" give the localised single start and no end |
| PoliceDetail.SinglePageMeeting | harambe_scrapers/det_police_department/detail.py:125-202 | a titled page with a Z attribute and a time without "-" always yields a meeting on the attribute's date at the single clock, with no end, no all-day flag and one link per anchor |
| PoliceDetail.Scrape | harambe_scrapers/det_police_department/detail.py:125-202 | the meeting is saved when the page yields one; an error saves nothing |
| PoliceDepartment.Transform | harambe_scrapers/det_police_department.py:330-351 | all-day exactly when the raw flag is true; a missing classification becomes "COMMITTEE"; a missing title the default; the source URL is the current event URL |
| PoliceDepartment.DetailEvent | harambe_scrapers/det_police_department.py:330-351 | a detail meeting keeps its title, start, description, classification (unclassified included), end, location, links and cancelled flag, and is never all-day |
| PoliceDepartment.DetailNeverAllDay | harambe_scrapers/det_police_department.py:333-335 | the detail scraper never sets the all-day flag, so its meetings are never all-day |
| PoliceDepartment.FallbackEvent | harambe_scrapers/det_police_department.py:330-351 | a fallback event keeps the fallback's title, start, description, links and cancelled flag, is always classified, and has no location, no end and no all-day flag |
| PoliceDepartment.AbsoluteAll | harambe_scrapers/extractor/det_police_department/listing.py:15-16 | one stored URL per enqueued href |
| PoliceDepartment.ListedEmptyPage | harambe_scrapers/det_police_department.py:124-137 | a listing page with no URLs adds nothing |
| PoliceDepartment.ListedAbsolute | harambe_scrapers/det_police_department.py:124-137 | every non-empty event URL the listing stage collects is absolute |
| PoliceDepartment.AbsoluteAllShape | harambe_scrapers/det_police_department.py:59-62 | the listing SDK makes every non-empty href absolute |
| PoliceDepartment.Events | harambe_scrapers/det_police_department.py:439-451 | one saved event per event URL |
| PoliceDepartment.EventsAt | harambe_scrapers/det_police_department.py:439-451 | the i-th saved event is the one of the i-th event URL |
| PoliceDepartment.EventSources | harambe_scrapers/det_police_department.py:439-451 | for the function giving each URL the event of its page's stage record, the saved events carry the event URLs as their source URLs, in order, so deduplicated URLs give distinct source URLs |
| PoliceDepartment.EventOfGives | harambe_scrapers/det_police_department.py:439-451 | `EventOf` gives every event URL the event of the record the detail stage returns for its page, and any function that does so agrees with it on every URL, so the `eventOf` that `Run` and `DetailStage` take is determined by the pages |
| PoliceDepartment.FallbackTakesOver | harambe_scrapers/det_police_department.py:143-173 | a page the detail scraper cannot read still gives an event with the fallback's title, start and links, always classified, with no location or end |
| PoliceDepartment.EnqueueListed | harambe_scrapers/extractor/det_police_department/listing.py:12-16 | every href goes through the listing SDK, in order |
| PoliceDepartment.Orchestrator.RunCategoryStage | harambe_scrapers/det_police_department.py:86-116 | without a category title the stage fails and nothing is listed; otherwise the listing list gains the category scraper's rewritten pages |
| PoliceDepartment.Orchestrator.RunListingStage | harambe_scrapers/det_police_department.py:118-141 | the event URLs become duplicate-free and hold exactly the earlier ones and those every listing page enqueued |
| PoliceDepartment.Orchestrator.EnqueueAll | harambe_scrapers/det_police_department.py:124-137 | the event list gains, listing page by listing page and in order, the absolute URLs each page enqueues |
| PoliceDepartment.Orchestrator.RunDetailStage | harambe_scrapers/det_police_department.py:143-173 | the detail scraper's meeting when it saves one, else the fallback's record |
| PoliceDepartment.Orchestrator.SaveEvent | harambe_scrapers/det_police_department.py:439-451 | the event of the URL goes to the observer, the URL becomes current, and no URL is recorded as failed; with a blob client, its JSON line is appended to the blob of the minute the clock shows for this upload |
| PoliceDepartment.Orchestrator.Run | harambe_scrapers/det_police_department.py:424-451 | the run fails exactly when the category page has no title, and then saves nothing; otherwise the event URLs are duplicate-free, hold every listed URL, and each gives, in order, one saved event: the event of the record the detail stage returns for its page. With a blob client, each saved event's JSON line is appended, in save order, to the blob of the minute the clock shows for that upload (`Uploads`), and on failure no blob changes. |
| PoliceDepartment.Orchestrator.DetailStage | harambe_scrapers/det_police_department.py:436-451 | each event URL, in order, gives one saved event (the event of its page's stage record), and none is recorded as failed. With a blob client, each saved event's JSON line is appended, in save order, to the blob of the minute the clock shows for that upload (`Uploads`). |
| PoliceDepartment.Orchestrator.SaveEvents | harambe_scrapers/det_police_department.py:439-451 | the given URLs' events are saved in order, each JSON line appended to the blob of its upload's minute, and no URL is recorded as failed |
| WayneSdk.ListingSdk.Enqueue | harambe_scrapers/wayne_commission.py:57-59 | the URL and its context, or an empty context when none is given, are appended to the shared list |
| WayneSdk.DetailSdk.SaveData | harambe_scrapers/wayne_commission.py:69-71 | the saved data replaces whatever was saved before |
| WayneListing.NamesIn | harambe_scrapers/extractor/wayne_commission/listing.py:91-94 | only configured names that occur in the label are counted, at most one per name |
| WayneListing.NamesInHas | harambe_scrapers/extractor/wayne_commission/listing.py:91-94 | every configured name occurring in the label is counted |
| WayneListing.IdsOf | harambe_scrapers/extractor/wayne_commission/listing.py:91-94 | every id an option contributes is its own id |
| WayneListing.FilterIds | harambe_scrapers/extractor/wayne_commission/listing.py:86-94 | the filter fails exactly when some option has no label, with the missing-label error |
| WayneListing.NoNameNoId | harambe_scrapers/extractor/wayne_commission/listing.py:91-94 | a label without any configured name contributes nothing |
| WayneListing.RepeatedId | harambe_scrapers/extractor/wayne_commission/listing.py:91-94 | a label naming two configured bodies contributes its id at least twice |
| WayneListing.NamesDistinct | harambe_scrapers/extractor/wayne_commission/listing.py:60-74 | the configured names are all different |
| WayneListing.CollectIds | harambe_scrapers/extractor/wayne_commission/listing.py:86-94 | the nested loop collects exactly the filter's ids, or fails as it does |
| WayneListing.Api.Post | harambe_scrapers/extractor/wayne_commission/listing.py:148 | the calendar answer for the query, which is recorded as posted |
| WayneListing.Api.Get | harambe_scrapers/extractor/wayne_commission/listing.py:231-233 | the content answer for the query, which is recorded as fetched |
| WayneListing.CancelText | harambe_scrapers/extractor/wayne_commission/listing.py:239-243 | "False" exactly when the API flag is false; "True" for anything else, missing and null included |
| WayneListing.EntryOf | harambe_scrapers/extractor/wayne_commission/listing.py:234-248 | an entry exactly for a 200 answer with a non-empty link: that link, with the cancel flag as its context |
| WayneListing.ItemEntries | harambe_scrapers/extractor/wayne_commission/listing.py:166-248 | no more entries than items |
| WayneListing.TwoYearWindow | harambe_scrapers/extractor/wayne_commission/listing.py:99-114 | with ids, two calendar queries: the previous year from January 1 and the current year to December 31 |
| WayneListing.NoIdsNoRequests | harambe_scrapers/extractor/wayne_commission/listing.py:98 | without ids nothing is requested and nothing enqueued |
| WayneListing.ItemEntriesShape | harambe_scrapers/extractor/wayne_commission/listing.py:234-248 | every entry enqueued has a non-empty link and a "True" or "False" flag |
| WayneListing.ItemEntriesHas | harambe_scrapers/extractor/wayne_commission/listing.py:234-248 | an item whose lookup answers 200 with a link is enqueued |
| WayneListing.ItemLoop | harambe_scrapers/extractor/wayne_commission/listing.py:166-248 | one lookup per item, in order, and an entry for each answered link |
| WayneListing.GroupLoop | harambe_scrapers/extractor/wayne_commission/listing.py:158-248 | the group loop makes every group's lookups and entries, in order |
| WayneListing.YearStep | harambe_scrapers/extractor/wayne_commission/listing.py:107-248 | one calendar query for the year, then its groups' lookups and entries |
| WayneListing.YearsStep | harambe_scrapers/extractor/wayne_commission/listing.py:107 | one more year appends that year's query, lookups and entries |
| WayneListing.YearLoop | harambe_scrapers/extractor/wayne_commission/listing.py:107-248 | one calendar query per year, in order, with their lookups and entries |
| WayneListing.Scrape | harambe_scrapers/extractor/wayne_commission/listing.py:12-248 | a missing label fails before any request; otherwise exactly the two years' queries, lookups and entries |
| WayneCommission.Transform | harambe_scrapers/wayne_commission.py:118-141 | a non-empty title (the default for an empty one), all-day exactly when the flag is true, and every other field as the meeting has it, with the current URL as source |
| WayneCommission.Saved | harambe_scrapers/wayne_commission.py:101-116 | the meeting the detail scraper saves, nothing when it raises or saves nothing |
| WayneCommission.EventSource | harambe_scrapers/wayne_commission.py:139 | the event of an entry carries the entry's URL as its source |
| WayneCommission.StartAlwaysSet | harambe_scrapers/wayne_commission.py:179 | a saved meeting always has its 25-character start, so the start test never skips one |
| WayneCommission.EventFlags | harambe_scrapers/wayne_commission.py:118-141 | an event is all-day exactly when its meeting runs a day or more, and cancelled exactly when its listing context says "True" |
| WayneCommission.ListedCancel | harambe_scrapers/extractor/wayne_commission/listing.py:239-248 | through both stages a meeting is saved as cancelled exactly when the calendar's flag is anything but false |
| WayneCommission.Limited | harambe_scrapers/wayne_commission.py:161-163 | without a limit, or with 0, every entry; otherwise a prefix of the entries, of the limit's length or, for a negative limit, that many fewer |
| WayneCommission.LimitedFirst | harambe_scrapers/wayne_commission.py:161-163 | with a positive limit only the first entries are read, and none after them |
| WayneCommission.Orchestrator.RunListingStage | harambe_scrapers/wayne_commission.py:87-99 | the stage fails exactly when the listing does, adding nothing; otherwise the entry list gains the listing's entries |
| WayneCommission.Orchestrator.RunDetailStage | harambe_scrapers/wayne_commission.py:101-116 | the current URL is the entry's, and the meeting saved, if any, is returned |
| WayneCommission.Orchestrator.SaveEvent | harambe_scrapers/wayne_commission.py:177-181 | the entry's event, if it has one, is appended to the observer's data and, with a blob client, its JSON line to the blob of the minute the clock shows for this upload |
| WayneCommission.Orchestrator.DetailStage | harambe_scrapers/wayne_commission.py:160-181 | the events of the entries within the limit, in order, each once, skipping those with no meeting. With a blob client, each saved event's JSON line is appended, in save order, to the blob of the minute the clock shows for that upload (`Uploads`). |
| WayneCommission.Orchestrator.Run | harambe_scrapers/wayne_commission.py:143-181 | the run fails exactly when the listing does and then saves nothing; otherwise the entries are listed and every one within the limit whose page gives a meeting is saved once, in order. With a blob client, each saved event's JSON line is appended, in save order, to the blob of the minute the clock shows for that upload (`Uploads`), and on failure no blob changes. |
| WayneDetail.CommitteeFirst | harambe_scrapers/extractor/wayne_commission/detail.py:36-58 | "committee" anywhere classifies COMMITTEE whatever else the text mentions |
| WayneDetail.CommissionSpelling | harambe_scrapers/extractor/wayne_commission/detail.py:40-43 | a commission that is neither committee nor board is classified "COMMISION", as the table spells it |
| WayneDetail.MissingUnclassified | harambe_scrapers/extractor/wayne_commission/detail.py:36-58 | a missing text is never classified |
| WayneDetail.TimeText | harambe_scrapers/extractor/wayne_commission/detail.py:91-97 | the cleaned time text has no line break |
| WayneDetail.TimeRange | harambe_scrapers/extractor/wayne_commission/detail.py:98 | the unpacking succeeds exactly when the text splits into two pieces at " - ", and those pieces joined by " - " give the text back |
| WayneDetail.NoDashNoRange | harambe_scrapers/extractor/wayne_commission/detail.py:98 | a time text without " - " is not a range, and the scraper raises |
| WayneDetail.MainTimes | harambe_scrapers/extractor/wayne_commission/detail.py:98-106 | both sides read as valid times only when the text is a range |
| WayneDetail.MeetingClockReadsBack | harambe_scrapers/extractor/wayne_commission/detail.py:101-106 | a date written %B %d, %Y, a space and a clock written %I:%M %p read back as that date and clock, to the minute |
| WayneDetail.LongDateClockShape | harambe_scrapers/extractor/wayne_commission/detail.py:102 | the layout writes the full date, a 12-hour clock with its half of the day, and no seconds |
| WayneDetail.MainPlace | harambe_scrapers/extractor/wayne_commission/detail.py:113-115 | without a comma the stripped text is the name and the address is ""; with one, the stripped text before the first comma and the stripped rest |
| WayneDetail.MainPlaceName | harambe_scrapers/extractor/wayne_commission/detail.py:113-114 | the name never holds a comma |
| WayneDetail.SidePlaceOneLine | harambe_scrapers/extractor/wayne_commission/detail.py:169-171 | a one-line block is all name |
| WayneDetail.SidePlaceLines | harambe_scrapers/extractor/wayne_commission/detail.py:169-171 | the first line, stripped, is the name and the other lines joined with ", " are the address |
| WayneDetail.LocationOf | harambe_scrapers/extractor/wayne_commission/detail.py:236-240 | a location exactly when the name or the address is non-empty, with both |
| WayneDetail.AbsoluteUrl | harambe_scrapers/extractor/wayne_commission/detail.py:126-128 | the result mentions "http"; an href that does is kept; one that does not gets the county site in front |
| WayneDetail.AbsoluteIdempotent | harambe_scrapers/extractor/wayne_commission/detail.py:126-128 | making a URL absolute twice changes nothing more |
| WayneDetail.Collected | harambe_scrapers/extractor/wayne_commission/detail.py:120-141 | a failure is the missing-href error; otherwise no more links than candidates |
| WayneDetail.CollectedSnoc | harambe_scrapers/extractor/wayne_commission/detail.py:135-141 | one more candidate adds its shown link after those before it, or its missing href raises |
| WayneDetail.CollectedFails | harambe_scrapers/extractor/wayne_commission/detail.py:126-127 | the loops raise exactly when some candidate has no href |
| WayneDetail.CollectedShape | harambe_scrapers/extractor/wayne_commission/detail.py:126-130 | every link gathered is absolute, not a YouTube link, and the link of one of the candidates |
| WayneDetail.CollectedHas | harambe_scrapers/extractor/wayne_commission/detail.py:126-130 | every candidate whose URL is shown contributes its link |
| WayneDetail.CollectedAppend | harambe_scrapers/extractor/wayne_commission/detail.py:118-141 | the links of two candidate lists run one after the other are those of the first, then those of the second |
| WayneDetail.DocumentCandidates | harambe_scrapers/extractor/wayne_commission/detail.py:120-125 | no more candidates than documents |
| WayneDetail.RelatedCandidates | harambe_scrapers/extractor/wayne_commission/detail.py:135-137 | one candidate per anchor, with its text as title |
| WayneDetail.DocumentCandidatesHas | harambe_scrapers/extractor/wayne_commission/detail.py:120-125 | every document with an anchor is a candidate |
| WayneDetail.LinkOrder | harambe_scrapers/extractor/wayne_commission/detail.py:118-141 | the main layout gathers documents then related links, the side layout the reverse, and one raises exactly when the other does |
| WayneDetail.AddLink | harambe_scrapers/extractor/wayne_commission/detail.py:126-130 | the absolute URL is appended with its title unless it points to YouTube |
| WayneDetail.DocumentSkip | harambe_scrapers/extractor/wayne_commission/detail.py:124-125 | a document without an anchor leaves the loop's candidates as they were |
| WayneDetail.DocumentTake | harambe_scrapers/extractor/wayne_commission/detail.py:120-130 | a document with an anchor adds its candidate |
| WayneDetail.DocumentNoHref | harambe_scrapers/extractor/wayne_commission/detail.py:126-127 | an anchor without an href among the documents makes the loop raise |
| WayneDetail.DocumentLoop | harambe_scrapers/extractor/wayne_commission/detail.py:119-130 | the documents loop adds exactly the documents' shown links after those before it, or raises |
| WayneDetail.RelatedLoop | harambe_scrapers/extractor/wayne_commission/detail.py:132-141 | the related loop adds exactly the anchors' shown links after those before it, or raises |
| WayneDetail.MainLinkLoops | harambe_scrapers/extractor/wayne_commission/detail.py:117-141 | the main layout's two loops in its order |
| WayneDetail.SideLinkLoops | harambe_scrapers/extractor/wayne_commission/detail.py:179-203 | the side layout's two loops in its order |
| WayneDetail.DateSearch | harambe_scrapers/extractor/wayne_commission/detail.py:152-154 | the leftmost position from the start where the date pattern matches, or none when it matches nowhere |
| WayneDetail.SmallStart | harambe_scrapers/extractor/wayne_commission/detail.py:152-161 | no start without a date match; with one, a start exactly when it reads as %B %d, %Y, %I:%M %p, and it is valid |
| WayneDetail.SmallDateDigit | harambe_scrapers/extractor/wayne_commission/detail.py:153 | every match holds a digit right after the word and its space |
| WayneDetail.NoDigitNoDate | harambe_scrapers/extractor/wayne_commission/detail.py:152-161 | a small text without a digit holds no date, so there is no start |
| WayneDetail.SmallLayoutShape | harambe_scrapers/extractor/wayne_commission/detail.py:157 | the layout writes the full date, a 12-hour clock with its half of the day, and no seconds |
| WayneDetail.SmallDateReadsBack | harambe_scrapers/extractor/wayne_commission/detail.py:157 | a date written in the side layout reads back as that date and clock, to the minute |
| WayneDetail.MainParts | harambe_scrapers/extractor/wayne_commission/detail.py:67-143 | the main layout reads exactly when its type, description, time range and location are there, both times parse and the links are gathered; it then has a start, an end and a place, classified by the type |
| WayneDetail.SideParts | harambe_scrapers/extractor/wayne_commission/detail.py:145-212 | the side layout reads exactly when its small text's date reads, its body is there and its links are gathered; never an end; classified by the page title; a missing body is the re-raised error |
| WayneDetail.PageParts | harambe_scrapers/extractor/wayne_commission/detail.py:60-212 | an unloaded page times out; a page without a title raises; nothing at all exactly when neither layout appears |
| WayneDetail.AllDay | harambe_scrapers/extractor/wayne_commission/detail.py:213-219 | never False: True exactly when both times are there and they are a day or more apart |
| WayneDetail.SameDayNeverAllDay | harambe_scrapers/extractor/wayne_commission/detail.py:213-219 | a meeting that starts and ends on the same day is never all-day |
| WayneDetail.CancelFlag | harambe_scrapers/extractor/wayne_commission/detail.py:221 | never False: True exactly when the listing context says "True" |
| WayneDetail.Extract | harambe_scrapers/extractor/wayne_commission/detail.py:60-246 | a layout error is the error; no layout saves nothing; a missing listing flag raises; otherwise a meeting exactly when there is a start, with the page's title, the localised times, location, links, classification, description and flags |
| WayneDetail.Record | harambe_scrapers/extractor/wayne_commission/detail.py:225-245 | the localised start and any end are 25 characters |
| WayneDetail.SideNeverAllDay | harambe_scrapers/extractor/wayne_commission/detail.py:158-219 | a meeting read on the side layout has no end and is never all-day |
| WayneDetail.MainSaved | harambe_scrapers/extractor/wayne_commission/detail.py:67-246 | a main-layout page with every element and a readable range is saved with the range's times |
| WayneDetail.SideWithoutDateSavesNothing | harambe_scrapers/extractor/wayne_commission/detail.py:152-223 | a side-layout page whose small text has no digit saves nothing |
| WayneDetail.Scrape | harambe_scrapers/extractor/wayne_commission/detail.py:11-246 | the meeting is saved exactly when the page yields one; an error or no meeting leaves the SDK as it was |
| WayneDetail.ReadLayouts | harambe_scrapers/extractor/wayne_commission/detail.py:60-212 | the main layout, else the side layout, read as the page's parts |
| WayneDetail.ReadMain | harambe_scrapers/extractor/wayne_commission/detail.py:67-143 | the main layout's block reads exactly the main parts |
| WayneDetail.ReadSide | harambe_scrapers/extractor/wayne_commission/detail.py:145-212 | the side layout's block reads exactly the side parts |
| GlwaSdk.AppendSdk.Enqueue | harambe_scrapers/det_great_lakes_water_authority.py:45-51 | the URL, unchanged, is appended to the shared URL list and nothing else changes (the category and listing SDKs alike) |
| GlwaSdk.DetailSdk.SaveData | harambe_scrapers/det_great_lakes_water_authority.py:57-66 | the saved data replaces whatever was saved before |
| GlwaCategory.MonthText | harambe_scrapers/extractor/det_great_lakes_water_authority/category.py:17-21 | every month 1 to 12 is written as exactly two digits whose value is that month |
| GlwaCategory.YearUrls | harambe_scrapers/extractor/det_great_lakes_water_authority/category.py:16-22 | the first k months of a year give exactly k month pages |
| GlwaCategory.EnqueueYear | harambe_scrapers/extractor/det_great_lakes_water_authority/category.py:16-22 | the inner loop appends the twelve month pages of the year, January first, to what was enqueued |
| GlwaCategory.YearsStep | harambe_scrapers/extractor/det_great_lakes_water_authority/category.py:15-22 | one more pass of the outer loop extends the pages of the years so far by exactly the next year's twelve pages |
| GlwaCategory.Scrape | harambe_scrapers/extractor/det_great_lakes_water_authority/category.py:8-22 | the scrape appends, in order, the month pages of the previous, current and next year to what was enqueued |
| GlwaCategory.YearUrlsAt | harambe_scrapers/extractor/det_great_lakes_water_authority/category.py:16-22 | month m of a year sits at position m - 1 of that year's pages |
| GlwaCategory.MonthUrlsAt | harambe_scrapers/extractor/det_great_lakes_water_authority/category.py:15-22 | month m of year y sits at position 12 * (y - first) + m - 1 of the pages of a range of years |
| GlwaCategory.MonthUrlsLength | harambe_scrapers/extractor/det_great_lakes_water_authority/category.py:15-22 | a range of years gives twelve pages per year, none for an empty range |
| GlwaCategory.MonthUrlInjective | harambe_scrapers/extractor/det_great_lakes_water_authority/category.py:17-22 | two months with the same page are the same month of the same year |
| GlwaCategory.MonthUrlsDiffer | harambe_scrapers/extractor/det_great_lakes_water_authority/category.py:17-22 | different months, or the same month of different years, have different pages |
| GlwaCategory.ThreeYears | harambe_scrapers/extractor/det_great_lakes_water_authority/category.py:13-22 | one scrape enqueues 36 pages, the page at position i being month i % 12 + 1 of year currentYear - 1 + i / 12 |
| GlwaCategory.ThreeYearsAt | harambe_scrapers/extractor/det_great_lakes_water_authority/category.py:13-22 | the page at one position i < 36 of a scrape is month i % 12 + 1 of year currentYear - 1 + i / 12 |
| GlwaCategory.ThreeYearsDistinct | harambe_scrapers/extractor/det_great_lakes_water_authority/category.py:13-22 | no month page is enqueued twice in one scrape |
| GlwaCategory.PagesDiffer | harambe_scrapers/extractor/det_great_lakes_water_authority/category.py:13-22 | the pages at two different positions of one scrape differ |
| Glwa.Transform | harambe_scrapers/det_great_lakes_water_authority.py:121-142 | the event keeps the meeting's start, end, cancellation, location, links and classification; an empty title becomes the default title, a missing description becomes empty, an unset all-day flag is false, and the source URL is the current URL |
| Glwa.ListedFrom | harambe_scrapers/det_great_lakes_water_authority.py:93-106 | an event URL is collected exactly when some month page lists it |
| Glwa.Saved | harambe_scrapers/det_great_lakes_water_authority.py:110-119 | the detail stage returns a meeting exactly when the detail scraper reads the page, and then the meeting it reads |
| Glwa.EventOfSaved | harambe_scrapers/det_great_lakes_water_authority.py:167-174 | an event URL gives an event exactly when the detail stage returns a meeting with a start, and that event is the transformed meeting with the event URL as its source |
| Glwa.NeverSkipped | harambe_scrapers/det_great_lakes_water_authority.py:170-176 | the start-time test never drops a meeting: an event URL gives an event exactly when the detail scraper reads its page |
| Glwa.EventFields | harambe_scrapers/det_great_lakes_water_authority.py:121-142 | an event's source URL is its event URL, it is never all-day, it is cancelled exactly when the page title mentions a cancellation in any case, and its description is the page's description |
| Glwa.EnqueueListed | harambe_scrapers/det_great_lakes_water_authority.py:96-100 | a month page's event URLs are appended, in order, to the shared event list |
| Glwa.Orchestrator.constructor | harambe_scrapers/det_great_lakes_water_authority.py:69-75 | a fresh orchestrator has no month URLs, no event URLs, no current URL and an observer with no data |
| Glwa.Orchestrator.RunCategoryStage | harambe_scrapers/det_great_lakes_water_authority.py:77-86 | the month pages of the previous, current and next year are appended to the month URLs |
| Glwa.Orchestrator.RunListingStage | harambe_scrapers/det_great_lakes_water_authority.py:88-108 | afterwards the event URLs hold no duplicates and are exactly the earlier event URLs and those listed by some month page |
| Glwa.Orchestrator.RunDetailStage | harambe_scrapers/det_great_lakes_water_authority.py:110-119 | the current URL becomes the event URL and the result is what its detail page saves, nothing when the scraper raises |
| Glwa.Orchestrator.SaveEvent | harambe_scrapers/det_great_lakes_water_authority.py:167-178 | one turn of the detail loop sets the current URL and hands the URL's event, if any, to the observer, whose upload goes to the blob of the minute the clock shows for it |
| Glwa.Orchestrator.SaveRaw | harambe_scrapers/det_great_lakes_water_authority.py:172-178 | a returned meeting with a start is transformed with the current URL and saved, its JSON line going to the blob of the minute the clock shows for this upload; anything else saves nothing and changes no blob |
| Glwa.Orchestrator.DetailStage | harambe_scrapers/det_great_lakes_water_authority.py:164-178 | the observer receives, in order, the event of every event URL that has one. With a blob client, each saved event's JSON line is appended, in save order, to the blob of the minute the clock shows for that upload (`Uploads`). |
| Glwa.Orchestrator.Run | harambe_scrapers/det_great_lakes_water_authority.py:144-205 | the month pages of three years are listed, the event URLs they give are deduplicated, and every event URL whose page reads is saved once, in list order. With a blob client, each saved event's JSON line is appended, in save order, to the blob of the minute the clock shows for that upload (`Uploads`). |
| GlwaDetail.UrlYear | harambe_scrapers/extractor/det_great_lakes_water_authority/detail.py:102 | the year is the URL's text after its last "=", holds no "=", and is the whole URL when there is none |
| GlwaDetail.UrlYearOf | harambe_scrapers/extractor/det_great_lakes_water_authority/detail.py:102 | whatever precedes it, a URL ending "=" and a year yields exactly that year |
| GlwaDetail.EventDate | harambe_scrapers/extractor/det_great_lakes_water_authority/detail.py:54-61 | a date read is a valid date; when the URL's year is absent from the schedule and the date part with the year appended reads as "%B %d %Y", that date is taken, otherwise the date part read as "%B %d, %Y" |
| GlwaDetail.Clock | harambe_scrapers/extractor/det_great_lakes_water_authority/detail.py:65-66 | a clock read is a valid time of day with zero seconds |
| GlwaDetail.EventTimes | harambe_scrapers/extractor/det_great_lakes_water_authority/detail.py:51-71 | a schedule without " @ " fails to unpack; a reading succeeds only when the schedule splits at " @ " and its time part at " - ", and then both times fall on the date part's date at the two clocks read |
| GlwaDetail.ClockReadsBack | harambe_scrapers/extractor/det_great_lakes_water_authority/detail.py:65-66 | a clock written "%I:%M %p" reads back as the same hour and minute |
| GlwaDetail.ScheduleReadsBack | harambe_scrapers/extractor/det_great_lakes_water_authority/detail.py:51-71 | a schedule written "%B %d, %Y @ %I:%M %p - %I:%M %p" read with its own year gives back the day's start and end, to the minute |
| GlwaDetail.ShortScheduleReadsBack | harambe_scrapers/extractor/det_great_lakes_water_authority/detail.py:51-71 | a schedule written "%B %d @ %I:%M %p - %I:%M %p" that does not mention the URL's year reads back on that year, to the minute |
| GlwaDetail.AdvisoryFirst | harambe_scrapers/extractor/det_great_lakes_water_authority/detail.py:73-99 | a title mentioning "advisory" in any case is classified ADVISORY whatever else the page says |
| GlwaDetail.UrlClassifies | harambe_scrapers/extractor/det_great_lakes_water_authority/detail.py:73-99 | a URL containing "board", with no earlier keyword in the title, description or URL, classifies the meeting as BOARD |
| GlwaDetail.CommissionSpelling | harambe_scrapers/extractor/det_great_lakes_water_authority/detail.py:73-99 | a commission that matches no earlier keyword is classified with the table's own spelling "COMMISION" |
| GlwaDetail.CancelledAnyCase | harambe_scrapers/extractor/det_great_lakes_water_authority/detail.py:113-116 | a title holding "cancel" in any mix of cases marks the meeting cancelled |
| GlwaDetail.ParseLinks | harambe_scrapers/extractor/det_great_lakes_water_authority/detail.py:32-49 | the anchor loop yields exactly the links of the anchor-by-anchor specification, in order |
| GlwaDetail.AgendaBeforeNotAvailable | harambe_scrapers/extractor/det_great_lakes_water_authority/detail.py:40-45 | an anchor whose text mentions an agenda becomes an "Agenda" link to the Legistar site before the "Not available" test can skip it |
| GlwaDetail.LinksFromAnchors | harambe_scrapers/extractor/det_great_lakes_water_authority/detail.py:32-49 | every link comes from one of the anchors and points into the Legistar site, and there are never more links than anchors |
| GlwaDetail.LinksKeepAll | harambe_scrapers/extractor/det_great_lakes_water_authority/detail.py:32-49 | when no anchor reads "Not available", each anchor gives exactly one link, in order |
| GlwaDetail.AddressNeverBareVirtual | harambe_scrapers/extractor/det_great_lakes_water_authority/detail.py:149-154 | the agenda page's address never yields a virtual location without Zoom: the branch for it cannot be reached |
| GlwaDetail.VenueZoomFirst | harambe_scrapers/extractor/det_great_lakes_water_authority/detail.py:169-170 | a venue address mentioning zoom makes the meeting virtual on Zoom, whatever the venue's name |
| GlwaDetail.VenueNamed | harambe_scrapers/extractor/det_great_lakes_water_authority/detail.py:171-172 | a named venue with a non-Zoom address is the location, whatever the description says |
| GlwaDetail.AgendaLocation | harambe_scrapers/extractor/det_great_lakes_water_authority/detail.py:133-167 | on the agenda path the location is Virtual on Zoom exactly when the description mentions zoom, none otherwise, and there is at least one link |
| GlwaDetail.AgendaIgnoresAddress | harambe_scrapers/extractor/det_great_lakes_water_authority/detail.py:143-161 | on the agenda path neither the agenda page's address nor the venue affects the links or the location |
| GlwaDetail.AgendaFallback | harambe_scrapers/extractor/det_great_lakes_water_authority/detail.py:138-163 | a single "Agenda" link to the anchor's target stands in when the link table times out or yields no link; otherwise the table's links are kept |
| GlwaDetail.ReadResources | harambe_scrapers/extractor/det_great_lakes_water_authority/detail.py:131-176 | the branch chain as written, with its reassignments, computes exactly the links and location of the resource specification |
| GlwaDetail.Extract | harambe_scrapers/extractor/det_great_lakes_water_authority/detail.py:101-191 | the page fails, in the scraper's order, on the schedule wait, a missing description, an unreadable schedule and a missing title; otherwise the meeting has the page's title, a description only when it is non-empty, the classification of title, description and URL, both times localised, no time notes and no all-day flag, and it is cancelled exactly when the title mentions a cancellation |
| GlwaDetail.Record | harambe_scrapers/extractor/det_great_lakes_water_authority/detail.py:178-191 | a record always has a start and an end, each a full ISO timestamp with its offset |
| GlwaDetail.StartAlwaysSet | harambe_scrapers/extractor/det_great_lakes_water_authority/detail.py:178-191 | every saved meeting has a start and an end on the same calendar day |
| GlwaDetail.PageReadsBack | harambe_scrapers/extractor/det_great_lakes_water_authority/detail.py:101-192 | a page with a title, a description, no agenda anchor and a schedule written "%B %d, %Y @ %I:%M %p - %I:%M %p", reached through a URL ending in the schedule's year, saves the meeting at those times, to the minute, with no links and no location |
| GlwaDetail.Scrape | harambe_scrapers/extractor/det_great_lakes_water_authority/detail.py:101-192 | the record is saved exactly when the page yields one, and an error leaves the saved data as it was |
| Observers.BlobPathParts | harambe_scrapers/observers.py:76-81 | the blob path splits at "/" into the year, the two-digit month and day, the four-digit hour and minute, and the scraper's file name |
| Observers.BlobContainer.AppendLine | harambe_scrapers/observers.py:84-90 | the blob at the path becomes its old text followed by the line, or the line alone when the blob did not exist; no other blob changes |
| Observers.AppendedText | harambe_scrapers/observers.py:86-90 | the new blob text is the old text followed by the line, or the line alone for a new blob |
| Observers.AppendedTwice | harambe_scrapers/observers.py:84-90 | two lines appended one after the other leave the blob as if their concatenation had been appended once |
| Observers.DataCollector.constructor | harambe_scrapers/observers.py:35-39 | a new collector has the scraper's name, no data, and the client given, none without credentials |
| Observers.DataCollector.OnSaveData | harambe_scrapers/observers.py:65-90 | the record is kept at the end of the data and, with a client, its JSON line is appended to the blob of the minute the clock shows for this upload, the `k`-th saved record reading the clock at `k` |
| Observers.BlobPathMinute | harambe_scrapers/observers.py:76-81 | two uploads share a blob exactly when the clock shows the same year, month, day, hour and minute for both |
| Observers.UploadsAt | harambe_scrapers/observers.py:73-90 | after a run of uploads each blob holds its old text followed by the JSON lines of exactly the records uploaded to it, in save order, and it exists exactly when it did before or some record went to it |
| Observers.UploadsAppend | harambe_scrapers/observers.py:73-90 | uploading two runs of records one after the other is uploading them together |

## Left out

- Browser and network plumbing is not modelled: Playwright navigation, `wait_for_selector` waits, CSS and XPath queries, HTTP requests, `SDK.run` and the `__main__` blocks. A page is the tuple of texts and attributes its selectors return. A wait that times out is an error value or a flag on the page.
- Text.IsSpace, Text.IsDigit, Text.IsWordChar, Text.Lower and Text.Upper are ASCII-only, while Python's `strip()`, `\s`, `\d`, `\w`, `lower()` and `upper()` are Unicode-aware. Example: `Brownfield.Trim(" –Agenda\u00a0")` keeps the trailing no-break space, which `.strip("–").strip()` at city_scrapers/spiders/det_brownfield_redevelopment_authority.py:38 removes. Characters outside ASCII pass through every text operation unchanged.
- `dateutil.parser.parse` is not modelled. It is the parameter `dateparse`, `parse`, `dateOf` or `timeOf`, which gives `None` where the parser raises.
- `urljoin` and `response.urljoin` are the parameter `join`.
- MD5 is not modelled: `generate_ocd_id` takes the 32-hex digest as a parameter. As a result, "different ids give different OCD ids" cannot be stated.
- `json.dumps` is the parameter `dumps`.
- The tz database is not modelled. `zone` gives the America/Detroit offset at a wall-clock time, -300 or -240 minutes.
- The wall clock (`datetime.now()`) is never read. The current year, today, `now` and the formatted current time are parameters. The time each upload reads (harambe_scrapers/observers.py:76) is `clock(k)` for the `k`-th record the collector saves, so a run that crosses a minute spreads its records over several blobs.
- PoliceFireRetirement.Meeting has no `updated_at` field. The source stamps it with `datetime.now()` (harambe_scrapers/det_police_fire_retirement.py:238), and the wall clock is not read.
- Timezone.FromIsoFormat: narrower than `datetime.fromisoformat`, since it rejects date-only text, "HH:MM" times and fractional seconds. Its only callers in the model (harambe_scrapers/det_police_fire_retirement.py:45 and :68) pass the output of `change_timezone`, which always has full seconds and an offset, so the narrowing is never reached there.
- The JSON-LD reading of `_next_meetings` (city_scrapers/mixins/det_authority.py:29-48) is not modelled: the script extraction, the tag stripping, `json.loads` and `datetime.fromisoformat(event["startDate"])`. An upcoming meeting enters the model with its start already read, and Authority.NextLinks and Authority.EventLinks take it from there.
- WayneListing.Scrape takes one `stamp` for every content lookup of a run, while the source formats `datetime.now()` anew for each item (harambe_scrapers/extractor/wayne_commission/listing.py:174-177). Lookups within one run that straddle a second can carry different times in the source.
- Stages.Dedup states `list(set(urls))` as "no duplicates, same elements". The order Python's set gives is not modelled, so the GLWA and police `run_listing_stage` and everything after them hold for any order.
- `create_ocd_event` in harambe_scrapers/utils.py is not part of this model. An OCD event is the record of the arguments the orchestrator hands to it.
- `_get_status` and `_get_id` of the scraper framework are not part of this model. Only RetirementMixin meetings carry the text `_get_status` would be given (`statusText`).
- WayneElection, MiRedistricting and the Authority upcoming events drop the text their spiders give `_get_status`, so a cancellation read from that text is not modelled for them:
  - WayneElection.Meeting has no field for the joined row text (city_scrapers/spiders/wayne_election_commission.py:43).
  - MiRedistricting.Meeting has no field for the date line and detail (city_scrapers/spiders/mi_redistricting_commission.py:94).
  - Authority.Event has no `name`, which city_scrapers/mixins/det_authority.py:47 passes to `_get_status`.
- The `DetCityMixin` and `LegistarSpider` base classes are not part of this model. The spiders built on them are modelled through their own overrides.
- CharterReview: `start_urls` (the Google Calendar request URL with its time window) is not modelled. Neither is the plumbing that reads `data["items"]` from the response or sets `status` through `_get_status`. The model starts from the decoded event list.
- The listing scraper of the Great Lakes Water Authority (harambe_scrapers/extractor/det_great_lakes_water_authority/listing.py) is not part of this model. What a month page enqueues is the function `listing`.
- Only the listing scraper of the Detroit Police Department is under harambe_scrapers/extractor/det_police_department/. The orchestrator imports its category and detail scrapers from there, and the ones in harambe_scrapers/det_police_department/ stand in for them.
- PoliceDepartment.Orchestrator.RunDetailStage never records a failed URL. Every step of `fallback_extraction` sits in its own `try`, so the fallback cannot raise, and the `failed_urls` branch is unreachable in the model.
- RegionalConvention.Spider.Parse states the meetings yielded and the exception that stops the loop, but not the value `_ignore` holds afterwards. Each item's own `_ignore` reset and test are modelled inside RegionalConvention.Spider.ParseItem.
- Output files, `print` logging, environment-variable reads and Azure client construction are not modelled. Blob storage is a map from path to text, and a collector with no client is one whose `container` is `null`.
- Concurrency is not modelled: `async` steps run in program order.
- `strptime` covers only the directives `%B %A %d %m %Y %y %H %I %M %S %p`. A one-or-two-digit field takes as many digits as are present, which matches Python's regular expression for every format used here.
- `re` covers only concatenations of repeated character classes (and literal alternations written as disjunctions), which is what the patterns used need.

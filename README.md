# Ma Zone events: a Dafny model

This project models the core of a small Next.js application. The application lists
Ticketmaster events near a place, filters them, and shows them on a map. The card and the map popup write the event to session
storage before following their detail link. The repository also has a detail component,
`EventDetailClient`, which shows the stored event at once and then fetches fresh details.
No file of this model mounts that component: the detail link is served by
`app/event/[source]/[id]/page.tsx`, and that page is not part of this model. The
code that decides what the user sees is modelled in Dafny and its properties are proved.
That code covers:
- turning the provider payload into events;
- choosing an image;
- building the category list;
- filtering;
- the French date label;
- the card's price label and its provider resolution;
- the handoff key written to session storage;
- the map's markers and focus;
- the loading state machines of the list and of `EventDetailClient`;
- the events API route that builds the upstream request.

The modules follow the source files:

| module | file | models |
|---|---|---|
| `Wrappers` | wrappers.dfy | `Option`; JavaScript's `x \|\| ""` on optional strings |
| `Seqs` | seqs.dfy | `Array.prototype.filter` and subsequences |
| `Text` | text.dfy | `trim`, `toLowerCase`, `includes`, `join`, string `<`, number to string |
| `Events` | events.dfy | the shared `Event` record |
| `Storage` | storage.dfy | `sessionStorage` as a map from keys to stored events |
| `DateFormat` | date.dfy | `app/lib/date.ts` |
| `Home` | page.dfy | `app/page.tsx` |
| `Card` | card.dfy | `app/components/EventCard.tsx` |
| `EventMap` | map.dfy | `app/components/Map/Map.tsx` |
| `Detail` | detail.dfy | `app/event/components/EventDetailClient.tsx` |
| `EventsApi` | route.dfy | `app/api/events/route.ts` |
| `Handoff` | handoff.dfy | properties that span the files above |

Pure code is modelled as datatypes, functions and lemmas. The objects updated in place
become classes whose methods are proved against a pure step function:
- the React state of the two loaders;
- session storage;
- the marker registry;
- the `URLSearchParams` object.

The step functions carry the lemmas.

A JavaScript `undefined` or empty optional string is the empty string here. An optional
number or URL is an `Option`. Coordinates are `real`. I/O is passed in as parameters:
`fetch` results, storage failures, the presence of the API key, and marker refs.

## Model

| member | source | states |
|---|---|---|
| Home.PickBestImageSpec | app/page.tsx:20-29 | the image is "" exactly when the list is absent or no image has a URL; otherwise it is the URL of the first image of greatest width among those with a URL (the stable sort keeps the earlier of equal widths) |
| Home.PickBestImage | app/page.tsx:20-29 | `pickBestImage`; characterised by PickBestImageSpec, SortedHeadIsFirstWidest and PickBestImageExample |
| Home.SortedHeadIsFirstWidest | app/page.tsx:24-28 | after filtering images with a URL and sorting by width descending, the head is the first widest image of the input |
| Home.PickBestImageExample | app/page.tsx:20-29 | widths 100, 400 and a URL-less 900 give the URL of the 400-wide image |
| Home.SortByWidth | app/page.tsx:26 | the sort is a permutation of its input, each image at least as wide as the next |
| Home.SortByWidthOrdered | app/page.tsx:26 | in the sorted images, every image is at least as wide as any later one |
| Home.NormalizeItem | app/page.tsx:62-78 | id and title are copied, `price` is null, `source`/`sourceId`/`url` are unset, and the image is the best image; each present info, date, time, first-venue field and first segment name is copied, and each absent one (the field itself or its container) becomes "" or 0 |
| Home.MapEvents | app/page.tsx:61-78 | one event per upstream item in the same order; an absent `_embedded.events` gives no events |
| Home.Dedup | app/page.tsx:95-97 | the deduplicated list has no repeats and the same members |
| Home.SortStringsSorted | app/page.tsx:98 | sorting a list with no repeats gives a strictly increasing list in string order |
| Home.CategoriesSpec | app/page.tsx:94-99 | the list starts with "ALL"; the rest is strictly sorted and holds exactly the non-empty categories of the events |
| Home.Categories | app/page.tsx:94-99 | the `categories` memo; characterised by CategoriesSpec |
| Home.FilterEvents | app/page.tsx:101-127 | the result is a subsequence of the events; it keeps exactly the events matching every criterion, with their multiplicities |
| Home.FilteredEventsSatisfyClauses | app/page.tsx:104-123 | a kept event passes each clause: it has the category, is free or unpriced when `freeOnly` is set, has a date inside the bounds, and contains the query in its haystack |
| Home.MatchingEventKept | app/page.tsx:101-127 | an event that matches every criterion is kept |
| Home.FilterEventsIdempotent | app/page.tsx:101-127 | filtering twice with the same criteria is filtering once |
| Home.BlankQueryMatchesAll | app/page.tsx:102-104 | a query made only of white space does not filter |
| Home.QueryIgnoresCase | app/page.tsx:102 | two queries that agree after lower-casing are the same normalized query |
| Home.QueryInFieldMatches | app/page.tsx:105-115 | a query occurring in the lower-cased text of one non-empty search field matches |
| Home.NeutralCriteriaKeepAll | app/page.tsx:101-127 | the initial criteria (blank query, "ALL", not free-only, no dates) keep every event |
| Home.ListErrorMessage | app/page.tsx:57-58 | the message is never empty: the API's `error`, else "API error" for a non-ok response, else the thrown message or "Erreur inconnue" |
| Home.ListCompleteSpec | app/page.tsx:48-92 | after a live run settles the view is not loading; success shows exactly the mapped payload; failure keeps the events and sets a non-empty error; an unmounted view does not change |
| Home.StaleCompletionIgnored | app/page.tsx:48-92 | after a country switch, the previous run's response changes nothing and the new run is loading with no error |
| Home.ListComplete | app/page.tsx:56-85 | the state after a run's request settles; characterised by ListCompleteSpec and StaleCompletionIgnored |
| Home.ListRestart | app/page.tsx:49-55 | a new run for a new country; characterised by StaleCompletionIgnored |
| Home.ListLoader.Complete | app/page.tsx:51-86 | the loader's fields change as the step function says |
| Home.ListLoader.Restart | app/page.tsx:49-55 | a new run starts: loading with no error, and the old run is cancelled |
| Home.ListLoader.Unmount | app/page.tsx:89-91 | the cleanup on unmount: only the unmounted flag changes, so by ListCompleteSpec every later completion is ignored |
| Home.SelectionOf | app/page.tsx:129-135 | the selection carries the event's id and its latitude and longitude |
| DateFormat.FormatIsoDate | app/lib/date.ts:5-8 | a `YYYY-MM-DD` date becomes `DD-MM-YYYY` |
| DateFormat.FormatOtherDate | app/lib/date.ts:4-8 | any other date is shown unchanged |
| DateFormat.FormatDateRoundTrip | app/lib/date.ts:5-8 | reformatting an ISO date is undone by reading `DD-MM-YYYY` back |
| DateFormat.FormatTimeCases | app/lib/date.ts:10-13 | `HH:MM` gains `:00`, and any other time is unchanged |
| DateFormat.NothingToFormat | app/lib/date.ts:2 | no date and no time give "" |
| DateFormat.DateAndTime | app/lib/date.ts:15-17 | with both parts non-empty, the label is the date, " à ", then the time |
| DateFormat.OnlyOnePart | app/lib/date.ts:19 | with one part empty, the label is the other formatted part |
| DateFormat.LabelContainsParts | app/lib/date.ts:1-20 | the label contains each formatted part |
| DateFormat.SampleLabel | app/lib/date.ts:1-20 | "2026-03-12" and "20:00" give "12-03-2026 à 20:00:00" |
| DateFormat.FormatFrenchDateTime | app/lib/date.ts:1-20 | `formatFrenchDateTime`; characterised by NothingToFormat, DateAndTime, OnlyOnePart, LabelContainsParts, FormatIsoDate, FormatOtherDate and FormatTimeCases |
| Card.ResolveSource | app/components/EventCard.tsx:21-27 | an explicit source wins; otherwise the result is ticketmaster or eventbrite, and it is eventbrite exactly when the id starts with `eb_` |
| Card.ResolveSourceId | app/components/EventCard.tsx:28 | an explicit source id wins; otherwise the result is the id, minus `tm_` or `eb_` when it starts with one |
| Card.StripOnlyOnePrefix | app/components/EventCard.tsx:28 | only one anchored prefix is removed: `tm_eb_x` gives `eb_x` |
| Card.PrefixedIdRoundTrip | app/components/EventCard.tsx:21-28 | an id built as a provider prefix plus `s` resolves to that provider and `s` |
| Card.CacheKeyRoundTrip | app/components/EventCard.tsx:29 | the handoff key can be read back into its provider and its provider id |
| Card.CacheKeyInjective | app/components/EventCard.tsx:29 | distinct targets get distinct handoff keys |
| Card.DetailCacheKey | app/components/EventCard.tsx:29 | `ma-zone:event:<source>:<sourceId>`; characterised by CacheKeyRoundTrip and CacheKeyInjective |
| Card.DetailHref | app/components/EventCard.tsx:103 | `/event/<source>/<sourceId>`; characterised by Handoff.HrefSegments |
| Card.AddressLine | app/components/EventCard.tsx:90 | the address line is the empty parts dropped, then ", " between the rest |
| Card.PriceLabel | app/components/EventCard.tsx:94-98 | null gives the box-office label, 0 gives "Gratuit", and any other price gives its digits and " EUR" |
| Card.PriceLabelInjective | app/components/EventCard.tsx:94-98 | different prices get different labels |
| Card.OpenDetail | app/components/EventCard.tsx:103-116 | a write stores the event under its handoff key; a failed write leaves storage as it was |
| EventMap.MarkedEvents | app/components/Map/Map.tsx:117-118 | markers are drawn exactly for the events with non-zero coordinates, in order, each as often as it occurs |
| EventMap.MarkerIcon | app/components/Map/Map.tsx:135 | the marker's icon; characterised by ActiveMarkers and SelectedCardMarkerActive |
| EventMap.ActiveMarkers | app/components/Map/Map.tsx:135 | a marker is active exactly when a selection exists and has its id |
| EventMap.SelectedCardMarkerActive | app/components/Map/Map.tsx:135 | selecting an event from the list activates its marker and no marker with another id |
| EventMap.FocusFor | app/components/Map/Map.tsx:48-59 | no selection: nothing happens; otherwise the map flies to the coordinates at zoom 15 and opens the recorded marker if there is one |
| EventMap.FocusOpensRecordedMarker | app/components/Map/Map.tsx:48-59 | after an event's marker is recorded, selecting the event opens that marker |
| EventMap.MarkerRegistry.Record | app/components/Map/Map.tsx:136-138 | a mounted marker is recorded under its event id; a null ref changes nothing |
| EventMap.MarkerLink | app/components/Map/Map.tsx:120-129 | the popup's own copy uses the card's key and link for every event |
| EventMap.PopupSchedule | app/components/Map/Map.tsx:152 | the popup shows the raw date, " a ", then the raw time; its partner is PopupDiffersFromCard |
| EventMap.PopupDiffersFromCard | app/components/Map/Map.tsx:152 | for every ISO date and `HH:MM` time, the popup text (18 characters) differs from the card's label (21 characters) |
| EventMap.PopupSample | app/components/Map/Map.tsx:152 | "2026-03-12" and "20:00" give "2026-03-12 a 20:00" in the popup and "12-03-2026 à 20:00:00" on the card |
| EventMap.OpenDetail | app/components/Map/Map.tsx:160-172 | the popup link writes the same handoff entry as the card |
| Storage.ReadEvent | app/event/components/EventDetailClient.tsx:57-63 | a read gives an event exactly when it is not failing, the key is present and the value parses |
| Storage.SessionStore.SetEvent | app/components/EventCard.tsx:106-115 | `setItem`: a successful write stores the event under the key and leaves every other key as it was; a failed write changes nothing (also Map.tsx:164-171) |
| Detail.SeedResponse | app/event/components/EventDetailClient.tsx:65-88 | the seed has the requested source, no error, the cached event as raw, one image or none, and empty status and timezone; the venue comes from the event |
| Detail.SeedKeepsListFields | app/event/components/EventDetailClient.tsx:68-76 | the seed keeps the title, description, URL, date, time and ids of the cached event |
| Detail.FetchErrorMessage | app/event/components/EventDetailClient.tsx:99-110 | the error shown for a failed fetch is never empty: the response's `error` when set, else "Impossible de charger les details." for a response, else the thrown message or "Erreur inconnue" |
| Detail.SeedEvent | app/event/components/EventDetailClient.tsx:57-63 | the cache read finds a seed exactly when the storage read gives an event, and the seed is that event |
| Detail.SeedReadNeverErrs | app/event/components/EventDetailClient.tsx:58-63 | the cache read never sets an error; a failing read changes nothing |
| Detail.Step | app/event/components/EventDetailClient.tsx:52-118 | one transition of `load`; characterised by CancelledIsFinal, SeedReadNeverErrs, SeedShownImmediately, FetchSupersedesSeed, FailureReplacesSeed and SettledRunNotLoading |
| Detail.CancelledIsFinal | app/event/components/EventDetailClient.tsx:103-118 | after cleanup, no input changes the state |
| Detail.Render | app/event/components/EventDetailClient.tsx:124-147 | loading shows the loading view; otherwise a set error shows that error; otherwise data with a detail shows the detail view, and missing data or detail shows "Impossible de charger les details." |
| Detail.SeedShownImmediately | app/event/components/EventDetailClient.tsx:65-91 | a seed found in the cache is shown before the fetch settles |
| Detail.FetchSupersedesSeed | app/event/components/EventDetailClient.tsx:99-106 | any ok response without an error replaces the seed, or the empty view; it renders its detail, or the default error when it has none |
| Detail.FailureReplacesSeed | app/event/components/EventDetailClient.tsx:99-111 | a failed fetch after a seed keeps the seed data and shows the error view |
| Detail.SettledRunNotLoading | app/event/components/EventDetailClient.tsx:52-113 | a run that is not cancelled stops loading once its fetch settles, whatever came before |
| Detail.DetailLoader.ReadSeed | app/event/components/EventDetailClient.tsx:57-91 | the loader's fields change as the step function says for the cache read |
| Detail.DetailLoader.FetchSettled | app/event/components/EventDetailClient.tsx:93-112 | the loader's fields change as the step function says for the fetch |
| Detail.DetailLoader.Cancel | app/event/components/EventDetailClient.tsx:116-118 | the effect's cleanup: the state becomes Step on Cancel, which by CancelledIsFinal freezes it |
| EventsApi.GetParam | app/api/events/route.ts:13-17 | `get` returns a value exactly when the name occurs, and then the value of its first occurrence |
| EventsApi.SetParamThenGet | app/api/events/route.ts:28 | after `set`, `get` of that name gives the new value and every other name is unchanged |
| EventsApi.SetParamSingleEntry | app/api/events/route.ts:28 | after `set`, exactly one entry has that name |
| EventsApi.SetAbsentAppends | app/api/events/route.ts:28 | setting an absent name appends it |
| EventsApi.SetParam | app/api/events/route.ts:28 | `URLSearchParams.set`; characterised by SetParamThenGet, SetParamSingleEntry and SetAbsentAppends |
| EventsApi.SearchParams.Set | app/api/events/route.ts:28 | the object's entries become SetParam of the old entries |
| EventsApi.ParamOr | app/api/events/route.ts:13-17 | an absent or empty parameter takes its default; otherwise its value is kept |
| EventsApi.CountryCodeNonEmpty | app/api/events/route.ts:13-29 | after defaulting, the country code is never empty, so the `countryCode &&` test never fails |
| EventsApi.UpstreamNames | app/api/events/route.ts:19-25 | the upstream parameters begin with apikey, latlong, radius, size and locale, in that order |
| EventsApi.UpstreamParams | app/api/events/route.ts:19-29 | the five base parameters come first, then `countryCode` unless it is "ALL" |
| EventsApi.CountryCodeSentUnlessAll | app/api/events/route.ts:27-29 | `countryCode` is sent exactly when it is not "ALL", with its defaulted value |
| EventsApi.EmptyQueryDefaults | app/api/events/route.ts:13-29 | an empty query sends FR, "48.8566,2.3522", "200", "200" and "fr-fr" |
| EventsApi.FromUpstream | app/api/events/route.ts:33-44 | a non-ok reply gives its own status and `{error: "Ticketmaster API error", status, details}`; an ok JSON reply passes through with 200 |
| EventsApi.StatusPassthrough | app/api/events/route.ts:34-44 | the response status is the upstream status when not ok, else 200 |
| EventsApi.HandleGet | app/api/events/route.ts:3-45 | a missing or empty key gives 500 "Missing Ticketmaster API key" and no request; otherwise the request is the parameter list above and the response comes from the reply |
| Handoff.ReadKeyIsCardKey | app/event/components/EventDetailClient.tsx:47 | the detail view reads the key the card writes |
| Handoff.ListedEventTarget | app/page.tsx:62-78 | a listed Ticketmaster item links to ticketmaster and its id, or to the prefix's provider and the id without the prefix |
| Handoff.ClickThenOpenFindsSeed | app/components/EventCard.tsx:103-116 | after a card click, the detail view on the card's target finds the clicked event and shows it at once |
| Handoff.ClickThenLoad | app/event/components/EventDetailClient.tsx:47-91 | the card's write, then the detail loader's cache read, show the clicked event |
| Handoff.FailedWriteWaitsForFetch | app/event/components/EventDetailClient.tsx:57-91 | without a stored entry, the view keeps loading until the fetch settles |
| Handoff.HrefSegments | app/components/EventCard.tsx:103 | the detail link splits back into its source and id segments |
| Handoff.CountryChoiceReachesUpstream | app/page.tsx:55 | the home page's country reaches the route as is; "ALL" sends no `countryCode` upstream |
| Text.TrimEmpty | app/page.tsx:102 | trimming gives "" exactly when the text is all white space |
| Text.TrimLower | app/page.tsx:102 | trimming and lower-casing commute |
| Text.JoinContainsPart | app/page.tsx:105-114 | every part occurs in the joined text |
| Text.LexLessTransitive | app/page.tsx:98 | string order is transitive |
| Text.LexLessTotal | app/page.tsx:98 | two distinct strings are ordered one way or the other |
| Text.IntToStringInjective | app/components/EventCard.tsx:98 | distinct numbers print differently |
| Text.NatToStringRoundTrip | app/components/EventCard.tsx:98 | reading a printed number's digits gives the number back |
| Seqs.FilterMultiset | app/page.tsx:103 | `filter` keeps each matching element as often as it occurs and drops the rest |
| Seqs.FilterIsSubsequence | app/page.tsx:103 | `filter` keeps the order |

## Left out

- Rendering, styling, the favourite button, Leaflet and the tile layer are not modelled. Only the values the views compute are.
- Geolocation and the `isClient`/`position` states of the map (Map.tsx:71-105) are not modelled. The map's center does not affect any value modelled here.
- `parseFloat` and JavaScript numbers are not modelled. A coordinate is an optional `real`, and a missing or unparseable one is 0. NaN is not modelled.
- Width and price are integers.
- Only ASCII is modelled. `toLowerCase` lower-cases A-Z. `trim` removes space, tab, line feed, vertical tab, form feed and carriage return, not the non-ASCII white space. String order compares characters, not UTF-16 code units.
- JSON parsing and serialization are not modelled. Storage holds events, or an entry that does not parse. An upstream body is either JSON text or not JSON.
- URL encoding is not modelled (`encodeURIComponent` and `URLSearchParams.toString`). The upstream request is its endpoint plus its ordered parameters.
- The detail route's parameter parsing is not modelled. `app/api/events/[source]/[id]/route.ts` and `app/event/[source]/[id]/page.tsx` are not part of this model. The detail responses they produce are inputs.
- `app/sitemap.ts`, `EventList` and `MapClient` are not part of this model. `app/types/event.ts` holds only the `Event` record, which events.dfy models. Its `source` union is a string here, with "" for an unset source.
- Handoff.ClickThenOpenFindsSeed, Handoff.ClickThenLoad and Handoff.FailedWriteWaitsForFetch describe `EventDetailClient`, not the page the detail link reaches. That page, `app/event/[source]/[id]/page.tsx`, also reads localStorage and never fetches; it is not part of this model.
- Detail.EventDetail: the provider-specific detail fields (organizer, price ranges, age restrictions, capacity, ...) are only displayed, so they are not modelled.
- Detail.Step: when `source` or `id` changes while the view is mounted, the effect runs again. The model covers one run per mounted view.
- Home.NormalizeItem: item ids and names that are not strings, and image entries that are `null`, are not modelled.
- The `typeof window` checks are not modelled. Everything here runs on the client.
- `setTimeout(scrollIntoView)` in `handleSelectEvent` (page.tsx:136-143) is not modelled.
- EventsApi.HandleGet: the 500 response the framework sends after an unhandled exception is framework-defined. It appears here as `Unhandled`.

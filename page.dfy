/**
 * The home page: normalization of the Ticketmaster discovery payload into `Event`s, the
 * category dropdown, the client-side filter, and the loading state of the list.
 */
module Home {
  import opened Wrappers
  import opened Events
  import opened Text
  import Seqs

  // ---------------------------------------------------------------------------------------
  // Raw Ticketmaster payload (only the fields the mapping reads)

  datatype RawImage = RawImage(url: Option<string>, width: Option<int>)
  datatype RawVenue = RawVenue(
    name: Option<string>,
    addressLine1: Option<string>,
    cityName: Option<string>,
    latitude: Option<real>,    // `parseFloat(location.latitude)`, None when absent or NaN
    longitude: Option<real>)
  datatype RawClassification = RawClassification(segmentName: Option<string>)
  datatype RawItem = RawItem(
    id: string,
    name: string,
    info: Option<string>,
    images: Option<seq<RawImage>>,    // None: `images` is not an array
    localDate: Option<string>,
    localTime: Option<string>,
    venues: seq<RawVenue>,
    classifications: seq<RawClassification>)
  /** The JSON body of `/api/events`: an error message, or the discovery payload. */
  datatype RawBody = RawBody(error: Option<string>, embeddedEvents: Option<seq<RawItem>>)

  // ---------------------------------------------------------------------------------------
  // pickBestImage

  predicate HasUrl(img: RawImage) {
    img.url.Some? && img.url.value != ""
  }

  /** `img.width || 0`. */
  function Width(img: RawImage): int {
    match img.width
    case Some(w) => w
    case None => 0
  }

  /** Inserts `x` before the first element that is not wider than it: the step of a stable
      sort by decreasing width, where earlier images win ties. */
  function InsertByWidth(x: RawImage, s: seq<RawImage>): (r: seq<RawImage>)
    ensures |r| == |s| + 1
    ensures forall y :: y in r <==> y == x || y in s
    ensures multiset(r) == multiset(s) + multiset{x}
    ensures r[0] == x || (s != [] && r[0] == s[0])
  {
    if s == [] || Width(x) >= Width(s[0]) then [x] + s
    else
      assert s == [s[0]] + s[1..];
      [s[0]] + InsertByWidth(x, s[1..])
  }

  /** Each image is at least as wide as the next. */
  predicate WidthDescending(s: seq<RawImage>)
    decreases |s|
  {
    |s| < 2 || (Width(s[0]) >= Width(s[1]) && WidthDescending(s[1..]))
  }

  /** In a list in decreasing width, every image is at least as wide as any later one. */
  lemma {:induction false} WidthDescendingPairwise(s: seq<RawImage>)
    requires WidthDescending(s)
    ensures forall i, j :: 0 <= i < j < |s| ==> Width(s[i]) >= Width(s[j])
    decreases |s|
  {
    if |s| >= 2 {
      WidthDescendingPairwise(s[1..]);
      forall i, j | 0 <= i < j < |s| ensures Width(s[i]) >= Width(s[j]) {
        assert s[j] == s[1..][j - 1];
        if i > 0 {
          assert s[i] == s[1..][i - 1];
        } else if j > 1 {
          assert s[1] == s[1..][0];
        }
      }
    }
  }

  /** Inserting into a list in decreasing width keeps it in decreasing width. */
  lemma {:induction false} InsertByWidthDescending(x: RawImage, s: seq<RawImage>)
    requires WidthDescending(s)
    ensures WidthDescending(InsertByWidth(x, s))
    decreases |s|
  {
    if s != [] && Width(x) < Width(s[0]) {
      var rest := InsertByWidth(x, s[1..]);
      InsertByWidthDescending(x, s[1..]);
      var r := [s[0]] + rest;
      assert r[1..] == rest;
      assert r[1] == rest[0];
      assert rest[0] == x || rest[0] == s[1];
    } else if s != [] {
      var r := [x] + s;
      assert r[1..] == s;
    }
  }

  /** `.sort((a, b) => (b.width || 0) - (a.width || 0))`, stable: a permutation of its input
      in decreasing width. */
  function SortByWidth(s: seq<RawImage>): (r: seq<RawImage>)
    ensures |r| == |s|
    ensures forall y :: y in r <==> y in s
    ensures multiset(r) == multiset(s)
    ensures WidthDescending(r)
  {
    if s == [] then []
    else
      assert s == [s[0]] + s[1..];
      InsertByWidthDescending(s[0], SortByWidth(s[1..]));
      InsertByWidth(s[0], SortByWidth(s[1..]))
  }

  /** The sorted images are in decreasing width pairwise. */
  lemma SortByWidthOrdered(s: seq<RawImage>)
    ensures var r := SortByWidth(s);
      forall i, j :: 0 <= i < j < |r| ==> Width(r[i]) >= Width(r[j])
  {
    WidthDescendingPairwise(SortByWidth(s));
  }

  function PickBestImage(images: Option<seq<RawImage>>): string {
    if images.None? || |images.value| == 0 then ""
    else
      var preferred := SortByWidth(Seqs.Filter(images.value, HasUrl));
      if preferred == [] then ""
      else
        assert preferred[0] in Seqs.Filter(images.value, HasUrl);
        preferred[0].url.value
  }

  /** `imgs[k]` is the first image of greatest width among those with a URL. */
  predicate IsFirstWidest(imgs: seq<RawImage>, k: int) {
    0 <= k < |imgs| && HasUrl(imgs[k]) &&
    (forall j :: 0 <= j < |imgs| && HasUrl(imgs[j]) ==> Width(imgs[j]) <= Width(imgs[k])) &&
    (forall j :: 0 <= j < k && HasUrl(imgs[j]) ==> Width(imgs[j]) < Width(imgs[k]))
  }

  lemma FirstWidestAtHead(imgs: seq<RawImage>, k': int)
    requires imgs != [] && HasUrl(imgs[0]) && IsFirstWidest(imgs[1..], k')
    requires Width(imgs[0]) >= Width(imgs[1..][k'])
    ensures IsFirstWidest(imgs, 0)
  {
    forall j | 0 < j < |imgs| && HasUrl(imgs[j]) ensures Width(imgs[j]) <= Width(imgs[0]) {
      assert imgs[j] == imgs[1..][j - 1];
    }
  }

  lemma FirstWidestShift(imgs: seq<RawImage>, k': int)
    requires imgs != [] && IsFirstWidest(imgs[1..], k')
    requires HasUrl(imgs[0]) ==> Width(imgs[0]) < Width(imgs[1..][k'])
    ensures IsFirstWidest(imgs, k' + 1)
  {
    assert imgs[k' + 1] == imgs[1..][k'];
    forall j | 0 < j < |imgs| ensures imgs[j] == imgs[1..][j - 1] {
    }
  }

  lemma FirstWidestAlone(imgs: seq<RawImage>)
    requires imgs != [] && HasUrl(imgs[0])
    requires forall j :: 0 < j < |imgs| ==> !HasUrl(imgs[j])
    ensures IsFirstWidest(imgs, 0)
  {
  }

  /** The head of the sorted list of images with a URL is the first widest of them. */
  lemma {:induction false} SortedHeadIsFirstWidest(imgs: seq<RawImage>)
    requires exists j :: 0 <= j < |imgs| && HasUrl(imgs[j])
    ensures SortByWidth(Seqs.Filter(imgs, HasUrl)) != []
    ensures exists k :: IsFirstWidest(imgs, k) && SortByWidth(Seqs.Filter(imgs, HasUrl))[0] == imgs[k]
  {
    var x, rest := imgs[0], imgs[1..];
    var f := Seqs.Filter(rest, HasUrl);
    var sortedRest := SortByWidth(f);
    assert HasUrl(x) ==> Seqs.Filter(imgs, HasUrl) == [x] + f;
    assert !HasUrl(x) ==> Seqs.Filter(imgs, HasUrl) == f;
    assert ([x] + f)[1..] == f;
    if exists j :: 0 <= j < |rest| && HasUrl(rest[j]) {
      SortedHeadIsFirstWidest(rest);
      var k' :| IsFirstWidest(rest, k') && sortedRest[0] == rest[k'];
      if HasUrl(x) && Width(x) >= Width(sortedRest[0]) {
        FirstWidestAtHead(imgs, k');
      } else {
        FirstWidestShift(imgs, k');
      }
    } else {
      assert forall j :: 0 < j < |imgs| ==> imgs[j] == rest[j - 1];
      Seqs.FilterNoneMatch(rest, HasUrl);
      FirstWidestAlone(imgs);
    }
  }

  /** No image: the result is "" exactly when `images` is not an array, is empty, or has no
      entry with a URL. Otherwise it is the URL of the first image of greatest width. */
  lemma PickBestImageSpec(images: Option<seq<RawImage>>)
    ensures PickBestImage(images) == "" <==>
      images.None? || forall j :: 0 <= j < |images.value| ==> !HasUrl(images.value[j])
    ensures PickBestImage(images) != "" ==>
      exists k :: IsFirstWidest(images.value, k) && PickBestImage(images) == images.value[k].url.value
  {
    if images.Some? {
      var imgs := images.value;
      if exists j :: 0 <= j < |imgs| && HasUrl(imgs[j]) {
        SortedHeadIsFirstWidest(imgs);
      } else {
        Seqs.FilterNoneMatch(imgs, HasUrl);
      }
    }
  }

  /** The example of the image selection policy: the URL-less 900px image is skipped. */
  lemma PickBestImageExample()
    ensures PickBestImage(Some([RawImage(Some("a"), Some(100)), RawImage(Some("b"), Some(400)),
                                RawImage(None, Some(900))])) == "b"
  {
    var imgs := [RawImage(Some("a"), Some(100)), RawImage(Some("b"), Some(400)), RawImage(None, Some(900))];
    PickBestImageSpec(Some(imgs));
    var k :| IsFirstWidest(imgs, k) && PickBestImage(Some(imgs)) == imgs[k].url.value;
    assert k == 1;
  }

  // ---------------------------------------------------------------------------------------
  // The raw item -> Event mapping of `load`

  /** `parseFloat(x) || 0`. */
  function CoordinateOrZero(c: Option<real>): real {
    match c
    case Some(v) => v
    case None => 0.0
  }

  function NormalizeItem(item: RawItem): (e: Event)
    ensures e.id == item.id && e.title == item.name
    ensures e.source == "" && e.sourceId == "" && e.url.None? && e.price.None?
    ensures e.image == PickBestImage(item.images)
    ensures e.description == if item.info.Some? then item.info.value else ""
    ensures e.date == if item.localDate.Some? then item.localDate.value else ""
    ensures e.time == if item.localTime.Some? then item.localTime.value else ""
    ensures item.venues == [] ==>
      e.locationName == "" && e.address == "" && e.city == "" && e.latitude == 0.0 && e.longitude == 0.0
    ensures item.venues != [] ==>
      var v := item.venues[0];
      e.locationName == (if v.name.Some? then v.name.value else "") &&
      e.address == (if v.addressLine1.Some? then v.addressLine1.value else "") &&
      e.city == (if v.cityName.Some? then v.cityName.value else "") &&
      e.latitude == (if v.latitude.Some? then v.latitude.value else 0.0) &&
      e.longitude == (if v.longitude.Some? then v.longitude.value else 0.0)
    ensures e.category ==
      if item.classifications != [] && item.classifications[0].segmentName.Some? then
        item.classifications[0].segmentName.value
      else ""
  {
    var venue: Option<RawVenue> := if item.venues == [] then None else Some(item.venues[0]);
    Event(
      id := item.id,
      source := "",
      sourceId := "",
      title := item.name,
      description := OrEmpty(item.info),
      image := PickBestImage(item.images),
      url := None,
      date := OrEmpty(item.localDate),
      time := OrEmpty(item.localTime),
      locationName := if venue.None? then "" else OrEmpty(venue.value.name),
      address := if venue.None? then "" else OrEmpty(venue.value.addressLine1),
      city := if venue.None? then "" else OrEmpty(venue.value.cityName),
      latitude := if venue.None? then 0.0 else CoordinateOrZero(venue.value.latitude),
      longitude := if venue.None? then 0.0 else CoordinateOrZero(venue.value.longitude),
      price := None,
      category := if item.classifications == [] then "" else OrEmpty(item.classifications[0].segmentName))
  }

  /** `data?._embedded?.events || []`. */
  function ItemsOf(body: Option<RawBody>): seq<RawItem> {
    if body.Some? && body.value.embeddedEvents.Some? then body.value.embeddedEvents.value else []
  }

  /** One event per raw item, in the same order; none when the payload has no events. */
  function MapEvents(body: Option<RawBody>): (r: seq<Event>)
    ensures |r| == |ItemsOf(body)|
    ensures forall i :: 0 <= i < |r| ==> r[i] == NormalizeItem(ItemsOf(body)[i])
    ensures (body.None? || body.value.embeddedEvents.None?) ==> r == []
  {
    var items := ItemsOf(body);
    seq(|items|, i requires 0 <= i < |items| => NormalizeItem(items[i]))
  }

  // ---------------------------------------------------------------------------------------
  // categories

  const AllCategories := "ALL"

  predicate Distinct(s: seq<string>) {
    forall i, j :: 0 <= i < j < |s| ==> s[i] != s[j]
  }

  predicate StrictlySorted(s: seq<string>) {
    forall i, j :: 0 <= i < j < |s| ==> LexLess(s[i], s[j])
  }

  /** `Array.from(new Set(values))`: the first occurrence of each value, in order. */
  function Dedup(s: seq<string>): (r: seq<string>)
    ensures Distinct(r)
    ensures forall x :: x in r <==> x in s
  {
    if s == [] then []
    else
      var init := Dedup(s[..|s| - 1]);
      assert forall x :: x in s <==> x in s[..|s| - 1] || x == s[|s| - 1] by {
        assert s == s[..|s| - 1] + [s[|s| - 1]];
      }
      if s[|s| - 1] in s[..|s| - 1] then init else init + [s[|s| - 1]]
  }

  /** The insertion step of `.sort()` on strings. */
  function InsertString(x: string, s: seq<string>): (r: seq<string>)
    ensures |r| == |s| + 1
    ensures forall y :: y in r <==> y == x || y in s
  {
    if s == [] || !LexLess(s[0], x) then [x] + s else [s[0]] + InsertString(x, s[1..])
  }

  function SortStrings(s: seq<string>): (r: seq<string>)
    ensures |r| == |s|
    ensures forall y :: y in r <==> y in s
  {
    if s == [] then [] else InsertString(s[0], SortStrings(s[1..]))
  }

  lemma {:induction false} InsertStringSorted(x: string, s: seq<string>)
    requires StrictlySorted(s) && x !in s
    ensures StrictlySorted(InsertString(x, s))
  {
    if s == [] {
    } else if !LexLess(s[0], x) {
      LexLessTotal(x, s[0]);
      forall j | 0 <= j < |s| ensures LexLess(x, s[j]) {
        if j > 0 {
          LexLessTransitive(x, s[0], s[j]);
        }
      }
      var r := [x] + s;
      assert forall j :: 0 < j < |r| ==> r[j] == s[j - 1];
    } else {
      var rest := InsertString(x, s[1..]);
      InsertStringSorted(x, s[1..]);
      forall y | y in rest ensures LexLess(s[0], y) {
        if y != x {
          var j :| 0 <= j < |s[1..]| && s[1..][j] == y;
          assert s[j + 1] == y;
        }
      }
      var r := [s[0]] + rest;
      forall i, j | 0 <= i < j < |r| ensures LexLess(r[i], r[j]) {
        if i == 0 {
          assert r[j] == rest[j - 1] && rest[j - 1] in rest;
        } else {
          assert r[i] == rest[i - 1] && r[j] == rest[j - 1];
        }
      }
    }
  }

  lemma {:induction false} SortStringsSorted(s: seq<string>)
    requires Distinct(s)
    ensures StrictlySorted(SortStrings(s))
  {
    if s != [] {
      assert Distinct(s[1..]) by {
        forall i, j | 0 <= i < j < |s[1..]| ensures s[1..][i] != s[1..][j] {
          assert s[1..][i] == s[i + 1] && s[1..][j] == s[j + 1];
        }
      }
      SortStringsSorted(s[1..]);
      forall j | 0 <= j < |s[1..]| ensures s[1..][j] != s[0] {
        assert s[1..][j] == s[j + 1];
      }
      InsertStringSorted(s[0], SortStrings(s[1..]));
    }
  }

  function NonEmptyCategories(events: seq<Event>): seq<string> {
    Seqs.Filter(seq(|events|, i requires 0 <= i < |events| => events[i].category), c => c != "")
  }

  /** The category dropdown: the wildcard first, then each non-empty category once, sorted. */
  function Categories(events: seq<Event>): seq<string> {
    [AllCategories] + SortStrings(Dedup(NonEmptyCategories(events)))
  }

  lemma CategoriesSpec(events: seq<Event>)
    ensures Categories(events)[0] == AllCategories
    ensures StrictlySorted(Categories(events)[1..])
    ensures forall x :: x in Categories(events)[1..] <==>
      x != "" && exists i :: 0 <= i < |events| && events[i].category == x
  {
    var d := Dedup(NonEmptyCategories(events));
    SortStringsSorted(d);
    assert Categories(events)[1..] == SortStrings(d);
    var cats := seq(|events|, i requires 0 <= i < |events| => events[i].category);
    forall x ensures x in SortStrings(d) <==> x != "" && exists i :: 0 <= i < |events| && events[i].category == x {
      if x != "" && exists i :: 0 <= i < |events| && events[i].category == x {
        var i :| 0 <= i < |events| && events[i].category == x;
        assert cats[i] == x;
      }
    }
  }

  // ---------------------------------------------------------------------------------------
  // filteredEvents

  datatype Criteria = Criteria(query: string, category: string, freeOnly: bool, dateFrom: string, dateTo: string)

  /** `query.trim().toLowerCase()`. */
  function NormalizedQuery(query: string): string {
    Lower(Trim(query))
  }

  /** The searched text: title, venue name, city, category and description, empty ones
      dropped, joined by spaces and lower-cased. */
  function SearchFields(e: Event): seq<string> {
    [e.title, e.locationName, e.city, e.category, e.description]
  }

  function Haystack(e: Event): string {
    Lower(Join(" ", Seqs.Filter(SearchFields(e), f => f != "")))
  }

  predicate MatchesQuery(e: Event, q: string) {
    q == "" || Contains(Haystack(e), q)
  }

  predicate MatchesCategory(e: Event, category: string) {
    category == AllCategories || e.category == category
  }

  /** Free-only rejects an event only when its price is known and not zero. */
  predicate MatchesPrice(e: Event, freeOnly: bool) {
    !(freeOnly && e.price.Some? && e.price.value != 0)
  }

  /** Lexical comparison with the bounds; an empty bound or an empty date is not compared. */
  predicate MatchesDates(e: Event, dateFrom: string, dateTo: string) {
    !(dateFrom != "" && e.date != "" && LexLess(e.date, dateFrom)) &&
    !(dateTo != "" && e.date != "" && LexLess(dateTo, e.date))
  }

  predicate Matches(c: Criteria, e: Event) {
    MatchesQuery(e, NormalizedQuery(c.query)) &&
    MatchesCategory(e, c.category) &&
    MatchesPrice(e, c.freeOnly) &&
    MatchesDates(e, c.dateFrom, c.dateTo)
  }

  /** The filtered list is an order-preserving subsequence of the events that keeps every
      occurrence of a matching event and no other event. */
  function FilterEvents(events: seq<Event>, c: Criteria): (r: seq<Event>)
    ensures Seqs.IsSubsequence(r, events)
    ensures forall e :: e in r ==> e in events && Matches(c, e)
    ensures forall e :: multiset(r)[e] == if Matches(c, e) then multiset(events)[e] else 0
  {
    Seqs.FilterIsSubsequence(events, e => Matches(c, e));
    Seqs.FilterMultiset(events, e => Matches(c, e));
    Seqs.Filter(events, e => Matches(c, e))
  }

  /** Filtering the filtered list again changes nothing. */
  lemma FilterEventsIdempotent(events: seq<Event>, c: Criteria)
    ensures FilterEvents(FilterEvents(events, c), c) == FilterEvents(events, c)
  {
    Seqs.FilterIdempotent(events, e => Matches(c, e));
  }

  /** A query of only whitespace behaves like no query. */
  lemma BlankQueryMatchesAll(e: Event, query: string)
    requires forall i :: 0 <= i < |query| ==> IsSpace(query[i])
    ensures MatchesQuery(e, NormalizedQuery(query))
  {
    TrimEmpty(query);
  }

  /** The search ignores letter case in the query. */
  lemma QueryIgnoresCase(a: string, b: string)
    requires Lower(a) == Lower(b)
    ensures NormalizedQuery(a) == NormalizedQuery(b)
  {
    TrimLower(a);
    TrimLower(b);
  }

  /** A query found, case-insensitively, in any one non-empty searched field matches. */
  lemma QueryInFieldMatches(e: Event, query: string, k: nat)
    requires k < 5 && SearchFields(e)[k] != ""
    requires Contains(Lower(SearchFields(e)[k]), NormalizedQuery(query))
    ensures MatchesQuery(e, NormalizedQuery(query))
  {
    var parts := Seqs.Filter(SearchFields(e), f => f != "");
    var field := SearchFields(e)[k];
    assert field in parts;
    var i :| 0 <= i < |parts| && parts[i] == field;
    JoinContainsPart(" ", parts, i);
    ContainsLower(Join(" ", parts), field);
    ContainsTransitive(Haystack(e), Lower(field), NormalizedQuery(query));
  }

  /** No criteria set: every event is kept, in order. */
  lemma NeutralCriteriaKeepAll(events: seq<Event>, query: string)
    requires forall i :: 0 <= i < |query| ==> IsSpace(query[i])
    ensures FilterEvents(events, Criteria(query, AllCategories, false, "", "")) == events
  {
    var c := Criteria(query, AllCategories, false, "", "");
    forall e | e in events ensures Matches(c, e) {
      BlankQueryMatchesAll(e, query);
    }
    Seqs.FilterKeepsAll(events, e => Matches(c, e));
  }

  /** What each clause guarantees of the events it keeps. */
  lemma FilteredEventsSatisfyClauses(events: seq<Event>, c: Criteria, e: Event)
    requires e in FilterEvents(events, c)
    ensures e in events
    ensures c.category != AllCategories ==> e.category == c.category
    ensures c.freeOnly ==> e.price == None || e.price == Some(0)
    ensures c.dateFrom != "" && e.date != "" ==> !LexLess(e.date, c.dateFrom)
    ensures c.dateTo != "" && e.date != "" ==> !LexLess(c.dateTo, e.date)
    ensures NormalizedQuery(c.query) != "" ==> Contains(Haystack(e), NormalizedQuery(c.query))
  {
  }

  /** An event of the list that satisfies every clause is kept. */
  lemma MatchingEventKept(events: seq<Event>, c: Criteria, e: Event)
    requires e in events && Matches(c, e)
    ensures e in FilterEvents(events, c)
  {
    assert multiset(events)[e] > 0;
  }

  // ---------------------------------------------------------------------------------------
  // Loading state of the list (`load` in the effect)

  const CountryOptions := ["FR", "BE", "CH", "DE", "ES", "IT", "GB", "US", "ALL"]

  /** The query string of `/api/events?countryCode=<code>`. */
  function ListQuery(countryCode: string): seq<(string, string)> {
    [("countryCode", countryCode)]
  }

  /** What `fetch` and `res.json()` produced: a response with its status flag and body
      (None for JSON `null`), or an exception with its message. */
  datatype ListOutcome = Responded(ok: bool, body: Option<RawBody>) | Threw(message: string)

  /** The list view's state. Every run of the effect has its own `cancelled` flag; `run`
      numbers the runs, and a run other than the current one counts as cancelled, as does
      any run after unmount (`unmounted`). */
  datatype ListState = ListState(events: seq<Event>, loading: bool, error: Option<string>, run: nat, unmounted: bool)

  /** `err?.message || "Erreur inconnue"` for the error thrown by a non-ok response
      (`data?.error || "API error"`) or by the transport. */
  function ListErrorMessage(outcome: ListOutcome): (m: string)
    requires !(outcome.Responded? && outcome.ok)
    ensures m != ""
    ensures outcome.Responded? && outcome.body.Some? && OrEmpty(outcome.body.value.error) != "" ==>
      m == outcome.body.value.error.value
    ensures outcome.Responded? && (outcome.body.None? || OrEmpty(outcome.body.value.error) == "") ==>
      m == "API error"
    ensures outcome.Threw? ==> m == if outcome.message == "" then "Erreur inconnue" else outcome.message
  {
    match outcome
    case Responded(_, body) =>
      OrElse(if body.Some? then body.value.error else None, "API error")
    case Threw(m) => OrElse(Some(m), "Erreur inconnue")
  }

  /** The country changed: the running load is cancelled and a new one starts, loading with
      no error; the previous events stay until the new ones arrive. */
  function ListRestart(s: ListState): ListState {
    s.(run := s.run + 1, loading := true, error := None)
  }

  /** The state after the request of run `run` settles; a cancelled run changes nothing. */
  function ListComplete(s: ListState, run: nat, outcome: ListOutcome): ListState {
    if s.unmounted || run != s.run then s
    else if outcome.Responded? && outcome.ok then s.(events := MapEvents(outcome.body), loading := false)
    else s.(error := Some(ListErrorMessage(outcome)), loading := false)
  }

  /** A settled, live load is no longer loading; a successful one shows exactly the mapped
      payload, a failed one keeps the previous events and shows a non-empty message. */
  lemma ListCompleteSpec(s: ListState, outcome: ListOutcome)
    ensures s.unmounted ==> ListComplete(s, s.run, outcome) == s
    ensures !s.unmounted ==> !ListComplete(s, s.run, outcome).loading
    ensures !s.unmounted && outcome.Responded? && outcome.ok ==>
      ListComplete(s, s.run, outcome).events == MapEvents(outcome.body) &&
      ListComplete(s, s.run, outcome).error == s.error
    ensures !s.unmounted && !(outcome.Responded? && outcome.ok) ==>
      ListComplete(s, s.run, outcome).events == s.events &&
      ListComplete(s, s.run, outcome).error.Some? && ListComplete(s, s.run, outcome).error.value != ""
  {
  }

  /** A response to an earlier country arriving after the switch is ignored: it neither
      replaces the events nor ends the new load. */
  lemma StaleCompletionIgnored(s: ListState, outcome: ListOutcome)
    ensures ListComplete(ListRestart(s), s.run, outcome) == ListRestart(s)
    ensures ListRestart(s).loading && ListRestart(s).error.None? && ListRestart(s).events == s.events
  {
  }

  class ListLoader {
    var events: seq<Event>
    var loading: bool
    var error: Option<string>
    var run: nat
    var unmounted: bool

    function State(): ListState
      reads this
    {
      ListState(events, loading, error, run, unmounted)
    }

    /** Mount: the initial state, then `setLoading(true)` and `setError(null)` of run 0. */
    constructor ()
      ensures State() == ListState([], true, None, 0, false)
    {
      events, loading, error, run, unmounted := [], true, None, 0, false;
    }

    /** The effect's cleanup followed by its next run, for a new country. */
    method Restart() returns (started: nat)
      modifies this
      ensures State() == ListRestart(old(State()))
      ensures started == run
    {
      run := run + 1;
      loading, error := true, None;
      started := run;
    }

    /** The awaited request of run `started` settles. */
    method Complete(started: nat, outcome: ListOutcome)
      modifies this
      ensures State() == ListComplete(old(State()), started, outcome)
    {
      if !unmounted && started == run {
        if outcome.Responded? && outcome.ok {
          events := MapEvents(outcome.body);
        } else {
          error := Some(ListErrorMessage(outcome));
        }
        loading := false;
      }
    }

    /** The effect's cleanup on unmount. */
    method Unmount()
      modifies this
      ensures State() == old(State()).(unmounted := true)
    {
      unmounted := true;
    }
  }

  /** `handleSelectEvent`: what the map is told about the chosen event. */
  datatype Selection = Selection(id: string, lat: real, lng: real)

  function SelectionOf(e: Event): (s: Selection)
    ensures s.id == e.id
    ensures s.lat == e.latitude && s.lng == e.longitude
  {
    Selection(e.id, e.latitude, e.longitude)
  }
}

/**
 * The detail view's client: the handoff cache read, the seeded `DetailResponse`, the
 * stale-while-revalidate load with its `cancelled` flag, and the choice of what to render.
 */
module Detail {
  import opened Wrappers
  import opened Events
  import Storage

  datatype Venue = Venue(name: string, address: string, city: string, latitude: real, longitude: real)

  /** The fields of `DetailResponse.detail` that the seed fills; the provider-specific ones
      (organizer, price ranges, ...) are only displayed and are not modelled. */
  datatype EventDetail = EventDetail(
    source: string,
    sourceId: string,
    title: string,
    description: string,
    url: Option<string>,
    images: seq<string>,
    date: string,
    time: string,
    status: string,
    timezone: string,
    venue: Option<Venue>)

  /** `raw`: the cached event for a seed, the provider's payload (as text) for a fetch. */
  datatype Raw = CachedEvent(event: Event) | Payload(text: string)

  datatype DetailResponse = DetailResponse(
    source: string,
    detail: Option<EventDetail>,
    raw: Option<Raw>,
    error: Option<string>)

  const DefaultError := "Impossible de charger les details."
  const UnknownError := "Erreur inconnue"

  /** `ma-zone:event:<source>:<id>`, the key this view reads. */
  function ReadKey(source: string, id: string): string {
    "ma-zone:event:" + source + ":" + id
  }

  /** The response shown before the fetch completes, built from the cached list event. */
  function SeedResponse(source: string, cached: Event): (r: DetailResponse)
    ensures r.source == source && r.raw == Some(CachedEvent(cached)) && r.error.None?
    ensures r.detail.Some?
    ensures r.detail.value.images == if cached.image != "" then [cached.image] else []
    ensures r.detail.value.status == "" && r.detail.value.timezone == ""
    ensures r.detail.value.venue ==
      Some(Venue(cached.locationName, cached.address, cached.city, cached.latitude, cached.longitude))
  {
    DetailResponse(
      source,
      Some(EventDetail(
        cached.source, cached.sourceId, cached.title, cached.description, cached.url,
        if cached.image != "" then [cached.image] else [],
        cached.date, cached.time, "", "",
        Some(Venue(cached.locationName, cached.address, cached.city, cached.latitude, cached.longitude)))),
      Some(CachedEvent(cached)),
      None)
  }

  /** The seed keeps every list field the detail view displays. */
  lemma SeedKeepsListFields(source: string, cached: Event)
    ensures var d := SeedResponse(source, cached).detail.value;
      d.title == cached.title && d.description == cached.description && d.url == cached.url &&
      d.date == cached.date && d.time == cached.time &&
      d.source == cached.source && d.sourceId == cached.sourceId &&
      (cached.image != "" <==> |d.images| == 1) && (|d.images| == 1 ==> d.images[0] == cached.image)
  {
  }

  /** The awaited fetch: a response (status flag, and the JSON body, None for `null`) or an
      exception (network failure, body that is not JSON) with its message. */
  datatype FetchOutcome = Responded(ok: bool, json: Option<DetailResponse>) | Threw(message: string)

  /** `!res.ok || json?.error` */
  predicate FetchFailed(outcome: FetchOutcome) {
    match outcome
    case Responded(ok, json) => !ok || (json.Some? && OrEmpty(json.value.error) != "")
    case Threw(_) => true
  }

  /** `err?.message || "Erreur inconnue"` for the error raised on a failed fetch. */
  function FetchErrorMessage(outcome: FetchOutcome): (m: string)
    requires FetchFailed(outcome)
    ensures m != ""
    ensures outcome.Responded? && outcome.json.Some? && OrEmpty(outcome.json.value.error) != "" ==>
      m == outcome.json.value.error.value
    ensures outcome.Responded? && (outcome.json.None? || OrEmpty(outcome.json.value.error) == "") ==>
      m == DefaultError
    ensures outcome.Threw? ==> m == if outcome.message == "" then UnknownError else outcome.message
  {
    match outcome
    case Responded(_, json) => OrElse(if json.Some? then json.value.error else None, DefaultError)
    case Threw(m) => OrElse(Some(m), UnknownError)
  }

  /** The inputs of `load`, in the order they can arrive. */
  datatype LoadEvent = SeedFound(cached: Event) | SeedMissing | FetchSettled(outcome: FetchOutcome) | Cancel

  datatype LoadState = LoadState(data: Option<DetailResponse>, loading: bool, error: Option<string>, cancelled: bool)

  /** The component state once `load` has started: no data, loading, no error. */
  const Start := LoadState(None, true, None, false)

  /** The session-storage read: a missing key, an unparseable value or a throwing read are
      all "no seed". */
  function SeedEvent(items: map<string, Storage.Entry>, source: string, id: string, readFails: bool): (ev: LoadEvent)
    ensures ev.SeedFound? || ev.SeedMissing?
    ensures ev.SeedFound? <==> Storage.ReadEvent(items, ReadKey(source, id), readFails).Some?
    ensures ev.SeedFound? ==> ev.cached == Storage.ReadEvent(items, ReadKey(source, id), readFails).value
  {
    match Storage.ReadEvent(items, ReadKey(source, id), readFails)
    case Some(e) => SeedFound(e)
    case None => SeedMissing
  }

  /** One transition of `load`; every update is skipped once `cancelled` is set. */
  function Step(source: string, s: LoadState, ev: LoadEvent): LoadState {
    match ev
    case Cancel => s.(cancelled := true)
    case SeedMissing => s
    case SeedFound(cached) =>
      if s.cancelled then s else s.(data := Some(SeedResponse(source, cached)), loading := false)
    case FetchSettled(outcome) =>
      if s.cancelled then s
      else if FetchFailed(outcome) then s.(error := Some(FetchErrorMessage(outcome)), loading := false)
      else s.(data := outcome.json, loading := false)
  }

  function Run(source: string, s: LoadState, evs: seq<LoadEvent>): LoadState
    decreases |evs|
  {
    if evs == [] then s else Run(source, Step(source, s, evs[0]), evs[1..])
  }

  /** After cancellation, no sequence of inputs changes the data, the loading flag or the
      error. */
  lemma {:induction false} CancelledIsFinal(source: string, s: LoadState, evs: seq<LoadEvent>)
    requires s.cancelled
    ensures Run(source, s, evs) == s
    decreases |evs|
  {
    if evs != [] {
      CancelledIsFinal(source, Step(source, s, evs[0]), evs[1..]);
    }
  }

  /** Reading the cache never produces the error state. */
  lemma SeedReadNeverErrs(items: map<string, Storage.Entry>, source: string, id: string, readFails: bool, s: LoadState)
    ensures Step(source, s, SeedEvent(items, source, id, readFails)).error == s.error
    ensures readFails ==> Step(source, s, SeedEvent(items, source, id, readFails)) == s
  {
  }

  datatype View = LoadingView | ErrorView(message: string) | DetailView(detail: EventDetail)

  /** Loading first, then an error or missing detail, then the detail. */
  function Render(s: LoadState): (v: View)
    ensures v.LoadingView? <==> s.loading
    ensures !s.loading && s.error.Some? && s.error.value != "" ==> v == ErrorView(s.error.value)
    ensures v.DetailView? ==> s.data.Some? && s.data.value.detail == Some(v.detail)
    ensures !s.loading && OrEmpty(s.error) == "" && s.data.Some? && s.data.value.detail.Some? ==>
      v == DetailView(s.data.value.detail.value)
    ensures !s.loading && OrEmpty(s.error) == "" && (s.data.None? || s.data.value.detail.None?) ==>
      v == ErrorView(DefaultError)
  {
    if s.loading then LoadingView
    else if OrEmpty(s.error) != "" || s.data.None? || s.data.value.detail.None? then
      ErrorView(OrElse(s.error, DefaultError))
    else DetailView(s.data.value.detail.value)
  }

  /** A seed is shown at once, before the fetch settles. */
  lemma SeedShownImmediately(source: string, cached: Event)
    ensures Render(Step(source, Start, SeedFound(cached))) == DetailView(SeedResponse(source, cached).detail.value)
  {
  }

  /** A successful fetch supersedes the seed (or fills the empty view). */
  lemma FetchSupersedesSeed(source: string, seed: LoadEvent, latest: DetailResponse)
    requires seed.SeedFound? || seed.SeedMissing?
    requires OrEmpty(latest.error) == ""
    ensures Run(source, Start, [seed, FetchSettled(Responded(true, Some(latest)))]) ==
      LoadState(Some(latest), false, None, false)
    ensures latest.detail.Some? ==>
      Render(Run(source, Start, [seed, FetchSettled(Responded(true, Some(latest)))])) ==
        DetailView(latest.detail.value)
    ensures latest.detail.None? ==>
      Render(Run(source, Start, [seed, FetchSettled(Responded(true, Some(latest)))])) ==
        ErrorView(DefaultError)
  {
    var evs := [seed, FetchSettled(Responded(true, Some(latest)))];
    RunPair(source, Start, evs);
  }

  /** A failed fetch shows the error view even when a seed was being shown. */
  lemma FailureReplacesSeed(source: string, cached: Event, outcome: FetchOutcome)
    requires FetchFailed(outcome)
    ensures Run(source, Start, [SeedFound(cached), FetchSettled(outcome)]).data ==
      Some(SeedResponse(source, cached))
    ensures Render(Run(source, Start, [SeedFound(cached), FetchSettled(outcome)])) ==
      ErrorView(FetchErrorMessage(outcome))
  {
    RunPair(source, Start, [SeedFound(cached), FetchSettled(outcome)]);
  }

  lemma RunPair(source: string, s: LoadState, evs: seq<LoadEvent>)
    requires |evs| == 2
    ensures Run(source, s, evs) == Step(source, Step(source, s, evs[0]), evs[1])
  {
    var s1 := Step(source, s, evs[0]);
    assert Run(source, s, evs) == Run(source, s1, evs[1..]);
    assert evs[1..][0] == evs[1] && evs[1..][1..] == [];
    assert Run(source, s1, evs[1..]) == Run(source, Step(source, s1, evs[1]), []);
  }

  /** A run that is not cancelled ends, once the fetch settles, out of the loading state. */
  lemma {:induction false} SettledRunNotLoading(source: string, s: LoadState, evs: seq<LoadEvent>)
    requires !s.cancelled
    requires forall i :: 0 <= i < |evs| ==> !evs[i].Cancel?
    requires exists i :: 0 <= i < |evs| && evs[i].FetchSettled?
    ensures !Run(source, s, evs).loading
    decreases |evs|
  {
    var next := Step(source, s, evs[0]);
    if evs[0].FetchSettled? {
      LoadingStaysOff(source, next, evs[1..]);
    } else {
      var i :| 0 <= i < |evs| && evs[i].FetchSettled?;
      assert evs[1..][i - 1] == evs[i];
      SettledRunNotLoading(source, next, evs[1..]);
    }
  }

  lemma {:induction false} LoadingStaysOff(source: string, s: LoadState, evs: seq<LoadEvent>)
    requires !s.loading
    ensures !Run(source, s, evs).loading
    decreases |evs|
  {
    if evs != [] {
      LoadingStaysOff(source, Step(source, s, evs[0]), evs[1..]);
    }
  }

  /** The component: state fields updated in place by the steps of `load`. */
  class DetailLoader {
    const source: string
    const id: string
    var data: Option<DetailResponse>
    var loading: bool
    var error: Option<string>
    var cancelled: bool

    function State(): LoadState
      reads this
    {
      LoadState(data, loading, error, cancelled)
    }

    function CacheKey(): string {
      ReadKey(source, id)
    }

    constructor (source: string, id: string)
      ensures this.source == source && this.id == id
      ensures State() == Start
    {
      this.source, this.id := source, id;
      data, loading, error, cancelled := None, true, None, false;
    }

    /** Reads the cached event, if any, and shows it unless cancelled. */
    method ReadSeed(store: Storage.SessionStore, readFails: bool)
      modifies this
      ensures State() == Step(source, old(State()), SeedEvent(store.items, source, id, readFails))
    {
      var cached := Storage.ReadEvent(store.items, CacheKey(), readFails);
      if cached.Some? && !cancelled {
        data := Some(SeedResponse(source, cached.value));
        loading := false;
      }
    }

    method FetchSettled(outcome: FetchOutcome)
      modifies this
      ensures State() == Step(source, old(State()), LoadEvent.FetchSettled(outcome))
    {
      if !cancelled {
        if FetchFailed(outcome) {
          error := Some(FetchErrorMessage(outcome));
          loading := false;
        } else {
          data := outcome.json;
          loading := false;
        }
      }
    }

    /** The effect's cleanup. */
    method Cancel()
      modifies this
      ensures State() == Step(source, old(State()), LoadEvent.Cancel)
    {
      cancelled := true;
    }

    function CurrentView(): View
      reads this
    {
      Render(State())
    }
  }
}

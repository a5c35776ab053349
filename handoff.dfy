/**
 * Properties that span several files: a listed event opened from a card is found by the
 * detail view under the same key, and the country picked on the home page reaches the
 * events route as the upstream `countryCode` rule expects.
 */
module Handoff {
  import opened Wrappers
  import opened Events
  import Storage
  import Card
  import Home
  import Detail
  import EventsApi

  /** The detail view reads the key the card writes. */
  lemma ReadKeyIsCardKey(t: Card.Target)
    ensures Detail.ReadKey(t.source, t.sourceId) == Card.DetailCacheKey(t)
  {
  }

  /** A Ticketmaster item from the list (no explicit source, plain id) links to
      `("ticketmaster", id)`; an id with a provider prefix links to that provider and the
      id without the prefix. */
  lemma ListedEventTarget(item: Home.RawItem)
    ensures var t := Card.TargetOf(Home.NormalizeItem(item));
      (!(Card.TicketmasterPrefix <= item.id) && !(Card.EventbritePrefix <= item.id) ==>
        t == Card.Target("ticketmaster", item.id)) &&
      (Card.EventbritePrefix <= item.id ==> t == Card.Target("eventbrite", item.id[3..])) &&
      (Card.TicketmasterPrefix <= item.id ==> t == Card.Target("ticketmaster", item.id[3..]))
  {
    Card.PrefixesExclusive(item.id);
  }

  /** After a successful click the detail view, opened on the card's link target, finds the
      clicked event and shows it at once. */
  lemma ClickThenOpenFindsSeed(items: map<string, Storage.Entry>, e: Event)
    ensures var t := Card.TargetOf(e);
      var written := items[Card.DetailCacheKey(t) := Storage.Json(e)];
      Detail.SeedEvent(written, t.source, t.sourceId, false) == Detail.SeedFound(e) &&
      Detail.Render(Detail.Step(t.source, Detail.Start, Detail.SeedEvent(written, t.source, t.sourceId, false))) ==
        Detail.DetailView(Detail.SeedResponse(t.source, e).detail.value)
  {
    ReadKeyIsCardKey(Card.TargetOf(e));
  }

  /** The same story told with the two objects: the card's click handler writes into the
      store, and the detail loader's cache read then shows the clicked event. */
  method ClickThenLoad(store: Storage.SessionStore, e: Event) returns (view: Detail.View)
    modifies store
    ensures view == Detail.DetailView(Detail.SeedResponse(Card.ResolveSource(e), e).detail.value)
  {
    Card.OpenDetail(store, e, false);
    var t := Card.TargetOf(e);
    var loader := new Detail.DetailLoader(t.source, t.sourceId);
    ReadKeyIsCardKey(t);
    loader.ReadSeed(store, false);
    view := loader.CurrentView();
  }

  /** A failed write leaves a missing entry missing: the view waits for the fetch. */
  lemma FailedWriteWaitsForFetch(items: map<string, Storage.Entry>, e: Event)
    requires Card.DetailCacheKey(Card.TargetOf(e)) !in items
    ensures var t := Card.TargetOf(e);
      Detail.Render(Detail.Step(t.source, Detail.Start, Detail.SeedEvent(items, t.source, t.sourceId, false))) ==
        Detail.LoadingView
  {
  }

  /** The link `/event/<source>/<sourceId>` splits back into its two route segments. */
  lemma HrefSegments(t: Card.Target)
    requires '/' !in t.source
    ensures Card.DetailPathPrefix <= Card.DetailHref(t)
    ensures Card.SplitAtFirst(Card.DetailHref(t)[|Card.DetailPathPrefix|..], '/') == Some((t.source, t.sourceId))
  {
    var h := Card.DetailHref(t);
    assert h == Card.DetailPathPrefix + (t.source + ['/'] + t.sourceId);
    assert h[|Card.DetailPathPrefix|..] == t.source + ['/'] + t.sourceId;
    Card.SplitAtFirstOfJoin(t.source, '/', t.sourceId);
  }

  /** The home page's country choice reaches Ticketmaster: "ALL" drops `countryCode`, any
      other option is sent as is. */
  lemma CountryChoiceReachesUpstream(apiKey: string, cc: string)
    requires cc in Home.CountryOptions
    ensures EventsApi.CountryCode(Home.ListQuery(cc)) == cc
    ensures EventsApi.GetParam(EventsApi.UpstreamParams(apiKey, Home.ListQuery(cc)), "countryCode").Some? <==>
      cc != "ALL"
  {
    assert EventsApi.GetParam(Home.ListQuery(cc), "countryCode") == Some(cc);
    EventsApi.CountryCodeSentUnlessAll(apiKey, Home.ListQuery(cc));
  }
}

/**
 * The event card of the list view: recovering the provider and the provider's own id of an
 * event, the handoff cache key and the detail link built from them, the price label, and
 * the cache write made when the detail link is clicked.
 */
module Card {
  import opened Wrappers
  import opened Events
  import opened Text
  import Seqs
  import Storage

  const TicketmasterPrefix := "tm_"
  const EventbritePrefix := "eb_"
  const CacheKeyPrefix := "ma-zone:event:"
  const DetailPathPrefix := "/event/"
  const BoxOfficeLabel := "Renseignement au pres de la billetterie"
  const FreeLabel := "Gratuit"

  /** No id carries both provider prefixes. */
  lemma PrefixesExclusive(id: string)
    ensures !(TicketmasterPrefix <= id && EventbritePrefix <= id)
  {
    if TicketmasterPrefix <= id {
      assert id[0] == TicketmasterPrefix[0];
    }
  }

  /** The provider of an event: its explicit `source` when set, otherwise read off the
      `tm_` / `eb_` prefix of its id, with Ticketmaster as the default. */
  function ResolveSource(e: Event): (r: string)
    ensures e.source != "" ==> r == e.source
    ensures e.source == "" ==> r == "ticketmaster" || r == "eventbrite"
    ensures e.source == "" ==> (r == "eventbrite" <==> EventbritePrefix <= e.id)
  {
    PrefixesExclusive(e.id);
    if e.source != "" then e.source
    else if TicketmasterPrefix <= e.id then "ticketmaster"
    else if EventbritePrefix <= e.id then "eventbrite"
    else "ticketmaster"
  }

  /** `id.replace(/^tm_|^eb_/, "")`: removes at most one leading provider prefix. */
  function StripProviderPrefix(id: string): (r: string)
  {
    if TicketmasterPrefix <= id || EventbritePrefix <= id then id[3..] else id
  }

  /** The provider's own id: the explicit `sourceId` when set, otherwise the id without its
      provider prefix. */
  function ResolveSourceId(e: Event): (r: string)
    ensures e.sourceId != "" ==> r == e.sourceId
    ensures e.sourceId == "" ==>
      r == e.id || TicketmasterPrefix + r == e.id || EventbritePrefix + r == e.id
    ensures e.sourceId == "" && !(TicketmasterPrefix <= e.id) && !(EventbritePrefix <= e.id) ==> r == e.id
    ensures e.sourceId == "" && (TicketmasterPrefix <= e.id || EventbritePrefix <= e.id) ==> r == e.id[3..]
  {
    if e.sourceId != "" then e.sourceId else StripProviderPrefix(e.id)
  }

  /** Only the first anchored prefix is removed. */
  lemma StripOnlyOnePrefix(rest: string)
    ensures StripProviderPrefix(TicketmasterPrefix + EventbritePrefix + rest) == EventbritePrefix + rest
    ensures StripProviderPrefix(EventbritePrefix + TicketmasterPrefix + rest) == TicketmasterPrefix + rest
  {
    var a := TicketmasterPrefix + EventbritePrefix + rest;
    var b := EventbritePrefix + TicketmasterPrefix + rest;
    assert TicketmasterPrefix <= a && a[3..] == EventbritePrefix + rest;
    assert EventbritePrefix <= b && b[3..] == TicketmasterPrefix + rest;
  }

  /** The id an event would carry if it were built as `<prefix>_<sourceId>`. */
  function PrefixedId(source: string, sourceId: string): string {
    (if source == "eventbrite" then EventbritePrefix else TicketmasterPrefix) + sourceId
  }

  /** An event without explicit `source`/`sourceId` whose id is a provider prefix followed by
      `s` resolves to that provider and exactly `s`. */
  lemma PrefixedIdRoundTrip(e: Event, source: string, s: string)
    requires e.source == "" && e.sourceId == ""
    requires source == "ticketmaster" || source == "eventbrite"
    requires e.id == PrefixedId(source, s)
    ensures ResolveSource(e) == source
    ensures ResolveSourceId(e) == s
  {
    if source == "eventbrite" {
      PrefixesExclusive(e.id);
    } else {
      assert TicketmasterPrefix <= e.id;
    }
    assert e.id[3..] == s;
  }

  /** The provider and provider id a card links to. */
  datatype Target = Target(source: string, sourceId: string)

  function TargetOf(e: Event): Target {
    Target(ResolveSource(e), ResolveSourceId(e))
  }

  /** `ma-zone:event:<source>:<sourceId>`. */
  function DetailCacheKey(t: Target): string {
    CacheKeyPrefix + t.source + ":" + t.sourceId
  }

  /** `/event/<source>/<sourceId>`. */
  function DetailHref(t: Target): string {
    DetailPathPrefix + t.source + "/" + t.sourceId
  }

  /** Splits at the first occurrence of `sep`, which is dropped. */
  function SplitAtFirst(s: string, sep: char): (r: Option<(string, string)>)
    ensures r.Some? ==> s == r.value.0 + [sep] + r.value.1 && sep !in r.value.0
    ensures r.None? ==> sep !in s
  {
    if s == [] then None
    else if s[0] == sep then Some(([], s[1..]))
    else match SplitAtFirst(s[1..], sep)
      case None => None
      case Some(p) => Some(([s[0]] + p.0, p.1))
  }

  lemma {:induction false} SplitAtFirstOfJoin(a: string, sep: char, b: string)
    requires sep !in a
    ensures SplitAtFirst(a + [sep] + b, sep) == Some((a, b))
  {
    if a != [] {
      assert (a + [sep] + b)[1..] == a[1..] + [sep] + b;
      SplitAtFirstOfJoin(a[1..], sep, b);
      assert [a[0]] + a[1..] == a;
    } else {
      assert a + [sep] + b == [sep] + b;
    }
  }

  /** Reads a handoff cache key back into its provider and provider id. */
  function ParseCacheKey(key: string): (r: Option<Target>)
  {
    if CacheKeyPrefix <= key then
      match SplitAtFirst(key[|CacheKeyPrefix|..], ':')
      case None => None
      case Some(p) => Some(Target(p.0, p.1))
    else None
  }

  /** A cache key determines the pair it was built from, as long as the provider name has
      no `:` (both provider names qualify). */
  lemma CacheKeyRoundTrip(t: Target)
    requires ':' !in t.source
    ensures ParseCacheKey(DetailCacheKey(t)) == Some(t)
  {
    var key := DetailCacheKey(t);
    assert key == CacheKeyPrefix + (t.source + [':'] + t.sourceId);
    assert CacheKeyPrefix <= key;
    assert key[|CacheKeyPrefix|..] == t.source + [':'] + t.sourceId;
    SplitAtFirstOfJoin(t.source, ':', t.sourceId);
  }

  lemma CacheKeyInjective(t: Target, u: Target)
    requires ':' !in t.source && ':' !in u.source
    requires DetailCacheKey(t) == DetailCacheKey(u)
    ensures t == u
  {
    CacheKeyRoundTrip(t);
    CacheKeyRoundTrip(u);
  }

  /** The price line of a card: unknown price, free, or the amount in euros. */
  function PriceLabel(price: Option<int>): (r: string)
    ensures price.None? <==> r == BoxOfficeLabel
    ensures price == Some(0) <==> r == FreeLabel
    ensures price.Some? && price.value != 0 ==> r == IntToString(price.value) + " EUR"
  {
    match price
    case None => BoxOfficeLabel
    case Some(p) =>
      if p == 0 then FreeLabel
      else
        var r := IntToString(p) + " EUR";
        assert r[|r| - 1] == 'R';
        r
  }

  /** Different prices get different labels. */
  lemma PriceLabelInjective(a: Option<int>, b: Option<int>)
    requires PriceLabel(a) == PriceLabel(b)
    ensures a == b
  {
    if a.Some? && b.Some? && a.value != 0 && b.value != 0 {
      var sa, sb := IntToString(a.value), IntToString(b.value);
      assert sa + " EUR" == sb + " EUR";
      assert sa == (sa + " EUR")[..|sa|];
      assert |sa| == |sb|;
      assert sb == (sb + " EUR")[..|sb|];
      IntToStringInjective(a.value, b.value);
    }
  }

  /** `[address, city].filter(Boolean).join(", ")`: the non-empty parts, comma-separated. */
  function AddressLine(e: Event): (r: string)
    ensures e.address == "" && e.city == "" ==> r == ""
    ensures e.address != "" && e.city != "" ==> r == e.address + ", " + e.city
    ensures e.address == "" && e.city != "" ==> r == e.city
    ensures e.address != "" && e.city == "" ==> r == e.address
  {
    var parts := Seqs.Filter([e.address, e.city], NonEmpty);
    FilterPair(e.address, e.city);
    JoinPair(", ", e.address, e.city);
    Join(", ", parts)
  }

  /** `Boolean(s)` on a string. */
  predicate NonEmpty(s: string) {
    s != ""
  }

  lemma FilterPair(a: string, b: string)
    ensures Seqs.Filter([a, b], NonEmpty) ==
      (if a != "" then [a] else []) + (if b != "" then [b] else [])
  {
    assert [a, b][1..] == [b] && [b][1..] == [];
  }

  /** The detail link's click handler: stores the event under its handoff key in session
      storage; a failing write is ignored and changes nothing. */
  method OpenDetail(store: Storage.SessionStore, e: Event, writeFails: bool)
    modifies store
    ensures store.items ==
      if writeFails then old(store.items) else old(store.items)[DetailCacheKey(TargetOf(e)) := Storage.Json(e)]
  {
    store.SetEvent(DetailCacheKey(TargetOf(e)), e, writeFails);
  }
}

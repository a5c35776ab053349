/**
 * The map view: which events get a marker, which icon a marker gets, the marker registry
 * used to open the selected event's popup, and the popup's detail link with its cache
 * write. The provider resolution and the cache key are the same expressions as the card's
 * and are taken from the Card module.
 */
module EventMap {
  import opened Wrappers
  import opened Events
  import Seqs
  import Card
  import Storage
  import Home
  import DateFormat

  /** `event.latitude && event.longitude`: both coordinates non-zero. */
  predicate HasPosition(e: Event) {
    e.latitude != 0.0 && e.longitude != 0.0
  }

  /** The events that get a marker, in the order given. */
  function MarkedEvents(events: seq<Event>): (r: seq<Event>)
    ensures Seqs.IsSubsequence(r, events)
    ensures forall e :: e in r ==> e in events && HasPosition(e)
    ensures forall i :: 0 <= i < |events| && HasPosition(events[i]) ==> events[i] in r
    ensures forall e :: multiset(r)[e] == if HasPosition(e) then multiset(events)[e] else 0
  {
    Seqs.FilterIsSubsequence(events, HasPosition);
    Seqs.FilterMultiset(events, HasPosition);
    Seqs.Filter(events, HasPosition)
  }

  datatype Icon = ActiveIcon | DefaultIcon

  /** `selectedEvent?.id === event.id ? activeIcon : defaultIcon`. */
  function MarkerIcon(selected: Option<Home.Selection>, e: Event): Icon {
    if selected.Some? && selected.value.id == e.id then ActiveIcon else DefaultIcon
  }

  /** No selection: every marker has the default icon. With a selection, the markers with
      the active icon are exactly those of the selected id, so at most one when ids are
      unique. */
  lemma ActiveMarkers(selected: Option<Home.Selection>, events: seq<Event>)
    ensures selected.None? ==> forall i :: 0 <= i < |events| ==> MarkerIcon(selected, events[i]) == DefaultIcon
    ensures forall i :: 0 <= i < |events| ==>
      (MarkerIcon(selected, events[i]) == ActiveIcon <==> selected.Some? && events[i].id == selected.value.id)
    ensures (forall i, j :: 0 <= i < j < |events| ==> events[i].id != events[j].id) ==>
      forall i, j :: 0 <= i < j < |events| && MarkerIcon(selected, events[i]) == ActiveIcon ==>
        MarkerIcon(selected, events[j]) == DefaultIcon
  {
  }

  /** Selecting an event from the list makes exactly its marker (and those sharing its id)
      active. */
  lemma SelectedCardMarkerActive(e: Event, other: Event)
    ensures MarkerIcon(Some(Home.SelectionOf(e)), e) == ActiveIcon
    ensures other.id != e.id ==> MarkerIcon(Some(Home.SelectionOf(e)), other) == DefaultIcon
  {
  }

  /** A Leaflet marker instance; it is opaque here. */
  type MarkerRef = nat

  /** `markerRefs.current`: the markers created so far, by event id. */
  class MarkerRegistry {
    var refs: map<string, MarkerRef>

    constructor ()
      ensures refs == map[]
    {
      refs := map[];
    }

    /** The marker's ref callback: a mounted marker is recorded under the event id, a
        `null` ref (unmount) leaves the registry as it was. */
    method Record(id: string, ref: Option<MarkerRef>)
      modifies this
      ensures refs == if ref.Some? then old(refs)[id := ref.value] else old(refs)
    {
      if ref.Some? {
        refs := refs[id := ref.value];
      }
    }
  }

  /** What `MapFocus` does for a selection: nothing without one, otherwise fly to its
      coordinates at zoom 15 and open the popup of its marker if one was recorded. */
  datatype Focus = NoFocus | FlyTo(lat: real, lng: real, zoom: nat, popup: Option<MarkerRef>)

  function FocusFor(selected: Option<Home.Selection>, refs: map<string, MarkerRef>): (f: Focus)
    ensures selected.None? <==> f == NoFocus
    ensures f.FlyTo? ==> f.lat == selected.value.lat && f.lng == selected.value.lng && f.zoom == 15
    ensures f.FlyTo? ==> (f.popup.Some? <==> selected.value.id in refs)
    ensures f.FlyTo? && f.popup.Some? ==> f.popup.value == refs[selected.value.id]
  {
    match selected
    case None => NoFocus
    case Some(s) => FlyTo(s.lat, s.lng, 15, if s.id in refs then Some(refs[s.id]) else None)
  }

  /** Once a marker is recorded for an event, selecting that event opens that marker. */
  lemma FocusOpensRecordedMarker(e: Event, refs: map<string, MarkerRef>, m: MarkerRef)
    ensures FocusFor(Some(Home.SelectionOf(e)), refs[e.id := m]) ==
      FlyTo(e.latitude, e.longitude, 15, Some(m))
  {
  }

  /** The popup's link: the cache key and the href of the same pair as the card's. */
  datatype Link = Link(cacheKey: string, href: string)

  /** The popup's own copy of the provider resolution, the cache key and the href; it
      agrees with the card's for every event. */
  function MarkerLink(e: Event): (l: Link)
    ensures l.cacheKey == Card.DetailCacheKey(Card.TargetOf(e))
    ensures l.href == Card.DetailHref(Card.TargetOf(e))
  {
    var source :=
      if e.source != "" then e.source
      else if "tm_" <= e.id then "ticketmaster"
      else if "eb_" <= e.id then "eventbrite"
      else "ticketmaster";
    var sourceId :=
      if e.sourceId != "" then e.sourceId
      else if "tm_" <= e.id || "eb_" <= e.id then e.id[3..]
      else e.id;
    Link("ma-zone:event:" + source + ":" + sourceId, "/event/" + source + "/" + sourceId)
  }

  /** `{event.date} a {event.time}`: the popup shows the raw fields, unformatted. */
  function PopupSchedule(e: Event): (r: string)
    ensures |r| == |e.date| + 3 + |e.time|
    ensures e.date <= r && r[|e.date|..|e.date| + 3] == " a " && r[|e.date| + 3..] == e.time
  {
    e.date + " a " + e.time
  }

  /** For every ISO date and `HH:MM` time the popup text differs from the card's label: the
      popup keeps the raw 10 + 3 + 5 characters, the card shows 10 + 3 + 8. */
  lemma PopupDiffersFromCard(e: Event)
    requires DateFormat.IsIsoDate(e.date) && DateFormat.IsHourMinute(e.time)
    ensures |PopupSchedule(e)| == 18
    ensures |DateFormat.FormatFrenchDateTime(Some(e.date), Some(e.time))| == 21
    ensures PopupSchedule(e) != DateFormat.FormatFrenchDateTime(Some(e.date), Some(e.time))
  {
    DateFormat.DateAndTime(e.date, e.time);
    DateFormat.FormatTimeCases(e.time);
    assert |DateFormat.FormatDate(e.date)| == 10;
  }

  /** The mock event's date and time, side by side. */
  lemma PopupSample(e: Event)
    requires e.date == "2026-03-12" && e.time == "20:00"
    ensures PopupSchedule(e) == "2026-03-12 a 20:00"
    ensures DateFormat.FormatFrenchDateTime(Some(e.date), Some(e.time)) == "12-03-2026 à 20:00:00"
  {
    DateFormat.SampleLabel();
  }

  /** The popup link's click handler: the same write as the card's, failures ignored. */
  method OpenDetail(store: Storage.SessionStore, e: Event, writeFails: bool)
    modifies store
    ensures store.items ==
      if writeFails then old(store.items) else old(store.items)[MarkerLink(e).cacheKey := Storage.Json(e)]
  {
    var link := MarkerLink(e);
    store.SetEvent(link.cacheKey, e, writeFails);
  }
}

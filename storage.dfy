/**
 * The browser's `sessionStorage`, as the handoff between the list views and the detail view
 * uses it: string keys, and values that are either the JSON text of an `Event`
 * (`JSON.parse(JSON.stringify(e))` gives `e` back) or text that does not parse as one.
 */
module Storage {
  import opened Wrappers
  import opened Events

  datatype Entry = Json(event: Event) | Unparseable

  /** `JSON.parse(sessionStorage.getItem(key))` with every failure (absent key, empty text,
      text that is not an event, a throwing read) turned into "no event". */
  function ReadEvent(items: map<string, Entry>, key: string, readFails: bool): (r: Option<Event>)
    ensures r.Some? <==> !readFails && key in items && items[key].Json?
    ensures r.Some? ==> r.value == items[key].event
  {
    if !readFails && key in items && items[key].Json? then Some(items[key].event) else None
  }

  class SessionStore {
    var items: map<string, Entry>

    constructor ()
      ensures items == map[]
    {
      items := map[];
    }

    /** `setItem(key, JSON.stringify(e))`; a write that throws (quota, disabled storage)
        is swallowed by every caller and leaves the store as it was. */
    method SetEvent(key: string, e: Event, fails: bool)
      modifies this
      ensures items == if fails then old(items) else old(items)[key := Json(e)]
      ensures forall k :: k != key ==> (k in items <==> k in old(items))
      ensures forall k :: k != key && k in items ==> items[k] == old(items)[k]
    {
      if !fails {
        items := items[key := Json(e)];
      }
    }
  }
}

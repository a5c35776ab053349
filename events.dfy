/**
 * The normalized list-level event record shared by the list, the map and the detail view.
 * A field the producer leaves undefined is the empty string here (both are falsy in the
 * client code); `price` is `None` for JSON `null`.
 */
module Events {
  import opened Wrappers

  datatype Event = Event(
    id: string,
    source: string,
    sourceId: string,
    title: string,
    description: string,
    image: string,
    url: Option<string>,
    date: string,
    time: string,
    locationName: string,
    address: string,
    city: string,
    latitude: real,
    longitude: real,
    price: Option<int>,
    category: string)
}

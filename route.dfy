/**
 * The events API route: the API-key guard, the defaulting of the query parameters, the
 * parameter list sent to the Ticketmaster discovery endpoint, and how the upstream reply is
 * turned into the route's response.
 */
module EventsApi {
  import opened Wrappers

  /** A query string as its ordered list of (name, value) entries. */
  type Params = seq<(string, string)>

  /** `URLSearchParams.get`: the value of the first entry with that name. */
  function GetParam(ps: Params, name: string): (r: Option<string>)
    ensures r.Some? <==> exists i :: 0 <= i < |ps| && ps[i].0 == name
    ensures r.Some? ==> exists i :: 0 <= i < |ps| && ps[i] == (name, r.value) &&
                                  (forall j :: 0 <= j < i ==> ps[j].0 != name)
  {
    if ps == [] then None
    else if ps[0].0 == name then Some(ps[0].1)
    else
      var r := GetParam(ps[1..], name);
      if r.Some? then
        var i :| 0 <= i < |ps[1..]| && ps[1..][i] == (name, r.value) &&
          forall j :: 0 <= j < i ==> ps[1..][j].0 != name;
        assert ps[i + 1] == (name, r.value);
        r
      else r
  }

  /** The entries whose name differs from `name`, in order. */
  function RemoveParam(ps: Params, name: string): (r: Params)
    ensures |r| <= |ps|
    ensures forall i :: 0 <= i < |r| ==> r[i].0 != name
  {
    if ps == [] then []
    else if ps[0].0 == name then RemoveParam(ps[1..], name)
    else [ps[0]] + RemoveParam(ps[1..], name)
  }

  lemma {:induction false} RemoveParamKeepsOthers(ps: Params, name: string, other: string)
    requires other != name
    ensures GetParam(RemoveParam(ps, name), other) == GetParam(ps, other)
    decreases |ps|
  {
    if ps != [] {
      RemoveParamKeepsOthers(ps[1..], name, other);
    }
  }

  /** `URLSearchParams.set`: the first entry with that name takes the value and the later ones
      are removed; without one, a new entry is appended. */
  function SetParam(ps: Params, name: string, value: string): Params
    decreases |ps|
  {
    if ps == [] then [(name, value)]
    else if ps[0].0 == name then [(name, value)] + RemoveParam(ps[1..], name)
    else [ps[0]] + SetParam(ps[1..], name, value)
  }

  /** After `set`, `get` returns the new value and every other name reads as before. */
  lemma {:induction false} SetParamThenGet(ps: Params, name: string, value: string, other: string)
    ensures GetParam(SetParam(ps, name, value), name) == Some(value)
    ensures other != name ==> GetParam(SetParam(ps, name, value), other) == GetParam(ps, other)
    decreases |ps|
  {
    if ps != [] {
      if ps[0].0 == name {
        if other != name {
          RemoveParamKeepsOthers(ps[1..], name, other);
        }
      } else {
        SetParamThenGet(ps[1..], name, value, other);
      }
    }
  }

  /** After `set`, exactly one entry carries the name. */
  lemma {:induction false} SetParamSingleEntry(ps: Params, name: string, value: string)
    ensures var r := SetParam(ps, name, value);
      forall i, j :: 0 <= i < |r| && 0 <= j < |r| && r[i].0 == name && r[j].0 == name ==> i == j
    decreases |ps|
  {
    if ps != [] && ps[0].0 != name {
      SetParamSingleEntry(ps[1..], name, value);
      var r := SetParam(ps, name, value);
      assert forall i :: 1 <= i < |r| ==> r[i] == SetParam(ps[1..], name, value)[i - 1];
    }
  }

  /** Setting a name that is absent appends it at the end. */
  lemma {:induction false} SetAbsentAppends(ps: Params, name: string, value: string)
    requires forall i :: 0 <= i < |ps| ==> ps[i].0 != name
    ensures SetParam(ps, name, value) == ps + [(name, value)]
    decreases |ps|
  {
    if ps != [] {
      SetAbsentAppends(ps[1..], name, value);
      assert ps == [ps[0]] + ps[1..];
    }
  }

  /** The mutable `URLSearchParams` object the route builds. */
  class SearchParams {
    var entries: Params

    constructor (init: Params)
      ensures entries == init
    {
      entries := init;
    }

    function Get(name: string): Option<string>
      reads this
    {
      GetParam(entries, name)
    }

    method Set(name: string, value: string)
      modifies this
      ensures entries == SetParam(old(entries), name, value)
    {
      entries := SetParam(entries, name, value);
    }
  }

  const DefaultCountryCode := "FR"
  const DefaultLatLong := "48.8566,2.3522"
  const DefaultRadius := "200"
  const DefaultSize := "200"
  const DefaultLocale := "fr-fr"
  const AllCountries := "ALL"
  const Endpoint := "https://app.ticketmaster.com/discovery/v2/events.json"
  const MissingKeyError := "Missing Ticketmaster API key"
  const UpstreamError := "Ticketmaster API error"

  /** `searchParams.get(name) || fallback`: an absent or empty parameter takes the default. */
  function ParamOr(query: Params, name: string, fallback: string): (r: string)
    ensures OrEmpty(GetParam(query, name)) != "" ==> r == GetParam(query, name).value
    ensures OrEmpty(GetParam(query, name)) == "" ==> r == fallback
  {
    OrElse(GetParam(query, name), fallback)
  }

  function CountryCode(query: Params): string {
    ParamOr(query, "countryCode", DefaultCountryCode)
  }

  /** The `countryCode &&` half of the guard never fails: after defaulting it is non-empty. */
  lemma CountryCodeNonEmpty(query: Params)
    ensures CountryCode(query) != ""
  {
  }

  /** The parameters the constructor receives, in its object-literal order. */
  function BaseParams(apiKey: string, query: Params): (r: Params)
    ensures |r| == 5
  {
    [("apikey", apiKey),
     ("latlong", ParamOr(query, "latlong", DefaultLatLong)),
     ("radius", ParamOr(query, "radius", DefaultRadius)),
     ("size", ParamOr(query, "size", DefaultSize)),
     ("locale", ParamOr(query, "locale", DefaultLocale))]
  }

  /** The upstream parameter list: the five base entries, then `countryCode` unless "ALL". */
  function UpstreamParams(apiKey: string, query: Params): (r: Params)
    ensures |r| == if CountryCode(query) == AllCountries then 5 else 6
    ensures r[..5] == BaseParams(apiKey, query)
    ensures |r| == 6 ==> r[5] == ("countryCode", CountryCode(query))
  {
    BaseParams(apiKey, query) +
      (if CountryCode(query) != AllCountries then [("countryCode", CountryCode(query))] else [])
  }

  /** The names always sent, in order. */
  lemma UpstreamNames(apiKey: string, query: Params)
    ensures var r := UpstreamParams(apiKey, query);
      r[0].0 == "apikey" && r[1].0 == "latlong" && r[2].0 == "radius" && r[3].0 == "size" &&
      r[4].0 == "locale" && r[0].1 == apiKey
  {
  }

  /** `countryCode` is sent exactly when it is not "ALL", with the (defaulted) value. */
  lemma CountryCodeSentUnlessAll(apiKey: string, query: Params)
    ensures GetParam(UpstreamParams(apiKey, query), "countryCode").Some? <==>
      CountryCode(query) != AllCountries
    ensures CountryCode(query) != AllCountries ==>
      GetParam(UpstreamParams(apiKey, query), "countryCode") == Some(CountryCode(query))
  {
    var r := UpstreamParams(apiKey, query);
    assert forall i :: 0 <= i < 5 ==> r[i] == BaseParams(apiKey, query)[i];
  }

  /** A request with no query parameters gets every default, France included. */
  lemma EmptyQueryDefaults(apiKey: string)
    ensures UpstreamParams(apiKey, []) ==
      [("apikey", apiKey), ("latlong", "48.8566,2.3522"), ("radius", "200"), ("size", "200"),
       ("locale", "fr-fr"), ("countryCode", "FR")]
  {
  }

  datatype Request = Request(endpoint: string, params: Params)

  /** What the awaited `fetch` gives: a reply with its status, its text, and its body parsed
      as JSON (None when it is not JSON), or a rejection. */
  datatype UpstreamReply =
    | Reply(ok: bool, status: int, text: string, json: Option<string>)
    | Rejected

  datatype Body =
    | ErrorBody(error: string)
    | UpstreamErrorBody(error: string, status: int, details: string)
    | Passthrough(json: string)

  /** A JSON response, or an exception that escapes the handler. */
  datatype Outcome = Respond(status: int, body: Body) | Unhandled

  /** The response once the upstream request was made. */
  function FromUpstream(reply: UpstreamReply): (o: Outcome)
    ensures reply.Reply? && !reply.ok ==>
      o == Respond(reply.status, UpstreamErrorBody(UpstreamError, reply.status, reply.text))
    ensures reply.Reply? && reply.ok && reply.json.Some? ==> o == Respond(200, Passthrough(reply.json.value))
    ensures o.Unhandled? <==> reply.Rejected? || (reply.ok && reply.json.None?)
  {
    match reply
    case Rejected => Unhandled
    case Reply(ok, status, text, json) =>
      if !ok then Respond(status, UpstreamErrorBody(UpstreamError, status, text))
      else if json.None? then Unhandled
      else Respond(200, Passthrough(json.value))
  }

  /** A reply that is not ok keeps its status; an ok one is answered with 200. */
  lemma StatusPassthrough(reply: UpstreamReply)
    requires reply.Reply? && (reply.ok ==> reply.json.Some?)
    ensures FromUpstream(reply).Respond?
    ensures FromUpstream(reply).status == if reply.ok then 200 else reply.status
  {
  }

  /** `GET`: the request it makes (None when none is made) and the outcome, with the reply
      to that request as an input. */
  method HandleGet(apiKey: Option<string>, query: Params, reply: UpstreamReply)
    returns (request: Option<Request>, outcome: Outcome)
    ensures OrEmpty(apiKey) == "" ==> request.None? && outcome == Respond(500, ErrorBody(MissingKeyError))
    ensures OrEmpty(apiKey) != "" ==>
      request == Some(Request(Endpoint, UpstreamParams(apiKey.value, query))) &&
      outcome == FromUpstream(reply)
  {
    if OrEmpty(apiKey) == "" {
      return None, Respond(500, ErrorBody(MissingKeyError));
    }
    var key := apiKey.value;
    var countryCode := ParamOr(query, "countryCode", DefaultCountryCode);
    var params := new SearchParams(BaseParams(key, query));
    CountryCodeNonEmpty(query);
    if countryCode != "" && countryCode != AllCountries {
      SetAbsentAppends(params.entries, "countryCode", countryCode);
      params.Set("countryCode", countryCode);
    }
    assert params.entries == UpstreamParams(key, query);
    request := Some(Request(Endpoint, params.entries));
    outcome := FromUpstream(reply);
  }
}

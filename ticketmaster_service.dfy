/** The backend's ticketing-provider client: the API-key lookup, the query each call sends and
    the soft-failing suggest. The environment variable and each HTTP result are parameters;
    a call that sends nothing reports `sent == None`. */
module TicketmasterService {
  import opened Common
  import opened Provider

  const TmBase: string := "https://app.ticketmaster.com/discovery/v2"

  const MissingKey: string :=
    "TM_API_KEY is not set in environment. For local development, add it to backend/.env or set TM_API_KEY in your shell."

  /** A GET to the provider: the URL and its query parameters. */
  datatype Query = Query(url: string, params: map<string, string>)

  /** The search arguments; the coordinates are carried as text. */
  datatype SearchArgs = SearchArgs(keyword: string, radius: string, lat: string, lng: string, segmentId: Option<string>)

  /** `getApiKey()`: throws when `TM_API_KEY` is unset or empty, returns it otherwise. */
  function GetApiKey(env: Option<string>): (r: Outcome<string>)
    ensures r.Ok? <==> Truthy(env)
    ensures r.Ok? ==> r.value == env.value
    ensures r.Fail? ==> r.message == MissingKey
  {
    if Truthy(env) then Ok(env.value) else Fail(MissingKey)
  }

  /** The query `searchEvents` sends with key `apikey`. */
  function SearchQuery(apikey: string, args: SearchArgs): (q: Query)
    ensures q.url == TmBase + "/events.json"
    ensures "unit" in q.params && q.params["unit"] == "miles"
    ensures "apikey" in q.params && q.params["apikey"] == apikey
    ensures "keyword" in q.params && q.params["keyword"] == args.keyword
    ensures "radius" in q.params && q.params["radius"] == args.radius
    ensures "segmentId" in q.params <==> Truthy(args.segmentId)
    ensures Truthy(args.segmentId) ==> q.params["segmentId"] == args.segmentId.value
  {
    var base := map["apikey" := apikey, "keyword" := args.keyword, "radius" := args.radius,
                    "unit" := "miles", "latlong" := args.lat + "," + args.lng];
    Query(TmBase + "/events.json", if Truthy(args.segmentId) then base["segmentId" := args.segmentId.value] else base)
  }

  /** `searchEvents(args)`: a missing key throws before anything is sent; otherwise the query
      goes out and its outcome, failure included, is returned as it came (nothing is caught). */
  function SearchEvents<D>(env: Option<string>, args: SearchArgs, response: Outcome<D>)
    : (r: (Option<Query>, Outcome<D>))
    ensures r.0.Some? <==> Truthy(env)
    ensures r.0.Some? ==> r.0.value == SearchQuery(env.value, args) && r.1 == response
    ensures r.0.None? ==> r.1 == Fail(MissingKey)
  {
    match GetApiKey(env)
    case Fail(m) => (None, Fail(m))
    case Ok(key) => (Some(SearchQuery(key, args)), response)
  }

  /** `getEventDetails(id)`: the same propagation, for the event's own URL. */
  function GetEventDetails<D>(env: Option<string>, id: string, response: Outcome<D>)
    : (r: (Option<Query>, Outcome<D>))
    ensures r.0.Some? <==> Truthy(env)
    ensures r.0.Some? ==> r.0.value == Query(TmBase + "/events/" + id + ".json", map["apikey" := env.value])
    ensures r.0.Some? ==> r.1 == response
    ensures r.0.None? ==> r.1 == Fail(MissingKey)
  {
    match GetApiKey(env)
    case Fail(m) => (None, Fail(m))
    case Ok(key) => (Some(Query(TmBase + "/events/" + id + ".json", map["apikey" := key])), response)
  }

  /** `suggestKeywords(q)`: the key is read inside the `try`, so a missing key, a 429 or any
      other failure all give the empty embedded shape; a success gives the payload unchanged. */
  function SuggestKeywords(env: Option<string>, q: string, response: Outcome<SuggestData>)
    : (r: (Option<Query>, SuggestData))
    ensures r.0.Some? <==> Truthy(env)
    ensures r.0.Some? ==> r.0.value == Query(TmBase + "/suggest", map["apikey" := env.value, "keyword" := q])
    ensures r.0.Some? && response.Ok? ==> r.1 == response.value
    ensures r.0.None? || response.Fail? ==> r.1 == EmptySuggest
  {
    match GetApiKey(env)
    case Fail(_) => (None, EmptySuggest)
    case Ok(key) =>
      var sent := Query(TmBase + "/suggest", map["apikey" := key, "keyword" := q]);
      match response
      case Ok(data) => (Some(sent), data)
      case Fail(_) => (Some(sent), EmptySuggest)
  }
}

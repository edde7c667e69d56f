/** The backend events router: GET /search validates its query and forwards it to the
    ticketing client; GET /:id fetches one event. Each handler maps the client's outcome to a
    status and a JSON body and reports the query the client sent, if any. */
module EventsRoute {
  import opened Common
  import opened Http
  import TicketmasterService

  const SearchFailed: string := "Ticketmaster search failed"
  const DetailsFailed: string := "Ticketmaster event details failed"
  const MissingParameters: string := "Missing required parameters"

  /** The query string of /search; each parameter may be absent. */
  datatype SearchQuery = SearchQuery(
    keyword: Option<string>,
    radius: Option<string>,
    lat: Option<string>,
    lng: Option<string>,
    segmentId: Option<string>)

  /** All four of keyword, radius, lat and lng are present and non-empty. */
  predicate HasRequired(q: SearchQuery) {
    Truthy(q.keyword) && Truthy(q.radius) && Truthy(q.lat) && Truthy(q.lng)
  }

  /** The arguments handed to `searchEvents`: keyword and radius as given, the segment only
      when it is present and non-empty. */
  function ForwardedArgs(q: SearchQuery): (a: TicketmasterService.SearchArgs)
    requires HasRequired(q)
    ensures a.keyword == q.keyword.value && a.radius == q.radius.value
    ensures a.segmentId.Some? <==> Truthy(q.segmentId)
    ensures a.segmentId.Some? ==> a.segmentId == q.segmentId
  {
    TicketmasterService.SearchArgs(q.keyword.value, q.radius.value, q.lat.value, q.lng.value,
      if Truthy(q.segmentId) then q.segmentId else None)
  }

  /** GET /search. A missing or empty required parameter gives 400 and calls nothing; otherwise
      the provider's data comes back unchanged with 200, and any failure of the client (a
      missing key or a failed request) gives 500 with a fixed message. */
  function Search<D>(q: SearchQuery, env: Option<string>, response: Outcome<D>)
    : (r: (Reply<D>, Option<TicketmasterService.Query>))
    ensures !HasRequired(q) ==> r == (Reply(400, Error(MissingParameters)), None)
    ensures HasRequired(q) ==> r.1 == TicketmasterService.SearchEvents(env, ForwardedArgs(q), response).0
    ensures HasRequired(q) && r.1.Some? && response.Ok? ==> r.0 == Reply(200, Data(response.value))
    ensures HasRequired(q) && (r.1.None? || response.Fail?) ==> r.0 == Reply(500, Error(SearchFailed))
  {
    if !HasRequired(q) then (Reply(400, Error(MissingParameters)), None)
    else
      var (sent, outcome) := TicketmasterService.SearchEvents(env, ForwardedArgs(q), response);
      match outcome
      case Ok(data) => (Reply(200, Data(data)), sent)
      case Fail(_) => (Reply(500, Error(SearchFailed)), sent)
  }

  /** GET /:id: the event's data with 200, or 500 with a fixed message on any failure. */
  function Details<D>(id: string, env: Option<string>, response: Outcome<D>)
    : (r: (Reply<D>, Option<TicketmasterService.Query>))
    ensures r.1 == TicketmasterService.GetEventDetails(env, id, response).0
    ensures r.1.Some? && response.Ok? ==> r.0 == Reply(200, Data(response.value))
    ensures r.1.None? || response.Fail? ==> r.0 == Reply(500, Error(DetailsFailed))
  {
    var (sent, outcome) := TicketmasterService.GetEventDetails(env, id, response);
    match outcome
    case Ok(data) => (Reply(200, Data(data)), sent)
    case Fail(_) => (Reply(500, Error(DetailsFailed)), sent)
  }

  /** A search with every required parameter sends a query with unit "miles", the keyword and
      radius as given, and a segment id exactly when one was given. */
  lemma SearchForwards<D>(q: SearchQuery, env: Option<string>, response: Outcome<D>)
    requires HasRequired(q) && Truthy(env)
    ensures var sent := Search(q, env, response).1;
      && sent.Some?
      && sent.value.params["unit"] == "miles"
      && sent.value.params["keyword"] == q.keyword.value
      && sent.value.params["radius"] == q.radius.value
      && ("segmentId" in sent.value.params <==> Truthy(q.segmentId))
  {
  }
}

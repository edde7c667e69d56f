/** The search page: the category-to-segment mapping, the form validation, the request it
    sends to the backend's /events/search and the mapping of the results to event summaries.
    The coordinates lookup (IP-based or geocoded, both external services) and the search
    response are parameters. */
module SearchPage {
  import opened Common
  import opened Provider
  import EventsRoute
  import EventDetail

  const KeywordAlert: string := "Please enter a keyword."
  const LocationAlert: string := "Please enter a location or enable auto-detect."
  const FetchAlert: string := "Failed to fetch events (check API keys / network)."
  const DefaultRadius: string := "10"
  const NotApplicable: string := "N/A"

  const Segments: map<string, string> := map[
    "Music" := "KZFzniwnSyZfZ7v7nJ", "Sports" := "KZFzniwnSyZfZ7v7nE", "Arts & Theatre" := "KZFzniwnSyZfZ7v7na",
    "Film" := "KZFzniwnSyZfZ7v7nn", "Miscellaneous" := "KZFzniwnSyZfZ7v7n1"]

  /** `getSegmentId(category)`: the provider's segment id for five categories, none for any
      other (including "All"). */
  function GetSegmentId(category: string): Option<string>
  {
    if category in Segments then Some(Segments[category]) else None
  }

  /** Exactly the five named categories map to a segment id, and each id is non-empty. */
  lemma GetSegmentIdDomain(category: string)
    ensures GetSegmentId(category).Some? <==>
      category in {"Music", "Sports", "Arts & Theatre", "Film", "Miscellaneous"}
    ensures GetSegmentId(category).Some? ==> GetSegmentId(category).value != ""
  {
  }

  /** Different categories never share a segment id, and every id is non-empty. */
  lemma GetSegmentIdInjective(a: string, b: string)
    requires GetSegmentId(a).Some? && GetSegmentId(a) == GetSegmentId(b)
    ensures a == b
  {
    assert "KZFzniwnSyZfZ7v7nJ"[17] == 'J' && "KZFzniwnSyZfZ7v7nE"[17] == 'E';
    assert "KZFzniwnSyZfZ7v7na"[17] == 'a' && "KZFzniwnSyZfZ7v7nn"[17] == 'n';
    assert "KZFzniwnSyZfZ7v7n1"[17] == '1';
  }

  /** The coordinates, carried as the text they are sent as. */
  datatype Coords = Coords(lat: string, lng: string)

  /** The query parameters of GET /events/search. */
  datatype SearchParams = SearchParams(
    keyword: string,
    radius: string,
    lat: string,
    lng: string,
    segmentId: Option<string>)

  /** The alert that stops a submission before any request, if any: a blank keyword first,
      then a blank location when auto-detect is off. */
  function Validate(keyword: string, location: string, autoDetect: bool): Option<string>
  {
    if Trim(keyword) == "" then Some(KeywordAlert)
    else if !autoDetect && Trim(location) == "" then Some(LocationAlert)
    else None
  }

  /** The keyword alert shows exactly for a blank keyword, the location alert exactly for a
      non-blank keyword with auto-detect off and a blank location, and the submission goes
      ahead otherwise. */
  lemma ValidateMeaning(keyword: string, location: string, autoDetect: bool)
    ensures var r := Validate(keyword, location, autoDetect);
      && (r == Some(KeywordAlert) <==> AllSpace(keyword))
      && (r == Some(LocationAlert) <==> !AllSpace(keyword) && !autoDetect && AllSpace(location))
      && (r.None? <==> !AllSpace(keyword) && (autoDetect || !AllSpace(location)))
  {
    TrimEmptyIffBlank(keyword);
    TrimEmptyIffBlank(location);
  }

  /** The parameters sent: the keyword as typed (untrimmed), `distance || "10"`, the
      coordinates, and a segment id only when the category maps to one. */
  function Params(keyword: string, category: string, distance: string, coords: Coords): (p: SearchParams)
    ensures p.keyword == keyword && p.lat == coords.lat && p.lng == coords.lng
    ensures p.radius != ""
    ensures distance != "" ==> p.radius == distance
    ensures distance == "" ==> p.radius == DefaultRadius
    ensures p.segmentId == GetSegmentId(category)
  {
    SearchParams(keyword, if distance != "" then distance else DefaultRadius, coords.lat, coords.lng,
      GetSegmentId(category))
  }

  /** One result as the search page maps it. Unlike the detail view, the genre falls back to
      "N/A" only when the segment name is absent (`??`), and the image has no seatmap
      fallback. */
  function MapEvent(e: TMEvent): (r: EventSummary)
    ensures r.id == e.id && r.name == e.name
    ensures r.date == LocalDate(e).GetOr("") && r.time == LocalTime(e).GetOr("")
    ensures r.venue == FirstVenueName(e).GetOr("")
    ensures FirstSegmentName(e).Some? ==> r.genre == FirstSegmentName(e).value
    ensures FirstSegmentName(e).None? ==> r.genre == NotApplicable
    ensures r.imageUrl == FirstImageUrl(e).GetOr("")
  {
    EventSummary(e.id, e.name, LocalDate(e).GetOr(""), LocalTime(e).GetOr(""),
      FirstVenueName(e).GetOr(""), FirstSegmentName(e).GetOr(NotApplicable), FirstImageUrl(e).GetOr(""))
  }

  /** `res.data?._embedded?.events ?? []`. */
  function EventsOf(data: Option<SearchData>): seq<TMEvent>
  {
    if data.Some? && data.value.embedded.Some? then data.value.embedded.value.events.GetOr([]) else []
  }

  /** The mapped results: one summary per provider event, in the provider's order. */
  function MapEvents(data: Option<SearchData>): (r: seq<EventSummary>)
    ensures |r| == |EventsOf(data)|
    ensures forall j :: 0 <= j < |r| ==> r[j] == MapEvent(EventsOf(data)[j])
    ensures data.None? ==> r == []
  {
    var events := EventsOf(data);
    seq(|events|, j requires 0 <= j < |events| => MapEvent(events[j]))
  }

  /** The search page and the detail view summarise an event alike, except that an empty
      segment name gives "" here and "N/A" there, and that without an image the detail view
      falls back to the seatmap. */
  lemma SummariesAgree(e: TMEvent)
    ensures var s, d := MapEvent(e), EventDetail.ToSummary(e);
      && s.id == d.id && s.name == d.name && s.date == d.date && s.time == d.time && s.venue == d.venue
      && (s.genre == d.genre <==> FirstSegmentName(e) != Some(""))
      && (FirstImageUrl(e).Some? || SeatmapUrl(e).None? ==> s.imageUrl == d.imageUrl)
  {
  }

  /** The request the page sends, as the backend's /search handler receives it. */
  function AsBackendQuery(p: SearchParams): (q: EventsRoute.SearchQuery)
    ensures q.keyword == Some(p.keyword) && q.radius == Some(p.radius)
    ensures q.segmentId == p.segmentId
  {
    EventsRoute.SearchQuery(Some(p.keyword), Some(p.radius), Some(p.lat), Some(p.lng), p.segmentId)
  }

  /** A submission that passes validation, with coordinates that print as non-empty text,
      always passes the backend's required-parameter check, and the backend forwards the
      category's segment id exactly when the page sent one. */
  lemma ValidSubmissionPassesBackend(keyword: string, location: string, autoDetect: bool,
                                     category: string, distance: string, coords: Coords)
    requires Validate(keyword, location, autoDetect).None?
    requires coords.lat != "" && coords.lng != ""
    ensures var q := AsBackendQuery(Params(keyword, category, distance, coords));
      && EventsRoute.HasRequired(q)
      && EventsRoute.ForwardedArgs(q).segmentId == GetSegmentId(category)
  {
    ValidateMeaning(keyword, location, autoDetect);
    GetSegmentIdDomain(category);
  }

  /** The page's state. */
  class SearchForm {
    var keyword: string
    var category: string
    var distance: string
    var location: string
    var autoDetect: bool
    var events: seq<EventSummary>
    var loading: bool
    /** The alerts shown, oldest first. */
    var alerts: seq<string>

    /** The initial form: no keyword, category "All", distance "10", auto-detect on. */
    constructor ()
      ensures keyword == "" && category == "All" && distance == DefaultRadius && location == ""
      ensures autoDetect && events == [] && !loading && alerts == []
    {
      keyword, category, distance, location := "", "All", DefaultRadius, "";
      autoDetect, events, loading, alerts := true, [], false, [];
    }

    /** The auto-detect checkbox: flips the flag, and turning it on clears the location. */
    method ToggleAutoDetect()
      modifies this
      ensures autoDetect == !old(autoDetect)
      ensures location == (if autoDetect then "" else old(location))
      ensures keyword == old(keyword) && category == old(category) && distance == old(distance)
      ensures events == old(events) && loading == old(loading) && alerts == old(alerts)
    {
      autoDetect := !autoDetect;
      if autoDetect {
        location := "";
      }
    }

    /** `handleSearch`. A validation alert stops it with nothing else changed. Otherwise the
        coordinates are looked up (by IP with auto-detect on, else by geocoding the trimmed
        location, reported in `geocoded`) and the search is run. */
    method HandleSearch(coords: Outcome<Coords>, response: Outcome<Option<SearchData>>)
      returns (geocoded: Option<string>, sent: Option<SearchParams>)
      modifies this
      ensures keyword == old(keyword) && category == old(category) && distance == old(distance)
      ensures location == old(location) && autoDetect == old(autoDetect)
      ensures Validate(keyword, location, autoDetect).Some? ==>
        && geocoded == None && sent == None
        && alerts == old(alerts) + [Validate(keyword, location, autoDetect).value]
        && events == old(events) && loading == old(loading)
      ensures Validate(keyword, location, autoDetect).None? ==>
        && geocoded == (if autoDetect then None else Some(Trim(location)))
        && Searched(old(alerts), coords, response, sent)
    {
      var invalid := Validate(keyword, location, autoDetect);
      if invalid.Some? {
        alerts := alerts + [invalid.value];
        geocoded, sent := None, None;
      } else {
        geocoded := if autoDetect then None else Some(Trim(location));
        sent := Search(coords, response);
      }
    }

    /** The state after the search proper, from alerts `alerts0`: loading is off; a failed
        coordinates lookup sends nothing; otherwise the form's parameters are sent; a
        successful search shows the mapped results, and any failure shows the fetch alert
        with no results. */
    ghost predicate Searched(alerts0: seq<string>, coords: Outcome<Coords>,
                             response: Outcome<Option<SearchData>>, sent: Option<SearchParams>)
      reads this
    {
      && !loading
      && (coords.Fail? ==> sent == None)
      && (coords.Ok? ==> sent == Some(Params(keyword, category, distance, coords.value)))
      && (sent.Some? && response.Ok? ==> events == MapEvents(response.value) && alerts == alerts0)
      && (sent.None? || response.Fail? ==> events == [] && alerts == alerts0 + [FetchAlert])
    }

    /** The `try` block of `handleSearch`, with the results cleared and loading on first and
        loading off at the end. */
    method Search(coords: Outcome<Coords>, response: Outcome<Option<SearchData>>)
      returns (sent: Option<SearchParams>)
      modifies this
      ensures keyword == old(keyword) && category == old(category) && distance == old(distance)
      ensures location == old(location) && autoDetect == old(autoDetect)
      ensures Searched(old(alerts), coords, response, sent)
    {
      loading := true;
      events := [];
      sent := None;
      if coords.Fail? {
        alerts := alerts + [FetchAlert];
      } else {
        sent := Some(Params(keyword, category, distance, coords.value));
        if response.Fail? {
          alerts := alerts + [FetchAlert];
        } else {
          events := MapEvents(response.value);
        }
      }
      loading := false;
    }
  }

  /** A search from the initial form with a keyword typed in: the coordinates come from the
      IP lookup, the radius is "10", no segment is sent for "All", and the results are the
      mapped provider events. */
  method FirstSearch(keyword: string, coords: Coords, data: Option<SearchData>)
    returns (sent: Option<SearchParams>, events: seq<EventSummary>)
    requires !AllSpace(keyword)
    ensures sent == Some(SearchParams(keyword, DefaultRadius, coords.lat, coords.lng, None))
    ensures events == MapEvents(data)
  {
    ValidateMeaning(keyword, "", true);
    var form := new SearchForm();
    form.keyword := keyword;
    var geocoded;
    geocoded, sent := form.HandleSearch(Ok(coords), Ok(data));
    events := form.events;
  }

  /** Submitting a blank keyword, whatever else the form holds, sends nothing and alerts. */
  method BlankKeyword(keyword: string, location: string)
    returns (sent: Option<SearchParams>, alerts: seq<string>)
    requires AllSpace(keyword)
    ensures sent.None? && alerts == [KeywordAlert]
  {
    ValidateMeaning(keyword, location, true);
    var form := new SearchForm();
    form.keyword := keyword;
    form.location := location;
    var geocoded;
    geocoded, sent := form.HandleSearch(Ok(Coords("0", "0")), Ok(None));
    alerts := form.alerts;
  }
}

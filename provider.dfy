/** The parts of the ticketing provider's JSON payloads that the application reads. Every
    member that the code reaches with optional chaining is an `Option`. */
module Provider {
  import opened Common

  datatype Named = Named(name: Option<string>)

  /** One entry of `classifications`: segment, genre and sub-genre, each with a name. */
  datatype Classification = Classification(segment: Option<Named>, genre: Option<Named>, subGenre: Option<Named>)

  datatype Start = Start(localDate: Option<string>, localTime: Option<string>)

  datatype Status = Status(code: Option<string>)

  datatype Dates = Dates(start: Option<Start>, status: Option<Status>)

  datatype Image = Image(url: Option<string>)

  datatype Seatmap = Seatmap(staticUrl: Option<string>)

  datatype Attraction = Attraction(id: string, name: string)

  datatype EventEmbedded = EventEmbedded(attractions: Option<seq<Attraction>>, venues: Option<seq<Named>>)

  /** An event as the provider returns it, in search results and from the detail endpoint. */
  datatype TMEvent = TMEvent(
    id: string,
    name: string,
    dates: Option<Dates>,
    seatmap: Option<Seatmap>,
    classifications: Option<seq<Classification>>,
    images: Option<seq<Image>>,
    embedded: Option<EventEmbedded>)

  /** The search payload: `_embedded.events`. */
  datatype SearchEmbedded = SearchEmbedded(events: Option<seq<TMEvent>>)
  datatype SearchData = SearchData(embedded: Option<SearchEmbedded>)

  /** The suggest payload: `_embedded.attractions` and `_embedded.venues`. */
  datatype SuggestRaw = SuggestRaw(id: string, name: Option<string>)
  datatype SuggestEmbedded = SuggestEmbedded(attractions: Option<seq<SuggestRaw>>, venues: Option<seq<SuggestRaw>>)
  datatype SuggestData = SuggestData(embedded: Option<SuggestEmbedded>)

  /** `{ _embedded: { attractions: [], venues: [] } }`. */
  const EmptySuggest: SuggestData := SuggestData(Some(SuggestEmbedded(Some([]), Some([]))))

  /** `data?._embedded?.attractions ?? []`. */
  function SuggestAttractions(data: SuggestData): seq<SuggestRaw>
  {
    if data.embedded.Some? then data.embedded.value.attractions.GetOr([]) else []
  }

  /** `data?._embedded?.venues ?? []`. */
  function SuggestVenues(data: SuggestData): seq<SuggestRaw>
  {
    if data.embedded.Some? then data.embedded.value.venues.GetOr([]) else []
  }

  // ----- optional chains -----

  /** `xs?.[0]`. */
  function Head<T>(xs: Option<seq<T>>): Option<T>
  {
    if xs.Some? && |xs.value| > 0 then Some(xs.value[0]) else None
  }

  /** `n?.name`. */
  function NameOf(n: Option<Named>): Option<string>
  {
    if n.Some? then n.value.name else None
  }

  /** `e.dates?.start?.localDate`. */
  function LocalDate(e: TMEvent): Option<string>
  {
    if e.dates.Some? && e.dates.value.start.Some? then e.dates.value.start.value.localDate else None
  }

  /** `e.dates?.start?.localTime`. */
  function LocalTime(e: TMEvent): Option<string>
  {
    if e.dates.Some? && e.dates.value.start.Some? then e.dates.value.start.value.localTime else None
  }

  /** `e.dates?.status?.code`. */
  function StatusCode(e: TMEvent): Option<string>
  {
    if e.dates.Some? && e.dates.value.status.Some? then e.dates.value.status.value.code else None
  }

  /** `e._embedded?.venues?.[0]?.name`. */
  function FirstVenueName(e: TMEvent): Option<string>
  {
    if e.embedded.Some? then NameOf(Head(e.embedded.value.venues)) else None
  }

  /** `e.images?.[0]?.url`. */
  function FirstImageUrl(e: TMEvent): Option<string>
  {
    var img := Head(e.images);
    if img.Some? then img.value.url else None
  }

  /** `e.seatmap?.staticUrl`. */
  function SeatmapUrl(e: TMEvent): Option<string>
  {
    if e.seatmap.Some? then e.seatmap.value.staticUrl else None
  }

  /** `e.classifications?.[0]?.segment?.name`. */
  function FirstSegmentName(e: TMEvent): Option<string>
  {
    var c := Head(e.classifications);
    if c.Some? then NameOf(c.value.segment) else None
  }

  /** `e._embedded?.attractions ?? []`. */
  function AttractionsOf(e: TMEvent): seq<Attraction>
  {
    if e.embedded.Some? then e.embedded.value.attractions.GetOr([]) else []
  }
}

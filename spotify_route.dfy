/** The backend music router: GET /lookup finds an artist by name; GET /artist/:id and
    GET /artist/:id/albums pass the provider's data through. The outcome of each provider call
    is a parameter (the token cache behind it is modelled in `SpotifyService`). */
module SpotifyRoute {
  import opened Common
  import opened Http

  const NameRequired: string := "name is required"
  const LookupFailed: string := "spotify lookup failed"
  const ArtistFailed: string := "spotify artist failed"
  const AlbumsFailed: string := "spotify albums failed"

  /** The part of the artist search payload the route reads: `artists.items`. */
  datatype ArtistSearch<A> = ArtistSearch(items: Option<seq<A>>)

  /** `String(req.query.name || "").trim()`. */
  function LookupName(name: Option<string>): string
  {
    Trim(if Truthy(name) then name.value else "")
  }

  /** `e.message || fallback`. */
  function ErrorMessage(message: string, fallback: string): (m: string)
    ensures message != "" ==> m == message
    ensures message == "" ==> m == fallback
  {
    if message != "" then message else fallback
  }

  /** GET /lookup. A name that is blank after trimming gives 400 and no lookup. Otherwise the
      trimmed name is looked up; the reply is `{ artist }` with the first item or null, or 500
      with the error's message (a fixed one when it is empty). */
  function Lookup<A>(name: Option<string>, search: Outcome<ArtistSearch<A>>)
    : (r: (Reply<Option<A>>, Option<string>))
    ensures LookupName(name) == "" ==> r == (Reply(400, Error(NameRequired)), None)
    ensures LookupName(name) != "" ==> r.1 == Some(LookupName(name))
    ensures LookupName(name) != "" && search.Ok? ==>
      var items := search.value.items;
      r.0.status == 200 && r.0.body.Data? &&
      (r.0.body.data.Some? <==> items.Some? && items.value != []) &&
      (r.0.body.data.Some? ==> r.0.body.data.value == items.value[0])
    ensures LookupName(name) != "" && search.Fail? ==>
      r.0 == Reply(500, Error(ErrorMessage(search.message, LookupFailed)))
  {
    var trimmed := LookupName(name);
    if trimmed == "" then (Reply(400, Error(NameRequired)), None)
    else
      match search
      case Fail(message) => (Reply(500, Error(ErrorMessage(message, LookupFailed))), Some(trimmed))
      case Ok(data) =>
        var artist := if data.items.Some? && |data.items.value| > 0 then Some(data.items.value[0]) else None;
        (Reply(200, Data(artist)), Some(trimmed))
  }

  /** A pass-through route: the data with 200, or 500 with the error's message, or `fallback`
      when that message is empty. */
  function PassThrough<D>(outcome: Outcome<D>, fallback: string): (r: Reply<D>)
    ensures outcome.Ok? ==> r == Reply(200, Data(outcome.value))
    ensures outcome.Fail? ==> r == Reply(500, Error(ErrorMessage(outcome.message, fallback)))
    ensures outcome.Fail? && fallback != "" ==> r.body.error != ""
  {
    match outcome
    case Ok(data) => Reply(200, Data(data))
    case Fail(message) => Reply(500, Error(ErrorMessage(message, fallback)))
  }

  /** GET /artist/:id. */
  function Artist<D>(outcome: Outcome<D>): (r: Reply<D>)
    ensures outcome.Ok? ==> r == Reply(200, Data(outcome.value))
    ensures outcome.Fail? ==> r == Reply(500, Error(ErrorMessage(outcome.message, ArtistFailed)))
    ensures outcome.Fail? ==> r.body.error != ""
  {
    PassThrough(outcome, ArtistFailed)
  }

  /** GET /artist/:id/albums. */
  function Albums<D>(outcome: Outcome<D>): (r: Reply<D>)
    ensures outcome.Ok? ==> r == Reply(200, Data(outcome.value))
    ensures outcome.Fail? ==> r == Reply(500, Error(ErrorMessage(outcome.message, AlbumsFailed)))
    ensures outcome.Fail? ==> r.body.error != ""
  {
    PassThrough(outcome, AlbumsFailed)
  }

  /** Whitespace of any kind and length around the name does not change what is looked up. */
  lemma LookupIgnoresPadding<A>(pre: string, name: string, post: string, search: Outcome<ArtistSearch<A>>)
    requires name != "" && !IsSpace(name[0]) && !IsSpace(name[|name| - 1])
    requires AllSpace(pre) && AllSpace(post)
    ensures LookupName(Some(pre + name + post)) == name
    ensures Lookup(Some(pre + name + post), search).1 == Some(name)
  {
    assert |pre + name + post| > 0;
    TrimPadded(pre, name, post);
  }
}

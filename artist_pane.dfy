/** The artist pane of the event detail view: it tries candidate names in order until one
    resolves on the music provider, then loads that artist and its albums, dropping repeated
    albums. Each provider call's outcome is a parameter: `lookup` for the name search,
    `fetchArtist` and `fetchAlbums` for the artist id. */
module ArtistPane {
  import opened Common
  import FirstOccurrence

  const MaxGenres: nat := 6

  /** The fields of a provider artist the pane reads. */
  datatype Artist = Artist(
    id: string,
    name: Option<string>,
    followers: Option<int>,
    popularity: Option<int>,
    genres: Option<seq<string>>)

  /** The fields of a provider album the pane reads. */
  datatype Album = Album(id: string, name: string, releaseDate: string)

  /** `[preferredName, ...fallbackNames].filter(Boolean)`: the names to try, in order. */
  function CandidateNames(preferred: Option<string>, fallbacks: seq<string>): (r: seq<string>)
    ensures forall j :: 0 <= j < |r| ==> r[j] != ""
    ensures Truthy(preferred) ==> r != [] && r[0] == preferred.value && r[1..] == NonEmpty(fallbacks)
    ensures !Truthy(preferred) ==> r == NonEmpty(fallbacks)
  {
    NonEmpty((if preferred.Some? then [preferred.value] else [""]) + fallbacks)
  }

  /** Where the name search stops: the index of the first name whose lookup fails or finds an
      artist, or |names| when every lookup finds nothing. */
  function Stop<A>(names: seq<string>, lookup: string -> Outcome<Option<A>>): (n: nat)
    ensures n <= |names|
    ensures forall i :: 0 <= i < n ==> lookup(names[i]) == Ok(None)
    ensures n < |names| ==> lookup(names[n]) != Ok(None)
  {
    if names == [] then 0
    else if lookup(names[0]) != Ok(None) then 0
    else 1 + Stop(names[1..], lookup)
  }

  /** What the name search settles on: the first found artist, the first failure, or
      `Ok(None)` when no name resolves. */
  function Resolution<A>(names: seq<string>, lookup: string -> Outcome<Option<A>>): Outcome<Option<A>>
  {
    var n := Stop(names, lookup);
    if n < |names| then lookup(names[n]) else Ok(None)
  }

  /** The names looked up: every name up to and including the one the search stops at. */
  function Tried<A>(names: seq<string>, lookup: string -> Outcome<Option<A>>): seq<string>
  {
    var n := Stop(names, lookup);
    names[..if n < |names| then n + 1 else n]
  }

  /** The album de-duplication key: name and release date joined by "|". */
  function AlbumKey(d: Album): string
  {
    d.name + "|" + d.releaseDate
  }

  /** What the album filter keeps: the first album for every key, in order. */
  function DedupedAlbums(discs: seq<Album>): seq<Album>
  {
    FirstOccurrence.KeepFirst(discs, AlbumKey, {})
  }

  /** `discs.filter(...)` with its `seen` set: an album is kept when its key is new. */
  method DedupeAlbums(discs: seq<Album>) returns (clean: seq<Album>)
    ensures clean == DedupedAlbums(discs)
  {
    var seen: set<string> := {};
    clean := [];
    var i := 0;
    while i < |discs|
      invariant 0 <= i <= |discs|
      invariant seen == FirstOccurrence.KeySet(clean, AlbumKey)
      invariant clean + FirstOccurrence.KeepFirst(discs[i..], AlbumKey, seen) == DedupedAlbums(discs)
    {
      var d := discs[i];
      var key := AlbumKey(d);
      FirstOccurrence.KeepFirstStep(clean, discs, i, AlbumKey, seen, DedupedAlbums(discs));
      if key !in seen {
        seen := seen + {key};
        clean := clean + [d];
      }
      i := i + 1;
    }
  }

  /** The kept albums are a subsequence of the fetched ones, no two share a key, every key is
      represented, and each kept album is the first fetched album with its key. */
  lemma DedupedAlbumsProperties(discs: seq<Album>)
    ensures FirstOccurrence.IsSubsequence(DedupedAlbums(discs), discs)
    ensures FirstOccurrence.DistinctKeys(DedupedAlbums(discs), AlbumKey)
    ensures FirstOccurrence.KeySet(DedupedAlbums(discs), AlbumKey) == FirstOccurrence.KeySet(discs, AlbumKey)
    ensures forall i :: 0 <= i < |discs| ==>
      exists j :: 0 <= j < |DedupedAlbums(discs)| && AlbumKey(DedupedAlbums(discs)[j]) == AlbumKey(discs[i])
    ensures forall j :: 0 <= j < |DedupedAlbums(discs)| ==>
      var n := FirstOccurrence.FirstIndex(discs, AlbumKey(DedupedAlbums(discs)[j]), AlbumKey);
      n < |discs| && discs[n] == DedupedAlbums(discs)[j]
  {
    FirstOccurrence.KeepFirstSubsequence(discs, AlbumKey, {});
    FirstOccurrence.KeepFirstDistinct(discs, AlbumKey, {});
    FirstOccurrence.KeepFirstKeys(discs, AlbumKey, {});
    FirstOccurrence.KeepFirstIsFirst(discs, AlbumKey, {});
    FirstOccurrence.KeepFirstRepresents(discs, AlbumKey);
  }

  /** When the preferred name resolves, it is the only name looked up and its artist is the
      one chosen, whatever the fallbacks would give. */
  lemma PreferredNameWins<A>(preferred: string, fallbacks: seq<string>, lookup: string -> Outcome<Option<A>>)
    requires preferred != "" && lookup(preferred).Ok? && lookup(preferred).value.Some?
    ensures Tried(CandidateNames(Some(preferred), fallbacks), lookup) == [preferred]
    ensures Resolution(CandidateNames(Some(preferred), fallbacks), lookup) == lookup(preferred)
  {
    var names := CandidateNames(Some(preferred), fallbacks);
    assert names[0] == preferred;
    assert Stop(names, lookup) == 0;
  }

  /** No artist is found exactly when every candidate is looked up and each lookup finds
      nothing; a found artist comes from a name whose predecessors all found nothing, and the
      names after it are not looked up. */
  lemma ResolutionCharacterised<A>(names: seq<string>, lookup: string -> Outcome<Option<A>>)
    ensures Resolution(names, lookup) == Ok(None) <==>
      forall i :: 0 <= i < |names| ==> lookup(names[i]) == Ok(None)
    ensures Resolution(names, lookup) == Ok(None) ==> Tried(names, lookup) == names
    ensures Resolution(names, lookup).Ok? && Resolution(names, lookup).value.Some? ==>
      var t := Tried(names, lookup);
      && t != [] && t <= names
      && Resolution(names, lookup) == lookup(t[|t| - 1])
      && forall i :: 0 <= i < |t| - 1 ==> lookup(t[i]) == Ok(None)
  {
  }

  /** The header's figures: followers and popularity default to 0, and the genres shown are
      the first six of the artist's genres (none when it has no list). */
  function Header(a: Artist): (r: (int, int, seq<string>))
    ensures r.0 == a.followers.GetOr(0) && r.1 == a.popularity.GetOr(0)
    ensures |r.2| <= MaxGenres
    ensures a.genres.None? ==> r.2 == []
    ensures a.genres.Some? ==> r.2 <= a.genres.value
    ensures a.genres.Some? && |a.genres.value| >= MaxGenres ==> |r.2| == MaxGenres
    ensures a.genres.Some? && |a.genres.value| < MaxGenres ==> r.2 == a.genres.value
  {
    var genres := a.genres.GetOr([]);
    (a.followers.GetOr(0), a.popularity.GetOr(0), genres[..if |genres| < MaxGenres then |genres| else MaxGenres])
  }

  /** The pane's state. */
  class ArtistPaneView {
    var artist: Option<Artist>
    var albums: Option<seq<Album>>
    var loading: bool

    /** A fresh pane is loading, with no artist and no albums. */
    constructor ()
      ensures artist == None && albums == None && loading
    {
      artist, albums, loading := None, None, true;
    }

    /** `tryNames()`. The candidate names are looked up one at a time until one fails or finds
        an artist. A failed lookup rejects the whole load: the artist and albums stay as they
        were and the pane stays loading. When no name resolves the artist becomes null, no
        album request is made and loading ends. When one resolves it becomes the artist, then
        the full artist and its albums are requested together for its id; if both succeed the
        artist is replaced by the full one and the albums by the de-duplicated list, and
        loading ends; if either fails the load is rejected at that point. */
    method TryNames(preferred: Option<string>, fallbacks: seq<string>,
                    lookup: string -> Outcome<Option<Artist>>,
                    fetchArtist: string -> Outcome<Artist>,
                    fetchAlbums: string -> Outcome<seq<Album>>)
      returns (tried: seq<string>, fetched: Option<string>)
      modifies this
      ensures var names := CandidateNames(preferred, fallbacks);
        && tried == Tried(names, lookup)
        && match Resolution(names, lookup)
           case Fail(_) =>
             fetched == None && artist == old(artist) && albums == old(albums) && loading
           case Ok(None) =>
             fetched == None && artist == None && albums == old(albums) && !loading
           case Ok(Some(a)) =>
             && fetched == Some(a.id)
             && (fetchArtist(a.id).Ok? && fetchAlbums(a.id).Ok? ==>
                   && artist == Some(fetchArtist(a.id).value)
                   && albums == Some(DedupedAlbums(fetchAlbums(a.id).value))
                   && !loading)
             && (fetchArtist(a.id).Fail? || fetchAlbums(a.id).Fail? ==>
                   artist == Some(a) && albums == old(albums) && loading)
    {
      loading := true;
      var names := CandidateNames(preferred, fallbacks);
      tried := [];
      fetched := None;
      var outcome: Outcome<Option<Artist>> := Ok(None);
      var i := 0;
      while i < |names| && outcome == Ok(None)
        invariant 0 <= i <= |names|
        invariant tried == names[..i]
        invariant outcome == Ok(None) ==> i <= Stop(names, lookup)
        invariant outcome != Ok(None) ==> 1 <= i && i - 1 == Stop(names, lookup) && outcome == lookup(names[i - 1])
      {
        outcome := lookup(names[i]);
        tried := tried + [names[i]];
        i := i + 1;
      }
      match outcome
      case Fail(_) =>
        return;
      case Ok(found) =>
        artist := found;
        if found.Some? {
          var id := found.value.id;
          fetched := Some(id);
          var full, discs := fetchArtist(id), fetchAlbums(id);
          if full.Fail? || discs.Fail? {
            return;
          }
          artist := Some(full.value);
          var clean := DedupeAlbums(discs.value);
          albums := Some(clean);
        }
        loading := false;
    }
  }
}

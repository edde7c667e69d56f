/** The non-optimistic favorites hook of the frontend: a list of events that is changed only
    after the backend call has succeeded. The outcome of each backend call is a parameter. */
module FavoritesList {
  import opened Common

  /** A stored favorite as the backend returns it and as the add request sends it: the event's
      id travels under `eventId`. */
  datatype FavoriteRecord = FavoriteRecord(
    eventId: string,
    name: string,
    date: string,
    time: string,
    venue: string,
    genre: string,
    imageUrl: string)

  datatype Request = Post(body: FavoriteRecord) | Delete(id: string)

  /** The load mapping: `eventId` becomes `id`, every other field is copied. */
  function FromRecord(f: FavoriteRecord): EventSummary
  {
    EventSummary(f.eventId, f.name, f.date, f.time, f.venue, f.genre, f.imageUrl)
  }

  /** The add request body: `eventId` is the event's id, the six other fields are copied. */
  function ToRecord(e: EventSummary): FavoriteRecord
  {
    FavoriteRecord(e.id, e.name, e.date, e.time, e.venue, e.genre, e.imageUrl)
  }

  /** The body the add sends reads back as the same event, and a loaded record is sent back
      as itself. */
  lemma RecordRoundTrip(e: EventSummary, f: FavoriteRecord)
    ensures FromRecord(ToRecord(e)) == e
    ensures ToRecord(FromRecord(f)) == f
    ensures ToRecord(e).eventId == e.id
  {
  }

  /** `data.map(f => ({ id: f.eventId, ... }))`: one event per record, in the same order. */
  function Mapped(data: seq<FavoriteRecord>): (r: seq<EventSummary>)
    ensures |r| == |data|
    ensures forall i :: 0 <= i < |data| ==> r[i].id == data[i].eventId && ToRecord(r[i]) == data[i]
  {
    seq(|data|, i requires 0 <= i < |data| => FromRecord(data[i]))
  }

  /** `prev.filter(f => f.id !== id)`. */
  function WithoutEvent(s: seq<EventSummary>, id: string): (r: seq<EventSummary>)
    ensures |r| <= |s|
    ensures forall j :: 0 <= j < |r| ==> r[j].id != id
    ensures forall e :: e in s && e.id != id ==> e in r
    ensures forall e :: e in r ==> e in s
  {
    if s == [] then []
    else if s[0].id == id then WithoutEvent(s[1..], id)
    else [s[0]] + WithoutEvent(s[1..], id)
  }

  /** Removal keeps the other events in their order: removing from `s + t` is removing from
      each part. */
  lemma {:induction false} WithoutEventAppend(s: seq<EventSummary>, t: seq<EventSummary>, id: string)
    ensures WithoutEvent(s + t, id) == WithoutEvent(s, id) + WithoutEvent(t, id)
  {
    if s == [] {
      assert s + t == t;
    } else {
      assert (s + t)[1..] == s[1..] + t;
      WithoutEventAppend(s[1..], t, id);
    }
  }

  class FavoritesHook {
    var favorites: seq<EventSummary>
    var loading: bool

    constructor ()
      ensures favorites == [] && !loading
    {
      favorites, loading := [], false;
    }

    /** `favorites.some(f => f.id === eventId)`. */
    predicate IsFavorite(eventId: string)
      reads this
    {
      exists i :: 0 <= i < |favorites| && favorites[i].id == eventId
    }

    /** The mount-time load: the mapped records replace the list; a failure keeps it. */
    method Load(response: Outcome<seq<FavoriteRecord>>)
      modifies this
      ensures response.Ok? ==> favorites == Mapped(response.value)
      ensures response.Fail? ==> favorites == old(favorites)
      ensures !loading
    {
      loading := true;
      if response.Ok? {
        favorites := Mapped(response.value);
      }
      loading := false;
    }

    /** `toggleFavorite(event)`: a delete when the event is a favorite, otherwise a post of its
        record; the list changes only when the backend call succeeds (the removal filters the
        id out, the add puts the event first). A failure alerts and changes nothing. */
    method Toggle(event: EventSummary, backendOk: bool) returns (request: Request, alerted: bool)
      modifies this
      ensures old(IsFavorite(event.id)) ==> request == Delete(event.id)
      ensures !old(IsFavorite(event.id)) ==> request == Post(ToRecord(event))
      ensures alerted == !backendOk
      ensures !backendOk ==> favorites == old(favorites)
      ensures backendOk && old(IsFavorite(event.id)) ==> favorites == WithoutEvent(old(favorites), event.id)
      ensures backendOk && !old(IsFavorite(event.id)) ==> favorites == [event] + old(favorites)
      ensures loading == old(loading)
    {
      alerted := false;
      if IsFavorite(event.id) {
        request := Delete(event.id);
        if backendOk {
          favorites := WithoutEvent(favorites, event.id);
        }
      } else {
        request := Post(ToRecord(event));
        if backendOk {
          favorites := [event] + favorites;
        }
      }
      if !backendOk {
        alerted := true;
      }
    }
  }

  /** After a successful toggle `isFavorite` flips; after a failed one it is unchanged. */
  method ToggleFlips(list: seq<FavoriteRecord>, event: EventSummary, backendOk: bool)
    returns (before: bool, after: bool)
    ensures backendOk ==> after == !before
    ensures !backendOk ==> after == before
  {
    var hook := new FavoritesHook();
    hook.Load(Ok(list));
    before := hook.IsFavorite(event.id);
    var _, _ := hook.Toggle(event, backendOk);
    after := hook.IsFavorite(event.id);
    if backendOk && !before {
      assert hook.favorites[0] == event;
    }
  }
}

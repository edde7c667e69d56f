/** The optimistic favorites provider of the frontend: a map from event id to event that is
    loaded from the backend once, changed at once on every toggle, and put back by compensating
    steps when the backend call fails or when the user clicks Undo on a removal.

    Every asynchronous continuation (a backend failure, the Undo click) is an explicit method
    call, made in the order the callbacks would run; a successful backend call runs no
    callback. Toasts are kept as a log of notices; backend calls as a log of requests. */
module OptimisticFavorites {
  import opened Common

  /** The toasts the provider raises. */
  datatype Notice =
    | LoadFailed
    | Added(name: string)
    | AddFailed(name: string)
    | RemovedWithUndo(name: string)
    | ReAdded(name: string)
    | ReAddFailed(name: string)
    | RemoveFailed(name: string)

  /** The backend calls the provider issues. */
  datatype Request = Post(event: EventSummary) | Delete(id: string)

  /** What a toggle leaves outstanding: for an add, the event added; for a removal, the event
      passed in and the entry that was removed (which Undo and rollback put back). */
  datatype Pending =
    | PendingAdd(event: EventSummary)
    | PendingRemove(event: EventSummary, removed: EventSummary)

  /** The map the load loop builds: each element is stored under its id, later ones
      overwriting earlier ones. */
  function MapOf(list: seq<EventSummary>): map<string, EventSummary>
  {
    if list == [] then map[]
    else MapOf(list[..|list| - 1])[list[|list| - 1].id := list[|list| - 1]]
  }

  /** The index of the last element of `list` with id `k`, or -1 when there is none. */
  function LastIndex(list: seq<EventSummary>, k: string): (n: int)
    ensures -1 <= n < |list|
    ensures n >= 0 ==> list[n].id == k
    ensures forall j :: n < j < |list| ==> list[j].id != k
  {
    if list == [] then -1
    else if list[|list| - 1].id == k then |list| - 1
    else LastIndex(list[..|list| - 1], k)
  }

  /** The loaded map has a key exactly for the ids in the list, and holds under each the last
      element with that id. */
  lemma {:induction false} MapOfHoldsLast(list: seq<EventSummary>, k: string)
    ensures k in MapOf(list) <==> LastIndex(list, k) >= 0
    ensures k in MapOf(list) ==> MapOf(list)[k] == list[LastIndex(list, k)]
  {
    if list != [] {
      MapOfHoldsLast(list[..|list| - 1], k);
    }
  }

  /** The load loop `for (const e of list) map[e.id] = e`. */
  method BuildMap(list: seq<EventSummary>) returns (m: map<string, EventSummary>)
    ensures m == MapOf(list)
  {
    m := map[];
    var i := 0;
    while i < |list|
      invariant 0 <= i <= |list|
      invariant m == MapOf(list[..i])
    {
      assert list[..i + 1][..i] == list[..i];
      m := m[list[i].id := list[i]];
      i := i + 1;
    }
    assert list[..|list|] == list;
  }

  class FavoritesMirror {
    var favorites: map<string, EventSummary>
    var notices: seq<Notice>
    var requests: seq<Request>

    /** The provider starts with an empty map, before the load finishes. */
    constructor ()
      ensures favorites == map[] && notices == [] && requests == []
    {
      favorites, notices, requests := map[], [], [];
    }

    /** `isFavorite(id)`: the id is a key of the map. */
    predicate IsFavorite(id: string)
      reads this
    {
      id in favorites
    }

    /** The mount-time load: a list (or a missing body, read as the empty list) replaces the
        map; a failed request keeps the map and raises a notice. */
    method Load(response: Outcome<Option<seq<EventSummary>>>)
      modifies this
      ensures response.Ok? ==> favorites == MapOf(response.value.GetOr([])) && notices == old(notices)
      ensures response.Fail? ==> favorites == old(favorites) && notices == old(notices) + [LoadFailed]
      ensures requests == old(requests)
    {
      if response.Ok? {
        favorites := BuildMap(response.value.GetOr([]));
      } else {
        notices := notices + [LoadFailed];
      }
    }

    /** `toggleFavorite(event)`: chooses from the map at call time. An add stores `event` under
        its id and posts it; a removal deletes the id, offers Undo and sends the delete. */
    method Toggle(event: EventSummary) returns (p: Pending)
      modifies this
      ensures old(event.id in favorites) ==>
        && p == PendingRemove(event, old(favorites[event.id]))
        && favorites == old(favorites) - {event.id}
        && notices == old(notices) + [RemovedWithUndo(event.name)]
        && requests == old(requests) + [Delete(event.id)]
      ensures old(event.id !in favorites) ==>
        && p == PendingAdd(event)
        && favorites == old(favorites)[event.id := event]
        && notices == old(notices) + [Added(event.name)]
        && requests == old(requests) + [Post(event)]
    {
      if event.id !in favorites {
        favorites := favorites[event.id := event];
        notices := notices + [Added(event.name)];
        requests := requests + [Post(event)];
        p := PendingAdd(event);
      } else {
        var removedEvent := favorites[event.id];
        favorites := favorites - {event.id};
        notices := notices + [RemovedWithUndo(event.name)];
        requests := requests + [Delete(event.id)];
        p := PendingRemove(event, removedEvent);
      }
    }

    /** `reAdd`: put the removed entry back under the event's id and post it again; the
        "re-added" notice only when asked for. */
    method ReAdd(event: EventSummary, removed: EventSummary, showReaddedToast: bool)
      modifies this
      ensures favorites == old(favorites)[event.id := removed]
      ensures requests == old(requests) + [Post(removed)]
      ensures notices == old(notices) + (if showReaddedToast then [ReAdded(event.name)] else [])
    {
      favorites := favorites[event.id := removed];
      requests := requests + [Post(removed)];
      if showReaddedToast {
        notices := notices + [ReAdded(event.name)];
      }
    }

    /** The backend call a toggle made has failed. A failed add deletes the id again; a failed
        delete re-adds the removed entry without the "re-added" notice. */
    method Fail(p: Pending)
      modifies this
      ensures p.PendingAdd? ==>
        && favorites == old(favorites) - {p.event.id}
        && requests == old(requests)
        && notices == old(notices) + [AddFailed(p.event.name)]
      ensures p.PendingRemove? ==>
        && favorites == old(favorites)[p.event.id := p.removed]
        && requests == old(requests) + [Post(p.removed)]
        && notices == old(notices) + [RemoveFailed(p.event.name)]
    {
      match p
      case PendingAdd(event) =>
        favorites := favorites - {event.id};
        notices := notices + [AddFailed(event.name)];
      case PendingRemove(event, removed) =>
        ReAdd(event, removed, false);
        notices := notices + [RemoveFailed(event.name)];
    }

    /** The user clicked Undo on the removal notice: re-add with the "re-added" notice. */
    method Undo(p: Pending)
      requires p.PendingRemove?
      modifies this
      ensures favorites == old(favorites)[p.event.id := p.removed]
      ensures requests == old(requests) + [Post(p.removed)]
      ensures notices == old(notices) + [ReAdded(p.event.name)]
    {
      ReAdd(p.event, p.removed, true);
    }

    /** The post made by `reAdd` has failed: only a notice, the map keeps the entry. */
    method ReAddPostFailed(p: Pending)
      requires p.PendingRemove?
      modifies this
      ensures favorites == old(favorites) && requests == old(requests)
      ensures notices == old(notices) + [ReAddFailed(p.event.name)]
    {
      notices := notices + [ReAddFailed(p.event.name)];
    }
  }

  // ----- whole interactions, run on a fresh provider -----

  /** Loading `list`, toggling `event` and having the backend call fail leaves the map exactly
      as loaded, for an add as for a removal; a removal's rollback stores the entry that was
      loaded, not the toggle argument. */
  method ToggleThenFail(list: seq<EventSummary>, event: EventSummary)
    returns (before: map<string, EventSummary>, after: map<string, EventSummary>, wasFavorite: bool, isFavorite: bool)
    ensures before == MapOf(list)
    ensures after == before
    ensures isFavorite == wasFavorite
  {
    var mirror := new FavoritesMirror();
    mirror.Load(Ok(Some(list)));
    before := mirror.favorites;
    wasFavorite := mirror.IsFavorite(event.id);
    var p := mirror.Toggle(event);
    mirror.Fail(p);
    after := mirror.favorites;
    isFavorite := mirror.IsFavorite(event.id);
  }

  /** Removing a loaded favorite and clicking Undo restores the map and raises the "re-added"
      notice; the automatic rollback of a failed delete restores it without that notice. */
  method RemoveThenRestore(list: seq<EventSummary>, event: EventSummary, undo: bool)
    returns (restored: bool, log: seq<Notice>)
    requires event.id in MapOf(list)
    ensures restored
    ensures undo ==> log == [RemovedWithUndo(event.name), ReAdded(event.name)]
    ensures !undo ==> log == [RemovedWithUndo(event.name), RemoveFailed(event.name)]
    ensures ReAdded(event.name) in log <==> undo
  {
    var mirror := new FavoritesMirror();
    mirror.Load(Ok(Some(list)));
    var before := mirror.favorites;
    var p := mirror.Toggle(event);
    if undo {
      mirror.Undo(p);
    } else {
      mirror.Fail(p);
    }
    restored := mirror.favorites == before;
    log := mirror.notices;
  }

  /** Adding an event that is not a favorite and having the post fail: `isFavorite` returns to
      false and the notices are the optimistic success followed by the error. */
  method AddThenFail(event: EventSummary) returns (favoriteBetween: bool, favoriteAfter: bool, log: seq<Notice>)
    ensures favoriteBetween && !favoriteAfter
    ensures log == [Added(event.name), AddFailed(event.name)]
  {
    var mirror := new FavoritesMirror();
    var p := mirror.Toggle(event);
    favoriteBetween := mirror.IsFavorite(event.id);
    mirror.Fail(p);
    favoriteAfter := mirror.IsFavorite(event.id);
    log := mirror.notices;
  }
}

/** The backend favorites router: a module-level array of favorite records behind
    GET / (list), POST / (upsert by `id`) and DELETE /:id. */
module FavoritesRoute {
  import opened Common
  import FirstOccurrence

  /** A request body as stored: `id` may be missing; the other fields are kept as sent (as strings). */
  datatype Favorite = Favorite(id: Option<string>, fields: map<string, string>)

  datatype ReplyBody =
    | Records(records: seq<Favorite>)
    | Created(record: Favorite)
    | Error(error: string)
    | NoContent

  datatype Reply = Reply(status: int, body: ReplyBody)

  /** `ev?.id` is truthy. */
  predicate HasId(ev: Favorite) {
    Truthy(ev.id)
  }

  /** No two records share an id. */
  predicate UniqueIds(s: seq<Favorite>) {
    forall i, j :: 0 <= i < j < |s| ==> s[i].id != s[j].id
  }

  /** `s.filter(e => e.id !== id)`. */
  function WithoutId(s: seq<Favorite>, id: Option<string>): (r: seq<Favorite>)
    ensures |r| <= |s|
    ensures forall j :: 0 <= j < |r| ==> r[j].id != id
    ensures forall e :: e in r ==> e in s
    ensures (forall j :: 0 <= j < |s| ==> s[j].id != id) ==> r == s
  {
    if s == [] then []
    else if s[0].id == id then WithoutId(s[1..], id)
    else [s[0]] + WithoutId(s[1..], id)
  }

  /** `s.filter(e => e.id === id)`: the records that carry `id`, in order. */
  function WithId(s: seq<Favorite>, id: Option<string>): seq<Favorite>
  {
    if s == [] then []
    else if s[0].id == id then [s[0]] + WithId(s[1..], id)
    else WithId(s[1..], id)
  }

  /** The upsert of POST: drop every record with `ev.id`, then append `ev`. */
  function Upsert(s: seq<Favorite>, ev: Favorite): seq<Favorite>
  {
    WithoutId(s, ev.id) + [ev]
  }

  class FavoritesStore {
    /** The module-level `favorites` array. */
    var favorites: seq<Favorite>

    /** Every stored record has an id, and no id is stored twice. */
    ghost predicate Valid()
      reads this
    {
      (forall j :: 0 <= j < |favorites| ==> HasId(favorites[j])) && UniqueIds(favorites)
    }

    /** The store starts empty. */
    constructor ()
      ensures Valid() && favorites == []
    {
      favorites := [];
    }

    /** GET /: the stored records, as they are. */
    method List() returns (r: Reply)
      ensures r == Reply(200, Records(favorites))
    {
      r := Reply(200, Records(favorites));
    }

    /** POST /: a body without a truthy id is refused with 400 and changes nothing; otherwise
        the body replaces any record with its id, goes last, and is echoed with 201. */
    method Post(ev: Favorite) returns (r: Reply)
      requires Valid()
      modifies this
      ensures Valid()
      ensures !HasId(ev) ==> r == Reply(400, Error("id required")) && favorites == old(favorites)
      ensures HasId(ev) ==> r == Reply(201, Created(ev)) && favorites == Upsert(old(favorites), ev)
    {
      if !HasId(ev) {
        return Reply(400, Error("id required"));
      }
      UpsertKeepsUnique(favorites, ev);
      favorites := Upsert(favorites, ev);
      r := Reply(201, Created(ev));
    }

    /** DELETE /:id: every record with that id goes, the rest stay in order; 204 either way. */
    method Delete(id: string) returns (r: Reply)
      requires Valid()
      modifies this
      ensures Valid()
      ensures r == Reply(204, NoContent)
      ensures favorites == WithoutId(old(favorites), Some(id))
    {
      WithoutIdKeepsUnique(favorites, Some(id));
      favorites := WithoutId(favorites, Some(id));
      r := Reply(204, NoContent);
    }
  }

  // ----- properties of the filter and of the upsert -----

  /** Removing by id keeps the other records in their order: what remains is a subsequence. */
  lemma {:induction false} WithoutIdSubsequence(s: seq<Favorite>, id: Option<string>)
    ensures FirstOccurrence.IsSubsequence(WithoutId(s, id), s)
  {
    if s != [] {
      WithoutIdSubsequence(s[1..], id);
      if s[0].id == id {
        FirstOccurrence.SubsequenceOfTail(WithoutId(s[1..], id), s);
      }
    }
  }

  /** For any other id, the records carrying it are exactly those before the removal, in the
      same order: removal by one id does not touch any other. */
  lemma {:induction false} WithoutIdKeepsOthers(s: seq<Favorite>, id: Option<string>, other: Option<string>)
    requires other != id
    ensures WithId(WithoutId(s, id), other) == WithId(s, other)
  {
    if s != [] {
      WithoutIdKeepsOthers(s[1..], id, other);
    }
  }

  /** Removing the records with `id` removes exactly as many records as carry it. */
  lemma {:induction false} WithoutIdCount(s: seq<Favorite>, id: Option<string>)
    ensures |WithoutId(s, id)| + |WithId(s, id)| == |s|
    ensures forall j :: 0 <= j < |WithId(s, id)| ==> WithId(s, id)[j].id == id
  {
    if s != [] {
      WithoutIdCount(s[1..], id);
    }
  }

  /** Removing twice is removing once, so DELETE is idempotent. */
  lemma {:induction false} WithoutIdIdempotent(s: seq<Favorite>, id: Option<string>)
    ensures WithoutId(WithoutId(s, id), id) == WithoutId(s, id)
  {
  }

  lemma {:induction false} WithoutIdAppend(s: seq<Favorite>, t: seq<Favorite>, id: Option<string>)
    ensures WithoutId(s + t, id) == WithoutId(s, id) + WithoutId(t, id)
  {
    if s == [] {
      assert s + t == t;
    } else {
      assert (s + t)[1..] == s[1..] + t;
      WithoutIdAppend(s[1..], t, id);
    }
  }

  /** Removal keeps every record's id and keeps ids unique. */
  lemma {:induction false} WithoutIdKeepsUnique(s: seq<Favorite>, id: Option<string>)
    requires (forall j :: 0 <= j < |s| ==> HasId(s[j])) && UniqueIds(s)
    ensures var r := WithoutId(s, id); (forall j :: 0 <= j < |r| ==> HasId(r[j])) && UniqueIds(r)
  {
    if s != [] {
      WithoutIdKeepsUnique(s[1..], id);
      var r' := WithoutId(s[1..], id);
      forall j | 0 <= j < |r'| ensures r'[j].id != s[0].id {
        assert r'[j] in r';
        var i :| 0 <= i < |s[1..]| && s[1..][i] == r'[j];
        assert s[i + 1] == r'[j];
      }
    }
  }

  /** After an upsert exactly one record carries `ev.id`: the last one, which is `ev`. */
  lemma UpsertExactlyOne(s: seq<Favorite>, ev: Favorite)
    ensures var r := Upsert(s, ev);
      r != [] && r[|r| - 1] == ev &&
      forall j :: 0 <= j < |r| - 1 ==> r[j].id != ev.id
  {
  }

  /** The upsert leaves every record with another id as it was, in the same order. */
  lemma UpsertKeepsOthers(s: seq<Favorite>, ev: Favorite)
    ensures Upsert(s, ev)[..|Upsert(s, ev)| - 1] == WithoutId(s, ev.id)
    ensures forall other :: other != ev.id ==> WithId(Upsert(s, ev), other) == WithId(s, other)
  {
    forall other | other != ev.id
      ensures WithId(Upsert(s, ev), other) == WithId(s, other)
    {
      WithIdAppend(WithoutId(s, ev.id), [ev], other);
      WithoutIdKeepsOthers(s, ev.id, other);
    }
  }

  lemma {:induction false} WithIdAppend(s: seq<Favorite>, t: seq<Favorite>, id: Option<string>)
    ensures WithId(s + t, id) == WithId(s, id) + WithId(t, id)
  {
    if s == [] {
      assert s + t == t;
    } else {
      assert (s + t)[1..] == s[1..] + t;
      WithIdAppend(s[1..], t, id);
    }
  }

  /** Upserting into a store with unique ids keeps them unique, and every record keeps an id. */
  lemma UpsertKeepsUnique(s: seq<Favorite>, ev: Favorite)
    requires (forall j :: 0 <= j < |s| ==> HasId(s[j])) && UniqueIds(s)
    requires HasId(ev)
    ensures var r := Upsert(s, ev); (forall j :: 0 <= j < |r| ==> HasId(r[j])) && UniqueIds(r)
  {
    WithoutIdKeepsUnique(s, ev.id);
  }

  /** Upserting the same record twice leaves the store as upserting it once. */
  lemma UpsertIdempotent(s: seq<Favorite>, ev: Favorite)
    ensures Upsert(Upsert(s, ev), ev) == Upsert(s, ev)
  {
    WithoutIdAppend(WithoutId(s, ev.id), [ev], ev.id);
    WithoutIdIdempotent(s, ev.id);
  }

  /** Two upserts with the same id: the store holds the second record once, where the first
      upsert had put the first. */
  lemma UpsertReplaces(s: seq<Favorite>, first: Favorite, second: Favorite)
    requires first.id == second.id
    ensures Upsert(Upsert(s, first), second) == Upsert(s, second)
  {
    WithoutIdAppend(WithoutId(s, first.id), [first], first.id);
    WithoutIdIdempotent(s, first.id);
  }
}

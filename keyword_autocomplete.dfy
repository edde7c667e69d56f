/** The keyword autocomplete of the search form: the `minChars` gate, the merge of attraction
    and venue suggestions, `dedupeByName`, and the clear-button predicate. The suggest
    request's result is a parameter. */
module KeywordAutocomplete {
  import opened Common
  import opened Provider
  import FirstOccurrence

  const DefaultMinChars: int := 2
  const MaxItems: nat := 10

  datatype SuggestItem = SuggestItem(id: string, name: string)

  /** The de-duplication key: the lower-cased name. */
  function NameKey(it: SuggestItem): string
  {
    ToLower(it.name)
  }

  /** What `dedupeByName` computes: the first item for every lower-cased name, in order. */
  function Deduped(items: seq<SuggestItem>): seq<SuggestItem>
  {
    FirstOccurrence.KeepFirst(items, NameKey, {})
  }

  /** `dedupeByName(items)`: one pass with a `seen` set of lower-cased names, pushing an item
      when its name is new. */
  method DedupeByName(items: seq<SuggestItem>) returns (out: seq<SuggestItem>)
    ensures out == Deduped(items)
  {
    var seen: set<string> := {};
    out := [];
    var i := 0;
    while i < |items|
      invariant 0 <= i <= |items|
      invariant seen == FirstOccurrence.KeySet(out, NameKey)
      invariant out + FirstOccurrence.KeepFirst(items[i..], NameKey, seen) == Deduped(items)
    {
      var it := items[i];
      var k := NameKey(it);
      FirstOccurrence.KeepFirstStep(out, items, i, NameKey, seen, Deduped(items));
      if k !in seen {
        seen := seen + {k};
        out := out + [it];
      }
      i := i + 1;
    }
  }

  /** The output of `dedupeByName` is a subsequence of its input, no two of its items share a
      lower-cased name, every input name is represented, and each item kept is the first
      input item with its name. */
  lemma DedupedProperties(items: seq<SuggestItem>)
    ensures FirstOccurrence.IsSubsequence(Deduped(items), items)
    ensures FirstOccurrence.DistinctKeys(Deduped(items), NameKey)
    ensures FirstOccurrence.KeySet(Deduped(items), NameKey) == FirstOccurrence.KeySet(items, NameKey)
    ensures forall i :: 0 <= i < |items| ==>
      exists j :: 0 <= j < |Deduped(items)| && NameKey(Deduped(items)[j]) == NameKey(items[i])
    ensures forall j :: 0 <= j < |Deduped(items)| ==>
      var n := FirstOccurrence.FirstIndex(items, NameKey(Deduped(items)[j]), NameKey);
      n < |items| && items[n] == Deduped(items)[j]
  {
    FirstOccurrence.KeepFirstSubsequence(items, NameKey, {});
    FirstOccurrence.KeepFirstDistinct(items, NameKey, {});
    FirstOccurrence.KeepFirstKeys(items, NameKey, {});
    FirstOccurrence.KeepFirstIsFirst(items, NameKey, {});
    FirstOccurrence.KeepFirstRepresents(items, NameKey);
  }

  /** `list.map(a => ({ id, name })).filter(x => !!x.name)`: the raw entries with a present,
      non-empty name, in order. */
  function Named(raw: seq<SuggestRaw>): (r: seq<SuggestItem>)
    ensures |r| <= |raw|
    ensures forall j :: 0 <= j < |r| ==> r[j].name != ""
  {
    if raw == [] then []
    else if Truthy(raw[0].name) then [SuggestItem(raw[0].id, raw[0].name.value)] + Named(raw[1..])
    else Named(raw[1..])
  }

  /** `Named` is a filter: an entry gives its id and name when the name is non-empty and
      nothing otherwise, and the result for a concatenation is the concatenation of the
      results, so entries keep their order and multiplicity. */
  lemma {:induction false} NamedIsFilter(a: seq<SuggestRaw>, b: seq<SuggestRaw>, x: SuggestRaw)
    ensures Named([x]) == (if Truthy(x.name) then [SuggestItem(x.id, x.name.value)] else [])
    ensures Named(a + b) == Named(a) + Named(b)
  {
    assert [x][1..] == [];
    if a == [] {
      assert a + b == b;
    } else {
      assert (a + b)[0] == a[0] && (a + b)[1..] == a[1..] + b;
      NamedIsFilter(a[1..], b, x);
    }
  }

  /** `dedupeByName([...attNames, ...venNames]).slice(0, 10)`. */
  function Merge(attractions: seq<SuggestRaw>, venues: seq<SuggestRaw>): seq<SuggestItem>
  {
    var merged := Deduped(Named(attractions) + Named(venues));
    merged[..if |merged| < MaxItems then |merged| else MaxItems]
  }

  /** The merged list has at most 10 items, none with an empty name; it is the first 10 of the
      de-duplicated attractions followed by the venues whose names no attraction has. */
  lemma MergeProperties(attractions: seq<SuggestRaw>, venues: seq<SuggestRaw>)
    ensures |Merge(attractions, venues)| <= MaxItems
    ensures forall j :: 0 <= j < |Merge(attractions, venues)| ==> Merge(attractions, venues)[j].name != ""
    ensures var att := Named(attractions);
      var all := Deduped(att) + FirstOccurrence.KeepFirst(Named(venues), NameKey, FirstOccurrence.KeySet(att, NameKey));
      Merge(attractions, venues) == all[..if |all| < MaxItems then |all| else MaxItems]
  {
    var att, ven := Named(attractions), Named(venues);
    FirstOccurrence.KeepFirstConcat(att, ven, NameKey, {});
    assert {} + FirstOccurrence.KeySet(att, NameKey) == FirstOccurrence.KeySet(att, NameKey);
    var merged := Deduped(att + ven);
    FirstOccurrence.KeepFirstSubsequence(att + ven, NameKey, {});
    SubsequenceKeepsNames(merged, att + ven);
  }

  /** Items of a subsequence of a list with non-empty names have non-empty names. */
  lemma {:induction false} SubsequenceKeepsNames(r: seq<SuggestItem>, s: seq<SuggestItem>)
    requires FirstOccurrence.IsSubsequence(r, s)
    requires forall j :: 0 <= j < |s| ==> s[j].name != ""
    ensures forall j :: 0 <= j < |r| ==> r[j].name != ""
  {
    if r != [] && s != [] {
      if r[0] == s[0] {
        SubsequenceKeepsNames(r[1..], s[1..]);
        forall j | 1 <= j < |r| ensures r[j].name != "" { assert r[j] == r[1..][j - 1]; }
      } else {
        SubsequenceKeepsNames(r, s[1..]);
      }
    }
  }

  /** The query is too short to send: empty, or shorter than `minChars` UTF-16 code units
      once trimmed. */
  predicate BelowMinChars(q: string, minChars: int) {
    q == "" || Utf16Length(Trim(q)) < minChars
  }

  /** The outcome of `fetchSuggest` for the debounced query: the items shown, and whether a
      request went out. A short query clears the list without a request; a failed request
      clears it too; otherwise the merged suggestions of the payload are shown. */
  function FetchSuggest(q: string, minChars: int, response: Outcome<SuggestData>)
    : (r: (seq<SuggestItem>, bool))
    ensures BelowMinChars(q, minChars) ==> r == ([], false)
    ensures !BelowMinChars(q, minChars) ==> r.1
    ensures !BelowMinChars(q, minChars) && response.Ok? ==>
      r.0 == Merge(SuggestAttractions(response.value), SuggestVenues(response.value))
    ensures response.Fail? ==> r.0 == []
    ensures |r.0| <= MaxItems
    ensures forall j :: 0 <= j < |r.0| ==> r.0[j].name != ""
  {
    if BelowMinChars(q, minChars) then ([], false)
    else
      match response
      case Fail(_) => ([], true)
      case Ok(data) =>
        var attractions, venues := SuggestAttractions(data), SuggestVenues(data);
        MergeProperties(attractions, venues);
        (Merge(attractions, venues), true)
  }

  /** The backend's soft-fail payload yields no suggestions. */
  lemma EmptyShapeShowsNothing(q: string, minChars: int)
    ensures FetchSuggest(q, minChars, Ok(EmptySuggest)).0 == []
  {
  }

  /** With the default `minChars`, a blank query or a single character of the Basic
      Multilingual Plane never sends a request. */
  lemma ShortQueriesSendNothing(q: string, response: Outcome<SuggestData>)
    requires AllSpace(q) || (|q| == 1 && q[0] as int <= 0xFFFF)
    ensures FetchSuggest(q, DefaultMinChars, response) == ([], false)
  {
    TrimEmptyIffBlank(q);
  }

  /** A single character above the Basic Multilingual Plane is two code units long, so with the
      default `minChars` it does send a request. */
  lemma AstralCharSends(c: char, response: Outcome<SuggestData>)
    requires c as int > 0xFFFF
    ensures FetchSuggest([c], DefaultMinChars, response).1
  {
    assert !IsSpace(c);
    TrimUnpadded([c]);
  }

  /** `showClear`: the trimmed value is non-empty and nothing is loading. */
  predicate ShowClear(value: string, loading: bool) {
    |Trim(value)| > 0 && !loading
  }

  /** The clear button shows exactly for a value that is not blank, while not loading. */
  lemma ShowClearIffNotBlank(value: string, loading: bool)
    ensures ShowClear(value, loading) <==> !AllSpace(value) && !loading
  {
    TrimEmptyIffBlank(value);
  }
}

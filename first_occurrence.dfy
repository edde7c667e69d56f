/** First-occurrence de-duplication by a string key: the specification shared by the suggestion
    de-duplication (`dedupeByName`) and the album filter of the artist pane, both of which walk
    their input once with a `seen` set and keep an element only when its key is new. */
module FirstOccurrence {

  /** The elements of `s` whose key is neither in `seen` nor the key of an earlier element. */
  function KeepFirst<T>(s: seq<T>, key: T -> string, seen: set<string>): seq<T>
  {
    if s == [] then []
    else if key(s[0]) in seen then KeepFirst(s[1..], key, seen)
    else [s[0]] + KeepFirst(s[1..], key, seen + {key(s[0])})
  }

  /** The keys of the elements of `s`. */
  function KeySet<T>(s: seq<T>, key: T -> string): set<string>
  {
    if s == [] then {} else {key(s[0])} + KeySet(s[1..], key)
  }

  /** `r` is a subsequence of `s`: what is left of `s` after dropping some of its elements. */
  ghost predicate IsSubsequence<T>(r: seq<T>, s: seq<T>)
  {
    if r == [] then true
    else if s == [] then false
    else if r[0] == s[0] then IsSubsequence(r[1..], s[1..])
    else IsSubsequence(r, s[1..])
  }

  /** No two elements of `r` share a key. */
  predicate DistinctKeys<T>(r: seq<T>, key: T -> string)
  {
    forall i, j :: 0 <= i < j < |r| ==> key(r[i]) != key(r[j])
  }

  /** The index of the first element of `s` with key `k`, or |s| when there is none. */
  function FirstIndex<T>(s: seq<T>, k: string, key: T -> string): (n: nat)
    ensures n <= |s|
    ensures n < |s| ==> key(s[n]) == k
    ensures forall i :: 0 <= i < n ==> key(s[i]) != k
  {
    if s == [] then 0
    else if key(s[0]) == k then 0
    else 1 + FirstIndex(s[1..], k, key)
  }

  lemma {:induction false} KeySetMember<T>(s: seq<T>, key: T -> string, k: string)
    ensures k in KeySet(s, key) <==> exists i :: 0 <= i < |s| && key(s[i]) == k
  {
    if s != [] {
      KeySetMember(s[1..], key, k);
      if k in KeySet(s[1..], key) {
        var i :| 0 <= i < |s[1..]| && key(s[1..][i]) == k;
        assert key(s[i + 1]) == k;
      }
      if exists i :: 0 <= i < |s| && key(s[i]) == k {
        var i :| 0 <= i < |s| && key(s[i]) == k;
        if i > 0 { assert key(s[1..][i - 1]) == k; }
      }
    }
  }

  lemma {:induction false} KeySetAppend<T>(s: seq<T>, x: T, key: T -> string)
    ensures KeySet(s + [x], key) == KeySet(s, key) + {key(x)}
  {
    if s != [] {
      assert (s + [x])[1..] == s[1..] + [x];
      KeySetAppend(s[1..], x, key);
    }
  }

  /** One step of a single pass over `s` that has kept `out` so far, `seen` holding the keys
      of `out` and `out` followed by what the rest of the pass keeps being `total`: element `i`
      is kept exactly when its key is new, and then its key joins them. */
  lemma KeepFirstStep<T>(out: seq<T>, s: seq<T>, i: nat, key: T -> string, seen: set<string>, total: seq<T>)
    requires i < |s| && seen == KeySet(out, key)
    requires out + KeepFirst(s[i..], key, seen) == total
    ensures key(s[i]) in seen ==> out + KeepFirst(s[i + 1..], key, seen) == total
    ensures key(s[i]) !in seen ==>
      && (out + [s[i]]) + KeepFirst(s[i + 1..], key, seen + {key(s[i])}) == total
      && KeySet(out + [s[i]], key) == seen + {key(s[i])}
  {
    assert s[i..][1..] == s[i + 1..];
    if key(s[i]) !in seen {
      assert KeepFirst(s[i..], key, seen) == [s[i]] + KeepFirst(s[i + 1..], key, seen + {key(s[i])});
      KeySetAppend(out, s[i], key);
    }
  }

  /** What is kept is a subsequence of the input, so the input order is preserved. */
  lemma {:induction false} KeepFirstSubsequence<T>(s: seq<T>, key: T -> string, seen: set<string>)
    ensures IsSubsequence(KeepFirst(s, key, seen), s)
  {
    if s != [] {
      if key(s[0]) in seen {
        KeepFirstSubsequence(s[1..], key, seen);
        SubsequenceOfTail(KeepFirst(s[1..], key, seen), s);
      } else {
        KeepFirstSubsequence(s[1..], key, seen + {key(s[0])});
      }
    }
  }

  /** A subsequence of the tail of `s` is a subsequence of `s`. */
  lemma {:induction false} SubsequenceOfTail<T>(r: seq<T>, s: seq<T>)
    requires s != [] && IsSubsequence(r, s[1..])
    ensures IsSubsequence(r, s)
  {
    if r != [] && r[0] == s[0] {
      // r[1..] is a subsequence of s[1..] because r is
      SubsequenceDropHead(r, s[1..]);
    }
  }

  /** Dropping the first element of a subsequence keeps it a subsequence. */
  lemma {:induction false} SubsequenceDropHead<T>(r: seq<T>, s: seq<T>)
    requires r != [] && IsSubsequence(r, s)
    ensures IsSubsequence(r[1..], s)
  {
    if r[0] == s[0] {
      if r[1..] != [] {
        SubsequenceOfTail(r[1..], s);
      }
    } else {
      SubsequenceDropHead(r, s[1..]);
      SubsequenceOfTail(r[1..], s);
    }
  }

  /** Keys of kept elements avoid `seen` and are pairwise distinct. */
  lemma {:induction false} KeepFirstDistinct<T>(s: seq<T>, key: T -> string, seen: set<string>)
    ensures forall j :: 0 <= j < |KeepFirst(s, key, seen)| ==> key(KeepFirst(s, key, seen)[j]) !in seen
    ensures DistinctKeys(KeepFirst(s, key, seen), key)
  {
    if s != [] {
      if key(s[0]) in seen {
        KeepFirstDistinct(s[1..], key, seen);
      } else {
        var seen' := seen + {key(s[0])};
        KeepFirstDistinct(s[1..], key, seen');
        var rest := KeepFirst(s[1..], key, seen');
        assert KeepFirst(s, key, seen) == [s[0]] + rest;
      }
    }
  }

  /** Every key of the input that is not in `seen` is the key of some kept element, and kept
      elements have no other keys. */
  lemma {:induction false} KeepFirstKeys<T>(s: seq<T>, key: T -> string, seen: set<string>)
    ensures KeySet(KeepFirst(s, key, seen), key) == KeySet(s, key) - seen
  {
    if s != [] {
      if key(s[0]) in seen {
        KeepFirstKeys(s[1..], key, seen);
      } else {
        KeepFirstKeys(s[1..], key, seen + {key(s[0])});
      }
    }
  }

  /** With nothing seen beforehand, every input element has a kept element with its key. */
  lemma KeepFirstRepresents<T>(s: seq<T>, key: T -> string)
    ensures forall i :: 0 <= i < |s| ==>
      exists j :: 0 <= j < |KeepFirst(s, key, {})| && key(KeepFirst(s, key, {})[j]) == key(s[i])
  {
    KeepFirstKeys(s, key, {});
    forall i | 0 <= i < |s|
      ensures exists j :: 0 <= j < |KeepFirst(s, key, {})| && key(KeepFirst(s, key, {})[j]) == key(s[i])
    {
      KeySetMember(s, key, key(s[i]));
      KeySetMember(KeepFirst(s, key, {}), key, key(s[i]));
    }
  }

  /** Each kept element is the first element of the input with its key. */
  lemma {:induction false} KeepFirstIsFirst<T>(s: seq<T>, key: T -> string, seen: set<string>)
    ensures forall j :: 0 <= j < |KeepFirst(s, key, seen)| ==>
      var k := key(KeepFirst(s, key, seen)[j]);
      FirstIndex(s, k, key) < |s| && s[FirstIndex(s, k, key)] == KeepFirst(s, key, seen)[j]
  {
    if s != [] {
      var r := KeepFirst(s, key, seen);
      if key(s[0]) in seen {
        KeepFirstIsFirst(s[1..], key, seen);
        KeepFirstDistinct(s[1..], key, seen);
        forall j | 0 <= j < |r|
          ensures FirstIndex(s, key(r[j]), key) == 1 + FirstIndex(s[1..], key(r[j]), key)
        {
        }
      } else {
        var seen' := seen + {key(s[0])};
        KeepFirstIsFirst(s[1..], key, seen');
        KeepFirstDistinct(s[1..], key, seen');
        var rest := KeepFirst(s[1..], key, seen');
        assert r == [s[0]] + rest;
        forall j | 1 <= j < |r|
          ensures FirstIndex(s, key(r[j]), key) == 1 + FirstIndex(s[1..], key(r[j]), key)
        {
          assert r[j] == rest[j - 1];
        }
      }
    }
  }

  /** Running the walk over `a + b` is running it over `a` and then over `b` with the keys of `a`
      added to `seen`: elements kept from `a` come before elements kept from `b`. */
  lemma {:induction false} KeepFirstConcat<T>(a: seq<T>, b: seq<T>, key: T -> string, seen: set<string>)
    ensures KeepFirst(a + b, key, seen) == KeepFirst(a, key, seen) + KeepFirst(b, key, seen + KeySet(a, key))
  {
    if a == [] {
      assert a + b == b;
      assert seen + KeySet(a, key) == seen;
      assert KeepFirst(a, key, seen) == [];
    } else {
      assert (a + b)[0] == a[0];
      assert (a + b)[1..] == a[1..] + b;
      if key(a[0]) in seen {
        KeepFirstConcat(a[1..], b, key, seen);
        assert seen + KeySet(a, key) == seen + KeySet(a[1..], key);
      } else {
        KeepFirstConcat(a[1..], b, key, seen + {key(a[0])});
        assert seen + {key(a[0])} + KeySet(a[1..], key) == seen + KeySet(a, key);
      }
    }
  }
}

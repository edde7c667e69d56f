/** Values and string helpers shared by the backend and the frontend models. */
module Common {

  /** A JavaScript value that may be `undefined` or `null` (None) or present (Some). */
  datatype Option<+T> = None | Some(value: T) {
    /** The `??` operator: the value when present, `default` otherwise. */
    function GetOr(default: T): (r: T)
      ensures Some? ==> r == value
      ensures None? ==> r == default
    {
      if Some? then value else default
    }
  }

  /** The outcome of a remote call or of code that may throw: its data, or the error it raised
      (whose message may be empty). */
  datatype Outcome<+T> = Ok(value: T) | Fail(message: string)

  /** JavaScript truthiness of an optional string: present and not "". */
  predicate Truthy(s: Option<string>) {
    s.Some? && s.value != ""
  }

  /** The event shape passed between the search, detail and favorites views and the backend. */
  datatype EventSummary = EventSummary(
    id: string,
    name: string,
    date: string,
    time: string,
    venue: string,
    genre: string,
    imageUrl: string)

  // ----- whitespace and `trim` -----

  /** The whitespace that `String.prototype.trim` strips, restricted to ASCII. */
  predicate IsSpace(c: char) {
    c == ' ' || c == '\t' || c == '\n' || c == '\r' || c == '\U{0B}' || c == '\U{0C}'
  }

  predicate AllSpace(s: string) {
    forall i :: 0 <= i < |s| ==> IsSpace(s[i])
  }

  /** Drops leading whitespace. */
  function TrimStart(s: string): (r: string)
    ensures |r| <= |s| && r == s[|s| - |r|..]
    ensures AllSpace(s[..|s| - |r|])
    ensures r != [] ==> !IsSpace(r[0])
  {
    if s != [] && IsSpace(s[0]) then
      var r := TrimStart(s[1..]);
      assert s[..|s| - |r|] == [s[0]] + s[1..][..|s| - 1 - |r|];
      r
    else s
  }

  /** Drops trailing whitespace. */
  function TrimEnd(s: string): (r: string)
    ensures |r| <= |s| && r == s[..|r|]
    ensures AllSpace(s[|r|..])
    ensures r != [] ==> !IsSpace(r[|r| - 1])
  {
    if s != [] && IsSpace(s[|s| - 1]) then
      var r := TrimEnd(s[..|s| - 1]);
      assert s[|r|..] == s[..|s| - 1][|r|..] + [s[|s| - 1]];
      r
    else s
  }

  /** How many leading characters `trim` drops. */
  function TrimOffset(s: string): (n: nat)
    ensures n <= |s|
  {
    |s| - |TrimStart(s)|
  }

  /** `s.trim()`: the slice of `s` that neither starts nor ends with whitespace, all of whose
      dropped characters on either side are whitespace. */
  function Trim(s: string): (r: string)
    ensures TrimOffset(s) + |r| <= |s| && r == s[TrimOffset(s)..TrimOffset(s) + |r|]
    ensures AllSpace(s[..TrimOffset(s)]) && AllSpace(s[TrimOffset(s) + |r|..])
    ensures r != [] ==> !IsSpace(r[0]) && !IsSpace(r[|r| - 1])
  {
    var t := TrimStart(s);
    var r := TrimEnd(t);
    SliceOfSuffix(s, t, r);
    assert TrimOffset(s) == |s| - |t|;
    r
  }

  /** A prefix `r` of a suffix `t` of `s` is the slice of `s` after the part `t` drops, and what
      follows `r` in `t` is what follows that slice in `s`. */
  lemma SliceOfSuffix(s: string, t: string, r: string)
    requires |t| <= |s| && t == s[|s| - |t|..]
    requires |r| <= |t| && r == t[..|r|]
    ensures r == s[|s| - |t|..|s| - |t| + |r|]
    ensures t[|r|..] == s[|s| - |t| + |r|..]
  {
  }

  /** A string trims to "" exactly when it is blank, so `!s.trim()` means "blank". */
  lemma {:induction false} TrimEmptyIffBlank(s: string)
    ensures Trim(s) == "" <==> AllSpace(s)
  {
    var n := TrimOffset(s);
    if Trim(s) == "" {
      var t := TrimStart(s);
      assert t[|Trim(s)|..] == t;
      assert s[..n] == s;
    } else {
      assert Trim(s)[0] == s[n];
    }
  }

  /** Trimming leaves a string without outer whitespace unchanged. */
  lemma TrimUnpadded(s: string)
    requires s != [] ==> !IsSpace(s[0]) && !IsSpace(s[|s| - 1])
    ensures Trim(s) == s
  {
  }

  /** A leading whitespace character does not change the trimmed text. */
  lemma TrimDropsLeadingSpace(c: char, s: string)
    requires IsSpace(c)
    ensures Trim([c] + s) == Trim(s)
  {
    assert ([c] + s)[1..] == s;
  }

  /** Leading whitespace does not change where `trim` starts. */
  lemma {:induction false} TrimStartSkips(pre: string, t: string)
    requires AllSpace(pre)
    ensures TrimStart(pre + t) == TrimStart(t)
  {
    if pre == [] {
      assert pre + t == t;
    } else {
      assert (pre + t)[0] == pre[0];
      assert (pre + t)[1..] == pre[1..] + t;
      TrimStartSkips(pre[1..], t);
    }
  }

  /** Trailing whitespace does not change where `trim` ends. */
  lemma {:induction false} TrimEndSkips(t: string, post: string)
    requires AllSpace(post)
    ensures TrimEnd(t + post) == TrimEnd(t)
  {
    if post == [] {
      assert t + post == t;
    } else {
      var s := t + post;
      assert s[|s| - 1] == post[|post| - 1];
      assert s[..|s| - 1] == t + post[..|post| - 1];
      TrimEndSkips(t, post[..|post| - 1]);
    }
  }

  /** Any whitespace around a text without outer whitespace is exactly what `trim` removes. */
  lemma TrimPadded(pre: string, text: string, post: string)
    requires text != [] && !IsSpace(text[0]) && !IsSpace(text[|text| - 1])
    requires AllSpace(pre) && AllSpace(post)
    ensures Trim(pre + text + post) == text
  {
    assert pre + text + post == pre + (text + post);
    TrimStartSkips(pre, text + post);
    assert (text + post)[0] == text[0];
    TrimEndSkips(text, post);
  }

  // ----- `length` in UTF-16 code units -----

  /** How many UTF-16 code units encode `c`: one inside the Basic Multilingual Plane, a
      surrogate pair above it. */
  function CodeUnits(c: char): (n: nat)
    ensures n == 1 || n == 2
    ensures n == 2 <==> c as int > 0xFFFF
  {
    if c as int > 0xFFFF then 2 else 1
  }

  /** `s.length`: JavaScript counts UTF-16 code units, so a character above the Basic
      Multilingual Plane counts twice. */
  function Utf16Length(s: string): (n: nat)
    ensures |s| <= n <= 2 * |s|
    ensures n == |s| <==> forall i :: 0 <= i < |s| ==> s[i] as int <= 0xFFFF
  {
    if s == [] then 0 else CodeUnits(s[0]) + Utf16Length(s[1..])
  }

  // ----- ASCII `toLowerCase` -----

  function LowerChar(c: char): (r: char)
    ensures 'A' <= c <= 'Z' ==> r as int == c as int + 32
    ensures !('A' <= c <= 'Z') ==> r == c
  {
    if 'A' <= c <= 'Z' then (c as int + 32) as char else c
  }

  /** `s.toLowerCase()` on ASCII letters; other characters are kept. */
  function ToLower(s: string): (r: string)
    ensures |r| == |s|
    ensures forall i :: 0 <= i < |s| ==> r[i] == LowerChar(s[i])
    ensures forall i :: 0 <= i < |r| ==> !('A' <= r[i] <= 'Z')
  {
    seq(|s|, i requires 0 <= i < |s| => LowerChar(s[i]))
  }

  /** Lowering twice is lowering once. */
  lemma ToLowerIdempotent(s: string)
    ensures ToLower(ToLower(s)) == ToLower(s)
  {
  }

  // ----- `filter(Boolean)` and `join` -----

  /** `parts.filter(Boolean)` on strings: the non-empty parts, in order. */
  function NonEmpty(parts: seq<string>): (r: seq<string>)
    ensures |r| <= |parts|
    ensures forall j :: 0 <= j < |r| ==> r[j] != ""
    ensures forall p :: p in parts && p != "" ==> p in r
    ensures forall p :: p in r ==> p in parts
  {
    if parts == [] then []
    else if parts[0] == "" then NonEmpty(parts[1..])
    else [parts[0]] + NonEmpty(parts[1..])
  }

  /** `NonEmpty` is a filter: a single part is kept exactly when it is non-empty, and the
      result for a concatenation is the concatenation of the results, so the kept parts keep
      their order and multiplicity. */
  lemma {:induction false} NonEmptyIsFilter(a: seq<string>, b: seq<string>, p: string)
    ensures NonEmpty([p]) == (if p != "" then [p] else [])
    ensures NonEmpty(a + b) == NonEmpty(a) + NonEmpty(b)
  {
    assert [p][1..] == [];
    if a == [] {
      assert a + b == b;
    } else {
      assert (a + b)[0] == a[0] && (a + b)[1..] == a[1..] + b;
      NonEmptyIsFilter(a[1..], b, p);
    }
  }

  /** `parts.join(sep)`. */
  function Join(parts: seq<string>, sep: string): string
  {
    if parts == [] then ""
    else if |parts| == 1 then parts[0]
    else parts[0] + sep + Join(parts[1..], sep)
  }

  /** Appending one part to a non-empty list adds the separator and that part at the end. */
  lemma {:induction false} JoinSnoc(parts: seq<string>, x: string, sep: string)
    requires parts != []
    ensures Join(parts + [x], sep) == Join(parts, sep) + sep + x
  {
    if |parts| == 1 {
      assert parts + [x] == [parts[0], x];
    } else {
      assert (parts + [x])[1..] == parts[1..] + [x];
      JoinSnoc(parts[1..], x, sep);
    }
  }

  /** The joined text is as long as the parts together plus one separator between each two. */
  lemma {:induction false} JoinLength(parts: seq<string>, sep: string)
    ensures |Join(parts, sep)| == SumLengths(parts) + (if parts == [] then 0 else (|parts| - 1) * |sep|)
  {
    if |parts| > 1 {
      JoinLength(parts[1..], sep);
    }
  }

  function SumLengths(parts: seq<string>): nat
  {
    if parts == [] then 0 else |parts[0]| + SumLengths(parts[1..])
  }
}

/** The JSON replies of the backend's route handlers. */
module Http {
  /** A reply body: the data passed through, or `{ error: message }`. */
  datatype Body<+D> = Data(data: D) | Error(error: string)

  datatype Reply<+D> = Reply(status: int, body: Body<D>)
}

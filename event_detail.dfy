/** The event detail view: the summary it hands to the favorites hook, the genre path, the
    ticket-status label and badge, and the artists line. The event comes from the backend's
    detail route; its fetch outcome is a parameter. */
module EventDetail {
  import opened Common
  import opened Provider

  const NotApplicable: string := "N/A"
  const Separator: string := ", "

  /** `toSummary(e)`: the event shape stored as a favorite. The genre is the first
      classification's segment name when it is non-empty and "N/A" otherwise; the image is
      the first image's url, else the seatmap's static url, else ""; date, time and venue
      default to "". */
  function ToSummary(e: TMEvent): (r: EventSummary)
    ensures r.id == e.id && r.name == e.name
    ensures r.genre != ""
    ensures Truthy(FirstSegmentName(e)) ==> r.genre == FirstSegmentName(e).value
    ensures !Truthy(FirstSegmentName(e)) ==> r.genre == NotApplicable
    ensures FirstImageUrl(e).Some? ==> r.imageUrl == FirstImageUrl(e).value
    ensures FirstImageUrl(e).None? ==> r.imageUrl == SeatmapUrl(e).GetOr("")
    ensures r.date == LocalDate(e).GetOr("") && r.time == LocalTime(e).GetOr("")
    ensures r.venue == FirstVenueName(e).GetOr("")
  {
    var seg := FirstSegmentName(e).GetOr("");
    EventSummary(
      e.id,
      e.name,
      LocalDate(e).GetOr(""),
      LocalTime(e).GetOr(""),
      FirstVenueName(e).GetOr(""),
      if seg != "" then seg else NotApplicable,
      FirstImageUrl(e).GetOr(SeatmapUrl(e).GetOr("")))
  }

  /** `genrePath(c)`: "" without a first classification; otherwise the non-empty names among
      its segment, genre and sub-genre, in that order, joined by ", ". */
  function GenrePath(c: Option<seq<Classification>>): string
  {
    match Head(c)
    case None => ""
    case Some(first) =>
      Join(NonEmpty([NameOf(first.segment).GetOr(""), NameOf(first.genre).GetOr(""),
                     NameOf(first.subGenre).GetOr("")]), Separator)
  }

  /** The genre path is empty exactly when there is no first classification or none of its
      three names is non-empty; with all three present it lists them in order. */
  lemma GenrePathShape(c: Option<seq<Classification>>)
    ensures GenrePath(c) == "" <==>
      Head(c).None? ||
      (NameOf(Head(c).value.segment).GetOr("") == "" &&
       NameOf(Head(c).value.genre).GetOr("") == "" &&
       NameOf(Head(c).value.subGenre).GetOr("") == "")
    ensures Head(c).Some? ==>
      var seg, g, sg := NameOf(Head(c).value.segment).GetOr(""), NameOf(Head(c).value.genre).GetOr(""),
                        NameOf(Head(c).value.subGenre).GetOr("");
      seg != "" && g != "" && sg != "" ==> GenrePath(c) == seg + Separator + g + Separator + sg
  {
    if Head(c).Some? {
      var first := Head(c).value;
      var seg, g, sg := NameOf(first.segment).GetOr(""), NameOf(first.genre).GetOr(""), NameOf(first.subGenre).GetOr("");
      var parts := NonEmpty([seg, g, sg]);
      assert [seg, g, sg][1..] == [g, sg] && [g, sg][1..] == [sg] && [sg][1..] == [];
      assert NonEmpty([sg]) == (if sg != "" then [sg] else []);
      assert NonEmpty([g, sg]) == (if g != "" then [g] else []) + NonEmpty([sg]);
      assert parts == (if seg != "" then [seg] else []) + NonEmpty([g, sg]);
      if parts != [] {
        JoinLength(parts, Separator);
        assert SumLengths(parts) >= |parts[0]| > 0;
      }
      if seg != "" && g != "" && sg != "" {
        assert parts == [seg, g, sg];
        assert Join([sg], Separator) == sg;
        assert Join([g, sg], Separator) == g + Separator + sg;
      }
    }
  }

  // ----- the ticket status -----

  predicate IsUpper(c: char) {
    'A' <= c <= 'Z'
  }

  /** `s.replace(/([A-Z])/g, " $1")`: a space before every capital letter. */
  function SpaceBeforeCaps(s: string): string
  {
    if s == [] then []
    else if IsUpper(s[0]) then [' ', s[0]] + SpaceBeforeCaps(s[1..])
    else [s[0]] + SpaceBeforeCaps(s[1..])
  }

  function CountUpper(s: string): nat
  {
    if s == [] then 0 else (if IsUpper(s[0]) then 1 else 0) + CountUpper(s[1..])
  }

  /** Removes each space that stands right before a capital letter: the inverse of
      `SpaceBeforeCaps`. */
  function DropSpaceBeforeCaps(r: string): string
  {
    if r == [] then []
    else if |r| >= 2 && r[0] == ' ' && IsUpper(r[1]) then [r[1]] + DropSpaceBeforeCaps(r[2..])
    else [r[0]] + DropSpaceBeforeCaps(r[1..])
  }

  /** The replacement never starts with a capital letter. */
  lemma {:induction false} SpaceBeforeCapsHead(s: string)
    ensures SpaceBeforeCaps(s) != [] ==> !IsUpper(SpaceBeforeCaps(s)[0])
  {
  }

  /** The replacement lengthens the text by one per capital letter, every capital letter in it
      is preceded by a space, and dropping those spaces gives back the original. */
  lemma {:induction false} SpaceBeforeCapsProperties(s: string)
    ensures |SpaceBeforeCaps(s)| == |s| + CountUpper(s)
    ensures forall j :: 0 <= j < |SpaceBeforeCaps(s)| && IsUpper(SpaceBeforeCaps(s)[j]) ==>
      j > 0 && SpaceBeforeCaps(s)[j - 1] == ' '
    ensures DropSpaceBeforeCaps(SpaceBeforeCaps(s)) == s
  {
    if s != [] {
      var rest := SpaceBeforeCaps(s[1..]);
      SpaceBeforeCapsProperties(s[1..]);
      SpaceBeforeCapsHead(s[1..]);
      var r := SpaceBeforeCaps(s);
      if IsUpper(s[0]) {
        assert r == [' ', s[0]] + rest;
        assert r[2..] == rest;
        forall j | 0 <= j < |r| && IsUpper(r[j]) ensures j > 0 && r[j - 1] == ' ' {
          if j >= 2 { assert r[j] == rest[j - 2]; assert r[j - 1] == rest[j - 3]; }
        }
      } else {
        assert r == [s[0]] + rest;
        assert r[1..] == rest;
        forall j | 0 <= j < |r| && IsUpper(r[j]) ensures j > 0 && r[j - 1] == ' ' {
          assert j != 0;
          assert r[j] == rest[j - 1];
          if j >= 2 { assert r[j - 1] == rest[j - 2]; }
        }
        assert !(|r| >= 2 && r[0] == ' ' && IsUpper(r[1]));
      }
    }
  }

  /** The label shown in the status badge: `status.replace(/([A-Z])/g, " $1").trim()`. */
  function StatusLabel(status: string): (r: string)
    ensures r != [] ==> !IsSpace(r[0]) && !IsSpace(r[|r| - 1])
  {
    Trim(SpaceBeforeCaps(status))
  }

  /** A status without capital letters or outer whitespace is shown as it is. */
  lemma {:induction false} LowerCaseStatusUnchanged(status: string)
    requires CountUpper(status) == 0
    requires status != [] ==> !IsSpace(status[0]) && !IsSpace(status[|status| - 1])
    ensures StatusLabel(status) == status
  {
    NoCapsUnchanged(status);
    TrimUnpadded(status);
  }

  lemma {:induction false} NoCapsUnchanged(s: string)
    requires CountUpper(s) == 0
    ensures SpaceBeforeCaps(s) == s
  {
    if s != [] {
      NoCapsUnchanged(s[1..]);
    }
  }

  /** A code with a capital inside is split into words. */
  lemma StatusLabelExample()
    ensures StatusLabel("onSale") == "on Sale"
  {
    assert SpaceBeforeCaps("ale") == "ale";
    assert SpaceBeforeCaps("Sale") == " Sale";
    assert SpaceBeforeCaps("onSale") == "on Sale";
    TrimUnpadded("on Sale");
  }

  /** The space put before a leading capital is trimmed away: the label of a code that starts
      with a capital is the trimmed replacement of the rest, behind that capital. */
  lemma StatusLabelLeadingCapital(c: char, s: string)
    requires IsUpper(c)
    ensures StatusLabel([c] + s) == Trim([c] + SpaceBeforeCaps(s))
  {
    assert ([c] + s)[1..] == s;
    assert SpaceBeforeCaps([c] + s) == [' '] + ([c] + SpaceBeforeCaps(s));
    TrimDropsLeadingSpace(' ', [c] + SpaceBeforeCaps(s));
  }

  /** The badge is "secondary" when the lower-cased status is "onsale" or "on sale", and
      "outline" otherwise. */
  predicate SecondaryBadge(status: string) {
    ToLower(status) == "onsale" || ToLower(status) == "on sale"
  }

  /** The badge choice ignores letter case, and exactly the two on-sale spellings, in any
      case, choose "secondary". */
  lemma SecondaryBadgeIgnoresCase(a: string, b: string)
    requires ToLower(a) == ToLower(b)
    ensures SecondaryBadge(a) <==> SecondaryBadge(b)
  {
  }

  lemma SecondaryBadgeExamples()
    ensures SecondaryBadge("onsale") && SecondaryBadge("OnSale") && SecondaryBadge("On Sale")
    ensures !SecondaryBadge("offsale") && !SecondaryBadge("onsale ")
  {
    assert ToLower("OnSale") == "onsale";
    assert ToLower("On Sale") == "on sale";
    assert ToLower("offsale")[1] == 'f';
    assert ToLower("onsale ")[2] == 's';
  }

  /** The status block: nothing without a non-empty code, else the label and whether the badge
      is "secondary". */
  function StatusBadge(e: TMEvent): (r: Option<(string, bool)>)
    ensures r.None? <==> !Truthy(StatusCode(e))
    ensures r.Some? ==> r.value.0 == StatusLabel(StatusCode(e).value)
    ensures r.Some? ==> (r.value.1 <==> SecondaryBadge(StatusCode(e).value))
  {
    var status := StatusCode(e).GetOr("");
    if status == "" then None else Some((StatusLabel(status), SecondaryBadge(status)))
  }

  // ----- the artists line -----

  function Names(attractions: seq<Attraction>): (r: seq<string>)
    ensures |r| == |attractions|
    ensures forall j :: 0 <= j < |r| ==> r[j] == attractions[j].name
  {
    seq(|attractions|, j requires 0 <= j < |attractions| => attractions[j].name)
  }

  /** `attractions.map(a => a.name).join(", ")`. */
  function ArtistsLine(e: TMEvent): string
  {
    Join(Names(AttractionsOf(e)), Separator)
  }

  /** The artists line holds every attraction name once, in order, with one separator between
      each two: one more attraction adds ", " and its name at the end. */
  lemma {:induction false} ArtistsLineShape(attractions: seq<Attraction>, a: Attraction)
    ensures |Join(Names(attractions), Separator)| ==
      SumLengths(Names(attractions)) + (if attractions == [] then 0 else 2 * (|attractions| - 1))
    ensures attractions != [] ==>
      Join(Names(attractions + [a]), Separator) == Join(Names(attractions), Separator) + Separator + a.name
  {
    JoinLength(Names(attractions), Separator);
    if attractions != [] {
      assert Names(attractions + [a]) == Names(attractions) + [a.name];
      JoinSnoc(Names(attractions), a.name, Separator);
    }
  }

  /** The fetch of the event: the payload on success; on failure the previous value stays
      (null at first, which shows "Not found."). */
  function Loaded(previous: Option<TMEvent>, response: Outcome<TMEvent>): (r: Option<TMEvent>)
    ensures response.Ok? ==> r == Some(response.value)
    ensures response.Fail? ==> r == previous
  {
    match response
    case Ok(e) => Some(e)
    case Fail(_) => previous
  }
}

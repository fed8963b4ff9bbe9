/** Favourite spaces (lib/api/favorites.ts): the venue of a space is read off its title by
    an ordered keyword table, and a list of spaces is grouped by venue. */
module Favorites {
  import opened Js
  import opened Types

  datatype FavoriteSpace = FavoriteSpace(
    id: int,
    location_id: int,
    title: string,
    room_number: string,
    price: int,
    thumb: string,
    floor_plan: string)

  /** `VENUE_MAPPING`, in declaration order (the order `Object.entries` yields). */
  const VENUE_MAPPING: seq<(string, VenueType)> := [
    ("香杉", Minquan),
    ("月橘", Minquan),
    ("楓香", Minquan),
    ("大葉桉", Minquan),
    ("天日松", Taipower),
    ("牡丹", Taipower),
    ("古亭", Taipower),
    ("杜鵑", Taipower)
  ]

  /** The venue of the first entry whose keyword occurs in the title; Minquan if none does. */
  function FirstMatch(entries: seq<(string, VenueType)>, title: string): VenueType {
    if entries == [] then Minquan
    else if Contains(title, entries[0].0) then entries[0].1
    else FirstMatch(entries[1..], title)
  }

  function VenueFromTitle(title: string): VenueType {
    FirstMatch(VENUE_MAPPING, title)
  }

  /** `getVenueFromTitle`: a `for` loop over the table with an early return. */
  method GetVenueFromTitle(title: string) returns (venue: VenueType)
    ensures venue == VenueFromTitle(title)
  {
    for i := 0 to |VENUE_MAPPING|
      invariant VenueFromTitle(title) == FirstMatch(VENUE_MAPPING[i..], title)
    {
      var (venueName, v) := VENUE_MAPPING[i];
      if Contains(title, venueName) {
        return v;
      }
      assert VENUE_MAPPING[i..][1..] == VENUE_MAPPING[i + 1..];
    }
    return Minquan;
  }

  /** The first match in declaration order decides; no match means Minquan. */
  lemma {:induction false} FirstMatchIsFirst(entries: seq<(string, VenueType)>, title: string)
    ensures || (exists i :: && 0 <= i < |entries| && Contains(title, entries[i].0)
                            && FirstMatch(entries, title) == entries[i].1
                            && forall j :: 0 <= j < i ==> !Contains(title, entries[j].0))
            || ((forall j :: 0 <= j < |entries| ==> !Contains(title, entries[j].0))
                && FirstMatch(entries, title) == Minquan)
  {
    if entries != [] && !Contains(title, entries[0].0) {
      FirstMatchIsFirst(entries[1..], title);
      if exists i :: && 0 <= i < |entries[1..]| && Contains(title, entries[1..][i].0)
                     && FirstMatch(entries[1..], title) == entries[1..][i].1
                     && forall j :: 0 <= j < i ==> !Contains(title, entries[1..][j].0) {
        var i :| && 0 <= i < |entries[1..]| && Contains(title, entries[1..][i].0)
                 && FirstMatch(entries[1..], title) == entries[1..][i].1
                 && forall j :: 0 <= j < i ==> !Contains(title, entries[1..][j].0);
        assert forall j :: 1 <= j < i + 1 ==> entries[j] == entries[1..][j - 1];
        assert Contains(title, entries[i + 1].0);
      } else {
        assert forall j :: 1 <= j < |entries| ==> entries[j] == entries[1..][j - 1];
      }
    }
  }

  /** A title that mentions no keyword of the table is a Minquan space. */
  lemma VenueFromTitleDefault(title: string)
    requires forall j :: 0 <= j < |VENUE_MAPPING| ==> !Contains(title, VENUE_MAPPING[j].0)
    ensures VenueFromTitle(title) == Minquan
  {
    FirstMatchIsFirst(VENUE_MAPPING, title);
  }

  /** The Minquan keywords come first, so a title that mentions one of them is Minquan
      even when it also mentions a Taipower keyword. */
  lemma VenueFromTitleMinquanFirst(title: string, k: nat)
    requires k < |VENUE_MAPPING| && VENUE_MAPPING[k].1 == Minquan && Contains(title, VENUE_MAPPING[k].0)
    ensures VenueFromTitle(title) == Minquan
  {
    FirstMatchIsFirst(VENUE_MAPPING, title);
  }

  /** A title mentioning a Taipower keyword and no Minquan one is Taipower. */
  lemma VenueFromTitleTaipower(title: string, k: nat)
    requires k < |VENUE_MAPPING| && VENUE_MAPPING[k].1 == Taipower && Contains(title, VENUE_MAPPING[k].0)
    requires forall j :: 0 <= j < |VENUE_MAPPING| && VENUE_MAPPING[j].1 == Minquan ==> !Contains(title, VENUE_MAPPING[j].0)
    ensures VenueFromTitle(title) == Taipower
  {
    FirstMatchIsFirst(VENUE_MAPPING, title);
  }

  /** The spaces of one venue, in input order. */
  function SpacesOf(spaces: seq<FavoriteSpace>, venue: VenueType): seq<FavoriteSpace> {
    Filter(spaces, (s: FavoriteSpace) => VenueFromTitle(s.title) == venue)
  }

  /** `groupFavoritesByVenue`: a `reduce` that creates a venue's array on first use and
      pushes each space onto it. */
  method GroupFavoritesByVenue(spaces: seq<FavoriteSpace>) returns (groups: map<VenueType, seq<FavoriteSpace>>)
    ensures forall v :: v in groups <==> exists i :: 0 <= i < |spaces| && VenueFromTitle(spaces[i].title) == v
    ensures forall v :: v in groups ==> groups[v] == SpacesOf(spaces, v)
  {
    groups := map[];
    for i := 0 to |spaces|
      invariant forall v :: v in groups <==> exists j :: 0 <= j < i && VenueFromTitle(spaces[j].title) == v
      invariant forall v :: v in groups ==> groups[v] == SpacesOf(spaces[..i], v)
    {
      var space := spaces[i];
      var venue := GetVenueFromTitle(space.title);
      if venue !in groups {
        NoSpacesOf(spaces[..i], venue);
        groups := groups[venue := []];
      }
      groups := groups[venue := groups[venue] + [space]];
      assert spaces[..i + 1][..i] == spaces[..i];
      assert forall v :: SpacesOf(spaces[..i + 1], v) == SpacesOf(spaces[..i], v) + (if v == venue then [space] else []);
    }
    assert spaces[..|spaces|] == spaces;
  }

  lemma NoSpacesOf(spaces: seq<FavoriteSpace>, venue: VenueType)
    requires forall j :: 0 <= j < |spaces| ==> VenueFromTitle(spaces[j].title) != venue
    ensures SpacesOf(spaces, venue) == []
  {
    if SpacesOf(spaces, venue) != [] {
      GroupMembers(spaces, venue, SpacesOf(spaces, venue)[0]);
    }
  }

  /** Every space is in exactly the group its title names. */
  lemma GroupMembers(spaces: seq<FavoriteSpace>, venue: VenueType, x: FavoriteSpace)
    ensures x in SpacesOf(spaces, venue) <==> x in spaces && VenueFromTitle(x.title) == venue
  {
    FilterMembers(spaces, (s: FavoriteSpace) => VenueFromTitle(s.title) == venue);
  }

  /** No space is lost or duplicated: the group sizes add up to the input length. */
  lemma GroupSizes(spaces: seq<FavoriteSpace>)
    ensures |SpacesOf(spaces, Minquan)| + |SpacesOf(spaces, Taipower)| == |spaces|
  {
    FilterSplit(spaces, (s: FavoriteSpace) => VenueFromTitle(s.title) == Minquan,
                        (s: FavoriteSpace) => VenueFromTitle(s.title) == Taipower);
  }

  /** Grouping keeps the input's relative order within a group. */
  lemma GroupKeepsOrder(a: seq<FavoriteSpace>, b: seq<FavoriteSpace>, venue: VenueType)
    ensures SpacesOf(a + b, venue) == SpacesOf(a, venue) + SpacesOf(b, venue)
  {
    FilterAppend(a, b, (s: FavoriteSpace) => VenueFromTitle(s.title) == venue);
  }
}

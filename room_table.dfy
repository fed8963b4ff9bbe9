/** The room list of one venue (components/room-table.tsx): the venue is found in the
    catalog by its display name, its hubs' rooms are flattened into rows, and the
    create-plan button carries the row's room to the new-plan page as query parameters. */
module RoomTableView {
  import opened Js
  import opened Types
  import Transformers
  import PlanForm

  /** `VENUE_NAME_MAP`: the catalog's name of each venue. */
  function VenueDisplayName(v: VenueType): string {
    match v
    case Minquan => "民權"
    case Taipower => "台電"
  }

  /** The display names are distinct, and the room table's classification of catalog
      names reads each one back as its venue. */
  lemma VenueDisplayNameRoundTrip(v: VenueType, w: VenueType)
    ensures Transformers.VenueOfCatalogName(VenueDisplayName(v)) == v
    ensures VenueDisplayName(v) == VenueDisplayName(w) ==> v == w
  {
  }

  /** `roomsData.find(v => v.name === name)`. */
  function FindVenue(catalog: seq<CatalogVenue>, name: string): Option<CatalogVenue> {
    if catalog == [] then None
    else if catalog[0].name == name then Some(catalog[0])
    else FindVenue(catalog[1..], name)
  }

  /** `find` returns the first venue with the name, and nothing when no venue has it. */
  lemma {:induction false} FindVenueFirst(catalog: seq<CatalogVenue>, name: string) returns (i: nat)
    ensures FindVenue(catalog, name).None? <==> forall j :: 0 <= j < |catalog| ==> catalog[j].name != name
    ensures FindVenue(catalog, name).Some? ==>
              && i < |catalog| && FindVenue(catalog, name) == Some(catalog[i]) && catalog[i].name == name
              && forall j :: 0 <= j < i ==> catalog[j].name != name
  {
    if catalog == [] {
      i := 0;
    } else if catalog[0].name == name {
      i := 0;
    } else {
      var i' := FindVenueFirst(catalog[1..], name);
      i := i' + 1;
      assert forall j :: 1 <= j < |catalog| ==> catalog[j] == catalog[1..][j - 1];
    }
  }

  /** One row of the table. */
  datatype RoomRow = RoomRow(
    id: string,
    name: string,
    capacity: int,
    priority: int,
    address: string,
    hubName: Option<string>)

  /** The row for a room of a hub: `hubName` is the hub's `name2`, with no fallback. */
  function RowOf(hub: CatalogHub, room: CatalogRoom): RoomRow {
    RoomRow(room.space_id, room.roomNumber, room.capacity, room.priority, hub.address, hub.name2)
  }

  /** `hub.hubRooms.map(...)`. */
  function HubRows(hub: CatalogHub): (rows: seq<RoomRow>)
    ensures |rows| == |hub.hubRooms|
  {
    seq(|hub.hubRooms|, k requires 0 <= k < |hub.hubRooms| => RowOf(hub, hub.hubRooms[k]))
  }

  /** `hubs.flatMap(...)`. */
  function FlattenHubs(hubs: seq<CatalogHub>): seq<RoomRow> {
    if hubs == [] then [] else FlattenHubs(hubs[..|hubs| - 1]) + HubRows(hubs[|hubs| - 1])
  }

  /** The number of rooms in some hubs. */
  function RoomCount(hubs: seq<CatalogHub>): nat {
    if hubs == [] then 0 else RoomCount(hubs[..|hubs| - 1]) + |hubs[|hubs| - 1].hubRooms|
  }

  /** `rooms`: the rows of the venue shown, or none when the catalog lacks it. */
  function Rows(catalog: seq<CatalogVenue>, venue: VenueType): seq<RoomRow> {
    var found := FindVenue(catalog, VenueDisplayName(venue));
    if found.Some? then FlattenHubs(found.value.hubs) else []
  }

  /** A venue missing from the catalog shows no rows (the "無可用房間" notice). */
  lemma RowsMissingVenue(catalog: seq<CatalogVenue>, venue: VenueType)
    requires forall j :: 0 <= j < |catalog| ==> catalog[j].name != VenueDisplayName(venue)
    ensures Rows(catalog, venue) == []
  {
    var _ := FindVenueFirst(catalog, VenueDisplayName(venue));
  }

  /** Flattening distributes over concatenation: the rows follow the hubs' order. */
  lemma {:induction false} FlattenHubsAppend(a: seq<CatalogHub>, b: seq<CatalogHub>)
    ensures FlattenHubs(a + b) == FlattenHubs(a) + FlattenHubs(b)
    ensures RoomCount(a + b) == RoomCount(a) + RoomCount(b)
    decreases |b|
  {
    if b == [] {
      assert a + b == a;
    } else {
      var b' := b[..|b| - 1];
      assert (a + b)[..|a + b| - 1] == a + b';
      assert (a + b)[|a + b| - 1] == b[|b| - 1];
      FlattenHubsAppend(a, b');
    }
  }

  /** There is one row per room: the row count is the sum of the hubs' room counts. */
  lemma {:induction false} FlattenHubsCount(hubs: seq<CatalogHub>)
    ensures |FlattenHubs(hubs)| == RoomCount(hubs)
  {
    if hubs != [] {
      FlattenHubsCount(hubs[..|hubs| - 1]);
    }
  }

  /** Room `k` of hub `h` is the row after all rooms of the earlier hubs, built from its
      own hub. */
  lemma {:induction false} FlattenHubsCover(hubs: seq<CatalogHub>, h: nat, k: nat)
    requires h < |hubs| && k < |hubs[h].hubRooms|
    ensures RoomCount(hubs[..h]) + k < |FlattenHubs(hubs)|
    ensures FlattenHubs(hubs)[RoomCount(hubs[..h]) + k] == RowOf(hubs[h], hubs[h].hubRooms[k])
  {
    var init := hubs[..|hubs| - 1];
    FlattenHubsCount(init);
    if h == |hubs| - 1 {
      assert hubs[..h] == init;
    } else {
      FlattenHubsCover(init, h, k);
      assert init[..h] == hubs[..h];
    }
  }

  /** Every row comes from some room of some hub, and takes its address and hub name
      from that very hub. */
  lemma {:induction false} FlattenHubsFrom(hubs: seq<CatalogHub>, i: nat) returns (h: nat, k: nat)
    requires i < |FlattenHubs(hubs)|
    ensures h < |hubs| && k < |hubs[h].hubRooms|
    ensures FlattenHubs(hubs)[i] == RowOf(hubs[h], hubs[h].hubRooms[k])
  {
    var init := hubs[..|hubs| - 1];
    var last := hubs[|hubs| - 1];
    if i < |FlattenHubs(init)| {
      h, k := FlattenHubsFrom(init, i);
    } else {
      h, k := |hubs| - 1, i - |FlattenHubs(init)|;
    }
  }

  /** Every row id is a key of the room table, so the dashboard resolves the rooms it lists. */
  lemma RowIdsInRoomTable(catalog: seq<CatalogVenue>, venue: VenueType, i: nat)
    requires i < |Rows(catalog, venue)|
    ensures Rows(catalog, venue)[i].id in Transformers.RoomTableOf(catalog)
  {
    var v := FindVenueFirst(catalog, VenueDisplayName(venue));
    var hubs := catalog[v].hubs;
    var h, k := FlattenHubsFrom(hubs, i);
    Transformers.RoomTableKeys(catalog, Rows(catalog, venue)[i].id);
  }

  // ---------------------------------------------------------------- create-plan query

  /** The `URLSearchParams` of `handleCreatePlan`, in insertion order. */
  function CreatePlanQuery(row: RoomRow, venue: VenueType): seq<(string, string)> {
    [("room_id", row.id), ("room_name", row.name), ("venue", VenueText(venue))]
  }

  /** `searchParams.get(key)`: the first value stored under the key. */
  function QueryGet(params: seq<(string, string)>, key: string): Option<string> {
    if params == [] then None
    else if params[0].0 == key then Some(params[0].1)
    else QueryGet(params[1..], key)
  }

  /** The query carries the row's id and name and the venue shown, and the new-plan page
      reading it pre-fills the form with that room id (a room with an empty id leaves the
      field empty). */
  lemma CreatePlanQueryRoundTrip(row: RoomRow, venue: VenueType)
    ensures QueryGet(CreatePlanQuery(row, venue), "room_id") == Some(row.id)
    ensures QueryGet(CreatePlanQuery(row, venue), "room_name") == Some(row.name)
    ensures QueryGet(CreatePlanQuery(row, venue), "venue") == Some(VenueText(venue))
    ensures PlanForm.DefaultValues(OrUndefined(QueryGet(CreatePlanQuery(row, venue), "room_id"))).room_id == row.id
  {
    var q := CreatePlanQuery(row, venue);
    assert q[1..][1..] == [("venue", VenueText(venue))];
    assert QueryGet(q[1..][1..], "venue") == Some(VenueText(venue));
    assert q[1..][0].0 == "room_name" != "venue";
  }
}

/** The domain mapper and room resolver (lib/api/transformers.ts): the room lookup table
    built once from the catalog, the room lookup with its fallback, and the mapping of
    backend tasks, plans and task events into UI values. */
module Transformers {
  import opened Js
  import opened Types
  import opened DateTime

  datatype RoomInfo = RoomInfo(name: string, venue: VenueType, roomNumber: string, hubName: string)

  type RoomTable = map<string, RoomInfo>
  type Entry = (string, RoomInfo)

  // ---------------------------------------------------------------- the room table

  /** The catalog names one venue "民權"; every other venue is taken to be Taipower. */
  function VenueOfCatalogName(name: string): VenueType {
    if name == "民權" then Minquan else Taipower
  }

  /** `hub.name2 || hub.name1 || ""`. */
  function HubDisplayName(hub: CatalogHub): string {
    Or(hub.name2, Or(hub.name1, ""))
  }

  function RoomEntry(venueName: string, hub: CatalogHub, room: CatalogRoom): Entry {
    (room.space_id, RoomInfo(room.space_full_name, VenueOfCatalogName(venueName), room.roomNumber, HubDisplayName(hub)))
  }

  /** The `Map.set` calls for one hub, in order. */
  function HubEntries(venueName: string, hub: CatalogHub): (es: seq<Entry>)
    ensures |es| == |hub.hubRooms|
  {
    seq(|hub.hubRooms|, k requires 0 <= k < |hub.hubRooms| => RoomEntry(venueName, hub, hub.hubRooms[k]))
  }

  function HubsEntries(venueName: string, hubs: seq<CatalogHub>): seq<Entry> {
    if hubs == [] then []
    else HubsEntries(venueName, hubs[..|hubs| - 1]) + HubEntries(venueName, hubs[|hubs| - 1])
  }

  /** Every `Map.set` the initialisation performs, in order. */
  function CatalogEntries(catalog: seq<CatalogVenue>): seq<Entry> {
    if catalog == [] then []
    else CatalogEntries(catalog[..|catalog| - 1]) + HubsEntries(catalog[|catalog| - 1].name, catalog[|catalog| - 1].hubs)
  }

  /** The map after performing the `set` calls `es` on an empty map. */
  function Insert(es: seq<Entry>): RoomTable {
    if es == [] then map[] else Insert(es[..|es| - 1])[es[|es| - 1].0 := es[|es| - 1].1]
  }

  /** The contents of `roomsMap` once initialised from `catalog`. */
  function RoomTableOf(catalog: seq<CatalogVenue>): RoomTable {
    Insert(CatalogEntries(catalog))
  }

  /** The module-level initialisation of `roomsMap`: nested `forEach` loops over venues,
      hubs and rooms, one `Map.set` per room. */
  method BuildRoomsMap(catalog: seq<CatalogVenue>) returns (rooms: RoomTable)
    ensures rooms == RoomTableOf(catalog)
  {
    rooms := map[];
    for i := 0 to |catalog|
      invariant rooms == Insert(CatalogEntries(catalog[..i]))
    {
      rooms := SetVenueRooms(rooms, catalog[i], CatalogEntries(catalog[..i]));
      CatalogEntriesNext(catalog, i);
    }
    assert catalog[..|catalog|] == catalog;
  }

  /** The `venue.hubs.forEach` callback: the venue name is classified once, then each hub's
      rooms are set. */
  method SetVenueRooms(rooms: RoomTable, venue: CatalogVenue, ghost before: seq<Entry>) returns (r: RoomTable)
    requires rooms == Insert(before)
    ensures r == Insert(before + HubsEntries(venue.name, venue.hubs))
  {
    r := rooms;
    assert before + HubsEntries(venue.name, venue.hubs[..0]) == before;
    for j := 0 to |venue.hubs|
      invariant r == Insert(before + HubsEntries(venue.name, venue.hubs[..j]))
    {
      r := SetHubRooms(r, venue.name, venue.hubs[j], before + HubsEntries(venue.name, venue.hubs[..j]));
      HubsEntriesNext(venue.name, venue.hubs, j);
      assert before + HubsEntries(venue.name, venue.hubs[..j]) + HubEntries(venue.name, venue.hubs[j])
          == before + HubsEntries(venue.name, venue.hubs[..j + 1]);
    }
    assert venue.hubs[..|venue.hubs|] == venue.hubs;
  }

  /** The `hub.hubRooms.forEach` callback: one `set` per room. */
  method SetHubRooms(rooms: RoomTable, venueName: string, hub: CatalogHub, ghost done: seq<Entry>) returns (r: RoomTable)
    requires rooms == Insert(done)
    ensures r == Insert(done + HubEntries(venueName, hub))
  {
    r := rooms;
    assert done + HubEntries(venueName, hub)[..0] == done;
    for k := 0 to |hub.hubRooms|
      invariant r == Insert(done + HubEntries(venueName, hub)[..k])
    {
      var e := RoomEntry(venueName, hub, hub.hubRooms[k]);
      InsertNext(done, HubEntries(venueName, hub), k);
      r := r[e.0 := e.1];
    }
    assert HubEntries(venueName, hub)[..|hub.hubRooms|] == HubEntries(venueName, hub);
  }

  lemma InsertNext(done: seq<Entry>, es: seq<Entry>, k: nat)
    requires k < |es|
    ensures Insert(done + es[..k + 1]) == Insert(done + es[..k])[es[k].0 := es[k].1]
  {
    assert done + es[..k + 1] == (done + es[..k]) + [es[k]];
  }

  lemma HubsEntriesNext(venueName: string, hubs: seq<CatalogHub>, j: nat)
    requires j < |hubs|
    ensures HubsEntries(venueName, hubs[..j + 1]) == HubsEntries(venueName, hubs[..j]) + HubEntries(venueName, hubs[j])
  {
    assert hubs[..j + 1][..j] == hubs[..j];
  }

  lemma CatalogEntriesNext(catalog: seq<CatalogVenue>, i: nat)
    requires i < |catalog|
    ensures CatalogEntries(catalog[..i + 1]) == CatalogEntries(catalog[..i]) + HubsEntries(catalog[i].name, catalog[i].hubs)
  {
    assert catalog[..i + 1][..i] == catalog[..i];
  }

  /** A key is in the table exactly when some `set` call used it. */
  lemma {:induction false} InsertKeys(es: seq<Entry>, key: string)
    ensures key in Insert(es) <==> exists i :: 0 <= i < |es| && es[i].0 == key
  {
    if es != [] {
      var es' := es[..|es| - 1];
      InsertKeys(es', key);
      assert forall i :: 0 <= i < |es'| ==> es'[i] == es[i];
    }
  }

  /** The stored value is that of the last `set` call with the key: later duplicates overwrite. */
  lemma {:induction false} InsertLastWins(es: seq<Entry>, i: nat)
    requires i < |es|
    requires forall j :: i < j < |es| ==> es[j].0 != es[i].0
    ensures es[i].0 in Insert(es) && Insert(es)[es[i].0] == es[i].1
  {
    if i < |es| - 1 {
      var es' := es[..|es| - 1];
      InsertLastWins(es', i);
    }
  }

  /** Every room of the catalog is one of the `set` calls, with its venue's and hub's info. */
  lemma {:induction false} CatalogEntriesCover(catalog: seq<CatalogVenue>, v: nat, h: nat, k: nat)
    requires v < |catalog| && h < |catalog[v].hubs| && k < |catalog[v].hubs[h].hubRooms|
    ensures RoomEntry(catalog[v].name, catalog[v].hubs[h], catalog[v].hubs[h].hubRooms[k]) in CatalogEntries(catalog)
  {
    var last := |catalog| - 1;
    if v < last {
      CatalogEntriesCover(catalog[..last], v, h, k);
    } else {
      HubsEntriesCover(catalog[v].name, catalog[v].hubs, h, k);
    }
  }

  lemma {:induction false} HubsEntriesCover(venueName: string, hubs: seq<CatalogHub>, h: nat, k: nat)
    requires h < |hubs| && k < |hubs[h].hubRooms|
    ensures RoomEntry(venueName, hubs[h], hubs[h].hubRooms[k]) in HubsEntries(venueName, hubs)
  {
    var last := |hubs| - 1;
    if h < last {
      HubsEntriesCover(venueName, hubs[..last], h, k);
    } else {
      assert HubEntries(venueName, hubs[h])[k] == RoomEntry(venueName, hubs[h], hubs[h].hubRooms[k]);
    }
  }

  /** Every `set` call comes from some room of the catalog. */
  lemma {:induction false} CatalogEntriesFrom(catalog: seq<CatalogVenue>, e: Entry)
    requires e in CatalogEntries(catalog)
    ensures exists v, h, k :: && 0 <= v < |catalog| && 0 <= h < |catalog[v].hubs|
                              && 0 <= k < |catalog[v].hubs[h].hubRooms|
                              && e == RoomEntry(catalog[v].name, catalog[v].hubs[h], catalog[v].hubs[h].hubRooms[k])
  {
    var last := |catalog| - 1;
    var prefix := catalog[..last];
    if e in CatalogEntries(prefix) {
      CatalogEntriesFrom(prefix, e);
      var v, h, k :| && 0 <= v < |prefix| && 0 <= h < |prefix[v].hubs|
                     && 0 <= k < |prefix[v].hubs[h].hubRooms|
                     && e == RoomEntry(prefix[v].name, prefix[v].hubs[h], prefix[v].hubs[h].hubRooms[k]);
      assert prefix[v] == catalog[v];
    } else {
      var h, k := HubsEntriesFrom(catalog[last].name, catalog[last].hubs, e);
    }
  }

  lemma {:induction false} HubsEntriesFrom(venueName: string, hubs: seq<CatalogHub>, e: Entry) returns (h: nat, k: nat)
    requires e in HubsEntries(venueName, hubs)
    ensures h < |hubs| && k < |hubs[h].hubRooms| && e == RoomEntry(venueName, hubs[h], hubs[h].hubRooms[k])
  {
    var last := |hubs| - 1;
    if e in HubsEntries(venueName, hubs[..last]) {
      h, k := HubsEntriesFrom(venueName, hubs[..last], e);
      assert hubs[..last][h] == hubs[h];
    } else {
      h := last;
      var es := HubEntries(venueName, hubs[last]);
      k :| 0 <= k < |es| && es[k] == e;
    }
  }

  /** A space id is in the table exactly when some room of the catalog carries it. */
  lemma RoomTableKeys(catalog: seq<CatalogVenue>, spaceId: string)
    ensures spaceId in RoomTableOf(catalog) <==>
            exists v, h, k :: && 0 <= v < |catalog| && 0 <= h < |catalog[v].hubs|
                              && 0 <= k < |catalog[v].hubs[h].hubRooms|
                              && catalog[v].hubs[h].hubRooms[k].space_id == spaceId
  {
    var es := CatalogEntries(catalog);
    InsertKeys(es, spaceId);
    if spaceId in RoomTableOf(catalog) {
      var i :| 0 <= i < |es| && es[i].0 == spaceId;
      CatalogEntriesFrom(catalog, es[i]);
    }
    if exists v, h, k :: && 0 <= v < |catalog| && 0 <= h < |catalog[v].hubs|
                         && 0 <= k < |catalog[v].hubs[h].hubRooms|
                         && catalog[v].hubs[h].hubRooms[k].space_id == spaceId {
      var v, h, k :| && 0 <= v < |catalog| && 0 <= h < |catalog[v].hubs|
                     && 0 <= k < |catalog[v].hubs[h].hubRooms|
                     && catalog[v].hubs[h].hubRooms[k].space_id == spaceId;
      CatalogEntriesCover(catalog, v, h, k);
    }
  }

  /** What the table stores for a space id: the info of the last catalog room with that id,
      with its venue classified by the venue's name and its hub name taken from `name2`,
      else `name1`, else "". */
  lemma RoomTableValue(catalog: seq<CatalogVenue>, v: nat, h: nat, k: nat)
    requires v < |catalog| && h < |catalog[v].hubs| && k < |catalog[v].hubs[h].hubRooms|
    requires var e := RoomEntry(catalog[v].name, catalog[v].hubs[h], catalog[v].hubs[h].hubRooms[k]);
             var es := CatalogEntries(catalog);
             exists i :: 0 <= i < |es| && es[i] == e && forall j :: i < j < |es| ==> es[j].0 != e.0
    ensures var room := catalog[v].hubs[h].hubRooms[k];
            && room.space_id in RoomTableOf(catalog)
            && RoomTableOf(catalog)[room.space_id]
               == RoomInfo(room.space_full_name,
                           if catalog[v].name == "民權" then Minquan else Taipower,
                           room.roomNumber,
                           HubDisplayName(catalog[v].hubs[h]))
  {
    var e := RoomEntry(catalog[v].name, catalog[v].hubs[h], catalog[v].hubs[h].hubRooms[k]);
    var es := CatalogEntries(catalog);
    var i :| 0 <= i < |es| && es[i] == e && forall j :: i < j < |es| ==> es[j].0 != e.0;
    InsertLastWins(es, i);
  }

  // ---------------------------------------------------------------- room lookup

  /** `getRoomInfo`: the stored info, or a placeholder naming the bare id. */
  function GetRoomInfo(rooms: RoomTable, roomId: int): RoomInfo {
    var key := IntToString(roomId);
    if key in rooms then rooms[key]
    else RoomInfo("房間 " + key, Minquan, key, "")
  }

  /** The lookup never fails; a catalog hit gives the stored info, a miss gives the
      placeholder "房間 {id}" in Minquan with the id as room number and no hub. */
  lemma GetRoomInfoFromCatalog(catalog: seq<CatalogVenue>, roomId: int)
    ensures var info := GetRoomInfo(RoomTableOf(catalog), roomId);
            var key := IntToString(roomId);
            if exists v, h, k :: && 0 <= v < |catalog| && 0 <= h < |catalog[v].hubs|
                                 && 0 <= k < |catalog[v].hubs[h].hubRooms|
                                 && catalog[v].hubs[h].hubRooms[k].space_id == key
            then key in RoomTableOf(catalog) && info == RoomTableOf(catalog)[key]
            else info == RoomInfo("房間 " + key, Minquan, key, "")
  {
    RoomTableKeys(catalog, IntToString(roomId));
  }

  // ---------------------------------------------------------------- tasks

  /** The displayed task status: "skipped" is shown as "failed". */
  function NarrowStatus(s: RawTaskStatus): TaskStatus {
    if s == Skipped then Failed else s
  }

  /** The backend status a displayed status stands for, when it is not a narrowed "skipped". */
  function WidenStatus(s: TaskStatus): RawTaskStatus {
    s
  }

  /** Narrowing loses exactly one distinction: "skipped" and "failed" look alike, every other
      status survives unchanged. */
  lemma NarrowStatusLossy(s: RawTaskStatus)
    ensures NarrowStatus(s) == Failed <==> (s == Failed || s == Skipped)
    ensures s != Skipped ==> WidenStatus(NarrowStatus(s)) == s
    ensures forall t: TaskStatus :: NarrowStatus(WidenStatus(t)) == t
  {
  }

  /** `transformTask`: the owner is filled in later, there is no order URL. */
  function TransformTask(raw: RawTask): Task {
    Task(
      IntToString(raw.task_id),
      "",
      if raw.action == Booking then Book else Renew,
      raw.execute_at,
      NarrowStatus(raw.status),
      OrUndefined(raw.error_message),
      None,
      raw.execute_at,
      Or(raw.executed_at, raw.execute_at))
  }

  lemma TransformTaskFields(raw: RawTask)
    ensures var t := TransformTask(raw);
            && t.id == IntToString(raw.task_id)
            && (t.task_type == Book <==> raw.action == Booking)
            && (t.status == Failed <==> raw.status == Failed || raw.status == Skipped)
            && (raw.status != Skipped ==> t.status == raw.status)
            && t.plan_id == "" && t.order_url == None
            && t.scheduled_time == raw.execute_at && t.created_at == raw.execute_at
            && t.updated_at == (if Present(raw.executed_at) then raw.executed_at.value else raw.execute_at)
            && (t.error_message.Some? <==> Present(raw.error_message))
            && (t.error_message.Some? ==> t.error_message == raw.error_message)
  {
  }

  /** Mapped tasks keep the backend id: two tasks map to the same id only if they had the same one. */
  lemma TransformTaskKeepsId(a: RawTask, b: RawTask)
    requires TransformTask(a).id == TransformTask(b).id
    ensures a.task_id == b.task_id
  {
    IntToStringInjective(a.task_id, b.task_id);
  }

  /** A skipped task and the same task failed cannot be told apart once mapped. */
  lemma TransformTaskSkippedIsFailed(raw: RawTask)
    requires raw.status == Skipped
    ensures TransformTask(raw) == TransformTask(raw.(status := Failed))
  {
  }

  // ---------------------------------------------------------------- plans

  /** `transformPlan`. `None` is the exception thrown by `parseDateTime`, taken here to
      happen on every timestamp outside the fixed zone-less format. The end time is
      always present. */
  function TransformPlan(rooms: RoomTable, raw: RawPlan): Option<Plan> {
    var start := ParseDateTime(raw.usage_start_time);
    var end := ParseDateTime(raw.usage_end_time);
    var info := GetRoomInfo(rooms, raw.room_id);
    var booking :=
      if raw.tasks.Some? && |raw.tasks.value| > 0 then ParseDateTime(raw.tasks.value[0].execute_at)
      else Some(DateTimeParts("", ""));
    if start.None? || end.None? || booking.None? then None
    else
      var hasBooking := raw.tasks.Some? && |raw.tasks.value| > 0;
      Some(Plan(
        raw.plan_id,
        IntToString(raw.room_id),
        info.name,
        info.venue,
        start.value.date,
        start.value.time,
        Some(end.value.time),
        if hasBooking then Some(booking.value.date) else None,
        if hasBooking then Some(booking.value.time) else None,
        raw.status,
        OrUndefined(raw.line_user_id),
        false,
        raw.created_at,
        raw.updated_at))
  }

  /** A plan maps exactly when its start, its end and its first task's time are fixed-format,
      zone-less timestamps (`IsLocalTimestamp`). */
  lemma TransformPlanDefined(rooms: RoomTable, raw: RawPlan)
    ensures TransformPlan(rooms, raw).Some? <==>
            && IsLocalTimestamp(raw.usage_start_time)
            && IsLocalTimestamp(raw.usage_end_time)
            && (raw.tasks.Some? && |raw.tasks.value| > 0 ==> IsLocalTimestamp(raw.tasks.value[0].execute_at))
  {
  }

  /** The fields of a mapped plan. */
  lemma TransformPlanFields(rooms: RoomTable, raw: RawPlan)
    requires TransformPlan(rooms, raw).Some?
    ensures var p := TransformPlan(rooms, raw).value;
            && p.id == raw.plan_id
            && p.room_id == IntToString(raw.room_id)
            && p.room_name == GetRoomInfo(rooms, raw.room_id).name
            && p.venue == GetRoomInfo(rooms, raw.room_id).venue
            && raw.usage_start_time == p.start_day + "T" + p.start_time + raw.usage_start_time[16..]
            && p.end_time == Some(raw.usage_end_time[11..16])
            && p.status == raw.status
            && p.ignore_announcement == false
            && (p.booking_date.Some? <==> raw.tasks.Some? && |raw.tasks.value| > 0)
            && (p.booking_time.Some? <==> p.booking_date.Some?)
            && (p.booking_date.Some? ==>
                  && p.booking_date.value == raw.tasks.value[0].execute_at[..10]
                  && p.booking_time.value == raw.tasks.value[0].execute_at[11..16])
            && (p.line_user_id.Some? <==> Present(raw.line_user_id))
            && (Present(raw.line_user_id) ==> p.line_user_id == raw.line_user_id)
            && p.created_at == raw.created_at && p.updated_at == raw.updated_at
  {
  }

  /** A one-hour plan with one booking task, mapped with an empty catalog. */
  lemma TransformPlanExample()
    ensures TransformPlan(map[], RawPlan("p1", 589, None, "2025-11-18T21:00:00", "2025-11-18T22:00:00", Pending,
                                         "c", "u", Some([RawTask(1, "2025-11-18T21:00:00", Booking, Pending, None, None)])))
         == Some(Plan("p1", "589", "房間 589", Minquan, "2025-11-18", "21:00", Some("22:00"),
                      Some("2025-11-18"), Some("21:00"), Pending, None, false, "c", "u"))
  {
    ExampleTimestamps();
    ExampleRoom();
  }

  lemma ExampleTimestamps()
    ensures ParseDateTime("2025-11-18T21:00:00") == Some(DateTimeParts("2025-11-18", "21:00"))
    ensures ParseDateTime("2025-11-18T22:00:00") == Some(DateTimeParts("2025-11-18", "22:00"))
  {
    ParseDateTimeRoundTrip("2025-11-18", "21:00", ":00");
    ParseDateTimeRoundTrip("2025-11-18", "22:00", ":00");
    assert "2025-11-18" + "T" + "21:00" + ":00" == "2025-11-18T21:00:00";
    assert "2025-11-18" + "T" + "22:00" + ":00" == "2025-11-18T22:00:00";
  }

  lemma ExampleRoom()
    ensures IntToString(589) == "589"
    ensures GetRoomInfo(map[], 589) == RoomInfo("房間 589", Minquan, "589", "")
  {
    assert NatToString(5) == "5";
    assert NatToString(58) == "58";
  }

  /** The tasks of a plan, each owned by the plan. */
  function OwnedTasks(raws: seq<RawTask>, planId: string): seq<Task> {
    if raws == [] then [] else [TransformTask(raws[0]).(plan_id := planId)] + OwnedTasks(raws[1..], planId)
  }

  /** `transformPlanWithTasks`; `None` also when `tasks` is absent (`undefined.map` throws). */
  function TransformPlanWithTasks(rooms: RoomTable, raw: RawPlan): Option<PlanWithTasks> {
    var plan := TransformPlan(rooms, raw);
    if plan.None? || raw.tasks.None? then None
    else Some(PlanWithTasks(plan.value, OwnedTasks(raw.tasks.value, plan.value.id)))
  }

  /** The tasks keep their number and order, and every one belongs to the plan. */
  lemma {:induction false} OwnedTasksAt(raws: seq<RawTask>, planId: string)
    ensures |OwnedTasks(raws, planId)| == |raws|
    ensures forall i :: 0 <= i < |raws| ==>
              OwnedTasks(raws, planId)[i] == TransformTask(raws[i]).(plan_id := planId)
  {
    if raws != [] {
      OwnedTasksAt(raws[1..], planId);
    }
  }

  lemma TransformPlanWithTasksShape(rooms: RoomTable, raw: RawPlan)
    requires TransformPlanWithTasks(rooms, raw).Some?
    ensures var r := TransformPlanWithTasks(rooms, raw).value;
            && Some(r.plan) == TransformPlan(rooms, raw)
            && |r.tasks| == |raw.tasks.value|
            && forall i :: 0 <= i < |r.tasks| ==>
                 r.tasks[i].plan_id == r.plan.id == raw.plan_id
                 && r.tasks[i] == TransformTask(raw.tasks.value[i]).(plan_id := raw.plan_id)
  {
    OwnedTasksAt(raw.tasks.value, raw.plan_id);
  }

  /** `response.plans.map(transformPlan)`: the first plan that throws aborts the whole list. */
  function TransformPlans(rooms: RoomTable, raws: seq<RawPlan>): Option<seq<Plan>> {
    MapOrThrow(raws, (raw: RawPlan) => TransformPlan(rooms, raw))
  }

  /** `transformPlansResponse`; `total` is not read. */
  function TransformPlansResponse(rooms: RoomTable, response: RawPlansResponse): Option<seq<Plan>> {
    TransformPlans(rooms, response.plans)
  }

  /** The list maps exactly when every plan does, and then element by element, in order. */
  lemma TransformPlansAt(rooms: RoomTable, raws: seq<RawPlan>)
    ensures TransformPlans(rooms, raws).Some? <==> forall i :: 0 <= i < |raws| ==> TransformPlan(rooms, raws[i]).Some?
    ensures TransformPlans(rooms, raws).Some? ==>
              && |TransformPlans(rooms, raws).value| == |raws|
              && forall i :: 0 <= i < |raws| ==> Some(TransformPlans(rooms, raws).value[i]) == TransformPlan(rooms, raws[i])
  {
    MapOrThrowAt(raws, (raw: RawPlan) => TransformPlan(rooms, raw));
  }

  lemma TransformPlansResponseIgnoresTotal(rooms: RoomTable, response: RawPlansResponse, total: int)
    ensures TransformPlansResponse(rooms, response.(total := total)) == TransformPlansResponse(rooms, response)
  {
  }

  // ---------------------------------------------------------------- events

  /** The five backend states collapse into three feed categories. */
  function EventKind(s: RawTaskStatus): EventType {
    if s == Completed then Success
    else if s == Failed then Failure
    else Start
  }

  function ActionText(a: Action): string {
    if a == Booking then "訂房" else "續訂"
  }

  /** `${room_id}` of a field the declared type lacks: "undefined" when absent. */
  function RoomIdText(roomId: Option<int>): string {
    if roomId.Some? then IntToString(roomId.value) else "undefined"
  }

  function EventOutcomeText(s: RawTaskStatus): string {
    if s == Completed then "成功"
    else if s == Failed then "失敗"
    else if s == InProgress then "中..."
    else "待執行"
  }

  /** `transformTaskEvent`. */
  function TransformTaskEvent(e: RawTaskEvent): RecentEvent {
    var base := "房間 " + RoomIdText(e.room_id) + " " + ActionText(e.action) + EventOutcomeText(e.status);
    var message := if e.status == Failed && Present(e.error_message) then base + " → " + e.error_message.value else base;
    RecentEvent(
      IntToString(e.task_id),
      EventKind(e.status),
      message,
      Or(e.executed_at, e.execute_at),
      Some(e.plan_id),
      Some(IntToString(e.task_id)),
      e.room_id)
  }

  /** Classification: completed is a success, failed a failure, every other state a start. */
  lemma EventKindClassifies(s: RawTaskStatus)
    ensures EventKind(s) == Success <==> s == Completed
    ensures EventKind(s) == Failure <==> s == Failed
    ensures EventKind(s) == Start <==> s in {InProgress, Pending, Skipped}
  {
  }

  /** The event feed and the task list disagree on "skipped": the feed shows a start
      ("待執行"), the task list shows "failed". */
  lemma SkippedShownDifferently(e: RawTaskEvent, t: RawTask)
    requires e.status == Skipped && t.status == Skipped
    ensures TransformTaskEvent(e).event_type == Start
    ensures TransformTask(t).status == Failed
  {
  }

  /** The message names the room and the action; a failure message carries " → {error}"
      exactly when the backend sent a non-empty error. */
  lemma TransformTaskEventMessage(e: RawTaskEvent)
    ensures var r := TransformTaskEvent(e);
            var base := "房間 " + RoomIdText(e.room_id) + " " + ActionText(e.action) + EventOutcomeText(e.status);
            && StartsWith(r.message, base)
            && (r.message == base <==> !(e.status == Failed && Present(e.error_message)))
            && (r.message != base ==> r.message == base + " → " + e.error_message.value)
            && r.id == IntToString(e.task_id) && r.task_id == Some(r.id) && r.plan_id == Some(e.plan_id)
            && r.time == (if Present(e.executed_at) then e.executed_at.value else e.execute_at)
  {
    var r := TransformTaskEvent(e);
    var base := "房間 " + RoomIdText(e.room_id) + " " + ActionText(e.action) + EventOutcomeText(e.status);
    if e.status == Failed && Present(e.error_message) {
      assert |r.message| > |base|;
      assert r.message[..|base|] == base;
    } else {
      assert r.message[..|base|] == base;
    }
  }

  /** `events.map(transformTaskEvent)`. */
  function TransformEventsResponse(events: seq<RawTaskEvent>): seq<RecentEvent> {
    Map(events, TransformTaskEvent)
  }

  lemma TransformEventsResponseAt(events: seq<RawTaskEvent>)
    ensures |TransformEventsResponse(events)| == |events|
    ensures forall i :: 0 <= i < |events| ==> TransformEventsResponse(events)[i] == TransformTaskEvent(events[i])
  {
    MapAt(events, TransformTaskEvent);
  }
}

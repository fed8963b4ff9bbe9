# happ_web_ui dashboard core, in Dafny

This project models the core of a web dashboard for reserving meeting rooms. Operators create
"plans" (a room, a day, a start time and an optional renewal end time). A backend engine turns
each plan into scheduled booking and renewal tasks. The dashboard lists plans, edits them and
shows a feed of task events.

The model covers eight parts of the dashboard:

- **Domain mapper** (`Transformers`, lib/api/transformers.ts):
  - the room lookup table, built once from the room catalog by nested loops;
  - the room lookup, with its placeholder for unknown rooms;
  - the splitting of backend timestamps into a date and a clock time;
  - the mapping of backend tasks, plans, plan lists and task events into UI values. This covers the lossy `skipped` → `failed` narrowing and the three-way event classification.
- **Favourites** (`Favorites`, lib/api/favorites.ts):
  - the ordered keyword table that reads a space's venue off its title;
  - the grouping of spaces by venue.
- **Configuration** (`Config`, lib/api/config.ts): the base URL choice, the time budget and the endpoint path builders.
- **Transport** (`Client`, lib/api/client.ts): the class `Transport` holds the armed timers and the `fetch` calls made. Its `Request` method is proved against the decision table `Classify`, which covers:
  - the resolved value;
  - `ApiError` for a non-2xx answer;
  - the timeout error;
  - rethrown errors;
  - the "Unknown error occurred" error.

  The `get`, `post`, `patch` and `delete` options are modelled too.
- **Create-plan form** (`PlanForm`, components/plan-form.tsx):
  - the validation schema and the 48 half-hour time slots;
  - the default values and the create payload;
  - the redirect after a create and the error message shown;
  - the class `PlanFormState`, whose `OnSubmit` logs every `isSubmitting` / `error` update, navigation and webhook post.
- **Plan edit dialog** (`PlanEditDialog`, components/plans/plan-edit-dialog.tsx):
  - the dialog's own copy of the time slots;
  - the edit schema and the status labels;
  - the reset from a plan;
  - the `"null"` sentinel of the end-time select;
  - the update payload;
  - the class `PlanEditDialogState`.
- **Active plans table** (`ActivePlansTable`, components/dashboard/active-plans-table.tsx):
  - which polled list each tab shows;
  - the "today" filter and the loading flag shown;
  - the status badge.
- **Room table** (`RoomTableView`, components/room-table.tsx):
  - the venue lookup;
  - rooms flattened into rows;
  - the query string handed to the new-plan page.

Three helper modules are shared:

- `Js`: JavaScript values, truthiness, `String(v)`, `filter` / `map` and decimal printing.
- `Types`: the records of lib/types.ts.
- `DateTime`: the `YYYY-MM-DD` and `HH:MM` formats, and the timestamp splitting.

I/O is turned into parameters:

- What `fetch` did is a `FetchOutcome` argument.
- The room catalog is a `seq<CatalogVenue>` argument.
- The environment variables are `Option<string>` arguments.
- The current date is a `CalendarDate` argument.

Some behaviours of the code worth knowing:

- A `skipped` task yields a "start" event (lib/api/transformers.ts:174-177). The task list shows the same task as failed (lib/api/transformers.ts:79); see `Transformers.SkippedShownDifferently`.
- The edit dialog has no start-time field. Its schema (components/plans/plan-edit-dialog.tsx:93-102) and its payload (components/plans/plan-edit-dialog.tsx:147-150) carry only the end time and the status, whatever the plan's status.
- The create form's schema (components/plan-form.tsx:30-37) has no rule relating the end time to the start time.
- The message of an `ApiError` is the raw response body text (lib/api/client.ts:41-42).
- Backend plans carry their times in `usage_start_time` / `usage_end_time` (lib/api/transformers.ts:91-94).

## Model

| member | source | states |
|---|---|---|
| Config.BaseUrlChoice | lib/api/config.ts:6-10 | a set, non-empty deployment variable wins; otherwise the production host exactly in production and the `/api` proxy otherwise; the base is never empty |
| Config.PlansListRoundTrip | lib/api/config.ts:22 | the list path records exactly a non-empty status filter and none otherwise, and is never read as a plan path |
| Config.PlansCreateIsList | lib/api/config.ts:23 | creating posts to the unfiltered list path |
| Config.PlanPathsAgree | lib/api/config.ts:24-26 | get, update and delete address one path, which reads back as the plan id and carries no status filter |
| Config.PlanPathsDistinct | lib/api/config.ts:24 | distinct plan ids give distinct paths, and no plan path is a list path |
| Config.TasksByPlanBelowPlan | lib/api/config.ts:31 | a plan's task list lives under the plan's own path |
| Config.RoomsSearchRoundTrip | lib/api/config.ts:17 | the room search query carries the room id verbatim |
| Config.DashboardPathsApart | lib/api/config.ts:36-37 | the stats and events paths are distinct, and neither is a plan path or a list path |
| Client.MergeHeadersOverride | lib/api/client.ts:32-35 | the headers sent are the caller's plus `Content-Type`; caller values override, and `application/json` is the default |
| Client.ClassifyNonOk | lib/api/client.ts:40-43 | a non-ok answer rejects with an `ApiError` carrying the status, its text and the body text, or "Unknown error" when the body is unreadable |
| Client.ClassifyResolves | lib/api/client.ts:45 | the request resolves exactly for an ok answer with a JSON body, and then to that body's value |
| Client.ClassifyThrown | lib/api/client.ts:46-61 | `ApiError` and non-abort errors are rethrown unchanged; an abort becomes "Request timeout"; a thrown non-`Error` becomes "Unknown error occurred" |
| Client.ClassifyRejectsWithErrors | lib/api/client.ts:49-60 | whatever `fetch` does, a rejection carries an `Error`, never a bare value |
| Client.Transport.constructor | lib/api/client.ts:19-26 | a fresh transport with the given base URL, no armed timers, no recorded delays and no calls |
| Client.Transport.Request | lib/api/client.ts:19-62 | the outcome is the decision table's verdict; exactly one `fetch` call is recorded (base URL + endpoint, the method, the body, the merged headers); one new timer is armed with the configured 30 000 ms budget and is cleared on every path |
| Client.OptionsBodyRule | lib/api/client.ts:64-80 | POST and PATCH send a body exactly when the data is truthy, and then the data itself; GET and DELETE send none; no helper adds headers |
| Client.NewTransport | lib/api/config.ts:6-11 | the shared transport uses the configured base URL and starts with no timers, no recorded delays and no calls |
| Favorites.GetVenueFromTitle | lib/api/favorites.ts:42-50 | the loop returns the venue of the first table keyword the title contains, and Minquan when none matches |
| Favorites.FirstMatchIsFirst | lib/api/favorites.ts:43-49 | either some keyword matches, the earliest match decides and no earlier keyword matches, or no keyword matches and the venue is Minquan |
| Favorites.VenueFromTitleDefault | lib/api/favorites.ts:48-49 | a title with no keyword of the table is Minquan |
| Favorites.VenueFromTitleMinquanFirst | lib/api/favorites.ts:28-37 | a Minquan keyword decides even when a Taipower keyword also occurs, because the Minquan entries come first |
| Favorites.VenueFromTitleTaipower | lib/api/favorites.ts:33-36 | a title with a Taipower keyword and no Minquan keyword is Taipower |
| Favorites.GroupFavoritesByVenue | lib/api/favorites.ts:67-76 | a venue has a group exactly when some space's title names it; each group is that venue's spaces, in input order |
| Favorites.NoSpacesOf | lib/api/favorites.ts:70-72 | a venue named by no space has no spaces, so its group starts empty |
| Favorites.GroupMembers | lib/api/favorites.ts:68-73 | a space is in a venue's group exactly when it is in the input and its title names that venue |
| Favorites.GroupSizes | lib/api/favorites.ts:67-76 | no space is lost or duplicated: the two group sizes add up to the input length |
| Favorites.GroupKeepsOrder | lib/api/favorites.ts:73 | grouping a concatenation groups each part and keeps them in order |
| DateTime.ParseDateTime | lib/api/transformers.ts:63-68 | a timestamp is split exactly when it is a fixed-format, zone-less timestamp (`IsLocalTimestamp`); the parts are a `YYYY-MM-DD` date and an `HH:MM` time that rejoin to the timestamp's prefix |
| DateTime.ParseDateTimeRoundTrip | lib/api/transformers.ts:61-67 | splitting a joined date, time and seconds part gives back the same date and time |
| DateTime.ParseDateTimeExample | lib/api/transformers.ts:61 | "2025-11-18T21:00:00" splits into "2025-11-18" and "21:00" |
| DateTime.ParseDateTimeInZone | lib/api/transformers.ts:63-68 | the code as written, on a host `offset` minutes east of UTC: defined exactly on the fixed-format, zone-less timestamps (`IsLocalTimestamp`); the time is always the local `HH:MM`; the date is the local one, or the day before when the local clock is earlier than the offset, or the day after when the clock minus the offset reaches 24 hours |
| DateTime.ParseDateTimeInZoneUtc | lib/api/transformers.ts:63-68 | on a UTC host the code as written agrees with the fixed-zone split |
| DateTime.ParseDateTimeInZoneSplitsDay | lib/api/transformers.ts:65-66 | on a UTC+8 host, "2025-11-18T03:00:00" gives the date of 17 November with the time 03:00 |
| Transformers.BuildRoomsMap | lib/api/transformers.ts:26-41 | the nested loops build exactly the map of all `set` calls over venues, hubs and rooms, in catalog order |
| Transformers.SetVenueRooms | lib/api/transformers.ts:31-40 | one venue's callback adds that venue's hubs' entries, in order |
| Transformers.SetHubRooms | lib/api/transformers.ts:32-39 | one hub's callback adds one entry per room, in order |
| Transformers.InsertKeys | lib/api/transformers.ts:33 | a key is in the map exactly when some `set` call used it |
| Transformers.InsertLastWins | lib/api/transformers.ts:33 | a later `set` with the same key overwrites: the stored value is the last one |
| Transformers.CatalogEntriesCover | lib/api/transformers.ts:29-41 | every room of the catalog is one of the `set` calls, with its venue's and hub's info |
| Transformers.CatalogEntriesFrom | lib/api/transformers.ts:29-41 | every `set` call comes from some room of the catalog |
| Transformers.RoomTableKeys | lib/api/transformers.ts:26-41 | a space id is a key exactly when some catalog room carries it |
| Transformers.RoomTableValue | lib/api/transformers.ts:30-38 | the stored info is the room's full name; the venue is Minquan exactly for "民權"; the hub name is `name2`, else `name1`, else "" |
| Transformers.GetRoomInfoFromCatalog | lib/api/transformers.ts:46-57 | a catalog hit gives the stored info; a miss gives "房間 {id}" in Minquan, with the id as room number and no hub name |
| Transformers.NarrowStatusLossy | lib/api/transformers.ts:79 | `skipped` and `failed` both display as failed; every other status survives, and widening then narrowing is the identity |
| Transformers.TransformTaskFields | lib/api/transformers.ts:73-85 | the id is the printed backend task id; book exactly for booking; failed exactly for failed or skipped; no owner and no order URL; created = scheduled = `execute_at`; updated = `executed_at` when present; an error message exactly when non-empty |
| Transformers.TransformTaskKeepsId | lib/api/transformers.ts:75 | the printed task id determines the backend id |
| Transformers.TransformTaskSkippedIsFailed | lib/api/transformers.ts:79 | a skipped task and the same task failed cannot be told apart once mapped |
| Transformers.TransformPlanDefined | lib/api/transformers.ts:90-106 | a plan maps (does not throw) exactly when its start, its end and, if present, its first task's time are fixed-format, zone-less timestamps (`IsLocalTimestamp`) |
| Transformers.TransformPlanFields | lib/api/transformers.ts:90-124 | the mapped plan's fields come from the cited sources: ids, room info from the lookup, start date and time rejoining to the start timestamp, end time from the end timestamp, booking date and time from the first task, status, the backend line user exactly when non-empty, announcement off, and the creation and update timestamps passed through |
| Transformers.TransformPlanExample | lib/api/transformers.ts:90-124 | a one-hour plan with one booking task maps to "2025-11-18" 21:00–22:00, booked at 21:00, as room "房間 589" in Minquan |
| Transformers.OwnedTasksAt | lib/api/transformers.ts:131-134 | the tasks keep their number and order, and each is the mapped task owned by the plan |
| Transformers.TransformPlanWithTasksShape | lib/api/transformers.ts:129-140 | the result is the mapped plan plus its tasks, each owned by the plan id |
| Transformers.TransformPlansAt | lib/api/transformers.ts:145-150 | the list maps exactly when every plan maps, and then element by element, in order |
| Transformers.TransformPlansResponseIgnoresTotal | lib/api/transformers.ts:145-150 | `total` does not affect the result |
| Transformers.EventKindClassifies | lib/api/transformers.ts:162-178 | completed is a success, failed a failure, and in-progress, pending and skipped are starts |
| Transformers.SkippedShownDifferently | lib/api/transformers.ts:174-177 | a skipped task is a start in the event feed but failed in the task list |
| Transformers.TransformTaskEventMessage | lib/api/transformers.ts:155-189 | the message names the room and the action. It ends in " → {error}" exactly for a failure with a non-empty error. The id is the task id, and the time is `executed_at`, else `execute_at` |
| Transformers.TransformEventsResponseAt | lib/api/transformers.ts:194-196 | events map one to one, in order |
| PlanForm.ValidateFlags | components/plan-form.tsx:30-37 | each field is flagged exactly when its own rule fails, no other field is ever flagged, and the values pass exactly when all four rules hold |
| PlanForm.TimeSlotsHalfHours | components/plan-form.tsx:49-98 | 48 valid `HH:MM` slots; slot `i` is `30 * i` minutes after midnight, from 00:00 to 23:30 |
| PlanForm.TimeSlotsAscending | components/plan-form.tsx:49-98 | every slot passes the time rule, and later slots are later in the day |
| PlanForm.DefaultValuesRejected | components/plan-form.tsx:107-114 | the defaults keep a given room id and leave the announcement flag off; they fail the schema on the date and both times, and on the room id exactly when none was given |
| PlanForm.CreatePayloadRoundTrip | components/plan-form.tsx:122-132 | the payload has exactly the keys room_id, start_day, start_time, end_time and ignore_announcement. The form values read back from it, the line user id is dropped whatever was entered, and the POST always has a body |
| PlanForm.RedirectPathTargets | components/plan-form.tsx:141-145 | a numeric `id` leads to that plan's page, and distinct ids lead to distinct pages; a response without `id` leads to the list |
| PlanForm.CreateErrorFromOutcome | components/plan-form.tsx:147-166 | through the transport, the message is the raw body of a failed answer, "Request timeout" for a timeout, or the error's own message; the fallback and the body suffix are unreachable |
| PlanForm.PlanFormState.constructor | components/plan-form.tsx:102-103 | not submitting, no error, no field issues, nothing sent |
| PlanForm.PlanFormState.SetIsSubmitting | components/plan-form.tsx:102 | sets the flag and logs the new state; nothing else changes |
| PlanForm.PlanFormState.SetError | components/plan-form.tsx:103 | sets the error and logs the new state; nothing else changes |
| PlanForm.PlanFormState.OnSubmit | components/plan-form.tsx:117-169 | exactly one POST of the payload to the create path. On success: error cleared, navigation to the redirect path, one webhook post. On failure: the error message set, no navigation. The logged state sequence, with `isSubmitting` false at the end |
| PlanForm.PlanFormState.HandleSubmit | components/plan-form.tsx:175 | the schema's issues are recorded; invalid values change nothing else and send nothing; valid values are submitted |
| PlanEditDialog.TimeSlotsShared | components/plans/plan-edit-dialog.tsx:42-91 | the dialog's slots equal the form's, each a valid half-hour `HH:MM` |
| PlanEditDialog.ParseStatusRoundTrip | components/plans/plan-edit-dialog.tsx:95-101 | the enum accepts exactly the five plan status texts, each read back as its status; `skipped` is refused |
| PlanEditDialog.StatusOptionsExact | components/plans/plan-edit-dialog.tsx:106-112 | the status select offers every plan status exactly once, each as a value the schema accepts |
| PlanEditDialog.ResetValuesFromPlan | components/plans/plan-edit-dialog.tsx:131-137 | a reset keeps the status, keeps a non-empty end time and clears an empty one; a plan mapped from the backend always keeps its end time |
| PlanEditDialog.EndTimeSentinelRoundTrip | components/plans/plan-edit-dialog.tsx:208-224 | the `"null"` option stands for no end time: decoding undoes encoding for no end time and for every slot, and encoding undoes decoding for every option; an empty end time reads back as none |
| PlanEditDialog.UpdatePayloadExact | components/plans/plan-edit-dialog.tsx:147-152 | the payload has exactly end_time and status, never a start field; the values read back from it; the PATCH always has a body |
| PlanEditDialog.UpdateErrorFromOutcome | components/plans/plan-edit-dialog.tsx:155-164 | through the transport, the dialog shows the same message as the create form, and its own fallback is unreachable |
| PlanEditDialog.PlanEditDialogState.constructor | components/plans/plan-edit-dialog.tsx:119-128 | the default values (`end_time` null, `pending`), not submitting, no error |
| PlanEditDialog.PlanEditDialogState.Reset | components/plans/plan-edit-dialog.tsx:131-138 | a plan resets the values from it; no plan leaves them |
| PlanEditDialog.PlanEditDialogState.SetIsSubmitting | components/plans/plan-edit-dialog.tsx:119 | sets the flag and logs the new state; nothing else changes |
| PlanEditDialog.PlanEditDialogState.SetError | components/plans/plan-edit-dialog.tsx:120 | sets the error and logs the new state; nothing else changes |
| PlanEditDialog.PlanEditDialogState.OnSubmit | components/plans/plan-edit-dialog.tsx:140-168 | no plan: nothing happens. Otherwise one PATCH of the payload to the plan's path. On success: error cleared, then `onSuccess` and `onClose` in that order. On failure: the error message, no callbacks. The logged state sequence, with `isSubmitting` false at the end |
| ActivePlansTable.ListKeysDistinct | components/dashboard/active-plans-table.tsx:28-48 | the two tabs poll distinct lists filtered by `in_progress` and by `pending` |
| ActivePlansTable.InProgressViewUnfiltered | components/dashboard/active-plans-table.tsx:51-65 | the in-progress tab shows its list unfiltered, or nothing before data arrives, whatever the pending list and the date |
| ActivePlansTable.TodayViewFromPending | components/dashboard/active-plans-table.tsx:51-65 | the today tab ignores the in-progress list and shows exactly the pending plans that fall on today |
| ActivePlansTable.TodayPlansKeepOrder | components/dashboard/active-plans-table.tsx:54-65 | the today filter keeps the list's order and never adds rows |
| ActivePlansTable.MissingDataEmpty | components/dashboard/active-plans-table.tsx:51 | a list with no data yet shows no rows |
| ActivePlansTable.ShownLoadingOfView | components/dashboard/active-plans-table.tsx:50 | the loading flag shown is the selected tab's, independent of the other list |
| ActivePlansTable.IsTodayOfMappedPlan | components/dashboard/active-plans-table.tsx:56-63 | a mapped plan falls on today exactly when its usage start timestamp's date is today |
| ActivePlansTable.BadgeLabelChoice | components/dashboard/active-plans-table.tsx:119-127 | 執行中 in the default variant exactly for an in-progress plan, and 待執行 in the secondary variant otherwise; the labels agree with the edit dialog's |
| RoomTableView.VenueDisplayNameRoundTrip | components/room-table.tsx:20-23 | the two display names are distinct and classify back to their venue in the room lookup table |
| RoomTableView.FindVenueFirst | components/room-table.tsx:29 | `find` gives the first venue with the name, and nothing exactly when no venue has it |
| RoomTableView.RowsMissingVenue | components/room-table.tsx:41 | a venue missing from the catalog shows no rows |
| RoomTableView.FlattenHubsAppend | components/room-table.tsx:32-41 | flattening distributes over concatenation, so rows follow the hubs' order |
| RoomTableView.FlattenHubsCount | components/room-table.tsx:32-41 | there is one row per room |
| RoomTableView.FlattenHubsCover | components/room-table.tsx:32-41 | room `k` of hub `h` is the row after the earlier hubs' rooms; its address and hub name (`name2`, no fallback) come from its own hub |
| RoomTableView.FlattenHubsFrom | components/room-table.tsx:32-41 | every row comes from some room of some hub |
| RoomTableView.RowIdsInRoomTable | components/room-table.tsx:34 | every row id is a key of the room lookup table |
| RoomTableView.CreatePlanQueryRoundTrip | components/room-table.tsx:43-50 | the query carries the row's id, the row's name and the venue shown; the new-plan page reading it pre-fills the form with the row's room id |

## Left out

- Rendering: JSX, the submit-button disabling, the skeleton rows, the tabs and the intermediate render while a request is awaited. `console.log` and `console.error` are also left out.
- SWR: the 15-second polling, caching, revalidation and stale data. Each polled list is a parameter (`ActivePlansTable.ListState`).
- The `fetch` machinery becomes the `FetchOutcome` parameter. That covers the network, `AbortController`, the signal and the 30-second timer firing (which surfaces as an `AbortError` outcome). `JSON.stringify` and `JSON.parse` are abstracted: a body is kept as the value it encodes.
- `Client.Transport.Request`: a timer is a number in `pendingTimers` with its delay in `timerDelays`; the abort callback it would run when the delay elapses is not modelled.
- The webhook POST's outcome is swallowed by the code and ignored by the model, which records only that the POST was made.
- `fetchFavorites` (lib/api/favorites.ts:56-62) is I/O. It also names an endpoint group, `favorites`, that lib/api/config.ts does not define.
- The contents of the room catalog (rooms.json) are not part of this model: the catalog is a parameter.
- DateTime.ParseDateTime: it accepts only timestamps with no zone designator, in the fixed `YYYY-MM-DDTHH:MM[:SS[.fff]]` form. `Date` accepts more, such as `Z` or offset suffixes, which would shift the parts, and a bare `YYYY-MM-DD`; the model maps all of these to `None`, so one such plan makes the whole list fail to map. It reads both parts in one zone (see Findings). It accepts any day 1-31 in any month and splits "2025-02-30T21:00:00" as "2025-02-30", while `Date` rolls an overflowing day into the next month ("2025-03-02").
- ActivePlansTable.IsToday: it compares the calendar fields of `YYYY-MM-DD` with today directly. `new Date("YYYY-MM-DD")` is UTC midnight read in the host zone, so the two agree only on hosts at or east of UTC. The day is not checked against the month's length, while `Date` would roll over an overflowing day such as 02-30.
- Numbers are integers. `Number.toString` of fractions and exponents is not modelled, and neither is the 53-bit limit.
- `groupFavoritesByVenue` returns a JavaScript object. It is modelled as a `map`, so the key order of the object is not modelled.
- `URLSearchParams.toString()` percent-encoding and the `/plans/new?…` push are not modelled. The query is the list of pairs, read back as `searchParams.get` does.
- The create response is tested for an `id` key while backend plans carry `plan_id`. The model keeps the code's test, so a response with only `plan_id` redirects to the list.
- `err.responseBody` is never set by `ApiError`, so the create form's "原始回應" suffix is unreachable. The model keeps the code, and `PlanForm.CreateErrorFromOutcome` states the consequence.
- Zod's own error messages for the edit schema are not modelled, and neither are the resolver internals; the model keeps only accepted versus refused.
- PlanForm.PlanFormState.HandleSubmit: for valid values it states the request, the final flags, the error and the navigation. The state log and the webhook it leaves to `OnSubmit`.

## Findings

| source | as written | input that shows it | evidently intended | confidence | as-written member | corrected member |
|---|---|---|---|---|---|---|
| lib/api/transformers.ts:63-68 | `parseDateTime` takes the date from `toISOString()` (UTC) and the time from `toTimeString()` (host zone) | "2025-11-18T03:00:00" on a UTC+8 host gives date "2025-11-17" with time "03:00" | date and time of the same instant in one zone: "2025-11-18" and "03:00", as in the function's own example | not executed | DateTime.ParseDateTimeInZoneSplitsDay | DateTime.ParseDateTimeRoundTrip |

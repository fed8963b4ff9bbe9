/** The dashboard's plan table (components/dashboard/active-plans-table.tsx): which of the
    two polled lists a tab shows, the filter of the "today" tab, the loading flag shown,
    and the status badge. The current date is a parameter. */
module ActivePlansTable {
  import opened Js
  import opened Types
  import opened DateTime
  import Config
  import Transformers
  import PlanEditDialog

  datatype View = InProgressView | TodayView

  /** The cache key of the list each tab is fed from: the in-progress tab polls the
      `in_progress` plans, the today tab the `pending` plans. */
  function ListKey(view: View): string {
    match view
    case InProgressView => Config.PlansList(Some("in_progress"))
    case TodayView => Config.PlansList(Some("pending"))
  }

  /** The two tabs poll distinct lists, each filtered by the status its key names. */
  lemma ListKeysDistinct()
    ensures Config.StatusOfListPath(ListKey(InProgressView)) == Some("in_progress")
    ensures Config.StatusOfListPath(ListKey(TodayView)) == Some("pending")
    ensures ListKey(InProgressView) != ListKey(TodayView)
  {
    Config.PlansListRoundTrip(Some("in_progress"));
    Config.PlansListRoundTrip(Some("pending"));
  }

  /** One polled list: its data (`undefined` until the first answer) and its loading flag. */
  datatype ListState = ListState(data: Option<seq<Plan>>, isLoading: bool)

  /** `isLoading`: the flag of the selected tab's list. */
  function ShownLoading(view: View, inProgress: ListState, pending: ListState): bool {
    if view == InProgressView then inProgress.isLoading else pending.isLoading
  }

  /** `plans`: the selected tab's list, or the empty list while it has no data. */
  function SourceList(view: View, inProgress: ListState, pending: ListState): seq<Plan> {
    var list := if view == InProgressView then inProgress else pending;
    if list.data.Some? then list.data.value else []
  }

  /** `new Date(plan.start_day)` falls on `today`: a readable `YYYY-MM-DD` text whose year,
      month and day are today's. */
  predicate IsToday(plan: Plan, today: CalendarDate) {
    IsDateText(plan.start_day) && DateInRange(plan.start_day) && DateOf(plan.start_day) == today
  }

  /** `todayPlans`: the rows the table shows. */
  function TodayPlans(view: View, inProgress: ListState, pending: ListState, today: CalendarDate): seq<Plan> {
    var plans := SourceList(view, inProgress, pending);
    if view == TodayView then Filter(plans, (p: Plan) => IsToday(p, today)) else plans
  }

  /** The in-progress tab shows its list unfiltered, whatever the pending list holds and
      whatever the date. */
  lemma InProgressViewUnfiltered(inProgress: ListState, pending: ListState, otherPending: ListState, today: CalendarDate, otherDay: CalendarDate)
    ensures TodayPlans(InProgressView, inProgress, pending, today) == (if inProgress.data.Some? then inProgress.data.value else [])
    ensures TodayPlans(InProgressView, inProgress, pending, today) == TodayPlans(InProgressView, inProgress, otherPending, otherDay)
  {
  }

  /** The today tab never reads the in-progress list: it shows exactly the pending plans
      that fall on today. */
  lemma TodayViewFromPending(inProgress: ListState, otherInProgress: ListState, pending: ListState, today: CalendarDate, p: Plan)
    ensures TodayPlans(TodayView, inProgress, pending, today) == TodayPlans(TodayView, otherInProgress, pending, today)
    ensures p in TodayPlans(TodayView, inProgress, pending, today) <==>
              pending.data.Some? && p in pending.data.value && IsToday(p, today)
  {
    if pending.data.Some? {
      FilterMembers(pending.data.value, (q: Plan) => IsToday(q, today));
    }
  }

  /** The today filter keeps the pending list's order: filtering a list made of two parts
      filters each part and keeps them in order, and never adds rows. */
  lemma TodayPlansKeepOrder(inProgress: ListState, a: seq<Plan>, b: seq<Plan>, today: CalendarDate)
    ensures TodayPlans(TodayView, inProgress, ListState(Some(a + b), false), today)
         == TodayPlans(TodayView, inProgress, ListState(Some(a), false), today)
          + TodayPlans(TodayView, inProgress, ListState(Some(b), false), today)
    ensures |TodayPlans(TodayView, inProgress, ListState(Some(a), false), today)| <= |a|
  {
    FilterAppend(a, b, (q: Plan) => IsToday(q, today));
    FilterMembers(a, (q: Plan) => IsToday(q, today));
  }

  /** A list that has not answered yet shows no rows, in either tab. */
  lemma MissingDataEmpty(view: View, inProgress: ListState, pending: ListState, today: CalendarDate)
    requires (if view == InProgressView then inProgress else pending).data.None?
    ensures TodayPlans(view, inProgress, pending, today) == []
  {
  }

  /** The loading flag shown belongs to the selected tab's list. */
  lemma ShownLoadingOfView(view: View, inProgress: ListState, pending: ListState)
    ensures ShownLoading(view, inProgress, pending) == (if view == InProgressView then inProgress else pending).isLoading
    ensures view == TodayView ==> ShownLoading(view, inProgress, pending) == ShownLoading(view, ListState(None, !inProgress.isLoading), pending)
  {
  }

  /** A plan mapped from the backend falls on today exactly when the date of its usage
      start timestamp does. */
  lemma IsTodayOfMappedPlan(rooms: Transformers.RoomTable, raw: RawPlan, plan: Plan, today: CalendarDate)
    requires Transformers.TransformPlan(rooms, raw) == Some(plan)
    ensures IsToday(plan, today) <==> DateOf(raw.usage_start_time[..10]) == today
  {
    Transformers.TransformPlanFields(rooms, raw);
    Transformers.TransformPlanDefined(rooms, raw);
    assert plan.start_day == raw.usage_start_time[..10];
  }

  // ---------------------------------------------------------------- badge

  function BadgeLabel(status: PlanStatus): string {
    if status == InProgress then "執行中" else "待執行"
  }

  function BadgeVariant(status: PlanStatus): string {
    if status == InProgress then "default" else "secondary"
  }

  /** The badge reads 執行中 exactly for an in-progress plan and 待執行 for every other
      status, in the highlighted variant exactly when it reads 執行中; for the two statuses
      the table polls, it agrees with the edit dialog's labels. */
  lemma BadgeLabelChoice(status: PlanStatus)
    ensures BadgeLabel(status) == "執行中" <==> status == InProgress
    ensures BadgeLabel(status) == "待執行" <==> status != InProgress
    ensures BadgeVariant(status) == "default" <==> BadgeLabel(status) == "執行中"
    ensures BadgeLabel(Pending) == PlanEditDialog.STATUS_LABELS[0].1 && PlanEditDialog.STATUS_LABELS[0].0 == Pending
    ensures BadgeLabel(InProgress) == PlanEditDialog.STATUS_LABELS[1].1 && PlanEditDialog.STATUS_LABELS[1].0 == InProgress
  {
  }
}

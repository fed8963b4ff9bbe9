/** The domain values of the dashboard (lib/types.ts) and the raw backend records
    as the transformer reads them. */
module Types {
  import opened Js

  datatype VenueType = Minquan | Taipower

  /** Every status string the backend or the UI uses. The TypeScript string unions
      are the subset types below. */
  datatype Status = Pending | InProgress | Completed | Failed | Cancelled | Skipped

  /** `PlanStatus`: a plan is never "skipped". */
  type PlanStatus = s: Status | s != Skipped witness Pending

  /** `TaskStatus` as the UI shows it: neither "cancelled" nor "skipped". */
  type TaskStatus = s: Status | s != Cancelled && s != Skipped witness Pending

  /** The backend's task and event status: never "cancelled". */
  type RawTaskStatus = s: Status | s != Cancelled witness Pending

  /** The wire spelling of a status. */
  function StatusText(s: Status): string {
    match s
    case Pending => "pending"
    case InProgress => "in_progress"
    case Completed => "completed"
    case Failed => "failed"
    case Cancelled => "cancelled"
    case Skipped => "skipped"
  }

  function VenueText(v: VenueType): string {
    match v
    case Minquan => "minquan"
    case Taipower => "taipower"
  }

  datatype TaskType = Book | Renew

  /** The backend's task action. */
  datatype Action = Booking | RenewAction

  /** A task as the backend returns it. */
  datatype RawTask = RawTask(
    task_id: int,
    execute_at: string,
    action: Action,
    status: RawTaskStatus,
    executed_at: Option<string>,
    error_message: Option<string>)

  /** A plan as the backend returns it: the fields the transformer reads. `tasks` may be
      absent (list responses). */
  datatype RawPlan = RawPlan(
    plan_id: string,
    room_id: int,
    line_user_id: Option<string>,
    usage_start_time: string,
    usage_end_time: string,
    status: PlanStatus,
    created_at: string,
    updated_at: string,
    tasks: Option<seq<RawTask>>)

  /** The body of `GET /plans`. */
  datatype RawPlansResponse = RawPlansResponse(total: int, plans: seq<RawPlan>)

  /** An element of `GET /dashboard/events`; `room_id` is read by the transformer although
      the declared type lacks it, so it may be absent. */
  datatype RawTaskEvent = RawTaskEvent(
    task_id: int,
    plan_id: string,
    room_id: Option<int>,
    line_user_id: Option<string>,
    action: Action,
    status: RawTaskStatus,
    execute_at: string,
    executed_at: Option<string>,
    error_message: Option<string>)

  /** A plan as the UI uses it; `booking_date` / `booking_time` come from the first task. */
  datatype Plan = Plan(
    id: string,
    room_id: string,
    room_name: string,
    venue: VenueType,
    start_day: string,
    start_time: string,
    end_time: Option<string>,
    booking_date: Option<string>,
    booking_time: Option<string>,
    status: PlanStatus,
    line_user_id: Option<string>,
    ignore_announcement: bool,
    created_at: string,
    updated_at: string)

  /** A task as the UI uses it (`type` is `task_type` here). */
  datatype Task = Task(
    id: string,
    plan_id: string,
    task_type: TaskType,
    scheduled_time: string,
    status: TaskStatus,
    error_message: Option<string>,
    order_url: Option<string>,
    created_at: string,
    updated_at: string)

  datatype PlanWithTasks = PlanWithTasks(plan: Plan, tasks: seq<Task>)

  datatype EventType = Success | Failure | Start

  datatype RecentEvent = RecentEvent(
    id: string,
    event_type: EventType,
    message: string,
    time: string,
    plan_id: Option<string>,
    task_id: Option<string>,
    room_id: Option<int>)

  // The static room catalog: venue -> hubs -> rooms.

  datatype CatalogRoom = CatalogRoom(
    space_id: string,
    space_full_name: string,
    roomNumber: string,
    capacity: int,
    priority: int)

  datatype CatalogHub = CatalogHub(
    name1: Option<string>,
    name2: Option<string>,
    address: string,
    hubRooms: seq<CatalogRoom>)

  datatype CatalogVenue = CatalogVenue(name: string, hubs: seq<CatalogHub>)
}

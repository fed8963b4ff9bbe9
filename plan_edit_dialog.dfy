/** The plan edit dialog (components/plans/plan-edit-dialog.tsx): its own copy of the
    time slots, the edit schema, the reset from a plan, the `"null"` sentinel of the
    end-time select, the update payload, and the `isSubmitting` / `error` state around a
    submit. */
module PlanEditDialog {
  import opened Js
  import opened Types
  import opened DateTime
  import Config
  import opened Client
  import PlanForm
  import Transformers

  /** The dialog's own `TIME_SLOTS` literal (laid out in rows of eight). */
  const TIME_SLOTS: seq<string> :=
    ["00:00", "00:30", "01:00", "01:30", "02:00", "02:30", "03:00", "03:30"] +
    ["04:00", "04:30", "05:00", "05:30", "06:00", "06:30", "07:00", "07:30"] +
    ["08:00", "08:30", "09:00", "09:30", "10:00", "10:30", "11:00", "11:30"] +
    ["12:00", "12:30", "13:00", "13:30", "14:00", "14:30", "15:00", "15:30"] +
    ["16:00", "16:30", "17:00", "17:30", "18:00", "18:30", "19:00", "19:30"] +
    ["20:00", "20:30", "21:00", "21:30", "22:00", "22:30", "23:00", "23:30"]

  /** Both forms offer the same 48 half-hour slots. */
  lemma TimeSlotsShared()
    ensures TIME_SLOTS == PlanForm.TIME_SLOTS
    ensures forall i :: 0 <= i < |TIME_SLOTS| ==> IsClockText(TIME_SLOTS[i]) && ClockMinutes(TIME_SLOTS[i]) == 30 * i
  {
    PlanForm.TimeSlotsHalfHours();
  }

  // ---------------------------------------------------------------- schema

  /** The dialog's values (`EditFormValues`): a nullable end time and one of five statuses. */
  datatype EditFormValues = EditFormValues(end_time: Option<string>, status: PlanStatus)

  /** `z.enum(["pending", "in_progress", "completed", "failed", "cancelled"])`. */
  function ParseStatus(t: string): Option<PlanStatus> {
    if t == "pending" then Some(Pending)
    else if t == "in_progress" then Some(InProgress)
    else if t == "completed" then Some(Completed)
    else if t == "failed" then Some(Failed)
    else if t == "cancelled" then Some(Cancelled)
    else None
  }

  /** The enum accepts exactly the texts of the plan statuses, and reads each back as the
      status it names; `skipped` is not among them. */
  lemma ParseStatusRoundTrip(s: PlanStatus, t: string)
    ensures ParseStatus(StatusText(s)) == Some(s)
    ensures ParseStatus(t).Some? ==> StatusText(ParseStatus(t).value) == t
    ensures ParseStatus(StatusText(Skipped)) == None
  {
  }

  const DEFAULT_VALUES := EditFormValues(None, Pending)

  /** `STATUS_LABELS`, in declaration order. */
  const STATUS_LABELS: seq<(PlanStatus, string)> := [
    (Pending, "待執行"),
    (InProgress, "執行中"),
    (Completed, "已完成"),
    (Failed, "失敗"),
    (Cancelled, "已取消")
  ]

  /** `Object.entries(STATUS_LABELS)`: the status select's (value, label) options. */
  function StatusOptions(): seq<(string, string)> {
    Map(STATUS_LABELS, (e: (PlanStatus, string)) => (StatusText(e.0), e.1))
  }

  /** The status select offers every plan status exactly once, and every option value is
      one the schema accepts. */
  lemma StatusOptionsExact(s: PlanStatus)
    ensures |StatusOptions()| == 5
    ensures exists i :: 0 <= i < 5 && StatusOptions()[i].0 == StatusText(s)
    ensures forall i, j :: 0 <= i < j < 5 ==> StatusOptions()[i].0 != StatusOptions()[j].0
    ensures forall i :: 0 <= i < 5 ==> ParseStatus(StatusOptions()[i].0).Some?
  {
    var f := (e: (PlanStatus, string)) => (StatusText(e.0), e.1);
    MapAt(STATUS_LABELS, f);
    var k := match s case Pending => 0 case InProgress => 1 case Completed => 2 case Failed => 3 case Cancelled => 4;
    assert StatusOptions()[k].0 == StatusText(s);
  }

  // ---------------------------------------------------------------- reset

  /** The values `form.reset` receives for a plan: `plan.end_time || null` and its status. */
  function ResetValues(plan: Plan): EditFormValues {
    EditFormValues(if Present(plan.end_time) then plan.end_time else None, plan.status)
  }

  /** Resetting keeps the status, keeps a non-empty end time and clears an empty one; for
      a plan mapped from the backend the end time is always kept. */
  lemma ResetValuesFromPlan(plan: Plan, rooms: Transformers.RoomTable, raw: RawPlan)
    ensures ResetValues(plan).status == plan.status
    ensures ResetValues(plan).end_time == None <==> !Present(plan.end_time)
    ensures Present(plan.end_time) ==> ResetValues(plan).end_time == plan.end_time
    ensures Transformers.TransformPlan(rooms, raw) == Some(plan) ==>
              ResetValues(plan).end_time == plan.end_time && plan.end_time.Some?
  {
    if Transformers.TransformPlan(rooms, raw) == Some(plan) {
      Transformers.TransformPlanFields(rooms, raw);
    }
  }

  // ---------------------------------------------------------------- end-time sentinel

  /** `field.value || "null"`: the select's value for an end time. */
  function EncodeEndTime(v: Option<string>): string {
    Or(v, "null")
  }

  /** `value === "null" ? null : value`: the end time for a selected value. */
  function DecodeEndTime(value: string): Option<string> {
    if value == "null" then None else Some(value)
  }

  /** The end-time select's values: the single-booking sentinel, then every slot. */
  function EndTimeOptions(): seq<string> {
    ["null"] + TIME_SLOTS
  }

  /** Decoding undoes encoding for no end time and for every slot, and encoding undoes
      decoding for every option of the select; an empty end time is read back as none. */
  lemma EndTimeSentinelRoundTrip(v: Option<string>, option: string)
    ensures v == None ==> DecodeEndTime(EncodeEndTime(v)) == v
    ensures v.Some? && v.value in TIME_SLOTS ==> DecodeEndTime(EncodeEndTime(v)) == v
    ensures option in EndTimeOptions() ==> EncodeEndTime(DecodeEndTime(option)) == option
    ensures DecodeEndTime(EncodeEndTime(Some(""))) == None
  {
    TimeSlotsShared();
    assert forall t :: t in TIME_SLOTS ==> t != "null" && t != "" by {
      forall t | t in TIME_SLOTS ensures t != "null" && t != "" {
        var i :| 0 <= i < |TIME_SLOTS| && TIME_SLOTS[i] == t;
        assert IsClockText(TIME_SLOTS[i]);
      }
    }
  }

  // ---------------------------------------------------------------- payload

  /** The `UpdatePlanRequest`: the end time (`null` when none) and the status. */
  function UpdatePayload(values: EditFormValues): JsValue {
    Obj([
      ("end_time", if values.end_time.Some? then Str(values.end_time.value) else Null),
      ("status", Str(StatusText(values.status)))])
  }

  /** Reads edit values back from an update payload. */
  function ValuesOfUpdatePayload(payload: JsValue): Option<EditFormValues> {
    if !payload.Obj? then None
    else
      var end := GetProp(payload.props, "end_time");
      var status := GetProp(payload.props, "status");
      if (end.Str? || end.Null?) && status.Str? && ParseStatus(status.s).Some? then
        Some(EditFormValues(if end.Str? then Some(end.s) else None, ParseStatus(status.s).value))
      else None
  }

  /** The payload carries exactly the end time and the status, and nothing about the start. */
  lemma UpdatePayloadExact(values: EditFormValues)
    ensures Keys(UpdatePayload(values).props) == ["end_time", "status"]
    ensures !HasProp(UpdatePayload(values).props, "start_time") && !HasProp(UpdatePayload(values).props, "start_day")
    ensures ValuesOfUpdatePayload(UpdatePayload(values)) == Some(values)
    ensures PatchOptions(UpdatePayload(values)).body == Some(UpdatePayload(values))
  {
    var props := UpdatePayload(values).props;
    var ks := Keys(props);
    assert ks == ["end_time", "status"];
    assert forall i :: 0 <= i < |props| ==> props[i].0 == ks[i] && ks[i] != "start_time" && ks[i] != "start_day";
    GetPropAt(props, "end_time", 0);
    GetPropAt(props, "status", 1);
    ParseStatusRoundTrip(values.status, StatusText(values.status));
  }

  // ---------------------------------------------------------------- error message

  /** The message shown for what the update request threw. */
  function UpdateErrorMessage(err: Thrown): string {
    match err
    case ApiErr(e) => e.message
    case ErrorObject(_, message) => message
    case NonError(_) => "更新失敗：未知錯誤"
  }

  /** Through the transport, both forms show the same message for a failed request, and
      the dialog's own fallback is unreachable. */
  lemma UpdateErrorFromOutcome(outcome: FetchOutcome)
    requires Classify(outcome).Rejected?
    ensures UpdateErrorMessage(Classify(outcome).thrown) == PlanForm.ReportedMessage(outcome)
    ensures UpdateErrorMessage(Classify(outcome).thrown) == PlanForm.CreateErrorMessage(Classify(outcome).thrown)
  {
    PlanForm.CreateErrorFromOutcome(outcome);
  }

  // ---------------------------------------------------------------- submit

  /** The callbacks the dialog's owner passed in. */
  datatype Callback = OnSuccess | OnClose

  class PlanEditDialogState {
    const transport: Transport
    var values: EditFormValues
    var isSubmitting: bool
    var error: Option<string>
    /** The state after each `setIsSubmitting` / `setError`, in order. */
    var updates: seq<PlanForm.Snapshot>
    /** The owner's callbacks, in the order they were called. */
    var callbacks: seq<Callback>

    ghost predicate Valid()
      reads this, transport
    {
      transport.Valid()
    }

    constructor (transport: Transport)
      requires transport.Valid()
      ensures Valid() && this.transport == transport
      ensures values == DEFAULT_VALUES && !isSubmitting && error == None
      ensures updates == [] && callbacks == []
    {
      this.transport := transport;
      values := DEFAULT_VALUES;
      isSubmitting := false;
      error := None;
      updates := [];
      callbacks := [];
    }

    /** The effect run when the `plan` prop changes: a plan resets the form, no plan leaves it. */
    method Reset(plan: Option<Plan>)
      modifies this
      ensures plan.Some? ==> values == ResetValues(plan.value)
      ensures plan.None? ==> values == old(values)
      ensures isSubmitting == old(isSubmitting) && error == old(error)
      ensures updates == old(updates) && callbacks == old(callbacks)
    {
      if plan.Some? {
        values := ResetValues(plan.value);
      }
    }

    method SetIsSubmitting(b: bool)
      modifies this
      ensures isSubmitting == b && updates == old(updates) + [PlanForm.Snapshot(b, error)]
      ensures error == old(error) && values == old(values) && callbacks == old(callbacks)
    {
      isSubmitting := b;
      updates := updates + [PlanForm.Snapshot(isSubmitting, error)];
    }

    method SetError(e: Option<string>)
      modifies this
      ensures error == e && updates == old(updates) + [PlanForm.Snapshot(isSubmitting, e)]
      ensures isSubmitting == old(isSubmitting) && values == old(values) && callbacks == old(callbacks)
    {
      error := e;
      updates := updates + [PlanForm.Snapshot(isSubmitting, error)];
    }

    /** `onSubmit(values)` for the current `plan` prop, given what the update request's
        `fetch` did. */
    method OnSubmit(plan: Option<Plan>, submitted: EditFormValues, outcome: FetchOutcome)
      requires Valid()
      modifies this, transport
      ensures Valid()
      ensures values == old(values) && transport.pendingTimers == old(transport.pendingTimers)
      ensures plan.None? ==>
                && transport.calls == old(transport.calls)
                && isSubmitting == old(isSubmitting) && error == old(error)
                && updates == old(updates) && callbacks == old(callbacks)
      ensures plan.Some? ==>
                && transport.calls == old(transport.calls) + [FetchCall(transport.baseUrl + Config.PlansUpdate(plan.value.id), PATCH, Some(UpdatePayload(submitted)), DEFAULT_HEADERS)]
                && !isSubmitting
      ensures plan.Some? && Classify(outcome).Resolved? ==>
                && error == None
                && callbacks == old(callbacks) + [OnSuccess, OnClose]
                && updates == old(updates) + [PlanForm.Snapshot(true, old(error)), PlanForm.Snapshot(true, None), PlanForm.Snapshot(false, None)]
      ensures plan.Some? && Classify(outcome).Rejected? ==>
                && error == Some(UpdateErrorMessage(Classify(outcome).thrown))
                && callbacks == old(callbacks)
                && updates == old(updates) + [PlanForm.Snapshot(true, old(error)), PlanForm.Snapshot(true, None), PlanForm.Snapshot(true, error), PlanForm.Snapshot(false, error)]
    {
      if plan.None? {
        return;
      }

      SetIsSubmitting(true);
      SetError(None);

      // try
      var payload := UpdatePayload(submitted);
      var response := transport.Request(Config.PlansUpdate(plan.value.id), PatchOptions(payload), outcome);
      assert MergeHeaders(map[]) == DEFAULT_HEADERS;
      if response.Resolved? {
        callbacks := callbacks + [OnSuccess];
        callbacks := callbacks + [OnClose];
      } else {
        // catch (err)
        var err := response.thrown;
        var errorMessage := "更新失敗：未知錯誤";
        if err.ApiErr? {
          errorMessage := err.apiError.message;
        } else if err.ErrorObject? {
          errorMessage := err.message;
        }
        SetError(Some(errorMessage));
      }
      // finally
      SetIsSubmitting(false);
    }
  }
}

/** The create-plan form (components/plan-form.tsx): its validation schema, the half-hour
    time slots, the default values, the payload it posts, where it redirects, the error
    message it shows, and the `isSubmitting` / `error` state around a submit. */
module PlanForm {
  import opened Js
  import opened DateTime
  import Config
  import opened Client

  /** The form's values (`PlanFormValues`). */
  datatype PlanFormValues = PlanFormValues(
    room_id: string,
    date: string,
    start_time: string,
    end_time: string,
    line_user_id: Option<string>,
    ignore_announcement: bool)

  /** A failed schema rule: the field it is attached to and the message shown under it. */
  datatype Issue = Issue(field: string, message: string)

  /** One schema rule: no issue when it holds, else one issue on its field. */
  function Rule(holds: bool, field: string, message: string): seq<Issue> {
    if holds then [] else [Issue(field, message)]
  }

  /** `planFormSchema`: the rules that fail, in field order. */
  function Validate(v: PlanFormValues): seq<Issue> {
    Rule(|v.room_id| >= 1, "room_id", "必填")
    + Rule(IsDateText(v.date), "date", "格式：YYYY-MM-DD")
    + Rule(IsClockText(v.start_time), "start_time", "格式：HH:MM")
    + Rule(IsClockText(v.end_time), "end_time", "格式：HH:MM")
  }

  predicate Flags(issues: seq<Issue>, field: string) {
    exists i :: 0 <= i < |issues| && issues[i].field == field
  }

  lemma FlagsAppend(a: seq<Issue>, b: seq<Issue>, field: string)
    ensures Flags(a + b, field) <==> Flags(a, field) || Flags(b, field)
  {
    if Flags(a + b, field) {
      var i :| 0 <= i < |a + b| && (a + b)[i].field == field;
      if i >= |a| {
        assert b[i - |a|].field == field;
      }
    }
    if Flags(a, field) {
      var i :| 0 <= i < |a| && a[i].field == field;
      assert (a + b)[i].field == field;
    }
    if Flags(b, field) {
      var i :| 0 <= i < |b| && b[i].field == field;
      assert (a + b)[|a| + i].field == field;
    }
  }

  lemma FlagsRule(holds: bool, ruleField: string, message: string, field: string)
    ensures Flags(Rule(holds, ruleField, message), field) <==> !holds && ruleField == field
  {
    if !holds && ruleField == field {
      assert Rule(holds, ruleField, message)[0].field == field;
    }
  }

  /** Each field is flagged exactly when its own rule fails, no other field is ever
      flagged, and the values pass exactly when every rule holds. */
  lemma ValidateFlags(v: PlanFormValues, field: string)
    ensures Flags(Validate(v), field) <==>
              || (field == "room_id" && v.room_id == "")
              || (field == "date" && !IsDateText(v.date))
              || (field == "start_time" && !IsClockText(v.start_time))
              || (field == "end_time" && !IsClockText(v.end_time))
    ensures Validate(v) == [] <==> v.room_id != "" && IsDateText(v.date) && IsClockText(v.start_time) && IsClockText(v.end_time)
  {
    var a := Rule(|v.room_id| >= 1, "room_id", "必填");
    var b := Rule(IsDateText(v.date), "date", "格式：YYYY-MM-DD");
    var c := Rule(IsClockText(v.start_time), "start_time", "格式：HH:MM");
    var d := Rule(IsClockText(v.end_time), "end_time", "格式：HH:MM");
    FlagsRule(|v.room_id| >= 1, "room_id", "必填", field);
    FlagsRule(IsDateText(v.date), "date", "格式：YYYY-MM-DD", field);
    FlagsRule(IsClockText(v.start_time), "start_time", "格式：HH:MM", field);
    FlagsRule(IsClockText(v.end_time), "end_time", "格式：HH:MM", field);
    FlagsAppend(a, b, field);
    FlagsAppend(a + b, c, field);
    FlagsAppend(a + b + c, d, field);
  }

  // ---------------------------------------------------------------- time slots

  /** The 48 half-hour slots offered by both time selects (one array literal, laid out
      here in rows of eight). */
  const TIME_SLOTS: seq<string> :=
    ["00:00", "00:30", "01:00", "01:30", "02:00", "02:30", "03:00", "03:30"] +
    ["04:00", "04:30", "05:00", "05:30", "06:00", "06:30", "07:00", "07:30"] +
    ["08:00", "08:30", "09:00", "09:30", "10:00", "10:30", "11:00", "11:30"] +
    ["12:00", "12:30", "13:00", "13:30", "14:00", "14:30", "15:00", "15:30"] +
    ["16:00", "16:30", "17:00", "17:30", "18:00", "18:30", "19:00", "19:30"] +
    ["20:00", "20:30", "21:00", "21:30", "22:00", "22:30", "23:00", "23:30"]

  /** The `HH:MM` text of the `i`-th half hour of the day. */
  function SlotText(i: nat): string
    requires i < 48
  {
    [DigitChar(i / 2 / 10), DigitChar(i / 2 % 10), ':', DigitChar(3 * (i % 2)), '0']
  }

  /** Entry `i` of the literal is the `i`-th half hour. The solver checks the entries one
      by one, a quarter of the day at a time. */
  lemma SlotAt(i: nat)
    requires i < 48
    ensures |TIME_SLOTS| == 48 && TIME_SLOTS[i] == SlotText(i)
  {
    if i < 12 { SlotsNight(i); }
    else if i < 24 { SlotsMorning(i); }
    else if i < 36 { SlotsAfternoon(i); }
    else { SlotsEvening(i); }
  }

  lemma SlotsNight(i: nat)
    requires 0 <= i < 12
    ensures |TIME_SLOTS| == 48 && TIME_SLOTS[i] == SlotText(i)
  {
    if i == 0 { } else if i == 1 { } else if i == 2 { } else if i == 3 { } else if i == 4 { } else if i == 5 { } else if i == 6 { } else if i == 7 { } else
    if i == 8 { } else if i == 9 { } else if i == 10 { } else { }
  }

  lemma SlotsMorning(i: nat)
    requires 12 <= i < 24
    ensures |TIME_SLOTS| == 48 && TIME_SLOTS[i] == SlotText(i)
  {
    if i == 12 { } else if i == 13 { } else if i == 14 { } else if i == 15 { } else if i == 16 { } else if i == 17 { } else if i == 18 { } else if i == 19 { } else
    if i == 20 { } else if i == 21 { } else if i == 22 { } else { }
  }

  lemma SlotsAfternoon(i: nat)
    requires 24 <= i < 36
    ensures |TIME_SLOTS| == 48 && TIME_SLOTS[i] == SlotText(i)
  {
    if i == 24 { } else if i == 25 { } else if i == 26 { } else if i == 27 { } else if i == 28 { } else if i == 29 { } else if i == 30 { } else if i == 31 { } else
    if i == 32 { } else if i == 33 { } else if i == 34 { } else { }
  }

  lemma SlotsEvening(i: nat)
    requires 36 <= i < 48
    ensures |TIME_SLOTS| == 48 && TIME_SLOTS[i] == SlotText(i)
  {
    if i == 36 { } else if i == 37 { } else if i == 38 { } else if i == 39 { } else if i == 40 { } else if i == 41 { } else if i == 42 { } else if i == 43 { } else
    if i == 44 { } else if i == 45 { } else if i == 46 { } else { }
  }

  lemma SlotTextClock(i: nat)
    requires i < 48
    ensures IsClockText(SlotText(i)) && ClockInRange(SlotText(i))
    ensures ClockMinutes(SlotText(i)) == 30 * i
  {
  }

  /** Every slot is a valid `HH:MM` text, and slot `i` is `30 * i` minutes after midnight:
      48 slots from 00:00 to 23:30 in strictly increasing half-hour steps. */
  lemma TimeSlotsHalfHours()
    ensures |TIME_SLOTS| == 48
    ensures forall i :: 0 <= i < 48 ==> TIME_SLOTS[i] == SlotText(i)
    ensures forall i :: 0 <= i < 48 ==> IsClockText(TIME_SLOTS[i]) && ClockInRange(TIME_SLOTS[i])
    ensures forall i :: 0 <= i < 48 ==> ClockMinutes(TIME_SLOTS[i]) == 30 * i
    ensures TIME_SLOTS[0] == "00:00" && TIME_SLOTS[47] == "23:30"
  {
    SlotAt(0);
    forall i | 0 <= i < 48
      ensures TIME_SLOTS[i] == SlotText(i)
      ensures IsClockText(TIME_SLOTS[i]) && ClockInRange(TIME_SLOTS[i]) && ClockMinutes(TIME_SLOTS[i]) == 30 * i
    {
      SlotAt(i);
      SlotTextClock(i);
    }
  }

  /** Every slot passes the schema's time rule, and later slots are later in the day. */
  lemma TimeSlotsAscending(i: nat, j: nat)
    requires i < j < |TIME_SLOTS|
    ensures IsClockText(TIME_SLOTS[i]) && IsClockText(TIME_SLOTS[j])
    ensures ClockMinutes(TIME_SLOTS[i]) < ClockMinutes(TIME_SLOTS[j])
  {
    TimeSlotsHalfHours();
  }

  // ---------------------------------------------------------------- defaults

  /** `defaultValues`: the room id handed in by the page (`roomId || ""`), everything else empty. */
  function DefaultValues(roomId: Option<string>): PlanFormValues {
    PlanFormValues(Or(roomId, ""), "", "", "", Some(""), false)
  }

  /** The defaults keep a given room id, leave the announcement flag off, and never pass the
      schema: the date and both times have to be filled in, and the room id too when none
      was given. */
  lemma DefaultValuesRejected(roomId: Option<string>)
    ensures Present(roomId) ==> DefaultValues(roomId).room_id == roomId.value
    ensures !DefaultValues(roomId).ignore_announcement
    ensures Validate(DefaultValues(roomId)) != []
    ensures Flags(Validate(DefaultValues(roomId)), "room_id") <==> !Present(roomId)
    ensures Flags(Validate(DefaultValues(roomId)), "date")
    ensures Flags(Validate(DefaultValues(roomId)), "start_time") && Flags(Validate(DefaultValues(roomId)), "end_time")
  {
    var v := DefaultValues(roomId);
    ValidateFlags(v, "room_id");
    ValidateFlags(v, "date");
    ValidateFlags(v, "start_time");
    ValidateFlags(v, "end_time");
  }

  // ---------------------------------------------------------------- payload

  /** The `CreatePlanRequest` posted for the values: `date` travels as `start_day`, and
      `line_user_id` is not sent. */
  function CreatePayload(v: PlanFormValues): JsValue {
    Obj([
      ("room_id", Str(v.room_id)),
      ("start_day", Str(v.date)),
      ("start_time", Str(v.start_time)),
      ("end_time", Str(v.end_time)),
      ("ignore_announcement", Bool(v.ignore_announcement))])
  }

  /** Reads form values back from a create payload; the line user id is not in it. */
  function ValuesOfPayload(payload: JsValue, lineUserId: Option<string>): Option<PlanFormValues> {
    if !payload.Obj? then None
    else
      var p := payload.props;
      var roomId := GetProp(p, "room_id");
      var day := GetProp(p, "start_day");
      var start := GetProp(p, "start_time");
      var end := GetProp(p, "end_time");
      var ignore := GetProp(p, "ignore_announcement");
      if roomId.Str? && day.Str? && start.Str? && end.Str? && ignore.Bool? then
        Some(PlanFormValues(roomId.s, day.s, start.s, end.s, lineUserId, ignore.b))
      else None
  }

  /** The payload carries every value but the line user id, which is dropped whatever was
      entered; it is an object, so the POST always has a body. */
  lemma CreatePayloadRoundTrip(v: PlanFormValues, otherLineUserId: Option<string>)
    ensures ValuesOfPayload(CreatePayload(v), v.line_user_id) == Some(v)
    ensures Keys(CreatePayload(v).props) == ["room_id", "start_day", "start_time", "end_time", "ignore_announcement"]
    ensures !HasProp(CreatePayload(v).props, "line_user_id")
    ensures CreatePayload(v.(line_user_id := otherLineUserId)) == CreatePayload(v)
    ensures PostOptions(CreatePayload(v)).body == Some(CreatePayload(v))
  {
    var ks := Keys(CreatePayload(v).props);
    assert ks == ["room_id", "start_day", "start_time", "end_time", "ignore_announcement"];
    var props := CreatePayload(v).props;
    GetPropAt(props, "room_id", 0);
    GetPropAt(props, "start_day", 1);
    GetPropAt(props, "start_time", 2);
    GetPropAt(props, "end_time", 3);
    GetPropAt(props, "ignore_announcement", 4);
    assert forall i :: 0 <= i < |props| ==> props[i].0 == ks[i] != "line_user_id";
  }

  // ---------------------------------------------------------------- redirect

  /** `response && typeof response === "object" && "id" in response`. Arrays are objects
      too, but a parsed JSON array has no `id` key. */
  predicate HasIdKey(response: JsValue) {
    response.Obj? && HasProp(response.props, "id")
  }

  /** Where a successful create navigates. */
  function RedirectPath(response: JsValue): string {
    if Truthy(response) && HasIdKey(response) then "/plans/" + ToText(GetProp(response.props, "id"))
    else "/plans"
  }

  /** A response naming a numeric plan id leads to that plan's page, distinct ids lead to
      distinct pages, and any other response leads to the plan list. */
  lemma RedirectPathTargets(response: JsValue, other: JsValue)
    ensures HasIdKey(response) && GetProp(response.props, "id").Num? ==>
              var id := IntToString(GetProp(response.props, "id").n);
              RedirectPath(response) == Config.PlansGet(id) && Config.PlanIdOfPath(RedirectPath(response)) == Some(id)
    ensures !HasIdKey(response) ==> RedirectPath(response) == Config.PlansList(None)
    ensures && HasIdKey(response) && GetProp(response.props, "id").Num?
            && HasIdKey(other) && GetProp(other.props, "id").Num?
            && RedirectPath(response) == RedirectPath(other)
            ==> GetProp(response.props, "id").n == GetProp(other.props, "id").n
  {
    if HasIdKey(response) && GetProp(response.props, "id").Num? {
      Config.PlanPathsAgree(IntToString(GetProp(response.props, "id").n));
      if HasIdKey(other) && GetProp(other.props, "id").Num? && RedirectPath(response) == RedirectPath(other) {
        var a := IntToString(GetProp(response.props, "id").n);
        var b := IntToString(GetProp(other.props, "id").n);
        Config.PlanPathsDistinct(a, b, None);
        IntToStringInjective(GetProp(response.props, "id").n, GetProp(other.props, "id").n);
      }
    }
  }

  // ---------------------------------------------------------------- error message

  /** `err.responseBody`: `ApiError` declares no such property, so it reads as `undefined`. */
  function ResponseBodyOf(e: ApiError): JsValue {
    Undefined
  }

  function ResponseBodySuffix(responseBody: JsValue): string {
    if Truthy(responseBody) then "\n\n原始回應：\n" + ToText(responseBody) else ""
  }

  /** The message shown for what the create request threw. */
  function CreateErrorMessage(err: Thrown): string {
    match err
    case ApiErr(e) => e.message + ResponseBodySuffix(ResponseBodyOf(e))
    case ErrorObject(_, message) => message
    case NonError(_) => "建立失敗：未知錯誤"
  }

  /** What the user reads for a failed request, stated on what `fetch` did. */
  function ReportedMessage(outcome: FetchOutcome): string {
    match outcome
    case Responded(ok, _, _, text, json) =>
      if !ok then (if text.BodyRead? then text.text else "Unknown error")
      else if json.Unparsable? then json.message
      else ""
    case FetchFailed(thrown) =>
      match thrown
      case ApiErr(e) => e.message
      case ErrorObject(name, message) => if name == "AbortError" then "Request timeout" else message
      case NonError(_) => "Unknown error occurred"
  }

  /** Through the transport, the form shows the raw response body of a failed request
      (never a decoded one and never with the `原始回應` suffix), "Request timeout" for a
      timeout, and the error's own message otherwise; its own fallback is unreachable. */
  lemma CreateErrorFromOutcome(outcome: FetchOutcome)
    requires Classify(outcome).Rejected?
    ensures CreateErrorMessage(Classify(outcome).thrown) == ReportedMessage(outcome)
    ensures !Classify(outcome).thrown.NonError?
    ensures forall e: ApiError :: CreateErrorMessage(ApiErr(e)) == e.message
  {
    ClassifyRejectsWithErrors(outcome);
  }

  // ---------------------------------------------------------------- submit

  const WEBHOOK_URL := "https://happn8n.zeabur.app/webhook/run-execute"

  /** The form state after one state update. */
  datatype Snapshot = Snapshot(isSubmitting: bool, error: Option<string>)

  /** The component's state and what it has sent out. */
  class PlanFormState {
    const transport: Transport
    var isSubmitting: bool
    var error: Option<string>
    var fieldIssues: seq<Issue>
    /** The state after each `setIsSubmitting` / `setError`, in order. */
    var updates: seq<Snapshot>
    /** The `router.push` targets, in order. */
    var navigations: seq<string>
    /** The fire-and-forget webhook POSTs, in order. */
    var webhookPosts: seq<string>

    ghost predicate Valid()
      reads this, transport
    {
      transport.Valid()
    }

    constructor (transport: Transport)
      requires transport.Valid()
      ensures Valid() && this.transport == transport
      ensures !isSubmitting && error == None && fieldIssues == []
      ensures updates == [] && navigations == [] && webhookPosts == []
    {
      this.transport := transport;
      isSubmitting := false;
      error := None;
      fieldIssues := [];
      updates := [];
      navigations := [];
      webhookPosts := [];
    }

    method SetIsSubmitting(b: bool)
      modifies this
      ensures isSubmitting == b && updates == old(updates) + [Snapshot(b, error)]
      ensures error == old(error) && fieldIssues == old(fieldIssues)
      ensures navigations == old(navigations) && webhookPosts == old(webhookPosts)
    {
      isSubmitting := b;
      updates := updates + [Snapshot(isSubmitting, error)];
    }

    method SetError(e: Option<string>)
      modifies this
      ensures error == e && updates == old(updates) + [Snapshot(isSubmitting, e)]
      ensures isSubmitting == old(isSubmitting) && fieldIssues == old(fieldIssues)
      ensures navigations == old(navigations) && webhookPosts == old(webhookPosts)
    {
      error := e;
      updates := updates + [Snapshot(isSubmitting, error)];
    }

    /** `onSubmit(values)`, given what the create request's `fetch` did. The webhook is
        fire-and-forget: only the POST is recorded, since its outcome is swallowed. */
    method OnSubmit(values: PlanFormValues, outcome: FetchOutcome)
      requires Valid()
      modifies this, transport
      ensures Valid()
      ensures transport.calls == old(transport.calls) + [FetchCall(transport.baseUrl + Config.PlansCreate(), POST, Some(CreatePayload(values)), DEFAULT_HEADERS)]
      ensures transport.pendingTimers == old(transport.pendingTimers)
      ensures !isSubmitting && fieldIssues == old(fieldIssues)
      ensures Classify(outcome).Resolved? ==>
                && error == None
                && updates == old(updates) + [Snapshot(true, old(error)), Snapshot(true, None), Snapshot(false, None)]
                && navigations == old(navigations) + [RedirectPath(Classify(outcome).value)]
                && webhookPosts == old(webhookPosts) + [WEBHOOK_URL]
      ensures Classify(outcome).Rejected? ==>
                && error == Some(CreateErrorMessage(Classify(outcome).thrown))
                && updates == old(updates) + [Snapshot(true, old(error)), Snapshot(true, None), Snapshot(true, error), Snapshot(false, error)]
                && navigations == old(navigations)
                && webhookPosts == old(webhookPosts)
    {
      SetIsSubmitting(true);
      SetError(None);

      // try
      var payload := CreatePayload(values);
      var response := transport.Request(Config.PlansCreate(), PostOptions(payload), outcome);
      assert MergeHeaders(map[]) == DEFAULT_HEADERS;
      if response.Resolved? {
        webhookPosts := webhookPosts + [WEBHOOK_URL];
        navigations := navigations + [RedirectPath(response.value)];
      } else {
        // catch (err)
        var err := response.thrown;
        var errorMessage := "建立失敗：未知錯誤";
        if err.ApiErr? {
          errorMessage := err.apiError.message;
          assert errorMessage + "" == errorMessage;
          var responseBody := ResponseBodyOf(err.apiError);
          if Truthy(responseBody) {
            errorMessage := errorMessage + "\n\n原始回應：\n" + ToText(responseBody);
          }
        } else if err.ErrorObject? {
          errorMessage := err.message;
        }
        SetError(Some(errorMessage));
      }
      // finally
      SetIsSubmitting(false);
    }

    /** `form.handleSubmit(onSubmit)`: values that fail the schema are flagged and nothing
        is sent; values that pass are submitted. */
    method HandleSubmit(values: PlanFormValues, outcome: FetchOutcome)
      requires Valid()
      modifies this, transport
      ensures Valid()
      ensures fieldIssues == Validate(values)
      ensures Validate(values) != [] ==>
                && transport.calls == old(transport.calls) && transport.pendingTimers == old(transport.pendingTimers)
                && isSubmitting == old(isSubmitting) && error == old(error) && updates == old(updates)
                && navigations == old(navigations) && webhookPosts == old(webhookPosts)
      ensures Validate(values) == [] ==>
                && transport.calls == old(transport.calls) + [FetchCall(transport.baseUrl + Config.PlansCreate(), POST, Some(CreatePayload(values)), DEFAULT_HEADERS)]
                && !isSubmitting
                && (Classify(outcome).Resolved? ==> error == None && navigations == old(navigations) + [RedirectPath(Classify(outcome).value)])
                && (Classify(outcome).Rejected? ==> error == Some(CreateErrorMessage(Classify(outcome).thrown)) && navigations == old(navigations))
    {
      var issues := Validate(values);
      fieldIssues := issues;
      if issues == [] {
        OnSubmit(values, outcome);
      }
    }
  }
}

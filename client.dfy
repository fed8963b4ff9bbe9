/** The transport (lib/api/client.ts): `request` joins the base URL and the endpoint, arms
    the timeout timer, calls `fetch`, clears the timer and turns what happened into a
    resolved value or one of three kinds of error. `fetch` itself is a parameter: the
    outcome it produced. */
module Client {
  import opened Js
  import Config

  /** `ApiError`: an `Error` named "ApiError" with the HTTP status, its text, and the
      response body text as its message. */
  datatype ApiError = ApiError(status: int, statusText: string, message: string)

  /** What a `catch` clause can receive. */
  datatype Thrown =
    | ApiErr(apiError: ApiError)
    | ErrorObject(name: string, message: string)
    | NonError(value: JsValue)

  /** `response.text()`: the body, or a failure to read it. */
  datatype BodyText = BodyRead(text: string) | BodyUnreadable

  /** `response.json()`: a value, or a body that is not JSON. */
  datatype JsonBody = Parsed(value: JsValue) | Unparsable(message: string)

  /** What the awaited `fetch` did: it answered, or it threw (an abort on timeout is an
      `ErrorObject` named "AbortError"). */
  datatype FetchOutcome =
    | Responded(ok: bool, status: int, statusText: string, text: BodyText, json: JsonBody)
    | FetchFailed(thrown: Thrown)

  /** How the promise returned by `request` settles. */
  datatype Outcome = Resolved(value: JsValue) | Rejected(thrown: Thrown)

  datatype HttpMethod = GET | POST | PATCH | DELETE

  /** The `RequestInit` a caller passes; `body` is the value `JSON.stringify` is applied to. */
  datatype RequestOptions = RequestOptions(verb: HttpMethod, body: Option<JsValue>, headers: map<string, string>)

  /** The arguments `fetch` is called with. */
  datatype FetchCall = FetchCall(url: string, verb: HttpMethod, body: Option<JsValue>, headers: map<string, string>)

  const DEFAULT_HEADERS: map<string, string> := map["Content-Type" := "application/json"]

  /** `{ "Content-Type": "application/json", ...options?.headers }`. */
  function MergeHeaders(callerHeaders: map<string, string>): map<string, string> {
    DEFAULT_HEADERS + callerHeaders
  }

  /** Caller headers override the default; the default is kept otherwise; nothing else is added. */
  lemma MergeHeadersOverride(callerHeaders: map<string, string>)
    ensures var h := MergeHeaders(callerHeaders);
            && h.Keys == callerHeaders.Keys + {"Content-Type"}
            && (forall k :: k in callerHeaders ==> h[k] == callerHeaders[k])
            && ("Content-Type" !in callerHeaders ==> h["Content-Type"] == "application/json")
  {
  }

  /** The outcome of `request` for a `fetch` outcome: the decision table of its `try` and `catch`. */
  function Classify(outcome: FetchOutcome): Outcome {
    match outcome
    case Responded(ok, status, statusText, text, json) =>
      if ok then
        (if json.Parsed? then Resolved(json.value) else Rejected(ErrorObject("SyntaxError", json.message)))
      else
        Rejected(ApiErr(ApiError(status, statusText, if text.BodyRead? then text.text else "Unknown error")))
    case FetchFailed(thrown) =>
      match thrown
      case ApiErr(e) => Rejected(thrown)
      case ErrorObject(name, _) =>
        if name == "AbortError" then Rejected(ErrorObject("Error", "Request timeout")) else Rejected(thrown)
      case NonError(_) => Rejected(ErrorObject("Error", "Unknown error occurred"))
  }

  /** A non-ok response becomes an `ApiError` with the status, its text and the body text,
      or "Unknown error" when the body cannot be read. */
  lemma ClassifyNonOk(outcome: FetchOutcome)
    requires outcome.Responded? && !outcome.ok
    ensures Classify(outcome) == Rejected(ApiErr(ApiError(outcome.status, outcome.statusText,
              if outcome.text.BodyRead? then outcome.text.text else "Unknown error")))
  {
  }

  /** Only an ok response with a JSON body resolves. */
  lemma ClassifyResolves(outcome: FetchOutcome)
    ensures Classify(outcome).Resolved? <==> outcome.Responded? && outcome.ok && outcome.json.Parsed?
    ensures Classify(outcome).Resolved? ==> Classify(outcome).value == outcome.json.value
  {
  }

  /** The `catch` clause: an `ApiError` and any `Error` other than an abort are rethrown
      unchanged, an abort becomes "Request timeout", and a thrown non-`Error` becomes
      "Unknown error occurred". */
  lemma ClassifyThrown(thrown: Thrown)
    ensures thrown.ApiErr? ==> Classify(FetchFailed(thrown)) == Rejected(thrown)
    ensures thrown.ErrorObject? && thrown.name != "AbortError" ==> Classify(FetchFailed(thrown)) == Rejected(thrown)
    ensures thrown.ErrorObject? && thrown.name == "AbortError" ==>
              Classify(FetchFailed(thrown)) == Rejected(ErrorObject("Error", "Request timeout"))
    ensures thrown.NonError? ==> Classify(FetchFailed(thrown)) == Rejected(ErrorObject("Error", "Unknown error occurred"))
  {
  }

  /** Whatever `fetch` does, a rejection carries an `Error`: never a non-`Error` value. */
  lemma ClassifyRejectsWithErrors(outcome: FetchOutcome)
    ensures Classify(outcome).Rejected? ==> !Classify(outcome).thrown.NonError?
  {
  }

  /** The transport: the base URL, the timers that are armed, the delay each timer was
      armed with, and every `fetch` call made. */
  class Transport {
    const baseUrl: string
    var pendingTimers: set<nat>
    var nextTimer: nat
    var timerDelays: map<nat, int>
    var calls: seq<FetchCall>

    ghost predicate Valid()
      reads this
    {
      && (forall t :: t in pendingTimers ==> t < nextTimer)
      && (forall t :: t in timerDelays ==> t < nextTimer)
      && pendingTimers <= timerDelays.Keys
    }

    constructor (baseUrl: string)
      ensures Valid()
      ensures this.baseUrl == baseUrl && pendingTimers == {} && nextTimer == 0 && calls == []
      ensures timerDelays == map[]
    {
      this.baseUrl := baseUrl;
      pendingTimers := {};
      nextTimer := 0;
      timerDelays := map[];
      calls := [];
    }

    /** `request(endpoint, options)`, given what the awaited `fetch` did. The timer armed
        for this request, with the configured time budget, is cleared on every path, so the
        set of armed timers is as before. */
    method Request(endpoint: string, options: RequestOptions, outcome: FetchOutcome) returns (r: Outcome)
      requires Valid()
      modifies this
      ensures Valid()
      ensures r == Classify(outcome)
      ensures pendingTimers == old(pendingTimers) && nextTimer == old(nextTimer) + 1
      ensures timerDelays == old(timerDelays)[old(nextTimer) := Config.TIMEOUT_MS]
      ensures calls == old(calls) + [FetchCall(baseUrl + endpoint, options.verb, options.body, MergeHeaders(options.headers))]
    {
      var url := baseUrl + endpoint;
      // setTimeout(() => controller.abort(), API_CONFIG.timeout)
      var timeoutId := nextTimer;
      nextTimer := nextTimer + 1;
      pendingTimers := pendingTimers + {timeoutId};
      timerDelays := timerDelays[timeoutId := Config.TIMEOUT_MS];

      // try
      calls := calls + [FetchCall(url, options.verb, options.body, MergeHeaders(options.headers))];
      var error: Thrown;
      match outcome {
        case Responded(ok, status, statusText, text, json) =>
          pendingTimers := pendingTimers - {timeoutId};
          if !ok {
            var errorText := if text.BodyRead? then text.text else "Unknown error";
            error := ApiErr(ApiError(status, statusText, errorText));
          } else {
            // `return response.json()`: a body that is not JSON rejects outside this try.
            r := if json.Parsed? then Resolved(json.value) else Rejected(ErrorObject("SyntaxError", json.message));
            return;
          }
        case FetchFailed(thrown) =>
          error := thrown;
      }

      // catch (error)
      pendingTimers := pendingTimers - {timeoutId};
      if error.ApiErr? {
        r := Rejected(error);
      } else if error.ErrorObject? {
        if error.name == "AbortError" {
          r := Rejected(ErrorObject("Error", "Request timeout"));
        } else {
          r := Rejected(error);
        }
      } else {
        r := Rejected(ErrorObject("Error", "Unknown error occurred"));
      }
    }
  }

  // ---------------------------------------------------------------- api.get / post / patch / delete

  function GetOptions(): RequestOptions {
    RequestOptions(GET, None, map[])
  }

  /** `data ? JSON.stringify(data) : undefined`. */
  function BodyOf(data: JsValue): Option<JsValue> {
    if Truthy(data) then Some(data) else None
  }

  function PostOptions(data: JsValue): RequestOptions {
    RequestOptions(POST, BodyOf(data), map[])
  }

  function PatchOptions(data: JsValue): RequestOptions {
    RequestOptions(PATCH, BodyOf(data), map[])
  }

  function DeleteOptions(): RequestOptions {
    RequestOptions(DELETE, None, map[])
  }

  /** POST and PATCH carry a body exactly when the data is truthy; GET and DELETE never do;
      none of them passes headers of its own. */
  lemma OptionsBodyRule(data: JsValue)
    ensures PostOptions(data).body.Some? <==> Truthy(data)
    ensures PatchOptions(data).body.Some? <==> Truthy(data)
    ensures PostOptions(data).body.Some? ==> PostOptions(data).body.value == data
    ensures PatchOptions(data).body.Some? ==> PatchOptions(data).body.value == data
    ensures GetOptions().body == None && DeleteOptions().body == None
    ensures MergeHeaders(PostOptions(data).headers) == DEFAULT_HEADERS
  {
  }

  /** The transport every module uses, with the configured base URL. */
  method NewTransport(envBaseUrl: Option<string>, nodeEnv: Option<string>) returns (t: Transport)
    ensures fresh(t) && t.Valid() && t.baseUrl == Config.BaseUrl(envBaseUrl, nodeEnv)
    ensures t.pendingTimers == {} && t.timerDelays == map[] && t.calls == []
  {
    t := new Transport(Config.BaseUrl(envBaseUrl, nodeEnv));
  }
}

/** API configuration (lib/api/config.ts): the base URL, the request time budget and the
    endpoint path builders. */
module Config {
  import opened Js

  const PRODUCTION_BASE_URL := "https://happ-api.zeabur.app"
  /** The development base, served through the Next.js rewrite. */
  const PROXY_BASE_URL := "/api"
  const TIMEOUT_MS := 30000

  /** `API_CONFIG.baseUrl` from `NEXT_PUBLIC_API_BASE_URL` and `NODE_ENV`. */
  function BaseUrl(envBaseUrl: Option<string>, nodeEnv: Option<string>): string {
    if Present(envBaseUrl) then envBaseUrl.value
    else if nodeEnv == Some("production") then PRODUCTION_BASE_URL
    else PROXY_BASE_URL
  }

  /** The configured variable wins when set and non-empty; otherwise the choice is between
      the production host and the proxy, and the base is never empty. */
  lemma BaseUrlChoice(envBaseUrl: Option<string>, nodeEnv: Option<string>)
    ensures var url := BaseUrl(envBaseUrl, nodeEnv);
            && url != ""
            && (Present(envBaseUrl) ==> url == envBaseUrl.value)
            && (!Present(envBaseUrl) ==> (url == PRODUCTION_BASE_URL <==> nodeEnv == Some("production")))
            && (!Present(envBaseUrl) ==> (url == PROXY_BASE_URL <==> nodeEnv != Some("production")))
  {
  }

  function RoomsSearch(roomId: string): string {
    "/rooms/search/available?room_id=" + roomId
  }

  /** `plans.list(status)`: an absent or empty status adds no query. */
  function PlansList(status: Option<string>): string {
    "/plans" + (if Present(status) then "?status=" + status.value else "")
  }

  function PlansCreate(): string {
    "/plans"
  }

  function PlansGet(id: string): string {
    "/plans/" + id
  }

  function PlansUpdate(id: string): string {
    "/plans/" + id
  }

  function PlansDelete(id: string): string {
    "/plans/" + id
  }

  function TasksByPlan(planId: string): string {
    "/plans/" + planId + "/tasks"
  }

  function DashboardStats(): string {
    "/dashboard/stats"
  }

  function DashboardEvents(): string {
    "/dashboard/events"
  }

  // ---------------------------------------------------------------- reading paths back

  /** The status filter of a list path, if it has one. */
  function StatusOfListPath(path: string): Option<string> {
    var prefix := "/plans?status=";
    if StartsWith(path, prefix) then Some(path[|prefix|..]) else None
  }

  /** The plan id of a detail path. */
  function PlanIdOfPath(path: string): Option<string> {
    var prefix := "/plans/";
    if StartsWith(path, prefix) then Some(path[|prefix|..]) else None
  }

  /** The list path records exactly the status that was passed, when it is non-empty. */
  lemma PlansListRoundTrip(status: Option<string>)
    ensures StatusOfListPath(PlansList(status)) == if Present(status) then status else None
    ensures PlanIdOfPath(PlansList(status)) == None
  {
    var path := PlansList(status);
    if Present(status) {
      assert path[..|"/plans?status="|] == "/plans?status=";
      assert path[|"/plans?status="|..] == status.value;
      assert path[6] == '?';
      assert !StartsWith(path, "/plans/");
    }
  }

  /** Creating posts to the unfiltered list path. */
  lemma PlansCreateIsList()
    ensures PlansCreate() == PlansList(None) == PlansList(Some(""))
  {
  }

  /** Reading, updating and deleting a plan address one path, which names the plan. */
  lemma PlanPathsAgree(id: string)
    ensures PlansGet(id) == PlansUpdate(id) == PlansDelete(id)
    ensures PlanIdOfPath(PlansGet(id)) == Some(id)
    ensures StatusOfListPath(PlansGet(id)) == None
  {
    var path := PlansGet(id);
    assert path[..|"/plans/"|] == "/plans/";
    assert path[|"/plans/"|..] == id;
    assert path[6] == '/';
    assert !StartsWith(path, "/plans?status=");
  }

  /** Distinct plans have distinct detail paths, and no detail path is a list path. */
  lemma PlanPathsDistinct(a: string, b: string, status: Option<string>)
    ensures PlansGet(a) == PlansGet(b) ==> a == b
    ensures PlansGet(a) != PlansList(status)
  {
    PlanPathsAgree(a);
    PlanPathsAgree(b);
    PlansListRoundTrip(status);
  }

  /** The task list of a plan lives below the plan's own path. */
  lemma TasksByPlanBelowPlan(planId: string)
    ensures TasksByPlan(planId) == PlansGet(planId) + "/tasks"
    ensures PlanIdOfPath(TasksByPlan(planId)) == Some(planId + "/tasks")
  {
    assert TasksByPlan(planId) == PlansGet(planId + "/tasks");
    PlanPathsAgree(planId + "/tasks");
  }

  /** The two dashboard paths are distinct and are neither plan paths nor list paths. */
  lemma DashboardPathsApart(id: string, status: Option<string>)
    ensures DashboardStats() != DashboardEvents()
    ensures PlanIdOfPath(DashboardStats()) == None && PlanIdOfPath(DashboardEvents()) == None
    ensures StatusOfListPath(DashboardStats()) == None && StatusOfListPath(DashboardEvents()) == None
    ensures DashboardStats() != PlansGet(id) && DashboardEvents() != PlansList(status)
  {
    assert DashboardStats()[1] == 'd' != PlansGet(id)[1];
    assert DashboardEvents()[1] == 'd' != PlansList(status)[1];
    assert DashboardStats()[..7] != "/plans/" && DashboardEvents()[..7] != "/plans/";
  }

  /** The room search query carries the room id verbatim. */
  lemma RoomsSearchRoundTrip(roomId: string)
    ensures var path := RoomsSearch(roomId);
            var prefix := "/rooms/search/available?room_id=";
            StartsWith(path, prefix) && path[|prefix|..] == roomId
  {
    var path := RoomsSearch(roomId);
    assert path[..|"/rooms/search/available?room_id="|] == "/rooms/search/available?room_id=";
  }
}

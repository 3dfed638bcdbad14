/** What the two department dashboards share: the four status tabs, the per-tab store
    of grievance lists, the requests they send, how a list reply is read, and the
    rule that enables the Decline button. */
module Grievances {
  import opened Common
  import opened JsStrings
  import opened JsValues
  import opened Http

  /** The status tabs, in workflow order. */
  datatype Tab = Pending | Assigned | InProgress | Resolved

  /** The tab's key in the store and in the list URL. */
  function TabName(t: Tab): (r: string)
    ensures r in {"pending", "assigned", "inProgress", "resolved"}
  {
    match t
    case Pending => "pending"
    case Assigned => "assigned"
    case InProgress => "inProgress"
    case Resolved => "resolved"
  }

  /** Different tabs have different names, so each list URL names one tab. */
  lemma TabNameInjective(t: Tab, u: Tab)
    ensures TabName(t) == TabName(u) ==> t == u
  {
  }

  /** The next tab of the workflow; `Resolved` is last. */
  function Successor(t: Tab): (r: Option<Tab>)
    ensures r.None? <==> t == Resolved
    ensures r != Some(t) && r != Some(Pending)
  {
    match t
    case Pending => Some(Assigned)
    case Assigned => Some(InProgress)
    case InProgress => Some(Resolved)
    case Resolved => None
  }

  /** The `grievances` state: one value per tab, as the list reply delivered it. */
  datatype Buckets = Buckets(pendingList: JsValue, assignedList: JsValue, inProgressList: JsValue,
                             resolvedList: JsValue)
  {
    /** `grievances[tab]`. */
    function Get(t: Tab): JsValue {
      match t
      case Pending => pendingList
      case Assigned => assignedList
      case InProgress => inProgressList
      case Resolved => resolvedList
    }

    /** `{...grievances, [tab]: v}`: that tab replaced, every other tab kept. */
    function With(t: Tab, v: JsValue): (r: Buckets)
      ensures r.Get(t) == v
      ensures forall u :: u != t ==> r.Get(u) == Get(u)
    {
      match t
      case Pending => this.(pendingList := v)
      case Assigned => this.(assignedList := v)
      case InProgress => this.(inProgressList := v)
      case Resolved => this.(resolvedList := v)
    }
  }

  /** Four empty lists. */
  const EmptyBuckets := Buckets(JArr([]), JArr([]), JArr([]), JArr([]))

  /** Zero counts for the four tabs. */
  const InitialStats :=
    JObj(map["pending" := JNum(0), "assigned" := JNum(0), "inProgress" := JNum(0), "resolved" := JNum(0)])

  const LoadErrorText := "Failed to load grievances. Please try again later."
  const ApiBase := "http://localhost:5000/api/grievances/"
  const StartComment := "Starting progress on grievance"
  const ResolutionText := "Grievance resolved with attached document"

  // ---------------------------------------------------------------- requests

  /** `{ Authorization: 'Bearer ' + token }`. */
  function Bearer(token: string): map<string, string> {
    map["Authorization" := "Bearer " + token]
  }

  /** The bearer header plus JSON `Content-Type`. */
  function JsonBearer(token: string): map<string, string> {
    Bearer(token)["Content-Type" := "application/json"]
  }

  /** The headers every dashboard request carries: the bearer credential, and a JSON
      `Content-Type` exactly when the body is JSON (a `FormData` body gets its
      multipart type from the browser). */
  predicate Authorized(r: Request, token: string) {
    "Authorization" in r.headers && r.headers["Authorization"] == "Bearer " + token
    && (("Content-Type" in r.headers) <==> r.body.JsonBody?)
    && (r.body.JsonBody? ==> r.headers["Content-Type"] == "application/json")
  }

  /** The list request for one department and tab. */
  function ListRequest(department: string, t: Tab, token: string): (r: Request)
    ensures r.httpMethod == "GET" && r.body == NoBody && Authorized(r, token)
  {
    Request("GET", ApiBase + "department/" + department + "/" + TabName(t), Bearer(token), NoBody)
  }

  /** A list request names its tab: two tabs never share one. */
  lemma ListRequestNamesTab(department: string, t: Tab, u: Tab, token: string)
    requires ListRequest(department, t, token) == ListRequest(department, u, token)
    ensures t == u
  {
    var p := ApiBase + "department/" + department + "/";
    assert (p + TabName(t))[|p|..] == TabName(t);
    assert (p + TabName(u))[|p|..] == TabName(u);
    TabNameInjective(t, u);
  }

  /** The list requests for several tabs, in order. */
  function ListRequests(department: string, tabs: seq<Tab>, token: string): (r: seq<Request>)
    ensures |r| == |tabs|
    ensures forall i :: 0 <= i < |tabs| ==> r[i] == ListRequest(department, tabs[i], token)
  {
    seq(|tabs|, i requires 0 <= i < |tabs| => ListRequest(department, tabs[i], token))
  }

  /** `POST .../<id>/<action>` with the given headers and body. */
  function ActionRequest(id: JsValue, action: string, headers: map<string, string>, body: Body): Request {
    Request("POST", ApiBase + ToStr(id) + "/" + action, headers, body)
  }

  function AcceptRequest(id: JsValue, token: string): (r: Request)
    ensures r.httpMethod == "POST" && r.body == NoBody && Authorized(r, token)
  {
    ActionRequest(id, "accept", Bearer(token), NoBody)
  }

  function StartProgressRequest(id: JsValue, token: string): (r: Request)
    ensures r.httpMethod == "POST" && Authorized(r, token)
    ensures r.body.JsonBody? && Prop(r.body.value, "comment") == JStr(StartComment)
  {
    ActionRequest(id, "start-progress", JsonBearer(token),
                  JsonBody(JObj(map["comment" := JStr(StartComment)])))
  }

  /** The upload of the picked file as the `document` field of a `FormData`. */
  function UploadRequest(id: JsValue, token: string, file: File): (r: Request)
    ensures r.httpMethod == "POST" && Authorized(r, token)
    ensures r.body.FormBody? && r.body.fields == [("document", file)]
  {
    ActionRequest(id, "upload-resolution", Bearer(token), FormBody([("document", file)]))
  }

  /** The resolve request; `key` is the body's one field name, which differs between
      the dashboards. */
  function ResolveRequest(id: JsValue, token: string, key: string): (r: Request)
    ensures r.httpMethod == "POST" && Authorized(r, token)
    ensures r.body.JsonBody? && Prop(r.body.value, key) == JStr(ResolutionText)
  {
    ActionRequest(id, "resolve", JsonBearer(token), JsonBody(JObj(map[key := JStr(ResolutionText)])))
  }

  function DeclineRequest(id: JsValue, token: string, reason: string): (r: Request)
    ensures r.httpMethod == "POST" && Authorized(r, token)
    ensures r.body.JsonBody? && Prop(r.body.value, "reason") == JStr(reason)
  {
    ActionRequest(id, "decline", JsonBearer(token), JsonBody(JObj(map["reason" := JStr(reason)])))
  }

  /** Requests for different actions never coincide, so a trace says which was sent. */
  lemma ActionRequestsDiffer(id: JsValue, a: string, b: string, h: map<string, string>, body: Body)
    requires a != b
    ensures ActionRequest(id, a, h, body).url != ActionRequest(id, b, h, body).url
  {
    var p := ApiBase + ToStr(id) + "/";
    assert ActionRequest(id, a, h, body).url == p + a;
    assert ActionRequest(id, b, h, body).url == p + b;
    assert (p + a)[|p|..] == a;
    assert (p + b)[|p|..] == b;
  }

  // ---------------------------------------------------------------- list replies

  /** How a list reply settles: the delivered `grievances` and, when truthy, `stats`;
      a 401 (on the dashboard that distinguishes it); or any other failure. */
  datatype ListOutcome = Loaded(grievances: JsValue, stats: Option<JsValue>) | Unauthorized | Failed

  /** Reading a list reply. A failed `fetch`, a non-ok status, a body that is not JSON
      and a `null` body all fail; with `handles401` a 401 is told apart. */
  function ListResult(reply: Reply, handles401: bool): (r: ListOutcome)
    ensures r.Loaded? ==> Succeeded(reply)
    ensures r.Unauthorized? <==> handles401 && reply.Answered? && reply.response.status == 401
    ensures r.Loaded? && r.stats.Some? ==> IsTruthy(r.stats.value)
    ensures r.Loaded? <==> Succeeded(reply) && reply.response.json.Some? && !IsNullish(reply.response.json.value)
    ensures Succeeded(reply) && reply.response.json.Some? && !IsNullish(reply.response.json.value) ==>
              var data := reply.response.json.value;
              r == Loaded(Prop(data, "grievances"),
                          if IsTruthy(Prop(data, "stats")) then Some(Prop(data, "stats")) else None)
  {
    match reply
    case NetworkFailure => Failed
    case Answered(response) =>
      if !response.Ok() then (if handles401 && response.status == 401 then Unauthorized else Failed)
      else
        match response.json
        case None => Failed
        case Some(data) =>
          if IsNullish(data) then Failed
          else
            var stats := Prop(data, "stats");
            Loaded(Prop(data, "grievances"), if IsTruthy(stats) then Some(stats) else None)
  }

  /** The dashboard that does not tell a 401 apart reads every reply as the other one
      does, except that a 401 is an ordinary failure. */
  lemma ListResultWithout401(reply: Reply)
    ensures ListResult(reply, false) == (if ListResult(reply, true).Unauthorized? then Failed else ListResult(reply, true))
  {
  }

  // ---------------------------------------------------------------- tab-gated actions

  /** What a button on a grievance row does. */
  datatype Action = Accept | Decline | StartProgress | Resolve | Chat

  /** A button: its caption and its action. */
  datatype Button = Button(caption: string, effect: Action)

  /** The actions both dashboards offer on a tab, as a set. */
  function TabActions(t: Tab): (r: set<Action>)
    ensures Accept in r <==> t == Pending
    ensures Decline in r <==> t == Pending
    ensures StartProgress in r <==> t == Assigned
    ensures Resolve in r <==> t == InProgress
    ensures Chat in r <==> t == InProgress
  {
    match t
    case Pending => {Accept, Decline}
    case Assigned => {StartProgress}
    case InProgress => {Resolve, Chat}
    case Resolved => {}
  }

  /** `t` follows, in the workflow, the tab on which `a` is offered. */
  function AdvancesFrom(a: Action, t: Tab): (r: bool)
    ensures r <==> match a
                   case Accept | Decline => t == Assigned
                   case StartProgress => t == InProgress
                   case Resolve | Chat => t == Resolved
  {
    var offered := match a
      case Accept | Decline => Pending
      case StartProgress => Assigned
      case Resolve | Chat => InProgress;
    assert a in TabActions(offered);
    forall u :: a in TabActions(u) ==> Successor(u) == Some(t)
  }

  /** The actions of a row of buttons. */
  function ActionsOf(buttons: seq<Button>): set<Action> {
    set i | 0 <= i < |buttons| :: buttons[i].effect
  }

  // ---------------------------------------------------------------- decline

  /** The Decline button is enabled while the trimmed reason is non-empty. */
  predicate DeclineEnabled(reason: string) {
    Trim(reason) != ""
  }

  /** The Decline button is enabled exactly when the reason holds a character that is
      not white space. */
  lemma DeclineEnabledIff(reason: string)
    ensures DeclineEnabled(reason) <==> exists i :: 0 <= i < |reason| && !IsWhiteSpace(reason[i])
  {
  }

  // ---------------------------------------------------------------- the board state

  /** The state a dashboard keeps, field by field; `inFlight` lists, oldest first, the
      tabs whose list requests have been sent and not yet settled (each settles into
      the tab its request was sent for). */
  datatype Board = Board(employeeId: JsValue, email: JsValue, activeTab: Tab, searchQuery: string,
                         grievances: Buckets, stats: JsValue, loading: bool, error: Option<string>,
                         selectedGrievance: JsValue, showDeclineModal: bool, declineReason: string,
                         showChat: bool, inFlight: seq<Tab>)

  /** The first render's state. */
  const InitialBoard := Board(JStr(""), JStr(""), Pending, "", EmptyBuckets, InitialStats, true, None,
                              JNull, false, "", false, [])

  /** The synchronous part of `fetchGrievances`: `loading` on and the error cleared;
      then without a credential the fixed error text and `loading` off, and with one
      the list request for the current tab goes out. */
  function StartFetch(b: Board, token: Option<string>): (r: Board)
    ensures r.grievances == b.grievances && r.stats == b.stats && r.activeTab == b.activeTab
    ensures r.loading <==> Present(token)
    ensures r.error == (if Present(token) then None else Some(LoadErrorText))
    ensures r.inFlight == b.inFlight + (if Present(token) then [b.activeTab] else [])
    ensures r.(loading := b.loading, error := b.error, inFlight := b.inFlight) == b
  {
    var started := b.(loading := true, error := None);
    if !Present(token) then started.(error := Some(LoadErrorText), loading := false)
    else started.(inFlight := b.inFlight + [b.activeTab])
  }

  /** The request `StartFetch` sends, if any. */
  function FetchTrace(department: string, b: Board, token: Option<string>): (r: seq<Request>)
    ensures |r| <= 1
    ensures r != [] <==> Present(token)
    ensures r != [] ==> r[0].url == ApiBase + "department/" + department + "/" + TabName(b.activeTab)
  {
    if Present(token) then [ListRequest(department, b.activeTab, token.value)] else []
  }

  /** The oldest list request settles: only the bucket of the tab it was sent for
      is replaced, and `stats` only when the reply carried them; a failure sets the
      fixed error text; `loading` ends off either way. */
  function FinishFetch(b: Board, outcome: ListOutcome): (r: Board)
    requires |b.inFlight| > 0
    ensures !r.loading && r.inFlight == b.inFlight[1..]
    ensures forall u :: u != b.inFlight[0] ==> r.grievances.Get(u) == b.grievances.Get(u)
    ensures outcome.Loaded? ==> r.grievances.Get(b.inFlight[0]) == outcome.grievances
    ensures outcome.Loaded? ==> r.stats == (if outcome.stats.Some? then outcome.stats.value else b.stats)
    ensures !outcome.Loaded? ==> r.grievances == b.grievances && r.stats == b.stats
    ensures r.error == (if outcome.Failed? then Some(LoadErrorText) else b.error)
    ensures r.(grievances := b.grievances, stats := b.stats, loading := b.loading, error := b.error,
               inFlight := b.inFlight) == b
  {
    var tab := b.inFlight[0];
    var settled := b.(loading := false, inFlight := b.inFlight[1..]);
    match outcome
    case Loaded(g, stats) =>
      settled.(grievances := b.grievances.With(tab, g), stats := if stats.Some? then stats.value else b.stats)
    case Unauthorized => settled
    case Failed => settled.(error := Some(LoadErrorText))
  }

  /** Two list requests for different tabs, settled with data in the order they were
      sent, fill exactly those two buckets: the refresh a handler sends and the one
      its tab switch sends do not overwrite each other. */
  lemma TwoFetchesFillTwoBuckets(b: Board, first: ListOutcome, second: ListOutcome)
    requires |b.inFlight| == 2 && b.inFlight[0] != b.inFlight[1]
    requires first.Loaded? && second.Loaded?
    ensures var r := FinishFetch(FinishFetch(b, first), second);
            r.grievances.Get(b.inFlight[0]) == first.grievances
            && r.grievances.Get(b.inFlight[1]) == second.grievances
            && (forall u :: u != b.inFlight[0] && u != b.inFlight[1] ==> r.grievances.Get(u) == b.grievances.Get(u))
            && !r.loading && r.inFlight == []
  {
    var mid := FinishFetch(b, first);
    assert mid.inFlight == [b.inFlight[1]];
  }
}

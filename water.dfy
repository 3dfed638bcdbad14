/** The Water department dashboard: the effect that loads the current tab, the list
    fetch with its 401 handling, the accept / start-progress / resolve / decline
    handlers, the decline modal, the search filter and the buttons each tab shows. */
module Water {
  import opened Common
  import opened JsStrings
  import opened JsValues
  import opened Http
  import opened Environment
  import opened AuthContext
  import opened Grievances

  const Department := "Water"
  const StartProgressError := "Failed to start progress"
  const DeclineError := "Failed to decline grievance. Please try again."
  /** The field name of the resolve request's body on this dashboard. */
  const ResolveKey := "resolutionMessage"

  // ---------------------------------------------------------------- the effect

  /** The effect on `[user, navigate, activeTab]`: without a user only a navigation
      to `/login`; with one, the user's `id` and `email` are shown and the current
      tab is fetched. */
  function Effect(b: Board, user: JsValue, token: Option<string>): (r: Board)
    ensures r.grievances == b.grievances && r.stats == b.stats && r.activeTab == b.activeTab
    ensures !IsTruthy(user) ==> r == b
    ensures IsTruthy(user) ==> r.employeeId == Prop(user, "id") && r.email == Prop(user, "email")
    ensures r.inFlight == b.inFlight + (if IsTruthy(user) && Present(token) then [b.activeTab] else [])
  {
    if !IsTruthy(user) then b
    else StartFetch(b.(employeeId := Prop(user, "id"), email := Prop(user, "email")), token)
  }

  /** The requests the effect sends. */
  function EffectTrace(b: Board, user: JsValue, token: Option<string>): seq<Request> {
    if IsTruthy(user) then FetchTrace(Department, b, token) else []
  }

  /** The navigations the effect makes. */
  function EffectRoutes(user: JsValue): seq<string> {
    if IsTruthy(user) then [] else ["/login"]
  }

  /** `setActiveTab(t)`: the tab is set, and the effect runs again only when it
      changed. */
  function SwitchTab(b: Board, t: Tab, user: JsValue, token: Option<string>): (r: Board)
    ensures r.activeTab == t
    ensures r.grievances == b.grievances && r.stats == b.stats
    ensures r.inFlight == b.inFlight + (if t != b.activeTab && IsTruthy(user) && Present(token) then [t] else [])
    ensures t == b.activeTab ==> r == b
  {
    if t == b.activeTab then b else Effect(b.(activeTab := t), user, token)
  }

  /** The requests a tab switch sends. */
  function SwitchTrace(b: Board, t: Tab, user: JsValue, token: Option<string>): seq<Request> {
    if t == b.activeTab then [] else EffectTrace(b.(activeTab := t), user, token)
  }

  /** The navigations a tab switch makes. */
  function SwitchRoutes(b: Board, t: Tab, user: JsValue): seq<string> {
    if t == b.activeTab then [] else EffectRoutes(user)
  }

  /** A handler that refreshes and then switches to `t` sends the list request for the
      tab current when it was called, then (if `t` is another tab) the one for `t`,
      and both settle into their own buckets in that order. */
  lemma RefreshThenSwitch(b: Board, t: Tab, user: JsValue, token: Option<string>)
    requires Present(token) && IsTruthy(user)
    ensures SwitchTab(StartFetch(b, token), t, user, token).inFlight
         == b.inFlight + [b.activeTab] + (if t != b.activeTab then [t] else [])
    ensures FetchTrace(Department, b, token) + SwitchTrace(StartFetch(b, token), t, user, token)
         == [ListRequest(Department, b.activeTab, token.value)]
            + (if t != b.activeTab then [ListRequest(Department, t, token.value)] else [])
  {
  }

  // ---------------------------------------------------------------- decline

  /** A declined grievance: the modal closed, the reason cleared, the current tab
      fetched again and the selection cleared. */
  function Declined(b: Board, token: Option<string>): (r: Board)
    ensures !r.showDeclineModal && r.declineReason == "" && r.selectedGrievance == JNull
    ensures r.grievances == b.grievances && r.stats == b.stats && r.activeTab == b.activeTab
    ensures r.inFlight == b.inFlight + (if Present(token) then [b.activeTab] else [])
  {
    StartFetch(b.(showDeclineModal := false, declineReason := ""), token).(selectedGrievance := JNull)
  }

  /** The decline request is sent when there is a credential and the grievance is not
      `null`/`undefined` (reading its `_id` would throw). */
  predicate DeclineSent(grievance: JsValue, token: Option<string>) {
    Present(token) && !IsNullish(grievance)
  }

  /** `handleDecline(grievance)` on the board `b`: success is `Declined`; every failure
      (no credential, a missing grievance, a failed request) sets the decline error
      and keeps the modal and the reason. */
  function DeclineBoard(b: Board, grievance: JsValue, token: Option<string>, reply: Reply): (r: Board)
    ensures DeclineSent(grievance, token) && Succeeded(reply) ==> r == Declined(b, token)
    ensures !(DeclineSent(grievance, token) && Succeeded(reply)) ==>
              r.error == Some(DeclineError) && r.showDeclineModal == b.showDeclineModal
              && r.declineReason == b.declineReason && r.grievances == b.grievances
              && r.inFlight == b.inFlight
  {
    if DeclineSent(grievance, token) && Succeeded(reply) then Declined(b, token)
    else b.(error := Some(DeclineError))
  }

  /** The requests `handleDecline(grievance)` sends. */
  function DeclineTrace(b: Board, grievance: JsValue, token: Option<string>, reply: Reply): (r: seq<Request>)
    ensures DeclineSent(grievance, token) ==>
              |r| >= 1 && r[0] == DeclineRequest(Prop(grievance, "_id"), token.value, b.declineReason)
    ensures !DeclineSent(grievance, token) ==> r == []
  {
    if !DeclineSent(grievance, token) then []
    else
      [DeclineRequest(Prop(grievance, "_id"), token.value, b.declineReason)]
      + (if Succeeded(reply) then FetchTrace(Department, b, token) else [])
  }

  // ---------------------------------------------------------------- search filter

  /** `grievance?.<field>?.toLowerCase() || ''`: the empty string for a missing
      grievance or field, the lower-cased field for a string, and `None` for any other
      value, on which calling `toLowerCase` throws a `TypeError`. */
  function SearchKey(g: JsValue, field: string): (r: Option<string>)
    ensures r.None? <==> !IsNullish(Prop(g, field)) && !Prop(g, field).JStr?
    ensures IsNullish(Prop(g, field)) ==> r == Some("")
    ensures Prop(g, field).JStr? ==> r == Some(ToLower(Prop(g, field).s))
    ensures r.Some? ==> IsLowerCase(r.value)
  {
    var v := Prop(g, field);
    if IsNullish(v) then Some("") else if v.JStr? then Some(ToLower(v.s)) else None
  }

  /** The filter's test for one grievance against the query `q`; `None` is a thrown
      `TypeError`. The `title` is only read when the `grievanceId` does not match. */
  function Matches(g: JsValue, q: string): (r: Option<bool>)
    ensures r.None? <==> SearchKey(g, "grievanceId").None?
                         || (!Includes(SearchKey(g, "grievanceId").value, ToLower(q)) && SearchKey(g, "title").None?)
    ensures SearchKey(g, "grievanceId").Some? && Includes(SearchKey(g, "grievanceId").value, ToLower(q)) ==>
              r == Some(true)
    ensures SearchKey(g, "grievanceId").Some? && SearchKey(g, "title").Some? ==>
              (r == Some(true) <==> Includes(SearchKey(g, "grievanceId").value, ToLower(q))
                                    || Includes(SearchKey(g, "title").value, ToLower(q)))
  {
    var query := ToLower(q);
    match SearchKey(g, "grievanceId")
    case None => None
    case Some(id) =>
      if Includes(id, query) then Some(true)
      else
        match SearchKey(g, "title")
        case None => None
        case Some(title) => Some(Includes(title, query))
  }

  /** `a` is `b` with some elements left out. */
  predicate IsSubsequence(a: seq<JsValue>, b: seq<JsValue>)
    decreases |b|
  {
    if |b| == 0 then |a| == 0
    else (|a| > 0 && a[0] == b[0] && IsSubsequence(a[1..], b[1..])) || IsSubsequence(a, b[1..])
  }

  /** `items.filter(...)`: `None` when the test throws on some item; otherwise the
      items the test keeps, in their order. */
  function FilterItems(items: seq<JsValue>, q: string): (r: Option<seq<JsValue>>)
    decreases |items|
    ensures r.Some? <==> forall i :: 0 <= i < |items| ==> Matches(items[i], q).Some?
    ensures r.Some? ==> IsSubsequence(r.value, items)
    ensures r.Some? ==> forall x :: x in r.value <==> x in items && Matches(x, q) == Some(true)
  {
    if |items| == 0 then Some([])
    else
      var rest := FilterItems(items[1..], q);
      assert forall x :: x in items <==> x == items[0] || x in items[1..];
      assert (forall i :: 0 <= i < |items| ==> Matches(items[i], q).Some?) <==>
             Matches(items[0], q).Some? && forall i :: 0 <= i < |items[1..]| ==> Matches(items[1..][i], q).Some?;
      match Matches(items[0], q)
      case None => None
      case Some(keep) =>
        if rest.None? then None
        else if keep then
          assert ([items[0]] + rest.value)[1..] == rest.value;
          Some([items[0]] + rest.value)
        else Some(rest.value)
  }

  /** The filter keeps every matching item as often as it occurs, so two copies of one
      submission both stay. */
  lemma {:induction false} FilterCounts(items: seq<JsValue>, q: string)
    requires FilterItems(items, q).Some?
    ensures forall x :: multiset(FilterItems(items, q).value)[x]
                        == if Matches(x, q) == Some(true) then multiset(items)[x] else 0
  {
    if |items| > 0 {
      var head, tail := items[0], items[1..];
      var r, rest := FilterItems(items, q).value, FilterItems(tail, q).value;
      FilterCounts(tail, q);
      assert items == [head] + tail;
      assert multiset(items) == multiset{head} + multiset(tail);
      var keep := Matches(head, q) == Some(true);
      if keep {
        assert r == [head] + rest;
        assert multiset(r) == multiset{head} + multiset(rest);
      } else {
        assert multiset(r) == multiset(rest);
      }
      forall x
        ensures multiset(r)[x] == if Matches(x, q) == Some(true) then multiset(items)[x] else 0
      {
        assert multiset(rest)[x] == if Matches(x, q) == Some(true) then multiset(tail)[x] else 0;
        if x == head {
          assert multiset(r)[x] == (if keep then 1 else 0) + multiset(rest)[x];
        } else {
          assert multiset(r)[x] == multiset(rest)[x];
        }
      }
    }
  }

  /** `filteredGrievances`: the current bucket filtered by the query; a bucket that is
      not an array has no `filter` method and throws. */
  function FilteredGrievances(bucket: JsValue, q: string): (r: Option<seq<JsValue>>)
    ensures !bucket.JArr? ==> r.None?
    ensures bucket.JArr? ==> r == FilterItems(bucket.elems, q)
  {
    if bucket.JArr? then FilterItems(bucket.elems, q) else None
  }

  /** Against the empty query an item is kept exactly when its `grievanceId` can be
      read, and its `title` is never read. */
  lemma MatchesEmptyQuery(g: JsValue)
    ensures Matches(g, "") == if SearchKey(g, "grievanceId").Some? then Some(true) else None
  {
    assert ToLower("") == "";
    var k := SearchKey(g, "grievanceId");
    if k.Some? {
      IncludesEmpty(k.value);
    }
  }

  /** The empty query keeps every item exactly when no item has a `grievanceId` that
      is neither missing nor a string. */
  lemma {:induction false} EmptyQueryKeepsAll(items: seq<JsValue>)
    ensures FilterItems(items, "") == Some(items)
        <==> forall i :: 0 <= i < |items| ==> SearchKey(items[i], "grievanceId").Some?
  {
    if FilterItems(items, "") == Some(items) {
      assert forall i :: 0 <= i < |items| ==> Matches(items[i], "").Some?;
    }
    if |items| > 0 {
      EmptyQueryKeepsAll(items[1..]);
      MatchesEmptyQuery(items[0]);
      if forall i :: 0 <= i < |items| ==> SearchKey(items[i], "grievanceId").Some? {
        assert forall i :: 0 <= i < |items[1..]| ==> SearchKey(items[1..][i], "grievanceId").Some?;
        assert items == [items[0]] + items[1..];
      }
    }
  }

  /** Filtering a filtered list again with the same query changes nothing. */
  lemma {:induction false} FilterIdempotent(items: seq<JsValue>, q: string)
    requires FilterItems(items, q).Some?
    ensures FilterItems(FilterItems(items, q).value, q) == FilterItems(items, q)
  {
    if |items| > 0 {
      FilterIdempotent(items[1..], q);
      var rest := FilterItems(items[1..], q).value;
      if Matches(items[0], q) == Some(true) {
        assert FilterItems(items, q).value == [items[0]] + rest;
        assert ([items[0]] + rest)[1..] == rest;
      }
    }
  }

  // ---------------------------------------------------------------- issuing renders

  /** `n` copies of `u`. */
  function Copies(u: JsValue, n: nat): (r: seq<JsValue>)
    ensures |r| == n
  {
    if n == 0 then [] else Copies(u, n - 1) + [u]
  }

  // ---------------------------------------------------------------- buttons

  /** The buttons a grievance row shows on each tab, in order. */
  function Buttons(t: Tab): (r: seq<Button>)
    ensures r == [] <==> t == Resolved
    ensures forall i, j :: 0 <= i < j < |r| ==> r[i].effect != r[j].effect
  {
    match t
    case Pending => [Button("Accept", Accept), Button("Decline", Decline)]
    case Assigned => [Button("Start", StartProgress)]
    case InProgress => [Button("Chat", Chat), Button("Resolve", Resolve)]
    case Resolved => []
  }

  /** Each tab offers exactly the actions of its workflow step. */
  lemma ButtonsMatchTab(t: Tab)
    ensures ActionsOf(Buttons(t)) == TabActions(t)
  {
    var bs := Buttons(t);
    match t
    case Pending =>
      assert bs[0].effect == Accept && bs[1].effect == Decline;
    case Assigned =>
      assert bs[0].effect == StartProgress;
    case InProgress =>
      assert bs[0].effect == Chat && bs[1].effect == Resolve;
    case Resolved =>
  }

  // ---------------------------------------------------------------- the component

  class WaterDashboard {
    /** The session provider the dashboard reads `user` and `logout` from. */
    const auth: AuthProvider
    /** The component's state cells (`useState`), together. */
    var board: Board
    /** For each pending list request, oldest first, the `user` of the render that
        issued it: its 401 branch calls that render's `logout`. */
    var issuedBy: seq<JsValue>

    constructor (auth: AuthProvider)
      ensures this.auth == auth && board == InitialBoard && issuedBy == []
      ensures Valid()
    {
      this.auth := auth;
      board := InitialBoard;
      issuedBy := [];
    }

    /** Every pending list request has its issuing user recorded. */
    predicate Valid()
      reads this
    {
      |issuedBy| == |board.inFlight|
    }

    /** The list requests queued since the old state were issued from renders that
        saw the current `user`, and the older records are kept. */
    twostate predicate IssuedByCurrentUser()
      reads this, auth
    {
      |old(board.inFlight)| <= |board.inFlight|
      && issuedBy == old(issuedBy) + Copies(auth.user, |board.inFlight| - |old(board.inFlight)|)
    }

    /** The stored credential. */
    function Token(): Option<string>
      reads auth.browser`storage
    {
      auth.browser.GetItem("token")
    }

    /** The list shown: the current bucket filtered by the search query. */
    function Filtered(): (r: Option<seq<JsValue>>)
      reads this
      ensures r == FilteredGrievances(board.grievances.Get(board.activeTab), board.searchQuery)
      ensures r.Some? ==> board.grievances.Get(board.activeTab).JArr?
                          && IsSubsequence(r.value, board.grievances.Get(board.activeTab).elems)
    {
      FilteredGrievances(board.grievances.Get(board.activeTab), board.searchQuery)
    }

    /** The session provider's state and the browser's storage and history are as
        they were. */
    twostate predicate SessionUnchanged()
      reads auth, auth.browser`storage, auth.browser`history
    {
      auth.user == old(auth.user) && auth.tokenExpiryWarning == old(auth.tokenExpiryWarning)
      && auth.browser.storage == old(auth.browser.storage) && auth.browser.history == old(auth.browser.history)
    }

    /** The synchronous part of `fetchGrievances()`. */
    method IssueFetch()
      modifies this, auth.browser`requests
      ensures board == StartFetch(old(board), Token())
      ensures auth.browser.requests == old(auth.browser.requests) + FetchTrace(Department, old(board), Token())
      ensures IssuedByCurrentUser()
    {
      board := board.(loading := true, error := None);
      var token := auth.browser.GetItem("token");
      if !Present(token) {
        board := board.(error := Some(LoadErrorText), loading := false);
        return;
      }
      auth.browser.Send(ListRequest(Department, board.activeTab, token.value));
      board := board.(inFlight := board.inFlight + [board.activeTab]);
      issuedBy := issuedBy + [auth.user];
    }

    /** The oldest pending list request settles with `reply`. A 401 runs the `logout`
        of the render that issued the request, so the route is chosen by the user that
        render saw, and then navigates to `/login`; when `logout` throws, the error
        text is shown instead. */
    method SettleFetch(reply: Reply)
      requires |board.inFlight| > 0 && Valid()
      modifies this, auth.browser`storage, auth.browser`history, auth`user, auth`tokenExpiryWarning
      ensures !ListResult(reply, true).Unauthorized? ==>
                board == FinishFetch(old(board), ListResult(reply, true)) && SessionUnchanged()
      ensures ListResult(reply, true).Unauthorized? ==>
                auth.browser.storage == old(auth.browser.storage) - {"token", "user"}
                && auth.user == JNull && !auth.tokenExpiryWarning
      ensures ListResult(reply, true).Unauthorized? && LogoutRedirect(old(issuedBy[0])).Some? ==>
                board == FinishFetch(old(board), Unauthorized)
                && auth.browser.history == old(auth.browser.history) + [LogoutRedirect(old(issuedBy[0])).value, "/login"]
      ensures ListResult(reply, true).Unauthorized? && LogoutRedirect(old(issuedBy[0])).None? ==>
                board == FinishFetch(old(board), Failed)
                && auth.browser.history == old(auth.browser.history)
      ensures old(auth.SessionStored()) ==> auth.SessionStored()
      ensures issuedBy == old(issuedBy)[1..] && Valid()
    {
      var tab := board.inFlight[0];
      var issuer := issuedBy[0];
      var outcome := ListResult(reply, true);
      match outcome {
        case Loaded(g, s) =>
          board := board.(grievances := board.grievances.With(tab, g));
          if s.Some? {
            board := board.(stats := s.value);
          }
        case Unauthorized =>
          var c := auth.ClearSession(issuer);
          if c == Normal {
            auth.browser.Navigate("/login");
          } else {
            board := board.(error := Some(LoadErrorText));
          }
        case Failed =>
          board := board.(error := Some(LoadErrorText));
      }
      board := board.(loading := false, inFlight := board.inFlight[1..]);
      issuedBy := issuedBy[1..];
    }

    /** The effect, run on mount and whenever `user` or `activeTab` changes. */
    method RunEffect()
      modifies this, auth.browser`requests, auth.browser`history
      ensures IssuedByCurrentUser()
      ensures board == Effect(old(board), auth.user, Token())
      ensures auth.browser.requests == old(auth.browser.requests) + EffectTrace(old(board), auth.user, Token())
      ensures auth.browser.history == old(auth.browser.history) + EffectRoutes(auth.user)
    {
      if !IsTruthy(auth.user) {
        auth.browser.Navigate("/login");
        return;
      }
      board := board.(employeeId := Prop(auth.user, "id"), email := Prop(auth.user, "email"));
      IssueFetch();
    }

    /** `setActiveTab(t)`, from a tab click or a handler. */
    method SelectTab(t: Tab)
      modifies this, auth.browser`requests, auth.browser`history
      ensures IssuedByCurrentUser()
      ensures board == SwitchTab(old(board), t, auth.user, Token())
      ensures auth.browser.requests == old(auth.browser.requests) + SwitchTrace(old(board), t, auth.user, Token())
      ensures auth.browser.history == old(auth.browser.history) + SwitchRoutes(old(board), t, auth.user)
    {
      if t != board.activeTab {
        board := board.(activeTab := t);
        RunEffect();
      }
    }

    /** `fetchGrievances(); setActiveTab(t)`, how a successful accept or start-progress
        ends: the current tab is refreshed, then the tab switch runs the effect. */
    method RefreshAndSwitch(t: Tab)
      modifies this, auth.browser`requests, auth.browser`history
      ensures IssuedByCurrentUser()
      ensures board == SwitchTab(StartFetch(old(board), Token()), t, auth.user, Token())
      ensures auth.browser.requests == old(auth.browser.requests)
                + FetchTrace(Department, old(board), Token()) + SwitchTrace(old(board), t, auth.user, Token())
      ensures auth.browser.history == old(auth.browser.history) + SwitchRoutes(old(board), t, auth.user)
    {
      IssueFetch();
      SelectTab(t);
    }

    /** `handleAccept(grievance)`, `reply` being what the accept request settles to.
        Success refreshes the current tab and then switches to `assigned`; every
        failure changes nothing but the toast. */
    method HandleAccept(grievance: JsValue, reply: Reply)
      modifies this, auth.browser`requests, auth.browser`history
      ensures IssuedByCurrentUser()
      ensures var sent := Present(Token()) && !IsNullish(grievance);
              auth.browser.requests == old(auth.browser.requests)
                + (if sent then [AcceptRequest(Prop(grievance, "_id"), Token().value)] else [])
                + (if sent && Succeeded(reply)
                   then FetchTrace(Department, old(board), Token()) + SwitchTrace(old(board), Assigned, auth.user, Token())
                   else [])
      ensures var sent := Present(Token()) && !IsNullish(grievance);
              board == (if sent && Succeeded(reply)
                        then SwitchTab(StartFetch(old(board), Token()), Assigned, auth.user, Token())
                        else old(board))
      ensures var sent := Present(Token()) && !IsNullish(grievance);
              auth.browser.history == old(auth.browser.history)
                + (if sent && Succeeded(reply) then SwitchRoutes(old(board), Assigned, auth.user) else [])
      ensures Present(Token()) && !IsNullish(grievance) && Succeeded(reply) ==> AdvancesFrom(Accept, board.activeTab)
    {
      var token := auth.browser.GetItem("token");
      if !Present(token) || IsNullish(grievance) {
        return;
      }
      auth.browser.Send(AcceptRequest(Prop(grievance, "_id"), token.value));
      if !Succeeded(reply) {
        return;
      }
      RefreshAndSwitch(Assigned);
    }

    /** `handleStartProgress(grievanceId)`. Success refreshes and switches to
        `inProgress`; every failure, a missing credential included, sets the
        start-progress error. */
    method HandleStartProgress(grievanceId: JsValue, reply: Reply)
      modifies this, auth.browser`requests, auth.browser`history
      ensures IssuedByCurrentUser()
      ensures var sent := Present(Token());
              auth.browser.requests == old(auth.browser.requests)
                + (if sent then [StartProgressRequest(grievanceId, Token().value)] else [])
                + (if sent && Succeeded(reply)
                   then FetchTrace(Department, old(board), Token()) + SwitchTrace(old(board), InProgress, auth.user, Token())
                   else [])
      ensures var sent := Present(Token());
              board == (if sent && Succeeded(reply)
                        then SwitchTab(StartFetch(old(board), Token()), InProgress, auth.user, Token())
                        else old(board).(error := Some(StartProgressError)))
      ensures var sent := Present(Token());
              auth.browser.history == old(auth.browser.history)
                + (if sent && Succeeded(reply) then SwitchRoutes(old(board), InProgress, auth.user) else [])
      ensures Present(Token()) && Succeeded(reply) ==> AdvancesFrom(StartProgress, board.activeTab)
    {
      var token := auth.browser.GetItem("token");
      if !Present(token) {
        board := board.(error := Some(StartProgressError));
        return;
      }
      auth.browser.Send(StartProgressRequest(grievanceId, token.value));
      if !Succeeded(reply) {
        board := board.(error := Some(StartProgressError));
        return;
      }
      RefreshAndSwitch(InProgress);
    }

    /** `handleResolve(grievanceId)` followed by the file picker's `onchange` with
        `file` chosen (or none); `upload` and `resolve` are what the two requests
        settle to. The resolve request goes out only after a successful upload, and
        only a successful resolve refreshes; the tab stays. */
    method HandleResolve(grievanceId: JsValue, file: Option<File>, upload: Reply, resolve: Reply)
      modifies this, auth.browser`requests
      ensures IssuedByCurrentUser()
      ensures var picked := Present(Token()) && file.Some?;
              auth.browser.requests == old(auth.browser.requests)
                + (if picked then [UploadRequest(grievanceId, Token().value, file.value)] else [])
                + (if picked && Succeeded(upload) then [ResolveRequest(grievanceId, Token().value, ResolveKey)] else [])
                + (if picked && Succeeded(upload) && Succeeded(resolve)
                   then FetchTrace(Department, old(board), Token()) else [])
      ensures var picked := Present(Token()) && file.Some?;
              board == (if picked && Succeeded(upload) && Succeeded(resolve)
                        then StartFetch(old(board), Token()) else old(board))
      ensures board.activeTab == old(board.activeTab)
    {
      var token := auth.browser.GetItem("token");
      if !Present(token) || file.None? {
        return;
      }
      auth.browser.Send(UploadRequest(grievanceId, token.value, file.value));
      if !Succeeded(upload) {
        return;
      }
      auth.browser.Send(ResolveRequest(grievanceId, token.value, ResolveKey));
      if !Succeeded(resolve) {
        return;
      }
      IssueFetch();
    }

    /** `handleDecline(grievance)`. */
    method HandleDecline(grievance: JsValue, reply: Reply)
      modifies this, auth.browser`requests
      ensures IssuedByCurrentUser()
      ensures board == DeclineBoard(old(board), grievance, Token(), reply)
      ensures auth.browser.requests == old(auth.browser.requests) + DeclineTrace(old(board), grievance, Token(), reply)
    {
      var token := auth.browser.GetItem("token");
      if !Present(token) || IsNullish(grievance) {
        board := board.(error := Some(DeclineError));
        return;
      }
      auth.browser.Send(DeclineRequest(Prop(grievance, "_id"), token.value, board.declineReason));
      if !Succeeded(reply) {
        board := board.(error := Some(DeclineError));
        return;
      }
      CloseDeclined();
    }

    /** The success branch of `handleDecline`: the modal closes, the reason is
        cleared, the list is refreshed and the selection cleared. */
    method CloseDeclined()
      modifies this, auth.browser`requests
      ensures IssuedByCurrentUser()
      ensures board == Declined(old(board), Token())
      ensures auth.browser.requests == old(auth.browser.requests) + FetchTrace(Department, old(board), Token())
    {
      board := board.(showDeclineModal := false, declineReason := "");
      IssueFetch();
      board := board.(selectedGrievance := JNull);
    }

    /** A click on the modal's Decline button: it is there only while the modal is
        open, and enabled only while the trimmed reason is non-empty. */
    method ClickDecline(reply: Reply)
      modifies this, auth.browser`requests
      ensures IssuedByCurrentUser()
      ensures var enabled := old(board.showDeclineModal) && DeclineEnabled(old(board.declineReason));
              board == (if enabled then DeclineBoard(old(board), old(board.selectedGrievance), Token(), reply)
                        else old(board))
      ensures var enabled := old(board.showDeclineModal) && DeclineEnabled(old(board.declineReason));
              auth.browser.requests == old(auth.browser.requests)
                + (if enabled then DeclineTrace(old(board), old(board.selectedGrievance), Token(), reply) else [])
    {
      if board.showDeclineModal && DeclineEnabled(board.declineReason) {
        HandleDecline(board.selectedGrievance, reply);
      }
    }

    /** A row's Decline button: the row is selected and the modal opened. */
    method OpenDecline(item: JsValue)
      modifies this
      ensures issuedBy == old(issuedBy)
      ensures board == old(board).(selectedGrievance := item, showDeclineModal := true)
    {
      board := board.(selectedGrievance := item, showDeclineModal := true);
    }

    /** The modal's Cancel button: closed, and the reason cleared. */
    method CancelDecline()
      modifies this
      ensures issuedBy == old(issuedBy)
      ensures board == old(board).(showDeclineModal := false, declineReason := "")
    {
      board := board.(showDeclineModal := false, declineReason := "");
    }

    /** Typing in the reason box. */
    method SetDeclineReason(text: string)
      modifies this
      ensures issuedBy == old(issuedBy)
      ensures board == old(board).(declineReason := text)
    {
      board := board.(declineReason := text);
    }

    /** Typing in the search box. */
    method SetSearchQuery(text: string)
      modifies this
      ensures issuedBy == old(issuedBy)
      ensures board == old(board).(searchQuery := text)
    {
      board := board.(searchQuery := text);
    }

    /** A row click selects its grievance; the details pane's close button passes
        `null`. */
    method SelectGrievance(item: JsValue)
      modifies this
      ensures issuedBy == old(issuedBy)
      ensures board == old(board).(selectedGrievance := item)
    {
      board := board.(selectedGrievance := item);
    }

    /** `handleViewChat(grievance)`. */
    method ViewChat(grievance: JsValue)
      modifies this
      ensures issuedBy == old(issuedBy)
      ensures board == old(board).(selectedGrievance := grievance, showChat := true)
    {
      board := board.(selectedGrievance := grievance, showChat := true);
    }
  }
}

/** The Electricity department dashboard: the same workflow as the Water dashboard,
    with the differences its own code has: the shown ids come from storage, a 401 is
    an ordinary failure, failed actions only raise a toast, the resolve body's key is
    `resolution`, a resolve switches to the `resolved` tab, and its own logout. */
module Electricity {
  import opened Common
  import opened JsStrings
  import opened JsValues
  import opened Http
  import opened Environment
  import opened Grievances
  import Water

  const Department := "Electricity"
  /** The field name of the resolve request's body on this dashboard. */
  const ResolveKey := "resolution"
  /** What `localStorage.getItem(key) || "N/A"` shows for an absent or empty item. */
  const NotAvailable := "N/A"
  /** The keys the dashboard's logout removes. */
  const LogoutKeys := {"employeeId", "email", "token"}

  /** The storage items the dashboard reads. */
  datatype StoredItems = StoredItems(employeeId: Option<string>, email: Option<string>, token: Option<string>)

  /** `item || "N/A"`. */
  function OrNotAvailable(item: Option<string>): (r: string)
    ensures Present(item) ==> r == item.value
    ensures !Present(item) ==> r == NotAvailable
  {
    if Present(item) then item.value else NotAvailable
  }

  // ---------------------------------------------------------------- the effect

  /** The effect on `[activeTab]`: the stored employee id and email are shown (or
      `N/A`) and the current tab is fetched; there is no check for a user. */
  function Effect(b: Board, items: StoredItems): (r: Board)
    ensures r.grievances == b.grievances && r.stats == b.stats && r.activeTab == b.activeTab
    ensures r.employeeId == JStr(OrNotAvailable(items.employeeId)) && r.email == JStr(OrNotAvailable(items.email))
    ensures r.inFlight == b.inFlight + (if Present(items.token) then [b.activeTab] else [])
  {
    StartFetch(b.(employeeId := JStr(OrNotAvailable(items.employeeId)), email := JStr(OrNotAvailable(items.email))),
               items.token)
  }

  /** `setActiveTab(t)`: the tab is set, and the effect runs again only when it
      changed. */
  function SwitchTab(b: Board, t: Tab, items: StoredItems): (r: Board)
    ensures r.activeTab == t
    ensures r.grievances == b.grievances && r.stats == b.stats
    ensures r.inFlight == b.inFlight + (if t != b.activeTab && Present(items.token) then [t] else [])
    ensures t == b.activeTab ==> r == b
  {
    if t == b.activeTab then b else Effect(b.(activeTab := t), items)
  }

  /** The requests a tab switch sends. */
  function SwitchTrace(b: Board, t: Tab, items: StoredItems): seq<Request> {
    if t == b.activeTab then [] else FetchTrace(Department, b.(activeTab := t), items.token)
  }

  /** A handler that refreshes and then switches to `t` fetches the tab current when
      it was called, then (if `t` is another tab) `t`, in that order. */
  lemma RefreshThenSwitch(b: Board, t: Tab, items: StoredItems)
    requires Present(items.token)
    ensures SwitchTab(StartFetch(b, items.token), t, items).inFlight
         == b.inFlight + [b.activeTab] + (if t != b.activeTab then [t] else [])
    ensures FetchTrace(Department, b, items.token) + SwitchTrace(StartFetch(b, items.token), t, items)
         == [ListRequest(Department, b.activeTab, items.token.value)]
            + (if t != b.activeTab then [ListRequest(Department, t, items.token.value)] else [])
  {
  }

  // ---------------------------------------------------------------- decline

  /** A declined grievance: the modal closed, the reason cleared and the current tab
      fetched again; the selection is kept. */
  function Declined(b: Board, token: Option<string>): (r: Board)
    ensures !r.showDeclineModal && r.declineReason == "" && r.selectedGrievance == b.selectedGrievance
    ensures r.grievances == b.grievances && r.stats == b.stats && r.activeTab == b.activeTab
    ensures r.inFlight == b.inFlight + (if Present(token) then [b.activeTab] else [])
  {
    StartFetch(b.(showDeclineModal := false, declineReason := ""), token)
  }

  /** The two dashboards close the modal the same way; the Water one also clears
      the selection. */
  lemma DeclinedDiffersFromWater(b: Board, token: Option<string>)
    ensures Water.Declined(b, token) == Declined(b, token).(selectedGrievance := JNull)
  {
  }

  /** `handleDecline(grievanceId)` on the board `b`: success is `Declined`; a failure
      only raises a toast, so the modal stays open with its reason. */
  function DeclineBoard(b: Board, token: Option<string>, reply: Reply): (r: Board)
    ensures Present(token) && Succeeded(reply) ==> r == Declined(b, token)
    ensures !(Present(token) && Succeeded(reply)) ==> r == b
  {
    if Present(token) && Succeeded(reply) then Declined(b, token) else b
  }

  /** The requests `handleDecline(grievanceId)` sends. */
  function DeclineTrace(b: Board, grievanceId: JsValue, token: Option<string>, reply: Reply): (r: seq<Request>)
    ensures Present(token) ==> |r| >= 1 && r[0] == DeclineRequest(grievanceId, token.value, b.declineReason)
    ensures !Present(token) ==> r == []
  {
    if !Present(token) then []
    else
      [DeclineRequest(grievanceId, token.value, b.declineReason)]
      + (if Succeeded(reply) then FetchTrace(Department, b, token) else [])
  }

  // ---------------------------------------------------------------- buttons

  /** The buttons a grievance row shows on each tab, in order. */
  function Buttons(t: Tab): (r: seq<Button>)
    ensures r == [] <==> t == Resolved
    ensures forall i, j :: 0 <= i < j < |r| ==> r[i].effect != r[j].effect
  {
    match t
    case Pending => [Button("Accept", Accept), Button("Decline", Decline)]
    case Assigned => [Button("Start Progress", StartProgress)]
    case InProgress => [Button("Mark as Resolved", Resolve), Button("Chat", Chat)]
    case Resolved => []
  }

  /** Each tab offers exactly the actions of its workflow step. */
  lemma ButtonsMatchTab(t: Tab)
    ensures ActionsOf(Buttons(t)) == TabActions(t)
  {
    var bs := Buttons(t);
    match t
    case Pending =>
      assert bs[0].effect == Accept && bs[1].effect == Decline;
    case Assigned =>
      assert bs[0].effect == StartProgress;
    case InProgress =>
      assert bs[0].effect == Resolve && bs[1].effect == Chat;
    case Resolved =>
  }

  /** Both dashboards offer the same actions on every tab, under their own captions. */
  lemma SameActionsAsWater(t: Tab)
    ensures ActionsOf(Buttons(t)) == ActionsOf(Water.Buttons(t))
  {
    ButtonsMatchTab(t);
    Water.ButtonsMatchTab(t);
  }

  // ---------------------------------------------------------------- the component

  class ElectricityDashboard {
    const browser: Browser
    /** The component's state cells (`useState`), together. */
    var board: Board

    constructor (browser: Browser)
      ensures this.browser == browser && board == InitialBoard
    {
      this.browser := browser;
      board := InitialBoard;
    }

    /** The storage items the dashboard reads. */
    function Items(): StoredItems
      reads browser`storage
    {
      StoredItems(browser.GetItem("employeeId"), browser.GetItem("email"), browser.GetItem("token"))
    }

    /** The stored credential. */
    function Token(): Option<string>
      reads browser`storage
    {
      browser.GetItem("token")
    }

    /** The synchronous part of `fetchGrievances()`. */
    method IssueFetch()
      modifies this, browser`requests
      ensures board == StartFetch(old(board), Token())
      ensures browser.requests == old(browser.requests) + FetchTrace(Department, old(board), Token())
    {
      board := board.(loading := true, error := None);
      var token := browser.GetItem("token");
      if !Present(token) {
        board := board.(error := Some(LoadErrorText), loading := false);
        return;
      }
      browser.Send(ListRequest(Department, board.activeTab, token.value));
      board := board.(inFlight := board.inFlight + [board.activeTab]);
    }

    /** The oldest pending list request settles with `reply`; a 401 is a failure like
        any other, and nothing outside the dashboard changes. */
    method SettleFetch(reply: Reply)
      requires |board.inFlight| > 0
      modifies this
      ensures board == FinishFetch(old(board), ListResult(reply, false))
      ensures !ListResult(reply, false).Unauthorized?
    {
      var tab := board.inFlight[0];
      var outcome := ListResult(reply, false);
      match outcome {
        case Loaded(g, s) =>
          board := board.(grievances := board.grievances.With(tab, g));
          if s.Some? {
            board := board.(stats := s.value);
          }
        case Unauthorized =>
        case Failed =>
          board := board.(error := Some(LoadErrorText));
      }
      board := board.(loading := false, inFlight := board.inFlight[1..]);
    }

    /** The effect, run on mount and whenever `activeTab` changes. */
    method RunEffect()
      modifies this, browser`requests
      ensures board == Effect(old(board), Items())
      ensures browser.requests == old(browser.requests) + FetchTrace(Department, old(board), Token())
    {
      board := board.(employeeId := JStr(OrNotAvailable(browser.GetItem("employeeId"))),
                      email := JStr(OrNotAvailable(browser.GetItem("email"))));
      IssueFetch();
    }

    /** `setActiveTab(t)`, from a tab click or a handler. */
    method SelectTab(t: Tab)
      modifies this, browser`requests
      ensures board == SwitchTab(old(board), t, Items())
      ensures browser.requests == old(browser.requests) + SwitchTrace(old(board), t, Items())
    {
      if t != board.activeTab {
        board := board.(activeTab := t);
        RunEffect();
      }
    }

    /** `handleAccept(grievanceId)`: success refreshes the current tab and switches
        to `assigned`; a failure only raises a toast. */
    method HandleAccept(grievanceId: JsValue, reply: Reply)
      modifies this, browser`requests
      ensures browser.requests == old(browser.requests)
                + (if Present(Token()) then [AcceptRequest(grievanceId, Token().value)] else [])
                + (if Present(Token()) && Succeeded(reply)
                   then FetchTrace(Department, old(board), Token()) + SwitchTrace(old(board), Assigned, Items())
                   else [])
      ensures board == (if Present(Token()) && Succeeded(reply)
                        then SwitchTab(StartFetch(old(board), Token()), Assigned, Items())
                        else old(board))
      ensures Present(Token()) && Succeeded(reply) ==> AdvancesFrom(Accept, board.activeTab)
    {
      var token := browser.GetItem("token");
      if !Present(token) {
        return;
      }
      browser.Send(AcceptRequest(grievanceId, token.value));
      if !Succeeded(reply) {
        return;
      }
      IssueFetch();
      SelectTab(Assigned);
    }

    /** `handleDecline(grievanceId)`. */
    method HandleDecline(grievanceId: JsValue, reply: Reply)
      modifies this, browser`requests
      ensures board == DeclineBoard(old(board), Token(), reply)
      ensures browser.requests == old(browser.requests) + DeclineTrace(old(board), grievanceId, Token(), reply)
    {
      var token := browser.GetItem("token");
      if !Present(token) {
        return;
      }
      browser.Send(DeclineRequest(grievanceId, token.value, board.declineReason));
      if !Succeeded(reply) {
        return;
      }
      board := board.(showDeclineModal := false, declineReason := "");
      IssueFetch();
    }

    /** A click on the modal's Decline button, which calls
        `handleDecline(selectedGrievance._id)`: it is there only while the modal is
        open and enabled only while the trimmed reason is non-empty, and with no
        selection reading `_id` throws before anything is sent. */
    method ClickDecline(reply: Reply)
      modifies this, browser`requests
      ensures var go := old(board.showDeclineModal) && DeclineEnabled(old(board.declineReason))
                        && !IsNullish(old(board.selectedGrievance));
              board == (if go then DeclineBoard(old(board), Token(), reply) else old(board))
      ensures var go := old(board.showDeclineModal) && DeclineEnabled(old(board.declineReason))
                        && !IsNullish(old(board.selectedGrievance));
              browser.requests == old(browser.requests)
                + (if go then DeclineTrace(old(board), Prop(old(board.selectedGrievance), "_id"), Token(), reply)
                   else [])
    {
      if board.showDeclineModal && DeclineEnabled(board.declineReason) && !IsNullish(board.selectedGrievance) {
        HandleDecline(Prop(board.selectedGrievance, "_id"), reply);
      }
    }

    /** `handleStartProgress(grievanceId)`: success refreshes and switches to
        `inProgress`; a failure only raises a toast. */
    method HandleStartProgress(grievanceId: JsValue, reply: Reply)
      modifies this, browser`requests
      ensures browser.requests == old(browser.requests)
                + (if Present(Token()) then [StartProgressRequest(grievanceId, Token().value)] else [])
                + (if Present(Token()) && Succeeded(reply)
                   then FetchTrace(Department, old(board), Token()) + SwitchTrace(old(board), InProgress, Items())
                   else [])
      ensures board == (if Present(Token()) && Succeeded(reply)
                        then SwitchTab(StartFetch(old(board), Token()), InProgress, Items())
                        else old(board))
      ensures Present(Token()) && Succeeded(reply) ==> AdvancesFrom(StartProgress, board.activeTab)
    {
      var token := browser.GetItem("token");
      if !Present(token) {
        return;
      }
      browser.Send(StartProgressRequest(grievanceId, token.value));
      if !Succeeded(reply) {
        return;
      }
      IssueFetch();
      SelectTab(InProgress);
    }

    /** `handleResolve(grievanceId)` followed by the file picker's `onchange` with
        `file` chosen (or none): upload first, the resolve request only after a
        successful upload, and a successful resolve refreshes and switches to
        `resolved`. */
    method HandleResolve(grievanceId: JsValue, file: Option<File>, upload: Reply, resolve: Reply)
      modifies this, browser`requests
      ensures var picked := Present(Token()) && file.Some?;
              browser.requests == old(browser.requests)
                + (if picked then [UploadRequest(grievanceId, Token().value, file.value)] else [])
                + (if picked && Succeeded(upload) then [ResolveRequest(grievanceId, Token().value, ResolveKey)] else [])
                + (if picked && Succeeded(upload) && Succeeded(resolve)
                   then FetchTrace(Department, old(board), Token()) + SwitchTrace(old(board), Resolved, Items())
                   else [])
      ensures var picked := Present(Token()) && file.Some?;
              board == (if picked && Succeeded(upload) && Succeeded(resolve)
                        then SwitchTab(StartFetch(old(board), Token()), Resolved, Items())
                        else old(board))
      ensures Present(Token()) && file.Some? && Succeeded(upload) && Succeeded(resolve) ==>
                AdvancesFrom(Resolve, board.activeTab)
    {
      var token := browser.GetItem("token");
      if !Present(token) || file.None? {
        return;
      }
      browser.Send(UploadRequest(grievanceId, token.value, file.value));
      if !Succeeded(upload) {
        return;
      }
      browser.Send(ResolveRequest(grievanceId, token.value, ResolveKey));
      if !Succeeded(resolve) {
        return;
      }
      IssueFetch();
      SelectTab(Resolved);
    }

    /** `handleLogout()`: exactly the employee id, the email and the credential are
        removed (the stored `user` stays), then the page goes to `/`. */
    method HandleLogout()
      modifies browser`storage, browser`history
      ensures browser.storage == old(browser.storage) - LogoutKeys
      ensures "user" in old(browser.storage) ==> "user" in browser.storage
                                                 && browser.storage["user"] == old(browser.storage)["user"]
      ensures browser.history == old(browser.history) + ["/"]
    {
      browser.RemoveItem("employeeId");
      browser.RemoveItem("email");
      browser.RemoveItem("token");
      browser.Navigate("/");
    }

    /** A row's Decline button: the row is selected and the modal opened. */
    method OpenDecline(item: JsValue)
      modifies this
      ensures board == old(board).(selectedGrievance := item, showDeclineModal := true)
    {
      board := board.(selectedGrievance := item, showDeclineModal := true);
    }

    /** The modal's Cancel button: closed, and the reason cleared. */
    method CancelDecline()
      modifies this
      ensures board == old(board).(showDeclineModal := false, declineReason := "")
    {
      board := board.(showDeclineModal := false, declineReason := "");
    }

    /** Typing in the reason box. */
    method SetDeclineReason(text: string)
      modifies this
      ensures board == old(board).(declineReason := text)
    {
      board := board.(declineReason := text);
    }

    /** Typing in the search box; the list shown does not depend on it. */
    method SetSearchQuery(text: string)
      modifies this
      ensures board == old(board).(searchQuery := text)
    {
      board := board.(searchQuery := text);
    }

    /** `handleViewChat(grievance)`. */
    method ViewChat(grievance: JsValue)
      modifies this
      ensures board == old(board).(selectedGrievance := grievance, showChat := true)
    {
      board := board.(selectedGrievance := grievance, showChat := true);
    }
  }
}

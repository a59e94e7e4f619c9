/** `src/pages/Partners.jsx`: the delivery-partner table, whose status switch
    asks for confirmation in a modal before the optimistic update. */
module Partners {
  import opened Wrappers
  import opened Browser
  import opened PagedList

  /** The confirmation modal: closed (`user` and `newStatus` null), or open for
      a user and the status the switch asked for. */
  datatype Modal = Closed | Open(user: User, newStatus: string)

  datatype PartnersState = PartnersState(list: ListState, confirming: bool, modal: Modal)

  function Initial(b: Browser): PartnersState {
    PartnersState(PagedList.Initial(b), false, Closed)
  }

  /** The status a switch position stands for. */
  function StatusFor(checked: bool): (s: string)
    ensures checked <==> s == "active"
    ensures !checked <==> s == "inactive"
  {
    if checked then "active" else "inactive"
  }

  /** Whether the row's switch is enabled: it is disabled while that row's
      update is in flight. */
  predicate SwitchEnabled(st: PartnersState, user: User) {
    st.list.updatingId != Some(user.id)
  }

  /** `handleStatusChange`: flipping an enabled switch only opens the modal;
      the table is not touched yet. A disabled switch does not fire. */
  function HandleStatusChange(st: PartnersState, user: User, checked: bool): (r: PartnersState)
    ensures r.list == st.list && r.confirming == st.confirming
    ensures SwitchEnabled(st, user) ==> r.modal == Open(user, if checked then "active" else "inactive")
    ensures !SwitchEnabled(st, user) ==> r == st
  {
    if SwitchEnabled(st, user) then st.(modal := Open(user, StatusFor(checked))) else st
  }

  /** `handleCancel`: the modal closes and nothing else changes. */
  function HandleCancel(st: PartnersState): (r: PartnersState)
    ensures r.modal == Closed
    ensures r.(modal := st.modal) == st
  {
    st.(modal := Closed)
  }

  /** Opening the modal and cancelling it leaves the page as it was. */
  lemma CancelUndoesStatusChange(st: PartnersState, user: User, checked: bool)
    requires st.modal == Closed
    ensures HandleCancel(HandleStatusChange(st, user, checked)) == st
  {
  }

  /** The synchronous part of `handleConfirmStatusUpdate`, up to the `await`:
      the row shows the new status, its switch is disabled, the modal closes
      and the confirm button spins. With the modal already closed, reading
      `user.status` throws before any state changes, and nothing is pending. */
  function BeginConfirm(st: PartnersState): (r: (PartnersState, Option<Pending>))
    ensures st.modal == Closed ==> r == (st, None)
    ensures st.modal.Open? ==>
      && r.1 == Some(Pending(st.modal.user.id, st.modal.user.status, st.modal.newStatus))
      && r.0.list.rows == SetStatus(st.list.rows, st.modal.user.id, st.modal.newStatus)
      && r.0.list.updatingId == Some(st.modal.user.id)
      && r.0.list.(rows := st.list.rows, updatingId := st.list.updatingId) == st.list
      && r.0.modal == Closed && r.0.confirming
  {
    match st.modal
    case Closed => (st, None)
    case Open(user, newStatus) =>
      var (list, p) := BeginUpdate(st.list, user, newStatus);
      (PartnersState(list, true, Closed), Some(p))
  }

  /** The rest of `handleConfirmStatusUpdate`: the rollback in `catch` when the
      answer is not `Ok`, then `finally` re-enables the switch and the button. */
  function FinishConfirm(st: PartnersState, p: Pending, outcome: UpdateOutcome): (r: PartnersState)
    ensures outcome == Ok ==> r.list.rows == st.list.rows
    ensures outcome != Ok ==> r.list.rows == SetStatus(st.list.rows, p.id, p.oldStatus)
    ensures r.list.updatingId == None && !r.confirming
    ensures r.modal == st.modal
    ensures r.list.(rows := st.list.rows, updatingId := st.list.updatingId) == st.list
  {
    PartnersState(FinishUpdate(st.list, p, outcome), false, st.modal)
  }

  /** A whole confirmation with nothing happening during the `await`. */
  function Confirm(st: PartnersState, outcome: UpdateOutcome): (r: PartnersState)
    ensures st.modal == Closed ==> r == st
    ensures st.modal.Open? ==> r.modal == Closed && r.list.updatingId == None && !r.confirming
  {
    match BeginConfirm(st)
    case (mid, Some(p)) => FinishConfirm(mid, p, outcome)
    case (mid, None) => mid
  }

  /** Confirming from an open modal: a failed or forbidden update restores the
      rows exactly, a successful one changes only the chosen user's status, and
      the storage and page are never touched. */
  lemma ConfirmOutcome(st: PartnersState, outcome: UpdateOutcome)
    requires st.modal.Open?
    requires StatusIs(st.list.rows, st.modal.user.id, st.modal.user.status)
    ensures outcome != Ok ==> Confirm(st, outcome).list.rows == st.list.rows
    ensures outcome == Ok ==>
      Confirm(st, outcome).list.rows == SetStatus(st.list.rows, st.modal.user.id, st.modal.newStatus)
    ensures Confirm(st, outcome).list.browser == st.list.browser
    ensures Confirm(st, outcome).list.page == st.list.page
  {
    SetStatusRollback(st.list.rows, st.modal.user.id, st.modal.user.status, st.modal.newStatus);
  }

  /** The start of `loadPartners`. */
  function LoadStart(st: PartnersState): (r: PartnersState)
    ensures r.list.loading
    ensures r.list.(loading := st.list.loading) == st.list && r.(list := st.list) == st
  {
    st.(list := st.list.(loading := true))
  }

  /** The end of `loadPartners`: an accepted body replaces the rows and stores
      its pagination, or the zero pagination when it has none; any other body
      empties the table; a 403 expires the session; a rejection changes
      nothing but the spinner, which `finally` always stops. */
  function LoadFinish(st: PartnersState, outcome: ListOutcome): (r: PartnersState)
    ensures !r.list.loading
    ensures r.confirming == st.confirming && r.modal == st.modal
    ensures r.list.page == st.list.page && r.list.search == st.list.search
    ensures r.list.updatingId == st.list.updatingId
    ensures Accepted(outcome) ==>
      r.list.rows == outcome.data.value
      && r.list.pagination == Some(if outcome.pagination.Some? then outcome.pagination.value else ZeroPaging)
    ensures outcome.Received? && !Accepted(outcome) ==> r.list.rows == [] && r.list.pagination == Some(ZeroPaging)
    ensures !outcome.Received? ==> r.list.rows == st.list.rows && r.list.pagination == st.list.pagination
    ensures outcome.ListForbidden? ==> r.list.browser == ExpireSession(st.list.browser)
    ensures !outcome.ListForbidden? ==> r.list.browser == st.list.browser
  {
    var l := st.list;
    var l' :=
      match outcome
      case ListForbidden => l.(browser := ExpireSession(l.browser))
      case ListRejected => l
      case Received(ok, data, pagination) =>
        if ok && data.Some? then l.(rows := data.value, pagination := Some(pagination.GetOr(ZeroPaging)))
        else l.(rows := [], pagination := Some(ZeroPaging));
    st.(list := l'.(loading := false))
  }

  /** The spinner set at the start never outlives a load: whatever the
      outcome, a 403 included, starting and finishing is just finishing. */
  lemma LoadStartCycle(st: PartnersState, outcome: ListOutcome)
    ensures LoadStart(st).list.loading
    ensures LoadFinish(LoadStart(st), outcome) == LoadFinish(st, outcome)
  {
  }

  /** The stored pagination is always an object, so rendering
      `pagination.totalPages` never throws. */
  lemma LoadKeepsPagination(st: PartnersState, outcome: ListOutcome)
    requires st.list.pagination.Some?
    ensures LoadFinish(st, outcome).list.pagination.Some?
  {
  }

  /** A 403 on the list drops the token but not the `"auth"` flag. */
  lemma ForbiddenListKeepsAuth(st: PartnersState)
    ensures AuthKey in st.list.browser.storage ==>
      AuthKey in LoadFinish(st, ListForbidden).list.browser.storage
      && LoadFinish(st, ListForbidden).list.browser.storage[AuthKey] == st.list.browser.storage[AuthKey]
    ensures TokenKey !in LoadFinish(st, ListForbidden).list.browser.storage
  {
  }
}

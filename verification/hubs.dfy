/** `src/pages/Hubs.jsx`: the hub-admin table, whose status switch updates
    optimistically without a confirmation step. */
module Hubs {
  import opened Wrappers
  import opened Browser
  import opened PagedList

  /** The switch's `onChange` up to the `await`: it records `p.status` as the
      old status, marks the row as updating and shows the new status. A
      disabled switch (its row already updating) does not fire. */
  function ToggleBegin(st: ListState, p: User, checked: bool): (r: (ListState, Option<Pending>))
    ensures st.updatingId == Some(p.id) ==> r == (st, None)
    ensures st.updatingId != Some(p.id) ==>
      var newStatus := if checked then "active" else "inactive";
      && r.1 == Some(Pending(p.id, p.status, newStatus))
      && r.0.rows == SetStatus(st.rows, p.id, newStatus)
      && r.0.updatingId == Some(p.id)
      && r.0.(rows := st.rows, updatingId := st.updatingId) == st
  {
    if st.updatingId == Some(p.id) then (st, None)
    else
      var (mid, pending) := BeginUpdate(st, p, if checked then "active" else "inactive");
      (mid, Some(pending))
  }

  /** The rest of the handler: rollback on failure, then `updatingId` cleared. */
  function ToggleFinish(st: ListState, pending: Pending, outcome: UpdateOutcome): (r: ListState)
    ensures outcome == Ok ==> r.rows == st.rows
    ensures outcome != Ok ==> r.rows == SetStatus(st.rows, pending.id, pending.oldStatus)
    ensures r.updatingId == None
    ensures r.(rows := st.rows, updatingId := st.updatingId) == st
  {
    FinishUpdate(st, pending, outcome)
  }

  /** A toggle whose request fails leaves every row as it was; one that
      succeeds changes only the clicked row's status. Either way the switch is
      enabled again. */
  lemma ToggleOutcome(st: ListState, p: User, checked: bool, outcome: UpdateOutcome)
    requires st.updatingId != Some(p.id)
    requires StatusIs(st.rows, p.id, p.status)
    ensures var (mid, pending) := ToggleBegin(st, p, checked);
      && pending.Some?
      && (outcome != Ok ==> ToggleFinish(mid, pending.value, outcome).rows == st.rows)
      && (outcome == Ok ==>
            ToggleFinish(mid, pending.value, outcome).rows == SetStatus(st.rows, p.id, if checked then "active" else "inactive"))
      && ToggleFinish(mid, pending.value, outcome).updatingId == None
  {
    SetStatusRollback(st.rows, p.id, p.status, if checked then "active" else "inactive");
  }

  /** The start of `loadadmins`. */
  function LoadStart(st: ListState): (r: ListState)
    ensures r.loading && r.(loading := st.loading) == st
  {
    st.(loading := true)
  }

  /** The spinner set at the start never outlives a load: whatever the
      outcome, a 403 included, starting and finishing is just finishing. */
  lemma LoadStartCycle(st: ListState, outcome: ListOutcome)
    ensures LoadStart(st).loading
    ensures LoadFinishAsWritten(LoadStart(st), outcome) == LoadFinishAsWritten(st, outcome)
    ensures LoadFinish(LoadStart(st), outcome) == LoadFinish(st, outcome)
  {
  }

  /** The end of `loadadmins` as written: an accepted body replaces the rows and
      stores `data.pagination` as it is, even when it is missing; any other body
      and any rejection leave rows and pagination alone; a 403 expires the
      session and reaches the next `then` with `undefined`. The spinner always
      stops. */
  function LoadFinishAsWritten(st: ListState, outcome: ListOutcome): (r: ListState)
    ensures !r.loading
    ensures Accepted(outcome) ==> r.rows == outcome.data.value && r.pagination == outcome.pagination
    ensures !Accepted(outcome) ==> r.rows == st.rows && r.pagination == st.pagination
    ensures outcome.ListForbidden? ==> r.browser == ExpireSession(st.browser)
    ensures !outcome.ListForbidden? ==> r.browser == st.browser
    ensures r.page == st.page && r.search == st.search && r.updatingId == st.updatingId
  {
    match outcome
    case ListForbidden => st.(browser := ExpireSession(st.browser), loading := false)
    case ListRejected => st.(loading := false)
    case Received(ok, data, pagination) =>
      if ok && data.Some? then st.(rows := data.value, pagination := pagination, loading := false)
      else st.(loading := false)
  }

  /** Once loading is over the page reads `pagination.page` and
      `pagination.totalPages`, which throws when `pagination` is `undefined`. */
  predicate Renderable(st: ListState) {
    st.loading || st.pagination.Some?
  }

  /** An accepted body without `pagination` leaves the page unable to render. */
  lemma AsWrittenLosesPagination()
    ensures var st := PagedList.Initial(Browser(map[], "/hubs"));
      && Renderable(st)
      && !Renderable(LoadFinishAsWritten(st, Received(true, Some([]), None)))
  {
  }

  /** `loadadmins` with the same fallback `loadPartners` uses: the zero
      pagination when the body has none. */
  function LoadFinish(st: ListState, outcome: ListOutcome): (r: ListState)
    ensures !r.loading
    ensures Accepted(outcome) ==>
      r.rows == outcome.data.value
      && r.pagination == Some(if outcome.pagination.Some? then outcome.pagination.value else ZeroPaging)
    ensures !Accepted(outcome) ==> r.rows == st.rows && r.pagination == st.pagination
    ensures outcome.ListForbidden? ==> r.browser == ExpireSession(st.browser)
    ensures !outcome.ListForbidden? ==> r.browser == st.browser
    ensures r.page == st.page && r.search == st.search && r.updatingId == st.updatingId
  {
    var r := LoadFinishAsWritten(st, outcome);
    if Accepted(outcome) then r.(pagination := Some(outcome.pagination.GetOr(ZeroPaging))) else r
  }

  /** With the fallback, every load keeps a renderable page renderable, and it
      differs from the code as written only in the stored pagination. */
  lemma LoadFinishKeepsRenderable(st: ListState, outcome: ListOutcome)
    requires st.pagination.Some?
    ensures Renderable(LoadFinish(st, outcome))
    ensures LoadFinish(st, outcome).pagination.Some?
    ensures LoadFinish(st, outcome).(pagination := st.pagination) ==
      LoadFinishAsWritten(st, outcome).(pagination := st.pagination)
  {
  }
}

/** The paginated, searchable user table that `src/pages/Partners.jsx` and
    `src/pages/Hubs.jsx` both implement: page clamping, row serial numbers, the
    search reset and the optimistic per-row status update with rollback. */
module PagedList {
  import opened Wrappers
  import opened Browser

  /** `LIMIT`: rows requested per page. */
  const PageSize := 10

  datatype User = User(id: int, name: string, email: string, phone: string, status: string)

  /** The stored `pagination` object, reduced to the `totalPages` the buttons
      read; `None` is a missing or `null` property. */
  datatype PageInfo = PageInfo(totalPages: Option<int>)

  /** `useState({})`. */
  const EmptyPaging := PageInfo(None)

  /** The zero-filled object stored when the server sends no usable pagination. */
  const ZeroPaging := PageInfo(Some(0))

  /** The table's state. `pagination` is `None` when the stored value is
      `undefined` itself, not an object. */
  datatype ListState = ListState(
    rows: seq<User>, page: int, pagination: Option<PageInfo>, loading: bool,
    updatingId: Option<int>, search: string, browser: Browser)

  /** The state on mount. */
  function Initial(b: Browser): ListState {
    ListState([], 1, Some(EmptyPaging), true, None, "", b)
  }

  /** Whether `pagination.totalPages` is truthy (a number other than 0). */
  predicate HasTotal(info: PageInfo) {
    info.totalPages.Some? && info.totalPages.value != 0
  }

  /** "Previous": `Math.max(p - 1, 1)`. */
  function PrevPage(page: int): (r: int)
    ensures r >= 1
    ensures page > 1 ==> r == page - 1
    ensures page <= 1 ==> r == 1
  {
    if page - 1 > 1 then page - 1 else 1
  }

  /** "Next": `Math.min(p + 1, pagination.totalPages || p)`. */
  function NextPage(page: int, info: PageInfo): (r: int)
    ensures !HasTotal(info) ==> r == page
    ensures HasTotal(info) ==> r <= info.totalPages.value && r <= page + 1
    ensures HasTotal(info) ==> r == page + 1 || r == info.totalPages.value
  {
    var bound := if HasTotal(info) then info.totalPages.value else page;
    if page + 1 < bound then page + 1 else bound
  }

  /** A page number the table can show: at least 1 and, when the total is
      known, at most the total. */
  predicate PageInRange(page: int, info: PageInfo) {
    1 <= page && (HasTotal(info) ==> page <= info.totalPages.value)
  }

  /** Both buttons keep the page in range and move it by at most one. */
  lemma ButtonsKeepPageInRange(page: int, info: PageInfo)
    requires PageInRange(page, info)
    ensures PageInRange(PrevPage(page), info) && page - 1 <= PrevPage(page) <= page
    ensures PageInRange(NextPage(page, info), info) && page <= NextPage(page, info) <= page + 1
  {
  }

  /** "Next" on the last page and "Previous" on the first do nothing. */
  lemma ButtonsStopAtEnds(page: int, info: PageInfo)
    ensures PrevPage(1) == 1
    ensures HasTotal(info) && info.totalPages.value >= 1 ==>
      NextPage(info.totalPages.value, info) == info.totalPages.value
  {
  }

  /** The "S.No" cell: `(page - 1) * LIMIT + index + 1`. A row's serial
      encodes its page and its place on the page. */
  function Serial(page: int, index: int): (r: int)
    ensures 0 <= index < PageSize ==> (r - 1) / PageSize == page - 1 && (r - 1) % PageSize == index
    ensures page >= 1 && index >= 0 ==> r >= 1
  {
    (page - 1) * PageSize + index + 1
  }

  /** A page's rows are numbered consecutively from `10 * (page - 1) + 1`, and a
      full page ends at `10 * page`. */
  lemma SerialsOfPage(page: int, index: int)
    requires 0 <= index < PageSize
    ensures Serial(page, 0) == PageSize * (page - 1) + 1
    ensures Serial(page, index + 1) == Serial(page, index) + 1
    ensures Serial(page, PageSize - 1) == PageSize * page
  {
  }

  /** Serial numbers never repeat across pages: a serial determines the page
      and the row on it. */
  lemma SerialInjective(p1: int, i1: int, p2: int, i2: int)
    requires 0 <= i1 < PageSize && 0 <= i2 < PageSize
    requires Serial(p1, i1) == Serial(p2, i2)
    ensures p1 == p2 && i1 == i2
  {
  }

  /** `handleSearchChange` / the search `onChange`: store the text and go back
      to page 1. */
  function SearchChanged(st: ListState, text: string): (r: ListState)
    ensures r.search == text && r.page == 1
    ensures r.(search := st.search, page := st.page) == st
  {
    st.(search := text, page := 1)
  }

  /** A new search always lists its first match as row number 1. */
  lemma SearchRestartsNumbering(st: ListState, text: string)
    ensures Serial(SearchChanged(st, text).page, 0) == 1
  {
  }

  /** `prev.map(u => u.id === id ? { ...u, status } : u)`. */
  function SetStatus(rows: seq<User>, id: int, status: string): (r: seq<User>)
    ensures |r| == |rows|
    ensures forall i :: 0 <= i < |rows| && rows[i].id == id ==> r[i] == rows[i].(status := status)
    ensures forall i :: 0 <= i < |rows| && rows[i].id != id ==> r[i] == rows[i]
  {
    seq(|rows|, i requires 0 <= i < |rows| => if rows[i].id == id then rows[i].(status := status) else rows[i])
  }

  /** Every row with this id currently shows `status`. */
  predicate StatusIs(rows: seq<User>, id: int, status: string) {
    forall i :: 0 <= i < |rows| && rows[i].id == id ==> rows[i].status == status
  }

  /** Writing back the status the rows had undoes an update. */
  lemma SetStatusRollback(rows: seq<User>, id: int, oldStatus: string, newStatus: string)
    requires StatusIs(rows, id, oldStatus)
    ensures SetStatus(SetStatus(rows, id, newStatus), id, oldStatus) == rows
  {
  }

  /** Of two updates to the same id, the later one decides. */
  lemma SetStatusLastWins(rows: seq<User>, id: int, a: string, b: string)
    ensures SetStatus(SetStatus(rows, id, a), id, b) == SetStatus(rows, id, b)
  {
  }

  /** An id that is not on the page changes nothing. */
  lemma SetStatusAbsent(rows: seq<User>, id: int, status: string)
    requires forall i :: 0 <= i < |rows| ==> rows[i].id != id
    ensures SetStatus(rows, id, status) == rows
  {
  }

  /** The answer to the status `PATCH`: a truthy `status` (`Ok`), a falsy one
      or an unreadable body (`Fail`), or an HTTP 403, whose body carries no
      truthy `status` either (`Forbidden`). */
  datatype UpdateOutcome = Ok | Fail | Forbidden

  /** What a pending update remembers across the `await`. */
  datatype Pending = Pending(id: int, oldStatus: string, newStatus: string)

  /** The synchronous part of an update: the row shows the new status at once
      and its switch is disabled. */
  function BeginUpdate(st: ListState, user: User, newStatus: string): (r: (ListState, Pending))
    ensures r.0.rows == SetStatus(st.rows, user.id, newStatus)
    ensures r.0.updatingId == Some(user.id)
    ensures r.0.(rows := st.rows, updatingId := st.updatingId) == st
    ensures r.1 == Pending(user.id, user.status, newStatus)
  {
    (st.(rows := SetStatus(st.rows, user.id, newStatus), updatingId := Some(user.id)),
     Pending(user.id, user.status, newStatus))
  }

  /** The part after the `await`: on anything but `Ok` the old status is
      written back; in every case the switch is enabled again. Storage and
      location are untouched, even on a 403. */
  function FinishUpdate(st: ListState, p: Pending, outcome: UpdateOutcome): (r: ListState)
    ensures outcome == Ok ==> r.rows == st.rows
    ensures outcome != Ok ==> r.rows == SetStatus(st.rows, p.id, p.oldStatus)
    ensures r.updatingId == None
    ensures r.(rows := st.rows, updatingId := st.updatingId) == st
  {
    var rows := if outcome == Ok then st.rows else SetStatus(st.rows, p.id, p.oldStatus);
    st.(rows := rows, updatingId := None)
  }

  /** A failed or forbidden update leaves the rows as they were before it began,
      provided the clicked row showed its current status; a successful one
      leaves exactly that row's status changed. */
  lemma UpdateRoundTrip(st: ListState, user: User, newStatus: string, outcome: UpdateOutcome)
    requires StatusIs(st.rows, user.id, user.status)
    ensures var (mid, p) := BeginUpdate(st, user, newStatus);
      && (outcome != Ok ==> FinishUpdate(mid, p, outcome).rows == st.rows)
      && (outcome == Ok ==> FinishUpdate(mid, p, outcome).rows == SetStatus(st.rows, user.id, newStatus))
      && FinishUpdate(mid, p, outcome).updatingId == None
  {
    SetStatusRollback(st.rows, user.id, user.status, newStatus);
  }

  /** The list request's result: an HTTP 403, a request or JSON parse that
      rejects, or a body. For a body, `ok` is the truthiness of `data?.status`,
      `data` is `data.data` when it is an array, and `pagination` is
      `data.pagination`, `None` when it is missing or `null`. */
  datatype ListOutcome =
    | ListForbidden
    | ListRejected
    | Received(ok: bool, data: Option<seq<User>>, pagination: Option<PageInfo>)

  /** Whether the body is accepted: `data?.status && Array.isArray(data.data)`. */
  predicate Accepted(outcome: ListOutcome) {
    outcome.Received? && outcome.ok && outcome.data.Some?
  }
}

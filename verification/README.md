# Ironman Admin dashboard: a Dafny model of its client-side logic

Ironman Admin is a React single-page dashboard for a laundry pickup and
delivery service. Almost all of it is presentation and REST plumbing. What this
project models is the small amount of sequential logic inside the pages:

- **Auth flag and routing.** `handleLogin` writes `"auth" = "true"` for the one
  hard-coded credential pair. `ProtectedRoute` admits exactly that value. The
  logout button removes it. The header title is derived from the pathname.
- **List filtering and aggregation.**
  - The wildcard filters and per-shift cards of the Delivery page.
  - The single-select filters and the four counters of the Reports page.
  - The conjunctive multi-select and date-range panel `AdvancedFilters`.
  - The hub colour bands and the order total of the Locations page.
- **The paginated user tables** of the Partners and Hubs pages:
  - page clamping and row serial numbers
  - the search reset
  - the optimistic status switch, with rollback when the update fails
  - what a list response does to the stored rows and pagination
- **The Dashboard3 page**:
  - `safeNumber`
  - `formatStageLabel`
  - the normalisation of the four API payloads, with their fallbacks
  - the guarantee that every block's spinner stops

Browser storage is a `map<string, string>`. Each network request is an
abstract outcome: a 403, a rejection, or a parsed body. API payloads are values
of a small JavaScript value datatype (`JsValues.JsValue`). Property access on
that datatype can throw, and `Number()` conversion is delegated to an abstract
`parse` function. Everything is a pure function over immutable datatypes.

One module per source file, plus shared modules:

- `Wrappers`: `Option`.
- `Seqs`: filter, map, dedup and subsequence, with their laws.
- `JsValues`: the JavaScript value datatype and its operations.
- `Ascii`: ASCII case mapping.
- `Browser`: storage, location and the shared 403 handler.
- `PagedList`: the table logic that Partners and Hubs share.

Two facts about the code's session and error handling shape the model:

- A 403 removes only `"token"` and redirects (src/pages/Partners.jsx:118-122).
  `"auth"` survives, so the route guard keeps admitting the user
  (`App.ExpiredSessionStillAdmitted`).
- The status-update requests on Partners and Hubs never look at the HTTP
  status. They roll back exactly when the request or `res.json()` throws, or
  `res?.status` is falsy (src/pages/Partners.jsx:174, 207-217,
  src/pages/Hubs.jsx:82, 196). A 403 is rolled back
  here on the stated assumption that its body carries no truthy `status`.

## Model

| member | source | states |
|---|---|---|
| Login.HandleLogin | src/pages/Login.jsx:12-20 | The exact pair admin/ironman stores `"auth" = "true"` and moves to `/dashboard`. Any other pair leaves storage and location untouched, so an existing `"auth"` is never cleared. |
| Login.LoginWritesAuthIff | src/pages/Login.jsx:14-15 | Starting without `"auth"`, the key is written (as `"true"`) if and only if the credentials are exactly admin/ironman. No other key is created or removed. |
| Layout.RemoveFirstSlash | src/components/Layout.jsx:12 | A string-pattern `replace` removes only the first `'/'`. The result is the input without the character at the index of its first slash, one shorter. Without a slash the input is unchanged. |
| Layout.RouteTitle | src/components/Layout.jsx:10-14 | `"/"` gives `"Dashboard"`. Any other pathname loses its first `'/'` and has its first character upper-cased, with the remaining characters unchanged. |
| Layout.RouteTitleOfPath | src/components/Layout.jsx:12-13 | For a pathname `"/" + rest`, the title is `rest` with its first character upper-cased. |
| Layout.NestedPathTitle | src/components/Layout.jsx:12 | `"/a/b"` is titled `"A/b"`: only the first slash is removed. |
| Layout.HeaderText | src/components/Layout.jsx:30 | The header is never empty: it is the route title, or `"IronMan"` in its place. |
| Layout.EmptyTitleOnlyForEmptyPath | src/components/Layout.jsx:30 | The title is empty exactly for the empty pathname, which is the only case where the header falls back to `"IronMan"`. |
| Layout.Logout | src/components/Layout.jsx:53-56 | Logout removes `"auth"` and only `"auth"`, keeps every other stored value, and goes to `/login`. |
| App.ProtectedRoute | src/App.jsx:14-17 | Renders the children if and only if `"auth"` is exactly `"true"`. Otherwise it redirects to `/login`, replacing the history entry. |
| App.ChildPage | src/App.jsx:34-41 | A segment names a page exactly when it is one of the eight child paths, and then names that path's page. |
| App.Lookup | src/App.jsx:34-41 | A first-match search of a route list finds a page exactly when some entry has that path. |
| App.Resolve | src/App.jsx:22-43 | `/login` is outside the guard. `/` is the guarded redirect to `/dashboard`. Without authentication no other path renders a page. A page is rendered only when authenticated. |
| App.ChildRoutesGuarded | src/App.jsx:25-42 | Each of the eight child routes renders its page when authenticated and redirects to `/login` otherwise. |
| App.LoginThenGuard | src/App.jsx:15 | After a correct login the guard admits. After a wrong one its answer is what it was before. |
| App.LogoutThenGuard | src/App.jsx:15-16 | After logout the guard rejects and `/dashboard` redirects to `/login`. |
| App.ExpiredSessionStillAdmitted | src/App.jsx:15 | The 403 handler removes `"token"` but not `"auth"`, so it does not change the guard's answer. |
| Browser.ExpireSession | src/pages/Partners.jsx:118-122 | A 403 removes `"token"`, keeps every other stored value and goes to `/login`. |
| Browser.ExpireSessionIdempotent | src/pages/Dashboard3.jsx:80-84 | Several 403s, one from each block, have the effect of one. |
| Seqs.Filter | src/pages/Delivery.jsx:61-67 | `filter` keeps, in order, exactly the accepted elements with their multiplicities, and keeps everything when everything is accepted. |
| Seqs.FilterFilter | src/components/AdvancedFilters.jsx:45-72 | Two filters in a row are one filter by the conjunction. |
| Seqs.FilterExtensional | src/components/AdvancedFilters.jsx:45-72 | Filters whose predicates agree on the list's elements give the same list. |
| Seqs.FilterPartition | src/pages/Reports.jsx:92-100 | Filtering by a predicate and by its negation accounts for every element exactly once. |
| Seqs.FilterCountIsOccurrences | src/pages/Delivery.jsx:73-78 | Counting the elements whose key is `y` equals the number of occurrences of `y` among the keys. |
| Seqs.Dedup | src/pages/Delivery.jsx:74 | `[...new Set(s)]` has no duplicates, has exactly the elements of `s`, and keeps them in order of first occurrence. |
| Seqs.Map | src/pages/Delivery.jsx:74 | `map` keeps the length, applies `f` at every position, and its elements are exactly the images. |
| Delivery.FilteredOrders | src/pages/Delivery.jsx:60-68 | An order-preserving subsequence holding exactly the orders that equal every non-empty filter field, each as often as in the input. With all three filters empty it is the input itself. |
| Delivery.SummaryOf | src/pages/Delivery.jsx:72-81 | A shift's card carries its name and `start - end`. Its count is the number of filtered orders in that shift. Its partners are listed once each and are exactly the partners of those orders. |
| Delivery.Summarize | src/pages/Delivery.jsx:71-82 | One card per configured shift, in configuration order, each as `SummaryOf` states. |
| Delivery.TotalCountIsCountsSum | src/pages/Delivery.jsx:78 | Cards whose counts are shift occurrences add up to the sum of those occurrences. |
| Delivery.SummaryCountsCoverOrders | src/pages/Delivery.jsx:71-82 | With distinct shift names covering every filtered order, the cards' counts add up to the number of filtered orders. |
| Delivery.DefaultShiftsDistinct | src/pages/Delivery.jsx:10-14 | The configured shifts are Morning, Afternoon and Evening, all distinct. |
| Reports.FilteredData | src/pages/Reports.jsx:79-89 | An order-preserving subsequence holding exactly the orders that equal every set select and the date when one is given. With nothing set it is all orders. |
| Reports.CompletedCount | src/pages/Reports.jsx:92-94 | The number of filtered orders whose status is exactly `"Delivered"`. |
| Reports.ActiveCount | src/pages/Reports.jsx:98-100 | Active and completed orders together are all filtered orders. |
| Reports.TotalTime | src/pages/Reports.jsx:95-96 | The `reduce` gives 0 for no orders and a single order's own time. It is never negative when no time is. |
| Reports.TotalTimeAppend | src/pages/Reports.jsx:95-96 | The summed delivery time of two lists joined is the sum of their totals. With the empty and single-order cases of `TotalTime`, this makes it the `reduce` sum of every order's time. |
| Reports.CountersOf | src/pages/Reports.jsx:91-100 | The total is the filtered length. Completed counts `"Delivered"`. Completed plus active is the total. The average is `AverageTime`. |
| Reports.AverageTime | src/pages/Reports.jsx:95-97 | With no orders the average is 0, because the divisor falls back to 1. Otherwise the average times the count is the summed delivery time. |
| Reports.UnfilteredCountersCoverAll | src/pages/Reports.jsx:79-91 | With no selection, the total counter counts every order. |
| AdvancedFilters.ApplyFilters | src/components/AdvancedFilters.jsx:44-76 | The stored list is an order-preserving subsequence of `data` holding exactly the items that every non-empty selection and a complete date range admit, with their multiplicities. The inputs are kept. `onFilterChange`, when present, receives the same list. |
| AdvancedFilters.ClearFilters | src/components/AdvancedFilters.jsx:78-87 | All six inputs are emptied, the list becomes `data`, and `data` is emitted when a callback is present. |
| AdvancedFilters.DataChanged | src/components/AdvancedFilters.jsx:98-100 | A new `data` replaces the list without re-applying the selections, which stay as they were. |
| AdvancedFilters.DataChangedNotReapplied | src/components/AdvancedFilters.jsx:98-100 | After new `data` arrives, an item the on-screen selections reject is still shown. The next apply gives exactly the conjunctive filter of the new data. |
| AdvancedFilters.DataChangedShowsRejectedItem | src/components/AdvancedFilters.jsx:98-100 | With `"Delivered"` selected, a newly arrived `"Pending"` item is shown after the data change and removed by the next apply. |
| AdvancedFilters.StepIsFilter | src/components/AdvancedFilters.jsx:47-50 | A guarded filter is a filter whose predicate admits everything when the guard is off. |
| AdvancedFilters.StepIsSubsequence | src/components/AdvancedFilters.jsx:46-72 | Each guarded `filtered = filtered.filter(...)` step keeps an order-preserving subsequence of its input. |
| AdvancedFilters.Chain | src/components/AdvancedFilters.jsx:44-72 | Whatever the panel, the five guarded filters in sequence give an order-preserving subsequence of `data`, no longer than it and with only its items. |
| AdvancedFilters.StepAfterFilter | src/components/AdvancedFilters.jsx:45-72 | A guarded filter after a filter is one filter by the conjunction. |
| AdvancedFilters.ChainStep | src/components/AdvancedFilters.jsx:45-72 | After the first `k - 1` guarded filters, the `k`-th gives the items passing the first `k`. |
| AdvancedFilters.PassesAllIsMatches | src/components/AdvancedFilters.jsx:47-71 | Passing all five guarded filters is the conjunctive panel predicate. |
| AdvancedFilters.ChainIsOneFilter | src/components/AdvancedFilters.jsx:44-72 | The five guarded filters in sequence equal one filter by the conjunctive predicate. |
| AdvancedFilters.EmptyPanelIsIdentity | src/components/AdvancedFilters.jsx:47-67 | With every selection empty and no complete date range, applying shows `data` unchanged. |
| AdvancedFilters.ClearThenApply | src/components/AdvancedFilters.jsx:78-87 | Clearing and then applying shows the full `data`. |
| Locations.BandOf | src/pages/Locations.jsx:133-138 | Green exactly under 20, yellow exactly from 20 to under 25, red exactly from 25. The boundaries belong to the slower band. |
| Locations.BandMonotonic | src/pages/Locations.jsx:133-138 | A slower hub is never shown in a faster band. |
| Locations.TotalOrders | src/pages/Locations.jsx:69 | The `reduce` gives 0 for no hubs and a single hub's own count. It is never negative when no count is. |
| Locations.TotalOrdersAppend | src/pages/Locations.jsx:69 | The order total of a concatenation is the sum of the totals. |
| Locations.TotalOrdersRemove | src/pages/Locations.jsx:69 | Leaving one hub out lowers the total by exactly that hub's orders. |
| Locations.ChartOmitsCoimbatoreHub2 | src/pages/Locations.jsx:15-69 | The chart data lists the drill-down's hubs in order, except Coimbatore Hub 2. So the "Total Orders" card shows 1100, 100 short of the table's 1200. |
| Locations.LocationDataBands | src/pages/Locations.jsx:128-139 | The table colours its six hubs green, red, yellow, yellow, green, green. |
| PagedList.PrevPage | src/pages/Partners.jsx:373 | "Previous" never goes below 1, and steps back one from any page above 1. |
| PagedList.NextPage | src/pages/Partners.jsx:389-393 | "Next" is a no-op when `totalPages` is 0 or missing. Otherwise it never exceeds `totalPages`, steps at most one, and lands on `page + 1` or on `totalPages`. |
| PagedList.ButtonsKeepPageInRange | src/pages/Hubs.jsx:248-268 | From a page within `[1, totalPages]`, both buttons stay within that range and move by at most one. |
| PagedList.ButtonsStopAtEnds | src/pages/Partners.jsx:373-393 | "Previous" on page 1 and "Next" on the last page leave the page where it is. |
| PagedList.Serial | src/pages/Partners.jsx:320 | A row's serial decodes back to its page and its place on the page. Rows on page 1 or later are numbered from 1. |
| PagedList.SerialsOfPage | src/pages/Partners.jsx:320 | Serial numbers on a page run consecutively from `10 * (page - 1) + 1` to `10 * page`. |
| PagedList.SerialInjective | src/pages/Hubs.jsx:160 | Two rows on any pages with the same serial are the same row of the same page. |
| PagedList.SearchChanged | src/pages/Partners.jsx:148-151 | Editing the search stores the text and resets the page to 1, changing nothing else. |
| PagedList.SearchRestartsNumbering | src/pages/Hubs.jsx:115-118 | After a search edit, the first row is numbered 1. |
| PagedList.SetStatus | src/pages/Partners.jsx:197-203 | The rows with the given id get the new status with all other fields kept. Every other row is unchanged and the length is kept. |
| PagedList.SetStatusRollback | src/pages/Partners.jsx:219-225 | Writing back the status the rows had before undoes an optimistic update exactly. |
| PagedList.SetStatusLastWins | src/pages/Hubs.jsx:182-214 | Of two status writes to the same id, the later one decides. |
| PagedList.SetStatusAbsent | src/pages/Hubs.jsx:182-188 | An id that is not in the table changes nothing. |
| PagedList.BeginUpdate | src/pages/Hubs.jsx:176-188 | The row shows the new status at once and `updatingId` is its id. Nothing else changes. The pending update remembers the row's old status. |
| PagedList.FinishUpdate | src/pages/Hubs.jsx:190-218 | After anything but success, the old status is written back. In every case `updatingId` becomes null. Page, search, pagination and storage are untouched, even on a 403. |
| PagedList.UpdateRoundTrip | src/pages/Hubs.jsx:175-219 | A failed update leaves the rows exactly as before. A successful one changes only that id's status. Both end with `updatingId` null. |
| Partners.StatusFor | src/pages/Partners.jsx:180 | Checked means `"active"` and unchecked means `"inactive"`, in both directions. |
| Partners.HandleStatusChange | src/pages/Partners.jsx:179-187 | An enabled switch only opens the modal, with the user and the new status. The table is untouched. A disabled switch does nothing. |
| Partners.HandleCancel | src/pages/Partners.jsx:233-235 | Cancel closes the modal and changes nothing else. |
| Partners.CancelUndoesStatusChange | src/pages/Partners.jsx:179-235 | Opening the modal and cancelling it leaves the page exactly as it was. |
| Partners.BeginConfirm | src/pages/Partners.jsx:190-205 | From an open modal: the user's row shows the new status, its switch is disabled, the modal closes and the button spins, with nothing else changed. With the modal closed, reading `user.status` throws and nothing changes. |
| Partners.FinishConfirm | src/pages/Partners.jsx:207-230 | A failure rolls back to the old status and a success keeps the rows. In every case `updatingId` is null and the button stops spinning. |
| Partners.Confirm | src/pages/Partners.jsx:190-231 | After a confirmation from an open modal, the modal is closed, `updatingId` is null and `isConfirming` is false, whatever the outcome. |
| Partners.ConfirmOutcome | src/pages/Partners.jsx:190-231 | A failed or forbidden update restores the rows exactly. A successful one changes only the chosen user's status. Storage and page are never touched. |
| Partners.LoadStart | src/pages/Partners.jsx:100-102 | Loading starts and nothing else changes. |
| Partners.LoadStartCycle | src/pages/Partners.jsx:100-137 | Loading is on once a load starts. Starting then finishing equals finishing alone on every outcome, a 403 included, so the spinner never outlives a load. |
| Partners.LoadFinish | src/pages/Partners.jsx:117-137 | An accepted body replaces the rows and stores its pagination, or the zero pagination. Any other body empties the table with zero pagination. A 403 expires the session. A rejection keeps rows and pagination. The spinner always stops. |
| Partners.LoadKeepsPagination | src/pages/Partners.jsx:126-132 | The stored pagination is always an object after a load. |
| Partners.ForbiddenListKeepsAuth | src/pages/Partners.jsx:118-121 | A 403 on the list removes the token but keeps `"auth"` and its value. |
| Hubs.ToggleBegin | src/pages/Hubs.jsx:175-188 | An enabled switch records the old status, marks the row as updating and shows the new status, with nothing else changed. A disabled one does nothing. |
| Hubs.ToggleFinish | src/pages/Hubs.jsx:190-218 | A failure rolls back to the recorded old status and a success keeps the rows. `updatingId` is cleared in every case. |
| Hubs.ToggleOutcome | src/pages/Hubs.jsx:175-219 | A failed toggle leaves every row as it was. A successful one changes only the clicked row's status. Either way the switch is enabled again. |
| Hubs.LoadStart | src/pages/Hubs.jsx:24-27 | Loading starts and nothing else changes. |
| Hubs.LoadStartCycle | src/pages/Hubs.jsx:24-59 | Loading is on once a load starts. Starting then finishing equals finishing alone on every outcome, a 403 included, both as written and corrected. |
| Hubs.LoadFinishAsWritten | src/pages/Hubs.jsx:41-59 | An accepted body replaces the rows and stores `data.pagination` as it is, even when it is missing. Other bodies and rejections keep rows and pagination. A 403 expires the session. The spinner always stops. |
| Hubs.AsWrittenLosesPagination | src/pages/Hubs.jsx:52 | From the initial state, an accepted body without `pagination` leaves a finished page whose render reads a property of `undefined`. |
| Hubs.LoadFinish | src/pages/Hubs.jsx:49-55 | With the zero-pagination fallback, an accepted body stores an object in every case. Everything else is as written. |
| Hubs.LoadFinishKeepsRenderable | src/pages/Hubs.jsx:259-261 | With the fallback, every load keeps the pagination an object, so the page can render. It differs from the code as written only in the stored pagination. |
| JsValues.Get | src/pages/Dashboard3.jsx:150 | Property access throws exactly on `null` and `undefined`. On an object it returns the field when present and `undefined` otherwise. Any other value answers `undefined`. |
| JsValues.GetOpt | src/pages/Dashboard3.jsx:181 | Optional chaining gives `undefined` on `null`/`undefined` and is plain access otherwise. |
| JsValues.Coalesce | src/pages/Dashboard3.jsx:184-185 | `??` takes the right operand exactly when the left is `null` or `undefined`. |
| JsValues.ToNumber | src/pages/Dashboard3.jsx:24 | `Number(v)` by case. `undefined` and objects give NaN; `null`, `""` and `[]` give 0. `true` gives 1 and `false` gives 0. A number is itself. An array of two or more elements gives NaN. A one-element array gives 0 for `null` or `undefined` and NaN for a boolean or an object; for a number, string or array it converts like that element. |
| JsValues.TruthyNumber | src/pages/Dashboard3.jsx:225 | `Number(x) ? Number(x) : 0` is non-zero exactly when the conversion gives a non-zero number, and is then that number. |
| JsValues.SafeNumber | src/pages/Dashboard3.jsx:22-26 | `null`, `undefined` and `""` give 0. Otherwise the result is the converted number, or 0 when the conversion gives NaN. |
| JsValues.TruthyNumberIsSafeNumber | src/pages/Dashboard3.jsx:225 | The stage table's `Number(x) ? Number(x) : 0` agrees with `safeNumber` on every value. |
| JsValues.SafeNumberIdempotent | src/pages/Dashboard3.jsx:22-26 | Normalising an already normalised number changes nothing. |
| Ascii.ToUpper | src/pages/Dashboard3.jsx:52 | Upper-casing turns each lower-case letter into the upper-case letter at the same place in the alphabet (`'a'` to `'A'`), leaves every other character alone, and keeps word characters word characters. |
| Ascii.ToLower | src/pages/Dashboard3.jsx:52 | Lower-casing turns each upper-case letter into the lower-case letter at the same place in the alphabet (`'A'` to `'a'`), leaves every other character alone, and keeps word characters word characters. |
| Ascii.CaseRoundTrip | src/pages/Dashboard3.jsx:52 | Upper- then lower-casing a lower-case letter gives it back, and the reverse holds for upper-case letters. |
| Ascii.LowerString | src/pages/Dashboard3.jsx:52 | `toLowerCase` keeps the length and lower-cases each character. |
| Dashboard.MapAll | src/pages/Dashboard3.jsx:148-151 | A `map` with a throwing callback succeeds exactly when every call succeeds. It then has one result per element, in order. |
| Dashboard.SummaryPayload | src/pages/Dashboard3.jsx:90-101 | Cards come from a payload exactly when the body and its `status` are truthy. That payload is `result.data` when it is truthy and `{}` otherwise, so it is never nullish. |
| Dashboard.SummaryCards | src/pages/Dashboard3.jsx:87-123 | Always exactly four cards in the fixed title order, with only the third in minutes. A 403, a rejection or a falsy status gives all zeros. Otherwise each card is `safeNumber` of its field. |
| Dashboard.SummaryFallbackIsEmptyPayload | src/pages/Dashboard3.jsx:90-121 | The zero cards of a failure equal what a successful body without data shows. |
| Dashboard.BreakdownRows | src/pages/Dashboard3.jsx:141-161 | A 403, a rejection, a falsy status, a non-array `data` or a nullish element gives `[]`. Otherwise there is one row per element, in order, keeping the element with `value` normalised by `safeNumber`. |
| Dashboard.AvgRows | src/pages/Dashboard3.jsx:179-196 | No status check. Non-array data or a nullish element gives `[]`. Otherwise each row's day falls back day, date, `""`. Its time falls back avgTime, avg_time, avg_delivery_time, through `safeNumber`. |
| Dashboard.AvgRowFallbacks | src/pages/Dashboard3.jsx:183-186 | A row with only `date` and `avg_time` is read through the fallbacks. A row with no fields gives `""` and 0. |
| Dashboard.StageRows | src/pages/Dashboard3.jsx:214-236 | A falsy status, non-array data or a nullish element gives `[]`. Otherwise each row takes `stage` from `status` and normalises orders and percent with `safeNumber`. `avg` equals `safeNumber(avg_time)`. |
| Dashboard.SeparatorsToSpaces | src/pages/Dashboard3.jsx:52 | Every `_` and `-` becomes a space and every other character is kept. |
| Dashboard.CapitalizeWords | src/pages/Dashboard3.jsx:52 | Exactly the characters where `\b\w` matches are upper-cased. |
| Dashboard.FormatLabel | src/pages/Dashboard3.jsx:50-53 | The three rewrites agree, character by character, with a direct reading of the input. Separators become spaces. The first letter or digit of each run is upper-cased and everything else is lower-cased. |
| Dashboard.FormatLabelShape | src/pages/Dashboard3.jsx:50-53 | No `_` or `-` is left. Word-initial characters are not lower-case letters and the other characters are not upper-case letters. |
| Dashboard.FormatLabelIdempotent | src/pages/Dashboard3.jsx:50-53 | Formatting a formatted label changes nothing. |
| Dashboard.FormatStageLabel | src/pages/Dashboard3.jsx:50-53 | A falsy stage gives `""`. A string is formatted. Any other truthy value has no `replace`, so the call throws. |
| Dashboard.Arrive | src/pages/Dashboard3.jsx:79-236 | A response sets its block's data to the normalised value and stops its spinner on every path. It expires the session on a 403 and leaves the other blocks untouched. |
| Dashboard.ArrivalsCommute | src/pages/Dashboard3.jsx:68-237 | Responses for different blocks give the same page in either order. |
| Dashboard.ArriveAllLoading | src/pages/Dashboard3.jsx:63-66 | After any run of responses, a spinner is on exactly when its block was loading and received none. |
| Dashboard.AllSettled | src/pages/Dashboard3.jsx:110-235 | Once every block has had a response, in any order and of any kind, no spinner is left. |

## Left out

- Network I/O is not modelled. Each request is an abstract outcome, and the REST backend is not in the repository.
- PagedList.FinishUpdate: `UpdateOutcome.Forbidden` behaves exactly like `Fail`. The code has no 403 branch on the update path and rolls back only on a falsy `res?.status`. The model assumes a 403 body carries no truthy `status`.
- `updateUserStatus` (src/pages/Partners.jsx:154-175, src/pages/Hubs.jsx:62-83) is the abstract `UpdateOutcome`, since it is only a `PATCH` request followed by `res.json()`.
- `localStorage` is a map and `window.location` is a path field.
- Timing and concurrency are not modelled: the 400 ms debounce, React effect scheduling, and responses racing each other or a page change. Handlers are applied one at a time.
- `updatingId` is a single slot. Two overlapping updates, where the first `finally` clears the slot for the second, are not explored.
- `Number()` on non-empty strings is the abstract `parse` parameter, with NaN as `None`.
- JavaScript numbers are reals. Infinities, `-0`, `Number()` on objects with `valueOf`, and the printing of numbers (the `"<n> mins"` text) are not modelled.
- Date strings in `AdvancedFilters` are comparable day numbers, and an invalid date fails every comparison. Reports compares date strings exactly, as the code does.
- JsValues.Get: built-in properties such as `length`, and properties of strings and arrays, read as `undefined`.
- Dashboard.BreakdownRows: a row is kept as the element plus the new `value`. Only object elements are spread, and this is exact for them.
- The Locations average, `toFixed`, `Math.round(totalOrders * 0.92)`, `Math.round(percent * 100)` and other display arithmetic are not modelled.
- Non-ASCII case mapping in `formatStageLabel` and `routeTitle` is not modelled.
- Pagination fields other than `totalPages` are not modelled: `page`, `total`, `startItem`, `endItem` and `totalItems` are display only.
- Modal texts, toasts, status badges and the switch styling are not modelled.
- The modal overlay that blocks clicks on the table is not modelled.
- `src/pages/Register.jsx`, the static `src/pages/Dashboard.jsx`, `Navbar`, `Logo`, `Sidebar` and `main.jsx` are not part of this model.
- CSV/XLSX export, charts and animations are foreign libraries.
- App.Resolve: router matching is exact pathname comparison. Trailing slashes, case-insensitive matching and nested params are not modelled.

## Findings

| source | as written | input that shows it | evidently intended | confidence | as-written member | corrected member |
|---|---|---|---|---|---|---|
| src/pages/Hubs.jsx:52 | `setPagination(data.pagination)` stores the field with no fallback. The render then reads `pagination.page` and `pagination.totalPages` (lines 260 and 266-269). | An accepted list body `{status: true, data: []}` with no `pagination`: pagination becomes `undefined`, so the render throws. | Store a zero pagination when the field is missing, as `loadPartners` does at src/pages/Partners.jsx:128. | medium; not executed | Hubs.AsWrittenLosesPagination | Hubs.LoadFinishKeepsRenderable |

/** `src/components/AdvancedFilters.jsx`: four multi-selects and a date range
    applied on demand to the `data` prop, with clear/reset and the re-sync
    when `data` changes. Dates are modelled as comparable day numbers. */
module AdvancedFilters {
  import opened Wrappers
  import opened Seqs

  /** An item's `date` after `new Date(...)`: `None` is an Invalid Date, which
      fails every comparison. */
  datatype Item = Item(status: string, location: string, partner: string, shift: string, date: Option<int>)

  /** A date input: empty, or a chosen day. */
  datatype DateInput = Blank | Day(day: int)

  /** The component's state: the selected option values of each multi-select,
      the two date inputs and the list it shows. */
  datatype Panel = Panel(
    statuses: seq<string>, locations: seq<string>, partners: seq<string>, shifts: seq<string>,
    startDate: DateInput, endDate: DateInput, filteredData: seq<Item>)

  /** What a call does: the new state, and the list handed to
      `onFilterChange` when that callback is present. */
  datatype Applied = Applied(panel: Panel, emitted: Option<seq<Item>>)

  /** The initial state for a `data` prop. */
  function Initial(data: seq<Item>): Panel {
    Panel([], [], [], [], Blank, Blank, data)
  }

  function StatusIn(values: seq<string>): Item -> bool { (it: Item) => it.status in values }
  function LocationIn(values: seq<string>): Item -> bool { (it: Item) => it.location in values }
  function PartnerIn(values: seq<string>): Item -> bool { (it: Item) => it.partner in values }
  function ShiftIn(values: seq<string>): Item -> bool { (it: Item) => it.shift in values }

  /** The date test, inclusive at both ends. */
  function InRange(start: int, end: int): Item -> bool {
    (it: Item) => it.date.Some? && start <= it.date.value <= end
  }

  /** The range is applied only when both inputs are filled in. */
  predicate RangeActive(p: Panel) {
    p.startDate.Day? && p.endDate.Day?
  }

  /** The conjunctive reading of the panel: every non-empty selection must
      contain the item's field, and a complete range must contain its date. */
  predicate Matches(p: Panel, it: Item) {
    && (|p.statuses| == 0 || it.status in p.statuses)
    && (|p.locations| == 0 || it.location in p.locations)
    && (|p.partners| == 0 || it.partner in p.partners)
    && (|p.shifts| == 0 || it.shift in p.shifts)
    && (!RangeActive(p) || (it.date.Some? && p.startDate.day <= it.date.value <= p.endDate.day))
  }

  /** `if (cond) filtered = filtered.filter(keep)`. */
  function Step(s: seq<Item>, cond: bool, keep: Item -> bool): seq<Item> {
    if cond then Filter(s, keep) else s
  }

  /** The date step's predicate; only consulted when the range is active. */
  function RangeKeep(p: Panel): Item -> bool {
    if RangeActive(p) then InRange(p.startDate.day, p.endDate.day) else (it: Item) => true
  }

  /** The guard and predicate of the `k`-th filter of `applyFilters`, 1 to 5:
      status, location, partner, shift, date range. */
  function Cond(p: Panel, k: nat): bool {
    if k == 1 then |p.statuses| > 0
    else if k == 2 then |p.locations| > 0
    else if k == 3 then |p.partners| > 0
    else if k == 4 then |p.shifts| > 0
    else RangeActive(p)
  }

  function Keep(p: Panel, k: nat): Item -> bool {
    if k == 1 then StatusIn(p.statuses)
    else if k == 2 then LocationIn(p.locations)
    else if k == 3 then PartnerIn(p.partners)
    else if k == 4 then ShiftIn(p.shifts)
    else RangeKeep(p)
  }

  /** Each guarded step keeps an order-preserving subsequence of its input. */
  lemma StepIsSubsequence(s: seq<Item>, cond: bool, keep: Item -> bool)
    ensures IsSubsequence(Step(s, cond, keep), s)
  {
    if !cond {
      SubsequenceReflexive(s);
    }
  }

  /** The body of `applyFilters`: the five guarded filters one after another.
      Whatever the panel, the result is drawn from `data` in order and is no
      longer than it. */
  function Chain(p: Panel, data: seq<Item>): (r: seq<Item>)
    ensures IsSubsequence(r, data)
    ensures |r| <= |data| && forall it :: it in r ==> it in data
  {
    var f1 := Step(data, Cond(p, 1), Keep(p, 1));
    var f2 := Step(f1, Cond(p, 2), Keep(p, 2));
    var f3 := Step(f2, Cond(p, 3), Keep(p, 3));
    var f4 := Step(f3, Cond(p, 4), Keep(p, 4));
    var f5 := Step(f4, Cond(p, 5), Keep(p, 5));
    StepIsSubsequence(data, Cond(p, 1), Keep(p, 1));
    StepIsSubsequence(f1, Cond(p, 2), Keep(p, 2));
    StepIsSubsequence(f2, Cond(p, 3), Keep(p, 3));
    StepIsSubsequence(f3, Cond(p, 4), Keep(p, 4));
    StepIsSubsequence(f4, Cond(p, 5), Keep(p, 5));
    SubsequenceTransitive(f2, f1, data);
    SubsequenceTransitive(f3, f2, data);
    SubsequenceTransitive(f4, f3, data);
    SubsequenceTransitive(f5, f4, data);
    SubsequenceElements(f5, data);
    f5
  }

  /** `applyFilters`: the result, stored as `filteredData` and passed to
      `onFilterChange`, keeps in order exactly the items of `data` that every
      non-empty selection and a complete date range admit. The selections and
      dates are kept. */
  function ApplyFilters(p: Panel, data: seq<Item>, hasCallback: bool): (r: Applied)
    ensures IsSubsequence(r.panel.filteredData, data)
    ensures forall it :: it in r.panel.filteredData <==> it in data && Matches(p, it)
    ensures forall it :: multiset(r.panel.filteredData)[it] == if Matches(p, it) then multiset(data)[it] else 0
    ensures r.panel == p.(filteredData := r.panel.filteredData)
    ensures hasCallback ==> r.emitted == Some(r.panel.filteredData)
    ensures !hasCallback ==> r.emitted == None
  {
    ChainIsOneFilter(p, data);
    var filtered := Chain(p, data);
    Applied(p.(filteredData := filtered), if hasCallback then Some(filtered) else None)
  }

  /** `clearFilters`: every input emptied and the full `data` shown and emitted. */
  function ClearFilters(p: Panel, data: seq<Item>, hasCallback: bool): (r: Applied)
    ensures r.panel == Initial(data)
    ensures hasCallback ==> r.emitted == Some(data)
    ensures !hasCallback ==> r.emitted == None
  {
    Applied(Initial(data), if hasCallback then Some(data) else None)
  }

  /** The effect on `[data]`: the list is reset to the new data; the selections
      stay on screen but are not re-applied. */
  function DataChanged(p: Panel, data: seq<Item>): (r: Panel)
    ensures r.filteredData == data
    ensures r == p.(filteredData := data)
  {
    p.(filteredData := data)
  }

  /** The panel as one predicate. */
  function MatchesFn(p: Panel): Item -> bool { (it: Item) => Matches(p, it) }

  /** After new `data` arrives, the selections still on screen take effect
      only at the next apply: an item they reject is shown until then, and
      pressing "Apply" gives the conjunctive filter of the new data. */
  lemma DataChangedNotReapplied(p: Panel, data: seq<Item>, hasCallback: bool, it: Item)
    ensures ApplyFilters(DataChanged(p, data), data, hasCallback).panel.filteredData == Filter(data, MatchesFn(p))
    ensures it in data && !Matches(p, it) ==>
      && it in DataChanged(p, data).filteredData
      && it !in ApplyFilters(DataChanged(p, data), data, hasCallback).panel.filteredData
  {
    var q := DataChanged(p, data);
    ChainIsOneFilter(q, data);
    assert forall x :: MatchesFn(q)(x) == MatchesFn(p)(x);
    FilterExtensional(data, MatchesFn(q), MatchesFn(p));
  }

  /** The case is not vacuous: a status selection and a newly arrived item
      with another status. */
  lemma DataChangedShowsRejectedItem()
    ensures var it := Item("Pending", "Chennai", "Ravi", "Morning", None);
      var p := Panel(["Delivered"], [], [], [], Blank, Blank, []);
      && !Matches(p, it)
      && DataChanged(p, [it]).filteredData == [it]
      && ApplyFilters(DataChanged(p, [it]), [it], false).panel.filteredData == []
  {
    var it := Item("Pending", "Chennai", "Ravi", "Morning", None);
    var p := Panel(["Delivered"], [], [], [], Blank, Blank, []);
    DataChangedNotReapplied(p, [it], false, it);
  }

  /** `Step` is a filter whose predicate lets everything through when the
      condition is off. */
  lemma StepIsFilter(s: seq<Item>, cond: bool, keep: Item -> bool, guarded: Item -> bool)
    requires forall it :: guarded(it) == (!cond || keep(it))
    ensures Step(s, cond, keep) == Filter(s, guarded)
  {
    if cond {
      FilterExtensional(s, keep, guarded);
    }
  }

  /** A guarded step after a filter is one filter with the conjunction. */
  lemma StepAfterFilter(data: seq<Item>, acc: Item -> bool, cond: bool, keep: Item -> bool, both: Item -> bool)
    requires forall it :: both(it) == (acc(it) && (!cond || keep(it)))
    ensures Step(Filter(data, acc), cond, keep) == Filter(data, both)
  {
    var guarded := (it: Item) => !cond || keep(it);
    StepIsFilter(Filter(data, acc), cond, keep, guarded);
    FilterFilter(data, acc, guarded, both);
  }

  /** An item survives the first `k` guarded filters. */
  predicate PassesFirst(p: Panel, k: nat, it: Item) {
    && (k >= 1 ==> !Cond(p, 1) || Keep(p, 1)(it))
    && (k >= 2 ==> !Cond(p, 2) || Keep(p, 2)(it))
    && (k >= 3 ==> !Cond(p, 3) || Keep(p, 3)(it))
    && (k >= 4 ==> !Cond(p, 4) || Keep(p, 4)(it))
    && (k >= 5 ==> !Cond(p, 5) || Keep(p, 5)(it))
  }

  function PassesFirstFn(p: Panel, k: nat): Item -> bool {
    (it: Item) => PassesFirst(p, k, it)
  }

  /** Filter `k` applied after the first `k - 1` is one filter by the first `k`. */
  lemma ChainStep(p: Panel, data: seq<Item>, k: nat)
    requires 1 <= k <= 5
    ensures Step(Filter(data, PassesFirstFn(p, k - 1)), Cond(p, k), Keep(p, k)) == Filter(data, PassesFirstFn(p, k))
  {
    StepAfterFilter(data, PassesFirstFn(p, k - 1), Cond(p, k), Keep(p, k), PassesFirstFn(p, k));
  }

  /** Passing all five guarded filters is matching the panel. */
  lemma PassesAllIsMatches(p: Panel, it: Item)
    ensures PassesFirst(p, 5, it) == Matches(p, it)
  {
  }

  /** The chain of guarded filters is the single conjunctive filter: the same
      items, in the same order, with the same multiplicities. */
  lemma ChainIsOneFilter(p: Panel, data: seq<Item>)
    ensures Chain(p, data) == Filter(data, MatchesFn(p))
  {
    assert Filter(data, PassesFirstFn(p, 0)) == data;
    ChainStep(p, data, 1);
    ChainStep(p, data, 2);
    ChainStep(p, data, 3);
    ChainStep(p, data, 4);
    ChainStep(p, data, 5);
    forall it | it in data
      ensures PassesFirstFn(p, 5)(it) == MatchesFn(p)(it)
    {
      PassesAllIsMatches(p, it);
    }
    FilterExtensional(data, PassesFirstFn(p, 5), MatchesFn(p));
  }

  /** With nothing selected, applying the filters shows `data` unchanged. */
  lemma EmptyPanelIsIdentity(p: Panel, data: seq<Item>, hasCallback: bool)
    requires |p.statuses| == 0 && |p.locations| == 0 && |p.partners| == 0 && |p.shifts| == 0
    requires !RangeActive(p)
    ensures ApplyFilters(p, data, hasCallback).panel.filteredData == data
  {
  }

  /** Clearing and then applying gives back the full data. */
  lemma ClearThenApply(p: Panel, data: seq<Item>, hasCallback: bool)
    ensures ApplyFilters(ClearFilters(p, data, hasCallback).panel, data, hasCallback).panel.filteredData == data
  {
    EmptyPanelIsIdentity(ClearFilters(p, data, hasCallback).panel, data, hasCallback);
  }
}

/** `src/pages/Reports.jsx`: single-select filters over the report orders and
    the four summary counters shown above the table. */
module Reports {
  import opened Wrappers
  import opened Seqs

  datatype ReportOrder = ReportOrder(
    id: int, status: string, location: string, partner: string,
    date: string, shift: string, deliveryTime: real)

  /** The four `react-select` values (`None` is a cleared select, `null` in the
      source) and the date input (`""` when empty). */
  datatype Selection = Selection(
    status: Option<string>, location: Option<string>, partner: Option<string>,
    shift: Option<string>, date: string)

  const NoSelection := Selection(None, None, None, None, "")

  const DeliveredStatus := "Delivered"

  /** A cleared select or an empty date admits anything; a set one must equal
      the order's field exactly. */
  predicate Matches(sel: Selection, o: ReportOrder) {
    && (sel.status.None? || o.status == sel.status.value)
    && (sel.location.None? || o.location == sel.location.value)
    && (sel.partner.None? || o.partner == sel.partner.value)
    && (sel.shift.None? || o.shift == sel.shift.value)
    && (sel.date == "" || o.date == sel.date)
  }

  /** `filteredData`. */
  function FilteredData(orders: seq<ReportOrder>, sel: Selection): (r: seq<ReportOrder>)
    ensures IsSubsequence(r, orders)
    ensures forall o :: o in r <==> o in orders && Matches(sel, o)
    ensures forall o :: multiset(r)[o] == if Matches(sel, o) then multiset(orders)[o] else 0
    ensures sel == NoSelection ==> r == orders
  {
    Filter(orders, o => Matches(sel, o))
  }

  function StatusOf(o: ReportOrder): string { o.status }

  predicate IsDelivered(o: ReportOrder) { o.status == DeliveredStatus }

  predicate IsActive(o: ReportOrder) { o.status != DeliveredStatus }

  /** Sum of the delivery times, the `reduce` in `avgDeliveryTime`: 0 for no
      orders, a single order's own time, and never negative when no time is. */
  function TotalTime(orders: seq<ReportOrder>): (r: real)
    ensures |orders| == 0 ==> r == 0.0
    ensures |orders| == 1 ==> r == orders[0].deliveryTime
    ensures (forall i :: 0 <= i < |orders| ==> orders[i].deliveryTime >= 0.0) ==> r >= 0.0
  {
    if |orders| == 0 then 0.0 else orders[0].deliveryTime + TotalTime(orders[1..])
  }

  /** The total of a concatenation is the sum of the totals, so with the
      empty and single-order cases it fixes `TotalTime` as the sum of every
      order's time. */
  lemma {:induction false} TotalTimeAppend(a: seq<ReportOrder>, b: seq<ReportOrder>)
    ensures TotalTime(a + b) == TotalTime(a) + TotalTime(b)
    decreases |a|
  {
    if |a| == 0 {
      assert a + b == b;
    } else {
      assert (a + b)[1..] == a[1..] + b;
      TotalTimeAppend(a[1..], b);
    }
  }

  /** The counters above the table. */
  datatype Counters = Counters(totalOrders: nat, completedOrders: nat, activeDeliveries: nat, avgDeliveryTime: real)

  /** `completedOrders`: the orders whose status is exactly `"Delivered"`. */
  function CompletedCount(filtered: seq<ReportOrder>): (n: nat)
    ensures n == multiset(Map(filtered, StatusOf))[DeliveredStatus]
  {
    FilterCountIsOccurrences(filtered, StatusOf, IsDelivered, DeliveredStatus);
    |Filter(filtered, IsDelivered)|
  }

  /** `activeDeliveries`: every order that is not delivered. */
  function ActiveCount(filtered: seq<ReportOrder>): (n: nat)
    ensures n + CompletedCount(filtered) == |filtered|
  {
    FilterPartition(filtered, IsDelivered, IsActive);
    |Filter(filtered, IsActive)|
  }

  /** `totalOrders`, `completedOrders`, `activeDeliveries` and
      `avgDeliveryTime`. Completed and active split the total; the average
      divides by the count, or by 1 for an empty list, which then gives 0. */
  function CountersOf(filtered: seq<ReportOrder>): (r: Counters)
    ensures r.totalOrders == |filtered|
    ensures r.completedOrders == multiset(Map(filtered, StatusOf))[DeliveredStatus]
    ensures r.completedOrders + r.activeDeliveries == r.totalOrders
    ensures r.avgDeliveryTime == AverageTime(filtered)
  {
    Counters(|filtered|, CompletedCount(filtered), ActiveCount(filtered), AverageTime(filtered))
  }

  /** `avgDeliveryTime`: the summed times over `filtered.length || 1`. */
  function AverageTime(filtered: seq<ReportOrder>): (avg: real)
    ensures |filtered| == 0 ==> avg == 0.0
    ensures |filtered| > 0 ==> avg * (|filtered| as real) == TotalTime(filtered)
  {
    var total, divisor := TotalTime(filtered), if |filtered| == 0 then 1.0 else |filtered| as real;
    assert total / divisor * divisor == total;
    total / divisor
  }

  /** With no select set and no date, every order is listed and counted. */
  lemma UnfilteredCountersCoverAll(orders: seq<ReportOrder>)
    ensures CountersOf(FilteredData(orders, NoSelection)).totalOrders == |orders|
  {
  }
}

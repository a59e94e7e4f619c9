/** `src/pages/Delivery.jsx`: the three wildcard dropdown filters over the day's
    orders and the per-shift summary cards. */
module Delivery {
  import opened Seqs

  datatype Order = Order(
    id: string, customer: string, location: string, route: string,
    partner: string, deliveryTime: string, shift: string, status: string)

  /** The dropdown values; `""` is the "All ..." option. */
  datatype Filters = Filters(route: string, partner: string, shift: string)

  const NoFilters := Filters("", "", "")

  datatype Shift = Shift(name: string, start: string, end: string)

  /** One summary card: shift name, its time window, how many filtered orders
      fall in it and which partners serve them. */
  datatype ShiftSummary = ShiftSummary(shift: string, time: string, count: nat, partners: seq<string>)

  /** The page's fixed `shiftConfig`. */
  const DefaultShifts := [
    Shift("Morning", "6:00 AM", "12:00 PM"),
    Shift("Afternoon", "12:00 PM", "6:00 PM"),
    Shift("Evening", "6:00 PM", "11:59 PM")
  ]

  /** An empty filter field matches anything; a non-empty one must equal the
      order's field exactly. */
  predicate Matches(f: Filters, o: Order) {
    && (f.route == "" || o.route == f.route)
    && (f.partner == "" || o.partner == f.partner)
    && (f.shift == "" || o.shift == f.shift)
  }

  /** `filteredOrders`. */
  function FilteredOrders(orders: seq<Order>, f: Filters): (r: seq<Order>)
    ensures IsSubsequence(r, orders)
    ensures forall o :: o in r <==> o in orders && Matches(f, o)
    ensures forall o :: o in r ==>
      && (f.route != "" ==> o.route == f.route)
      && (f.partner != "" ==> o.partner == f.partner)
      && (f.shift != "" ==> o.shift == f.shift)
    ensures forall o :: multiset(r)[o] == if Matches(f, o) then multiset(orders)[o] else 0
    ensures f == NoFilters ==> r == orders
  {
    Filter(orders, o => Matches(f, o))
  }

  function ShiftOf(o: Order): string { o.shift }

  function PartnerOf(o: Order): string { o.partner }

  function InShift(name: string): Order -> bool {
    (o: Order) => o.shift == name
  }

  /** One summary card for shift `s`. */
  function SummaryOf(s: Shift, filtered: seq<Order>): (r: ShiftSummary)
    ensures r.shift == s.name
    ensures r.time == s.start + " - " + s.end
    ensures r.count == multiset(Map(filtered, ShiftOf))[s.name]
    ensures NoDuplicates(r.partners)
    ensures forall p :: p in r.partners <==> exists o :: o in filtered && o.shift == s.name && o.partner == p
  {
    var shiftOrders := Filter(filtered, InShift(s.name));
    FilterCountIsOccurrences(filtered, ShiftOf, InShift(s.name), s.name);
    ShiftSummary(s.name, s.start + " - " + s.end, |shiftOrders|, Dedup(Map(shiftOrders, PartnerOf)))
  }

  /** `shiftSummary`: one card per configured shift, in configuration order,
      counting that shift's filtered orders and listing its partners once each. */
  function Summarize(config: seq<Shift>, filtered: seq<Order>): (r: seq<ShiftSummary>)
    ensures |r| == |config|
    ensures forall i :: 0 <= i < |r| ==>
      r[i].shift == config[i].name && r[i].time == config[i].start + " - " + config[i].end
    ensures forall i :: 0 <= i < |r| ==> r[i].count == multiset(Map(filtered, ShiftOf))[config[i].name]
    ensures forall i :: 0 <= i < |r| ==> NoDuplicates(r[i].partners)
    ensures forall i, p :: 0 <= i < |r| ==>
      (p in r[i].partners <==> exists o :: o in filtered && o.shift == config[i].name && o.partner == p)
  {
    seq(|config|, i requires 0 <= i < |config| => SummaryOf(config[i], filtered))
  }

  function Names(config: seq<Shift>): seq<string> {
    Map(config, (s: Shift) => s.name)
  }

  function TotalCount(cards: seq<ShiftSummary>): nat {
    if |cards| == 0 then 0 else cards[0].count + TotalCount(cards[1..])
  }

  lemma {:induction false} TotalCountIsCountsSum(cards: seq<ShiftSummary>, config: seq<Shift>, filtered: seq<Order>)
    requires |cards| == |config|
    requires forall i :: 0 <= i < |cards| ==> cards[i].count == multiset(Map(filtered, ShiftOf))[config[i].name]
    ensures TotalCount(cards) == CountsSum(Names(config), multiset(Map(filtered, ShiftOf)))
    decreases |cards|
  {
    if |cards| > 0 {
      TotalCountIsCountsSum(cards[1..], config[1..], filtered);
      assert Names(config)[1..] == Names(config[1..]);
    }
  }

  /** With distinct shift names that cover every filtered order, the cards'
      counts add up to the number of filtered orders: each order is counted on
      exactly one card. */
  lemma SummaryCountsCoverOrders(config: seq<Shift>, filtered: seq<Order>)
    requires NoDuplicates(Names(config))
    requires forall o :: o in filtered ==> o.shift in Names(config)
    ensures TotalCount(Summarize(config, filtered)) == |filtered|
  {
    TotalCountIsCountsSum(Summarize(config, filtered), config, filtered);
    var shifts := Map(filtered, ShiftOf);
    assert forall x :: x in shifts ==> x in Names(config);
    CountsSumCovers(Names(config), shifts);
  }

  /** The page's own configuration has three distinct shifts. */
  lemma DefaultShiftsDistinct()
    ensures Names(DefaultShifts) == ["Morning", "Afternoon", "Evening"]
    ensures NoDuplicates(Names(DefaultShifts))
  {
    assert Names(DefaultShifts) == ["Morning", "Afternoon", "Evening"];
  }
}

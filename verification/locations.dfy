/** `src/pages/Locations.jsx`: the region → state → city → hub drill-down, the
    flat chart summary beside it, the "Total Orders" card and the colour band of
    each hub's average delivery time. */
module Locations {

  datatype Hub = Hub(name: string, orders: int, avgTime: real)
  datatype City = City(name: string, hubs: seq<Hub>)
  datatype State = State(name: string, cities: seq<City>)
  datatype Region = Region(region: string, states: seq<State>)

  /** The three text colours of the average-time cell. */
  datatype Band = Green | Yellow | Red

  /** Bands ordered from fastest to slowest. */
  function Rank(b: Band): nat {
    match b
    case Green => 0
    case Yellow => 1
    case Red => 2
  }

  /** The cell's class: under 20 minutes green, under 25 yellow, otherwise red. */
  function BandOf(avgTime: real): (b: Band)
    ensures b == Green <==> avgTime < 20.0
    ensures b == Yellow <==> 20.0 <= avgTime < 25.0
    ensures b == Red <==> 25.0 <= avgTime
  {
    if avgTime < 20.0 then Green else if avgTime < 25.0 then Yellow else Red
  }

  /** A slower hub is never shown in a faster band. */
  lemma BandMonotonic(a: real, b: real)
    requires a <= b
    ensures Rank(BandOf(a)) <= Rank(BandOf(b))
  {
  }

  /** `reduce((acc, l) => acc + l.orders, 0)`: 0 for no hubs, a single hub's
      own count, and never negative when no count is. */
  function TotalOrders(hubs: seq<Hub>): (r: int)
    ensures |hubs| == 0 ==> r == 0
    ensures |hubs| == 1 ==> r == hubs[0].orders
    ensures (forall i :: 0 <= i < |hubs| ==> hubs[i].orders >= 0) ==> r >= 0
  {
    if |hubs| == 0 then 0 else hubs[0].orders + TotalOrders(hubs[1..])
  }

  /** The total of a concatenation is the sum of the totals. */
  lemma {:induction false} TotalOrdersAppend(a: seq<Hub>, b: seq<Hub>)
    ensures TotalOrders(a + b) == TotalOrders(a) + TotalOrders(b)
    decreases |a|
  {
    if |a| == 0 {
      assert a + b == b;
    } else {
      assert (a + b)[1..] == a[1..] + b;
      TotalOrdersAppend(a[1..], b);
    }
  }

  /** Leaving one hub out lowers the total by exactly that hub's orders. */
  lemma TotalOrdersRemove(hubs: seq<Hub>, i: nat)
    requires i < |hubs|
    ensures TotalOrders(hubs[..i] + hubs[i + 1..]) + hubs[i].orders == TotalOrders(hubs)
  {
    assert hubs == hubs[..i] + hubs[i..];
    assert hubs[i..][1..] == hubs[i + 1..];
    TotalOrdersAppend(hubs[..i], hubs[i..]);
    TotalOrdersAppend(hubs[..i], hubs[i + 1..]);
  }

  function CityHubs(cities: seq<City>): seq<Hub> {
    if |cities| == 0 then [] else cities[0].hubs + CityHubs(cities[1..])
  }

  function StateHubs(states: seq<State>): seq<Hub> {
    if |states| == 0 then [] else CityHubs(states[0].cities) + StateHubs(states[1..])
  }

  /** Every hub of the drill-down table, in the order the table lists them. */
  function TreeHubs(regions: seq<Region>): seq<Hub> {
    if |regions| == 0 then [] else StateHubs(regions[0].states) + TreeHubs(regions[1..])
  }

  /** The page's `locationData`. */
  const LocationData := [
    Region("South India", [
      State("Tamil Nadu", [
        City("Chennai", [Hub("Hub 1", 220, 18.0), Hub("Hub 2", 180, 25.0)]),
        City("Coimbatore", [Hub("Hub 1", 140, 20.0), Hub("Hub 2", 100, 22.0)])
      ])
    ]),
    Region("North India", [
      State("Delhi", [
        City("Delhi City", [Hub("Hub 1", 300, 15.0), Hub("Hub 2", 260, 19.0)])
      ])
    ])
  ]

  /** The page's `chartData`, which also feeds the "Total Orders" card. */
  const ChartData := [
    Hub("Chennai Hub 1", 220, 18.0),
    Hub("Chennai Hub 2", 180, 25.0),
    Hub("Coimbatore Hub 1", 140, 20.0),
    Hub("Delhi Hub 1", 300, 15.0),
    Hub("Delhi Hub 2", 260, 19.0)
  ]

  function Figures(h: Hub): (int, real) { (h.orders, h.avgTime) }

  /** The chart carries the drill-down's hubs, in order, except the fourth one
      (Coimbatore Hub 2), so the card's total is that hub's 100 orders short of
      the table's. */
  lemma ChartOmitsCoimbatoreHub2()
    ensures |TreeHubs(LocationData)| == 6 && |ChartData| == 5
    ensures TreeHubs(LocationData)[3] == Hub("Hub 2", 100, 22.0)
    ensures forall i :: 0 <= i < 5 ==>
      Figures(ChartData[i]) == Figures((TreeHubs(LocationData)[..3] + TreeHubs(LocationData)[4..])[i])
    ensures TotalOrders(ChartData) + 100 == TotalOrders(TreeHubs(LocationData))
    ensures TotalOrders(ChartData) == 1100
  {
    var hubs := TreeHubs(LocationData);
    assert hubs == [Hub("Hub 1", 220, 18.0), Hub("Hub 2", 180, 25.0), Hub("Hub 1", 140, 20.0),
                    Hub("Hub 2", 100, 22.0), Hub("Hub 1", 300, 15.0), Hub("Hub 2", 260, 19.0)];
    TotalOrdersRemove(hubs, 3);
    var rest := hubs[..3] + hubs[4..];
    assert rest == [hubs[0], hubs[1], hubs[2], hubs[4], hubs[5]];
    assert TotalOrders(rest[4..]) == 260;
    assert TotalOrders(rest[3..]) == 560;
    assert TotalOrders(rest[2..]) == 700;
    assert TotalOrders(rest[1..]) == 880;
    assert TotalOrders(ChartData[4..]) == 260;
    assert TotalOrders(ChartData[3..]) == 560;
    assert TotalOrders(ChartData[2..]) == 700;
    assert TotalOrders(ChartData[1..]) == 880;
  }

  /** The table's colours for its six hubs: the 25-minute Chennai hub is already
      red and the 20-minute Coimbatore hub already yellow, since both bounds
      belong to the slower band. */
  lemma LocationDataBands()
    ensures forall i :: 0 <= i < |TreeHubs(LocationData)| ==>
      BandOf(TreeHubs(LocationData)[i].avgTime) == [Green, Red, Yellow, Yellow, Green, Green][i]
  {
    assert TreeHubs(LocationData) == [Hub("Hub 1", 220, 18.0), Hub("Hub 2", 180, 25.0), Hub("Hub 1", 140, 20.0),
                                      Hub("Hub 2", 100, 22.0), Hub("Hub 1", 300, 15.0), Hub("Hub 2", 260, 19.0)];
  }
}

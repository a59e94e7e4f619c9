/** `src/pages/Dashboard3.jsx`: four independent requests (summary, status
    breakdown, average delivery time per day, stage summary), each normalised
    into the shape its widget draws with fixed fallbacks, each clearing its own
    loading flag; and `formatStageLabel` for the stage names. */
module Dashboard {
  import opened Wrappers
  import opened JsValues
  import opened Browser
  import opened Ascii

  /** How one request ends: an HTTP 403 (the handler returns `undefined`), a
      rejection (network error or a body that is not JSON), or a parsed body. */
  datatype Response = Forbidden | Rejected | Body(json: JsValue)

  // ---------------------------------------------------------------------------
  // Callbacks that may throw

  /** `es.map(f)` with a callback that can throw (`None`): the whole map throws
      as soon as one call does. */
  function MapAll<U>(es: seq<JsValue>, f: JsValue -> Option<U>): (r: Option<seq<U>>)
    ensures r.Some? <==> forall i :: 0 <= i < |es| ==> f(es[i]).Some?
    ensures r.Some? ==> |r.value| == |es| && forall i :: 0 <= i < |es| ==> r.value[i] == f(es[i]).value
  {
    if |es| == 0 then Some([])
    else
      match (f(es[0]), MapAll(es[1..], f))
      case (Some(x), Some(xs)) => Some([x] + xs)
      case _ => None
  }

  // ---------------------------------------------------------------------------
  // Summary cards

  datatype CardValue = Count(n: real) | Minutes(n: real)

  datatype SummaryCard = SummaryCard(title: string, value: CardValue)

  const SummaryTitles := ["Total Orders", "Completed", "Avg Delivery Time", "Active Pickups"]

  /** The payload field behind each card. */
  const SummaryKeys := ["total_orders", "completed_orders", "avg_delivery_time", "active_pickups"]

  /** Card `i` showing `n`; the third card shows `"<n> mins"`. */
  function Card(i: nat, n: real): SummaryCard
    requires i < 4
  {
    SummaryCard(SummaryTitles[i], if i == 2 then Minutes(n) else Count(n))
  }

  /** The zero-filled cards shown when there is nothing to show. */
  function ZeroCards(): seq<SummaryCard> {
    [Card(0, 0.0), Card(1, 0.0), Card(2, 0.0), Card(3, 0.0)]
  }

  /** `d`: `result.data || {}` when `result` and `result.status` are truthy;
      `None` when the zero cards are shown. */
  function SummaryPayload(result: JsValue): (r: Option<JsValue>)
    ensures r.Some? ==> !IsNullish(r.value)
    ensures r.Some? <==> Truthy(result) && Truthy(GetOpt(result, "status"))
    ensures r.Some? ==>
      r.value == (if Truthy(GetOpt(result, "data")) then GetOpt(result, "data") else Obj(map[]))
  {
    if !Truthy(result) then None
    else
      var status := Get(result, "status").value;
      if !Truthy(status) then None
      else
        var data := Get(result, "data").value;
        Some(if Truthy(data) then data else Obj(map[]))
  }

  /** The summary handler: always the four cards in their fixed order. With a
      usable body each shows `safeNumber` of its field, a 0 in the payload
      staying 0; otherwise all four are 0. */
  function SummaryCards(resp: Response, parse: Parser): (r: seq<SummaryCard>)
    ensures |r| == 4
    ensures forall i :: 0 <= i < 4 ==> r[i].title == SummaryTitles[i] && (r[i].value.Minutes? <==> i == 2)
    ensures !resp.Body? || SummaryPayload(resp.json).None? ==> r == ZeroCards()
    ensures resp.Body? && SummaryPayload(resp.json).Some? ==>
      forall i :: 0 <= i < 4 ==>
        r[i].value.n == SafeNumber(GetOpt(SummaryPayload(resp.json).value, SummaryKeys[i]), parse)
  {
    match resp
    case Body(json) =>
      (match SummaryPayload(json)
       case None => ZeroCards()
       case Some(d) =>
         [Card(0, SafeNumber(Get(d, SummaryKeys[0]).value, parse)),
          Card(1, SafeNumber(Get(d, SummaryKeys[1]).value, parse)),
          Card(2, SafeNumber(Get(d, SummaryKeys[2]).value, parse)),
          Card(3, SafeNumber(Get(d, SummaryKeys[3]).value, parse))])
    case _ => ZeroCards()
  }

  /** The zero fallback is exactly what a successful answer without data
      shows, so a failure and an empty day look the same. */
  lemma SummaryFallbackIsEmptyPayload(parse: Parser)
    ensures SummaryCards(Body(Obj(map["status" := Bool(true)])), parse) == ZeroCards()
    ensures SummaryCards(Forbidden, parse) == ZeroCards() && SummaryCards(Rejected, parse) == ZeroCards()
  {
    var d := Obj(map[]);
    assert SummaryPayload(Obj(map["status" := Bool(true)])) == Some(d);
  }

  // ---------------------------------------------------------------------------
  // Status breakdown

  /** `{ ...source, value }`: the element with its `value` replaced. */
  datatype BreakdownRow = BreakdownRow(source: JsValue, value: real)

  /** The breakdown callback; reading `it.value` throws on `null`/`undefined`. */
  function BreakdownRowOf(parse: Parser): JsValue -> Option<BreakdownRow> {
    (it: JsValue) => if IsNullish(it) then None else Some(BreakdownRow(it, SafeNumber(Get(it, "value").value, parse)))
  }

  /** `(result.data || [])` once `result.status` is truthy: its elements when
      it is an array, `None` when `.map` is missing and the call throws. */
  function BreakdownElements(result: JsValue): Option<seq<JsValue>>
    requires !IsNullish(result)
  {
    var data := Get(result, "data").value;
    if !Truthy(data) then Some([]) else if data.Arr? then Some(data.elems) else None
  }

  /** The breakdown handler: `[]` on a 403, a rejection, a falsy status, a
      `data` that is not an array or an element that is `null`/`undefined`
      (the last two throw into `.catch`). Otherwise one row per element, in
      order, keeping the element and normalising its `value`. */
  function BreakdownRows(resp: Response, parse: Parser): (r: seq<BreakdownRow>)
    ensures !resp.Body? || !Truthy(resp.json) || !Truthy(GetOpt(resp.json, "status")) ==> r == []
    ensures resp.Body? && Truthy(resp.json) && Truthy(GetOpt(resp.json, "status")) ==>
      match BreakdownElements(resp.json)
      case None => r == []
      case Some(es) =>
        && ((exists i :: 0 <= i < |es| && IsNullish(es[i])) ==> r == [])
        && ((forall i :: 0 <= i < |es| ==> !IsNullish(es[i])) ==>
              && |r| == |es|
              && forall i :: 0 <= i < |es| ==>
                   r[i].source == es[i] && r[i].value == SafeNumber(GetOpt(es[i], "value"), parse))
  {
    match resp
    case Body(json) =>
      if !Truthy(json) || !Truthy(Get(json, "status").value) then []
      else
        (match BreakdownElements(json)
         case None => []
         case Some(es) => MapAll(es, BreakdownRowOf(parse)).GetOr([]))
    case _ => []
  }

  // ---------------------------------------------------------------------------
  // Average delivery time per day

  datatype AvgRow = AvgRow(day: JsValue, avgTime: real)

  /** The average callback: `day` from `r.day ?? r.date ?? ""`, `avgTime` from
      the first present of `avgTime`, `avg_time`, `avg_delivery_time`. */
  function AvgRowOf(parse: Parser): JsValue -> Option<AvgRow> {
    (r: JsValue) =>
      if IsNullish(r) then None
      else
        Some(AvgRow(
          Coalesce(Coalesce(Get(r, "day").value, Get(r, "date").value), Str("")),
          SafeNumber(Coalesce(Coalesce(Get(r, "avgTime").value, Get(r, "avg_time").value),
                              Get(r, "avg_delivery_time").value), parse)))
  }

  /** The average handler, which does not look at `status`: `data?.data` when
      it is an array, else `[]`; a `null`/`undefined` element throws into
      `.catch`, which also gives `[]`. */
  function AvgRows(resp: Response, parse: Parser): (r: seq<AvgRow>)
    ensures !resp.Body? || !GetOpt(resp.json, "data").Arr? ==> r == []
    ensures resp.Body? && GetOpt(resp.json, "data").Arr? ==>
      var es := GetOpt(resp.json, "data").elems;
      && ((exists i :: 0 <= i < |es| && IsNullish(es[i])) ==> r == [])
      && ((forall i :: 0 <= i < |es| ==> !IsNullish(es[i])) ==>
            && |r| == |es|
            && forall i :: 0 <= i < |es| ==>
                 && r[i].day == Coalesce(Coalesce(GetOpt(es[i], "day"), GetOpt(es[i], "date")), Str(""))
                 && r[i].avgTime == SafeNumber(
                      Coalesce(Coalesce(GetOpt(es[i], "avgTime"), GetOpt(es[i], "avg_time")),
                               GetOpt(es[i], "avg_delivery_time")), parse))
  {
    match resp
    case Body(json) =>
      var data := GetOpt(json, "data");
      if data.Arr? then MapAll(data.elems, AvgRowOf(parse)).GetOr([]) else []
    case _ => []
  }

  /** The fallbacks in action: a row that only has `date` and `avg_time` is
      read through them, and a row with none of the fields gives `""` and 0. */
  lemma AvgRowFallbacks(parse: Parser, date: string, t: real)
    ensures AvgRowOf(parse)(Obj(map["date" := Str(date), "avg_time" := Num(t)])) == Some(AvgRow(Str(date), t))
    ensures AvgRowOf(parse)(Obj(map[])) == Some(AvgRow(Str(""), 0.0))
  {
  }

  // ---------------------------------------------------------------------------
  // Stage summary

  datatype StageRow = StageRow(stage: JsValue, orders: real, percent: real, avg: real)

  /** The stage callback: `stage` is the item's `status`, `avg` is
      `Number(avg_time)` when that is truthy and 0 otherwise. */
  function StageRowOf(parse: Parser): JsValue -> Option<StageRow> {
    (item: JsValue) =>
      if IsNullish(item) then None
      else
        Some(StageRow(
          Get(item, "status").value,
          SafeNumber(Get(item, "orders").value, parse),
          SafeNumber(Get(item, "percent").value, parse),
          TruthyNumber(Get(item, "avg_time").value, parse)))
  }

  /** The stage handler: `[]` unless `data?.status` is truthy and `data.data`
      is an array whose elements are all objects or other non-nullish values;
      then one row per element, in order. */
  function StageRows(resp: Response, parse: Parser): (r: seq<StageRow>)
    ensures !resp.Body? || !Truthy(GetOpt(resp.json, "status")) || !GetOpt(resp.json, "data").Arr? ==> r == []
    ensures resp.Body? && Truthy(GetOpt(resp.json, "status")) && GetOpt(resp.json, "data").Arr? ==>
      var es := GetOpt(resp.json, "data").elems;
      && ((exists i :: 0 <= i < |es| && IsNullish(es[i])) ==> r == [])
      && ((forall i :: 0 <= i < |es| ==> !IsNullish(es[i])) ==>
            && |r| == |es|
            && forall i :: 0 <= i < |es| ==>
                 && r[i].stage == GetOpt(es[i], "status")
                 && r[i].orders == SafeNumber(GetOpt(es[i], "orders"), parse)
                 && r[i].percent == SafeNumber(GetOpt(es[i], "percent"), parse)
                 && r[i].avg == SafeNumber(GetOpt(es[i], "avg_time"), parse))
  {
    match resp
    case Body(json) =>
      var data := GetOpt(json, "data");
      if !Truthy(GetOpt(json, "status")) || !data.Arr? then []
      else
        var rows := MapAll(data.elems, StageRowOf(parse));
        assert rows.Some? ==> forall i :: 0 <= i < |data.elems| ==>
          rows.value[i].avg == SafeNumber(GetOpt(data.elems[i], "avg_time"), parse) by {
          forall x: JsValue { TruthyNumberIsSafeNumber(x, parse); }
        }
        rows.GetOr([])
    case _ => []
  }

  // ---------------------------------------------------------------------------
  // formatStageLabel

  predicate IsAlnum(c: char) { IsUpper(c) || IsLower(c) || IsDigit(c) }

  predicate IsSeparator(c: char) { c == '_' || c == '-' }

  /** `replace(/[_-]/g, " ")`. */
  function SeparatorsToSpaces(s: string): (r: string)
    ensures |r| == |s|
    ensures forall i :: 0 <= i < |s| ==> r[i] == if IsSeparator(s[i]) then ' ' else s[i]
  {
    seq(|s|, i requires 0 <= i < |s| => if IsSeparator(s[i]) then ' ' else s[i])
  }

  /** Where `\b\w` matches: a word character at the start or after a non-word
      character. */
  predicate WordStart(t: string, i: int)
    requires 0 <= i < |t|
  {
    IsWordChar(t[i]) && (i == 0 || !IsWordChar(t[i - 1]))
  }

  /** `replace(/\b\w/g, c => c.toUpperCase())`. */
  function CapitalizeWords(t: string): (r: string)
    ensures |r| == |t|
    ensures forall i :: 0 <= i < |t| ==> r[i] == if WordStart(t, i) then ToUpper(t[i]) else t[i]
  {
    seq(|t|, i requires 0 <= i < |t| => if WordStart(t, i) then ToUpper(t[i]) else t[i])
  }

  /** The label character at position `i`, stated on the input alone: a
      separator becomes a space, the first letter or digit of each run of
      letters and digits is upper-cased, everything else lower-cased. */
  function LabelChar(s: string, i: int): char
    requires 0 <= i < |s|
  {
    if IsSeparator(s[i]) then ' '
    else if IsAlnum(s[i]) && (i == 0 || !IsAlnum(s[i - 1])) then ToUpper(ToLower(s[i]))
    else ToLower(s[i])
  }

  /** `formatStageLabel` on a string: the three rewrites in order, which agree
      character by character with `LabelChar`. */
  function FormatLabel(s: string): (r: string)
    ensures |r| == |s|
    ensures forall i :: 0 <= i < |s| ==> r[i] == LabelChar(s, i)
  {
    var t := LowerString(SeparatorsToSpaces(s));
    assert forall i :: 0 <= i < |s| ==> IsWordChar(t[i]) == (!IsSeparator(s[i]) && IsAlnum(s[i]));
    CapitalizeWords(t)
  }

  /** What the label promises: no `_` or `-` is left, each word starts with a
      character that is not a lower-case letter and continues with characters
      that are not upper-case letters. */
  lemma FormatLabelShape(s: string)
    ensures forall i :: 0 <= i < |s| ==> !IsSeparator(FormatLabel(s)[i])
    ensures forall i :: 0 <= i < |s| && WordStart(FormatLabel(s), i) ==> !IsLower(FormatLabel(s)[i])
    ensures forall i :: 0 <= i < |s| && !WordStart(FormatLabel(s), i) ==> !IsUpper(FormatLabel(s)[i])
  {
    var r := FormatLabel(s);
    forall i | 0 <= i < |s|
      ensures IsWordChar(r[i]) == (!IsSeparator(s[i]) && IsAlnum(s[i]))
    {
    }
  }

  /** Formatting a formatted label changes nothing. */
  lemma FormatLabelIdempotent(s: string)
    ensures FormatLabel(FormatLabel(s)) == FormatLabel(s)
  {
    var r := FormatLabel(s);
    forall i | 0 <= i < |s|
      ensures IsAlnum(r[i]) == (!IsSeparator(s[i]) && IsAlnum(s[i]))
      ensures !IsSeparator(r[i])
    {
    }
    forall i | 0 <= i < |s|
      ensures LabelChar(r, i) == r[i]
    {
    }
  }

  /** `formatStageLabel(stage)`: `""` for a falsy value; a truthy value that is
      not a string has no `replace` and throws (`None`). */
  function FormatStageLabel(stage: JsValue): (r: Option<string>)
    ensures !Truthy(stage) ==> r == Some("")
    ensures Truthy(stage) && !stage.Str? ==> r.None?
    ensures stage.Str? ==> r == Some(FormatLabel(stage.s))
  {
    if !Truthy(stage) then Some("")
    else if stage.Str? then Some(FormatLabel(stage.s))
    else None
  }

  // ---------------------------------------------------------------------------
  // Page state

  datatype Block = SummaryBlock | BreakdownBlock | AvgBlock | StageBlock

  datatype DashboardState = DashboardState(
    summary: seq<SummaryCard>, breakdown: seq<BreakdownRow>, avg: seq<AvgRow>, stages: seq<StageRow>,
    loadingSummary: bool, loadingBreakdown: bool, loadingAvg: bool, loadingStage: bool,
    browser: Browser)

  /** The state on mount: empty blocks, all four spinners on. */
  function Initial(b: Browser): DashboardState {
    DashboardState([], [], [], [], true, true, true, true, b)
  }

  function Loading(st: DashboardState, b: Block): bool {
    match b
    case SummaryBlock => st.loadingSummary
    case BreakdownBlock => st.loadingBreakdown
    case AvgBlock => st.loadingAvg
    case StageBlock => st.loadingStage
  }

  /** The part of the state a block owns. */
  function Owned(st: DashboardState, b: Block): (seq<SummaryCard>, seq<BreakdownRow>, seq<AvgRow>, seq<StageRow>) {
    match b
    case SummaryBlock => (st.summary, [], [], [])
    case BreakdownBlock => ([], st.breakdown, [], [])
    case AvgBlock => ([], [], st.avg, [])
    case StageBlock => ([], [], [], st.stages)
  }

  /** One response arriving: its block's data is replaced by the normalised
      value, its spinner stops on every path, and a 403 expires the session.
      The other blocks are untouched. */
  function Arrive(st: DashboardState, b: Block, resp: Response, parse: Parser): (r: DashboardState)
    ensures !Loading(r, b)
    ensures forall c :: c != b ==> Loading(r, c) == Loading(st, c) && Owned(r, c) == Owned(st, c)
    ensures b == SummaryBlock ==> r.summary == SummaryCards(resp, parse)
    ensures b == BreakdownBlock ==> r.breakdown == BreakdownRows(resp, parse)
    ensures b == AvgBlock ==> r.avg == AvgRows(resp, parse)
    ensures b == StageBlock ==> r.stages == StageRows(resp, parse)
    ensures r.browser == if resp.Forbidden? then ExpireSession(st.browser) else st.browser
  {
    var st' := if resp.Forbidden? then st.(browser := ExpireSession(st.browser)) else st;
    match b
    case SummaryBlock => st'.(summary := SummaryCards(resp, parse), loadingSummary := false)
    case BreakdownBlock => st'.(breakdown := BreakdownRows(resp, parse), loadingBreakdown := false)
    case AvgBlock => st'.(avg := AvgRows(resp, parse), loadingAvg := false)
    case StageBlock => st'.(stages := StageRows(resp, parse), loadingStage := false)
  }

  /** Responses to different blocks can arrive in either order. */
  lemma ArrivalsCommute(st: DashboardState, a: Block, ra: Response, b: Block, rb: Response, parse: Parser)
    requires a != b
    ensures Arrive(Arrive(st, a, ra, parse), b, rb, parse) == Arrive(Arrive(st, b, rb, parse), a, ra, parse)
  {
  }

  /** A run of arrivals, in order. */
  function ArriveAll(st: DashboardState, events: seq<(Block, Response)>, parse: Parser): DashboardState
    decreases |events|
  {
    if |events| == 0 then st
    else ArriveAll(Arrive(st, events[0].0, events[0].1, parse), events[1..], parse)
  }

  /** After any run of arrivals a spinner is still on exactly when its block
      was loading and received no response. */
  lemma {:induction false} ArriveAllLoading(st: DashboardState, events: seq<(Block, Response)>, parse: Parser, b: Block)
    ensures Loading(ArriveAll(st, events, parse), b) <==> Loading(st, b) && forall i :: 0 <= i < |events| ==> events[i].0 != b
    decreases |events|
  {
    if |events| > 0 {
      var st' := Arrive(st, events[0].0, events[0].1, parse);
      ArriveAllLoading(st', events[1..], parse, b);
      assert forall i :: 1 <= i < |events| ==> events[i].0 == events[1..][i - 1].0;
    }
  }

  /** Some response in the run is for block `b`. */
  predicate Answered(events: seq<(Block, Response)>, b: Block) {
    exists i :: 0 <= i < |events| && events[i].0 == b
  }

  /** Once each of the four requests has answered, in whatever order and
      however (403 included), no spinner is left. */
  lemma AllSettled(st: DashboardState, events: seq<(Block, Response)>, parse: Parser)
    requires forall b: Block :: Answered(events, b)
    ensures forall b :: !Loading(ArriveAll(st, events, parse), b)
  {
    forall b: Block
      ensures !Loading(ArriveAll(st, events, parse), b)
    {
      assert Answered(events, b);
      ArriveAllLoading(st, events, parse, b);
    }
  }
}

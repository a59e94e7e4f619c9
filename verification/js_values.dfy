/** The JavaScript values an API payload can hold after `res.json()`, plus
    `undefined`, with the three operations the dashboard normalisers rely on:
    truthiness, property access (which throws on `null`/`undefined`) and
    `Number(v)`. JavaScript numbers are modelled as reals: `NaN` appears only as
    the `None` result of a conversion, and infinities are not modelled. */
module JsValues {
  import opened Wrappers

  datatype JsValue =
    | Undefined
    | Null
    | Bool(b: bool)
    | Num(n: real)
    | Str(s: string)
    | Arr(elems: seq<JsValue>)
    | Obj(fields: map<string, JsValue>)

  predicate IsNullish(v: JsValue) {
    v.Undefined? || v.Null?
  }

  /** `!!v`. */
  predicate Truthy(v: JsValue) {
    match v
    case Undefined => false
    case Null => false
    case Bool(b) => b
    case Num(n) => n != 0.0
    case Str(s) => s != ""
    case Arr(_) => true
    case Obj(_) => true
  }

  /** `v.key`: `None` is the TypeError thrown when `v` is `null` or `undefined`.
      Only an object's own fields are looked up; every other value answers
      `undefined` (built-in properties such as `length` are not modelled). */
  function Get(v: JsValue, key: string): (r: Option<JsValue>)
    ensures r.None? <==> IsNullish(v)
    ensures r.Some? && !r.value.Undefined? ==> v.Obj? && key in v.fields && v.fields[key] == r.value
    ensures v.Obj? ==> r == Some(if key in v.fields then v.fields[key] else Undefined)
    ensures !v.Obj? && !IsNullish(v) ==> r == Some(Undefined)
  {
    match v
    case Undefined => None
    case Null => None
    case Obj(m) => Some(if key in m then m[key] else Undefined)
    case _ => Some(Undefined)
  }

  /** `v?.key`: optional chaining never throws. */
  function GetOpt(v: JsValue, key: string): (r: JsValue)
    ensures IsNullish(v) ==> r == Undefined
    ensures !IsNullish(v) ==> Some(r) == Get(v, key)
  {
    if IsNullish(v) then Undefined else Get(v, key).value
  }

  /** `a ?? b`. */
  function Coalesce(a: JsValue, b: JsValue): (r: JsValue)
    ensures IsNullish(a) ==> r == b
    ensures !IsNullish(a) ==> r == a
  {
    if IsNullish(a) then b else a
  }

  /** `Number(s)` for a non-empty string is delegated to `parse`, which stands
      for the engine's StringToNumber (`None` is `NaN`). */
  type Parser = string -> Option<real>

  /** `Number(s)`: the empty string converts to 0. */
  function StringToNumber(s: string, parse: Parser): Option<real> {
    if s == "" then Some(0.0) else parse(s)
  }

  /** `Number(v)`; `None` is `NaN`. Arrays go through `String(v)`: `[]` is 0,
      a one-element array converts its element's string form, and two or more
      elements give a comma in the string and hence `NaN`. */
  function ToNumber(v: JsValue, parse: Parser): (r: Option<real>)
    ensures IsNullish(v) ==> (r.Some? <==> v.Null?) && (v.Null? ==> r == Some(0.0))
    ensures v.Bool? ==> r == Some(if v.b then 1.0 else 0.0)
    ensures v.Num? ==> r == Some(v.n)
    ensures v.Obj? ==> r.None?
    ensures v == Str("") || v == Arr([]) ==> r == Some(0.0)
    ensures v.Arr? && |v.elems| >= 2 ==> r.None?
    ensures v.Arr? && |v.elems| == 1 && (v.elems[0].Num? || v.elems[0].Str? || v.elems[0].Arr?) ==>
      r == ToNumber(v.elems[0], parse)
    ensures v.Arr? && |v.elems| == 1 && IsNullish(v.elems[0]) ==> r == Some(0.0)
    ensures v.Arr? && |v.elems| == 1 && (v.elems[0].Bool? || v.elems[0].Obj?) ==> r.None?
    decreases v, 2
  {
    match v
    case Undefined => None
    case Null => Some(0.0)
    case Bool(b) => Some(if b then 1.0 else 0.0)
    case Num(n) => Some(n)
    case Str(s) => StringToNumber(s, parse)
    case Obj(_) => None
    case Arr(es) =>
      assert |es| == 1 ==> ArrayToNumber(es, parse) == ElementToNumber(es[0], parse);
      assert |es| == 1 && (es[0].Num? || es[0].Str? || es[0].Arr?) ==>
        ElementToNumber(es[0], parse) == ToNumber(es[0], parse);
      ArrayToNumber(es, parse)
  }

  /** `Number(String(es))` for an array with elements `es`. */
  function ArrayToNumber(es: seq<JsValue>, parse: Parser): Option<real>
    decreases es, 1
  {
    if |es| == 0 then Some(0.0)
    else if |es| >= 2 then None
    else ElementToNumber(es[0], parse)
  }

  /** `Number(String(x))` for the only element `x` of an array: `null` and
      `undefined` print as the empty string, booleans and objects as words. */
  function ElementToNumber(x: JsValue, parse: Parser): Option<real>
    decreases x, 0
  {
    match x
    case Undefined => Some(0.0)
    case Null => Some(0.0)
    case Bool(_) => None
    case Num(n) => Some(n)
    case Str(s) => StringToNumber(s, parse)
    case Obj(_) => None
    case Arr(es) => ArrayToNumber(es, parse)
  }

  /** `safeNumber` (Dashboard3): 0 for `null`, `undefined` and `""`, 0 when the
      conversion gives `NaN`, and the converted number otherwise. */
  function SafeNumber(v: JsValue, parse: Parser): (r: real)
    ensures IsNullish(v) || v == Str("") ==> r == 0.0
    ensures r == ToNumber(v, parse).GetOr(0.0)
  {
    if v == Null || v == Undefined || v == Str("") then 0.0
    else
      match ToNumber(v, parse)
      case None => 0.0
      case Some(n) => n
  }

  /** `Number(v) ? Number(v) : 0`: the converted number when it is truthy. */
  function TruthyNumber(v: JsValue, parse: Parser): (r: real)
    ensures r != 0.0 <==> ToNumber(v, parse).Some? && ToNumber(v, parse).value != 0.0
    ensures r != 0.0 ==> ToNumber(v, parse) == Some(r)
  {
    match ToNumber(v, parse)
    case Some(n) => if n != 0.0 then n else 0.0
    case None => 0.0
  }

  /** The stage table's `avg` rule and `safeNumber` agree on every input: the
      explicit `null`/`undefined`/`""` guard of `safeNumber` only repeats what
      `Number` already does. */
  lemma TruthyNumberIsSafeNumber(v: JsValue, parse: Parser)
    ensures TruthyNumber(v, parse) == SafeNumber(v, parse)
  {
  }

  /** Normalising an already normalised value changes nothing. */
  lemma SafeNumberIdempotent(v: JsValue, parse: Parser)
    ensures SafeNumber(Num(SafeNumber(v, parse)), parse) == SafeNumber(v, parse)
  {
  }
}

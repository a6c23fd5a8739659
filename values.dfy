/** The JavaScript values the lookup code inspects: parsed JSON response
    bodies, cached tokens and option values. Numbers are integers (floating
    point is not modelled, and so there is no NaN). */
module JsValues {
  import opened Outcomes

  datatype Value =
    | Undefined
    | Null
    | Bool(b: bool)
    | Num(n: int)
    | Str(s: string)
    | Arr(elems: seq<Value>)
    | Obj(props: map<string, Value>)

  /** `String.prototype.endsWith`. */
  predicate EndsWith(s: string, suffix: string)
  {
    |suffix| <= |s| && s[|s| - |suffix|..] == suffix
  }

  /** JavaScript truthiness, `!!v`. */
  predicate Truthy(v: Value)
  {
    match v
    case Undefined => false
    case Null => false
    case Bool(b) => b
    case Num(n) => n != 0
    case Str(s) => |s| > 0
    case Arr(_) => true
    case Obj(_) => true
  }

  /** Property read `v.key` for the data keys the core reads (`data`,
      `access_token`, `jwt`, `access`): `None` when the read throws a
      TypeError, that is when `v` is `null` or `undefined`. */
  function Get(v: Value, key: string): (r: Option<Value>)
    ensures r.None? <==> v.Null? || v.Undefined?
    ensures r.Some? && r.value != Undefined ==> v.Obj? && key in v.props && v.props[key] == r.value
  {
    match v
    case Undefined => None
    case Null => None
    case Obj(props) => if key in props then Some(props[key]) else Some(Undefined)
    case _ => Some(Undefined)
  }

  /** lodash `_.isEmpty` on JSON values: `null`, `undefined`, booleans and
      numbers are empty; strings and arrays by length; objects when they have
      no own key. */
  predicate IsEmpty(v: Value)
  {
    match v
    case Str(s) => |s| == 0
    case Arr(elems) => |elems| == 0
    case Obj(props) => |props| == 0
    case _ => true
  }

  /** `_isMiss` of integration.js: falsy, or an array of length zero. */
  predicate IsMiss(v: Value)
  {
    !Truthy(v) || (v.Arr? && |v.elems| == 0)
  }

  /** Every value `_isMiss` accepts is also empty for `_.isEmpty`, so the
      disjunction in the result assembly is decided by `_.isEmpty` alone; the
      values that are neither are the non-empty strings, arrays and objects. */
  lemma MissIsEmpty(v: Value)
    ensures IsMiss(v) ==> IsEmpty(v)
    ensures (IsMiss(v) || IsEmpty(v)) <==> IsEmpty(v)
    ensures !IsEmpty(v) <==> (v.Str? && |v.s| > 0) || (v.Arr? && |v.elems| > 0) || (v.Obj? && |v.props| > 0)
  {
  }

  /** The number a string of decimal digits denotes, most significant first. */
  function DigitsValue(s: string): int
  {
    if |s| == 0 then 0 else DigitsValue(s[..|s| - 1]) * 10 + (s[|s| - 1] as int - '0' as int)
  }

  /** Decimal digits of a natural number: digits only, no leading zero, and
      denoting the number itself. */
  function NatToString(n: nat): (r: string)
    ensures |r| > 0 && (forall i :: 0 <= i < |r| ==> '0' <= r[i] <= '9')
    ensures r[0] == '0' ==> n == 0 && |r| == 1
    ensures DigitsValue(r) == n
  {
    var d := ['0' + (n % 10) as char];
    if n < 10 then d else NatToString(n / 10) + d
  }

  /** JavaScript `String(v)`, what `'Bearer ' + v` concatenates. */
  function ToJsString(v: Value): string
    decreases v, 1
  {
    match v
    case Undefined => "undefined"
    case Null => "null"
    case Bool(b) => if b then "true" else "false"
    case Num(n) => if n < 0 then "-" + NatToString(-n) else NatToString(n)
    case Str(s) => s
    case Arr(elems) => JoinElements(v, |elems|)
    case Obj(_) => "[object Object]"
  }

  /** `Array.prototype.join(',')` over the first `k` elements of array `v`,
      where `null` and `undefined` elements print as the empty string. */
  function JoinElements(v: Value, k: nat): string
    requires v.Arr? && k <= |v.elems|
    decreases v, 0, k
  {
    if k == 0 then ""
    else
      var e := v.elems[k - 1];
      var piece := if e.Null? || e.Undefined? then "" else ToJsString(e);
      if k == 1 then piece else JoinElements(v, k - 1) + "," + piece
  }
}

/**
 * The JavaScript values that the two HTTP handlers read out of a parsed JSON
 * request body, with JavaScript's truthiness and its string conversion
 * (the one used by template literals and by property-key lookup).
 */
module JsValues {
  import opened Wrappers

  /** A parsed JSON value, plus `undefined` for a property that is absent.
      Numbers are integers. */
  datatype JsValue =
    | Undefined
    | Null
    | Bool(b: bool)
    | Num(n: int)
    | Str(s: string)
    | Arr(elems: seq<JsValue>)
    | Obj(fields: map<string, JsValue>)

  /** A request body: a JSON object. */
  type Body = map<string, JsValue>

  /** `!v` is false. */
  predicate Truthy(v: JsValue) {
    match v
    case Undefined => false
    case Null => false
    case Bool(b) => b
    case Num(n) => n != 0
    case Str(s) => s != ""
    case Arr(_) => true
    case Obj(_) => true
  }

  /** `body.key`: an absent property reads as `undefined`. */
  function Field(body: Body, key: string): JsValue {
    if key in body then body[key] else Undefined
  }

  /** A destructuring default `{key = d} = body`: it replaces `undefined`
      only, never `null`, `""` or `false`. */
  function WithDefault(v: JsValue, d: JsValue): JsValue {
    if v.Undefined? then d else v
  }

  function DigitChar(d: nat): (c: char)
    requires d < 10
    ensures '0' <= c <= '9'
  {
    ('0' as int + d) as char
  }

  /** The decimal digits of `n`, most significant first, without leading zeros. */
  function NatToString(n: nat): (s: string)
    ensures 1 <= |s|
    ensures forall i :: 0 <= i < |s| ==> '0' <= s[i] <= '9'
    ensures n < 10 <==> |s| == 1
  {
    if n < 10 then [DigitChar(n)] else NatToString(n / 10) + [DigitChar(n % 10)]
  }

  /** Two numbers with the same decimal string are the same number. */
  lemma {:induction false} NatToStringInjective(a: nat, b: nat)
    requires NatToString(a) == NatToString(b)
    ensures a == b
  {
    if 10 <= a && 10 <= b {
      var sa, sb := NatToString(a), NatToString(b);
      assert sa[..|sa| - 1] == NatToString(a / 10);
      assert sb[..|sb| - 1] == NatToString(b / 10);
      NatToStringInjective(a / 10, b / 10);
      assert DigitChar(a % 10) == sa[|sa| - 1] == sb[|sb| - 1] == DigitChar(b % 10);
    }
  }

  /** `String(n)` for an integer. */
  function IntToString(n: int): string {
    if n < 0 then "-" + NatToString(-n) else NatToString(n)
  }

  /** `String(v)`: what a template literal `${v}` inserts and what a
      computed property access `o[v]` looks up; `None` when the conversion
      throws a TypeError. An array is joined with commas, its `null` and
      `undefined` elements becoming empty. A JSON object converts through
      its `toString`: the inherited one gives "[object Object]", but an own
      `"toString"` key holds a JSON value, which cannot be called, and the
      `valueOf` fallback returns the object itself, so the conversion throws. */
  function ToDisplayString(v: JsValue): (r: Option<string>)
    ensures v.Str? ==> r == Some(v.s)
    ensures v.Obj? ==> (r.None? <==> "toString" in v.fields)
    ensures r.None? ==> v.Obj? || v.Arr?
    decreases v, 1, 0
  {
    match v
    case Undefined => Some("undefined")
    case Null => Some("null")
    case Bool(b) => Some(if b then "true" else "false")
    case Num(n) => Some(IntToString(n))
    case Str(s) => Some(s)
    case Arr(_) => JoinFrom(v, 0, ",")
    case Obj(fields) => if "toString" in fields then None else Some("[object Object]")
  }

  /** `v.elems.slice(i).join(sep)`: `null` and `undefined` elements become
      empty; the join throws if converting an element throws. */
  function JoinFrom(v: JsValue, i: nat, sep: string): (r: Option<string>)
    requires v.Arr? && i <= |v.elems|
    ensures (forall k :: i <= k < |v.elems| ==> v.elems[k].Str?) ==> r.Some?
    decreases v, 0, |v.elems| - i
  {
    if i == |v.elems| then Some("")
    else
      var e := v.elems[i];
      var piece := if e.Undefined? || e.Null? then Some("") else ToDisplayString(e);
      if piece.None? then None
      else if i + 1 == |v.elems| then piece
      else
        var rest := JoinFrom(v, i + 1, sep);
        if rest.None? then None else Some(piece.value + sep + rest.value)
  }
}

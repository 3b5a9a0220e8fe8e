/** JavaScript values as the client sees them: the bodies the HTTP transport hands
    back, the values JSON parsing yields and the session token the client stores.
    The client tests these values for truthiness, reads properties from them and
    concatenates them into strings, so those three operations of the language are
    written out here. */
module JsValues {

  datatype Option<+T> = None | Some(value: T)

  /** A JavaScript value. Numbers are modelled as integers; an object keeps its
      properties in insertion order. */
  datatype JsValue =
    | Undefined
    | Null
    | Bool(b: bool)
    | Num(n: int)
    | Str(s: string)
    | Arr(items: seq<JsValue>)
    | Obj(props: seq<(string, JsValue)>)

  /** The result of the `typeof` operator. */
  function TypeOf(v: JsValue): string {
    match v
    case Undefined => "undefined"
    case Null => "object"
    case Bool(_) => "boolean"
    case Num(_) => "number"
    case Str(_) => "string"
    case Arr(_) => "object"
    case Obj(_) => "object"
  }

  /** Whether `v` counts as true in a condition (`if (v)`, `!v`, `v || w`). */
  predicate Truthy(v: JsValue) {
    match v
    case Undefined => false
    case Null => false
    case Bool(b) => b
    case Num(n) => n != 0
    case Str(s) => s != ""
    case Arr(_) => true
    case Obj(_) => true
  }

  /** Loose comparison with null: `v == null`. */
  predicate IsNullish(v: JsValue) {
    v.Null? || v.Undefined?
  }

  /** Whether no property after position `i` has the name `key`. */
  predicate IsLastKey(props: seq<(string, JsValue)>, key: string, i: nat) {
    forall j :: i < j < |props| ==> props[j].0 != key
  }

  /** Looks a key up among an object's properties; when a key occurs more than
      once the last occurrence wins, as it does for JSON.parse. */
  function Lookup(props: seq<(string, JsValue)>, key: string): (r: JsValue)
    ensures r == Undefined || (key, r) in props
    ensures (forall i :: 0 <= i < |props| ==> props[i].0 != key) ==> r == Undefined
  {
    if props == [] then Undefined
    else if props[|props| - 1].0 == key then props[|props| - 1].1
    else Lookup(props[..|props| - 1], key)
  }

  /** When a key occurs more than once, the lookup yields its last occurrence. */
  lemma {:induction false} LookupFindsLastOccurrence(props: seq<(string, JsValue)>, key: string, i: nat)
    requires i < |props| && props[i].0 == key && IsLastKey(props, key, i)
    ensures Lookup(props, key) == props[i].1
    decreases |props|
  {
    if i < |props| - 1 {
      LookupFindsLastOccurrence(props[..|props| - 1], key, i);
    }
  }

  /** Property access `v.key`. On null or undefined the language raises a
      TypeError, so callers must rule those out first. Only objects carry the
      named properties the client reads. */
  function Property(v: JsValue, key: string): (r: JsValue)
    requires !IsNullish(v)
    ensures !v.Obj? ==> r == Undefined
    ensures v.Obj? && r != Undefined ==> (key, r) in v.props
  {
    if v.Obj? then Lookup(v.props, key) else Undefined
  }

  function Digit(d: nat): char
    requires d < 10
  {
    "0123456789"[d]
  }

  function NatToString(n: nat): string
    decreases n
  {
    if n < 10 then [Digit(n)] else NatToString(n / 10) + [Digit(n % 10)]
  }

  function IntToString(n: int): string {
    if n < 0 then "-" + NatToString(-n) else NatToString(n)
  }

  /** `parts.join(sep)` on strings. */
  function Join(parts: seq<string>, sep: string): string
    decreases |parts|
  {
    if |parts| == 0 then ""
    else if |parts| == 1 then parts[0]
    else parts[0] + sep + Join(parts[1..], sep)
  }

  /** String conversion as `"text" + v` performs it. Arrays join their elements
      with commas, writing null and undefined elements as empty strings. */
  function ToString(v: JsValue): string
    decreases v
  {
    match v
    case Undefined => "undefined"
    case Null => "null"
    case Bool(b) => if b then "true" else "false"
    case Num(n) => IntToString(n)
    case Str(s) => s
    case Arr(items) =>
      Join(seq(|items|, i requires 0 <= i < |items| =>
                 if IsNullish(items[i]) then "" else ToString(items[i])), ",")
    case Obj(_) => "[object Object]"
  }
}

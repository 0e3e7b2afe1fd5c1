/** JavaScript values, and the handful of evaluation rules the application
    code relies on: truthiness, `??`, `||`, property reads that throw on
    `null`/`undefined`, `String(x)` and `String.prototype.includes`. */
module Js {

  datatype Option<+T> = None | Some(value: T)

  /** A JSON-like JavaScript value. Arrays and objects are treated as values
      (the application never mutates one it has shared). */
  datatype Value =
    | Undefined
    | Null
    | Bool(b: bool)
    | Num(n: real)
    | Str(s: string)
    | Arr(items: seq<Value>)
    | Obj(props: map<string, Value>)

  /** A thrown error: its `name` and its `message`. */
  datatype Exception = Exception(name: string, message: string)

  /** How an evaluation ends: with a value, or by throwing. */
  datatype Completion<+T> = Normal(value: T) | Abrupt(exc: Exception) {
    predicate IsFailure() { Abrupt? }

    function PropagateFailure<U>(): Completion<U>
      requires Abrupt?
    {
      Abrupt(exc)
    }

    function Extract(): T
      requires Normal?
    {
      value
    }
  }

  predicate Nullish(v: Value) {
    v.Undefined? || v.Null?
  }

  /** `!!v` (NaN is not modelled: every number is a real). */
  predicate Truthy(v: Value)
    ensures Truthy(v) ==> !Nullish(v)
  {
    match v
    case Undefined => false
    case Null => false
    case Bool(b) => b
    case Num(n) => n != 0.0
    case Str(s) => s != ""
    case Arr(_) => true
    case Obj(_) => true
  }

  /** `a ?? b` */
  function Coalesce(a: Value, b: Value): Value {
    if Nullish(a) then b else a
  }

  /** `a || b` */
  function Or(a: Value, b: Value): Value {
    if Truthy(a) then a else b
  }

  /** The value of `v[key]` for a base that is not `null`/`undefined`:
      an own property of an object, the `length` of an array or string,
      and `undefined` otherwise. Only `Get` may be applied to a nullish base. */
  function Prop(v: Value, key: string): Value {
    match v
    case Obj(m) => if key in m then m[key] else Undefined
    case Arr(items) => if key == "length" then Num(|items| as real) else Undefined
    case Str(s) => if key == "length" then Num(|s| as real) else Undefined
    case _ => Undefined
  }

  function TypeError(message: string): Exception {
    Exception("TypeError", message)
  }

  /** The error a read of `key` on `null` or `undefined` throws (V8's wording). */
  function ReadError(base: Value, key: string): Exception {
    TypeError("Cannot read properties of " + (if base.Null? then "null" else "undefined")
              + " (reading '" + key + "')")
  }

  /** `v.key`: throws on a nullish base, otherwise the property value. */
  function Get(v: Value, key: string): (r: Completion<Value>)
    ensures r.Abrupt? <==> Nullish(v)
    ensures r.Abrupt? ==> r.exc.name == "TypeError"
    ensures r.Normal? ==> r.value == Prop(v, key)
  {
    if Nullish(v) then Abrupt(ReadError(v, key)) else Normal(Prop(v, key))
  }

  /** `error.message` of a caught error, as a value. */
  function MessageOf(e: Exception): Value {
    Str(e.message)
  }

  /** `String(e)` for an Error (Error.prototype.toString). */
  function ErrorText(e: Exception): (t: string)
    ensures e.name != "" && e.message != "" ==> t == e.name + ": " + e.message
    ensures e.name == "" ==> t == e.message
    ensures e.message == "" ==> t == e.name
  {
    if e.name == "" then e.message
    else if e.message == "" then e.name
    else e.name + ": " + e.message
  }

  function Digit(d: nat): char
    requires d < 10
  {
    "0123456789"[d]
  }

  function NatText(n: nat): (t: string)
    ensures |t| > 0
    decreases n
  {
    if n < 10 then [Digit(n)] else NatText(n / 10) + [Digit(n % 10)]
  }

  function IntText(i: int): (t: string)
    ensures |t| > 0
  {
    if i < 0 then "-" + NatText(-i) else NatText(i)
  }

  function Join(parts: seq<string>, sep: string): string {
    if |parts| == 0 then ""
    else if |parts| == 1 then parts[0]
    else parts[0] + sep + Join(parts[1..], sep)
  }

  /** `String(v)`. A number is written through its floor (the integers are exact; a fraction such as -1.5 becomes "-2"). */
  function ToText(v: Value): string {
    match v
    case Undefined => "undefined"
    case Null => "null"
    case Bool(b) => if b then "true" else "false"
    case Num(n) => IntText(n.Floor)
    case Str(s) => s
    case Arr(items) =>
      Join(seq(|items|, i requires 0 <= i < |items| =>
                 if Nullish(items[i]) then "" else ToText(items[i])), ",")
    case Obj(_) => "[object Object]"
  }

  predicate IsPrefix(pre: string, s: string) {
    |pre| <= |s| && s[..|pre|] == pre
  }

  /** `s.includes(sub)` */
  predicate Includes(s: string, sub: string)
    decreases |s|
  {
    IsPrefix(sub, s) || (|s| > 0 && Includes(s[1..], sub))
  }

  /** `s.includes(sub)` holds exactly when `sub` occurs at some position of `s`. */
  lemma {:induction false} IncludesAt(s: string, sub: string)
    ensures Includes(s, sub) <==> exists i :: 0 <= i <= |s| - |sub| && IsPrefix(sub, s[i..])
    decreases |s|
  {
    if IsPrefix(sub, s) {
      assert s[0..] == s;
    } else if |s| == 0 {
    } else {
      IncludesAt(s[1..], sub);
      if Includes(s[1..], sub) {
        var i :| 0 <= i <= |s[1..]| - |sub| && IsPrefix(sub, s[1..][i..]);
        assert s[1..][i..] == s[i + 1..];
      }
      forall i | 0 <= i <= |s| - |sub| && IsPrefix(sub, s[i..])
        ensures Includes(s[1..], sub)
      {
        assert i != 0 by { assert s[0..] == s; }
        assert s[1..][i - 1..] == s[i..];
      }
    }
  }
}

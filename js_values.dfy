/**
 * The slice of JavaScript's value semantics that the command-line tool's
 * local logic depends on: truthiness, `typeof ... === 'object'`,
 * `instanceof Object`, property reads on a destructured option object,
 * the `\s` class of regular expressions and ASCII upper-casing.
 */
module JsValues {

  /** A JavaScript value. Numbers are integers; `NaN` is kept apart because it is falsy. */
  datatype JsValue =
    | Undefined
    | Null
    | Bool(b: bool)
    | Num(n: int)
    | NaN
    | Str(s: string)
    | Arr(items: seq<JsValue>)
    | Obj(props: map<string, JsValue>)
    | Func

  /** JavaScript truthiness: `false`, `0`, `NaN`, `''`, `null` and `undefined` are falsy. */
  predicate Truthy(v: JsValue)
  {
    match v
    case Undefined => false
    case Null => false
    case Bool(b) => b
    case Num(n) => n != 0
    case NaN => false
    case Str(s) => s != ""
    case _ => true
  }

  /** `typeof v === 'object'`: true of `null`, arrays and plain objects, not of functions. */
  predicate IsTypeofObject(v: JsValue)
  {
    v.Null? || v.Arr? || v.Obj?
  }

  /** `v instanceof Object`: arrays, plain objects and functions, never a primitive or `null`. */
  predicate IsInstanceOfObject(v: JsValue)
  {
    v.Arr? || v.Obj? || v.Func?
  }

  /** Property access on `null` or `undefined` throws a TypeError. */
  predicate IsNullish(v: JsValue)
  {
    v.Undefined? || v.Null?
  }

  /** `Object.keys(v).length` for a value that is an object: array indices, own keys, none for a function. */
  function OwnKeyCount(v: JsValue): nat
    requires IsInstanceOfObject(v)
  {
    match v
    case Arr(items) => |items|
    case Obj(props) => |props|
    case Func => 0
  }

  /** The value destructuring `{ k }` out of an option object yields: `undefined` for a missing key. */
  function Get(m: map<string, JsValue>, k: string): JsValue
  {
    if k in m then m[k] else Undefined
  }

  /**
   * `v.k` for a value that is neither `null` nor `undefined`. Only plain
   * objects carry named own properties here; inherited properties are not modelled.
   */
  function Prop(v: JsValue, k: string): JsValue
    requires !IsNullish(v)
  {
    if v.Obj? then Get(v.props, k) else Undefined
  }

  /** A member of the `\s` class of ECMAScript regular expressions (white space and line terminators). */
  predicate IsWhiteSpace(c: char)
  {
    c == ' ' || c == '\t' || c == '\n' || c == '\r' || c == '\U{000B}' || c == '\U{000C}'
    || c == '\U{00A0}' || c == '\U{1680}' || ('\U{2000}' <= c <= '\U{200A}')
    || c == '\U{2028}' || c == '\U{2029}' || c == '\U{202F}' || c == '\U{205F}'
    || c == '\U{3000}' || c == '\U{FEFF}'
  }

  /**
   * `/^\s+$/.test(s)`: one or more characters, every one of them white
   * space (without the `m` flag, `^` and `$` anchor at the ends of the input).
   */
  predicate IsBlank(s: string)
  {
    |s| >= 1 && forall i :: 0 <= i < |s| ==> IsWhiteSpace(s[i])
  }

  /** `toUpperCase` on one character, restricted to the ASCII letters. */
  function UpperChar(c: char): char
  {
    if 'a' <= c <= 'z' then (c as int - 32) as char else c
  }

  /** `String.prototype.toUpperCase` for ASCII text. */
  function Upper(s: string): (u: string)
  {
    seq(|s|, i requires 0 <= i < |s| => UpperChar(s[i]))
  }

  /**
   * Upper-casing keeps the length, turns each lower-case letter into the
   * upper-case letter at the same place in the alphabet, leaves every other
   * character as it is, and so leaves no lower-case letter.
   */
  lemma UpperSpec(s: string)
    ensures |Upper(s)| == |s|
    ensures forall i :: 0 <= i < |s| && 'a' <= s[i] <= 'z' ==>
      'A' <= Upper(s)[i] <= 'Z' && Upper(s)[i] as int - 'A' as int == s[i] as int - 'a' as int
    ensures forall i :: 0 <= i < |s| && !('a' <= s[i] <= 'z') ==> Upper(s)[i] == s[i]
    ensures forall i :: 0 <= i < |s| ==> !('a' <= Upper(s)[i] <= 'z')
  {
  }

  /** Upper-casing twice is upper-casing once. */
  lemma UpperIdempotent(s: string)
    ensures Upper(Upper(s)) == Upper(s)
  {
  }
}

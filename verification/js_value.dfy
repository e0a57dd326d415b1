/** The loosely typed JavaScript values a configuration tree is made of, and the
    few operations of the language the validator relies on: truthiness, `||`,
    reading and writing a property, and `String.prototype.toUpperCase`. */
module JsValue {

  /** A JavaScript value. Objects are modelled by their own properties, as values:
      object identity and sharing between two places of the tree are not modelled.
      Numbers are integers plus the one falsy non-zero number, NaN. */
  datatype Value =
    | Undefined
    | Null
    | Bool(b: bool)
    | Num(n: int)
    | NaN
    | Str(s: string)
    | Arr(elems: seq<Value>)
    | Obj(props: map<string, Value>)

  /** JavaScript truthiness: `undefined`, `null`, `false`, `0`, `NaN` and `""` are
      falsy; every other value, the empty array and the empty object included, is truthy. */
  predicate Truthy(v: Value) {
    match v
    case Undefined => false
    case Null => false
    case Bool(b) => b
    case Num(n) => n != 0
    case NaN => false
    case Str(s) => s != ""
    case Arr(_) => true
    case Obj(_) => true
  }

  /** `a || b`: the left operand when it is truthy, the right one otherwise. */
  function Or(a: Value, b: Value): Value {
    if Truthy(a) then a else b
  }

  /** Reading property `key` of an object with own properties `props`: the
      property's value, or `undefined` when it is missing. */
  function Lookup(props: map<string, Value>, key: string): Value {
    if key in props then props[key] else Undefined
  }

  /** Reading property `key` of any value. None of the keys the validator reads
      exists on a primitive or on `Object.prototype`, so a non-object reads as
      `undefined`. */
  function Get(v: Value, key: string): Value {
    if v.Obj? then Lookup(v.props, key) else Undefined
  }

  /** Writing property `key`. An object gains or replaces the property; on a
      primitive the write is silently dropped, as in non-strict JavaScript. */
  function Put(v: Value, key: string, x: Value): Value {
    if v.Obj? then Obj(v.props[key := x]) else v
  }

  predicate IsLowerAscii(c: char) {
    'a' <= c <= 'z'
  }

  /** The upper-case form of one character: ASCII letters only. */
  function UpperChar(c: char): (u: char)
    ensures !IsLowerAscii(u)
    ensures IsLowerAscii(c) ==> u as int == c as int - 32
    ensures !IsLowerAscii(c) ==> u == c
  {
    if IsLowerAscii(c) then (c as int - 32) as char else c
  }

  /** No character of `s` is a lower-case ASCII letter. */
  predicate IsUpperCase(s: string) {
    forall i :: 0 <= i < |s| ==> !IsLowerAscii(s[i])
  }

  /** `s.toUpperCase()` restricted to ASCII: every lower-case letter is replaced by
      its capital, every other character is kept, and the result is upper case. */
  function ToUpper(s: string): (r: string)
    ensures |r| == |s|
    ensures forall i :: 0 <= i < |s| ==> r[i] == UpperChar(s[i])
    ensures IsUpperCase(r)
  {
    if s == [] then [] else [UpperChar(s[0])] + ToUpper(s[1..])
  }

  /** An upper-case string is left as it is; in particular upper-casing twice is
      upper-casing once. */
  lemma {:induction false} ToUpperFixesUpperCase(s: string)
    requires IsUpperCase(s)
    ensures ToUpper(s) == s
  {
    if s != [] {
      assert IsUpperCase(s[1..]) by {
        forall i | 0 <= i < |s[1..]| ensures !IsLowerAscii(s[1..][i]) {
          assert s[1..][i] == s[i + 1];
        }
      }
      ToUpperFixesUpperCase(s[1..]);
    }
  }

  lemma ToUpperIdempotent(s: string)
    ensures ToUpper(ToUpper(s)) == ToUpper(s)
  {
    ToUpperFixesUpperCase(ToUpper(s));
  }
}

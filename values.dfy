/** The JavaScript values the model manipulates: flat records of scalar fields. */
module Values {
  import opened Wrappers

  /** A scalar JavaScript value. Numbers are modelled as integers. */
  datatype Value = Undefined | Null | Bool(b: bool) | Num(n: int) | Str(s: string)

  /** A flat JavaScript object (a document of the store, a persona, a comment). */
  type Object = map<string, Value>

  /** Property access `o[k]`: an absent property reads as undefined. */
  function Get(o: Object, k: string): (v: Value)
    ensures k !in o ==> v == Undefined
    ensures k in o ==> v == o[k]
  {
    if k in o then o[k] else Undefined
  }

  /** The values that `??` replaces. */
  predicate Nullish(v: Value) {
    v == Undefined || v == Null
  }

  /** JavaScript truthiness of a scalar. */
  predicate Truthy(v: Value) {
    match v
    case Undefined => false
    case Null => false
    case Bool(b) => b
    case Num(n) => n != 0
    case Str(s) => s != ""
  }

  /** Truthiness of a string-valued prop that may be undefined. */
  predicate Present(o: Option<string>) {
    o.Some? && o.value != ""
  }

  /** The ASCII part of `String.prototype.toUpperCase`. */
  function UpperChar(c: char): char {
    if 'a' <= c <= 'z' then (c as int - 'a' as int + 'A' as int) as char else c
  }

  /** Upper-cases every ASCII letter of `s` and leaves every other character alone. */
  function ToUpperAscii(s: string): (r: string)
    ensures |r| == |s|
    ensures forall i :: 0 <= i < |s| ==> r[i] == UpperChar(s[i])
    ensures forall i :: 0 <= i < |s| ==> !('a' <= r[i] <= 'z')
  {
    seq(|s|, i requires 0 <= i < |s| => UpperChar(s[i]))
  }
}

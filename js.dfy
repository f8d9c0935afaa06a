/**
 * The few JavaScript value semantics the core depends on: plain objects as
 * ordered key/value entries with spread, the unary `+` conversion of a URL
 * segment to a number, and the truncating integer remainder `%`.
 */
module Js {
  import opened Wrappers
  import opened Text

  /** A property value as the request builders produce it. Numbers are integers here. */
  datatype Value = Undefined | Null | Str(s: string) | Num(n: int)

  type Entry = (string, Value)

  /** A plain object: its own properties in insertion order. */
  type Object = seq<Entry>

  /** An object literal never repeats a key. */
  predicate UniqueKeys(o: Object) {
    forall i, j :: 0 <= i < j < |o| ==> o[i].0 != o[j].0
  }

  /** Property read `o[k]`: `None` when the object has no such own property. */
  function Lookup(o: Object, k: string): (r: Option<Value>)
    ensures r.Some? <==> exists i :: 0 <= i < |o| && o[i].0 == k
  {
    if o == [] then None
    else if o[|o| - 1].0 == k then Some(o[|o| - 1].1)
    else Lookup(o[..|o| - 1], k)
  }

  /** In an object with distinct keys, reading the key of an entry gives that entry's value. */
  lemma {:induction false} LookupEntry(o: Object, i: int)
    requires UniqueKeys(o) && 0 <= i < |o|
    ensures Lookup(o, o[i].0) == Some(o[i].1)
  {
    if i < |o| - 1 {
      LookupEntry(o[..|o| - 1], i);
    }
  }

  /** Replaces the value of the existing key `k` in place. */
  function Replace(o: Object, k: string, v: Value): (r: Object)
    ensures |r| == |o| && forall i :: 0 <= i < |o| ==> r[i].0 == o[i].0
  {
    if o == [] then []
    else if o[|o| - 1].0 == k then o[..|o| - 1] + [(k, v)]
    else Replace(o[..|o| - 1], k, v) + [o[|o| - 1]]
  }

  /** Property assignment `o[k] = v`: an existing key keeps its position, a new key goes last. */
  function Assign(o: Object, k: string, v: Value): Object {
    if Lookup(o, k).Some? then Replace(o, k, v) else o + [(k, v)]
  }

  /** The object literal `{...a, ...b}`: the properties of `b` assigned onto a copy of `a`, in order. */
  function Spread(a: Object, b: Object): Object
    decreases |b|
  {
    if b == [] then a else Assign(Spread(a, b[..|b| - 1]), b[|b| - 1].0, b[|b| - 1].1)
  }

  lemma {:induction false} LookupReplace(o: Object, k: string, v: Value, j: string)
    requires Lookup(o, k).Some?
    ensures Lookup(Replace(o, k, v), j) == if j == k then Some(v) else Lookup(o, j)
  {
    if o[|o| - 1].0 != k {
      var r := Replace(o, k, v);
      LookupReplace(o[..|o| - 1], k, v, j);
      assert r[..|r| - 1] == Replace(o[..|o| - 1], k, v);
    }
  }

  /** After `o[k] = v`, reading `k` gives `v` and every other key reads as before. */
  lemma {:induction false} LookupAssign(o: Object, k: string, v: Value, j: string)
    ensures Lookup(Assign(o, k, v), j) == if j == k then Some(v) else Lookup(o, j)
  {
    if Lookup(o, k).Some? {
      LookupReplace(o, k, v, j);
    } else {
      assert (o + [(k, v)])[..|o|] == o;
    }
  }

  /** In `{...a, ...b}` a key reads from `b` when `b` has it, and from `a` otherwise. */
  lemma {:induction false} LookupSpread(a: Object, b: Object, j: string)
    ensures Lookup(Spread(a, b), j) == if Lookup(b, j).Some? then Lookup(b, j) else Lookup(a, j)
    decreases |b|
  {
    if b != [] {
      var front := b[..|b| - 1];
      LookupSpread(a, front, j);
      LookupAssign(Spread(a, front), b[|b| - 1].0, b[|b| - 1].1, j);
    }
  }

  lemma {:induction false} AssignKeepsUniqueKeys(o: Object, k: string, v: Value)
    requires UniqueKeys(o)
    ensures UniqueKeys(Assign(o, k, v))
  {
  }

  /** Spreading objects with distinct keys gives an object with distinct keys. */
  lemma {:induction false} SpreadKeepsUniqueKeys(a: Object, b: Object)
    requires UniqueKeys(a)
    ensures UniqueKeys(Spread(a, b))
    decreases |b|
  {
    if b != [] {
      SpreadKeepsUniqueKeys(a, b[..|b| - 1]);
      AssignKeepsUniqueKeys(Spread(a, b[..|b| - 1]), b[|b| - 1].0, b[|b| - 1].1);
    }
  }

  /** `s || undefined`: the empty string is falsy. */
  function OrUndefined(s: string): Value {
    if s == "" then Undefined else Str(s)
  }

  /** `x || undefined` for an optional string property. */
  function OptionOrUndefined(o: Option<string>): Value {
    match o
    case Some(s) => OrUndefined(s)
    case None => Undefined
  }

  /** `o || d` for an optional string: the default replaces both a missing and an empty value. */
  function OrDefault(o: Option<string>, d: string): string {
    if o.Some? && o.value != "" then o.value else d
  }

  /** A number produced by unary `+` on a string: a non-negative integer, or NaN. */
  datatype NumericId = Number(value: nat) | NaN

  /**
   * Unary `+` on a string: white space around the text is ignored, the empty
   * text is 0, a run of decimal digits is its value, and anything else is NaN.
   */
  function UnaryPlus(s: string): (r: NumericId)
    ensures AllDigits(s) ==> r == Number(DecimalValue(s))
  {
    var t := Trim(s);
    assert AllDigits(s) ==> t == s by {
      if AllDigits(s) { TrimPlain(s); }
    }
    if AllDigits(t) then Number(DecimalValue(t)) else NaN
  }

  /** How a number reads inside a template literal such as `${apiUrl}/episode/${id}`. */
  function NumericText(id: NumericId): string {
    match id
    case Number(n) => NatToString(n)
    case NaN => "NaN"
  }

  /** JavaScript's `a % b` for a positive divisor: the remainder takes the sign of `a`. */
  function Remainder(a: int, b: int): (r: int)
    requires b > 0
    ensures -b < r < b
    ensures a >= 0 ==> r >= 0
    ensures a <= 0 ==> r <= 0
    ensures a >= 0 ==> r == a % b
    ensures a < 0 ==> r == -((-a) % b)
  {
    if a >= 0 then a % b else -((-a) % b)
  }
}

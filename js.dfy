/** An abstract JavaScript value, as `response.json()` produces it and as the
    Edge Functions read it: property access (`a.b`, `a[0]`) with the TypeError
    that reading a property of `null` or `undefined` throws, truthiness for
    `x || fallback`, and the string conversion a template literal applies. */
module Js {
  import opened Wrappers
  import opened Text

  datatype Value =
    | Undefined
    | Null
    | Bool(b: bool)
    | Num(n: int)
    | Str(s: string)
    | Arr(items: seq<Value>)
    | Obj(fields: map<string, Value>)

  /** One step of a property path: `.name` or `[i]`. */
  datatype Key = Field(name: string) | Index(i: nat)

  function KeyText(k: Key): string {
    match k
    case Field(n) => n
    case Index(i) => NatToString(i)
  }

  predicate IsNullish(v: Value) {
    v.Undefined? || v.Null?
  }

  /** The message of the TypeError thrown by Deno's engine for `v.k` when `v` is nullish. */
  function ReadError(v: Value, k: Key): string
    requires IsNullish(v)
  {
    "Cannot read properties of " + (if v.Null? then "null" else "undefined") + " (reading '" + KeyText(k) + "')"
  }

  /** `v.k` (or `v[k]`): throws on a nullish `v`, yields `undefined` for a missing property.
      Only own fields and array indices are modelled: `.length` and inherited
      properties also read as `undefined`, which no path `ai-chat` reads depends on. */
  function Get(v: Value, k: Key): (r: Result<Value, string>)
    ensures r.Failure? <==> IsNullish(v)
    ensures r.Failure? ==> r.error == ReadError(v, k)
    ensures v.Obj? && KeyText(k) in v.fields ==> r == Success(v.fields[KeyText(k)])
  {
    match v
    case Undefined => Failure(ReadError(v, k))
    case Null => Failure(ReadError(v, k))
    case Obj(m) => Success(if KeyText(k) in m then m[KeyText(k)] else Undefined)
    case Arr(xs) =>
      (match k
       case Index(i) => Success(if i < |xs| then xs[i] else Undefined)
       case Field(_) => Success(Undefined))
    case Str(s) =>
      (match k
       case Index(i) => Success(if i < |s| then Str([s[i]]) else Undefined)
       case Field(_) => Success(Undefined))
    case _ => Success(Undefined)
  }

  /** `v?.k`: nullish `v` short-circuits to `undefined`. */
  function OptionalGet(v: Value, k: Key): (r: Result<Value, string>)
    ensures r.Success?
    ensures IsNullish(v) ==> r.value.Undefined?
  {
    if IsNullish(v) then Success(Undefined) else Get(v, k)
  }

  /** `v.k1.k2...kn`, evaluated left to right; the first nullish step throws. */
  function GetPath(v: Value, path: seq<Key>): Result<Value, string>
    decreases |path|
  {
    if |path| == 0 then Success(v)
    else
      match Get(v, path[0])
      case Failure(e) => Failure(e)
      case Success(next) => GetPath(next, path[1..])
  }

  /** The smallest value that has `leaf` at the end of `path`: objects with one
      property for `.name` steps and arrays whose slot `i` holds the rest for `[i]` steps. */
  function Nest(path: seq<Key>, leaf: Value): Value
    decreases |path|
  {
    if |path| == 0 then leaf
    else
      var inner := Nest(path[1..], leaf);
      match path[0]
      case Field(n) => Obj(map[n := inner])
      case Index(i) => Arr(seq(i + 1, j requires 0 <= j <= i => if j == i then inner else Null))
  }

  /** Reading a path out of a value shaped along that path yields the leaf. */
  lemma {:induction false} GetPathOfNest(path: seq<Key>, leaf: Value)
    ensures GetPath(Nest(path, leaf), path) == Success(leaf)
    decreases |path|
  {
    if |path| > 0 {
      GetPathOfNest(path[1..], leaf);
      var inner := Nest(path[1..], leaf);
      match path[0]
      case Field(n) =>
        assert Get(Nest(path, leaf), path[0]) == Success(inner);
      case Index(i) =>
        assert Get(Nest(path, leaf), path[0]) == Success(inner);
    }
  }

  /** JavaScript truthiness. */
  predicate Truthy(v: Value) {
    match v
    case Undefined => false
    case Null => false
    case Bool(b) => b
    case Num(n) => n != 0
    case Str(s) => s != ""
    case Arr(_) => true
    case Obj(_) => true
  }

  /** `String(v)`, as `${v}` in a template literal applies it. Array elements
      are joined with commas and nullish elements render as empty. */
  function ToText(v: Value): string
    decreases v
  {
    match v
    case Undefined => "undefined"
    case Null => "null"
    case Bool(b) => if b then "true" else "false"
    case Num(n) => IntToString(n)
    case Str(s) => s
    case Obj(_) => "[object Object]"
    case Arr(xs) =>
      Join(seq(|xs|, i requires 0 <= i < |xs| => if IsNullish(xs[i]) then "" else ToText(xs[i])), ",")
  }

  /** Truthy values other than arrays render as non-empty text. */
  lemma TruthyScalarTextNonEmpty(v: Value)
    requires Truthy(v) && !v.Arr?
    ensures ToText(v) != ""
  {
  }

  /** An empty array is truthy, yet renders as the empty string. */
  lemma EmptyArrayIsTruthyButBlank()
    ensures Truthy(Arr([])) && ToText(Arr([])) == ""
  {
  }
}

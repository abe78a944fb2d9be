/** JavaScript values as they arrive from `JSON.parse` or are built by the handlers, with the
    three operations the handlers apply to them: `typeof`, truthiness (and so `a || b`), and
    property access on objects that keep their keys in insertion order. */
module JsValue {
  import opened Options
  import opened JsText

  /** A JavaScript value. Numbers are reals: `JSON.parse` never yields NaN or -0, and the handlers
      only copy and test numbers. An object is its own enumerable properties in insertion order,
      each key once, as `JSON.parse` and object literals build them. */
  datatype Json =
    | JUndefined
    | JNull
    | JBool(b: bool)
    | JNum(n: real)
    | JStr(s: string)
    | JArr(items: seq<Json>)
    | JObj(fields: seq<(string, Json)>)

  type Fields = seq<(string, Json)>

  /** The `typeof` operator. */
  function TypeOf(v: Json): string {
    match v
    case JUndefined => "undefined"
    case JBool(_) => "boolean"
    case JNum(_) => "number"
    case JStr(_) => "string"
    case _ => "object"
  }

  /** JavaScript truthiness: `undefined`, `null`, `false`, `0` and `""` are falsy. */
  predicate Truthy(v: Json) {
    match v
    case JUndefined => false
    case JNull => false
    case JBool(b) => b
    case JNum(n) => n != 0.0
    case JStr(s) => s != ""
    case _ => true
  }

  /** `a || b`. */
  function Or(a: Json, b: Json): Json {
    if Truthy(a) then a else b
  }

  /** `Object.keys(o)`, in insertion order. */
  function Keys(fs: Fields): seq<string> {
    if fs == [] then [] else [fs[0].0] + Keys(fs[1..])
  }

  /** The keys are the entries' first components, index by index. */
  lemma {:induction false} KeysIndex(fs: Fields)
    ensures |Keys(fs)| == |fs| && forall i :: 0 <= i < |fs| ==> Keys(fs)[i] == fs[i].0
  {
    if fs != [] {
      KeysIndex(fs[1..]);
    }
  }

  /** The object literal `{ks[0]: vs[0], ks[1]: vs[1], ...}`. */
  function Record(ks: seq<string>, vs: seq<Json>): Fields
    requires |ks| == |vs|
  {
    seq(|ks|, i requires 0 <= i < |ks| => (ks[i], vs[i]))
  }

  /** `o[k]`: the value of an own property, `undefined` when there is none. */
  function Get(fs: Fields, k: string): Json {
    if fs == [] then JUndefined
    else if fs[0].0 == k then fs[0].1
    else Get(fs[1..], k)
  }

  /** A missing property reads as `undefined`. */
  lemma {:induction false} GetAbsent(fs: Fields, k: string)
    requires k !in Keys(fs)
    ensures Get(fs, k) == JUndefined
  {
    if fs != [] {
      GetAbsent(fs[1..], k);
    }
  }

  /** `o[k] = v`: an existing property keeps its place, a new one goes last. */
  function Put(fs: Fields, k: string, v: Json): Fields {
    if fs == [] then [(k, v)]
    else if fs[0].0 == k then [(k, v)] + fs[1..]
    else [fs[0]] + Put(fs[1..], k, v)
  }

  /** After `o[k] = v` the keys are those of `o`, with `k` appended if it was new; `o[k]` is `v`,
      and every other property reads as before. */
  lemma {:induction false} PutFacts(fs: Fields, k: string, v: Json)
    ensures Keys(Put(fs, k, v)) == if k in Keys(fs) then Keys(fs) else Keys(fs) + [k]
    ensures Get(Put(fs, k, v), k) == v
    ensures forall k' :: k' != k ==> Get(Put(fs, k, v), k') == Get(fs, k')
  {
    if fs != [] && fs[0].0 != k {
      PutFacts(fs[1..], k, v);
      assert Put(fs, k, v) == [fs[0]] + Put(fs[1..], k, v);
      assert Keys(Put(fs, k, v)) == [fs[0].0] + Keys(Put(fs[1..], k, v));
    }
  }

  /** Two assignments to different keys: both read back, every other property reads as before,
      and the keys the object had keep their places at the front. */
  lemma PutTwice(fs: Fields, a: string, x: Json, b: string, y: Json)
    requires a != b
    ensures var r := Put(Put(fs, a, x), b, y);
      Get(r, a) == x && Get(r, b) == y &&
      (forall k :: k != a && k != b ==> Get(r, k) == Get(fs, k)) &&
      |Keys(r)| >= |Keys(fs)| && Keys(r)[..|Keys(fs)|] == Keys(fs)
  {
    var once := Put(fs, a, x);
    PutFacts(fs, a, x);
    PutFacts(once, b, y);
  }

  /** Three assignments to different keys, as an object spread followed by three new properties. */
  lemma PutThrice(fs: Fields, a: string, x: Json, b: string, y: Json, c: string, z: Json)
    requires a != b && a != c && b != c
    ensures var r := Put(Put(Put(fs, a, x), b, y), c, z);
      Get(r, a) == x && Get(r, b) == y && Get(r, c) == z &&
      (forall k :: k != a && k != b && k != c ==> Get(r, k) == Get(fs, k)) &&
      |Keys(r)| >= |Keys(fs)| && Keys(r)[..|Keys(fs)|] == Keys(fs)
  {
    var twice := Put(Put(fs, a, x), b, y);
    PutTwice(fs, a, x, b, y);
    PutFacts(twice, c, z);
  }

  /** An object literal with different keys has those keys, in order, and each reads back its
      value. */
  lemma RecordFacts(ks: seq<string>, vs: seq<Json>)
    requires |ks| == |vs|
    requires forall i, j :: 0 <= i < j < |ks| ==> ks[i] != ks[j]
    ensures Keys(Record(ks, vs)) == ks
    ensures forall i :: 0 <= i < |ks| ==> Get(Record(ks, vs), ks[i]) == vs[i]
  {
    var r := Record(ks, vs);
    KeysIndex(r);
    forall i | 0 <= i < |ks| ensures Get(r, ks[i]) == vs[i] {
      GetIndex(r, i);
    }
  }

  /** A property read on an object whose keys are all different finds the entry at its index. */
  lemma {:induction false} GetIndex(fs: Fields, i: nat)
    requires i < |fs|
    requires forall j :: 0 <= j < i ==> fs[j].0 != fs[i].0
    ensures Get(fs, fs[i].0) == fs[i].1
  {
    if i > 0 {
      GetIndex(fs[1..], i - 1);
    }
  }

  /** `v.k` on any value: objects give their property, every other value `undefined` for the
      property names the handlers use (none of them is `length` or a method name). */
  function Member(v: Json, k: string): Json {
    if v.JObj? then Get(v.fields, k) else JUndefined
  }

  /** `v == null`: the two values whose property access throws a TypeError. */
  predicate Nullish(v: Json) {
    v.JUndefined? || v.JNull?
  }

  /** `v.k` as the engine evaluates it: a TypeError on `null` and `undefined`. */
  function Prop(v: Json, k: string): (r: Completion<Json>)
    ensures r.Thrown? <==> Nullish(v)
    ensures r.Normal? ==> r.value == Member(v, k)
  {
    if Nullish(v) then Thrown(None) else Normal(Member(v, k))
  }

  /** `String(v)`, also what a template literal makes of `v`: a string is itself, and every other
      value is rendered by `show`, which stands for the engine's number formatting and `toString`
      methods. */
  function Str(show: Json -> string, v: Json): string {
    if v.JStr? then v.s else show(v)
  }

  /** How a computation ends: with a value, or with a thrown `Error` and its message. `None` stands
      for the message of an error the engine raises itself (a TypeError, a SyntaxError from
      `JSON.parse`, a network failure), whose wording is the engine's. */
  datatype Completion<T> = Normal(value: T) | Thrown(message: Option<string>)

  /** The own enumerable properties that `{...v}` and `Object.entries(v)` see: an object's
      properties, an array's or a string's elements under their decimal indices, and nothing for
      `null`, `undefined`, booleans and numbers. */
  function Spread(v: Json): Fields {
    match v
    case JObj(fs) => fs
    case JArr(items) => seq(|items|, i requires 0 <= i < |items| => (NatToString(i), items[i]))
    case JStr(s) => seq(|s|, i requires 0 <= i < |s| => (NatToString(i), JStr([s[i]])))
    case _ => []
  }
}

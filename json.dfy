/**
 * The wire value the services exchange: a decoded JSON document as Python
 * holds it after `json.loads`, or builds it from dict and list literals.
 * Python keeps `int` and `float` apart, and so does this datatype. A dict is
 * an association list in insertion order; lookups take the first entry
 * with the key, which is the dict's only entry when keys are distinct.
 */
module Json {
  import opened Wrappers

  datatype Json =
    | JNull
    | JBool(b: bool)
    | JInt(i: int)
    | JFloat(r: real)
    | JStr(s: string)
    | JArr(elems: seq<Json>)
    | JObj(fields: seq<(string, Json)>)

  /** The entries of a dict, in insertion order. */
  type Fields = seq<(string, Json)>

  /** `key in d` */
  predicate HasKey(fs: Fields, key: string) {
    exists i :: 0 <= i < |fs| && fs[i].0 == key
  }

  /** Past a first entry with another key, `key` is present exactly when it is present in the rest. */
  lemma HasKeyTail(fs: Fields, key: string)
    requires fs != [] && fs[0].0 != key
    ensures HasKey(fs, key) <==> HasKey(fs[1..], key)
  {
    if HasKey(fs, key) {
      var i :| 0 <= i < |fs| && fs[i].0 == key;
      assert fs[1..][i - 1].0 == key;
    }
    if HasKey(fs[1..], key) {
      var i :| 0 <= i < |fs[1..]| && fs[1..][i].0 == key;
      assert fs[i + 1].0 == key;
    }
  }

  /** The value stored under `key`, if any (the first entry with that key). */
  function Lookup(fs: Fields, key: string): (r: Option<Json>)
    ensures r.Some? <==> HasKey(fs, key)
    ensures r.Some? ==> exists i :: 0 <= i < |fs| && fs[i] == (key, r.value)
  {
    if |fs| == 0 then None
    else if fs[0].0 == key then Some(fs[0].1)
    else
      var r := Lookup(fs[1..], key);
      HasKeyTail(fs, key);
      assert r.Some? ==> exists i :: 0 <= i < |fs| && fs[i] == (key, r.value) by {
        if r.Some? {
          var i :| 0 <= i < |fs[1..]| && fs[1..][i] == (key, r.value);
          assert fs[i + 1] == (key, r.value);
        }
      }
      r
  }

  /** `d.get(key, default)` */
  function GetOr(fs: Fields, key: string, default: Json): Json {
    match Lookup(fs, key)
    case Some(v) => v
    case None => default
  }

  /** `d.get(key)`: a missing key reads as `None`. */
  function Get(fs: Fields, key: string): Json {
    GetOr(fs, key, JNull)
  }

  /** `d[key] = v`: an existing key keeps its place, a new key goes last. */
  function Put(fs: Fields, key: string, v: Json): (r: Fields)
    ensures Lookup(r, key) == Some(v)
    ensures forall k :: k != key ==> Lookup(r, k) == Lookup(fs, k)
    ensures HasKey(fs, key) ==> |r| == |fs|
    ensures !HasKey(fs, key) ==> r == fs + [(key, v)]
  {
    if |fs| == 0 then [(key, v)]
    else if fs[0].0 == key then [(key, v)] + fs[1..]
    else
      var rest := Put(fs[1..], key, v);
      HasKeyTail(fs, key);
      PutStep(fs, key, v, rest);
      assert !HasKey(fs, key) ==> [fs[0]] + rest == fs + [(key, v)] by {
        if !HasKey(fs, key) {
          assert [fs[0]] + (fs[1..] + [(key, v)]) == fs + [(key, v)];
        }
      }
      [fs[0]] + rest
  }

  /** The step of `Put` past a first entry with another key. */
  lemma PutStep(fs: Fields, key: string, v: Json, rest: Fields)
    requires fs != [] && fs[0].0 != key
    requires Lookup(rest, key) == Some(v)
    requires forall k :: k != key ==> Lookup(rest, k) == Lookup(fs[1..], k)
    ensures Lookup([fs[0]] + rest, key) == Some(v)
    ensures forall k :: k != key ==> Lookup([fs[0]] + rest, k) == Lookup(fs, k)
  {
    assert ([fs[0]] + rest)[1..] == rest;
  }

  /** Python truthiness of a decoded value: `bool(x)`. */
  predicate Truthy(j: Json) {
    match j
    case JNull => false
    case JBool(b) => b
    case JInt(i) => i != 0
    case JFloat(r) => r != 0.0
    case JStr(s) => s != ""
    case JArr(a) => a != []
    case JObj(fs) => fs != []
  }

  /** `a or b` */
  function Or(a: Json, b: Json): (r: Json)
    ensures Truthy(a) ==> r == a
    ensures !Truthy(a) ==> r == b
  {
    if Truthy(a) then a else b
  }

  /** `isinstance(x, int)`: Python's `bool` is a subclass of `int`. */
  predicate IsPyInt(j: Json) {
    j.JInt? || j.JBool?
  }

  /** The integer a value passing `IsPyInt` stands for. */
  function PyIntValue(j: Json): int
    requires IsPyInt(j)
  {
    match j
    case JInt(i) => i
    case JBool(b) => if b then 1 else 0
  }

  /** `type(x).__name__`, as it appears in an AttributeError message. */
  function TypeName(j: Json): string {
    match j
    case JNull => "NoneType"
    case JBool(_) => "bool"
    case JInt(_) => "int"
    case JFloat(_) => "float"
    case JStr(_) => "str"
    case JArr(_) => "list"
    case JObj(_) => "dict"
  }
}

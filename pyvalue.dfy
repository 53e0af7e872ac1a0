/**
 * Python built-ins applied to decoded JSON values: `str(x)`, `repr(x)`,
 * `int(x)`, `float(x)` and the prefix slice `xs[:n]`. A conversion that
 * raises (TypeError or ValueError) gives `None`.
 */
module PyValue {
  import opened Wrappers
  import opened Json
  import opened PyText

  /** `str(x)` */
  function Str(j: Json): string
    decreases j, 2, 0
  {
    match j
    case JStr(s) => s
    case _ => ReprValue(j)
  }

  /** `repr(x)`; inside a list or dict Python shows each element with `repr`. */
  function ReprValue(j: Json): string
    decreases j, 1, 0
  {
    match j
    case JNull => "None"
    case JBool(b) => if b then "True" else "False"
    case JInt(i) => IntText(i)
    case JFloat(r) => FloatText(r)
    case JStr(s) => Repr(s)
    case JArr(elems) => "[" + ReprElems(j, elems) + "]"
    case JObj(fields) => "{" + ReprFields(j, fields) + "}"
  }

  function ReprElems(ghost parent: Json, elems: seq<Json>): string
    requires forall k :: 0 <= k < |elems| ==> elems[k] < parent
    decreases parent, 0, |elems|
  {
    if elems == [] then ""
    else if |elems| == 1 then ReprValue(elems[0])
    else ReprValue(elems[0]) + ", " + ReprElems(parent, elems[1..])
  }

  function ReprFields(ghost parent: Json, fields: seq<(string, Json)>): string
    requires forall k :: 0 <= k < |fields| ==> fields[k].1 < parent
    decreases parent, 0, |fields|
  {
    if fields == [] then ""
    else
      var entry := Repr(fields[0].0) + ": " + ReprValue(fields[0].1);
      if |fields| == 1 then entry else entry + ", " + ReprFields(parent, fields[1..])
  }

  /** `int(x)` for a real: truncation toward zero. */
  function Truncate(r: real): int {
    if r >= 0.0 then r.Floor else -((-r).Floor)
  }

  /** `int(x)`; `None` stands for the TypeError or ValueError. */
  function ToInt(j: Json): Option<int> {
    match j
    case JBool(b) => Some(if b then 1 else 0)
    case JInt(i) => Some(i)
    case JFloat(r) => Some(Truncate(r))
    case JStr(s) => ParseInt(s)
    case _ => None
  }

  /** `float(x)`; `None` stands for the TypeError or ValueError. */
  function ToFloat(j: Json): Option<real> {
    match j
    case JBool(b) => Some(if b then 1.0 else 0.0)
    case JInt(i) => Some(i as real)
    case JFloat(r) => Some(r)
    case JStr(s) => ParseFloat(s)
    case _ => None
  }

  /** The length of the Python slice `xs[:n]` of a sequence of length `len`. */
  function PrefixLength(len: nat, n: int): (k: nat)
    ensures k <= len
  {
    if n >= 0 then (if n < len then n else len)
    else if len + n > 0 then len + n else 0
  }

  /** `xs[:n]`; a negative `n` counts from the end. */
  function TakePrefix<T>(xs: seq<T>, n: int): (r: seq<T>)
    ensures r == xs[..PrefixLength(|xs|, n)]
  {
    xs[..PrefixLength(|xs|, n)]
  }

  /** The message of the AttributeError that `x.get(...)` raises on a non-dict. */
  function NoGetMessage(j: Json): string {
    "AttributeError(\"'" + TypeName(j) + "' object has no attribute 'get'\")"
  }
}

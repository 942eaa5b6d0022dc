/**
 * The dynamically typed values the notification code passes around: the
 * dictionaries built by `to_dict`, the JSON bodies of requests, and the
 * Python truthiness and equality that the code relies on.
 */
module Values {

  import opened Wrappers

  /** A Python value as it can appear in one of the dictionaries. Datetimes are
      kept as an opaque timestamp. */
  datatype Value =
    | Null
    | Bool(b: bool)
    | Int(i: int)
    | Real(r: real)
    | Str(s: string)
    | Time(t: int)

  /** A Python `dict` with string keys. */
  type Dict = map<string, Value>

  /** The exceptions the modelled code raises or lets through. */
  datatype PyError =
    | KeyError(key: string)
    | ValueError(message: string)

  /** Python truthiness: `None`, `False`, zero and the empty string are false. */
  predicate Truthy(v: Value)
  {
    match v
    case Null => false
    case Bool(b) => b
    case Int(i) => i != 0
    case Real(r) => r != 0.0
    case Str(s) => s != ""
    case Time(_) => true
  }

  /** `d.get(k)`: the value under `k`, or `None` when the key is absent. */
  function Get(d: Dict, k: string): Value
  {
    if k in d then d[k] else Null
  }

  /** The numeric reading of a value: `bool`, `int` and `float` compare as numbers. */
  function Numeric(v: Value): Option<real>
  {
    match v
    case Bool(b) => Some(if b then 1.0 else 0.0)
    case Int(i) => Some(i as real)
    case Real(r) => Some(r)
    case _ => None
  }

  /** Python `==` on values: numbers compare by magnitude (so `1 == True == 1.0`),
      everything else structurally. */
  predicate PyEquals(a: Value, b: Value)
  {
    if Numeric(a).Some? && Numeric(b).Some? then Numeric(a).value == Numeric(b).value
    else a == b
  }

  /** Python `==` agrees with equality on integers, the type of every identifier. */
  lemma PyEqualsInt(x: int, y: int)
    ensures PyEquals(Int(x), Int(y)) <==> x == y
  {
  }

  /** Every key of `keys` is present in `d` (no lookup among them raises `KeyError`). */
  predicate HasKeys(d: Dict, keys: seq<string>)
  {
    forall i :: 0 <= i < |keys| ==> keys[i] in d
  }
}

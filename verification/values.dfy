/**
 * The Python values that flow through a pypyr context: the `pype`
 * configuration, the `args` passed to a child pipeline and the values
 * copied back out of it.
 */
module Values {

  /** A Python value as it appears in a pipeline's context (floats left out). */
  datatype Value =
    | None
    | Str(s: string)
    | Bool(b: bool)
    | Int(i: int)
    | List(items: seq<Value>)
    | Dict(entries: map<Value, Value>)

  /** Python truthiness: `if v:` takes the branch exactly when Truthy(v). */
  predicate Truthy(v: Value)
  {
    match v
    case None => false
    case Str(s) => s != ""
    case Bool(b) => b
    case Int(i) => i != 0
    case List(items) => items != []
    case Dict(entries) => entries != map[]
  }

  /** Lists and dicts cannot be dictionary keys in Python (TypeError: unhashable type). */
  predicate Hashable(v: Value)
  {
    !v.List? && !v.Dict?
  }

  /** `d.get(key, default)` on a Python dict. */
  function GetOr(d: map<Value, Value>, key: Value, default: Value): Value
  {
    if key in d then d[key] else default
  }

  /** A Python list of strings, such as the tokens `shlex.split` returns. */
  function StrList(tokens: seq<string>): (r: Value)
    ensures r.List? && |r.items| == |tokens|
    ensures forall i :: 0 <= i < |tokens| ==> r.items[i] == Str(tokens[i])
  {
    List(seq(|tokens|, i requires 0 <= i < |tokens| => Str(tokens[i])))
  }
}

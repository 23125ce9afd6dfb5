/** Python values as the stage functions see them: every node state is a
    `Dict[str, Any]`, modelled as a map from key to a small universe of values. */
module Values {

  /** The Python values that occur in node states. Python's `bool` is a
      subclass of `int`, which `AsNumber` reflects. */
  datatype Value =
    | Int(i: int)
    | Real(r: real)
    | Bool(b: bool)
    | Str(s: string)
    | Tuple(items: seq<Value>)
    | List(items: seq<Value>)
    | Dict(entries: map<string, Value>)

  /** A node's state record, `Dict[str, Any]`. */
  type State = map<string, Value>

  /** The exceptions a stage function can raise. */
  datatype Error = KeyError(key: string) | TypeError | ZeroDivisionError

  /** The outcome of a computation that may raise. */
  datatype Result<T> = Ok(value: T) | Err(error: Error)
  {
    /** With these three, `var x :- r; ...` propagates the first error. */
    predicate IsFailure() { Err? }

    function PropagateFailure<U>(): Result<U>
      requires Err?
    {
      Err(error)
    }

    function Extract(): T
      requires Ok?
    {
      value
    }
  }

  /** What a stage function produces: the state to commit, or the raised error. */
  type StageResult = Result<State>

  datatype Option<T> = None | Some(value: T)

  /** `state.get(key, default)` */
  function Get(s: State, key: string, default: Value): Value
  {
    if key in s then s[key] else default
  }

  /** The numeric value of a Python int, bool or float; `None` for values on
      which arithmetic raises `TypeError`. */
  function AsNumber(v: Value): Option<real>
  {
    match v
    case Int(i) => Some(i as real)
    case Bool(b) => Some(if b then 1.0 else 0.0)
    case Real(r) => Some(r)
    case _ => None
  }

  /** `s[key]`: `KeyError` when the key is missing. */
  function Lookup(s: State, key: string): (r: Result<Value>)
    ensures r.Ok? <==> key in s
    ensures r.Ok? ==> r.value == s[key]
    ensures r.Err? ==> r.error == KeyError(key)
  {
    if key in s then Ok(s[key]) else Err(KeyError(key))
  }

  /** `v[key]` with a string key: only a dict can be indexed so; any other
      value raises `TypeError`, a dict without the key `KeyError`. */
  function Subscript(v: Value, key: string): (r: Result<Value>)
    ensures r.Ok? <==> v.Dict? && key in v.entries
    ensures r.Ok? ==> r.value == v.entries[key]
    ensures r.Err? ==> r.error == (if v.Dict? then KeyError(key) else TypeError)
  {
    match v
    case Dict(entries) => Lookup(entries, key)
    case _ => Err(TypeError)
  }

  /** A value used in arithmetic or an ordering comparison with a float:
      `TypeError` unless it is a number. */
  function Number(v: Value): (r: Result<real>)
    ensures r.Ok? <==> AsNumber(v).Some?
    ensures r.Ok? ==> r.value == AsNumber(v).value
    ensures r.Err? ==> r.error == TypeError
  {
    match AsNumber(v)
    case Some(x) => Ok(x)
    case None => Err(TypeError)
  }

  /** Python truthiness, as used by `if state.get(...)`. */
  predicate Truthy(v: Value)
  {
    match v
    case Int(i) => i != 0
    case Real(r) => r != 0.0
    case Bool(b) => b
    case Str(s) => s != ""
    case Tuple(items) => items != []
    case List(items) => items != []
    case Dict(entries) => entries != map[]
  }

  /** `{**base, **overrides}`: the keys of `overrides` win. */
  function Merge(base: State, overrides: State): (r: State)
    ensures r.Keys == base.Keys + overrides.Keys
    ensures forall k | k in overrides :: r[k] == overrides[k]
    ensures forall k | k in base && k !in overrides :: r[k] == base[k]
  {
    base + overrides
  }
}

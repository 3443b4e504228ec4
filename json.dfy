/**
 * The slice of Python's JSON and dictionary semantics that the executor
 * wrapper relies on: decoded request bodies, `d[key]`, `d.get(key)`, and
 * the hashing that decides which JSON values can be dictionary keys.
 */
module Json {
  import opened Wrappers

  /** A decoded JSON value (numbers are integers only). */
  datatype Json =
    | JNull
    | JBool(b: bool)
    | JInt(i: int)
    | JStr(s: string)
    | JArray(items: seq<Json>)
    | JObject(fields: map<string, Json>)

  /**
   * A hashable JSON value as a Python dictionary sees it. `True` and `1`
   * (and `False` and `0`) are the same key in Python, so booleans become
   * integer keys.
   */
  datatype Key = NullKey | IntKey(i: int) | StrKey(s: string)

  datatype TypeErrorReason = Unhashable | NotSubscriptable

  /** The Python exceptions the wrapper lets propagate. */
  datatype Error =
    | KeyError(key: string)          // `d[key]` on a dictionary without `key`
    | TypeError(reason: TypeErrorReason)
    | AttributeError                 // `.get` on a body that is not a dictionary

  /** Python equality restricted to scalars: booleans compare equal to 0 and 1. */
  predicate PyEqual(a: Json, b: Json) {
    match (a, b)
    case (JBool(x), JInt(n)) => n == (if x then 1 else 0)
    case (JInt(n), JBool(x)) => n == (if x then 1 else 0)
    case _ => a == b
  }

  /** The dictionary key a JSON value stands for, or the TypeError of `key in d`. */
  function HashKey(v: Json): (r: Result<Key, Error>)
    ensures r.Failure? <==> v.JArray? || v.JObject?
    ensures r.Failure? ==> r.error == TypeError(Unhashable)
    ensures v.JBool? ==> r == Success(IntKey(if v.b then 1 else 0))
  {
    match v
    case JNull => Success(NullKey)
    case JBool(b) => Success(IntKey(if b then 1 else 0))
    case JInt(i) => Success(IntKey(i))
    case JStr(s) => Success(StrKey(s))
    case JArray(_) => Failure(TypeError(Unhashable))
    case JObject(_) => Failure(TypeError(Unhashable))
  }

  /** Two hashable values select the same dictionary entry exactly when Python calls them equal. */
  lemma SameKeyIffPyEqual(a: Json, b: Json)
    requires HashKey(a).Success? && HashKey(b).Success?
    ensures HashKey(a) == HashKey(b) <==> PyEqual(a, b)
  {
    match a
    case JNull =>
    case JBool(x) =>
    case JInt(n) =>
    case JStr(s) =>
  }

  /** `v[name]`: the entry of a dictionary, KeyError when it is missing, TypeError on any other value. */
  function Subscript(v: Json, name: string): Result<Json, Error> {
    match v
    case JObject(fields) => if name in fields then Success(fields[name]) else Failure(KeyError(name))
    case _ => Failure(TypeError(NotSubscriptable))
  }

  /** `v.get(name)`: null when the key is absent; only dictionaries have `.get`. */
  function Get(v: Json, name: string): Result<Json, Error> {
    match v
    case JObject(fields) => Success(if name in fields then fields[name] else JNull)
    case _ => Failure(AttributeError)
  }

  /**
   * `.get` and `[]` agree on every body: `.get` yields the entry exactly
   * where `[]` does, null exactly where `[]` raises KeyError, and raises
   * AttributeError on the bodies where `[]` raises TypeError.
   */
  lemma GetAgreesWithSubscript(v: Json, name: string)
    ensures Subscript(v, name).Success? ==> Get(v, name) == Subscript(v, name)
    ensures Get(v, name) == Success(JNull) <==> Subscript(v, name) == Failure(KeyError(name)) || Subscript(v, name) == Success(JNull)
    ensures Get(v, name) == Failure(AttributeError) <==> Subscript(v, name) == Failure(TypeError(NotSubscriptable))
    ensures Get(v, name).Failure? ==> Get(v, name) == Failure(AttributeError)
  {
  }
}

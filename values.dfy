/** Values shared by every module of the model: Python's dynamically typed
    values as far as the configuration code handles them, the exceptions the
    code raises, Option/Result wrappers, and ASCII case mapping. */
module Values {

  datatype Option<T> = None | Some(value: T)

  /** The exceptions the modelled code can raise. */
  datatype Error =
    | IndexError
    | KeyError(key: string)
    | ValueError(msg: string)
    | AttributeError(name: string)
    | TypeError
    | ZeroDivisionError
    | Raised(msg: string)

  datatype Result<T> = Ok(value: T) | Err(error: Error)

  /** A Python value as read from TOML, YAML, a pydantic dump or `cast`. */
  datatype Value =
    | PyNone
    | PyBool(b: bool)
    | PyInt(i: int)
    | PyFloat(r: real)
    | PyStr(s: string)
    | PyList(items: seq<Value>)
    | PyDict(entries: seq<(string, Value)>)

  /** Python truthiness: `not v` holds exactly for these values. */
  predicate Falsy(v: Value) {
    match v
    case PyNone => true
    case PyBool(b) => !b
    case PyInt(i) => i == 0
    case PyFloat(r) => r == 0.0
    case PyStr(s) => s == ""
    case PyList(items) => items == []
    case PyDict(entries) => entries == []
  }

  /** Values Python cannot hash, lists and dictionaries: testing one for
      membership in a dictionary raises TypeError. */
  predicate Unhashable(v: Value) {
    v.PyList? || v.PyDict?
  }

  /** The keys of an ordered dictionary, in iteration order. */
  function Keys<V>(d: seq<(string, V)>): (ks: seq<string>)
    ensures |ks| == |d|
    ensures forall i :: 0 <= i < |d| ==> ks[i] == d[i].0
  {
    if d == [] then [] else [d[0].0] + Keys(d[1..])
  }

  /** Python's `d[key]` on an ordered dictionary: the entry for the key, or KeyError. */
  function Lookup<V>(d: seq<(string, V)>, key: string): (r: Result<V>)
    ensures r.Ok? <==> key in Keys(d)
    ensures r.Ok? ==> exists i :: 0 <= i < |d| && d[i] == (key, r.value)
    ensures r.Err? ==> r.error == KeyError(key)
  {
    if d == [] then Err(KeyError(key))
    else if d[0].0 == key then Ok(d[0].1)
    else Lookup(d[1..], key)
  }

  function LowerChar(c: char): char {
    if 'A' <= c <= 'Z' then (c as int + 32) as char else c
  }

  function UpperChar(c: char): char {
    if 'a' <= c <= 'z' then (c as int - 32) as char else c
  }

  /** `str.lower()` on ASCII letters. */
  function Lower(s: string): (r: string)
    ensures |r| == |s|
    ensures forall i :: 0 <= i < |s| ==> r[i] == LowerChar(s[i])
  {
    if s == [] then [] else [LowerChar(s[0])] + Lower(s[1..])
  }

  /** `str.upper()` on ASCII letters. */
  function Upper(s: string): (r: string)
    ensures |r| == |s|
    ensures forall i :: 0 <= i < |s| ==> r[i] == UpperChar(s[i])
  {
    if s == [] then [] else [UpperChar(s[0])] + Upper(s[1..])
  }

  /** Lower-casing ignores a previous upper-casing. */
  lemma LowerOfUpper(s: string)
    ensures Lower(Upper(s)) == Lower(s)
  {
    assert forall i :: 0 <= i < |s| ==> LowerChar(UpperChar(s[i])) == LowerChar(s[i]);
  }

  function Min(a: int, b: int): int { if a <= b then a else b }

  function Abs(x: real): real { if x < 0.0 then -x else x }
}

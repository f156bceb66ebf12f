/** Python values, exceptions and the few builtins the core relies on. */
module Py {

  datatype Option<+T> = None | Some(value: T) {
    /** `d.get(key, default)` style fallback. */
    function GetOr(default: T): T {
      if Some? then value else default
    }
  }

  datatype Result<+T> = Ok(value: T) | Err(error: Error)

  /** The Python exceptions the core raises or passes through. */
  datatype Error =
    | AssertionError
    | AttributeError(name: string)
    | IndexError
    | ValueError
    | TypeError
    | ImportError(name: string)
    | SocketError
    | DatabaseError(code: int)
    | PoolError(op: int)
    | Exception(message: string)
    /** `Exception(e)`: a plain Exception built around another exception. */
    | Wrapped(inner: Error)

  /** The Python values that travel through queues, cells and result sets. */
  datatype Value =
    | NoneV
    | BoolV(b: bool)
    | IntV(i: int)
    | StrV(s: string)
    | TupleV(items: seq<Value>)
    | ListV(elems: seq<Value>)
    | DictV(entries: map<string, Value>)

  /** The outcome of calling a connection operation: a return value or a raised exception. */
  datatype Outcome = Returned(value: Value) | Raised(error: Error)

  /** Python truthiness (`bool(v)`). */
  predicate Truthy(v: Value) {
    match v
    case NoneV => false
    case BoolV(b) => b
    case IntV(i) => i != 0
    case StrV(s) => s != ""
    case TupleV(items) => items != []
    case ListV(elems) => elems != []
    case DictV(entries) => entries != map[]
  }

  function Min(a: int, b: int): int {
    if a <= b then a else b
  }

  /** `dict(zip(keys, values))`: pairs are inserted left to right, so a repeated key keeps
      the value paired with its last occurrence, and `zip` stops at the shorter list. */
  function ZipDict<K, V>(keys: seq<K>, values: seq<V>): (m: map<K, V>)
    ensures m.Keys == set j | 0 <= j < Min(|keys|, |values|) :: keys[j]
    ensures forall j :: 0 <= j < Min(|keys|, |values|) && LastOccurrence(keys, Min(|keys|, |values|), j)
              ==> keys[j] in m && m[keys[j]] == values[j]
  {
    ZipPrefix(keys, values, Min(|keys|, |values|))
  }

  /** The dictionary built from the first `n` pairs. */
  function ZipPrefix<K, V>(keys: seq<K>, values: seq<V>, n: nat): (m: map<K, V>)
    requires n <= |keys| && n <= |values|
    ensures m.Keys == set j | 0 <= j < n :: keys[j]
    ensures forall j :: 0 <= j < n && LastOccurrence(keys, n, j) ==> keys[j] in m && m[keys[j]] == values[j]
  {
    if n == 0 then map[]
    else
      var m0 := ZipPrefix(keys, values, n - 1);
      ZipPrefixStep(keys, values, n, m0);
      m0[keys[n - 1] := values[n - 1]]
  }

  /** Inserting the n-th pair into the dictionary of the first `n - 1`. */
  lemma ZipPrefixStep<K, V>(keys: seq<K>, values: seq<V>, n: nat, m0: map<K, V>)
    requires 0 < n <= |keys| && n <= |values|
    requires m0.Keys == set j | 0 <= j < n - 1 :: keys[j]
    requires forall j :: 0 <= j < n - 1 && LastOccurrence(keys, n - 1, j) ==> keys[j] in m0 && m0[keys[j]] == values[j]
    ensures m0[keys[n - 1] := values[n - 1]].Keys == set j | 0 <= j < n :: keys[j]
    ensures forall j :: 0 <= j < n && LastOccurrence(keys, n, j) ==>
      keys[j] in m0[keys[n - 1] := values[n - 1]] && m0[keys[n - 1] := values[n - 1]][keys[j]] == values[j]
  {
    var m := m0[keys[n - 1] := values[n - 1]];
    assert (set j | 0 <= j < n :: keys[j]) == (set j | 0 <= j < n - 1 :: keys[j]) + {keys[n - 1]};
    forall j | 0 <= j < n && LastOccurrence(keys, n, j) ensures keys[j] in m && m[keys[j]] == values[j] {
      if j < n - 1 {
        assert keys[j] != keys[n - 1];
        assert LastOccurrence(keys, n - 1, j);
      }
    }
  }

  /** With distinct keys and at least as many values, `dict(zip(keys, values))` has exactly
      the keys, and maps the j-th key to the j-th value. */
  lemma ZipDictDistinct<K, V>(keys: seq<K>, values: seq<V>)
    requires |keys| <= |values|
    requires forall i, j :: 0 <= i < j < |keys| ==> keys[i] != keys[j]
    ensures ZipDict(keys, values).Keys == set k | k in keys
    ensures forall j :: 0 <= j < |keys| ==> ZipDict(keys, values)[keys[j]] == values[j]
  {
  }

  /** Index `j` holds the last occurrence of its key among the first `n` keys. */
  predicate LastOccurrence<K(==)>(keys: seq<K>, n: int, j: int)
    requires 0 <= j < n <= |keys|
  {
    forall i :: j < i < n ==> keys[i] != keys[j]
  }
}

/** Python values as the pipeline sees them after `json.loads`, Python truthiness,
    and the exceptions the pipeline can raise, modelled as a `Result`. */
module Json {

  datatype Option<+T> = None | Some(value: T)

  /** A decoded JSON value.  A dict keeps its keys in insertion order; `json.loads`
      never produces a dict with a repeated key. */
  datatype Json =
    | Null
    | Bool(b: bool)
    | Int(i: int)
    | Float(r: real)
    | Str(s: string)
    | Arr(elems: seq<Json>)
    | Obj(fields: Dict)

  /** The fields of a dict, in insertion order. */
  type Dict = seq<(string, Json)>

  /** The exceptions that can escape the functions of the pipeline. */
  datatype Failure =
    | AttributeError      // `.get` or `.strip` called on a value of the wrong type
    | TypeError           // iterating a scalar, hashing a list or dict, `int()` of a container
    | ValueError          // `int()` of a non-numeric string, `time.sleep` of a negative time
    | HttpError(status: int)  // `raise_for_status` on a 4xx or 5xx response
    | ConnectionError     // the request itself failed (refused, timed out)
    | InvalidJson         // `response.json()` on a body that is not JSON
    | UnboundLocal        // the CLI transport reads `r` after a loop that never ran

  /** The result of a Python expression that may raise. */
  datatype Result<+T> = Ok(value: T) | Err(error: Failure) {
    predicate IsFailure() { Err? }
    function PropagateFailure<U>(): Result<U> requires Err? { Err(error) }
    function Extract(): T requires Ok? { value }
  }

  /** Python's `bool(v)`: None, False, 0, 0.0, "", [] and {} are false. */
  predicate Truthy(v: Json)
  {
    match v
    case Null => false
    case Bool(b) => b
    case Int(i) => i != 0
    case Float(r) => r != 0.0
    case Str(s) => s != ""
    case Arr(e) => e != []
    case Obj(f) => f != []
  }

  /** Python's `a or b`. */
  function Or(a: Json, b: Json): (r: Json)
    ensures Truthy(a) ==> r == a
    ensures !Truthy(a) ==> r == b
  {
    if Truthy(a) then a else b
  }

  /** Python's `c0 or c1 or ... or cn`: the first truthy candidate, or the last one
      when none is truthy. */
  function OrChain(candidates: seq<Json>): Json
    requires |candidates| > 0
  {
    if |candidates| == 1 || Truthy(candidates[0]) then candidates[0]
    else OrChain(candidates[1..])
  }

  /** The first truthy candidate of an `or` chain wins; when none is truthy the
      chain yields its last candidate. */
  lemma {:induction false} OrChainFirstTruthy(candidates: seq<Json>, k: nat)
    requires k < |candidates|
    requires forall j :: 0 <= j < k ==> !Truthy(candidates[j])
    requires Truthy(candidates[k]) || k == |candidates| - 1
    ensures OrChain(candidates) == candidates[k]
  {
    if k > 0 {
      OrChainFirstTruthy(candidates[1..], k - 1);
    }
  }

  /** The value of an `or` chain is truthy exactly when some candidate is. */
  lemma {:induction false} OrChainTruthy(candidates: seq<Json>)
    requires |candidates| > 0
    ensures Truthy(OrChain(candidates)) <==> exists j :: 0 <= j < |candidates| && Truthy(candidates[j])
  {
    if |candidates| > 1 && !Truthy(candidates[0]) {
      OrChainTruthy(candidates[1..]);
      assert forall j :: 1 <= j < |candidates| ==> candidates[j] == candidates[1..][j - 1];
    }
  }

  /** `v` is what an `or` chain over `candidates` yields: the first truthy
      candidate, or the last candidate when none is truthy. */
  predicate Picks(v: Json, candidates: seq<Json>)
    requires |candidates| > 0
  {
    && (forall j :: 0 <= j < |candidates| && Truthy(candidates[j]) && (forall i :: 0 <= i < j ==> !Truthy(candidates[i]))
         ==> v == candidates[j])
    && ((forall j :: 0 <= j < |candidates| ==> !Truthy(candidates[j])) ==> v == candidates[|candidates| - 1])
  }

  lemma OrChainPicks(candidates: seq<Json>)
    requires |candidates| > 0
    ensures Picks(OrChain(candidates), candidates)
  {
    forall j | 0 <= j < |candidates| && Truthy(candidates[j]) && (forall i :: 0 <= i < j ==> !Truthy(candidates[i]))
      ensures OrChain(candidates) == candidates[j]
    {
      OrChainFirstTruthy(candidates, j);
    }
    if forall j :: 0 <= j < |candidates| ==> !Truthy(candidates[j]) {
      OrChainFirstTruthy(candidates, |candidates| - 1);
    }
  }

  /** `d.get(k, default)`. */
  function LookupOr(d: Dict, k: string, default: Json): Json
  {
    if d == [] then default
    else if d[0].0 == k then d[0].1
    else LookupOr(d[1..], k, default)
  }

  /** `d.get(k, default)` finds the first entry with key `k`. */
  lemma {:induction false} LookupAt(d: Dict, k: string, j: nat, default: Json)
    requires j < |d| && d[j].0 == k
    requires forall i :: 0 <= i < j ==> d[i].0 != k
    ensures LookupOr(d, k, default) == d[j].1
  {
    if j > 0 {
      LookupAt(d[1..], k, j - 1, default);
    }
  }

  /** `d.get(k, default)` is the default when `k` is absent. */
  lemma {:induction false} LookupAbsent(d: Dict, k: string, default: Json)
    requires forall i :: 0 <= i < |d| ==> d[i].0 != k
    ensures LookupOr(d, k, default) == default
  {
    if d != [] {
      LookupAbsent(d[1..], k, default);
    }
  }

  /** No key of `d` occurs twice, as in every Python dict. */
  predicate DistinctKeys(d: Dict)
  {
    forall a, b :: 0 <= a < b < |d| ==> d[a].0 != d[b].0
  }

  /** In a dict with distinct keys every entry is found by its own key. */
  lemma LookupDistinct(d: Dict, j: nat, default: Json)
    requires DistinctKeys(d) && j < |d|
    ensures LookupOr(d, d[j].0, default) == d[j].1
  {
    LookupAt(d, d[j].0, j, default);
  }

  /** `d.get(k)`. */
  function Lookup(d: Dict, k: string): Json
  {
    LookupOr(d, k, Null)
  }

  /** `d.get(k)` and `d.get(k, default)` differ only when `k` is absent. */
  lemma {:induction false} LookupOrLookup(d: Dict, k: string, default: Json)
    ensures || LookupOr(d, k, default) == Lookup(d, k)
            || (LookupOr(d, k, default) == default && Lookup(d, k) == Null)
  {
    if d != [] && d[0].0 != k {
      LookupOrLookup(d[1..], k, default);
    }
  }

  /** Calling `.get` on `v`: only a dict has it. */
  function AsDict(v: Json): (r: Result<Dict>)
    ensures r.Ok? <==> v.Obj?
    ensures r.Ok? ==> r.value == v.fields
    ensures r.Err? ==> r.error == AttributeError
  {
    match v
    case Obj(f) => Ok(f)
    case _ => Err(AttributeError)
  }

  /** `(v or {})` used as a dict: a falsy value becomes the empty dict, a truthy
      value must be a dict. */
  function OrEmptyDict(v: Json): (r: Result<Dict>)
    ensures !Truthy(v) ==> r == Ok([])
    ensures Truthy(v) ==> r == AsDict(v)
  {
    AsDict(Or(v, Obj([])))
  }

  /** `for x in v`: a list yields its elements, a string its characters, a dict
      its keys; anything else is not iterable. */
  function Iterate(v: Json): (r: Result<seq<Json>>)
    ensures v.Arr? ==> r == Ok(v.elems)
    ensures r.Ok? ==> |r.value| == match v
      case Str(s) => |s|
      case Obj(f) => |f|
      case Arr(e) => |e|
      case _ => 0
    ensures r.Err? <==> !(v.Arr? || v.Str? || v.Obj?)
  {
    match v
    case Arr(e) => Ok(e)
    case Str(s) => Ok(seq(|s|, i requires 0 <= i < |s| => Str([s[i]])))
    case Obj(f) => Ok(seq(|f|, i requires 0 <= i < |f| => Str(f[i].0)))
    case _ => Err(TypeError)
  }

  /** A value Python can use as a dict key (lists and dicts are unhashable). */
  predicate Hashable(v: Json)
  {
    !v.Arr? && !v.Obj?
  }

  /** `d[k] = v`: an existing key keeps its position and gets the new value, a new
      key goes at the end. */
  function Put(d: Dict, k: string, v: Json): (r: Dict)
    ensures LookupOr(r, k, Null) == v
    ensures forall k', dflt :: k' != k ==> LookupOr(r, k', dflt) == LookupOr(d, k', dflt)
  {
    if d == [] then [(k, v)]
    else if d[0].0 == k then [(k, v)] + d[1..]
    else [d[0]] + Put(d[1..], k, v)
  }

  /** The keys of an association list, in order (a dict's keys, or the
      profile ids of a members map). */
  function Keys<K, V>(d: seq<(K, V)>): (ks: seq<K>)
    ensures |ks| == |d| && forall i :: 0 <= i < |d| ==> ks[i] == d[i].0
  {
    seq(|d|, i requires 0 <= i < |d| => d[i].0)
  }

  const EmptyObject: Json := Obj([])
}

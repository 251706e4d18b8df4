/** JSON values, the dictionaries that workflows pass around, and the small
    option and outcome types the other modules share. */
module Json {
  datatype Option<+T> = None | Some(value: T) {
    function UnwrapOr(default: T): T {
      if Some? then value else default
    }
  }

  /** The result of an operation that may raise Python's `TypeError`. */
  datatype Attempt<+T> = Ok(value: T) | TypeError

  datatype Json =
    | Null
    | Bool(b: bool)
    | Num(n: real)
    | Str(s: string)
    | Arr(items: seq<Json>)
    | Obj(fields: map<string, Json>)

  type Dict = map<string, Json>

  const EMPTY: Json := Obj(map[])

  /** `mapping.get(key)` with `None` for a missing key. */
  function Get(d: Dict, k: string): Json {
    if k in d then d[k] else Null
  }

  function Max(a: nat, b: nat): nat {
    if a < b then b else a
  }

  function Min(a: int, b: int): int {
    if a < b then a else b
  }

  /** `xs[:n]`, where a negative `n` counts from the end. */
  function Prefix<T>(xs: seq<T>, n: int): (r: seq<T>)
    ensures r <= xs
  {
    if n >= |xs| then xs
    else if n >= 0 then xs[..n]
    else if |xs| + n >= 0 then xs[..|xs| + n]
    else []
  }

  lemma LastOfAll<T>(s: seq<T>)
    requires s != []
    ensures s == s[..|s| - 1] + [s[|s| - 1]]
  {
  }

  /** `ks` are exactly the positions below `n` that have the property, in order. */
  ghost predicate IsPositions(ks: seq<nat>, n: nat, p: nat -> bool) {
    (forall i, j :: 0 <= i < j < |ks| ==> ks[i] < ks[j]) && (forall j :: 0 <= j < |ks| ==> ks[j] < n) &&
    forall i: nat :: i < n ==> (i in ks <==> p(i))
  }

  lemma PositionsNext(ks: seq<nat>, n: nat, p: nat -> bool, q: nat -> bool)
    requires IsPositions(ks, n, p) && forall i: nat :: i < n ==> p(i) == q(i)
    ensures IsPositions(if q(n) then ks + [n] else ks, n + 1, q)
  {
  }
}

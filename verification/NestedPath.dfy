/** Reading and writing JSON trees through paths such as `orders[].items[].sku`.

    A path is a sequence of steps: a key, or `Each` for a pair of brackets.
    `GetPath` and `SetPath` say what a read and a write mean; the string-level
    code that walks the tree is in NestedPathCode.dfy. */
module NestedPath {
  import opened Json

  datatype Step = Key(key: string) | Each

  type Path = seq<Step>

  /** What a write does when the final key is already there: replace the value,
      or join the two, where `render` is Python's `str`. */
  datatype Mode = Replace | Concat(render: Json -> string)

  // ---- key strings ----

  /** Position of the first `[]` in `key`, or `|key|` if there is none. */
  function EachAt(key: string): (i: nat)
    ensures i <= |key|
    ensures i < |key| ==> i + 1 < |key| && key[i] == '[' && key[i + 1] == ']'
  {
    if |key| < 2 then |key|
    else if key[0] == '[' && key[1] == ']' then 0
    else 1 + EachAt(key[1..])
  }

  /** The part before the first brackets has none. */
  lemma {:induction false} NoneBefore(key: string)
    ensures EachAt(key[..EachAt(key)]) == EachAt(key)
  {
    if |key| >= 2 && !(key[0] == '[' && key[1] == ']') {
      NoneBefore(key[1..]);
      var head := key[..EachAt(key)];
      assert head[1..] == key[1..][..EachAt(key[1..])];
      if |head| < 2 {
      } else {
        assert head[0] == key[0] && head[1] == key[1];
      }
    } else {
      assert |key| < 2 ==> key[..|key|] == key;
    }
  }

  predicate HasEach(key: string) {
    EachAt(key) < |key|
  }

  /** `s.split(".")` */
  function Split(s: string): (parts: seq<string>)
    ensures |parts| >= 1
  {
    if s == "" then [""]
    else
      var rest := Split(s[1..]);
      if s[0] == '.' then [""] + rest else [[s[0]] + rest[0]] + rest[1..]
  }

  function Keys(parts: seq<string>): (p: Path)
    ensures |p| == |parts| && forall i :: 0 <= i < |p| ==> p[i] == Key(parts[i])
  {
    seq(|parts|, i requires 0 <= i < |parts| => Key(parts[i]))
  }

  /** What follows the brackets at `at`, without one leading dot. */
  function AfterEach(key: string, at: nat): (rest: string)
    requires at + 2 <= |key|
    ensures |rest| < |key|
  {
    var rest := key[at + 2..];
    if rest != "" && rest[0] == '.' then rest[1..] else rest
  }

  /** The keys before the first brackets; an empty array path has none. */
  function Head(arrayPath: string): Path {
    if arrayPath == "" then [] else Keys(Split(arrayPath))
  }

  function Parse(key: string): (p: Path)
    ensures p != []
    decreases |key|, 0
  {
    var at := EachAt(key);
    if at == |key| then Keys(Split(key))
    else
      Head(key[..at]) + ([Each] + Tail(AfterEach(key, at)))
  }

  /** The path of what follows a pair of brackets. */
  function Tail(rest: string): Path
    decreases |rest|, 1
  {
    if rest == "" then [] else Parse(rest)
  }

  function DigitChar(d: nat): char
    requires d < 10
  {
    ['0', '1', '2', '3', '4', '5', '6', '7', '8', '9'][d]
  }

  /** `str(n)` */
  function Decimal(n: nat): string {
    (if n < 10 then "" else Decimal(n / 10)) + [DigitChar(n % 10)]
  }

  // ---- reading ----

  function IsDigit(c: char): bool {
    '0' <= c <= '9'
  }

  function Digits(s: string): (n: nat)
    requires forall c :: c in s ==> IsDigit(c)
  {
    if s == "" then 0
    else
      assert IsDigit(s[|s| - 1]);
      Digits(s[..|s| - 1]) * 10 + (s[|s| - 1] - '0') as nat
  }

  /** `int(part)` on decimal digits with an optional sign. */
  function ParseInt(part: string): Option<int> {
    var negative := part != "" && part[0] == '-';
    var body := if part != "" && (part[0] == '-' || part[0] == '+') then part[1..] else part;
    if body == "" || exists c :: c in body && !IsDigit(c) then None
    else
      var n: int := Digits(body);
      Some(if negative then -n else n)
  }

  /** One key step of a read: dictionaries by key, lists by (possibly negative)
      index, anything else reads as `None`. */
  function Child(d: Json, k: string): Json {
    match d
    case Obj(fields) => Get(fields, k)
    case Arr(items) =>
      (match ParseInt(k)
       case Some(i) =>
         if 0 <= i < |items| then items[i]
         else if -|items| <= i < 0 then items[|items| + i]
         else Null
       case None => Null)
    case _ => Null
  }

  function GetPath(d: Json, p: Path): Json
    decreases |p|
  {
    if p == [] then d
    else match p[0]
      case Key(k) => GetPath(Child(d, k), p[1..])
      case Each =>
        if d.Arr? then Arr(seq(|d.items|, i requires 0 <= i < |d.items| => GetPath(d.items[i], p[1..])))
        else Null
  }

  // ---- writing ----

  function Listify(v: Json): seq<Json> {
    if v.Arr? then v.items else [v]
  }

  function Combine(existing: Json, v: Json, render: Json -> string): Json {
    if existing.Arr? then Arr(existing.items + Listify(v))
    else Str(render(v) + " " + render(existing))
  }

  /** The row a nested write starts from: anything but a dictionary is replaced. */
  function Base(rows: seq<Json>): Json {
    if rows != [] && rows[0].Obj? then rows[0] else EMPTY
  }

  function Rows(prior: Option<Json>): seq<Json> {
    if prior.Some? && prior.value.Arr? then prior.value.items else []
  }

  /** Brackets without a non-empty array name in front of them: the write returns
      without storing anything. */
  predicate Skipped(p: Path)
    requires p != []
  {
    p[0].Each? || (p[0].key == "" && |p| > 1 && p[1].Each?)
  }

  function Lookup(d: Dict, k: string): Option<Json> {
    if k in d then Some(d[k]) else None
  }

  /** The tree after writing `v` at `p`. */
  function SetPath(d: Json, p: Path, v: Json, m: Mode): (r: Attempt<Json>)
    requires p != []
    ensures r.Ok? && d.Obj? ==> r.value.Obj?
    decreases |p|, 0
  {
    if Skipped(p) then Ok(d)
    else if !d.Obj? then TypeError
    else match SetField(Lookup(d.fields, p[0].key), p[1..], v, m)
      case Ok(x) => Ok(Obj(d.fields[p[0].key := x]))
      case TypeError => TypeError
  }

  /** The new value of a dictionary entry, given the old one and the path below it. */
  function SetField(prior: Option<Json>, tail: Path, v: Json, m: Mode): Attempt<Json>
    decreases |tail|, 1
  {
    if tail == [] then
      Ok(if prior.Some? && m.Concat? then Combine(prior.value, v, m.render) else v)
    else if tail[0].Each? then
      match SetRows(Rows(prior), Listify(v), tail[1..])
      case Ok(rows) => Ok(Arr(rows))
      case TypeError => TypeError
    else SetPath(if prior.Some? then prior.value else EMPTY, tail, v, m)
  }

  /** Row `i` takes `vs[i]`; missing rows are appended, longer rows stay. */
  function SetRows(rows: seq<Json>, vs: seq<Json>, rest: Path): Attempt<seq<Json>>
    decreases |rest|, 1, |vs|
  {
    if vs == [] then Ok(rows)
    else
      var row := if rest == [] then Ok(vs[0]) else SetPath(Base(rows), rest, vs[0], Replace);
      var more := SetRows(if rows == [] then [] else rows[1..], vs[1..], rest);
      if row.Ok? && more.Ok? then Ok([row.value] + more.value) else TypeError
  }
}

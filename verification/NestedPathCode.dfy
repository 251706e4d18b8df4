/** The workflow engine's walkers over key strings, proved against `GetPath` and
    `SetPath`. A write descends from the root, remembering the dictionaries it goes
    through, and puts the changed ones back into the tree on the way out. */
module NestedPathCode {
  import opened Json
  import opened NestedPath
  import NestedPathLaws

  // ---- reading ----

  lemma {:induction false} ReadThroughKeys(d: Json, parts: seq<string>, q: Path)
    ensures GetPath(d, Keys(parts) + q) == GetPath(GetPath(d, Keys(parts)), q)
    decreases |parts|
  {
    if parts == [] {
      assert Keys(parts) + q == q;
    } else {
      assert Keys(parts)[1..] == Keys(parts[1..]);
      assert (Keys(parts) + q)[1..] == Keys(parts[1..]) + q;
      ReadThroughKeys(Child(d, parts[0]), parts[1..], q);
    }
  }

  method GetNested(data: Json, key: string) returns (r: Json)
    ensures r == GetPath(data, Parse(key))
    decreases |key|, 1
  {
    if HasEach(key) {
      r := GetNestedArray(data, key);
      return;
    }
    var parts := Split(key);
    var current := data;
    for i := 0 to |parts|
      invariant GetPath(current, Keys(parts)[i..]) == GetPath(data, Keys(parts))
    {
      var part := parts[i];
      assert Keys(parts)[i..][1..] == Keys(parts)[i + 1..];
      if current.Obj? {
        current := Get(current.fields, part);
      } else if current.Arr? {
        var index := ParseInt(part);
        if index.Some? && 0 <= index.value < |current.items| {
          current := current.items[index.value];
        } else if index.Some? && -|current.items| <= index.value < 0 {
          current := current.items[|current.items| + index.value];
        } else {
          NestedPathLaws.NullReadsNull(Keys(parts)[i + 1..]);
          return Null;
        }
      } else {
        NestedPathLaws.NullReadsNull(Keys(parts)[i + 1..]);
        return Null;
      }
    }
    r := current;
  }

  /** Reading `p` in every element of a list. */
  function ReadEach(arr: Json, p: Path): Json {
    if arr.Arr? then Arr(seq(|arr.items|, i requires 0 <= i < |arr.items| => GetPath(arr.items[i], p))) else Null
  }

  /** A key with brackets reads its array part, then each element. */
  lemma ReadArrayPart(data: Json, key: string)
    requires HasEach(key)
    ensures var at := EachAt(key);
            GetPath(data, Parse(key)) ==
            ReadEach(if at == 0 then data else GetPath(data, Parse(key[..at])), Tail(AfterEach(key, at)))
  {
    var at := EachAt(key);
    var tail: Path := [Each] + Tail(AfterEach(key, at));
    assert tail[1..] == Tail(AfterEach(key, at));
    if at == 0 {
      assert Parse(key) == tail;
    } else {
      NoneBefore(key);
      assert Parse(key) == Keys(Split(key[..at])) + tail;
      ReadThroughKeys(data, Split(key[..at]), tail);
    }
  }

  lemma ReadEachIs(arr: Json, p: Path, items: seq<Json>)
    requires arr.Arr? && |items| == |arr.items|
    requires forall j :: 0 <= j < |items| ==> items[j] == GetPath(arr.items[j], p)
    ensures ReadEach(arr, p) == Arr(items)
  {
    assert ReadEach(arr, p).items == items;
  }

  method GetNestedArray(data: Json, key: string) returns (r: Json)
    requires HasEach(key)
    ensures r == GetPath(data, Parse(key))
    decreases |key|, 0
  {
    var at := EachAt(key);
    var arrayPath, rest := key[..at], AfterEach(key, at);
    var arr := data;
    if arrayPath != "" {
      arr := GetNested(data, arrayPath);
    }
    ReadArrayPart(data, key);
    if !arr.Arr? {
      return Null;
    }
    if rest == "" {
      ReadEachIs(arr, [], arr.items);
      return arr;
    }
    r := GetElements(arr, rest);
  }

  method GetElements(arr: Json, rest: string) returns (r: Json)
    requires arr.Arr? && rest != ""
    ensures r == ReadEach(arr, Parse(rest))
    decreases |rest|, 2
  {
    var items: seq<Json> := [];
    for i := 0 to |arr.items|
      invariant |items| == i
      invariant forall j :: 0 <= j < i ==> items[j] == GetPath(arr.items[j], Parse(rest))
    {
      var item := GetNested(arr.items[i], rest);
      items := items + [item];
    }
    ReadEachIs(arr, Parse(rest), items);
    r := Arr(items);
  }

  // ---- writing ----

  /** Descending from `data` along `parts` goes through the dictionaries `trail`
      and ends at `current`; missing entries count as empty dictionaries. */
  predicate Walked(data: Json, parts: seq<string>, trail: seq<Dict>, current: Json)
    decreases |parts|
  {
    |trail| == |parts| &&
    if parts == [] then current == data
    else
      data.Obj? && trail[0] == data.fields &&
      Walked(if parts[0] in data.fields then data.fields[parts[0]] else EMPTY, parts[1..], trail[1..], current)
  }

  /** The tree with `leaf` in the place where the walk ended. */
  function Rebuild(trail: seq<Dict>, parts: seq<string>, leaf: Json): Json
    requires |trail| == |parts|
  {
    if parts == [] then leaf else Obj(trail[0][parts[0] := Rebuild(trail[1..], parts[1..], leaf)])
  }

  lemma {:induction false} WalkedOn(data: Json, parts: seq<string>, trail: seq<Dict>, current: Json, part: string)
    requires Walked(data, parts, trail, current) && current.Obj?
    ensures Walked(data, parts + [part], trail + [current.fields],
                   if part in current.fields then current.fields[part] else EMPTY)
    decreases |parts|
  {
    if parts == [] {
      assert ([] + [part])[1..] == [] && (trail + [current.fields])[1..] == [];
    } else {
      assert (parts + [part])[1..] == parts[1..] + [part];
      assert (trail + [current.fields])[1..] == trail[1..] + [current.fields];
      WalkedOn(if parts[0] in data.fields then data.fields[parts[0]] else EMPTY, parts[1..], trail[1..], current, part);
    }
  }

  function Hang(r: Attempt<Json>, trail: seq<Dict>, parts: seq<string>): Attempt<Json>
    requires |trail| == |parts|
  {
    if r.Ok? then Ok(Rebuild(trail, parts, r.value)) else TypeError
  }

  /** One key of a longer path: write below it, then hang the result back. */
  lemma WriteBelow(data: Json, k: string, q: Path, v: Json, m: Mode)
    requires q != [] && q[0].Key? && data.Obj?
    ensures SetPath(data, [Key(k)] + q, v, m) ==
            Hang(SetPath(if k in data.fields then data.fields[k] else EMPTY, q, v, m), [data.fields], [k])
  {
    var p := [Key(k)] + q;
    assert p[0].key == k && p[1..] == q && p[1] == q[0] && !Skipped(p);
    var r := SetPath(if k in data.fields then data.fields[k] else EMPTY, q, v, m);
    if r.Ok? {
      assert [k][1..] == [] && [data.fields][1..] == [];
      assert Rebuild([data.fields][1..], [k][1..], r.value) == r.value;
      assert Rebuild([data.fields], [k], r.value) == Obj(data.fields[k := r.value]);
    }
    assert SetField(Lookup(data.fields, k), p[1..], v, m) ==
           SetPath(if k in data.fields then data.fields[k] else EMPTY, q, v, m);
  }

  lemma HangOnce(r: Attempt<Json>, trail: seq<Dict>, parts: seq<string>)
    requires |trail| == |parts| && parts != []
    ensures Hang(r, trail, parts) == Hang(Hang(r, trail[1..], parts[1..]), [trail[0]], [parts[0]])
  {
    if r.Ok? {
      var leaf := Rebuild(trail[1..], parts[1..], r.value);
      assert [parts[0]][1..] == [] && [trail[0]][1..] == [];
      assert Rebuild([trail[0]][1..], [parts[0]][1..], leaf) == leaf;
    }
  }

  lemma KeysFirst(parts: seq<string>, q: Path)
    requires parts != []
    ensures Keys(parts) + q == [Key(parts[0])] + (Keys(parts[1..]) + q)
  {
  }

  lemma {:induction false} WriteThroughKeys(data: Json, parts: seq<string>, trail: seq<Dict>, current: Json,
                                            q: Path, v: Json, m: Mode)
    requires Walked(data, parts, trail, current) && q != [] && q[0].Key?
    ensures SetPath(data, Keys(parts) + q, v, m) == Hang(SetPath(current, q, v, m), trail, parts)
    decreases |parts|
  {
    if parts == [] {
      assert Keys(parts) + q == q;
    } else {
      var below := Keys(parts[1..]) + q;
      KeysFirst(parts, q);
      WriteBelow(data, parts[0], below, v, m);
      WriteThroughKeys(if parts[0] in data.fields then data.fields[parts[0]] else EMPTY,
                       parts[1..], trail[1..], current, q, v, m);
      HangOnce(SetPath(current, q, v, m), trail, parts);
    }
  }

  /** A walk that gets stuck at something other than a dictionary raises. */
  lemma StuckRaises(data: Json, parts: seq<string>, i: nat, trail: seq<Dict>, current: Json, q: Path, v: Json, m: Mode)
    requires i < |parts| && Walked(data, parts[..i], trail, current) && !current.Obj?
    requires q != [] && q[0].Key?
    ensures SetPath(data, Keys(parts) + q, v, m) == TypeError
  {
    var p := Keys(parts[i..]) + q;
    assert Keys(parts) + q == Keys(parts[..i]) + p;
    WriteThroughKeys(data, parts[..i], trail, current, p, v, m);
  }

  /** `for part in parts[:-1]`: descend, adding the missing dictionaries. */
  method Walk(data: Json, parts: seq<string>) returns (ok: bool, trail: seq<Dict>, current: Json, ghost at: nat)
    ensures ok ==> Walked(data, parts, trail, current)
    ensures !ok ==> at < |parts| && Walked(data, parts[..at], trail, current) && !current.Obj?
  {
    ok, trail, current, at := true, [], data, 0;
    for i := 0 to |parts|
      invariant Walked(data, parts[..i], trail, current)
    {
      if !current.Obj? {
        ok, at := false, i;
        return;
      }
      WalkedOn(data, parts[..i], trail, current, parts[i]);
      assert parts[..i] + [parts[i]] == parts[..i + 1];
      trail := trail + [current.fields];
      current := if parts[i] in current.fields then current.fields[parts[i]] else EMPTY;
    }
    assert parts[..|parts|] == parts;
  }

  lemma {:induction false} ModeOnlyForLastKey(d: Json, p: Path, v: Json, m: Mode)
    requires p != [] && Each in p
    ensures SetPath(d, p, v, m) == SetPath(d, p, v, Replace)
    decreases |p|
  {
    if !Skipped(p) && d.Obj? && p[1].Key? {
      ModeOnlyForLastKey(if p[0].key in d.fields then d.fields[p[0].key] else EMPTY, p[1..], v, m);
    }
  }

  method SetNested(data: Json, key: string, value: Json, m: Mode) returns (r: Attempt<Json>)
    ensures r == SetPath(data, Parse(key), value, m)
    ensures m.Concat? && NestedPathLaws.OnlyKeys(Parse(key)) && r.Ok? ==>
              NestedPathLaws.Joined(data, Parse(key), value, m.render, r.value)
    decreases |key|, 1
  {
    JoinsIn(data, Parse(key), value, m);
    if HasEach(key) {
      ModeOnlyForLastKey(data, Parse(key), value, m);
      r := SetNestedArray(data, key, value);
      return;
    }
    r := SetPlain(data, key, value, m);
  }

  lemma JoinsIn(d: Json, p: Path, v: Json, m: Mode)
    requires p != []
    ensures var r := SetPath(d, p, v, m);
            m.Concat? && NestedPathLaws.OnlyKeys(p) && r.Ok? ==> NestedPathLaws.Joined(d, p, v, m.render, r.value)
  {
    var r := SetPath(d, p, v, m);
    if m.Concat? && NestedPathLaws.OnlyKeys(p) && r.Ok? { NestedPathLaws.JoiningWrite(d, p, v, m.render, r.value); }
  }

  lemma KeysSplit(parts: seq<string>)
    requires parts != []
    ensures Keys(parts) == Keys(parts[..|parts| - 1]) + [Key(parts[|parts| - 1])]
  {
  }

  /** The writer for a key without brackets. */
  method SetPlain(data: Json, key: string, value: Json, m: Mode) returns (r: Attempt<Json>)
    requires !HasEach(key)
    ensures r == SetPath(data, Parse(key), value, m)
  {
    var parts := Split(key);
    var last := |parts| - 1;
    var finalKey := parts[last];
    KeysSplit(parts);
    var ok, trail, current, at := Walk(data, parts[..last]);
    if !ok {
      StuckRaises(data, parts[..last], at, trail, current, [Key(finalKey)], value, m);
      return TypeError;
    }
    WriteThroughKeys(data, parts[..last], trail, current, [Key(finalKey)], value, m);
    if !current.Obj? {
      return TypeError;
    }
    var stored := value;
    if m.Concat? && finalKey in current.fields {
      stored := Combine(current.fields[finalKey], value, m.render);
    }
    r := Ok(Rebuild(trail, parts[..last], Obj(current.fields[finalKey := stored])));
  }

  function Drop(rows: seq<Json>, i: nat): seq<Json> {
    if i < |rows| then rows[i..] else []
  }

  function PutBefore(done: seq<Json>, r: Attempt<seq<Json>>): Attempt<seq<Json>> {
    if r.Ok? then Ok(done + r.value) else TypeError
  }

  /** One round of the element loop. */
  lemma RowStep(rows: seq<Json>, values: seq<Json>, i: nat, tail: Path, done: seq<Json>, x: Attempt<Json>)
    requires i < |values| && Progress(rows, values, tail, i, done)
    requires x == if tail == [] then Ok(values[i]) else SetPath(Base(Drop(rows, i)), tail, values[i], Replace)
    ensures if x.Ok? then Progress(rows, values, tail, i + 1, done + [x.value])
            else SetRows(rows, values, tail) == TypeError
  {
    var more := SetRows(Drop(rows, i + 1), values[i + 1..], tail);
    assert values[i..][1..] == values[i + 1..];
    assert (if Drop(rows, i) == [] then [] else Drop(rows, i)[1..]) == Drop(rows, i + 1);
    if x.Ok? && more.Ok? {
      assert done + ([x.value] + more.value) == (done + [x.value]) + more.value;
    }
  }

  /** The write into `rows` is `done`, then the write into the rows from `i` on. */
  predicate Progress(rows: seq<Json>, values: seq<Json>, tail: Path, i: nat, done: seq<Json>) {
    i <= |values| &&
    SetRows(rows, values, tail) == PutBefore(done, SetRows(Drop(rows, i), values[i..], tail))
  }

  lemma Start(rows: seq<Json>, values: seq<Json>, tail: Path)
    ensures Progress(rows, values, tail, 0, [])
  {
    var r := SetRows(rows, values, tail);
    assert Drop(rows, 0) == rows && values[0..] == values;
    assert r.Ok? ==> [] + r.value == r.value;
  }

  lemma Finish(rows: seq<Json>, values: seq<Json>, tail: Path, arr: seq<Json>)
    requires |arr| == Max(|rows|, |values|)
    requires forall j :: |values| <= j < |arr| ==> arr[j] == rows[j]
    requires Progress(rows, values, tail, |values|, arr[..|values|])
    ensures SetRows(rows, values, tail) == Ok(arr)
  {
    assert arr == arr[..|values|] + Drop(rows, |values|);
  }

  /** `while len(arr) < len(value): arr.append({})` */
  method Pad(rows: seq<Json>, n: nat) returns (arr: seq<Json>)
    ensures |arr| == Max(|rows|, n)
    ensures forall j :: 0 <= j < |arr| ==> arr[j] == if j < |rows| then rows[j] else EMPTY
  {
    arr := rows;
    while |arr| < n
      invariant |rows| <= |arr| <= Max(|rows|, n)
      invariant forall j :: 0 <= j < |arr| ==> arr[j] == if j < |rows| then rows[j] else EMPTY
    {
      arr := arr + [EMPTY];
    }
  }

  /** The element loop: pad the list, then store one value per row. */
  method SetElements(rows: seq<Json>, values: seq<Json>, rest: string) returns (r: Attempt<seq<Json>>)
    ensures r == SetRows(rows, values, Tail(rest))
    decreases |rest|, 2
  {
    var arr := Pad(rows, |values|);
    ghost var tail := Tail(rest);
    Start(rows, values, tail);
    assert arr[..0] == [];
    for i := 0 to |values|
      invariant |arr| == Max(|rows|, |values|)
      invariant forall j :: i <= j < |arr| ==> arr[j] == if j < |rows| then rows[j] else EMPTY
      invariant Progress(rows, values, tail, i, arr[..i])
    {
      ghost var done := arr[..i];
      var row := if arr[i].Obj? then arr[i] else EMPTY;
      assert row == Base(Drop(rows, i));
      var x := Ok(values[i]);
      if rest != "" {
        x := SetNested(row, rest, values[i], Replace);
      }
      RowStep(rows, values, i, tail, done, x);
      if x.TypeError? {
        return TypeError;
      }
      arr := arr[i := x.value];
      assert arr[..i + 1] == done + [x.value];
    }
    Finish(rows, values, tail, arr);
    r := Ok(arr);
  }

  /** What a key with brackets parses to, split at its array name. */
  lemma ParseArrayKey(key: string, parts: seq<string>)
    requires HasEach(key) && EachAt(key) > 0 && parts == Split(key[..EachAt(key)])
    ensures var last := |parts| - 1;
            Parse(key) == Keys(parts[..last]) + ([Key(parts[last]), Each] + Tail(AfterEach(key, EachAt(key))))
  {
    KeysSplit(parts);
    Regroup(Keys(parts[..|parts| - 1]), Key(parts[|parts| - 1]), Tail(AfterEach(key, EachAt(key))));
  }

  lemma Regroup(keys: Path, last: Step, tail: Path)
    ensures keys + [last] + ([Each] + tail) == keys + ([last, Each] + tail)
  {
  }

  lemma WriteArray(current: Json, arrKey: string, tail: Path, v: Json)
    ensures SetPath(current, [Key(arrKey), Each] + tail, v, Replace) ==
            if arrKey == "" then Ok(current)
            else if !current.Obj? then TypeError
            else
              var rows := SetRows(Rows(Lookup(current.fields, arrKey)), Listify(v), tail);
              if rows.Ok? then Ok(Obj(current.fields[arrKey := Arr(rows.value)])) else TypeError
  {
    var q := [Key(arrKey), Each] + tail;
    assert q[1..] == [Each] + tail && q[1..][1..] == tail;
  }

  method SetNestedArray(data: Json, key: string, value: Json) returns (r: Attempt<Json>)
    requires HasEach(key)
    ensures r == SetPath(data, Parse(key), value, Replace)
    decreases |key|, 0
  {
    var at := EachAt(key);
    var arrayPath, rest := key[..at], AfterEach(key, at);
    if arrayPath == "" {
      return Ok(data);
    }
    var parts := Split(arrayPath);
    var last := |parts| - 1;
    var arrKey := parts[last];
    ghost var q: Path := [Key(arrKey), Each] + Tail(rest);
    ParseArrayKey(key, parts);
    var ok, trail, current, stuck := Walk(data, parts[..last]);
    if !ok {
      StuckRaises(data, parts[..last], stuck, trail, current, q, value, Replace);
      return TypeError;
    }
    WriteThroughKeys(data, parts[..last], trail, current, q, value, Replace);
    WriteArray(current, arrKey, Tail(rest), value);
    if arrKey == "" {
      return Ok(Rebuild(trail, parts[..last], current));
    }
    if !current.Obj? {
      return TypeError;
    }
    var arr := if arrKey in current.fields && current.fields[arrKey].Arr? then current.fields[arrKey].items else [];
    var values := if value.Arr? then value.items else [value];
    var rows := SetElements(arr, values, rest);
    if rows.TypeError? {
      return TypeError;
    }
    r := Ok(Rebuild(trail, parts[..last], Obj(current.fields[arrKey := Arr(rows.value)])));
  }
}

/** Field mapping: a list of rules, each of which writes one resolved value at a
    target path, and what the resulting tree depends on. */
module FieldMapping {
  import opened Json
  import opened NestedPath
  import opened NestedPathLaws

  datatype Write = Write(path: Path, value: Json)

  predicate Named(ws: seq<Write>) {
    forall i :: 0 <= i < |ws| ==> ws[i].path != []
  }

  /** The rules applied in order; the first one that raises ends the mapping. */
  function ApplyAll(d: Attempt<Json>, ws: seq<Write>, m: Mode): Attempt<Json>
    requires Named(ws)
    decreases |ws|
  {
    if ws == [] then d else ApplyAll(Then(d, ws[0].path, ws[0].value, m), ws[1..], m)
  }

  /** Target paths are pairwise incomparable. */
  predicate Apart(ws: seq<Write>) {
    forall i, j :: 0 <= i < |ws| && 0 <= j < |ws| && i != j ==> Diverge(ws[i].path, ws[j].path)
  }

  // ---- the order of the rules does not matter ----

  lemma {:induction false} MoveToFront(d: Attempt<Json>, ws: seq<Write>, k: nat, m: Mode)
    requires Named(ws) && k < |ws|
    requires forall j :: 0 <= j < k ==> Diverge(ws[j].path, ws[k].path)
    ensures ApplyAll(d, ws, m) == ApplyAll(Then(d, ws[k].path, ws[k].value, m), ws[..k] + ws[k + 1..], m)
    decreases k
  {
    var w := ws[k];
    if k == 0 {
      assert ws[..0] + ws[1..] == ws[1..];
    } else {
      var d1 := Then(d, ws[0].path, ws[0].value, m);
      MoveToFront(d1, ws[1..], k - 1, m);
      if d.Ok? { Commute(d.value, ws[0].path, ws[0].value, w.path, w.value, m); }
      var rest := ws[..k] + ws[k + 1..];
      assert rest[1..] == ws[1..][..k - 1] + ws[1..][k..];
    }
  }

  function FirstAt(ws: seq<Write>, w: Write): (k: nat)
    requires w in ws
    ensures k < |ws| && ws[k] == w && forall j :: 0 <= j < k ==> ws[j] != w
  {
    if ws[0] == w then 0 else 1 + FirstAt(ws[1..], w)
  }

  /** Rules with pairwise incomparable targets give the same tree, or raise, in
      every order. */
  lemma {:induction false} OrderDoesNotMatter(d: Attempt<Json>, ws: seq<Write>, ws': seq<Write>, m: Mode)
    requires Named(ws) && Apart(ws) && multiset(ws) == multiset(ws')
    ensures Named(ws') && ApplyAll(d, ws, m) == ApplyAll(d, ws', m)
    decreases |ws|
  {
    if ws == [] {
      assert |multiset(ws')| == 0;
    } else {
      var w := ws[0];
      var k := Bring(ws, ws');
      var rest := ws'[..k] + ws'[k + 1..];
      OrderDoesNotMatter(Then(d, w.path, w.value, m), ws[1..], rest, m);
      MoveToFront(d, ws', k, m);
    }
  }

  lemma RestOf<T>(s: seq<T>, k: nat)
    requires k < |s|
    ensures multiset(s[..k] + s[k + 1..]) == multiset(s) - multiset{s[k]}
  {
    assert s == s[..k] + [s[k]] + s[k + 1..];
  }

  lemma TailOf<T>(s: seq<T>)
    requires s != []
    ensures multiset(s[1..]) == multiset(s) - multiset{s[0]}
  {
    assert s == [s[0]] + s[1..];
  }

  lemma SameRest<T>(s: seq<T>, t: seq<T>, k: nat)
    requires s != [] && k < |t| && s[0] == t[k] && multiset(s) == multiset(t)
    ensures multiset(s[1..]) == multiset(t[..k] + t[k + 1..])
  {
    TailOf(s);
    RestOf(t, k);
  }

  /** The first rule of `ws` can be brought to the front of a permutation of `ws`. */
  lemma Bring(ws: seq<Write>, ws': seq<Write>) returns (k: nat)
    requires ws != [] && Named(ws) && Apart(ws) && multiset(ws) == multiset(ws')
    ensures k < |ws'| && ws'[k] == ws[0] && Named(ws')
    ensures forall j :: 0 <= j < k ==> Diverge(ws'[j].path, ws'[k].path)
    ensures multiset(ws[1..]) == multiset(ws'[..k] + ws'[k + 1..])
  {
    var w := ws[0];
    assert w in multiset(ws');
    k := FirstAt(ws', w);
    BringPaths(ws, ws');
    SameRest(ws, ws', k);
  }

  lemma BringPaths(ws: seq<Write>, ws': seq<Write>)
    requires ws != [] && Named(ws) && Apart(ws) && multiset(ws) == multiset(ws')
    ensures Named(ws') && forall i :: 0 <= i < |ws'| && ws'[i] != ws[0] ==> Diverge(ws'[i].path, ws[0].path)
  {
    forall i | 0 <= i < |ws'|
      ensures ws'[i].path != []
      ensures ws'[i] != ws[0] ==> Diverge(ws'[i].path, ws[0].path)
    {
      assert ws'[i] in multiset(ws);
      var j :| 0 <= j < |ws| && ws[j] == ws'[i];
    }
  }

  // ---- rules applied to an empty result ----

  /** Walking `p` from `d` meets only dictionaries, and its last key is free. */
  predicate Clear(d: Json, p: Path)
    requires p != []
    decreases |p|
  {
    Skipped(p) ||
    (d.Obj? &&
     var entry := Lookup(d.fields, p[0].key);
     if |p| == 1 then entry.None?
     else if p[1].Each? then
       |p| > 2 ==> forall i :: 0 <= i < |Rows(entry)| && Rows(entry)[i].Obj? ==> Clear(Rows(entry)[i], p[2..])
     else entry.Some? ==> Clear(entry.value, p[1..]))
  }

  lemma {:induction false} EmptyIsClear(p: Path)
    requires p != []
    ensures Clear(EMPTY, p)
  {
  }

  lemma {:induction false} ClearRowsWrite(rows: seq<Json>, vs: seq<Json>, rest: Path)
    requires rest != [] ==> forall i :: 0 <= i < |rows| && rows[i].Obj? ==> Clear(rows[i], rest)
    ensures SetRows(rows, vs, rest).Ok?
    decreases |rest|, 1, |vs|
  {
    if vs != [] {
      if rest != [] { ClearWrite(Base(rows), rest, vs[0], Replace); }
      ClearRowsWrite(if rows == [] then [] else rows[1..], vs[1..], rest);
    }
  }

  /** A write along a clear path succeeds and has nothing to join with. */
  lemma {:induction false} ClearWrite(d: Json, p: Path, v: Json, m: Mode)
    requires p != [] && Clear(d, p)
    ensures SetPath(d, p, v, m).Ok?
    ensures SetPath(d, p, v, m) == SetPath(d, p, v, Replace)
    decreases |p|, 0
  {
    if !Skipped(p) {
      var entry := Lookup(d.fields, p[0].key);
      var tail := p[1..];
      if tail == [] {
      } else if tail[0].Each? {
        ClearRowsWrite(Rows(entry), Listify(v), tail[1..]);
      } else {
        ClearWrite(if entry.Some? then entry.value else EMPTY, tail, v, m);
      }
    }
  }

  /** A write at a diverging path keeps the path clear. */
  lemma {:induction false} ClearStays(d: Json, p: Path, q: Path, w: Json, m: Mode, d': Json)
    requires Diverge(p, q) && Clear(d, p)
    requires SetPath(d, q, w, m) == Ok(d')
    ensures Clear(d', p)
    decreases |p|
  {
    if Skipped(q) || Skipped(p) {
    } else if p[0] != q[0] {
      assert Lookup(d'.fields, p[0].key) == Lookup(d.fields, p[0].key);
    } else {
      var entry := Lookup(d.fields, q[0].key);
      var x := d'.fields[q[0].key];
      var pt, qt := p[1..], q[1..];
      if pt[0].Each? {
        var pr, qr := pt[1..], qt[1..];
        assert Diverge(pt, qt) && Diverge(pr, qr);
        forall i | 0 <= i < |x.items| && x.items[i].Obj? ensures Clear(x.items[i], pr) {
          RowsAt(Rows(entry), Listify(w), qr, x.items, i);
          if i < |Listify(w)| {
            ClearStays(Base(if i < |Rows(entry)| then Rows(entry)[i..] else []), pr, qr, Listify(w)[i], Replace,
                       x.items[i]);
          }
        }
        assert pr == p[2..];
      } else {
        ClearStays(if entry.Some? then entry.value else EMPTY, pt, qt, w, m, x);
      }
    }
  }

  lemma {:induction false} ClearApplies(d: Json, ws: seq<Write>, m: Mode)
    requires Named(ws) && Apart(ws)
    requires forall i :: 0 <= i < |ws| ==> Clear(d, ws[i].path)
    ensures ApplyAll(Ok(d), ws, m).Ok?
    ensures ApplyAll(Ok(d), ws, m) == ApplyAll(Ok(d), ws, Replace)
    decreases |ws|
  {
    if ws != [] {
      ClearWrite(d, ws[0].path, ws[0].value, m);
      var d' := SetPath(d, ws[0].path, ws[0].value, m).value;
      forall i | 0 <= i < |ws[1..]| ensures Clear(d', ws[1..][i].path) {
        assert Diverge(ws[i + 1].path, ws[0].path);
        ClearStays(d, ws[i + 1].path, ws[0].path, ws[0].value, m, d');
      }
      ClearApplies(d', ws[1..], m);
    }
  }

  lemma {:induction false} ApplyLast(d: Attempt<Json>, ws: seq<Write>, w: Write, m: Mode)
    requires Named(ws) && w.path != []
    ensures Named(ws + [w]) && ApplyAll(d, ws + [w], m) == Then(ApplyAll(d, ws, m), w.path, w.value, m)
    decreases |ws|
  {
    if ws == [] {
      assert ([] + [w])[1..] == [];
    } else {
      assert (ws + [w])[1..] == ws[1..] + [w];
      ApplyLast(Then(d, ws[0].path, ws[0].value, m), ws[1..], w, m);
    }
  }

  // ---- several rules with one target ----

  /** The values written at `p`, in order. */
  function ValuesAt(ws: seq<Write>, p: Path): seq<Json> {
    if ws == [] then []
    else
      var w := ws[|ws| - 1];
      ValuesAt(ws[..|ws| - 1], p) + (if w.path == p then [w.value] else [])
  }

  function AllItems(values: seq<Json>): seq<Json> {
    if values == [] then []
    else
      var last := values[|values| - 1];
      AllItems(values[..|values| - 1]) + (if last.Arr? then last.items else [last])
  }

  /** The texts of the values, the last one first. */
  function Backwards(values: seq<Json>, render: Json -> string): string {
    if values == [] then ""
    else if |values| == 1 then render(values[0])
    else render(values[|values| - 1]) + " " + Backwards(values[..|values| - 1], render)
  }

  /** One value is stored as it is; a first value that is a list collects the others; and
      otherwise all become one text. */
  predicate IsJoin(values: seq<Json>, render: Json -> string, field: Option<Json>) {
    if values == [] then field == None
    else if |values| == 1 then field == Some(values[0])
    else if values[0].Arr? then field == Some(Arr(AllItems(values)))
    else field == Some(Str(Backwards(values, render)))
  }

  lemma ItemsNext(values: seq<Json>, v: Json)
    ensures AllItems(values + [v]) == AllItems(values) + (if v.Arr? then v.items else [v])
  {
    assert (values + [v])[..|values|] == values;
  }

  lemma OneList(items: seq<Json>)
    ensures AllItems([Arr(items)]) == items
  {
    assert [Arr(items)][..0] == [];
  }

  /** A write at the target joins its value to those before it. */
  lemma JoinNext(values: seq<Json>, render: Json -> string, fields: Dict, to: string, v: Json)
    requires IsJoin(values, render, Lookup(fields, to)) && forall s :: render(Str(s)) == s
    ensures SetField(Lookup(fields, to), [], v, Concat(render)).Ok?
    ensures IsJoin(values + [v], render, Some(SetField(Lookup(fields, to), [], v, Concat(render)).value))
  {
    assert (values + [v])[..|values|] == values;
    if values != [] {
      assert (values + [v])[0] == values[0];
      ItemsNext(values, v);
      if |values| == 1 && values[0].Arr? { OneList(values[0].items); }
    }
  }

  /** What one write leaves at a top-level key. */
  lemma FieldAfter(d: Json, w: Write, to: string, m: Mode, d': Json)
    requires d.Obj? && w.path != [] && SetPath(d, w.path, w.value, m) == Ok(d')
    requires w.path == [Key(to)] || Diverge([Key(to)], w.path)
    ensures d'.Obj?
    ensures if w.path == [Key(to)] then Ok(d'.fields[to]) == SetField(Lookup(d.fields, to), [], w.value, m) &&
            to in d'.fields
            else Lookup(d'.fields, to) == Lookup(d.fields, to)
  {
  }

  lemma ValuesNext(front: seq<Write>, w: Write, p: Path)
    ensures ValuesAt(front + [w], p) == if w.path == p then ValuesAt(front, p) + [w.value] else ValuesAt(front, p)
  {
    assert (front + [w])[..|front|] == front;
  }

  /** When all other rules write elsewhere, a top-level target holds the values of its own
      rules, joined in their order. */
  lemma {:induction false} TargetJoins(ws: seq<Write>, to: string, render: Json -> string, mapped: Json)
    requires Named(ws) && ApplyAll(Ok(EMPTY), ws, Concat(render)) == Ok(mapped) && forall s :: render(Str(s)) == s
    requires forall i :: 0 <= i < |ws| ==> ws[i].path == [Key(to)] || Diverge([Key(to)], ws[i].path)
    ensures mapped.Obj? && IsJoin(ValuesAt(ws, [Key(to)]), render, Lookup(mapped.fields, to))
  {
    if ws != [] {
      var front, w := ws[..|ws| - 1], ws[|ws| - 1];
      LastOfAll(ws);
      ApplyLast(Ok(EMPTY), front, w, Concat(render));
      var before := ApplyAll(Ok(EMPTY), front, Concat(render)).value;
      TargetJoins(front, to, render, before);
      FieldAfter(before, w, to, Concat(render), mapped);
      ValuesNext(front, w, [Key(to)]);
      if w.path == [Key(to)] {
        JoinNext(ValuesAt(front, [Key(to)]), render, before.fields, to, w.value);
        assert Lookup(mapped.fields, to) ==
               Some(SetField(Lookup(before.fields, to), [], w.value, Concat(render)).value);
      }
    }
  }

  /** Rules with pairwise incomparable writable targets build a result without raising
      and without joining values, and every target reads back its own rule's value. */
  lemma TargetsReadBack(ws: seq<Write>, m: Mode, i: nat, idx: seq<nat>)
    requires Named(ws) && Apart(ws) && i < |ws| && Writable(ws[i].path)
    requires |idx| == Depth(ws[i].path) && InValue(ws[i].value, idx)
    ensures var r := ApplyAll(Ok(EMPTY), ws, m);
            r.Ok? && At(r.value, ws[i].path, idx) == LeafOf(ws[i].value, idx)
  {
    forall j | 0 <= j < |ws| ensures Clear(EMPTY, ws[j].path) { EmptyIsClear(ws[j].path); }
    ClearApplies(EMPTY, ws, m);
    LastWriterWins(EMPTY, ws, i, ApplyAll(Ok(EMPTY), ws, Replace).value, idx);
  }

  lemma {:induction false} MoveToEnd(d: Attempt<Json>, ws: seq<Write>, k: nat, m: Mode)
    requires Named(ws) && k < |ws|
    requires forall j :: k < j < |ws| ==> Diverge(ws[k].path, ws[j].path)
    ensures ApplyAll(d, ws, m) ==
            Then(ApplyAll(d, ws[..k] + ws[k + 1..], m), ws[k].path, ws[k].value, m)
    decreases |ws| - k
  {
    var w := ws[k];
    if k == |ws| - 1 {
      assert ws == ws[..k] + [w] && ws[..k] + ws[k + 1..] == ws[..k];
      ApplyLast(d, ws[..k], w, m);
    } else {
      var swapped := ws[k := ws[k + 1]][k + 1 := w];
      SwapNext(d, ws, k, m);
      MoveToEnd(d, swapped, k + 1, m);
      assert swapped[..k + 1] + swapped[k + 2..] == ws[..k] + ws[k + 1..];
    }
  }

  lemma {:induction false} SwapNext(d: Attempt<Json>, ws: seq<Write>, k: nat, m: Mode)
    requires Named(ws) && k + 1 < |ws| && Diverge(ws[k].path, ws[k + 1].path)
    ensures ApplyAll(d, ws, m) == ApplyAll(d, ws[k := ws[k + 1]][k + 1 := ws[k]], m)
    decreases k
  {
    var ws' := ws[k := ws[k + 1]][k + 1 := ws[k]];
    if k == 0 {
      assert ws'[1..][1..] == ws[1..][1..];
      if d.Ok? { Commute(d.value, ws[0].path, ws[0].value, ws[1].path, ws[1].value, m); }
    } else {
      assert ws'[1..] == ws[1..][k - 1 := ws[k]][k := ws[k - 1]] || ws'[1..] == ws[1..][k - 1 := ws[k + 1]][k := ws[k]];
      SwapNext(Then(d, ws[0].path, ws[0].value, m), ws[1..], k - 1, m);
    }
  }

  /** A rule whose target diverges from all later ones keeps its value, whatever was
      in the tree and whatever the earlier rules wrote. */
  lemma {:induction false} LastWriterWins(d: Json, ws: seq<Write>, i: nat, d': Json, idx: seq<nat>)
    requires Named(ws) && i < |ws| && Writable(ws[i].path)
    requires forall j :: i < j < |ws| ==> Diverge(ws[i].path, ws[j].path)
    requires ApplyAll(Ok(d), ws, Replace) == Ok(d')
    requires |idx| == Depth(ws[i].path) && InValue(ws[i].value, idx)
    ensures At(d', ws[i].path, idx) == LeafOf(ws[i].value, idx)
  {
    MoveToEnd(Ok(d), ws, i, Replace);
    var before := ApplyAll(Ok(d), ws[..i] + ws[i + 1..], Replace);
    GetAfterSet(before.value, ws[i].path, ws[i].value, Replace, d', idx);
  }

  // ---- columns ----

  datatype Column = Column(name: string, cells: seq<Json>)

  function ColumnRules(list: string, cols: seq<Column>): (ws: seq<Write>)
    ensures |ws| == |cols| && Named(ws)
  {
    seq(|cols|, j requires 0 <= j < |cols| => Write([Key(list), Each, Key(cols[j].name)], Arr(cols[j].cells)))
  }

  /** Row `i` of the zip: each column's name with its `i`-th cell. */
  function ZipRow(cols: seq<Column>, i: nat): (row: Dict)
    requires forall c :: c in cols ==> i < |c.cells|
    ensures forall k :: k in row <==> exists j :: 0 <= j < |cols| && cols[j].name == k
  {
    if cols == [] then map[]
    else
      var c := cols[|cols| - 1];
      ZipRow(cols[..|cols| - 1], i)[c.name := c.cells[i]]
  }

  /** `rows`, padded to the cells, with each cell stored under `name`. */
  function WithColumn(rows: seq<Json>, cells: seq<Json>, name: string): (r: seq<Json>)
    requires |rows| <= |cells| && forall row :: row in rows ==> row.Obj?
    ensures |r| == |cells|
    ensures forall i :: 0 <= i < |r| ==> r[i] == Obj((if i < |rows| then rows[i].fields else map[])[name := cells[i]])
  {
    seq(|cells|, i requires 0 <= i < |cells| => Obj((if i < |rows| then rows[i].fields else map[])[name := cells[i]]))
  }

  lemma {:induction false} SetColumn(rows: seq<Json>, cells: seq<Json>, name: string)
    requires |rows| <= |cells| && forall r :: r in rows ==> r.Obj?
    ensures SetRows(rows, cells, [Key(name)]) == Ok(WithColumn(rows, cells, name))
    decreases |cells|
  {
    if cells == [] {
      assert rows == WithColumn(rows, cells, name);
    } else {
      var tail := if rows == [] then [] else rows[1..];
      SetColumn(tail, cells[1..], name);
      SetCell(rows, cells[0], name);
      WithColumnOn(rows, cells, name);
    }
  }

  function Cell(rows: seq<Json>, cell: Json, name: string): Json
    requires forall r :: r in rows ==> r.Obj?
  {
    Obj((if rows != [] then rows[0].fields else map[])[name := cell])
  }

  lemma SetCell(rows: seq<Json>, cell: Json, name: string)
    requires forall r :: r in rows ==> r.Obj?
    ensures SetPath(Base(rows), [Key(name)], cell, Replace) == Ok(Cell(rows, cell, name))
  {
  }

  lemma WithColumnOn(rows: seq<Json>, cells: seq<Json>, name: string)
    requires |rows| <= |cells| && cells != [] && forall r :: r in rows ==> r.Obj?
    ensures var tail := if rows == [] then [] else rows[1..];
            WithColumn(rows, cells, name) == [Cell(rows, cells[0], name)] + WithColumn(tail, cells[1..], name)
  {
  }

  /** The rows that the columns zip to. */
  function Zip(cols: seq<Column>, n: nat): (rows: seq<Json>)
    requires forall c :: c in cols ==> |c.cells| == n
    ensures |rows| == n && forall i :: 0 <= i < n ==> rows[i] == Obj(ZipRow(cols, i))
  {
    seq(n, i requires 0 <= i < n => Obj(ZipRow(cols, i)))
  }

  /** Column rules of equal length build the list of zipped rows. */
  lemma {:induction false} ColumnsZip(list: string, cols: seq<Column>, n: nat, m: Mode)
    requires list != "" && cols != [] && forall c :: c in cols ==> |c.cells| == n
    ensures ApplyAll(Ok(EMPTY), ColumnRules(list, cols), m) == Ok(Obj(map[list := Arr(Zip(cols, n))]))
    decreases |cols|
  {
    var k := |cols| - 1;
    var c, front := cols[k], cols[..k];
    var path := [Key(list), Each, Key(c.name)];
    assert ColumnRules(list, cols) == ColumnRules(list, front) + [Write(path, Arr(c.cells))];
    ApplyLast(Ok(EMPTY), ColumnRules(list, front), Write(path, Arr(c.cells)), m);
    var d := if front == [] then EMPTY else Obj(map[list := Arr(Zip(front, n))]);
    if front != [] { ColumnsZip(list, front, n, m); }
    assert ApplyAll(Ok(EMPTY), ColumnRules(list, front), m) == Ok(d);
    var rows := Rows(Lookup(d.fields, list));
    SetColumn(rows, c.cells, c.name);
    assert path[1..] == [Each, Key(c.name)] && path[1..][1..] == [Key(c.name)];
    assert front == [] ==> forall i :: 0 <= i < n ==> ZipRow(front, i) == map[];
    assert WithColumn(rows, c.cells, c.name) == Zip(cols, n);
    assert SetField(Lookup(d.fields, list), path[1..], Arr(c.cells), m) == Ok(Arr(Zip(cols, n)));
    assert !Skipped(path) && path[0].key == list;
    assert SetPath(d, path, Arr(c.cells), m) == Ok(Obj(d.fields[list := Arr(Zip(cols, n))]));
    assert d.fields[list := Arr(Zip(cols, n))] == map[list := Arr(Zip(cols, n))];
  }
}

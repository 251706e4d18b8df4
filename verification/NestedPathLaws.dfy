/** Lens, frame and commutation laws of nested path reads and writes. */
module NestedPathLaws {
  import opened Json
  import opened NestedPath

  // ---- addressing one element ----

  /** How many brackets a path has. */
  function Depth(p: Path): nat {
    if p == [] then 0 else (if p[0].Each? then 1 else 0) + Depth(p[1..])
  }

  /** The element a path addresses once every `[]` is given an index. */
  function At(d: Json, p: Path, idx: seq<nat>): Json
    requires |idx| == Depth(p)
    decreases |p|
  {
    if p == [] then d
    else match p[0]
      case Key(k) => At(Child(d, k), p[1..], idx)
      case Each =>
        if d.Arr? && idx[0] < |d.items| then At(d.items[idx[0]], p[1..], idx[1..]) else Null
  }

  /** `idx` addresses a leaf of the written value, which a write wraps in a list
      wherever the path has brackets and the value has none. */
  predicate InValue(v: Json, idx: seq<nat>) {
    idx == [] || (idx[0] < |Listify(v)| && InValue(Listify(v)[idx[0]], idx[1..]))
  }

  function LeafOf(v: Json, idx: seq<nat>): Json
    requires InValue(v, idx)
  {
    if idx == [] then v else LeafOf(Listify(v)[idx[0]], idx[1..])
  }

  /** Every pair of brackets follows a non-empty key. */
  predicate Writable(p: Path) {
    p != [] && p[0].Key? &&
    (|p| > 1 ==> if p[1].Each? then p[0].key != "" && (|p| > 2 ==> Writable(p[2..])) else Writable(p[1..]))
  }

  /** No row that the write goes through is itself a list. */
  predicate PlainRows(rows: seq<Json>, vs: seq<Json>, rest: Path)
    decreases |rest|, 1, |vs|
  {
    vs == [] || rest == [] ||
    ((rows == [] || !rows[0].Arr?) && Plain(Base(rows), rest, vs[0]) &&
     PlainRows(if rows == [] then [] else rows[1..], vs[1..], rest))
  }

  predicate Plain(d: Json, p: Path, v: Json)
    requires p != []
    decreases |p|, 0
  {
    Skipped(p) || !d.Obj? || |p| == 1 ||
    var entry := Lookup(d.fields, p[0].key);
    if p[1].Each? then PlainRows(Rows(entry), Listify(v), p[2..])
    else Plain(if entry.Some? then entry.value else EMPTY, p[1..], v)
  }

  // ---- basic facts ----

  lemma {:induction false} NullReadsNull(p: Path)
    ensures GetPath(Null, p) == Null
    decreases |p|
  {
    if p != [] && p[0].Key? { NullReadsNull(p[1..]); }
  }

  lemma {:induction false} NullAt(p: Path, idx: seq<nat>)
    requires |idx| == Depth(p)
    ensures At(Null, p, idx) == Null
    decreases |p|
  {
    if p != [] && p[0].Key? { NullAt(p[1..], idx); }
  }

  lemma RowsParts(rows: seq<Json>, vs: seq<Json>, rest: Path, rows': seq<Json>)
    requires SetRows(rows, vs, rest) == Ok(rows') && vs != []
    ensures rows' != [] && SetRows(if rows == [] then [] else rows[1..], vs[1..], rest) == Ok(rows'[1..])
    ensures if rest == [] then rows'[0] == vs[0] else SetPath(Base(rows), rest, vs[0], Replace) == Ok(rows'[0])
  {
  }

  /** What a row write does, index by index. */
  lemma {:induction false} RowsAt(rows: seq<Json>, vs: seq<Json>, rest: Path, rows': seq<Json>, i: nat)
    requires SetRows(rows, vs, rest) == Ok(rows')
    ensures |rows'| == Max(|rows|, |vs|)
    ensures |vs| <= i < |rows| ==> rows'[i] == rows[i]
    ensures i < |vs| && rest == [] ==> rows'[i] == vs[i]
    ensures i < |vs| && rest != [] ==>
              SetPath(Base(if i < |rows| then rows[i..] else []), rest, vs[i], Replace) == Ok(rows'[i])
    ensures i < |vs| && rest != [] ==> rows'[i].Obj?
    decreases |vs|
  {
    if vs != [] {
      var tail := if rows == [] then [] else rows[1..];
      RowsParts(rows, vs, rest, rows');
      RowsAt(tail, vs[1..], rest, rows'[1..], if i == 0 then 0 else i - 1);
      if i > 0 && i < |rows| { assert tail[i - 1..] == rows[i..]; }
      if i == 0 && rows != [] { assert rows[0..] == rows; }
    }
  }

  lemma {:induction false} PlainRowsAt(rows: seq<Json>, vs: seq<Json>, rest: Path, i: nat)
    requires PlainRows(rows, vs, rest) && i < |vs| && rest != []
    ensures i < |rows| ==> !rows[i].Arr?
    ensures Plain(Base(if i < |rows| then rows[i..] else []), rest, vs[i])
    decreases |vs|
  {
    var tail := if rows == [] then [] else rows[1..];
    if i > 0 {
      PlainRowsAt(tail, vs[1..], rest, i - 1);
      if i < |rows| { assert tail[i - 1..] == rows[i..]; }
    } else if rows != [] { assert rows[0..] == rows; }
  }

  // ---- what replaced list rows lose ----

  /** The two paths part at a key: same steps up to there, then different keys. */
  predicate Diverge(p: Path, q: Path) {
    p != [] && q != [] &&
    if p[0] == q[0] then Diverge(p[1..], q[1..]) else p[0].Key? && q[0].Key?
  }

  /** The write replaces a row that is not a dictionary by a fresh one. Only a list row
      can lose something by that, and none does that holds nothing at this place. */
  predicate KeptInRow(rows: seq<Json>, vs: seq<Json>, p: Path, q: Path, idx: seq<nat>)
    requires (p == q || Diverge(p, q)) && |idx| == Depth(q) + 1
    decreases |p|, 1
  {
    var i := idx[0];
    i >= |vs| || p == [] ||
    if i < |rows| && rows[i].Arr? then At(rows[i], q, idx[1..]) == Null
    else KeptAt(Base(if i < |rows| then rows[i..] else []), p, vs[i], q, idx[1..])
  }

  /** Where a write of `v` at `p` meets a list row on the way to an element of `q`, that
      row has nothing at the element's place. */
  predicate KeptAt(d: Json, p: Path, v: Json, q: Path, idx: seq<nat>)
    requires p != [] && (p == q || Diverge(p, q)) && |idx| == Depth(q)
    decreases |p|, 0
  {
    Skipped(p) || !d.Obj? || p[0] != q[0] || |p| == 1 ||
    var entry := Lookup(d.fields, p[0].key);
    var pt, qt := p[1..], q[1..];
    assert pt == qt || Diverge(pt, qt);
    assert Depth(q) == Depth(qt);
    assert pt[0].Each? ==> qt[0] == pt[0];
    if pt[0].Each? then KeptInRow(Rows(entry), Listify(v), pt[1..], qt[1..], idx)
    else KeptAt(if entry.Some? then entry.value else EMPTY, pt, v, qt, idx)
  }

  /** Nothing is lost where the write meets no list row. */
  lemma {:induction false} PlainKeepsRow(rows: seq<Json>, vs: seq<Json>, p: Path, q: Path, idx: seq<nat>)
    requires (p == q || Diverge(p, q)) && |idx| == Depth(q) + 1 && PlainRows(rows, vs, p)
    ensures KeptInRow(rows, vs, p, q, idx)
    decreases |p|, 1
  {
    var i := idx[0];
    if i < |vs| && p != [] {
      PlainRowsAt(rows, vs, p, i);
      PlainKeeps(Base(if i < |rows| then rows[i..] else []), p, vs[i], q, idx[1..]);
    }
  }

  lemma {:induction false} PlainKeeps(d: Json, p: Path, v: Json, q: Path, idx: seq<nat>)
    requires p != [] && (p == q || Diverge(p, q)) && |idx| == Depth(q) && Plain(d, p, v)
    ensures KeptAt(d, p, v, q, idx)
    decreases |p|, 0
  {
    if !Skipped(p) && d.Obj? && p[0] == q[0] && |p| > 1 {
      var entry := Lookup(d.fields, p[0].key);
      assert p[1..][1..] == p[2..];
      if p[1].Each? {
        PlainKeepsRow(Rows(entry), Listify(v), p[1..][1..], q[1..][1..], idx);
      } else {
        PlainKeeps(if entry.Some? then entry.value else EMPTY, p[1..], v, q[1..], idx);
      }
    }
  }

  lemma {:induction false} FreshIsPlain(p: Path, v: Json)
    requires p != []
    ensures Plain(EMPTY, p, v)
    decreases |p|, 0
  {
    if !Skipped(p) && |p| > 1 {
      if p[1].Each? { FreshRowsArePlain(Listify(v), p[2..]); } else { FreshIsPlain(p[1..], v); }
    }
  }

  lemma {:induction false} FreshRowsArePlain(vs: seq<Json>, rest: Path)
    ensures PlainRows([], vs, rest)
    decreases |rest|, 1, |vs|
  {
    if vs != [] && rest != [] {
      FreshIsPlain(rest, vs[0]);
      FreshRowsArePlain(vs[1..], rest);
    }
  }

  // ---- get after set ----

  /** A row that is not a list reads like the dictionary that takes its place. */
  lemma FreshRow(rows: seq<Json>, i: nat, p: Path, idx: seq<nat>)
    requires p != [] && |idx| == Depth(p)
    requires i < |rows| ==> !rows[i].Arr?
    ensures At(Base(if i < |rows| then rows[i..] else []), p, idx) ==
            At(if i < |rows| then rows[i] else Null, p, idx)
  {
    NullAt(p[1..], if p[0].Each? then idx[1..] else idx);
  }

  lemma FreshAt(p: Path, idx: seq<nat>)
    requires p != [] && |idx| == Depth(p)
    ensures At(EMPTY, p, idx) == Null
  {
    if p[0].Key? { NullAt(p[1..], idx); }
  }

  /** A row write keeps an element outside what it writes exactly when nothing is lost
      with a list row there, given that the write of the row itself is exact. */
  lemma RowKept(rows: seq<Json>, vs: seq<Json>, p: Path, rows': seq<Json>, q: Path, idx: seq<nat>)
    requires (p == q || Diverge(p, q)) && p != [] && |idx| == Depth(q) + 1
    requires SetRows(rows, vs, p) == Ok(rows') && idx[0] < |vs| && idx[0] < |rows'|
    requires var i := idx[0];
             var base := if i < |rows| && rows[i].Arr? then EMPTY else Base(if i < |rows| then rows[i..] else []);
             At(rows'[i], q, idx[1..]) == At(base, q, idx[1..]) <==> KeptAt(base, p, vs[i], q, idx[1..])
    ensures At(Arr(rows'), [Each] + q, idx) == At(Arr(rows), [Each] + q, idx) <==> KeptInRow(rows, vs, p, q, idx)
  {
    var i := idx[0];
    assert ([Each] + q)[1..] == q;
    assert At(Arr(rows'), [Each] + q, idx) == At(rows'[i], q, idx[1..]);
    FreshAt(q, idx[1..]);
    NullAt(q, idx[1..]);
    if i < |rows| && rows[i].Arr? {
      FreshIsPlain(p, vs[i]);
      PlainKeeps(EMPTY, p, vs[i], q, idx[1..]);
    } else {
      FreshRow(rows, i, q, idx[1..]);
    }
  }

  lemma {:induction false} RowGetAfterSet(rows: seq<Json>, vs: seq<Json>, rest: Path, rows': seq<Json>, idx: seq<nat>)
    requires rest == [] || Writable(rest)
    requires |idx| == Depth(rest) + 1
    requires SetRows(rows, vs, rest) == Ok(rows')
    ensures InValue(Arr(vs), idx) ==> At(Arr(rows'), [Each] + rest, idx) == LeafOf(Arr(vs), idx)
    ensures !InValue(Arr(vs), idx) ==>
              (At(Arr(rows'), [Each] + rest, idx) == At(Arr(rows), [Each] + rest, idx) <==>
               KeptInRow(rows, vs, rest, rest, idx))
    decreases |rest|, 1
  {
    var i := idx[0];
    RowsAt(rows, vs, rest, rows', i);
    assert ([Each] + rest)[1..] == rest;
    assert InValue(Arr(vs), idx) == (i < |vs| && InValue(vs[i], idx[1..]));
    if i < |vs| && rest != [] {
      var base := if i < |rows| && rows[i].Arr? then EMPTY else Base(if i < |rows| then rows[i..] else []);
      GetAfterSet(base, rest, vs[i], Replace, rows'[i], idx[1..]);
      if !InValue(Arr(vs), idx) { RowKept(rows, vs, rest, rows', rest, idx); }
    }
  }

  /** Reading back after a write: every element of the value is found at its own
      indices, and an element outside the value reads as it did before exactly when it was
      not lost with a list row that the write replaced. */
  lemma {:induction false} GetAfterSet(d: Json, p: Path, v: Json, m: Mode, d': Json, idx: seq<nat>)
    requires Writable(p) && m.Replace?
    requires SetPath(d, p, v, m) == Ok(d')
    requires |idx| == Depth(p)
    ensures InValue(v, idx) ==> At(d', p, idx) == LeafOf(v, idx)
    ensures !InValue(v, idx) ==> (At(d', p, idx) == At(d, p, idx) <==> KeptAt(d, p, v, p, idx))
    decreases |p|, 0
  {
    var k, tail := p[0].key, p[1..];
    var entry := Lookup(d.fields, k);
    var x := d'.fields[k];
    assert Child(d', k) == x;
    if tail == [] {
    } else if tail[0].Each? {
      RowGetAfterSet(Rows(entry), Listify(v), tail[1..], x.items, idx);
      assert [Each] + tail[1..] == tail;
      assert Listify(Arr(Listify(v))) == Listify(v);
      assert entry.Some? && !entry.value.Arr? ==> At(entry.value, tail, idx) == Null;
    } else {
      GetAfterSet(if entry.Some? then entry.value else EMPTY, tail, v, m, x, idx);
      NullAt(tail[1..], idx);
    }
  }

  lemma {:induction false} RowsUnwritable(rows: seq<Json>, vs: seq<Json>, rest: Path, rows': seq<Json>, idx: seq<nat>)
    requires rest != [] && !Writable(rest)
    requires |idx| == Depth(rest) + 1
    requires SetRows(rows, vs, rest) == Ok(rows')
    ensures At(Arr(rows'), [Each] + rest, idx) == At(Arr(rows), [Each] + rest, idx) <==>
            KeptInRow(rows, vs, rest, rest, idx)
    decreases |rest|, 1
  {
    var i := idx[0];
    RowsAt(rows, vs, rest, rows', i);
    assert ([Each] + rest)[1..] == rest;
    if i < |vs| {
      var base := if i < |rows| && rows[i].Arr? then EMPTY else Base(if i < |rows| then rows[i..] else []);
      Unwritable(base, rest, vs[i], Replace, rows'[i], idx[1..]);
      RowKept(rows, vs, rest, rows', rest, idx);
    }
  }

  /** A path in which some brackets do not follow a key, as in `a[][]`, never stores
      the value: an element it addresses reads as before, exactly unless it was lost with
      a list row that the write replaced. */
  lemma {:induction false} Unwritable(d: Json, p: Path, v: Json, m: Mode, d': Json, idx: seq<nat>)
    requires p != [] && !Writable(p)
    requires SetPath(d, p, v, m) == Ok(d')
    requires |idx| == Depth(p)
    ensures At(d', p, idx) == At(d, p, idx) <==> KeptAt(d, p, v, p, idx)
    decreases |p|, 0
  {
    if !Skipped(p) {
      var k, tail := p[0].key, p[1..];
      var entry := Lookup(d.fields, k);
      var x := d'.fields[k];
      assert Child(d', k) == x;
      if tail[0].Each? {
        RowsUnwritable(Rows(entry), Listify(v), tail[1..], x.items, idx);
        assert [Each] + tail[1..] == tail;
        assert !(entry.Some? && entry.value.Arr?) ==> At(Child(d, k), tail, idx) == Null;
      } else {
        Unwritable(if entry.Some? then entry.value else EMPTY, tail, v, m, x, idx);
        NullAt(tail, idx);
        NullAt(tail[1..], idx);
      }
    }
  }

  lemma OneRow(v: Json, rest: Path, row: Json)
    requires rest != [] && SetPath(EMPTY, rest, v, Replace) == Ok(row)
    ensures SetRows([], [v], rest) == Ok([row])
  {
    assert [v][1..] == [];
    assert SetRows([], [v][1..], rest) == Ok([]);
    assert [row] + [] == [row];
  }

  /** `a[][]` parses to a path that can be read but not written: the write succeeds
      and leaves the list of lists as it was. */
  lemma AdjacentBracketsAreNotStored()
    ensures Parse("a[][]") == [Key("a"), Each, Each]
    ensures var d := Obj(map["a" := Arr([Arr([Null])])]);
            GetPath(d, [Key("a"), Each, Each]) == Arr([Arr([Null])])
    ensures SetPath(EMPTY, [Key("a"), Each, Each], Arr([Arr([Bool(true)])]), Replace) ==
            Ok(Obj(map["a" := Arr([EMPTY])]))
  {
    assert EachAt("a[][]") == 1 + EachAt("[][]") == 1;
    assert "a[][]"[..1] == "a" && AfterEach("a[][]", 1) == "[]";
    assert Split("") == [""];
    assert "a"[1..] == "" && ['a'] + "" == "a" && Split("a") == ["a"];
    assert Parse("[]") == [Each];
    assert GetPath(Arr([Null]), [Each]) == Arr([Null]);
    var rest: Path := [Each];
    assert SetRows([], [], rest) == Ok([]);
    assert SetPath(EMPTY, rest, Arr([Bool(true)]), Replace) == Ok(EMPTY);
    OneRow(Arr([Bool(true)]), rest, EMPTY);
    var p: Path := [Key("a"), Each, Each];
    assert p[1..] == [Each, Each] && p[1..][1..] == rest;
    assert SetField(None, p[1..], Arr([Arr([Bool(true)])]), Replace) == Ok(Arr([EMPTY]));
  }

  // ---- when a whole read returns exactly the value written ----

  /** The value is a list wherever the path has brackets. */
  predicate Nested(p: Path, v: Json)
    decreases |p|
  {
    p == [] ||
    if p[0].Key? then Nested(p[1..], v)
    else v.Arr? && forall i :: 0 <= i < |v.items| ==> Nested(p[1..], v.items[i])
  }

  predicate RowsFit(rows: seq<Json>, vs: seq<Json>, rest: Path)
    decreases |rest|, 1
  {
    |rows| <= |vs| &&
    (rest == [] || forall i :: 0 <= i < |vs| ==> Fits(Base(if i < |rows| then rows[i..] else []), rest, vs[i]))
  }

  /** No list on the way is longer than what is written into it. */
  predicate Fits(d: Json, p: Path, v: Json)
    requires p != []
    decreases |p|, 0
  {
    !d.Obj? || p[0].Each? || |p| == 1 ||
    var entry := Lookup(d.fields, p[0].key);
    if p[1].Each? then RowsFit(Rows(entry), Listify(v), p[2..])
    else Fits(if entry.Some? then entry.value else EMPTY, p[1..], v)
  }

  lemma {:induction false} RowsReadBack(rows: seq<Json>, vs: seq<Json>, rest: Path, rows': seq<Json>)
    requires rest == [] || Writable(rest)
    requires SetRows(rows, vs, rest) == Ok(rows')
    ensures GetPath(Arr(rows'), [Each] + rest) == Arr(vs) <==> Nested([Each] + rest, Arr(vs)) && RowsFit(rows, vs, rest)
    decreases |rest|, 1
  {
    assert ([Each] + rest)[1..] == rest;
    var read := GetPath(Arr(rows'), [Each] + rest);
    RowsAt(rows, vs, rest, rows', 0);
    forall i | 0 <= i < |vs|
      ensures rest == [] ==> read.items[i] == vs[i]
      ensures rest != [] ==>
                (read.items[i] == vs[i] <==>
                 Nested(rest, vs[i]) && Fits(Base(if i < |rows| then rows[i..] else []), rest, vs[i]))
    {
      RowsAt(rows, vs, rest, rows', i);
      assert read.items[i] == GetPath(rows'[i], rest);
      if rest != [] {
        ReadBack(Base(if i < |rows| then rows[i..] else []), rest, vs[i], rows'[i]);
      }
    }
    assert |read.items| == |vs| && (forall i :: 0 <= i < |vs| ==> read.items[i] == vs[i]) <==> read == Arr(vs);
  }

  /** A whole read after a write returns the value written exactly when the value is
      nested like the path and no list already there is longer. */
  lemma {:induction false} ReadBack(d: Json, p: Path, v: Json, d': Json)
    requires Writable(p)
    requires SetPath(d, p, v, Replace) == Ok(d')
    ensures GetPath(d', p) == v <==> Nested(p, v) && Fits(d, p, v)
    decreases |p|, 0
  {
    var k, tail := p[0].key, p[1..];
    var entry := Lookup(d.fields, k);
    var x := d'.fields[k];
    assert Child(d', k) == x;
    if tail == [] {
    } else if tail[0].Each? {
      RowsReadBack(Rows(entry), Listify(v), tail[1..], x.items);
      assert [Each] + tail[1..] == tail;
    } else {
      ReadBack(if entry.Some? then entry.value else EMPTY, tail, v, x);
    }
  }

  // ---- writes that join ----

  predicate OnlyKeys(p: Path) {
    p != [] && forall i :: 0 <= i < |p| ==> p[i].Key?
  }

  /** What is read after a joining write: a list that was at the key goes on with the
      value or its items; anything else there, `None` included, follows the value in one
      text; and a key that was free has the value. */
  predicate Joined(d: Json, p: Path, v: Json, render: Json -> string, d': Json)
    requires p != []
  {
    var k := |p| - 1;
    var parent := GetPath(d, p[..k]);
    if p[k].Key? && parent.Obj? && p[k].key in parent.fields then
      var held := parent.fields[p[k].key];
      if held.Arr? then GetPath(d', p) == Arr(held.items + (if v.Arr? then v.items else [v]))
      else GetPath(d', p) == Str(render(v) + " " + render(held))
    else GetPath(d', p) == v
  }

  lemma {:induction false} JoiningWrite(d: Json, p: Path, v: Json, render: Json -> string, d': Json)
    requires OnlyKeys(p) && SetPath(d, p, v, Concat(render)) == Ok(d')
    ensures Joined(d, p, v, render, d')
    decreases |p|
  {
    var key, tail := p[0].key, p[1..];
    var entry, x := Lookup(d.fields, key), d'.fields[key];
    assert Child(d', key) == x;
    if tail != [] {
      var below := if entry.Some? then entry.value else EMPTY;
      JoiningWrite(below, tail, v, render, x);
      assert p[..|p| - 1][1..] == tail[..|tail| - 1];
      if entry.None? { NothingHeld(tail[..|tail| - 1]); }
    }
  }

  /** No dictionary with entries is read from nothing. */
  lemma {:induction false} NothingHeld(p: Path)
    ensures !GetPath(Null, p).Obj?
    ensures GetPath(EMPTY, p).Obj? ==> GetPath(EMPTY, p) == EMPTY
    decreases |p|
  {
    if p != [] && p[0].Key? { NothingHeld(p[1..]); }
  }

  // ---- frame ----

  lemma {:induction false} RowFrameAt(rows: seq<Json>, vs: seq<Json>, p: Path, rows': seq<Json>, q: Path, idx: seq<nat>)
    requires Diverge(p, q)
    requires SetRows(rows, vs, p) == Ok(rows')
    requires |idx| == Depth(q) + 1
    ensures At(Arr(rows'), [Each] + q, idx) == At(Arr(rows), [Each] + q, idx) <==> KeptInRow(rows, vs, p, q, idx)
    decreases |p|, 1
  {
    var i := idx[0];
    RowsAt(rows, vs, p, rows', i);
    assert ([Each] + q)[1..] == q;
    if i < |vs| {
      var base := if i < |rows| && rows[i].Arr? then EMPTY else Base(if i < |rows| then rows[i..] else []);
      FrameAt(base, p, vs[i], Replace, rows'[i], q, idx[1..]);
      RowKept(rows, vs, p, rows', q, idx);
    }
  }

  /** A write changes an element that a diverging path addresses exactly when the element
      is lost with a list row that the write replaces, in either mode. */
  lemma {:induction false} FrameAt(d: Json, p: Path, v: Json, m: Mode, d': Json, q: Path, idx: seq<nat>)
    requires Diverge(p, q)
    requires SetPath(d, p, v, m) == Ok(d')
    requires |idx| == Depth(q)
    ensures At(d', q, idx) == At(d, q, idx) <==> KeptAt(d, p, v, q, idx)
    decreases |p|, 0
  {
    if !Skipped(p) {
      var k := p[0].key;
      if q[0].key == k {
        var entry := Lookup(d.fields, k);
        var x := d'.fields[k];
        var pt, qt := p[1..], q[1..];
        assert Child(d', k) == x;
        if pt[0].Each? {
          RowFrameAt(Rows(entry), Listify(v), pt[1..], x.items, qt[1..], idx);
          assert [Each] + qt[1..] == qt;
          assert !(entry.Some? && entry.value.Arr?) ==> At(Child(d, k), qt, idx) == Null;
        } else {
          FrameAt(if entry.Some? then entry.value else EMPTY, pt, v, m, x, qt, idx);
          NullAt(qt, idx);
          NullAt(qt[1..], idx);
        }
      }
    }
  }

  /** What `q` reads in a dictionary that was empty before the write. */
  function FreshRead(p: Path, v: Json, q: Path): Json
    requires Diverge(p, q)
    decreases |p|
  {
    if Skipped(p) || p[0] != q[0] then Null
    else
      var pt, qt := p[1..], q[1..];
      assert Diverge(pt, qt);
      if pt[0].Each? then
        Arr(seq(|Listify(v)|, i requires 0 <= i < |Listify(v)| => FreshRead(pt[1..], Listify(v)[i], qt[1..])))
      else FreshRead(pt, v, qt)
  }

  lemma FreshReadsNull(q: Path)
    requires q != []
    ensures GetPath(EMPTY, q) == Null == GetPath(Null, q)
  {
    NullReadsNull(q);
    if q[0].Key? { NullReadsNull(q[1..]); }
  }

  lemma {:induction false} FreshReadIs(p: Path, v: Json, m: Mode, d': Json, q: Path)
    requires Diverge(p, q) && SetPath(EMPTY, p, v, m) == Ok(d')
    ensures GetPath(d', q) == FreshRead(p, v, q)
    decreases |p|, 0
  {
    FreshReadsNull(q);
    if !Skipped(p) {
      var pt, qt := p[1..], q[1..];
      if p[0] != q[0] {
        NullReadsNull(qt);
      } else if pt[0].Each? {
        var rows := d'.fields[p[0].key].items;
        FreshRowsRead(Listify(v), pt[1..], rows, qt[1..]);
        assert [Each] + qt[1..] == qt;
      } else {
        FreshReadIs(pt, v, m, d'.fields[p[0].key], qt);
      }
    }
  }

  lemma {:induction false} FreshRowsRead(vs: seq<Json>, p: Path, rows: seq<Json>, q: Path)
    requires Diverge(p, q) && SetRows([], vs, p) == Ok(rows)
    ensures GetPath(Arr(rows), [Each] + q) == Arr(seq(|vs|, i requires 0 <= i < |vs| => FreshRead(p, vs[i], q)))
    decreases |p|, 1
  {
    assert ([Each] + q)[1..] == q;
    RowsAt([], vs, p, rows, 0);
    var read := GetPath(Arr(rows), [Each] + q);
    forall i | 0 <= i < |vs| ensures read.items[i] == FreshRead(p, vs[i], q) {
      RowsAt([], vs, p, rows, i);
      FreshReadIs(p, vs[i], Replace, rows[i], q);
    }
    assert read.items == seq(|vs|, i requires 0 <= i < |vs| => FreshRead(p, vs[i], q));
  }

  /** Every list that both paths go through is there and at least as long as what is
      written into it, and a list row that the write replaces reads like a fresh one. */
  predicate Shared(d: Json, p: Path, v: Json, q: Path)
    requires Diverge(p, q)
    decreases |p|, 0
  {
    Skipped(p) || !d.Obj? || p[0] != q[0] ||
    var entry := Lookup(d.fields, p[0].key);
    var pt, qt := p[1..], q[1..];
    assert Diverge(pt, qt);
    if pt[0].Each? then
      entry.Some? && entry.value.Arr? && |Listify(v)| <= |entry.value.items| &&
      forall i :: 0 <= i < |Listify(v)| ==> SharedRow(entry.value.items, i, pt[1..], Listify(v)[i], qt[1..])
    else Shared(if entry.Some? then entry.value else EMPTY, pt, v, qt)
  }

  predicate SharedRow(rows: seq<Json>, i: nat, p: Path, v: Json, q: Path)
    requires Diverge(p, q) && i < |rows|
    decreases |p|, 1
  {
    if rows[i].Arr? then GetPath(rows[i], q) == FreshRead(p, v, q) else Shared(Base(rows[i..]), p, v, q)
  }

  lemma {:induction false} RowFrame(rows: seq<Json>, i: nat, p: Path, v: Json, row: Json, q: Path)
    requires Diverge(p, q) && i < |rows| && SetPath(Base(rows[i..]), p, v, Replace) == Ok(row)
    ensures GetPath(row, q) == GetPath(rows[i], q) <==> SharedRow(rows, i, p, v, q)
    decreases |p|, 1
  {
    if rows[i].Arr? {
      FreshReadIs(p, v, Replace, row, q);
    } else {
      Frame(Base(rows[i..]), p, v, Replace, row, q);
      FreshReadsNull(q);
      if q[0].Key? { NullReadsNull(q[1..]); }
    }
  }

  lemma {:induction false} RowsFrame(rows: seq<Json>, vs: seq<Json>, p: Path, rows': seq<Json>, q: Path)
    requires Diverge(p, q)
    requires SetRows(rows, vs, p) == Ok(rows')
    ensures GetPath(Arr(rows'), [Each] + q) == GetPath(Arr(rows), [Each] + q) <==>
            |vs| <= |rows| && forall i :: 0 <= i < |vs| ==> SharedRow(rows, i, p, vs[i], q)
    decreases |p|, 2
  {
    assert ([Each] + q)[1..] == q;
    var before, after := GetPath(Arr(rows), [Each] + q), GetPath(Arr(rows'), [Each] + q);
    RowsAt(rows, vs, p, rows', 0);
    forall i | 0 <= i < |rows|
      ensures i >= |vs| ==> after.items[i] == before.items[i]
      ensures i < |vs| ==> (after.items[i] == before.items[i] <==> SharedRow(rows, i, p, vs[i], q))
    {
      RowsAt(rows, vs, p, rows', i);
      if i < |vs| { RowFrame(rows, i, p, vs[i], rows'[i], q); }
    }
    assert after == before <==> |rows'| == |rows| && forall i :: 0 <= i < |rows| ==> after.items[i] == before.items[i];
    if |vs| <= |rows| && forall i :: 0 <= i < |rows| ==> after.items[i] == before.items[i] {
      forall i | 0 <= i < |vs| ensures SharedRow(rows, i, p, vs[i], q) {
        assert after.items[i] == before.items[i];
      }
    }
  }

  /** A whole read of a diverging path is unchanged exactly when the write neither creates
      nor lengthens a list that the two paths share, nor replaces a list row there that
      reads unlike a fresh one. */
  lemma {:induction false} Frame(d: Json, p: Path, v: Json, m: Mode, d': Json, q: Path)
    requires Diverge(p, q)
    requires SetPath(d, p, v, m) == Ok(d')
    ensures GetPath(d', q) == GetPath(d, q) <==> Shared(d, p, v, q)
    decreases |p|, 0
  {
    if !Skipped(p) {
      var k := p[0].key;
      if q[0].key == k {
        var entry := Lookup(d.fields, k);
        var x := d'.fields[k];
        var pt, qt := p[1..], q[1..];
        assert Child(d', k) == x;
        if pt[0].Each? {
          RowsFrame(Rows(entry), Listify(v), pt[1..], x.items, qt[1..]);
          assert [Each] + qt[1..] == qt;
        } else {
          Frame(if entry.Some? then entry.value else EMPTY, pt, v, m, x, qt);
          FreshReadsNull(qt);
        }
      }
    }
  }

  /** A sibling column does change as a whole when the write adds a row to it. */
  lemma LongerColumnChangesItsSibling()
    ensures var p, q := [Key("items"), Each, Key("sku")], [Key("items"), Each, Key("qty")];
            var d := Obj(map["items" := Arr([])]);
            Diverge(p, q) && Plain(d, p, Arr([Null])) && SetPath(d, p, Arr([Null]), Replace).Ok? &&
            GetPath(SetPath(d, p, Arr([Null]), Replace).value, q) != GetPath(d, q)
  {
    var p, q := [Key("items"), Each, Key("sku")], [Key("items"), Each, Key("qty")];
    var d := Obj(map["items" := Arr([])]);
    assert p[1..] == [Each, Key("sku")] && q[1..] == [Each, Key("qty")];
    assert p[1..][1..] == [Key("sku")] && q[1..][1..] == [Key("qty")];
    assert SetPath(EMPTY, [Key("sku")], Null, Replace) == Ok(Obj(map["sku" := Null]));
    OneRow(Null, [Key("sku")], Obj(map["sku" := Null]));
    var d' := SetPath(d, p, Arr([Null]), Replace).value;
    Frame(d, p, Arr([Null]), Replace, d', q);
    assert !Shared(d, p, Arr([Null]), q);
  }

  // ---- commutation ----

  function Then(r: Attempt<Json>, p: Path, v: Json, m: Mode): Attempt<Json>
    requires p != []
  {
    if r.Ok? then SetPath(r.value, p, v, m) else TypeError
  }

  function ThenRows(r: Attempt<seq<Json>>, vs: seq<Json>, rest: Path): Attempt<seq<Json>> {
    if r.Ok? then SetRows(r.value, vs, rest) else TypeError
  }

  lemma {:induction false} RowsCommute(rows: seq<Json>, vs: seq<Json>, p: Path, ws: seq<Json>, q: Path)
    requires Diverge(p, q)
    ensures ThenRows(SetRows(rows, vs, p), ws, q) == ThenRows(SetRows(rows, ws, q), vs, p)
    decreases |p|, 1, |vs| + |ws|
  {
    if vs != [] && ws != [] {
      var tail := if rows == [] then [] else rows[1..];
      RowsCommute(tail, vs[1..], p, ws[1..], q);
      Commute(Base(rows), p, vs[0], q, ws[0], Replace);
      RowsCommuteStep(rows, vs, p, ws, q);
      RowsCommuteStep(rows, ws, q, vs, p);
    }
  }

  /** The first row and the others are written independently. */
  lemma RowsCommuteStep(rows: seq<Json>, vs: seq<Json>, p: Path, ws: seq<Json>, q: Path)
    requires p != [] && q != [] && vs != [] && ws != []
    ensures var tail := if rows == [] then [] else rows[1..];
            var head := Then(SetPath(Base(rows), p, vs[0], Replace), q, ws[0], Replace);
            var more := ThenRows(SetRows(tail, vs[1..], p), ws[1..], q);
            ThenRows(SetRows(rows, vs, p), ws, q) ==
            if head.Ok? && more.Ok? then Ok([head.value] + more.value) else TypeError
  {
    var r := SetRows(rows, vs, p);
    if r.Ok? {
      assert r.value[1..] == SetRows(if rows == [] then [] else rows[1..], vs[1..], p).value;
      assert r.value[0].Obj? && Base(r.value) == r.value[0];
    }
  }

  /** Writes at diverging paths commute, whatever the tree and whether they raise. */
  lemma {:induction false} Commute(d: Json, p: Path, v: Json, q: Path, w: Json, m: Mode)
    requires Diverge(p, q)
    ensures Then(SetPath(d, p, v, m), q, w, m) == Then(SetPath(d, q, w, m), p, v, m)
    decreases |p|, 0
  {
    if Skipped(p) || Skipped(q) || !d.Obj? {
      CommuteTrivially(d, p, v, q, w, m);
    } else if p[0] == q[0] {
      FieldCommute(Lookup(d.fields, p[0].key), p[1..], v, q[1..], w, m);
      CommuteAtKey(d, p, v, q, w, m);
      CommuteAtKey(d, q, w, p, v, m);
    } else {
      CommuteApart(d, p, v, q, w, m);
      CommuteApart(d, q, w, p, v, m);
      var x := SetField(Lookup(d.fields, p[0].key), p[1..], v, m);
      var y := SetField(Lookup(d.fields, q[0].key), q[1..], w, m);
      if x.Ok? && y.Ok? {
        assert d.fields[p[0].key := x.value][q[0].key := y.value] == d.fields[q[0].key := y.value][p[0].key := x.value];
      }
    }
  }

  lemma CommuteTrivially(d: Json, p: Path, v: Json, q: Path, w: Json, m: Mode)
    requires p != [] && q != [] && (Skipped(p) || Skipped(q) || !d.Obj?)
    ensures Then(SetPath(d, p, v, m), q, w, m) == Then(SetPath(d, q, w, m), p, v, m)
  {
  }

  lemma CommuteApart(d: Json, p: Path, v: Json, q: Path, w: Json, m: Mode)
    requires p != [] && q != [] && !Skipped(p) && !Skipped(q) && d.Obj? && p[0] != q[0]
    ensures var x := SetField(Lookup(d.fields, p[0].key), p[1..], v, m);
            var y := SetField(Lookup(d.fields, q[0].key), q[1..], w, m);
            Then(SetPath(d, p, v, m), q, w, m) ==
            if x.Ok? && y.Ok? then Ok(Obj(d.fields[p[0].key := x.value][q[0].key := y.value])) else TypeError
  {
    var x := SetField(Lookup(d.fields, p[0].key), p[1..], v, m);
    if x.Ok? {
      var d' := d.fields[p[0].key := x.value];
      assert Lookup(d', q[0].key) == Lookup(d.fields, q[0].key);
    }
  }

  function ThenField(r: Attempt<Json>, tail: Path, v: Json, m: Mode): Attempt<Json> {
    if r.Ok? then SetField(Some(r.value), tail, v, m) else TypeError
  }

  lemma CommuteAtKey(d: Json, p: Path, v: Json, q: Path, w: Json, m: Mode)
    requires p != [] && q != [] && !Skipped(p) && !Skipped(q) && d.Obj? && p[0] == q[0]
    ensures var x := ThenField(SetField(Lookup(d.fields, p[0].key), p[1..], v, m), q[1..], w, m);
            Then(SetPath(d, p, v, m), q, w, m) == if x.Ok? then Ok(Obj(d.fields[p[0].key := x.value])) else TypeError
  {
    var k := p[0].key;
    var y := SetField(Lookup(d.fields, k), p[1..], v, m);
    if y.Ok? {
      var x := SetField(Some(y.value), q[1..], w, m);
      if x.Ok? {
        assert d.fields[k := y.value][k := x.value] == d.fields[k := x.value];
      }
    }
  }

  lemma ThenFieldIsRows(entry: Option<Json>, pt: Path, v: Json, qt: Path, w: Json, m: Mode)
    requires pt != [] && pt[0].Each? && qt != [] && qt[0].Each?
    ensures ThenField(SetField(entry, pt, v, m), qt, w, m) ==
            var rows := ThenRows(SetRows(Rows(entry), Listify(v), pt[1..]), Listify(w), qt[1..]);
            if rows.Ok? then Ok(Arr(rows.value)) else TypeError
  {
  }

  lemma {:induction false} FieldCommute(entry: Option<Json>, pt: Path, v: Json, qt: Path, w: Json, m: Mode)
    requires Diverge(pt, qt)
    ensures ThenField(SetField(entry, pt, v, m), qt, w, m) == ThenField(SetField(entry, qt, w, m), pt, v, m)
    decreases |pt|, 2
  {
    if pt[0].Each? {
      RowsCommute(Rows(entry), Listify(v), pt[1..], Listify(w), qt[1..]);
      ThenFieldIsRows(entry, pt, v, qt, w, m);
      ThenFieldIsRows(entry, qt, w, pt, v, m);
    } else {
      Commute(if entry.Some? then entry.value else EMPTY, pt, v, qt, w, m);
    }
  }
}

/** The two loops that apply field mappings: the workflow engine's, which joins a value
    with one already at its target, and the mapping resolver's, which layers connector
    defaults, flow rules and tenant overrides and always replaces. */
module MappingCode {
  import opened Json
  import opened NestedPath
  import opened KeyStrings
  import opened NestedPathLaws
  import opened NestedPathCode
  import opened FieldMapping

  /** One mapping rule; `steps` are its transforms, each from a list of values to one. */
  datatype Rule = Rule(to: string, toCustom: string, from: string, fromCustom: Json,
                       sources: seq<string>, steps: seq<seq<Json> -> Json>)

  const CUSTOM := "__custom__"

  function TargetOf(rule: Rule): string {
    if rule.to == CUSTOM then rule.toCustom else rule.to
  }

  function SourcesOf(rule: Rule, resolve: string -> Json): seq<Json> {
    if rule.sources != [] then seq(|rule.sources|, i requires 0 <= i < |rule.sources| => resolve(rule.sources[i]))
    else if rule.from == "" then []
    else if rule.from == CUSTOM then [rule.fromCustom]
    else [resolve(rule.from)]
  }

  function Pipe(values: seq<Json>, steps: seq<seq<Json> -> Json>): seq<Json>
    decreases |steps|
  {
    if steps == [] then values else Pipe([steps[0](values)], steps[1..])
  }

  /** `" ".join(str(v) for v in values if v is not None)` */
  function JoinText(values: seq<Json>, render: Json -> string): string {
    if values == [] then ""
    else
      var front := JoinText(values[..|values| - 1], render);
      var last := values[|values| - 1];
      if last.Null? then front
      else if forall v :: v in values[..|values| - 1] ==> v.Null? then render(last)
      else front + " " + render(last)
  }

  /** The value a rule stores; `Null` means that the rule is skipped. */
  function ValueOf(rule: Rule, resolve: string -> Json, render: Json -> string): Json {
    var resolved := SourcesOf(rule, resolve);
    if resolved == [] then Null
    else if rule.steps != [] then
      var out := Pipe(resolved, rule.steps);
      if out == [] then Null else out[0]
    else if |resolved| == 1 then resolved[0]
    else Str(JoinText(resolved, render))
  }

  // ---- what a rule stores ----

  /** The texts of the values that are not `None`. */
  function Words(values: seq<Json>, render: Json -> string): seq<string> {
    if values == [] then []
    else (if values[0].Null? then [] else [render(values[0])]) + Words(values[1..], render)
  }

  function Spaced(words: seq<string>): string {
    if words == [] then "" else if |words| == 1 then words[0] else words[0] + " " + Spaced(words[1..])
  }

  lemma {:induction false} WordsOn(values: seq<Json>, v: Json, render: Json -> string)
    ensures Words(values + [v], render) == Words(values, render) + (if v.Null? then [] else [render(v)])
    ensures Words(values, render) == [] <==> forall u :: u in values ==> u.Null?
    decreases |values|
  {
    if values == [] {
      assert [] + [v] == [v] && [v][1..] == [];
    } else {
      WordsOn(values[1..], v, render);
      assert (values + [v])[1..] == values[1..] + [v];
      assert values == [values[0]] + values[1..];
    }
  }

  lemma {:induction false} SpacedOn(words: seq<string>, word: string)
    requires words != []
    ensures Spaced(words + [word]) == Spaced(words) + " " + word
    decreases |words|
  {
    assert (words + [word])[1..] == words[1..] + [word];
    if |words| > 1 { SpacedOn(words[1..], word); }
  }

  lemma {:induction false} JoinTextIsSpaced(values: seq<Json>, render: Json -> string)
    ensures JoinText(values, render) == Spaced(Words(values, render))
    decreases |values|
  {
    if values != [] {
      var front, last := values[..|values| - 1], values[|values| - 1];
      JoinTextIsSpaced(front, render);
      LastOfAll(values);
      WordsOn(front, last, render);
      if last.Null? {
        assert Words(front, render) + [] == Words(front, render);
      } else if Words(front, render) != [] {
        SpacedOn(Words(front, render), render(last));
      }
    }
  }

  /** The first transform is given all values, and each other one what the one before it
      gave. */
  lemma {:induction false} PipeRuns(values: seq<Json>, steps: seq<seq<Json> -> Json>) returns (outs: seq<Json>)
    requires steps != []
    ensures |outs| == |steps| && outs[0] == steps[0](values)
    ensures forall i :: 0 < i < |outs| ==> outs[i] == steps[i]([outs[i - 1]])
    ensures Pipe(values, steps) == [outs[|outs| - 1]]
    decreases |steps|
  {
    outs := [steps[0](values)];
    if |steps| > 1 {
      var more := PipeRuns([outs[0]], steps[1..]);
      outs := outs + more;
    }
  }

  /** What a rule without transforms stores: the value of its one source, or the texts of
      several, one space apart, without those that are `None`. */
  lemma WhatARuleStores(rule: Rule, resolve: string -> Json, render: Json -> string)
    requires rule.steps == []
    ensures var value := ValueOf(rule, resolve, render);
            match |rule.sources|
            case 0 => value == if rule.from == "" then Null
                               else if rule.from == "__custom__" then rule.fromCustom
                               else resolve(rule.from)
            case 1 => value == resolve(rule.sources[0])
            case _ => value == Str(Spaced(Words(Resolved(rule.sources, resolve), render)))
  {
    JoinTextIsSpaced(Resolved(rule.sources, resolve), render);
    assert rule.sources != [] ==> SourcesOf(rule, resolve) == Resolved(rule.sources, resolve);
  }

  function Resolved(sources: seq<string>, resolve: string -> Json): (values: seq<Json>)
    ensures |values| == |sources| && forall i :: 0 <= i < |values| ==> values[i] == resolve(sources[i])
  {
    seq(|sources|, i requires 0 <= i < |sources| => resolve(sources[i]))
  }

  /** The writes that a list of rules performs. */
  function WritesOf(rules: seq<Rule>, resolve: string -> Json, render: Json -> string): (ws: seq<Write>)
    ensures Named(ws)
  {
    if rules == [] then []
    else
      var front := WritesOf(rules[..|rules| - 1], resolve, render);
      var rule := rules[|rules| - 1];
      var value := ValueOf(rule, resolve, render);
      if TargetOf(rule) == "" || value.Null? then front else front + [Write(Parse(TargetOf(rule)), value)]
  }

  lemma TextKeysArePlain()
    ensures IsPlainKey("body_text") && IsPlainKey("subject")
  {
  }

  /** A plain top-level target is free as long as its path is clear. */
  lemma PlainTargetIsFree(d: Json, to: string)
    requires IsPlainKey(to) && Clear(d, Parse(to))
    ensures d.Obj? && to !in d.fields
  {
    PlainKey(to);
  }

  lemma WritesNext(rules: seq<Rule>, i: nat, resolve: string -> Json, render: Json -> string)
    requires i < |rules|
    ensures WritesOf(rules[..i], resolve, render) <= WritesOf(rules[..i + 1], resolve, render)
  {
    assert rules[..i + 1][..i] == rules[..i];
  }

  lemma {:induction false} WritesGrow(rules: seq<Rule>, i: nat, resolve: string -> Json, render: Json -> string)
    requires i <= |rules|
    ensures WritesOf(rules[..i], resolve, render) <= WritesOf(rules, resolve, render)
    decreases |rules| - i
  {
    if i < |rules| {
      WritesNext(rules, i, resolve, render);
      WritesGrow(rules, i + 1, resolve, render);
    } else {
      assert rules[..i] == rules;
    }
  }

  lemma Associative<T>(a: seq<T>, b: seq<T>, c: seq<T>)
    ensures a + b + c == a + (b + c)
  {
  }

  lemma WritesOfLast(front: seq<Rule>, rule: Rule, resolve: string -> Json, render: Json -> string)
    ensures WritesOf(front + [rule], resolve, render) ==
            WritesOf(front, resolve, render) + WritesOf([rule], resolve, render)
  {
    assert (front + [rule])[..|front|] == front;
    assert [rule][..0] == [];
  }

  lemma WritesJoinNothing(a: seq<Rule>, resolve: string -> Json, render: Json -> string)
    ensures WritesOf(a + [], resolve, render) == WritesOf(a, resolve, render) + WritesOf([], resolve, render)
  {
    assert a + [] == a;
  }

  lemma {:induction false} WritesJoin(a: seq<Rule>, b: seq<Rule>, resolve: string -> Json, render: Json -> string)
    ensures WritesOf(a + b, resolve, render) == WritesOf(a, resolve, render) + WritesOf(b, resolve, render)
    decreases |b|
  {
    if b == [] {
      WritesJoinNothing(a, resolve, render);
    } else {
      var front, last := b[..|b| - 1], b[|b| - 1];
      WritesJoin(a, front, resolve, render);
      LastOfAll(b);
      WritesJoinsLast(a, front, last, resolve, render);
    }
  }

  lemma WritesJoinsLast(a: seq<Rule>, front: seq<Rule>, last: Rule, resolve: string -> Json, render: Json -> string)
    requires WritesOf(a + front, resolve, render) == WritesOf(a, resolve, render) + WritesOf(front, resolve, render)
    ensures WritesOf(a + (front + [last]), resolve, render) ==
            WritesOf(a, resolve, render) + WritesOf(front + [last], resolve, render)
  {
    Associative(a, front, [last]);
    WritesOfLast(a + front, last, resolve, render);
    WritesOfLast(front, last, resolve, render);
    Associative(WritesOf(a, resolve, render), WritesOf(front, resolve, render), WritesOf([last], resolve, render));
  }

  lemma Parted<T>(s: seq<T>, k: nat)
    requires k < |s|
    ensures s == s[..k] + ([s[k]] + s[k + 1..])
  {
  }

  lemma Moved<T>(x: seq<T>, y: seq<T>, z: seq<T>)
    ensures multiset(x + (y + z)) == multiset(y) + multiset(x + z)
  {
  }

  /** The writes of a rule and of the others are the writes of all. */
  lemma WritesOfRest(rules: seq<Rule>, k: nat, resolve: string -> Json, render: Json -> string)
    requires k < |rules|
    ensures multiset(WritesOf(rules, resolve, render)) ==
            multiset(WritesOf([rules[k]], resolve, render)) +
            multiset(WritesOf(rules[..k] + rules[k + 1..], resolve, render))
  {
    var front, back := rules[..k], rules[k + 1..];
    Parted(rules, k);
    WritesJoin(front, [rules[k]] + back, resolve, render);
    WritesJoin([rules[k]], back, resolve, render);
    WritesJoin(front, back, resolve, render);
    Moved(WritesOf(front, resolve, render), WritesOf([rules[k]], resolve, render), WritesOf(back, resolve, render));
  }

  lemma PlaceOf<T>(s: seq<T>, x: T) returns (k: nat)
    requires x in multiset(s)
    ensures k < |s| && s[k] == x
  {
    k :| 0 <= k < |s| && s[k] == x;
  }

  lemma {:induction false} WritesPermute(rules: seq<Rule>, rules': seq<Rule>, resolve: string -> Json,
                                         render: Json -> string)
    requires multiset(rules) == multiset(rules')
    ensures multiset(WritesOf(rules, resolve, render)) == multiset(WritesOf(rules', resolve, render))
    decreases |rules|
  {
    if rules == [] {
      assert |multiset(rules')| == 0;
    } else {
      assert rules[0] in multiset(rules);
      var k := PlaceOf(rules', rules[0]);
      SameRest(rules, rules', k);
      WritesPermute(rules[1..], rules'[..k] + rules'[k + 1..], resolve, render);
      WritesOfFirst(rules, resolve, render);
      WritesOfRest(rules', k, resolve, render);
    }
  }

  lemma WritesOfFirst(rules: seq<Rule>, resolve: string -> Json, render: Json -> string)
    requires rules != []
    ensures multiset(WritesOf(rules, resolve, render)) ==
            multiset(WritesOf([rules[0]], resolve, render)) + multiset(WritesOf(rules[1..], resolve, render))
  {
    assert rules == [rules[0]] + rules[1..];
    WritesJoin([rules[0]], rules[1..], resolve, render);
  }

  /** Mapping rules whose targets diverge give the same tree in every order: the result of
      the engine's loop, which is this fold, does not depend on it. */
  lemma RuleOrderDoesNotMatter(rules: seq<Rule>, rules': seq<Rule>, resolve: string -> Json, render: Json -> string,
                               m: Mode)
    requires multiset(rules) == multiset(rules') && Apart(WritesOf(rules, resolve, render))
    ensures ApplyAll(Ok(EMPTY), WritesOf(rules, resolve, render), m) ==
            ApplyAll(Ok(EMPTY), WritesOf(rules', resolve, render), m)
  {
    WritesPermute(rules, rules', resolve, render);
    OrderDoesNotMatter(Ok(EMPTY), WritesOf(rules, resolve, render), WritesOf(rules', resolve, render), m);
  }

  /** The values of the rules with that target, in rule order, without those skipped. */
  function ValuesFor(rules: seq<Rule>, to: string, resolve: string -> Json, render: Json -> string): seq<Json> {
    if rules == [] then []
    else
      var rule := rules[|rules| - 1];
      var value := ValueOf(rule, resolve, render);
      ValuesFor(rules[..|rules| - 1], to, resolve, render) +
      (if TargetOf(rule) == to && value != Null then [value] else [])
  }

  /** The rule writes the plain key `to`, or elsewhere. */
  predicate WritesElsewhere(rule: Rule, to: string) {
    TargetOf(rule) == to || TargetOf(rule) == "" || Diverge([Key(to)], Parse(TargetOf(rule)))
  }

  lemma NotItself(p: Path)
    requires |p| == 1
    ensures !Diverge(p, p)
  {
  }

  ghost predicate AllElsewhere(ws: seq<Write>, to: string) {
    forall i :: 0 <= i < |ws| ==> ws[i].path == [Key(to)] || Diverge([Key(to)], ws[i].path)
  }

  predicate IsSkipped(rule: Rule, resolve: string -> Json, render: Json -> string) {
    TargetOf(rule) == "" || ValueOf(rule, resolve, render).Null?
  }

  lemma WritesNextRule(front: seq<Rule>, rule: Rule, resolve: string -> Json, render: Json -> string)
    ensures WritesOf(front + [rule], resolve, render) ==
            if IsSkipped(rule, resolve, render) then WritesOf(front, resolve, render)
            else WritesOf(front, resolve, render) + [Write(Parse(TargetOf(rule)), ValueOf(rule, resolve, render))]
  {
    assert (front + [rule])[..|front|] == front;
  }

  lemma ValuesForOn(front: seq<Rule>, rule: Rule, to: string, resolve: string -> Json, render: Json -> string)
    requires to != ""
    ensures ValuesFor(front + [rule], to, resolve, render) ==
            if TargetOf(rule) == to && !IsSkipped(rule, resolve, render)
            then ValuesFor(front, to, resolve, render) + [ValueOf(rule, resolve, render)]
            else ValuesFor(front, to, resolve, render)
  {
    assert (front + [rule])[..|front|] == front;
    assert ValuesFor(front, to, resolve, render) + [] == ValuesFor(front, to, resolve, render);
  }

  lemma ValuesForNext(front: seq<Rule>, rule: Rule, to: string, resolve: string -> Json, render: Json -> string)
    requires to != "" && Parse(to) == [Key(to)] && WritesElsewhere(rule, to)
    requires var ws := WritesOf(front, resolve, render);
             ValuesAt(ws, [Key(to)]) == ValuesFor(front, to, resolve, render) && AllElsewhere(ws, to)
    ensures var ws := WritesOf(front + [rule], resolve, render);
            ValuesAt(ws, [Key(to)]) == ValuesFor(front + [rule], to, resolve, render) && AllElsewhere(ws, to)
  {
    WritesNextRule(front, rule, resolve, render);
    ValuesForOn(front, rule, to, resolve, render);
    if !IsSkipped(rule, resolve, render) {
      var w := Write(Parse(TargetOf(rule)), ValueOf(rule, resolve, render));
      if TargetOf(rule) != to { NotItself([Key(to)]); }
      ElsewhereOn(WritesOf(front, resolve, render), w, to);
    }
  }

  lemma ElsewhereOn(ws: seq<Write>, w: Write, to: string)
    requires AllElsewhere(ws, to) && (w.path == [Key(to)] || Diverge([Key(to)], w.path))
    ensures AllElsewhere(ws + [w], to)
    ensures ValuesAt(ws + [w], [Key(to)]) ==
            if w.path == [Key(to)] then ValuesAt(ws, [Key(to)]) + [w.value] else ValuesAt(ws, [Key(to)])
  {
    ValuesNext(ws, w, [Key(to)]);
  }

  lemma {:induction false} ValuesForAt(rules: seq<Rule>, to: string, resolve: string -> Json, render: Json -> string)
    requires to != "" && Parse(to) == [Key(to)] && forall i :: 0 <= i < |rules| ==> WritesElsewhere(rules[i], to)
    ensures var ws := WritesOf(rules, resolve, render);
            ValuesAt(ws, [Key(to)]) == ValuesFor(rules, to, resolve, render) && AllElsewhere(ws, to)
    decreases |rules|
  {
    if rules != [] {
      var front, rule := rules[..|rules| - 1], rules[|rules| - 1];
      ValuesForAt(front, to, resolve, render);
      ValuesForNext(front, rule, to, resolve, render);
      LastOfAll(rules);
    }
  }

  /** Several rules to one plain key, such as `subject`: the engine's loop leaves their
      values there, joined in rule order, whatever the other rules write elsewhere. */
  lemma RulesToOneTargetJoin(rules: seq<Rule>, to: string, resolve: string -> Json, render: Json -> string,
                             mapped: Json)
    requires to != "" && '.' !in to && '[' !in to && forall i :: 0 <= i < |rules| ==> WritesElsewhere(rules[i], to)
    requires ApplyAll(Ok(EMPTY), WritesOf(rules, resolve, render), Concat(render)) == Ok(mapped)
    requires forall s :: render(Str(s)) == s
    ensures mapped.Obj? && IsJoin(ValuesFor(rules, to, resolve, render), render, Lookup(mapped.fields, to))
  {
    PlainKey(to);
    ValuesForAt(rules, to, resolve, render);
    TargetJoins(WritesOf(rules, resolve, render), to, render, mapped);
  }

  /** The targets from write `k` on are clear. */
  ghost predicate ClearFrom(d: Json, ws: seq<Write>, k: nat)
    requires Named(ws)
  {
    forall j :: k <= j < |ws| ==> Clear(d, ws[j].path)
  }

  /** Once the writes done so far have kept the later targets clear, the next one does. */
  lemma ClearNext(d: Json, ws: seq<Write>, k: nat, m: Mode)
    requires Named(ws) && Apart(ws) && k < |ws| && ClearFrom(d, ws, k)
    ensures Clear(d, ws[k].path)
    ensures SetPath(d, ws[k].path, ws[k].value, m).Ok?
    ensures ClearFrom(SetPath(d, ws[k].path, ws[k].value, m).value, ws, k + 1)
  {
    ClearWrite(d, ws[k].path, ws[k].value, m);
    var d' := SetPath(d, ws[k].path, ws[k].value, m).value;
    forall j | k < j < |ws| ensures Clear(d', ws[j].path) {
      ClearStays(d, ws[j].path, ws[k].path, ws[k].value, m, d');
    }
  }

  lemma AllClear(ws: seq<Write>)
    requires Named(ws)
    ensures ClearFrom(EMPTY, ws, 0)
  {
    forall j | 0 <= j < |ws| ensures Clear(EMPTY, ws[j].path) { EmptyIsClear(ws[j].path); }
  }

  /** Store one value, and collect it too if it is a scalar for `body_text` or `subject`
      and that key is taken. */
  method StoreValue(result: Json, to: string, value: Json, render: Json -> string)
      returns (next: Attempt<Json>, extra: seq<Json>)
    ensures next == SetPath(result, Parse(to), value, Concat(render))
    ensures Clear(result, Parse(to)) ==> extra == []
    ensures extra == if (to == "body_text" || to == "subject") && (value.Str? || value.Num? || value.Bool?) &&
                        result.Obj? && to in result.fields then [value] else []
  {
    var isConcat := result.Obj? && to in result.fields;
    next := SetNested(result, to, value, Concat(render));
    extra := [];
    if isConcat && (value.Str? || value.Num? || value.Bool?) && (to == "body_text" || to == "subject") {
      extra := [value];
    }
    TextKeysArePlain();
    if (to == "body_text" || to == "subject") && Clear(result, Parse(to)) { PlainTargetIsFree(result, to); }
  }

  /** The engine's mapping loop. Values for `body_text` and `subject` that find the key
      taken are also collected; with pairwise incomparable targets there are none. */
  method ApplyFieldMapping(rules: seq<Rule>, resolve: string -> Json, render: Json -> string)
      returns (r: Attempt<Json>, extras: seq<Json>)
    ensures r == ApplyAll(Ok(EMPTY), WritesOf(rules, resolve, render), Concat(render))
    ensures Apart(WritesOf(rules, resolve, render)) ==> r.Ok? && extras == []
  {
    ghost var m := Concat(render);
    ghost var all := WritesOf(rules, resolve, render);
    var result := EMPTY;
    extras := [];
    AllClear(all);
    for i := 0 to |rules|
      invariant Ok(result) == ApplyAll(Ok(EMPTY), WritesOf(rules[..i], resolve, render), m)
      invariant Apart(all) ==> extras == [] && ClearFrom(result, all, |WritesOf(rules[..i], resolve, render)|)
    {
      ghost var front := WritesOf(rules[..i], resolve, render);
      assert rules[..i + 1][..i] == rules[..i];
      WritesGrow(rules, i + 1, resolve, render);
      var to, value := TargetOf(rules[i]), ValueOf(rules[i], resolve, render);
      if to != "" && !value.Null? {
        ghost var w := Write(Parse(to), value);
        assert WritesOf(rules[..i + 1], resolve, render) == front + [w];
        ApplyLast(Ok(EMPTY), front, w, m);
        assert all[|front|] == w;
        if Apart(all) { ClearNext(result, all, |front|, m); }
        var next, extra := StoreValue(result, to, value, render);
        if next.TypeError? {
          ApplyRaises(Ok(EMPTY), front, all, m);
          return TypeError, extras;
        }
        result := next.value;
        extras := extras + extra;
      }
    }
    assert rules[..|rules|] == rules;
    r := Ok(result);
  }

  lemma {:induction false} RaisedStays(ws: seq<Write>, m: Mode)
    requires Named(ws)
    ensures ApplyAll(TypeError, ws, m) == TypeError
    decreases |ws|
  {
    if ws != [] { RaisedStays(ws[1..], m); }
  }

  /** A mapping that raises at some rule raises. */
  lemma {:induction false} ApplyRaises(d: Attempt<Json>, front: seq<Write>, all: seq<Write>, m: Mode)
    requires Named(all) && front < all
    requires Named(front) && Then(ApplyAll(d, front, m), all[|front|].path, all[|front|].value, m) == TypeError
    ensures ApplyAll(d, all, m) == TypeError
    decreases |front|
  {
    if front == [] {
      RaisedStays(all[1..], m);
    } else {
      ApplyRaises(Then(d, all[0].path, all[0].value, m), front[1..], all[1..], m);
    }
  }

  // ---- the mapping resolver ----

  /** The resolver's reads: a row that is not a dictionary reads as `None`. */
  function ResolverRead(d: Json, p: Path): Json
    decreases |p|
  {
    if p == [] then d
    else match p[0]
      case Key(k) => ResolverRead(Child(d, k), p[1..])
      case Each =>
        if !d.Arr? then Null
        else if p[1..] == [] then d
        else Arr(seq(|d.items|, i requires 0 <= i < |d.items| =>
                       if d.items[i].Obj? then ResolverRead(d.items[i], p[1..]) else Null))
  }

  lemma {:induction false} ResolverReadsThroughKeys(d: Json, parts: seq<string>, q: Path)
    ensures ResolverRead(d, Keys(parts) + q) == ResolverRead(GetPath(d, Keys(parts)), q)
    decreases |parts|
  {
    if parts == [] {
      assert Keys(parts) + q == q;
    } else {
      assert Keys(parts)[1..] == Keys(parts[1..]);
      assert (Keys(parts) + q)[1..] == Keys(parts[1..]) + q;
      ResolverReadsThroughKeys(Child(d, parts[0]), parts[1..], q);
    }
  }

  /** What the resolver reads in one row. */
  function ResolverItem(item: Json, rest: Path): Json {
    if item.Obj? then ResolverRead(item, rest) else Null
  }

  /** What the resolver reads after a pair of brackets. */
  function ResolverRows(arr: Json, rest: Path): Json {
    ResolverRead(arr, [Each] + rest)
  }

  predicate AreRead(items: seq<Json>, rows: seq<Json>, rest: Path) {
    |items| <= |rows| && forall i :: 0 <= i < |items| ==> items[i] == ResolverItem(rows[i], rest)
  }

  lemma AreReadOn(items: seq<Json>, rows: seq<Json>, rest: Path, item: Json)
    requires AreRead(items, rows, rest) && |items| < |rows| && item == ResolverItem(rows[|items|], rest)
    ensures AreRead(items + [item], rows, rest)
  {
  }

  lemma ResolverRowsAre(arr: Json, rest: Path, items: seq<Json>)
    requires arr.Arr? && |items| == |arr.items|
    requires rest == [] ==> items == arr.items
    requires rest != [] ==> AreRead(items, arr.items, rest)
    ensures ResolverRows(arr, rest) == Arr(items)
  {
    assert ([Each] + rest)[1..] == rest;
    assert ResolverRows(arr, rest).items == items;
  }

  lemma ResolverReadsArrayPart(data: Json, key: string)
    requires HasEach(key)
    ensures var at := EachAt(key);
            ResolverRead(data, Parse(key)) ==
            ResolverRows(if at == 0 then data else GetPath(data, Keys(Split(key[..at]))), Tail(AfterEach(key, at))) &&
            !HasEach(key[..at])
  {
    var at := EachAt(key);
    var tail: Path := [Each] + Tail(AfterEach(key, at));
    NoneBefore(key);
    if at == 0 {
      assert Parse(key) == tail;
    } else {
      assert Parse(key) == Keys(Split(key[..at])) + tail;
      ResolverReadsThroughKeys(data, Split(key[..at]), tail);
    }
  }

  /** The resolver's reader of key strings. For a key without brackets it is the
      engine's, line for line. */
  method ResolverGetNested(data: Json, key: string) returns (r: Json)
    ensures r == ResolverRead(data, Parse(key))
    decreases |key|, 1
  {
    if !HasEach(key) {
      r := GetNested(data, key);
      ResolverReadsThroughKeys(data, Split(key), []);
      assert Keys(Split(key)) + [] == Keys(Split(key));
      return;
    }
    var at := EachAt(key);
    var arrayPath, rest := key[..at], AfterEach(key, at);
    ResolverReadsArrayPart(data, key);
    var arr := data;
    if arrayPath != "" {
      arr := GetNested(data, arrayPath);
    }
    if !arr.Arr? {
      return Null;
    }
    if rest == "" {
      ResolverRowsAre(arr, [], arr.items);
      return arr;
    }
    r := ResolverElements(arr, rest);
  }

  method ResolverElements(arr: Json, rest: string) returns (r: Json)
    requires arr.Arr? && rest != ""
    ensures r == ResolverRows(arr, Parse(rest))
    decreases |rest|, 2
  {
    ghost var path := Parse(rest);
    var items: seq<Json> := [];
    for i := 0 to |arr.items|
      invariant |items| == i && AreRead(items, arr.items, path)
    {
      var item := Null;
      if arr.items[i].Obj? {
        item := ResolverGetNested(arr.items[i], rest);
      }
      AreReadOn(items, arr.items, path, item);
      items := items + [item];
    }
    ResolverRowsAre(arr, path, items);
    r := Arr(items);
  }

  /** Whatever the engine reads inside a row that is itself a list is `None`. */
  predicate ListRowsReadNull(d: Json, p: Path)
    decreases |p|
  {
    p == [] ||
    match p[0]
    case Key(k) => ListRowsReadNull(Child(d, k), p[1..])
    case Each =>
      d.Arr? && p[1..] != [] ==>
        forall i :: 0 <= i < |d.items| ==>
          (d.items[i].Arr? ==> GetPath(d.items[i], p[1..]) == Null) &&
          (d.items[i].Obj? ==> ListRowsReadNull(d.items[i], p[1..]))
  }

  lemma {:induction false} ScalarReadsNull(d: Json, p: Path)
    requires !d.Arr? && !d.Obj? && p != []
    ensures GetPath(d, p) == Null
  {
    if p[0].Key? { NullReadsNull(p[1..]); }
  }

  /** The two implementations read the same exactly when no list row hides a value
      from the resolver. */
  lemma {:induction false} ReadersAgree(d: Json, p: Path)
    ensures ResolverRead(d, p) == GetPath(d, p) <==> ListRowsReadNull(d, p)
    decreases |p|
  {
    if p != [] {
      if p[0].Key? {
        ReadersAgree(Child(d, p[0].key), p[1..]);
      } else if d.Arr? && p[1..] != [] {
        var rest := p[1..];
        var a, b := ResolverRead(d, p), GetPath(d, p);
        forall i | 0 <= i < |d.items|
          ensures a.items[i] == b.items[i] <==>
                  (d.items[i].Arr? ==> GetPath(d.items[i], rest) == Null) &&
                  (d.items[i].Obj? ==> ListRowsReadNull(d.items[i], rest))
        {
          if d.items[i].Obj? { ReadersAgree(d.items[i], rest); }
          else if !d.items[i].Arr? { ScalarReadsNull(d.items[i], rest); }
        }
        assert a == b <==> forall i :: 0 <= i < |d.items| ==> a.items[i] == b.items[i];
      } else if d.Arr? {
        assert GetPath(d, p).items == d.items;
      }
    }
  }

  /** No element met at a `[]` is itself a list. */
  predicate NoListRows(d: Json, p: Path)
    decreases |p|
  {
    p == [] ||
    match p[0]
    case Key(k) => NoListRows(Child(d, k), p[1..])
    case Each =>
      d.Arr? && p[1..] != [] ==>
        forall i :: 0 <= i < |d.items| ==> !d.items[i].Arr? && NoListRows(d.items[i], p[1..])
  }

  /** So they agree wherever no element met at a `[]` is itself a list. */
  lemma {:induction false} ReadersAgreeWithoutListRows(d: Json, p: Path)
    requires NoListRows(d, p)
    ensures ResolverRead(d, p) == GetPath(d, p)
  {
    NoListRowsHideNothing(d, p);
    ReadersAgree(d, p);
  }

  lemma {:induction false} NoListRowsHideNothing(d: Json, p: Path)
    requires NoListRows(d, p)
    ensures ListRowsReadNull(d, p)
    decreases |p|
  {
    if p != [] {
      if p[0].Key? {
        NoListRowsHideNothing(Child(d, p[0].key), p[1..]);
      } else if d.Arr? && p[1..] != [] {
        forall i | 0 <= i < |d.items| ensures ListRowsReadNull(d.items[i], p[1..]) {
          NoListRowsHideNothing(d.items[i], p[1..]);
        }
      }
    }
  }

  /** A list row addressed by an index is where they differ. */
  lemma ReadersDisagreeOnListRows()
    ensures var d, p := Arr([Arr([Bool(true)])]), [Each, Key("0")];
            GetPath(d, p) == Arr([Bool(true)]) && ResolverRead(d, p) == Arr([Null])
  {
    var p := [Each, Key("0")];
    var row := Arr([Bool(true)]);
    assert p[1..] == [Key("0")];
    assert "0"[..0] == "" && Digits("0") == 0 && ParseInt("0") == Some(0);
    assert GetPath(row, [Key("0")]) == Bool(true);
    assert GetPath(Arr([row]), p).items == [Bool(true)];
  }

  datatype Override = Override(sourceField: string, targetField: string, transform: Option<seq<Json> -> Json>)

  datatype Default = Default(key: string, value: Json)

  function OverrideWrites(overrides: seq<Override>, read: string -> Json): (ws: seq<Write>)
    ensures Named(ws)
  {
    if overrides == [] then []
    else
      var front := OverrideWrites(overrides[..|overrides| - 1], read);
      var o := overrides[|overrides| - 1];
      var value := read(o.sourceField);
      if value.Null? then front
      else front + [Write(Parse(o.targetField), if o.transform.Some? then o.transform.value([value]) else value)]
  }

  function DefaultWrites(defaults: seq<Default>): (ws: seq<Write>)
    ensures |ws| == |defaults| && Named(ws)
    ensures forall i :: 0 <= i < |ws| ==> ws[i] == Write(Parse(defaults[i].key), defaults[i].value)
  {
    seq(|defaults|, i requires 0 <= i < |defaults| => Write(Parse(defaults[i].key), defaults[i].value))
  }

  /** The resolver's writer, which is the engine's without joining. */
  method ApplyWrite(mapped: Attempt<Json>, key: string, value: Json) returns (r: Attempt<Json>)
    ensures r == Then(mapped, Parse(key), value, Replace)
  {
    if mapped.TypeError? {
      return TypeError;
    }
    r := SetNested(mapped.value, key, value, Replace);
  }

  lemma DefaultsGrow(defaults: seq<Default>, i: nat)
    requires i < |defaults|
    ensures DefaultWrites(defaults[..i + 1]) ==
            DefaultWrites(defaults[..i]) + [Write(Parse(defaults[i].key), defaults[i].value)]
  {
    var ws, more := DefaultWrites(defaults[..i]), DefaultWrites(defaults[..i + 1]);
    assert forall j :: 0 <= j < i ==> more[j] == ws[j];
    assert more[i] == Write(Parse(defaults[i].key), defaults[i].value);
  }

  method ApplyDefaults(defaults: seq<Default>) returns (mapped: Attempt<Json>)
    ensures mapped == ApplyAll(Ok(EMPTY), DefaultWrites(defaults), Replace)
  {
    mapped := Ok(EMPTY);
    for i := 0 to |defaults|
      invariant mapped == ApplyAll(Ok(EMPTY), DefaultWrites(defaults[..i]), Replace)
    {
      var w := Write(Parse(defaults[i].key), defaults[i].value);
      DefaultsGrow(defaults, i);
      ApplyLast(Ok(EMPTY), DefaultWrites(defaults[..i]), w, Replace);
      mapped := ApplyWrite(mapped, defaults[i].key, defaults[i].value);
    }
    assert defaults[..|defaults|] == defaults;
  }

  method ApplyRules(base: Attempt<Json>, rules: seq<Rule>, read: string -> Json, render: Json -> string)
      returns (mapped: Attempt<Json>)
    ensures mapped == ApplyAll(base, WritesOf(rules, read, render), Replace)
  {
    mapped := base;
    for i := 0 to |rules|
      invariant mapped == ApplyAll(base, WritesOf(rules[..i], read, render), Replace)
    {
      assert rules[..i + 1][..i] == rules[..i];
      var to, value := TargetOf(rules[i]), ValueOf(rules[i], read, render);
      if to != "" && !value.Null? {
        ApplyLast(base, WritesOf(rules[..i], read, render), Write(Parse(to), value), Replace);
        mapped := ApplyWrite(mapped, to, value);
      }
    }
    assert rules[..|rules|] == rules;
  }

  method ApplyOverrides(base: Attempt<Json>, overrides: seq<Override>, read: string -> Json)
      returns (mapped: Attempt<Json>)
    ensures mapped == ApplyAll(base, OverrideWrites(overrides, read), Replace)
  {
    mapped := base;
    for i := 0 to |overrides|
      invariant mapped == ApplyAll(base, OverrideWrites(overrides[..i], read), Replace)
    {
      assert overrides[..i + 1][..i] == overrides[..i];
      var o := overrides[i];
      var value := read(o.sourceField);
      if !value.Null? {
        if o.transform.Some? {
          value := o.transform.value([value]);
        }
        ApplyLast(base, OverrideWrites(overrides[..i], read), Write(Parse(o.targetField), value), Replace);
        mapped := ApplyWrite(mapped, o.targetField, value);
      }
    }
    assert overrides[..|overrides|] == overrides;
  }

  /** All writes of a resolution, in order. */
  function Layers(defaults: seq<Default>, rules: seq<Rule>, overrides: seq<Override>, read: string -> Json,
                  render: Json -> string): (ws: seq<Write>)
    ensures Named(ws)
  {
    DefaultWrites(defaults) + WritesOf(rules, read, render) + OverrideWrites(overrides, read)
  }

  /** `resolve`: defaults, then flow rules, then tenant overrides. */
  method Resolve(defaults: seq<Default>, rules: seq<Rule>, overrides: seq<Override>,
                 read: string -> Json, render: Json -> string) returns (mapped: Attempt<Json>)
    ensures mapped == ApplyAll(Ok(EMPTY), Layers(defaults, rules, overrides, read, render), Replace)
  {
    mapped := ApplyDefaults(defaults);
    mapped := ApplyRules(mapped, rules, read, render);
    mapped := ApplyOverrides(mapped, overrides, read);
    ApplyJoins(Ok(EMPTY), DefaultWrites(defaults), WritesOf(rules, read, render), Replace);
    ApplyJoins(Ok(EMPTY), DefaultWrites(defaults) + WritesOf(rules, read, render), OverrideWrites(overrides, read),
               Replace);
  }

  lemma {:induction false} ApplyJoins(d: Attempt<Json>, ws: seq<Write>, us: seq<Write>, m: Mode)
    requires Named(ws) && Named(us)
    ensures Named(ws + us) && ApplyAll(d, ws + us, m) == ApplyAll(ApplyAll(d, ws, m), us, m)
    decreases |ws|
  {
    if ws == [] {
      assert ws + us == us;
    } else {
      assert (ws + us)[1..] == ws[1..] + us;
      ApplyJoins(Then(d, ws[0].path, ws[0].value, m), ws[1..], us, m);
    }
  }

  /** Every later write goes elsewhere. */
  predicate IsLast(ws: seq<Write>, i: nat)
    requires i < |ws|
  {
    forall j :: i < j < |ws| ==> Diverge(ws[i].path, ws[j].path)
  }

  predicate AllDiverge(p: Path, ws: seq<Write>) {
    forall j :: 0 <= j < |ws| ==> Diverge(p, ws[j].path)
  }

  /** Tenant overrides take priority: an override whose target diverges from the later
      overrides' is what its target reads, over every default and flow rule. */
  lemma OverridesWin(defaults: seq<Default>, rules: seq<Rule>, overrides: seq<Override>,
                     read: string -> Json, render: Json -> string, mapped: Json, i: nat, idx: seq<nat>)
    requires var ws := OverrideWrites(overrides, read);
             i < |ws| && Writable(ws[i].path) && IsLast(ws, i) &&
             |idx| == Depth(ws[i].path) && InValue(ws[i].value, idx)
    requires Ok(mapped) == ApplyAll(Ok(EMPTY), Layers(defaults, rules, overrides, read, render), Replace)
    ensures var w := OverrideWrites(overrides, read)[i];
            At(mapped, w.path, idx) == LeafOf(w.value, idx)
  {
    var before := DefaultWrites(defaults) + WritesOf(rules, read, render);
    LastWriterWins(EMPTY, before + OverrideWrites(overrides, read), |before| + i, mapped, idx);
  }

  lemma MiddleWins(a: seq<Write>, b: seq<Write>, c: seq<Write>, i: nat, mapped: Json, idx: seq<nat>)
    requires Named(a) && Named(b) && Named(c) && i < |b| && IsLast(b, i) && AllDiverge(b[i].path, c)
    requires Writable(b[i].path) && |idx| == Depth(b[i].path) && InValue(b[i].value, idx)
    requires Named(a + b + c) && ApplyAll(Ok(EMPTY), a + b + c, Replace) == Ok(mapped)
    ensures At(mapped, b[i].path, idx) == LeafOf(b[i].value, idx)
  {
    var ws, k := a + b + c, |a| + i;
    LastOfMiddle(a, b, c, i);
    LastWriterWins(EMPTY, ws, k, mapped, idx);
  }

  lemma LastOfMiddle(a: seq<Write>, b: seq<Write>, c: seq<Write>, i: nat)
    requires i < |b| && IsLast(b, i) && AllDiverge(b[i].path, c)
    ensures IsLast(a + b + c, |a| + i) && (a + b + c)[|a| + i] == b[i]
  {
  }

  lemma FirstWins(b: seq<Write>, c: seq<Write>, e: seq<Write>, i: nat, mapped: Json, idx: seq<nat>)
    requires Named(b) && Named(c) && Named(e) && i < |b| && IsLast(b, i)
    requires AllDiverge(b[i].path, c) && AllDiverge(b[i].path, e)
    requires Writable(b[i].path) && |idx| == Depth(b[i].path) && InValue(b[i].value, idx)
    requires Named(b + c + e) && ApplyAll(Ok(EMPTY), b + c + e, Replace) == Ok(mapped)
    ensures At(mapped, b[i].path, idx) == LeafOf(b[i].value, idx)
  {
    assert b + c + e == [] + b + (c + e);
    MiddleWins([], b, c + e, i, mapped, idx);
  }

  /** Flow rules come next: one whose target diverges from the later rules' and from the
      overrides' is what its target reads, over every default. */
  lemma FlowRulesWinOverDefaults(defaults: seq<Default>, rules: seq<Rule>, overrides: seq<Override>,
                                 read: string -> Json, render: Json -> string, mapped: Json, i: nat, idx: seq<nat>)
    requires var ws := WritesOf(rules, read, render);
             i < |ws| && Writable(ws[i].path) && IsLast(ws, i) &&
             AllDiverge(ws[i].path, OverrideWrites(overrides, read)) &&
             |idx| == Depth(ws[i].path) && InValue(ws[i].value, idx)
    requires Ok(mapped) == ApplyAll(Ok(EMPTY), Layers(defaults, rules, overrides, read, render), Replace)
    ensures var w := WritesOf(rules, read, render)[i];
            At(mapped, w.path, idx) == LeafOf(w.value, idx)
  {
    MiddleWins(DefaultWrites(defaults), WritesOf(rules, read, render), OverrideWrites(overrides, read), i, mapped, idx);
  }

  /** A default is what its target reads if no later default, flow rule or override comes
      near it. */
  lemma DefaultsFillTheRest(defaults: seq<Default>, rules: seq<Rule>, overrides: seq<Override>,
                            read: string -> Json, render: Json -> string, mapped: Json, i: nat, idx: seq<nat>)
    requires i < |defaults|
    requires var p, ws := Parse(defaults[i].key), DefaultWrites(defaults);
             Writable(p) && IsLast(ws, i) && AllDiverge(p, WritesOf(rules, read, render)) &&
             AllDiverge(p, OverrideWrites(overrides, read)) && |idx| == Depth(p) && InValue(defaults[i].value, idx)
    requires Ok(mapped) == ApplyAll(Ok(EMPTY), Layers(defaults, rules, overrides, read, render), Replace)
    ensures At(mapped, Parse(defaults[i].key), idx) == LeafOf(defaults[i].value, idx)
  {
    FirstWins(DefaultWrites(defaults), WritesOf(rules, read, render), OverrideWrites(overrides, read), i, mapped, idx);
  }

  // ---- which writes a rule or override makes ----

  /** Where a rule writes: a custom target has its key in a field of its own. */
  function Goes(rule: Rule): string {
    if rule.to != "__custom__" then rule.to else rule.toCustom
  }

  function HasWrite(rules: seq<Rule>, resolve: string -> Json, render: Json -> string): nat -> bool {
    (i: nat) => i < |rules| && Goes(rules[i]) != "" && ValueOf(rules[i], resolve, render) != Null
  }

  ghost predicate AreWrites(rules: seq<Rule>, ks: seq<nat>, ws: seq<Write>, resolve: string -> Json,
                            render: Json -> string) {
    |ws| == |ks| &&
    forall j :: 0 <= j < |ks| ==>
      ks[j] < |rules| && ws[j] == Write(Parse(Goes(rules[ks[j]])), ValueOf(rules[ks[j]], resolve, render))
  }

  lemma AreWritesOn(rules: seq<Rule>, ks: seq<nat>, ws: seq<Write>, rule: Rule, resolve: string -> Json,
                    render: Json -> string)
    requires AreWrites(rules, ks, ws, resolve, render)
    ensures AreWrites(rules + [rule], ks, ws, resolve, render)
    ensures AreWrites(rules + [rule], ks + [|rules|], ws + [Write(Parse(Goes(rule)), ValueOf(rule, resolve, render))],
                      resolve, render)
  {
  }

  /** The writes are those of exactly the rules with a target and a value, in rule order. */
  lemma {:induction false} RulesPerform(rules: seq<Rule>, resolve: string -> Json, render: Json -> string)
      returns (ks: seq<nat>)
    ensures IsPositions(ks, |rules|, HasWrite(rules, resolve, render))
    ensures AreWrites(rules, ks, WritesOf(rules, resolve, render), resolve, render)
    decreases |rules|
  {
    ks := [];
    if rules != [] {
      var front, rule := rules[..|rules| - 1], rules[|rules| - 1];
      ks := RulesPerform(front, resolve, render);
      LastOfAll(rules);
      WritesNextRule(front, rule, resolve, render);
      AreWritesOn(front, ks, WritesOf(front, resolve, render), rule, resolve, render);
      PositionsNext(ks, |front|, HasWrite(front, resolve, render), HasWrite(rules, resolve, render));
      if !IsSkipped(rule, resolve, render) { ks := ks + [|front|]; }
    }
  }

  /** An override stores the value it reads, transformed if it says so. */
  predicate Stores(o: Override, read: string -> Json, w: Write) {
    w.path == Parse(o.targetField) &&
    w.value == match o.transform
               case Some(transform) => transform([read(o.sourceField)])
               case None => read(o.sourceField)
  }

  function HasValue(overrides: seq<Override>, read: string -> Json): nat -> bool {
    (i: nat) => i < |overrides| && read(overrides[i].sourceField) != Null
  }

  ghost predicate AreStored(overrides: seq<Override>, ks: seq<nat>, ws: seq<Write>, read: string -> Json) {
    |ws| == |ks| && forall j :: 0 <= j < |ks| ==> ks[j] < |overrides| && Stores(overrides[ks[j]], read, ws[j])
  }

  lemma AreStoredOn(overrides: seq<Override>, ks: seq<nat>, ws: seq<Write>, o: Override, w: Write, read: string -> Json)
    requires AreStored(overrides, ks, ws, read)
    ensures AreStored(overrides + [o], ks, ws, read)
    ensures Stores(o, read, w) ==> AreStored(overrides + [o], ks + [|overrides|], ws + [w], read)
  {
  }

  lemma OverrideWritesOn(front: seq<Override>, o: Override, w: Write, read: string -> Json)
    requires Stores(o, read, w)
    ensures OverrideWrites(front + [o], read) ==
            if read(o.sourceField) == Null then OverrideWrites(front, read) else OverrideWrites(front, read) + [w]
  {
    assert (front + [o])[..|front|] == front;
  }

  /** The writes of overrides are those of exactly the ones that read a value, in order. */
  lemma {:induction false} OverridesPerform(overrides: seq<Override>, read: string -> Json) returns (ks: seq<nat>)
    ensures IsPositions(ks, |overrides|, HasValue(overrides, read))
    ensures AreStored(overrides, ks, OverrideWrites(overrides, read), read)
    decreases |overrides|
  {
    ks := [];
    if overrides != [] {
      var front, o := overrides[..|overrides| - 1], overrides[|overrides| - 1];
      var value := read(o.sourceField);
      var w := Write(Parse(o.targetField), if o.transform.Some? then o.transform.value([value]) else value);
      ks := OverridesPerform(front, read);
      LastOfAll(overrides);
      OverrideWritesOn(front, o, w, read);
      AreStoredOn(front, ks, OverrideWrites(front, read), o, w, read);
      PositionsNext(ks, |front|, HasValue(front, read), HasValue(overrides, read));
      if value != Null { ks := ks + [|front|]; }
    }
  }
}

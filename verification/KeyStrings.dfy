/** Key strings and the paths they stand for: writing a path down and parsing it, and the
    keys that address elements of a list. */
module KeyStrings {
  import opened Json
  import opened NestedPath

  // ---- key strings ----

  function Piece(s: Step): string {
    if s.Key? then s.key else "[]"
  }

  /** The key string of a path: keys are joined by dots, and brackets follow directly. */
  function Render(p: Path): string {
    if p == [] then ""
    else if |p| > 1 && p[1].Key? then Piece(p[0]) + "." + Render(p[1..])
    else Piece(p[0]) + Render(p[1..])
  }

  predicate IsPlainKey(k: string) {
    k != "" && '.' !in k && '[' !in k
  }

  predicate HasPlainKeys(p: Path) {
    forall i :: 0 <= i < |p| && p[i].Key? ==> IsPlainKey(p[i].key)
  }

  lemma {:induction false} NoDots(s: string)
    requires '.' !in s
    ensures Split(s) == [s]
  {
    if s != "" {
      NoDots(s[1..]);
      assert [s[0]] + s[1..] == s;
    }
  }

  lemma {:induction false} NoBrackets(s: string)
    requires '[' !in s
    ensures EachAt(s) == |s|
  {
    if |s| >= 2 { NoBrackets(s[1..]); }
  }

  lemma PlainKey(k: string)
    requires IsPlainKey(k)
    ensures Parse(k) == [Key(k)]
  {
    NoDots(k);
    NoBrackets(k);
  }

  lemma {:induction false} SplitFirst(k: string, s: string)
    requires '.' !in k
    ensures Split(k + "." + s) == [k] + Split(s)
    decreases |k|
  {
    if k == "" {
      assert "" + "." + s == "." + s;
    } else {
      assert (k + "." + s)[1..] == k[1..] + "." + s;
      SplitFirst(k[1..], s);
      assert [k[0]] + k[1..] == k;
    }
  }

  lemma {:induction false} EachBehind(k: string, s: string)
    requires '[' !in k && (s == "" || s[0] != ']')
    ensures EachAt(k + s) == |k| + EachAt(s)
    decreases |k|
  {
    if k == "" {
      assert k + s == s;
    } else {
      assert (k + s)[1..] == k[1..] + s;
      if |k + s| >= 2 {
        EachBehind(k[1..], s);
      } else {
        assert s == "";
      }
    }
  }

  lemma KeysOn(k: string, parts: seq<string>)
    ensures Keys([k] + parts) == [Key(k)] + Keys(parts)
  {
  }

  lemma ParseDotted(k: string, s: string, t: string)
    requires IsPlainKey(k) && s != "" && EachAt(s) > 0 && t == k + "." + s
    ensures Parse(t) == [Key(k)] + Parse(s)
  {
    EachAtDotted(k, s, t);
    if EachAt(s) == |s| {
      ParseDottedPlain(k, s, t);
    } else {
      HeadCut(k, s, t, EachAt(s));
      TailCut(k, s, t, EachAt(s));
      ParseCut(k, s, EachAt(s), t, EachAt(t));
    }
  }

  lemma ParseDottedPlain(k: string, s: string, t: string)
    requires IsPlainKey(k) && t == k + "." + s && EachAt(s) == |s| && EachAt(t) == |t|
    ensures Parse(t) == [Key(k)] + Parse(s)
  {
    SplitFirst(k, s);
    KeysOn(k, Split(s));
    ParsePlain(s);
    ParsePlain(t);
  }

  lemma ParseCut(k: string, s: string, at: nat, t: string, at': nat)
    requires at == EachAt(s) < |s| && at' == EachAt(t) < |t|
    requires Head(t[..at']) == [Key(k)] + Head(s[..at]) && t[at' + 2..] == s[at + 2..]
    ensures Parse(t) == [Key(k)] + Parse(s)
  {
    AfterSame(t, at', s, at);
    ParseLonger(s, at, t, at', Key(k));
  }

  lemma ParseLonger(s: string, at: nat, t: string, at': nat, k: Step)
    requires at == EachAt(s) < |s| && at' == EachAt(t) < |t|
    requires Head(t[..at']) == [k] + Head(s[..at]) && AfterEach(t, at') == AfterEach(s, at)
    ensures Parse(t) == [k] + Parse(s)
  {
    ParseAt(s, at);
    ParseAt(t, at');
    JoinHeads(Parse(t), Head(t[..at']), Parse(s), Head(s[..at]), [Each] + Tail(AfterEach(s, at)), k);
  }

  lemma ParseAt(s: string, at: nat)
    requires at == EachAt(s) < |s|
    ensures Parse(s) == Head(s[..at]) + ([Each] + Tail(AfterEach(s, at)))
  {
  }

  lemma ParsePlain(s: string)
    requires EachAt(s) == |s|
    ensures Parse(s) == Keys(Split(s))
  {
  }

  lemma JoinHeads(p: Path, p': Path, q: Path, q': Path, tail: Path, k: Step)
    requires p == p' + tail && p' == [k] + q' && q == q' + tail
    ensures p == [k] + q
  {
  }

  lemma TailCut(k: string, s: string, t: string, at: nat)
    requires at + 2 <= |s| && t == k + "." + s
    ensures t[|k| + 1 + at + 2..] == s[at + 2..]
  {
  }

  lemma HeadCut(k: string, s: string, t: string, at: nat)
    requires IsPlainKey(k) && 0 < at <= |s| && t == k + "." + s
    ensures Head(t[..|k| + 1 + at]) == [Key(k)] + Head(s[..at])
  {
    assert t[..|k| + 1 + at] == k + "." + s[..at];
    HeadOf(k, s[..at]);
  }

  lemma HeadOf(k: string, s: string)
    requires IsPlainKey(k) && s != ""
    ensures Head(k + "." + s) == [Key(k)] + Head(s)
  {
    SplitFirst(k, s);
    KeysOn(k, Split(s));
  }

  lemma AfterSame(s: string, at: nat, t: string, at': nat)
    requires at + 2 <= |s| && at' + 2 <= |t| && s[at + 2..] == t[at' + 2..]
    ensures AfterEach(s, at) == AfterEach(t, at')
  {
  }

  lemma EachAtDotted(k: string, s: string, t: string)
    requires IsPlainKey(k) && s != "" && t == k + "." + s
    ensures EachAt(t) == |k| + 1 + EachAt(s)
  {
    if s[0] != ']' {
      assert t == (k + ".") + s;
      EachBehind(k + ".", s);
    } else {
      assert t == k + ("." + s);
      EachBehind(k, "." + s);
      assert ("." + s)[1..] == s;
    }
  }

  lemma CutBracketed(k: string, s: string)
    requires |s| >= 2
    ensures (k + s)[..|k|] == k && (k + s)[|k| + 2..] == s[2..] && s[..0] == ""
  {
  }

  lemma ParseBracketed(k: string, s: string)
    requires IsPlainKey(k) && |s| >= 2 && s[0] == '[' && s[1] == ']'
    ensures Parse(k + s) == [Key(k)] + Parse(s)
  {
    EachBehind(k, s);
    CutBracketed(k, s);
    HeadIsKey(k);
    AfterSame(k + s, |k|, s, 0);
    ParseLonger(s, 0, k + s, |k|, Key(k));
  }

  lemma HeadIsKey(k: string)
    requires IsPlainKey(k)
    ensures Head(k) == [Key(k)] + Head("")
  {
    NoDots(k);
  }

  lemma {:induction false} RenderStarts(p: Path)
    requires p != [] && HasPlainKeys(p)
    ensures var s := Render(p);
            s != "" && s[0] != '.' && (p[0].Each? ==> |s| >= 2 && s[0] == '[' && s[1] == ']') &&
            (p[0].Key? ==> EachAt(s) > 0)
  {
    if p[0].Key? {
      assert IsPlainKey(p[0].key);
    }
  }

  lemma ParseEach(s: string, rest: string)
    requires s == "[]" + rest || s == "[]." + rest
    requires rest == "" || rest[0] != '.'
    requires s == "[]." + rest ==> rest != ""
    ensures Parse(s) == [Each] + Tail(rest)
  {
    assert s[0] == '[' && s[1] == ']' && EachAt(s) == 0 && s[..0] == "";
    if s == "[]" + rest {
      assert s[2..] == rest;
    } else {
      assert s[2..] == "." + rest;
      assert ("." + rest)[1..] == rest;
    }
  }

  /** The engine parses a key string back into the path it stands for. */
  lemma {:induction false} ParseRender(p: Path)
    requires p != [] && HasPlainKeys(p)
    ensures Parse(Render(p)) == p
    decreases |p|
  {
    var rest := p[1..];
    if rest != [] {
      ParseRender(rest);
      RenderStarts(rest);
    }
    ParseFirst(p, Render(rest));
  }

  lemma ParseFirst(p: Path, s: string)
    requires p != [] && HasPlainKeys(p) && s == Render(p[1..])
    requires p[1..] != [] ==> Parse(s) == p[1..] && s != "" && s[0] != '.'
    requires |p| > 1 ==> if p[1].Each? then |s| >= 2 && s[0] == '[' && s[1] == ']' else EachAt(s) > 0
    ensures Parse(Render(p)) == p
  {
    assert p == [p[0]] + p[1..];
    if p[0].Each? {
      ParseEach(Render(p), s);
    } else if |p| == 1 {
      assert p[0].key + "" == p[0].key;
      PlainKey(p[0].key);
    } else if p[1].Key? {
      ParseDotted(p[0].key, s, Render(p));
    } else {
      ParseBracketed(p[0].key, s);
    }
  }

  // ---- list indices ----

  lemma DigitIs(d: nat)
    requires d < 10
    ensures IsDigit(DigitChar(d)) && (DigitChar(d) - '0') as nat == d
  {
    if d < 5 { assert d == 0 || d == 1 || d == 2 || d == 3 || d == 4; }
  }

  lemma DigitsOn(front: string, c: char)
    requires (forall c :: c in front ==> IsDigit(c)) && IsDigit(c)
    ensures Digits(front + [c]) == Digits(front) * 10 + (c - '0') as nat
  {
    assert (front + [c])[..|front|] == front;
  }

  lemma {:induction false} DecimalParses(n: nat)
    ensures var s := Decimal(n);
            s != "" && (forall c :: c in s ==> IsDigit(c)) && Digits(s) == n
  {
    DigitIs(n % 10);
    if n >= 10 {
      DecimalParses(n / 10);
      DigitsOn(Decimal(n / 10), DigitChar(n % 10));
    } else {
      DigitsOn("", DigitChar(n % 10));
    }
  }

  lemma IntOfDigits(s: string)
    requires s != "" && forall c :: c in s ==> IsDigit(c)
    ensures ParseInt(s).Some? && ParseInt(s).value == Digits(s)
    ensures ParseInt("-" + s).Some? && ParseInt("-" + s).value == 0 - Digits(s)
  {
    assert s[0] in s;
    assert ("-" + s)[1..] == s;
  }

  lemma ReadsAtIndex(items: seq<Json>, s: string, t: string, i: nat)
    requires i < |items| && s != "" && t != "" && (forall c :: c in s ==> IsDigit(c)) &&
             (forall c :: c in t ==> IsDigit(c))
    requires Digits(s) == i && Digits(t) == i + 1
    ensures GetPath(Arr(items), [Key(s)]) == items[i]
    ensures GetPath(Arr(items), [Key("-" + t)]) == items[|items| - 1 - i]
  {
    IntOfDigits(s);
    IntOfDigits(t);
    assert Child(Arr(items), s) == items[i];
    assert Child(Arr(items), "-" + t) == items[|items| - 1 - i];
  }

  /** A list reads by the decimal index of an element, and by a negative one from the end. */
  lemma IndexReads(items: seq<Json>, i: nat)
    requires i < |items|
    ensures GetPath(Arr(items), [Key(Decimal(i))]) == items[i]
    ensures GetPath(Arr(items), [Key("-" + Decimal(i + 1))]) == items[|items| - 1 - i]
  {
    DecimalParses(i);
    DecimalParses(i + 1);
    ReadsAtIndex(items, Decimal(i), Decimal(i + 1), i);
  }
}

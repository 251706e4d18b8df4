/** The two token buckets: the in-process one of the connector SDK, and the platform's,
    which keeps its tokens and its last refill under two Redis keys that lapse. Time and
    tokens are real numbers. */
module TokenBuckets {
  import opened Json

  // ---- tokens and gains ----

  function Least(a: real, b: real): real {
    if a <= b then a else b
  }

  /** The tokens after a refill, and then after the call that found them. */
  function Refill(capacity: real, tokens: real, gain: real): real {
    Least(capacity, tokens + gain)
  }

  function Spend(tokens: real): real {
    if tokens >= 1.0 then tokens - 1.0 else tokens
  }

  /** What a bucket that was full holds after calls that found these gains. */
  function Tokens(capacity: real, gains: seq<real>): real {
    if gains == [] then capacity
    else Spend(Refill(capacity, Tokens(capacity, gains[..|gains| - 1]), gains[|gains| - 1]))
  }

  /** Which of the calls were granted. */
  function Answers(capacity: real, gains: seq<real>): (answers: seq<bool>)
    ensures |answers| == |gains|
  {
    if gains == [] then []
    else
      var front := gains[..|gains| - 1];
      Answers(capacity, front) + [Refill(capacity, Tokens(capacity, front), gains[|gains| - 1]) >= 1.0]
  }

  function Granted(answers: seq<bool>): nat {
    if answers == [] then 0
    else Granted(answers[..|answers| - 1]) + (if answers[|answers| - 1] then 1 else 0)
  }

  lemma GrantedOn(answers: seq<bool>, answer: bool)
    ensures Granted(answers + [answer]) == Granted(answers) + (if answer then 1 else 0)
  {
    assert (answers + [answer])[..|answers|] == answers;
  }

  function Sum(gains: seq<real>): real {
    if gains == [] then 0.0 else Sum(gains[..|gains| - 1]) + gains[|gains| - 1]
  }

  /** What the window from call `i` to the next call, which finds `gain`, leaves to be
      granted; the empty window leaves the capacity. */
  function Room(capacity: real, gains: seq<real>, i: nat, gain: real): real
    requires i <= |gains|
  {
    if i == |gains| then capacity
    else capacity + Sum(gains[i + 1..]) + gain - Granted(Answers(capacity, gains)[i..]) as real
  }

  lemma SumOn(gains: seq<real>, last: real)
    ensures Sum(gains + [last]) == Sum(gains) + last
  {
    assert (gains + [last])[..|gains|] == gains;
  }

  lemma SumFrom(gains: seq<real>, last: real, k: nat)
    requires k <= |gains|
    ensures Sum((gains + [last])[k..]) == Sum(gains[k..]) + last
  {
    assert (gains + [last])[k..] == gains[k..] + [last];
    SumOn(gains[k..], last);
  }

  lemma AnswersOn(capacity: real, gains: seq<real>, last: real)
    ensures Answers(capacity, gains + [last]) ==
            Answers(capacity, gains) + [Refill(capacity, Tokens(capacity, gains), last) >= 1.0]
  {
    assert (gains + [last])[..|gains|] == gains;
  }

  lemma GrantedFrom(capacity: real, gains: seq<real>, last: real, i: nat)
    requires i <= |gains|
    ensures Granted(Answers(capacity, gains + [last])[i..]) ==
            Granted(Answers(capacity, gains)[i..]) +
            (if Refill(capacity, Tokens(capacity, gains), last) >= 1.0 then 1 else 0)
  {
    var answers, answer := Answers(capacity, gains), Refill(capacity, Tokens(capacity, gains), last) >= 1.0;
    AnswersOn(capacity, gains, last);
    assert (answers + [answer])[i..] == answers[i..] + [answer];
    GrantedOn(answers[i..], answer);
  }

  lemma RoomOn(capacity: real, gains: seq<real>, last: real, i: nat, gain: real)
    requires i <= |gains|
    ensures Room(capacity, gains + [last], i, gain) ==
            Room(capacity, gains, i, last) + gain -
            (if Refill(capacity, Tokens(capacity, gains), last) >= 1.0 then 1.0 else 0.0)
  {
    GrantedFrom(capacity, gains, last, i);
    if i < |gains| {
      SumFrom(gains, last, i + 1);
    } else {
      assert (gains + [last])[i + 1..] == [];
      assert Answers(capacity, gains)[i..] == [];
    }
  }

  /** The tokens a call finds are the least room of all the windows before it. */
  lemma {:induction false} TokensAreTheLeastRoom(capacity: real, gains: seq<real>, gain: real) returns (least: nat)
    requires forall i :: 0 <= i < |gains| ==> gains[i] >= 0.0
    requires gain >= 0.0
    ensures var found := Refill(capacity, Tokens(capacity, gains), gain);
            (forall i :: 0 <= i <= |gains| ==> found <= Room(capacity, gains, i, gain)) &&
            least <= |gains| && found == Room(capacity, gains, least, gain)
  {
    if gains == [] {
      least := 0;
    } else {
      var front, last := gains[..|gains| - 1], gains[|gains| - 1];
      assert gains == front + [last];
      var before := TokensAreTheLeastRoom(capacity, front, last);
      forall i | 0 <= i <= |front|
        ensures Room(capacity, gains, i, gain) ==
                Room(capacity, front, i, last) + gain -
                (if Refill(capacity, Tokens(capacity, front), last) >= 1.0 then 1.0 else 0.0)
      {
        RoomOn(capacity, front, last, i, gain);
      }
      least := if Refill(capacity, Tokens(capacity, gains), gain) == capacity then |gains| else before;
    }
  }

  lemma AnswersAt(capacity: real, gains: seq<real>, j: nat)
    requires j < |gains|
    ensures Answers(capacity, gains)[..j] == Answers(capacity, gains[..j])
    ensures Answers(capacity, gains)[j] <==> Refill(capacity, Tokens(capacity, gains[..j]), gains[j]) >= 1.0
  {
    if j < |gains| - 1 {
      AnswersAt(capacity, gains[..|gains| - 1], j);
      assert gains[..|gains| - 1][..j] == gains[..j];
      assert Answers(capacity, gains)[..j] == Answers(capacity, gains[..|gains| - 1])[..j];
    }
  }

  // ---- what a bucket promises over time ----

  datatype Limit = Limit(capacity: real, rate: real) {
    predicate Valid() {
      capacity >= 0.0 && rate >= 0.0
    }
  }

  /** Times never go back. */
  predicate Monotone(start: real, ts: seq<real>) {
    (forall i :: 0 <= i < |ts| ==> start <= ts[i]) &&
    (forall i, j :: 0 <= i <= j < |ts| ==> ts[i] <= ts[j])
  }

  /** What refills in that time. */
  function Gain(l: Limit, from: real, to: real): real {
    (to - from) * l.rate
  }

  lemma GainFacts(l: Limit, a: real, b: real, c: real)
    requires l.rate >= 0.0
    ensures a <= b ==> Gain(l, a, b) >= 0.0
    ensures Gain(l, a, a) == 0.0
    ensures Gain(l, a, b) + Gain(l, b, c) == Gain(l, a, c)
  {
  }

  function Gains(l: Limit, start: real, ts: seq<real>): (gains: seq<real>)
    ensures |gains| == |ts|
  {
    if ts == [] then []
    else
      var front := ts[..|ts| - 1];
      Gains(l, start, front) + [Gain(l, if front == [] then start else ts[|ts| - 2], ts[|ts| - 1])]
  }

  /** The answers to calls at these times of a bucket that was full at `start`. */
  function Calls(l: Limit, start: real, ts: seq<real>): (answers: seq<bool>)
    ensures |answers| == |ts|
  {
    Answers(l.capacity, Gains(l, start, ts))
  }

  lemma {:induction false} GainsAt(l: Limit, start: real, ts: seq<real>, j: nat)
    requires j < |ts|
    ensures Gains(l, start, ts)[..j] == Gains(l, start, ts[..j])
    ensures Gains(l, start, ts)[j] == Gain(l, if j == 0 then start else ts[j - 1], ts[j])
  {
    if j < |ts| - 1 {
      GainsAt(l, start, ts[..|ts| - 1], j);
      assert ts[..|ts| - 1][..j] == ts[..j];
      assert Gains(l, start, ts)[..j] == Gains(l, start, ts[..|ts| - 1])[..j];
    }
  }

  lemma GainsArePositive(l: Limit, start: real, ts: seq<real>)
    requires l.Valid() && Monotone(start, ts)
    ensures forall i :: 0 <= i < |ts| ==> Gains(l, start, ts)[i] >= 0.0
  {
    forall i | 0 <= i < |ts| ensures Gains(l, start, ts)[i] >= 0.0 {
      GainsAt(l, start, ts, i);
      GainFacts(l, if i == 0 then start else ts[i - 1], ts[i], ts[i]);
    }
  }

  /** The gains between two calls add up to what refills between them. */
  lemma {:induction false} GainsAddUp(l: Limit, start: real, ts: seq<real>, i: nat, j: nat)
    requires l.rate >= 0.0 && i <= j < |ts|
    ensures Sum(Gains(l, start, ts)[i + 1..j + 1]) == Gain(l, ts[i], ts[j])
    decreases j
  {
    var gains := Gains(l, start, ts);
    if i == j {
      GainFacts(l, ts[i], ts[i], ts[i]);
    } else {
      GainsAddUp(l, start, ts, i, j - 1);
      GainsAt(l, start, ts, j);
      GainFacts(l, ts[i], ts[j - 1], ts[j]);
      assert gains[i + 1..j + 1][..j - i - 1] == gains[i + 1..j];
    }
  }

  /** One more grant at call `j` keeps the window from call `i` within the capacity and
      what refills in it. */
  ghost predicate Fits(l: Limit, start: real, ts: seq<real>, i: nat, j: nat)
    requires i <= j < |ts|
  {
    Granted(Calls(l, start, ts)[i..j]) as real + 1.0 <= l.capacity + Gain(l, ts[i], ts[j])
  }

  lemma FitsMeansRoom(l: Limit, start: real, ts: seq<real>, i: nat, j: nat)
    requires l.rate >= 0.0 && i <= j < |ts|
    ensures var gains := Gains(l, start, ts);
            Fits(l, start, ts, i, j) <==> Room(l.capacity, gains[..j], i, gains[j]) >= 1.0
  {
    var gains := Gains(l, start, ts);
    AnswersAt(l.capacity, gains, j);
    assert Answers(l.capacity, gains)[i..j] == Answers(l.capacity, gains)[..j][i..];
    GainsAddUp(l, start, ts, i, j);
    if i < j {
      assert gains[..j][i + 1..] == gains[i + 1..j + 1][..j - i - 1];
    } else {
      GainFacts(l, ts[i], ts[i], ts[i]);
      assert Calls(l, start, ts)[i..j] == [];
    }
  }

  /** A bucket grants a call exactly when that keeps every window, from any earlier call
      to this one, within the capacity and what refills in the window: it is the most
      generous limiter that keeps the bound. */
  lemma GrantedExactlyWhenItFits(l: Limit, start: real, ts: seq<real>, j: nat)
    requires l.Valid() && Monotone(start, ts) && j < |ts|
    ensures Calls(l, start, ts)[j] <==> forall i :: 0 <= i <= j ==> Fits(l, start, ts, i, j)
  {
    var gains := Gains(l, start, ts);
    GainsArePositive(l, start, ts);
    AnswersAt(l.capacity, gains, j);
    var least := TokensAreTheLeastRoom(l.capacity, gains[..j], gains[j]);
    forall i | 0 <= i <= j
      ensures Fits(l, start, ts, i, j) <==> Room(l.capacity, gains[..j], i, gains[j]) >= 1.0
    {
      FitsMeansRoom(l, start, ts, i, j);
    }
    assert Fits(l, start, ts, least, j) <==> Room(l.capacity, gains[..j], least, gains[j]) >= 1.0;
  }

  /** The grants of the calls `i` to `j` number at most the capacity and what refills
      between them. */
  lemma {:induction false} AnyWindow(l: Limit, start: real, ts: seq<real>, i: nat, j: nat)
    requires l.Valid() && Monotone(start, ts) && i <= j < |ts|
    ensures Granted(Calls(l, start, ts)[i..j + 1]) as real <= l.capacity + Gain(l, ts[i], ts[j])
    decreases j
  {
    var calls := Calls(l, start, ts);
    assert calls[i..j + 1] == calls[i..j] + [calls[j]];
    GrantedOn(calls[i..j], calls[j]);
    GainFacts(l, ts[i], ts[j], ts[j]);
    if calls[j] {
      GrantedExactlyWhenItFits(l, start, ts, j);
      assert Fits(l, start, ts, i, j);
    } else if i < j {
      AnyWindow(l, start, ts, i, j - 1);
      GainFacts(l, ts[i], ts[j - 1], ts[j]);
      GainFacts(l, ts[j - 1], ts[j], ts[j]);
    } else {
      assert calls[i..j] == [];
    }
  }

  lemma {:induction false} TokensStayInRange(capacity: real, gains: seq<real>)
    requires capacity >= 0.0 && forall i :: 0 <= i < |gains| ==> gains[i] >= 0.0
    ensures 0.0 <= Tokens(capacity, gains) <= capacity
  {
    if gains != [] { TokensStayInRange(capacity, gains[..|gains| - 1]); }
  }

  // ---- the bucket of the SDK ----

  class TokenBucket {
    const rate: real
    const burst: int
    var tokens: real
    var lastRefill: real

    constructor (rate: real, burst: int, now: real)
      ensures this.rate == rate && this.burst == burst
      ensures tokens == burst as real && lastRefill == now
    {
      this.rate := rate;
      this.burst := burst;
      tokens := burst as real;
      lastRefill := now;
    }

    function Limits(): Limit {
      Limit(burst as real, rate)
    }

    method Allow(now: real) returns (granted: bool)
      modifies this
      ensures var found := Refill(burst as real, old(tokens), Gain(Limits(), old(lastRefill), now));
              granted == (found >= 1.0) && tokens == Spend(found)
      ensures lastRefill == now
    {
      var elapsed := now - lastRefill;
      assert elapsed * rate == Gain(Limits(), lastRefill, now);
      tokens := Least(burst as real, tokens + elapsed * rate);
      lastRefill := now;
      if tokens >= 1.0 {
        tokens := tokens - 1.0;
        return true;
      }
      return false;
    }
  }

  /** Calls on one bucket from its creation on. */
  method AllowAll(rate: real, burst: int, start: real, ts: seq<real>) returns (answers: seq<bool>)
    ensures answers == Calls(Limit(burst as real, rate), start, ts)
  {
    var bucket := new TokenBucket(rate, burst, start);
    ghost var l := bucket.Limits();
    answers := [];
    for n := 0 to |ts|
      invariant bucket.rate == rate && bucket.burst == burst && fresh(bucket)
      invariant bucket.tokens == Tokens(l.capacity, Gains(l, start, ts[..n]))
      invariant bucket.lastRefill == if n == 0 then start else ts[n - 1]
      invariant answers == Calls(l, start, ts[..n])
    {
      assert ts[..n + 1][..n] == ts[..n];
      var granted := bucket.Allow(ts[n]);
      answers := answers + [granted];
      ghost var gains := Gains(l, start, ts[..n + 1]);
      assert gains[..n] == Gains(l, start, ts[..n]);
    }
    assert ts[..|ts|] == ts;
  }

  // ---- the bucket in Redis ----

  datatype Config = Config(requests: nat, window: nat)

  function Bound(c: Config): Limit
    requires c.window > 0
  {
    Limit(c.requests as real, c.requests as real / c.window as real)
  }

  /** The two keys of a bucket, each of which may be missing. */
  datatype Slot = Slot(tokens: Option<real>, last: Option<real>)

  /** The reply of a check; a limit of no requests makes the wait a division by zero. */
  datatype Reply = Allowed(remaining: int) | Limited(retryAfter: real) | DivisionByZero

  /** The tokens that a check at `now` finds; time that went back refills nothing. */
  function Found(c: Config, slot: Slot, now: real): real
    requires c.window > 0
  {
    Refill(c.requests as real, slot.tokens.UnwrapOr(c.requests as real),
           Gain(Bound(c), Least(slot.last.UnwrapOr(now), now), now))
  }

  /** To hundredths, ties to the even one. */
  function Round(x: real): real {
    var n := (x * 100.0).Floor;
    var rest := x * 100.0 - n as real;
    (if rest < 0.5 || (rest == 0.5 && n % 2 == 0) then n else n + 1) as real / 100.0
  }

  function RetryAfter(c: Config, tokens: real): real
    requires c.window > 0 && c.requests > 0
  {
    var rounded := Round((1.0 - tokens) / Bound(c).rate);
    if rounded >= 0.1 then rounded else 0.1
  }

  /** Truncation towards zero. */
  function Whole(x: real): int {
    if x >= 0.0 then x.Floor else -(-x).Floor
  }

  function Answer(c: Config, found: real): Reply
    requires c.window > 0
  {
    if found >= 1.0 then Allowed(if Whole(found - 1.0) >= 0 then Whole(found - 1.0) else 0)
    else if c.requests == 0 then DivisionByZero
    else Limited(RetryAfter(c, found))
  }

  /** The keys after a check; one that raises writes nothing. */
  function SlotAfter(c: Config, slot: Slot, now: real): Slot
    requires c.window > 0
  {
    var found := Found(c, slot, now);
    if Answer(c, found).DivisionByZero? then slot else Slot(Some(Spend(found)), Some(now))
  }

  lemma RateOf(c: Config)
    requires c.window > 0
    ensures Bound(c).rate >= 0.0 && (Bound(c).rate == 0.0 <==> c.requests == 0)
    ensures Bound(c).rate * c.window as real == c.requests as real
  {
  }

  lemma FoundIs(c: Config, slot: Slot, now: real, left: real, rate: real)
    requires c.window > 0 && rate == Bound(c).rate
    requires var elapsed := now - slot.last.UnwrapOr(now);
             left == slot.tokens.UnwrapOr(c.requests as real) + (if elapsed > 0.0 then elapsed else 0.0) * rate
    ensures Found(c, slot, now) == Least(c.requests as real, left)
  {
  }

  lemma RefusalIs(c: Config, found: real, rate: real)
    requires c.window > 0 && rate == Bound(c).rate && found < 1.0
    ensures Answer(c, found).DivisionByZero? <==> rate == 0.0
    ensures rate != 0.0 ==>
              var rounded := Round((1.0 - found) / rate);
              Answer(c, found) == Limited(if rounded >= 0.1 then rounded else 0.1)
  {
    RateOf(c);
  }

  class ConnectorRateLimiter {
    var tokens: map<string, real>
    var last: map<string, real>

    constructor ()
      ensures tokens == map[] && last == map[]
    {
      tokens, last := map[], map[];
    }

    function SlotOf(key: string): Slot
      reads this
    {
      Slot(if key in tokens then Some(tokens[key]) else None, if key in last then Some(last[key]) else None)
    }

    method Check(key: string, c: Config, now: real) returns (reply: Reply)
      requires c.window > 0
      modifies this
      ensures reply == Answer(c, Found(c, old(SlotOf(key)), now))
      ensures SlotOf(key) == SlotAfter(c, old(SlotOf(key)), now)
      ensures forall other :: other != key ==> SlotOf(other) == old(SlotOf(other))
    {
      var refillRate := c.requests as real / c.window as real;
      assert refillRate == Bound(c).rate;
      ghost var found := Found(c, SlotOf(key), now);
      var left := if key in tokens then tokens[key] else c.requests as real;
      var lastRefill := if key in last then last[key] else now;
      var elapsed := if now - lastRefill > 0.0 then now - lastRefill else 0.0;
      left := left + elapsed * refillRate;
      FoundIs(c, SlotOf(key), now, left, refillRate);
      left := Least(c.requests as real, left);
      if left >= 1.0 {
        left := left - 1.0;
        var whole := Whole(left);
        reply := Allowed(if whole >= 0 then whole else 0);
      } else {
        var deficit := 1.0 - left;
        RefusalIs(c, left, refillRate);
        if refillRate == 0.0 {
          return DivisionByZero;
        }
        var rounded := Round(deficit / refillRate);
        reply := Limited(if rounded >= 0.1 then rounded else 0.1);
      }
      assert reply == Answer(c, found) && left == Spend(found);
      tokens := tokens[key := left];
      last := last[key := now];
    }
  }

  // ---- expiry ----

  /** One check, and which keys have lapsed by then. */
  datatype Visit = Visit(now: real, tokensLapsed: bool, lastLapsed: bool)

  function Lapse(slot: Slot, v: Visit): Slot {
    Slot(if v.tokensLapsed then None else slot.tokens, if v.lastLapsed then None else slot.last)
  }

  /** The key of the last refill, which is written second, does not lapse before the
      other, and neither lapses within the window of the last check. */
  predicate LapsesLate(c: Config, slot: Slot, v: Visit) {
    (v.lastLapsed ==> v.tokensLapsed) &&
    (v.tokensLapsed && slot.last.Some? ==> v.now - slot.last.value >= c.window as real)
  }

  lemma FoundLapsed(c: Config, slot: Slot, v: Visit)
    requires c.window > 0 && slot.last.Some? && slot.last.value <= v.now
    ensures v.tokensLapsed ==> Found(c, Lapse(slot, v), v.now) == c.requests as real
    ensures !v.tokensLapsed && v.lastLapsed && slot.tokens.Some? ==>
              Found(c, Lapse(slot, v), v.now) == Least(c.requests as real, slot.tokens.value)
  {
    RateOf(c);
    GainFacts(Bound(c), slot.last.value, v.now, v.now);
  }

  /** When lapsed keys go unnoticed by a check: when the bucket had filled up meanwhile,
      or, if only the last refill lapsed, when nothing would have been refilled. */
  lemma LapseUnnoticed(c: Config, slot: Slot, v: Visit)
    requires c.window > 0 && slot.tokens.Some? && slot.last.Some? && slot.last.value <= v.now
    ensures Found(c, Lapse(slot, v), v.now) == Found(c, slot, v.now) <==>
            (v.tokensLapsed ==> Found(c, slot, v.now) == c.requests as real) &&
            (!v.tokensLapsed && v.lastLapsed ==>
             slot.tokens.value >= c.requests as real || slot.last.value == v.now || c.requests == 0)
  {
    FoundLapsed(c, slot, v);
    RateOf(c);
    GainFacts(Bound(c), slot.last.value, v.now, v.now);
    if slot.last.value < v.now { GainGrows(Bound(c), slot.last.value, v.now); }
  }

  lemma Positive(x: real, y: real)
    requires x > 0.0 && y > 0.0
    ensures x * y > 0.0
  {
  }

  lemma GainGrows(l: Limit, a: real, b: real)
    requires a < b
    ensures l.rate > 0.0 ==> Gain(l, a, b) > 0.0
    ensures l.rate == 0.0 ==> Gain(l, a, b) == 0.0
  {
    if l.rate > 0.0 {
      var time := b - a;
      Positive(time, l.rate);
      assert Gain(l, a, b) == time * l.rate;
    }
  }

  /** The keys after these checks of a bucket that had none. */
  function SlotWith(c: Config, vs: seq<Visit>): Slot
    requires c.window > 0
  {
    if vs == [] then Slot(None, None)
    else SlotAfter(c, Lapse(SlotWith(c, vs[..|vs| - 1]), vs[|vs| - 1]), vs[|vs| - 1].now)
  }

  ghost predicate Orderly(c: Config, vs: seq<Visit>)
    requires c.window > 0
  {
    (forall i, j :: 0 <= i <= j < |vs| ==> vs[i].now <= vs[j].now) &&
    (forall i :: 0 <= i < |vs| ==> LapsesLate(c, SlotWith(c, vs[..i]), vs[i]))
  }

  function Times(vs: seq<Visit>): (ts: seq<real>)
    ensures |ts| == |vs| && forall i :: 0 <= i < |vs| ==> ts[i] == vs[i].now
  {
    seq(|vs|, i requires 0 <= i < |vs| => vs[i].now)
  }

  /** What checks at these times gain a bucket whose keys never lapse, full at the first. */
  function Everlasting(c: Config, vs: seq<Visit>): (gains: seq<real>)
    requires c.window > 0
    ensures |gains| == |vs|
  {
    if vs == [] then [] else Gains(Bound(c), vs[0].now, Times(vs))
  }

  lemma OrderlyFront(c: Config, vs: seq<Visit>)
    requires c.window > 0 && vs != [] && Orderly(c, vs)
    ensures var front := vs[..|vs| - 1];
            Orderly(c, front) && LapsesLate(c, SlotWith(c, front), vs[|vs| - 1])
  {
    var front := vs[..|vs| - 1];
    forall i | 0 <= i < |front| ensures LapsesLate(c, SlotWith(c, front[..i]), front[i]) {
      assert front[..i] == vs[..i];
    }
  }

  lemma EverlastingOn(c: Config, vs: seq<Visit>)
    requires c.window > 0 && vs != []
    ensures var n, gains := |vs| - 1, Everlasting(c, vs);
            gains[..n] == Everlasting(c, vs[..n]) &&
            gains[n] == Gain(Bound(c), if n == 0 then vs[0].now else vs[n - 1].now, vs[n].now)
  {
    assert Times(vs)[..|vs| - 1] == Times(vs[..|vs| - 1]);
    GainsAt(Bound(c), vs[0].now, Times(vs), |vs| - 1);
  }

  lemma FirstFinds(c: Config, v: Visit)
    requires c.window > 0 && c.requests > 0
    ensures Found(c, Lapse(Slot(None, None), v), v.now) ==
            Refill(c.requests as real, c.requests as real, Gain(Bound(c), v.now, v.now))
  {
    GainFacts(Bound(c), v.now, v.now, v.now);
  }

  lemma NextFinds(c: Config, slot: Slot, v: Visit)
    requires c.window > 0 && c.requests > 0 && slot.tokens.Some? && slot.last.Some? && slot.last.value <= v.now
    requires LapsesLate(c, slot, v)
    requires v.tokensLapsed ==>
               Refill(c.requests as real, slot.tokens.value, Gain(Bound(c), slot.last.value, v.now)) ==
               c.requests as real
    ensures Found(c, Lapse(slot, v), v.now) ==
            Refill(c.requests as real, slot.tokens.value, Gain(Bound(c), slot.last.value, v.now))
  {
    FoundLapsed(c, slot, v);
  }

  lemma SlotFollows(c: Config, vs: seq<Visit>, found: real)
    requires c.window > 0 && c.requests > 0 && vs != []
    requires found == Found(c, Lapse(SlotWith(c, vs[..|vs| - 1]), vs[|vs| - 1]), vs[|vs| - 1].now)
    ensures SlotWith(c, vs) == Slot(Some(Spend(found)), Some(vs[|vs| - 1].now))
  {
  }

  /** A check finds the tokens it would have found had nothing ever lapsed. */
  lemma {:induction false} ExpiryIsInvisible(c: Config, vs: seq<Visit>)
    requires c.window > 0 && c.requests > 0 && vs != [] && Orderly(c, vs)
    ensures var n, gains := |vs| - 1, Everlasting(c, vs);
            Found(c, Lapse(SlotWith(c, vs[..n]), vs[n]), vs[n].now) ==
            Refill(c.requests as real, Tokens(c.requests as real, gains[..n]), gains[n])
    ensures SlotWith(c, vs) == Slot(Some(Tokens(c.requests as real, Everlasting(c, vs))), Some(vs[|vs| - 1].now))
  {
    var front, v := vs[..|vs| - 1], vs[|vs| - 1];
    OrderlyFront(c, vs);
    EverlastingOn(c, vs);
    if front != [] {
      ExpiryIsInvisible(c, front);
      if v.tokensLapsed { AWindowFillsIt(c, front, v.now); }
      NextFinds(c, SlotWith(c, front), v);
    } else {
      FirstFinds(c, v);
    }
    SlotFollows(c, vs, Found(c, Lapse(SlotWith(c, front), v), v.now));
  }

  lemma AWindowFillsIt(c: Config, vs: seq<Visit>, now: real)
    requires c.window > 0 && vs != [] && Orderly(c, vs)
    requires now - vs[|vs| - 1].now >= c.window as real
    ensures Refill(c.requests as real, Tokens(c.requests as real, Everlasting(c, vs)),
                   Gain(Bound(c), vs[|vs| - 1].now, now)) == c.requests as real
  {
    RateOf(c);
    GainsArePositive(Bound(c), vs[0].now, Times(vs));
    TokensStayInRange(c.requests as real, Everlasting(c, vs));
    FullWindow(c, vs[|vs| - 1].now, now);
  }

  lemma FullWindow(c: Config, from: real, to: real)
    requires c.window > 0 && to - from >= c.window as real
    ensures Gain(Bound(c), from, to) >= c.requests as real
  {
    RateOf(c);
    var w, rate := c.window as real, Bound(c).rate;
    assert (to - from - w) * rate >= 0.0;
    assert (to - from) * rate == (to - from - w) * rate + w * rate;
  }

  /** So a check is allowed exactly when the bucket that never lapses grants it, and every
      window keeps its bound. */
  lemma AllowedExactlyWhenGranted(c: Config, vs: seq<Visit>)
    requires c.window > 0 && c.requests > 0 && vs != [] && Orderly(c, vs)
    ensures var n := |vs| - 1;
            Answer(c, Found(c, Lapse(SlotWith(c, vs[..n]), vs[n]), vs[n].now)).Allowed? <==>
            Calls(Bound(c), vs[0].now, Times(vs))[n]
  {
    ExpiryIsInvisible(c, vs);
    AnswersAt(c.requests as real, Everlasting(c, vs), |vs| - 1);
  }

  /** Two keys written by one check have both lapsed, when they live that long. */
  predicate BothLapsed(slot: Slot, v: Visit, life: real) {
    slot.tokens.Some? && slot.tokens.value >= 0.0 && slot.last.Some? &&
    v.tokensLapsed && v.lastLapsed && v.now - slot.last.value >= life
  }

  predicate Unnoticed(c: Config, slot: Slot, v: Visit)
    requires c.window > 0
  {
    Found(c, Lapse(slot, v), v.now) == Found(c, slot, v.now)
  }

  /** Keys that live for `life` after each check lapse unnoticed, whatever they hold,
      exactly when that is at least the window; the source keeps them for two windows. */
  lemma KeysMustLiveForAWindow(c: Config, life: real)
    requires c.window > 0 && c.requests > 0 && life >= 0.0
    ensures (forall slot, v :: BothLapsed(slot, v, life) ==> Unnoticed(c, slot, v)) <==> life >= c.window as real
  {
    if life >= c.window as real {
      forall slot, v | BothLapsed(slot, v, life) ensures Unnoticed(c, slot, v) {
        FullWindow(c, slot.last.value, v.now);
        FoundLapsed(c, slot, v);
      }
    } else {
      var slot, v := Slot(Some(0.0), Some(0.0)), Visit(life, true, true);
      FoundLapsed(c, slot, v);
      LessThanAWindow(c, life);
      assert BothLapsed(slot, v, life) && !Unnoticed(c, slot, v);
    }
  }

  lemma LessThanAWindow(c: Config, time: real)
    requires c.window > 0 && c.requests > 0 && time < c.window as real
    ensures Gain(Bound(c), 0.0, time) < c.requests as real
  {
    RateOf(c);
    var rate, missing := Bound(c).rate, c.window as real - time;
    Positive(missing, rate);
    assert missing * rate == c.window as real * rate - time * rate;
  }

  /** Expiry alone takes the key of the tokens first, as it is written first. Were the
      key of the last refill lost alone, a bucket would lose what it should refill: with
      one request a second it would refuse where it should grant. */
  lemma LapsingLastAloneShows()
    ensures var c := Config(1, 1);
            var slot := Slot(Some(0.0), Some(0.0));
            Found(c, Lapse(slot, Visit(2.0, false, false)), 2.0) == 1.0 &&
            Found(c, Lapse(slot, Visit(2.0, false, true)), 2.0) == 0.0
  {
  }

  // ---- what an answer promises ----

  /** The keys after `n` checks at the same time. */
  function SlotTimes(c: Config, slot: Slot, now: real, n: nat): Slot
    requires c.window > 0
  {
    if n == 0 then slot else SlotAfter(c, SlotTimes(c, slot, now, n - 1), now)
  }

  lemma FoundIsWithin(c: Config, slot: Slot, now: real)
    requires c.window > 0
    ensures Found(c, slot, now) <= c.requests as real
  {
  }

  lemma FoundNext(c: Config, tokens: real, now: real)
    requires c.window > 0 && tokens <= c.requests as real
    ensures Found(c, Slot(Some(tokens), Some(now)), now) == tokens
  {
    GainFacts(Bound(c), now, now, now);
  }

  /** After `n` checks at one time, a bucket with that many tokens has `n` fewer. */
  lemma {:induction false} TokensGoDown(c: Config, slot: Slot, now: real, n: nat)
    requires c.window > 0 && c.requests > 0 && Found(c, slot, now) >= n as real
    ensures Found(c, SlotTimes(c, slot, now, n), now) == Found(c, slot, now) - n as real
  {
    if n > 0 {
      TokensGoDown(c, slot, now, n - 1);
      FoundIsWithin(c, slot, now);
      FoundNext(c, Found(c, slot, now) - n as real, now);
    }
  }

  /** The number of remaining requests in an answer is how many more are allowed at once:
      that many further checks at the same time are allowed, and the next one is not. */
  lemma RemainingAreAllowed(c: Config, slot: Slot, now: real, n: nat)
    requires c.window > 0 && c.requests > 0 && Answer(c, Found(c, slot, now)).Allowed?
    requires 1 <= n <= Answer(c, Found(c, slot, now)).remaining + 1
    ensures Answer(c, Found(c, SlotTimes(c, slot, now, n), now)).Allowed? <==>
            n <= Answer(c, Found(c, slot, now)).remaining
  {
    var found := Found(c, slot, now);
    RemainingIs(found);
    TokensGoDown(c, slot, now, n);
  }

  lemma RemainingIs(found: real)
    requires found >= 1.0
    ensures var whole := Whole(found - 1.0); whole >= 0 && whole as real <= found - 1.0 < whole as real + 1.0
  {
  }

  // ---- refusals ----

  /** A check raises exactly when the limit is no requests at all. */
  lemma NoRequestsDivideByZero(c: Config, slot: Slot, now: real)
    requires c.window > 0
    ensures Answer(c, Found(c, slot, now)).DivisionByZero? <==> c.requests == 0
  {
    RateOf(c);
  }

  /** How long the missing part of a token takes to refill. */
  function Need(c: Config, found: real): real
    requires c.window > 0 && c.requests > 0
  {
    (1.0 - found) / Bound(c).rate
  }

  /** What lies beyond the whole hundredths of `x`, in hundredths. */
  function Beyond(x: real): real {
    x * 100.0 - (x * 100.0).Floor as real
  }

  /** A number of whole hundredths, or one that rounding to hundredths raises. */
  predicate NotRoundedDown(x: real) {
    Beyond(x) == 0.0 || Beyond(x) > 0.5 || (Beyond(x) == 0.5 && (x * 100.0).Floor % 2 == 1)
  }

  lemma RoundedDown(x: real)
    ensures Round(x) >= x <==> NotRoundedDown(x)
  {
    var n := (x * 100.0).Floor;
    assert x == (n as real + Beyond(x)) / 100.0;
  }

  /** Waiting as long as a refusal says is enough exactly when the missing part of a
      token refills within the least wait, a tenth of a second, or takes a time that
      rounding to hundredths does not cut. */
  lemma WaitingIsEnough(c: Config, found: real, now: real)
    requires c.window > 0 && c.requests > 0 && Answer(c, found).Limited?
    ensures Found(c, Slot(Some(found), Some(now)), now + Answer(c, found).retryAfter) >= 1.0 <==>
            Need(c, found) <= 0.1 || NotRoundedDown(Need(c, found))
  {
    RateOf(c);
    var rate, wait := Bound(c).rate, Answer(c, found).retryAfter;
    assert Found(c, Slot(Some(found), Some(now)), now + wait) ==
           Least(c.requests as real, found + Gain(Bound(c), now, now + wait));
    Waiting(rate, wait, 1.0 - found);
    RoundedDown(Need(c, found));
  }

  /** With three requests a second, a caller that found nothing is told to wait for 0.33
      seconds, and then finds 0.99 tokens and is refused again. */
  lemma WaitingCanBeTooShort()
    ensures var c := Config(3, 1);
            Answer(c, 0.0) == Limited(0.33) && Found(c, Slot(Some(0.0), Some(0.0)), 0.33) == 0.99 &&
            Answer(c, 0.99).Limited?
  {
    var c := Config(3, 1);
    assert Bound(c).rate == 3.0;
    assert (1.0 / 3.0 * 100.0).Floor == 33;
    assert Gain(Bound(c), 0.0, 0.33) == 0.99;
  }

  lemma Waiting(rate: real, wait: real, deficit: real)
    requires rate > 0.0
    ensures wait * rate >= deficit <==> wait >= deficit / rate
  {
    var need := deficit / rate;
    assert need * rate == deficit;
    assert (wait - need) * rate == wait * rate - deficit;
    if wait >= need { assert (wait - need) * rate >= 0.0; } else { assert (need - wait) * rate > 0.0; }
  }
}

/** The sliding window of the API's rate limiter: one Redis sorted set of request times
    per caller, pruned, extended and counted on each request. */
module SlidingWindow {

  datatype Config = Config(maxRequests: int, window: real)

  /** A refused request is answered as if Redis were down: working out when to retry
      converts a list to a number, and the error is caught with the rest. */
  datatype Reply = Admitted(remaining: int) | Unavailable

  /** The set after a request: times up to a window ago are gone, and now is in it. */
  function Recorded(times: set<real>, c: Config, now: real): set<real> {
    (set t | t in times && !(0.0 <= t <= now - c.window)) + {now}
  }

  function Answer(times: set<real>, c: Config): Reply {
    if |times| > c.maxRequests then Unavailable else Admitted(c.maxRequests - |times|)
  }

  class RateLimiter {
    var sets: map<string, set<real>>

    constructor ()
      ensures sets == map[]
    {
      sets := map[];
    }

    function SetOf(key: string): set<real>
      reads this
    {
      if key in sets then sets[key] else {}
    }

    method Dispatch(key: string, c: Config, now: real) returns (reply: Reply)
      modifies this
      ensures SetOf(key) == Recorded(old(SetOf(key)), c, now)
      ensures reply == Answer(SetOf(key), c)
      ensures forall other :: other != key ==> SetOf(other) == old(SetOf(other))
    {
      var times := SetOf(key);
      times := times - (set t | t in times && 0.0 <= t <= now - c.window);
      times := times + {now};
      sets := sets[key := times];
      if |times| > c.maxRequests {
        return Unavailable;
      }
      var remaining := c.maxRequests - |times|;
      return Admitted(if remaining > 0 then remaining else 0);
    }
  }

  // ---- runs ----

  /** One request, and whether the key has expired by then. */
  datatype Visit = Visit(now: real, expired: bool)

  function TimesAfter(c: Config, vs: seq<Visit>): set<real> {
    if vs == [] then {}
    else
      var v := vs[|vs| - 1];
      Recorded(if v.expired then {} else TimesAfter(c, vs[..|vs| - 1]), c, v.now)
  }

  /** Time does not go back, and a key expires a window after it was last used. */
  predicate Orderly(c: Config, vs: seq<Visit>) {
    (forall i :: 0 <= i < |vs| ==> vs[i].now >= 0.0) &&
    (forall i, j :: 0 <= i <= j < |vs| ==> vs[i].now <= vs[j].now) &&
    (forall i :: 0 < i < |vs| ==> vs[i].expired ==> vs[i].now - vs[i - 1].now >= c.window)
  }

  predicate Within(c: Config, vs: seq<Visit>, j: nat, i: nat)
    requires i <= j < |vs|
  {
    vs[i].now > vs[j].now - c.window
  }

  /** The requests of the window that ends with request `j`, by their times. */
  function InWindow(c: Config, vs: seq<Visit>, j: nat): set<real>
    requires j < |vs|
  {
    set i | 0 <= i <= j && Within(c, vs, j, i) :: vs[i].now
  }

  /** The next window is the last one without what has become too old, and with now. */
  lemma WindowOn(c: Config, vs: seq<Visit>, n: nat)
    requires c.window > 0.0 && Orderly(c, vs) && 0 < n < |vs|
    ensures InWindow(c, vs, n) == Recorded(InWindow(c, vs, n - 1), c, vs[n].now)
  {
    var before, now := InWindow(c, vs, n - 1), vs[n].now;
    forall i | 0 <= i <= n && Within(c, vs, n, i) ensures vs[i].now in Recorded(before, c, now) {
      if i < n {
        assert vs[n - 1].now <= now;
        assert Within(c, vs, n - 1, i);
      }
    }
    forall i | 0 <= i <= n - 1 && Within(c, vs, n - 1, i) && vs[i].now > now - c.window
      ensures vs[i].now in InWindow(c, vs, n)
    {
      assert Within(c, vs, n, i);
    }
    assert Within(c, vs, n, n);
  }

  /** Once a window has passed, nothing else is in the next one. */
  lemma WindowGone(c: Config, vs: seq<Visit>, n: nat)
    requires c.window > 0.0 && Orderly(c, vs) && n < |vs| && (n == 0 || vs[n].now - vs[n - 1].now >= c.window)
    ensures InWindow(c, vs, n) == {vs[n].now}
  {
    assert Within(c, vs, n, n);
    forall i | 0 <= i < n ensures !Within(c, vs, n, i) {
      assert vs[i].now <= vs[n - 1].now;
    }
  }

  /** However keys expire, the set is exactly the requests of the last window. */
  lemma {:induction false} TheSetIsTheWindow(c: Config, vs: seq<Visit>, n: nat)
    requires c.window > 0.0 && n < |vs| && Orderly(c, vs)
    ensures TimesAfter(c, vs[..n + 1]) == InWindow(c, vs, n)
  {
    assert vs[..n + 1][..n] == vs[..n];
    if n == 0 || vs[n].expired {
      WindowGone(c, vs, n);
    } else {
      TheSetIsTheWindow(c, vs, n - 1);
      WindowOn(c, vs, n);
    }
  }

  predicate AdmittedAt(c: Config, vs: seq<Visit>, j: nat)
    requires j < |vs|
  {
    Answer(TimesAfter(c, vs[..j + 1]), c).Admitted?
  }

  /** A request is admitted exactly when the window that ends with it holds no more than
      the limit, refused requests included. */
  lemma AdmittedExactlyWithinTheLimit(c: Config, vs: seq<Visit>, j: nat)
    requires c.window > 0.0 && Orderly(c, vs) && j < |vs|
    ensures AdmittedAt(c, vs, j) <==> |InWindow(c, vs, j)| <= c.maxRequests
    ensures AdmittedAt(c, vs, j) ==>
              Answer(TimesAfter(c, vs[..j + 1]), c).remaining == c.maxRequests - |InWindow(c, vs, j)|
  {
    TheSetIsTheWindow(c, vs, j);
  }

  predicate AdmittedIn(c: Config, vs: seq<Visit>, from: real, i: nat)
    requires i < |vs|
  {
    AdmittedAt(c, vs, i) && from < vs[i].now <= from + c.window
  }

  /** The times at which requests of one half-open window were admitted. */
  function AdmittedTimes(c: Config, vs: seq<Visit>, from: real): set<real> {
    set i | 0 <= i < |vs| && AdmittedIn(c, vs, from, i) :: vs[i].now
  }

  /** Wherever a window lies, requests are admitted at no more than the limit's number of
      times in it. */
  lemma AnyWindow(c: Config, vs: seq<Visit>, from: real)
    requires c.window > 0.0 && c.maxRequests >= 0 && Orderly(c, vs)
    ensures |AdmittedTimes(c, vs, from)| <= c.maxRequests
  {
    var all := AdmittedTimes(c, vs, from);
    if all != {} {
      var t :| t in all;
      var i :| 0 <= i < |vs| && AdmittedIn(c, vs, from, i) && vs[i].now == t;
      var last := LastAdmitted(c, vs, from, i);
      AdmittedExactlyWithinTheLimit(c, vs, last);
      forall t | t in all ensures t in InWindow(c, vs, last) {
        var i :| 0 <= i < |vs| && AdmittedIn(c, vs, from, i) && vs[i].now == t;
        assert Within(c, vs, last, i);
      }
      Fewer(all, InWindow(c, vs, last));
    }
  }

  lemma LastAdmitted(c: Config, vs: seq<Visit>, from: real, i: nat) returns (last: nat)
    requires i < |vs| && AdmittedIn(c, vs, from, i)
    ensures last < |vs| && AdmittedIn(c, vs, from, last)
    ensures forall j :: last < j < |vs| ==> !AdmittedIn(c, vs, from, j)
    decreases |vs| - i
  {
    if j :| i < j < |vs| && AdmittedIn(c, vs, from, j) {
      last := LastAdmitted(c, vs, from, j);
    } else {
      last := i;
    }
  }

  lemma Fewer(a: set<real>, b: set<real>)
    requires a <= b
    ensures |a| <= |b|
  {
    assert b == a + (b - a);
  }

  /** When no two requests admitted in the window have the same time, that bounds their
      number. */
  lemma AnyWindowOfDistinctTimes(c: Config, vs: seq<Visit>, from: real)
    requires c.window > 0.0 && c.maxRequests >= 0 && Orderly(c, vs)
    requires forall i, j :: 0 <= i < j < |vs| && AdmittedIn(c, vs, from, i) && AdmittedIn(c, vs, from, j) ==>
               vs[i].now != vs[j].now
    ensures |set i | 0 <= i < |vs| && AdmittedIn(c, vs, from, i)| <= c.maxRequests
  {
    var admitted := set i | 0 <= i < |vs| && AdmittedIn(c, vs, from, i);
    AnyWindow(c, vs, from);
    OneEach(vs, admitted, |vs|);
    assert (set i | i in admitted :: vs[i].now) == AdmittedTimes(c, vs, from);
  }

  lemma {:induction false} OneEach(vs: seq<Visit>, some: set<int>, n: nat)
    requires n <= |vs| && forall i :: i in some ==> 0 <= i < n
    requires forall i, j :: i in some && j in some && i < j ==> vs[i].now != vs[j].now
    ensures |set i | i in some :: vs[i].now| == |some|
  {
    if n == 0 {
      assert forall i :: i !in some;
    } else {
      var fewer := some - {n - 1};
      OneEach(vs, fewer, n - 1);
      if n - 1 in some {
        assert (set i | i in some :: vs[i].now) == (set i | i in fewer :: vs[i].now) + {vs[n - 1].now};
        assert vs[n - 1].now !in set i | i in fewer :: vs[i].now;
      } else {
        assert fewer == some;
      }
    }
  }

  /** Requests with the same time are one member of the set: any number of them is
      admitted at once. */
  lemma {:induction false} SameTimeIsCountedOnce(c: Config, n: nat, j: nat)
    requires c.window > 0.0 && c.maxRequests >= 1 && j < n
    ensures AdmittedAt(c, seq(n, _ => Visit(0.0, false)), j)
  {
    var vs := seq(n, _ => Visit(0.0, false));
    AdmittedExactlyWithinTheLimit(c, vs, j);
    assert Within(c, vs, j, j);
    assert InWindow(c, vs, j) == {0.0};
  }
}

/** Sliding-window limiting as the broker does it everywhere: a bucket of recent
    timestamps, pruned against `now - window` and refused at the limit.  `log` is every
    timestamp ever admitted; the lemmas say that the bucket never forgets one that still
    counts and what that gives over a whole run. */
module RateWindow {

  /** The list comprehension `[t for t in bucket if t > cutoff]`. */
  function Prune(bucket: seq<real>, cutoff: real): (r: seq<real>)
    ensures |r| <= |bucket|
  {
    if bucket == [] then []
    else (if bucket[0] > cutoff then [bucket[0]] else []) + Prune(bucket[1..], cutoff)
  }

  /** `list[-n:]` for n > 0. */
  function LastN(s: seq<real>, n: nat): seq<real> {
    if |s| <= n then s else s[|s| - n..]
  }

  ghost predicate Ascending(log: seq<real>) {
    forall i, j :: 0 <= i < j < |log| ==> log[i] <= log[j]
  }

  /** No timestamp of the log lies after `now`. */
  ghost predicate UpTo(log: seq<real>, now: real) {
    forall i :: 0 <= i < |log| ==> log[i] <= now
  }

  /** The bucket is the tail of the log, and everything before that tail is at or before
      the horizon: nothing that still counts has been forgotten. */
  ghost predicate Remembers(bucket: seq<real>, log: seq<real>, horizon: real) {
    && |bucket| <= |log|
    && bucket == log[|log| - |bucket|..]
    && forall i :: 0 <= i < |log| - |bucket| ==> log[i] <= horizon
  }

  /** The (i + limit)-th admission is at least a window later than the i-th. */
  ghost predicate Spread(log: seq<real>, window: real, limit: nat) {
    forall i, j :: 0 <= i && j == i + limit && j < |log| ==> log[j] >= log[i] + window
  }

  /** The timestamps of the log in the window that ends at `now`: (now - window, now]. */
  ghost function Recent(log: seq<real>, cutoff: real): seq<real> {
    Prune(log, cutoff)
  }

  /** `k` is where the expired timestamps end. */
  ghost predicate Boundary(s: seq<real>, cutoff: real, k: nat) {
    && k <= |s|
    && (forall i :: 0 <= i < k ==> s[i] <= cutoff)
    && (forall i :: k <= i < |s| ==> s[i] > cutoff)
  }

  lemma {:induction false} PruneAtBoundary(s: seq<real>, cutoff: real, k: nat)
    requires Boundary(s, cutoff, k)
    ensures Prune(s, cutoff) == s[k..]
    decreases |s|
  {
    if s != [] {
      PruneAtBoundary(s[1..], cutoff, if k == 0 then 0 else k - 1);
    }
  }

  lemma {:induction false} FindBoundary(s: seq<real>, cutoff: real, n: nat) returns (k: nat)
    requires Ascending(s) && n <= |s|
    requires forall i :: n <= i < |s| ==> s[i] > cutoff
    ensures Boundary(s, cutoff, k)
    decreases n
  {
    if n > 0 && s[n - 1] > cutoff {
      k := FindBoundary(s, cutoff, n - 1);
    } else {
      k := n;
    }
  }

  /** Pruning a bucket gives exactly the admissions of the window that ends now: the same
      as pruning the whole log. */
  lemma PruneRemembers(bucket: seq<real>, log: seq<real>, horizon: real, cutoff: real)
    requires Ascending(log) && Remembers(bucket, log, horizon) && horizon <= cutoff
    ensures Remembers(Prune(bucket, cutoff), log, cutoff)
    ensures Prune(bucket, cutoff) == Recent(log, cutoff)
  {
    var k := FindBoundary(log, cutoff, |log|);
    PruneAtBoundary(log, cutoff, k);
    ForgottenIsExpired(bucket, log, horizon, cutoff, k);
    var m := |log| - |bucket|;
    PruneAtBoundary(bucket, cutoff, k - m);
    assert bucket[k - m..] == log[k..];
  }

  lemma ForgottenIsExpired(bucket: seq<real>, log: seq<real>, horizon: real, cutoff: real, k: nat)
    requires Remembers(bucket, log, horizon) && horizon <= cutoff && Boundary(log, cutoff, k)
    ensures var m := |log| - |bucket|; m <= k && Boundary(bucket, cutoff, k - m)
  {
    var m := |log| - |bucket|;
    assert k < |log| ==> log[k] > cutoff;
    forall i | 0 <= i < |bucket| ensures bucket[i] == log[m + i] {}
  }

  /** Admitting below the limit keeps the log spread and remembered. */
  lemma AdmitKeeps(bucket: seq<real>, log: seq<real>, now: real, window: real, limit: nat)
    requires limit > 0 && window > 0.0
    requires Ascending(log) && UpTo(log, now) && Spread(log, window, limit)
    requires Remembers(bucket, log, now - window) && |bucket| < limit
    ensures var log' := log + [now];
            && Ascending(log') && UpTo(log', now) && Spread(log', window, limit)
            && Remembers(bucket + [now], log', now - window)
  {
    var log' := log + [now];
    forall i, j | 0 <= i && j == i + limit && j < |log'| ensures log'[j] >= log'[i] + window {
      if j == |log| {
        assert i < |log| - |bucket|;
      } else {
        assert log[j] >= log[i] + window;
      }
    }
    assert (bucket + [now]) == log'[|log'| - |bucket + [now]|..];
  }

  lemma {:induction false} UpToLater(log: seq<real>, t: real, now: real)
    requires UpTo(log, t) && t <= now
    ensures UpTo(log, now)
  {
  }

  lemma RememberLater(bucket: seq<real>, log: seq<real>, horizon: real, later: real)
    requires Remembers(bucket, log, horizon) && horizon <= later
    ensures Remembers(bucket, log, later)
  {
  }

  /** The positions of the log inside the half-open interval [from, from + window). */
  ghost function Inside(log: seq<real>, from: real, window: real): set<int> {
    set i | 0 <= i < |log| && from <= log[i] < from + window
  }

  lemma {:induction false} IntervalSize(s: set<int>, lo: int, n: nat)
    requires forall i :: i in s ==> lo <= i < lo + n
    ensures |s| <= n
    decreases n
  {
    if n == 0 {
      assert (forall i :: i !in s) ==> s == {};
    } else {
      var top := lo + n - 1;
      IntervalSize(s - {top}, lo, n - 1);
      assert s <= (s - {top}) + {top};
      if top in s { assert |s - {top}| == |s| - 1; } else { assert s - {top} == s; }
    }
  }

  /** The guarantee: every half-open interval of a window's length holds at most `limit`
      admissions. */
  lemma AtMostLimitPerWindow(log: seq<real>, from: real, window: real, limit: nat)
    requires limit > 0 && Ascending(log) && Spread(log, window, limit)
    ensures |Inside(log, from, window)| <= limit
  {
    var s := Inside(log, from, window);
    if |s| > 0 {
      assert s != {};
      var k := SomeInside(log, from, window);
      var first := FirstInside(log, from, k);
      forall i | i in s ensures first <= i < first + limit {
        SpreadApart(log, first, i, window, limit);
      }
      IntervalSize(s, first, limit);
    }
  }

  lemma SomeInside(log: seq<real>, from: real, window: real) returns (k: nat)
    requires Inside(log, from, window) != {}
    ensures k in Inside(log, from, window)
  {
    var s := Inside(log, from, window);
    assert (forall i :: i !in s) ==> s == {};
    k :| k in s;
  }

  lemma SpreadApart(log: seq<real>, i: nat, k: nat, window: real, limit: nat)
    requires Ascending(log) && Spread(log, window, limit) && i <= k < |log|
    ensures k >= i + limit ==> log[k] >= log[i] + window
  {
    if k >= i + limit {
      assert log[i + limit] >= log[i] + window;
    }
  }

  lemma {:induction false} FirstInside(log: seq<real>, from: real, k: nat) returns (first: nat)
    requires Ascending(log) && k < |log| && log[k] >= from
    ensures first <= k && log[first] >= from && forall i :: 0 <= i < first ==> log[i] < from
    decreases k
  {
    if k > 0 && log[k - 1] >= from {
      first := FirstInside(log, from, k - 1);
    } else {
      first := k;
    }
  }
}

/** The broker's sliding-window limiters (signaling/server.py): phone connects per desktop
    id, open-mode desktop registrations, and hellos per client address. */
module BrokerRates {
  import opened Prelude
  import opened OrderedDict
  import opened RateWindow
  import opened BrokerTables

  const RATE_MAP_MAX_KEYS: nat := 1024

  datatype Refusal = Busy | RateLimited | Unauthorized

  type Buckets = Dict<seq<real>>

  datatype Rates = Rates(connects: Buckets, regs: seq<real>, hellos: Buckets)

  function Bucket(d: Buckets, k: string): seq<real> {
    if k in d.of then d.of[k] else []
  }

  // ----- sweeping ------------------------------------------------------------------------

  /** Visiting one key: prune its bucket, drop it when nothing is left. */
  function SweptKey(d: Buckets, k: string, cutoff: real): Buckets {
    var kept := Prune(Bucket(d, k), cutoff);
    if kept == [] then Drop(d, k) else Put(d, k, kept)
  }

  function Remaining(order: seq<string>, of: map<string, seq<real>>): seq<string> {
    if order == [] then []
    else (if order[0] in of then [order[0]] else []) + Remaining(order[1..], of)
  }

  function SweptMap(of: map<string, seq<real>>, keys: seq<string>, cutoff: real): map<string, seq<real>> {
    map k | k in of && (k in keys ==> Prune(of[k], cutoff) != []) :: if k in keys then Prune(of[k], cutoff) else of[k]
  }

  /** A sweep of `keys`: their buckets pruned, the empty ones gone, everything else and
      the order of the rest as it was. */
  function Swept(d: Buckets, keys: seq<string>, cutoff: real): Buckets {
    Dict(Remaining(d.order, SweptMap(d.of, keys, cutoff)), SweptMap(d.of, keys, cutoff))
  }

  /** `pop(next(iter(d)))` until the dict fits. */
  function Trimmed(d: Buckets): Buckets
    decreases |d.order|
  {
    if |d.of| <= RATE_MAP_MAX_KEYS || d.order == [] then d
    else
      WithoutTells(d.order, d.order[0]);
      Trimmed(Drop(d, d.order[0]))
  }

  lemma {:induction false} PruneTwice(s: seq<real>, a: real)
    ensures Prune(Prune(s, a), a) == Prune(s, a)
    decreases |s|
  {
    if s != [] {
      PruneTwice(s[1..], a);
      var t := Prune(s[1..], a);
      if s[0] > a {
        assert Prune(s, a) == [s[0]] + t && ([s[0]] + t)[1..] == t;
      } else {
        assert Prune(s, a) == t;
      }
    }
  }

  lemma {:induction false} RemainingTells(order: seq<string>, of: map<string, seq<real>>)
    ensures var r := Remaining(order, of);
            && (forall k :: k in r <==> k in order && k in of)
            && ((forall i, j :: 0 <= i < j < |order| ==> order[i] != order[j]) ==>
                  forall i, j :: 0 <= i < j < |r| ==> r[i] != r[j])
    decreases |order|
  {
    if order != [] {
      var tail := order[1..];
      RemainingTells(tail, of);
      if forall i, j :: 0 <= i < j < |order| ==> order[i] != order[j] {
        assert forall i, j :: 0 <= i < j < |tail| ==> tail[i] == order[i + 1] && tail[j] == order[j + 1];
        assert order[0] !in tail;
      }
    }
  }

  lemma {:induction false} RemainingAll(order: seq<string>, of: map<string, seq<real>>)
    requires forall k :: k in order ==> k in of
    ensures Remaining(order, of) == order
    decreases |order|
  {
    if order != [] {
      assert order[0] in order;
      RemainingAll(order[1..], of);
    }
  }

  lemma {:induction false} RemainingLess(order: seq<string>, of: map<string, seq<real>>, k: string)
    ensures Without(Remaining(order, of), k) == Remaining(order, of - {k})
    decreases |order|
  {
    if order != [] {
      RemainingLess(order[1..], of, k);
      var r := Remaining(order[1..], of);
      if order[0] in of {
        assert Remaining(order, of) == [order[0]] + r && ([order[0]] + r)[1..] == r;
      } else {
        assert Remaining(order, of) == r;
      }
    }
  }

  lemma {:induction false} RemainingSame(order: seq<string>, a: map<string, seq<real>>, b: map<string, seq<real>>)
    requires a.Keys == b.Keys
    ensures Remaining(order, a) == Remaining(order, b)
    decreases |order|
  {
    if order != [] { RemainingSame(order[1..], a, b); }
  }

  lemma SweptValid(d: Buckets, keys: seq<string>, cutoff: real)
    requires Valid(d)
    ensures Valid(Swept(d, keys, cutoff))
  {
    RemainingTells(d.order, SweptMap(d.of, keys, cutoff));
  }

  /** A sweep prunes the buckets of the keys it visits and changes no other bucket. */
  lemma SweptTells(d: Buckets, keys: seq<string>, cutoff: real)
    requires Valid(d)
    ensures forall k :: Bucket(Swept(d, keys, cutoff), k) ==
                        if k in keys then Prune(Bucket(d, k), cutoff) else Bucket(d, k)
  {
  }

  /** One more visited key. */
  lemma SweptOneMore(d: Buckets, keys: seq<string>, k: string, cutoff: real)
    requires Valid(d) && k in d.of && k !in keys
    ensures k in Swept(d, keys, cutoff).of
    ensures SweptKey(Swept(d, keys, cutoff), k, cutoff) == Swept(d, keys + [k], cutoff)
  {
    hide Prune, Remaining, Without;
    SweptMapOneMore(d.of, keys, k, cutoff);
    var before, after := SweptMap(d.of, keys, cutoff), SweptMap(d.of, keys + [k], cutoff);
    if Prune(d.of[k], cutoff) == [] {
      RemainingLess(d.order, before, k);
    } else {
      RemainingSame(d.order, before, after);
    }
  }

  lemma SweptMapOneMore(of: map<string, seq<real>>, keys: seq<string>, k: string, cutoff: real)
    requires k in of && k !in keys
    ensures var before, after := SweptMap(of, keys, cutoff), SweptMap(of, keys + [k], cutoff);
            var kept := Prune(of[k], cutoff);
            && k in before && before[k] == of[k]
            && after == if kept == [] then before - {k} else before[k := kept]
  {
    hide Prune;
    assert forall x :: x in keys + [k] <==> x in keys || x == k;
  }

  lemma {:induction false} TrimmedTells(d: Buckets)
    requires Valid(d)
    ensures Valid(Trimmed(d)) && |Trimmed(d).of| <= RATE_MAP_MAX_KEYS
    ensures forall k :: k in Trimmed(d).of ==> k in d.of && Trimmed(d).of[k] == d.of[k]
    ensures |d.of| <= RATE_MAP_MAX_KEYS ==> Trimmed(d) == d
    decreases |d.order|
  {
    SizeIsOrder(d);
    if |d.of| > RATE_MAP_MAX_KEYS {
      WithoutTells(d.order, d.order[0]);
      DropValid(d, d.order[0]);
      TrimmedTells(Drop(d, d.order[0]));
    }
  }

  lemma {:induction false} WithoutFirst(order: seq<string>)
    requires order != [] && forall i, j :: 0 <= i < j < |order| ==> order[i] != order[j]
    ensures Without(order, order[0]) == order[1..]
  {
    WithoutAbsent(order[1..], order[0]);
  }

  lemma {:induction false} WithoutAbsent(order: seq<string>, k: string)
    requires k !in order
    ensures Without(order, k) == order
    decreases |order|
  {
    if order != [] { WithoutAbsent(order[1..], k); }
  }

  /** Trimming keeps the newest 1024 keys, or all if there are no more. */
  lemma {:induction false} TrimmedKeepsNewest(d: Buckets)
    requires Valid(d)
    ensures Trimmed(d).order == d.order[|d.order| - Min(|d.order|, 1024)..]
    decreases |d.order|
  {
    hide Trimmed, Drop, Valid;
    if |d.order| > 1024 {
      TrimmedNext(d);
      TrimmedKeepsNewest(Drop(d, d.order[0]));
      NewestOfRest(d.order);
    } else {
      TrimmedWhole(d);
      AllOfOrder(d.order);
    }
  }

  lemma TrimmedNext(d: Buckets)
    requires Valid(d) && |d.order| > 1024
    ensures var next := Drop(d, d.order[0]); Valid(next) && next.order == d.order[1..] && Trimmed(d) == Trimmed(next)
  {
    hide Without;
    SizeIsOrder(d);
    WithoutFirst(d.order);
    DropValid(d, d.order[0]);
  }

  lemma TrimmedWhole(d: Buckets)
    requires Valid(d) && |d.order| <= 1024
    ensures Trimmed(d) == d
  {
    SizeIsOrder(d);
  }

  lemma AllOfOrder(order: seq<string>)
    ensures order[|order| - |order|..] == order
  {
  }

  lemma NewestOfRest(order: seq<string>)
    requires |order| > 1024
    ensures var rest := order[1..]; rest[|rest| - Min(|rest|, 1024)..] == order[|order| - 1024..]
  {
  }

  /** A sweep keeps the order of the keys, and of the keys it visits exactly those with a
      timestamp after the cutoff. */
  lemma {:induction false} SweptKeepsOrder(d: Buckets, keys: seq<string>, cutoff: real) returns (picks: seq<nat>)
    requires Valid(d)
    ensures var r := Swept(d, keys, cutoff);
            && Rising(picks) && |picks| == |r.order|
            && (forall i :: 0 <= i < |picks| ==> picks[i] < |d.order| && r.order[i] == d.order[picks[i]])
            && forall k :: k in r.of <==> k in d.of && (k in keys ==> exists i :: 0 <= i < |d.of[k]| && d.of[k][i] > cutoff)
  {
    hide Prune, Remaining;
    picks := RemainingPicks(d.order, SweptMap(d.of, keys, cutoff));
    forall k | k in d.of ensures Prune(d.of[k], cutoff) != [] <==> exists i :: 0 <= i < |d.of[k]| && d.of[k][i] > cutoff {
      PruneEmptyIff(d.of[k], cutoff);
    }
  }

  lemma {:induction false} PruneEmptyIff(s: seq<real>, cutoff: real)
    ensures Prune(s, cutoff) != [] <==> exists i :: 0 <= i < |s| && s[i] > cutoff
    decreases |s|
  {
    if s != [] {
      PruneEmptyIff(s[1..], cutoff);
      assert forall i :: 0 < i < |s| ==> s[i] == s[1..][i - 1];
      if i :| 0 <= i < |s[1..]| && s[1..][i] > cutoff {
        assert s[i + 1] > cutoff;
      }
    }
  }

  lemma {:induction false} RemainingPicks(order: seq<string>, of: map<string, seq<real>>) returns (picks: seq<nat>)
    ensures Rising(picks) && |picks| == |Remaining(order, of)|
    ensures forall i :: 0 <= i < |picks| ==> picks[i] < |order| && Remaining(order, of)[i] == order[picks[i]]
    decreases |order|
  {
    if order == [] {
      picks := [];
    } else {
      var rest := RemainingPicks(order[1..], of);
      var moved := Later(rest);
      var r := Remaining(order[1..], of);
      forall i | 0 <= i < |moved| ensures order[moved[i]] == r[i] {
        assert order[moved[i]] == order[1..][rest[i]];
      }
      picks := if order[0] in of then [0] + moved else moved;
      assert Remaining(order, of) == if order[0] in of then [order[0]] + r else r;
    }
  }

  ghost function Later(picks: seq<nat>): (r: seq<nat>)
    ensures |r| == |picks| && forall i :: 0 <= i < |r| ==> r[i] == picks[i] + 1
    ensures Rising(picks) ==> Rising(r) && Rising([0] + r)
  {
    seq(|picks|, i requires 0 <= i < |picks| => picks[i] + 1)
  }

  // ----- admission -----------------------------------------------------------------------

  function HellosFitted(d: Buckets, cutoff: real): Buckets {
    if |d.of| > RATE_MAP_MAX_KEYS then Trimmed(Swept(d, d.order, cutoff)) else d
  }

  function ConnectsFitted(d: Buckets, cutoff: real): Buckets {
    if |d.of| > RATE_MAP_MAX_KEYS then Swept(d, FirstKeys(d.order), cutoff) else d
  }

  ghost function HelloAdmitted(c: Config, r: Rates, ip: string, now: real): (Rates, bool) {
    var cutoff := now - c.helloWindow;
    var bucket := Prune(Bucket(r.hellos, ip), cutoff);
    if |bucket| >= c.helloLimit then (r, false)
    else
      var put := Put(r.hellos, ip, bucket + [now]);
      (r.(hellos := HellosFitted(put, cutoff)), true)
  }

  lemma FirstKeysTell(d: Buckets)
    requires Valid(d)
    ensures var keys := FirstKeys(d.order);
            && (forall i, j :: 0 <= i < j < |keys| ==> keys[i] != keys[j])
            && (forall k :: k in keys ==> k in d.of)
  {
    assert forall k :: k in FirstKeys(d.order) ==> k in d.order;
  }

  function FirstKeys(order: seq<string>): seq<string> {
    if |order| <= RATE_MAP_MAX_KEYS then order else order[..RATE_MAP_MAX_KEYS]
  }

  ghost function ConnectAdmitted(c: Config, r: Rates, id: string, now: real): (Rates, bool) {
    var cutoff := now - c.rateWindow;
    var bucket := Prune(Bucket(r.connects, id), cutoff);
    if |bucket| >= c.rateLimit then (r, false)
    else (r.(connects := ConnectsFitted(Put(r.connects, id, bucket + [now]), cutoff)), true)
  }

  ghost function PhoneAdmitted(c: Config, h: Hub, r: Rates, id: string, now: real): (Rates, Option<Refusal>) {
    if |h.phones| >= c.maxPhones || CountOf(h.perDesktop, id) >= c.maxPhonesPerDesktop then (r, Some(Busy))
    else
      var (r', ok) := ConnectAdmitted(c, r, id, now);
      (r', if ok then None else Some(RateLimited))
  }

  ghost function DesktopAdmitted(c: Config, h: Hub, r: Rates, token: Option<string>, now: real): (Rates, Option<Refusal>) {
    if c.openMode then
      if |h.desktops| >= c.maxDesktops then (r, Some(Busy))
      else
        var regs := LastN(Prune(r.regs, now - c.regWindow), c.regLimit);
        if |regs| >= c.regLimit then (r.(regs := regs), Some(RateLimited))
        else (r.(regs := regs + [now]), None)
    else if c.token == "" || token != Some(c.token) then (r, Some(Unauthorized))
    else (r, None)
  }

  // ----- what the buckets remember ---------------------------------------------------------

  type LogMap = map<string, seq<real>>

  /** Every admission there ever was, and the addresses whose live bucket an overflowing
      hello map threw away. */
  datatype Logs = Logs(connects: LogMap, regs: seq<real>, hellos: LogMap, forgotten: set<string>)

  ghost function LogOf(m: LogMap, k: string): seq<real> {
    if k in m then m[k] else []
  }

  ghost function Logged(m: LogMap, k: string, t: real): LogMap {
    m[k := LogOf(m, k) + [t]]
  }

  ghost predicate Tracks(bucket: seq<real>, log: seq<real>, window: real, limit: nat, clock: real) {
    Ascending(log) && UpTo(log, clock) && Spread(log, window, limit) && Remembers(bucket, log, clock - window)
  }

  ghost predicate KeyTracked(d: Buckets, logs: LogMap, k: string, window: real, limit: nat, clock: real) {
    Tracks(Bucket(d, k), LogOf(logs, k), window, limit, clock)
  }

  /** Every key's bucket tracks its log, save for the keys in `lost`. */
  ghost predicate AllTracked(d: Buckets, logs: LogMap, lost: set<string>, window: real, limit: nat, clock: real) {
    Valid(d) && forall k {:trigger KeyTracked(d, logs, k, window, limit, clock)} ::
      k !in lost ==> KeyTracked(d, logs, k, window, limit, clock)
  }

  ghost const NothingLost: set<string> := {}

  ghost predicate ConnectsTracked(c: Config, r: Rates, l: Logs, clock: real) {
    AllTracked(r.connects, l.connects, NothingLost, c.rateWindow, c.rateLimit, clock)
  }

  ghost predicate RegsTracked(c: Config, r: Rates, l: Logs, clock: real) {
    |r.regs| <= c.regLimit && Tracks(r.regs, l.regs, c.regWindow, c.regLimit, clock)
  }

  ghost predicate HellosTracked(c: Config, r: Rates, l: Logs, clock: real) {
    && |r.hellos.of| <= RATE_MAP_MAX_KEYS
    && AllTracked(r.hellos, l.hellos, l.forgotten, c.helloWindow, c.helloLimit, clock)
  }

  ghost predicate RateInv(c: Config, r: Rates, l: Logs, clock: real) {
    ConnectsTracked(c, r, l, clock) && RegsTracked(c, r, l, clock) && HellosTracked(c, r, l, clock)
  }

  lemma TracksLater(bucket: seq<real>, log: seq<real>, window: real, limit: nat, clock: real, now: real)
    requires Tracks(bucket, log, window, limit, clock) && clock <= now
    ensures Tracks(bucket, log, window, limit, now)
  {
    UpToLater(log, clock, now);
    RememberLater(bucket, log, clock - window, now - window);
  }

  /** The limiter's step: it prunes to exactly the admissions of the window that ends now,
      refuses iff they have reached the limit, and stays true when it admits. */
  lemma {:induction false} TracksStep(bucket: seq<real>, log: seq<real>, window: real, limit: nat, clock: real, now: real)
    requires limit > 0 && window > 0.0 && clock <= now
    requires Tracks(bucket, log, window, limit, clock)
    ensures Prune(bucket, now - window) == Recent(log, now - window)
    ensures Tracks(Prune(bucket, now - window), log, window, limit, now)
    ensures |Prune(bucket, now - window)| < limit ==>
              Tracks(Prune(bucket, now - window) + [now], log + [now], window, limit, now)
  {
    hide Prune;
    TracksLater(bucket, log, window, limit, clock, now);
    PruneRemembers(bucket, log, now - window, now - window);
    if |Prune(bucket, now - window)| < limit {
      AdmitKeeps(Prune(bucket, now - window), log, now, window, limit);
    }
  }

  lemma TimePasses(c: Config, r: Rates, l: Logs, clock: real, now: real)
    requires RateInv(c, r, l, clock) && clock <= now
    ensures RateInv(c, r, l, now)
  {
    AllTrackedLater(r.connects, l.connects, NothingLost, c.rateWindow, c.rateLimit, clock, now);
    AllTrackedLater(r.hellos, l.hellos, l.forgotten, c.helloWindow, c.helloLimit, clock, now);
    TracksLater(r.regs, l.regs, c.regWindow, c.regLimit, clock, now);
  }

  lemma AllTrackedLater(d: Buckets, logs: LogMap, lost: set<string>, window: real, limit: nat, clock: real, now: real)
    requires AllTracked(d, logs, lost, window, limit, clock) && clock <= now
    ensures AllTracked(d, logs, lost, window, limit, now)
  {
    forall k | k !in lost ensures KeyTracked(d, logs, k, window, limit, now) {
      assert KeyTracked(d, logs, k, window, limit, clock);
      TracksLater(Bucket(d, k), LogOf(logs, k), window, limit, clock, now);
    }
  }

  lemma KeyPut(d: Buckets, logs: LogMap, window: real, limit: nat, k: string, x: string, now: real)
    requires limit > 0 && window > 0.0 && KeyTracked(d, logs, x, window, limit, now)
    requires |Prune(Bucket(d, k), now - window)| < limit
    ensures KeyTracked(Put(d, k, Prune(Bucket(d, k), now - window) + [now]), Logged(logs, k, now), x, window, limit, now)
  {
    if x == k {
      TracksStep(Bucket(d, k), LogOf(logs, k), window, limit, now, now);
    }
  }

  lemma PutTracked(d: Buckets, logs: LogMap, lost: set<string>, window: real, limit: nat, k: string, now: real)
    requires limit > 0 && window > 0.0 && AllTracked(d, logs, lost, window, limit, now)
    requires |Prune(Bucket(d, k), now - window)| < limit
    ensures AllTracked(Put(d, k, Prune(Bucket(d, k), now - window) + [now]), Logged(logs, k, now), lost, window, limit, now)
  {
    var bucket := Prune(Bucket(d, k), now - window) + [now];
    PutValid(d, k, bucket);
    var put, logs' := Put(d, k, bucket), Logged(logs, k, now);
    forall x | x !in lost ensures KeyTracked(put, logs', x, window, limit, now) {
      assert KeyTracked(d, logs, x, window, limit, now);
      KeyPut(d, logs, window, limit, k, x, now);
    }
  }

  lemma KeySwept(d: Buckets, keys: seq<string>, logs: LogMap, window: real, limit: nat, k: string, now: real)
    requires Valid(d) && limit > 0 && window > 0.0 && KeyTracked(d, logs, k, window, limit, now)
    ensures KeyTracked(Swept(d, keys, now - window), logs, k, window, limit, now)
  {
    SweptTells(d, keys, now - window);
    TracksStep(Bucket(d, k), LogOf(logs, k), window, limit, now, now);
  }

  /** Sweeping forgets nothing that still counts. */
  lemma SweptTracked(d: Buckets, keys: seq<string>, logs: LogMap, lost: set<string>, window: real, limit: nat, now: real)
    requires limit > 0 && window > 0.0 && AllTracked(d, logs, lost, window, limit, now)
    ensures AllTracked(Swept(d, keys, now - window), logs, lost, window, limit, now)
  {
    hide Prune, SweptMap, Remaining;
    SweptValid(d, keys, now - window);
    var swept := Swept(d, keys, now - window);
    forall k | k !in lost ensures KeyTracked(swept, logs, k, window, limit, now) {
      assert KeyTracked(d, logs, k, window, limit, now);
      KeySwept(d, keys, logs, window, limit, k, now);
    }
  }

  /** Trimming loses the keys it throws out and no others. */
  lemma {:induction false} TrimmedTracked(d: Buckets, logs: LogMap, lost: set<string>, window: real, limit: nat, now: real)
    requires AllTracked(d, logs, lost, window, limit, now)
    ensures AllTracked(Trimmed(d), logs, lost + (d.of.Keys - Trimmed(d).of.Keys), window, limit, now)
  {
    TrimmedTells(d);
    var trimmed := Trimmed(d);
    forall k | k !in lost + (d.of.Keys - trimmed.of.Keys) ensures KeyTracked(trimmed, logs, k, window, limit, now) {
      assert KeyTracked(d, logs, k, window, limit, now);
      assert Bucket(Trimmed(d), k) == Bucket(d, k);
    }
  }

  /** A tracked bucket, pruned, is exactly the admissions of the window that ends now. */
  lemma PrunedIsRecent(d: Buckets, logs: LogMap, lost: set<string>, window: real, limit: nat, k: string, now: real)
    requires limit > 0 && window > 0.0 && AllTracked(d, logs, lost, window, limit, now) && k !in lost
    ensures Prune(Bucket(d, k), now - window) == Recent(LogOf(logs, k), now - window)
  {
    assert KeyTracked(d, logs, k, window, limit, now);
    TracksStep(Bucket(d, k), LogOf(logs, k), window, limit, now, now);
  }

  /** Admitting a phone, sweep included: no bucket forgets a connect that still counts. */
  lemma {:induction false} ConnectAdmission(c: Config, r: Rates, l: Logs, id: string, now: real)
    requires ValidConfig(c) && ConnectsTracked(c, r, l, now)
    ensures var (r', ok) := ConnectAdmitted(c, r, id, now);
            && r'.regs == r.regs && r'.hellos == r.hellos && (!ok ==> r' == r)
            && ConnectsTracked(c, r', if ok then l.(connects := Logged(l.connects, id, now)) else l, now)
  {
    hide Prune, SweptMap, Remaining, AllTracked, ConnectsFitted, Put, Logged;
    var window, d := c.rateWindow, r.connects;
    var bucket := Prune(Bucket(d, id), now - window);
    var (r', ok) := ConnectAdmitted(c, r, id, now);
    if ok {
      var logs := Logged(l.connects, id, now);
      assert AllTracked(r'.connects, logs, NothingLost, window, c.rateLimit, now) by {
        NotedThenSwept(d, l.connects, NothingLost, window, c.rateLimit, id, now);
      }
    } else {
      assert r' == r;
    }
  }

  /** A phone is refused for rate iff the connects of the last window have reached the
      limit, and for being busy iff one of the two caps is reached. */
  lemma PhoneRefusal(c: Config, h: Hub, r: Rates, l: Logs, id: string, now: real)
    requires ValidConfig(c) && ConnectsTracked(c, r, l, now)
    ensures var e := PhoneAdmitted(c, h, r, id, now).1;
            var full := |h.phones| >= c.maxPhones || CountOf(h.perDesktop, id) >= c.maxPhonesPerDesktop;
            var recent := |Recent(LogOf(l.connects, id), now - c.rateWindow)|;
            && (e == Some(Busy) <==> full)
            && (e == Some(RateLimited) <==> !full && recent >= c.rateLimit)
            && (e == None <==> !full && recent < c.rateLimit)
  {
    PrunedIsRecent(r.connects, l.connects, NothingLost, c.rateWindow, c.rateLimit, id, now);
  }

  /** Noting an admission, then the phone map's way of fitting. */
  lemma {:induction false} NotedThenSwept(d: Buckets, logs: LogMap, lost: set<string>, window: real, limit: nat, k: string, now: real)
    requires limit > 0 && window > 0.0 && AllTracked(d, logs, lost, window, limit, now)
    requires |Prune(Bucket(d, k), now - window)| < limit
    ensures var put := Put(d, k, Prune(Bucket(d, k), now - window) + [now]);
            AllTracked(ConnectsFitted(put, now - window), Logged(logs, k, now), lost, window, limit, now)
  {
    PutTracked(d, logs, lost, window, limit, k, now);
    var put := Put(d, k, Prune(Bucket(d, k), now - window) + [now]);
    if |put.of| > RATE_MAP_MAX_KEYS {
      SweptTracked(put, FirstKeys(put.order), Logged(logs, k, now), lost, window, limit, now);
    }
  }

  /** Noting an admission, then the hello map's way of fitting. */
  lemma {:induction false} NotedThenTrimmed(d: Buckets, logs: LogMap, lost: set<string>, window: real, limit: nat, k: string, now: real)
    requires limit > 0 && window > 0.0 && AllTracked(d, logs, lost, window, limit, now)
    requires |Prune(Bucket(d, k), now - window)| < limit
    ensures var put := Put(d, k, Prune(Bucket(d, k), now - window) + [now]);
            var fitted := HellosFitted(put, now - window);
            && |fitted.of| <= RATE_MAP_MAX_KEYS
            && AllTracked(fitted, Logged(logs, k, now), lost + Overflowed(put, now - window), window, limit, now)
  {
    PutTracked(d, logs, lost, window, limit, k, now);
    var put := Put(d, k, Prune(Bucket(d, k), now - window) + [now]);
    var logs' := Logged(logs, k, now);
    if |put.of| > RATE_MAP_MAX_KEYS {
      SweptTracked(put, put.order, logs', lost, window, limit, now);
      var swept := Swept(put, put.order, now - window);
      TrimmedTracked(swept, logs', lost, window, limit, now);
      TrimmedTells(swept);
    } else {
      assert lost + {} == lost;
    }
  }

  lemma DesktopAdmission(c: Config, h: Hub, r: Rates, l: Logs, token: Option<string>, now: real)
    requires ValidConfig(c) && RegsTracked(c, r, l, now)
    ensures var (r', e) := DesktopAdmitted(c, h, r, token, now);
            && RegsTracked(c, r', if e == None && c.openMode then l.(regs := l.regs + [now]) else l, now)
            && (c.openMode && e == None ==> |h.desktops| < c.maxDesktops)
            && (!c.openMode ==> (e == None <==> c.token != "" && token == Some(c.token)))
  {
    hide Prune;
    if c.openMode {
      TracksStep(r.regs, l.regs, c.regWindow, c.regLimit, now, now);
    }
  }

  /** The keys whose bucket was still live when an overflow threw it out. */
  ghost function Overflowed(put: Buckets, cutoff: real): set<string> {
    var swept := Swept(put, put.order, cutoff);
    if |put.of| > RATE_MAP_MAX_KEYS then swept.of.Keys - Trimmed(swept).of.Keys else {}
  }

  ghost function HelloLogged(c: Config, r: Rates, l: Logs, ip: string, now: real): Logs {
    var cutoff := now - c.helloWindow;
    var put := Put(r.hellos, ip, Prune(Bucket(r.hellos, ip), cutoff) + [now]);
    l.(hellos := Logged(l.hellos, ip, now), forgotten := l.forgotten + Overflowed(put, cutoff))
  }

  /** The hello map always fits, and only an overflow makes it forget a live address. */
  lemma {:induction false} HelloAdmission(c: Config, r: Rates, l: Logs, ip: string, now: real)
    requires ValidConfig(c) && HellosTracked(c, r, l, now)
    ensures var (r', ok) := HelloAdmitted(c, r, ip, now);
            && (!ok ==> r' == r)
            && (ok ==> HellosTracked(c, r', HelloLogged(c, r, l, ip, now), now))
  {
    hide Prune, HellosFitted, Overflowed, AllTracked;
    if HelloAdmitted(c, r, ip, now).1 {
      var d, window := r.hellos, c.helloWindow;
      var put := Put(d, ip, Prune(Bucket(d, ip), now - window) + [now]);
      var fitted := HellosFitted(put, now - window);
      assert HelloAdmitted(c, r, ip, now).0.hellos == fitted;
      NotedThenTrimmed(d, l.hellos, l.forgotten, window, c.helloLimit, ip, now);
    }
  }

  /** An address that no overflow has thrown out is refused iff its hellos of the last
      window have reached the limit. */
  lemma HelloRefusal(c: Config, r: Rates, l: Logs, ip: string, now: real)
    requires ValidConfig(c) && HellosTracked(c, r, l, now) && ip !in l.forgotten
    ensures HelloAdmitted(c, r, ip, now).1 <==> |Recent(LogOf(l.hellos, ip), now - c.helloWindow)| < c.helloLimit
  {
    PrunedIsRecent(r.hellos, l.hellos, l.forgotten, c.helloWindow, c.helloLimit, ip, now);
  }
}

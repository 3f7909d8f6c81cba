/** The process-wide unlock throttle of account.py: one derivation slot and an
    exponential failure backoff.  The class has the source's fields and methods; the
    functions below it are what the methods are proved against, and the lemmas are
    about every interleaving of credential attempts. */
module UnlockThrottle {
  import opened Prelude

  const FREE_FAILURES: nat := 5
  const BACKOFF_BASE_S: real := 1.0
  const BACKOFF_MAX_S: real := 300.0
  const MAX_COUNTED_FAILURES: nat := 64
  const UNLOCK_SLOTS: int := 1

  function Pow2(n: nat): (p: nat)
    ensures p >= 1
  {
    if n == 0 then 1 else 2 * Pow2(n - 1)
  }

  /** The delay that the f-th counted failure puts before the next attempt. */
  function Delay(failures: nat): (d: real)
    ensures 0.0 <= d <= BACKOFF_MAX_S
  {
    if failures < FREE_FAILURES then 0.0
    else
      var d := BACKOFF_BASE_S * Pow2(failures - FREE_FAILURES) as real;
      if d <= BACKOFF_MAX_S then d else BACKOFF_MAX_S
  }

  /** math.ceil over the reals, clipped below at zero. */
  function CeilAtZero(x: real): (n: nat)
    ensures x <= n as real
    ensures n > 0 ==> (n - 1) as real < x
  {
    var c := -((-x).Floor);
    if c < 0 then 0 else c
  }

  datatype Throttle = Throttle(failures: nat, notBefore: real)

  function Wait(t: Throttle, now: real): nat {
    CeilAtZero(t.notBefore - now)
  }

  function Recorded(t: Throttle, ok: bool, now: real): Throttle {
    if ok then Throttle(0, 0.0)
    else
      var f := Min(t.failures + 1, MAX_COUNTED_FAILURES);
      Throttle(f, if f >= FREE_FAILURES then now + Delay(f) else t.notBefore)
  }

  /** What one credential attempt meets at the door: the slot is taken (Retry-After 1),
      the backoff runs (Retry-After seconds), or the derivation may run. */
  datatype Admission = Busy | TooMany(seconds: nat) | Admitted

  /** How the guarded block ends.  Only a 401 is a failed guess; any other error is not
      recorded either way. */
  datatype Outcome = Passed | Wrong | OtherError

  class Guard {
    var slots: int
    var failures: nat
    var notBefore: real

    ghost function View(): Throttle
      reads this
    {
      Throttle(failures, notBefore)
    }

    constructor ()
      ensures slots == UNLOCK_SLOTS && View() == Throttle(0, 0.0)
    {
      slots := UNLOCK_SLOTS;
      failures := 0;
      notBefore := 0.0;
    }

    method RetryAfter(now: real) returns (seconds: nat)
      ensures seconds == Wait(View(), now)
    {
      var wait := notBefore - now;
      seconds := CeilAtZero(wait);
    }

    method Record(ok: bool, now: real)
      modifies this`failures, this`notBefore
      ensures View() == Recorded(old(View()), ok, now)
    {
      if ok {
        failures, notBefore := 0, 0.0;
        return;
      }
      failures := Min(failures + 1, MAX_COUNTED_FAILURES);
      if failures >= FREE_FAILURES {
        var delay := BACKOFF_BASE_S * Pow2(failures - FREE_FAILURES) as real;
        if delay > BACKOFF_MAX_S {
          delay := BACKOFF_MAX_S;
        }
        notBefore := now + delay;
      }
    }

    /** Entry of the credential attempt: take the slot without blocking, then read the
        backoff while holding it.  A refusal gives the slot back. */
    method Enter(now: real) returns (a: Admission)
      modifies this`slots
      ensures a == EnterResult(old(slots), View(), now)
      ensures slots == if a.Admitted? then old(slots) - 1 else old(slots)
    {
      if slots <= 0 {
        return Busy;
      }
      slots := slots - 1;
      var wait := RetryAfter(now);
      if wait > 0 {
        slots := slots + 1;
        return TooMany(wait);
      }
      return Admitted;
    }

    /** Exit of the credential attempt. */
    method Leave(o: Outcome, now: real)
      modifies this
      ensures slots == old(slots) + 1
      ensures View() == AfterAttempt(old(View()), o, now)
    {
      match o {
        case Passed => Record(true, now);
        case Wrong => Record(false, now);
        case OtherError =>
      }
      slots := slots + 1;
    }
  }

  function EnterResult(slots: int, t: Throttle, now: real): Admission {
    if slots <= 0 then Busy
    else if Wait(t, now) > 0 then TooMany(Wait(t, now))
    else Admitted
  }

  function AfterAttempt(t: Throttle, o: Outcome, now: real): Throttle {
    match o
    case Passed => Recorded(t, true, now)
    case Wrong => Recorded(t, false, now)
    case OtherError => t
  }

  // ----- every interleaving of attempts ---------------------------------------------

  datatype Event = Begin(who: nat, at: real) | End(who: nat, outcome: Outcome, at: real)

  /** `running` is the set of requests inside the guarded block; `log` the times of the
      failures recorded since the last success; `clock` the latest clock reading. */
  datatype State = State(slots: int, running: set<nat>, throttle: Throttle, log: seq<real>, clock: real)

  const Init := State(UNLOCK_SLOTS, {}, Throttle(0, 0.0), [], 0.0)

  /** The monotonic clock does not run backwards, and only a request inside the block
      can leave it. */
  predicate Enabled(s: State, e: Event) {
    && s.clock <= e.at
    && (e.Begin? ==> e.who !in s.running)
    && (e.End? ==> e.who in s.running)
  }

  function Step(s: State, e: Event): State
    requires Enabled(s, e)
  {
    match e
    case Begin(who, at) =>
      if EnterResult(s.slots, s.throttle, at).Admitted?
      then s.(slots := s.slots - 1, running := s.running + {who}, clock := at)
      else s.(clock := at)
    case End(who, o, at) =>
      State(s.slots + 1, s.running - {who}, AfterAttempt(s.throttle, o, at),
            match o case Passed => [] case Wrong => s.log + [at] case OtherError => s.log, at)
  }

  ghost predicate Possible(s: State, run: seq<Event>)
    decreases |run|
  {
    run == [] || (Enabled(s, run[0]) && Possible(Step(s, run[0]), run[1..]))
  }

  ghost function Final(s: State, run: seq<Event>): State
    requires Possible(s, run)
    decreases |run|
  {
    if run == [] then s else Final(Step(s, run[0]), run[1..])
  }

  /** Consecutive failures are as far apart as the delay of the earlier one. */
  ghost predicate Spaced(log: seq<real>) {
    forall i {:trigger log[i]} :: 0 <= i < |log| - 1 ==> log[i + 1] >= log[i] + Delay(Min(i + 1, MAX_COUNTED_FAILURES))
  }

  ghost predicate Inv(s: State) {
    && s.clock >= 0.0
    && s.slots + |s.running| == UNLOCK_SLOTS && s.slots >= 0
    && s.throttle.failures == Min(|s.log|, MAX_COUNTED_FAILURES)
    && Spaced(s.log)
    && (s.log == [] ==> s.throttle.notBefore == 0.0)
    && (s.log != [] ==> s.log[|s.log| - 1] <= s.clock)
    && (s.throttle.failures < FREE_FAILURES ==> s.throttle.notBefore == 0.0)
    && (s.throttle.failures >= FREE_FAILURES ==>
          s.throttle.notBefore == s.log[|s.log| - 1] + Delay(s.throttle.failures))
    && (s.running != {} ==> s.throttle.notBefore <= s.clock)
  }

  lemma SpacedLonger(log: seq<real>, at: real)
    requires Spaced(log) && log != [] && at >= log[|log| - 1] + Delay(Min(|log|, MAX_COUNTED_FAILURES))
    ensures Spaced(log + [at])
  {
    hide Delay;
    var t := log + [at];
    forall i {:trigger t[i]} | 0 <= i < |t| - 1 ensures t[i + 1] >= t[i] + Delay(Min(i + 1, MAX_COUNTED_FAILURES)) {
      assert t[i] == log[i];
    }
  }

  lemma StepKeepsInv(s: State, e: Event)
    requires Inv(s) && Enabled(s, e)
    ensures Inv(Step(s, e))
  {
    if e.Begin? {
      BeginKeepsInv(s, e);
    } else {
      OnlyRunner(s, e.who);
      EndKeepsInv(s, e);
    }
  }

  lemma BeginKeepsInv(s: State, e: Event)
    requires Inv(s) && Enabled(s, e) && e.Begin?
    ensures Inv(Step(s, e))
  {
    hide Pow2, Delay, Spaced;
  }

  lemma OnlyRunner(s: State, who: nat)
    requires Inv(s) && who in s.running
    ensures s.running == {who} && s.slots == 0
  {
    hide Spaced, Delay;
    assert |s.running - {who}| == |s.running| - 1;
  }

  lemma EndKeepsInv(s: State, e: Event)
    requires Inv(s) && Enabled(s, e) && e.End? && s.running == {e.who}
    ensures Inv(Step(s, e))
  {
    hide Pow2, Spaced;
    assert Step(s, e).running == {};
    assert Spaced([]) && Spaced([e.at]) by { ShortIsSpaced([]); ShortIsSpaced([e.at]); }
    if e.outcome.Wrong? {
      assert [] + [e.at] == [e.at];
      if s.log != [] {
        SpacedLonger(s.log, e.at);
      }
    }
  }

  lemma ShortIsSpaced(log: seq<real>)
    requires |log| <= 1
    ensures Spaced(log)
  {
  }

  lemma {:induction false} RunKeepsInv(s: State, run: seq<Event>)
    requires Inv(s) && Possible(s, run)
    ensures Inv(Final(s, run))
    decreases |run|
  {
    if run != [] {
      StepKeepsInv(s, run[0]);
      RunKeepsInv(Step(s, run[0]), run[1..]);
    }
  }

  /** In every run at most one derivation is in progress, and the slot is free exactly
      when none is. */
  lemma OneDerivationAtATime(run: seq<Event>)
    requires Possible(Init, run)
    ensures var s := Final(Init, run); |s.running| <= 1 && (s.slots == 1 <==> s.running == {})
  {
    RunKeepsInv(Init, run);
  }

  /** No delay before the fifth failure, one second then, twice the last one from there on, and
      never more than 300 seconds. */
  lemma DelayTells(f: nat)
    ensures f < 5 ==> Delay(f) == 0.0
    ensures Delay(5) == 1.0
    ensures f >= 5 ==> Delay(f + 1) == if 2.0 * Delay(f) <= 300.0 then 2.0 * Delay(f) else 300.0
  {
    if f >= 5 {
      assert Pow2(f + 1 - 5) == 2 * Pow2(f - 5);
    }
    assert Pow2(0) == 1;
  }

  /** What an attempt meets, in every run: a taken slot exactly while a derivation runs; else a
      wait exactly while the delay of the last of five or more failures in a row is not over,
      told in the least number of whole seconds that is enough; else it is let in. */
  lemma DoorVerdict(run: seq<Event>, at: real)
    requires Possible(Init, run) && Final(Init, run).clock <= at
    ensures var s := Final(Init, run);
            var n, a := |s.log|, EnterResult(s.slots, s.throttle, at);
            && (a == Busy <==> s.running != {})
            && (a == Admitted <==> s.running == {} && (n < 5 || at >= s.log[n - 1] + Delay(Min(n, 64))))
            && (a.TooMany? ==> n >= 5 && at + (a.seconds - 1) as real < s.log[n - 1] + Delay(Min(n, 64)) <= at + a.seconds as real)
  {
    hide Delay, Spaced, Pow2;
    RunKeepsInv(Init, run);
    var s := Final(Init, run);
    assert s.running != {} ==> |s.running| > 0;
  }

  // ----- the arithmetic bound ---------------------------------------------------------

  /** The least time n failures can span. */
  ghost function MinSpan(n: nat): real {
    if n <= 1 then 0.0 else MinSpan(n - 1) + Delay(Min(n - 1, MAX_COUNTED_FAILURES))
  }

  lemma {:induction false} DelayCapped(f: nat)
    requires f >= 14
    ensures Delay(f) == BACKOFF_MAX_S
    decreases f
  {
    if f == 14 {
      assert Pow2(9) == 512 by {
        assert Pow2(3) == 8;
        assert Pow2(6) == 64;
      }
    } else {
      DelayCapped(f - 1);
    }
  }

  /** Before the cap: the delays 1, 2, 4, ..., 256 add up to 2^(n-5) - 1. */
  lemma {:induction false} SpanBeforeCap(n: nat)
    requires 5 <= n <= 14
    ensures MinSpan(n) == (Pow2(n - 5) - 1) as real && Pow2(n - 5) <= 512
    decreases n
  {
    if n == 5 {
      assert MinSpan(2) == 0.0 && MinSpan(3) == 0.0 && MinSpan(4) == 0.0;
    } else {
      SpanBeforeCap(n - 1);
      assert n - 1 < 14;
      assert Pow2(n - 6) <= 256 by {
        PowMonotone(n - 6, 8);
        assert Pow2(4) == 16;
        assert Pow2(8) == 256;
      }
      assert Delay(n - 1) == Pow2(n - 6) as real;
    }
  }

  lemma {:induction false} PowMonotone(a: nat, b: nat)
    requires a <= b
    ensures Pow2(a) <= Pow2(b)
    decreases b - a
  {
    if a < b { PowMonotone(a, b - 1); }
  }

  lemma {:induction false} SpanAfterCap(n: nat)
    requires n >= 14
    ensures MinSpan(n) == 511.0 + 300.0 * (n - 14) as real
    decreases n
  {
    if n == 14 {
      SpanBeforeCap(14);
      assert Pow2(9) == 512 by {
        assert Pow2(3) == 8;
        assert Pow2(6) == 64;
      }
    } else {
      SpanAfterCap(n - 1);
      DelayCapped(Min(n - 1, MAX_COUNTED_FAILURES));
    }
  }

  lemma {:induction false} SpacedSpan(log: seq<real>, k: nat)
    requires Spaced(log) && 1 <= k <= |log|
    ensures log[k - 1] - log[0] >= MinSpan(k)
    decreases k
  {
    if k > 1 {
      SpacedSpan(log, k - 1);
      assert log[k - 2 + 1] >= log[k - 2] + Delay(Min(k - 2 + 1, MAX_COUNTED_FAILURES));
    }
  }

  /** n failures without a success between them span at least 511 + 300 (n - 14)
      seconds once n >= 14, and at least 2^(n-5) - 1 seconds before that. */
  lemma FailureSpan(run: seq<Event>)
    requires Possible(Init, run)
    ensures var log := Final(Init, run).log; var n := |log|;
            && (n >= 14 ==> log[n - 1] - log[0] >= 511.0 + 300.0 * (n - 14) as real)
            && (5 <= n <= 14 ==> log[n - 1] - log[0] >= (Pow2(n - 5) - 1) as real)
  {
    RunKeepsInv(Init, run);
    var log := Final(Init, run).log;
    var n := |log|;
    if n >= 5 {
      SpacedSpan(log, n);
      if n >= 14 { SpanAfterCap(n); }
      if n <= 14 { SpanBeforeCap(n); }
    }
  }

  /** Once the cap is reached, k further failures take at least 300 k seconds, wherever
      in the log they are taken: no window of 300 k seconds holds more than k + 1. */
  lemma GuessesInWindow(run: seq<Event>, i: nat, j: nat)
    requires Possible(Init, run)
    requires 13 <= i <= j < |Final(Init, run).log|
    ensures var log := Final(Init, run).log; log[j] - log[i] >= 300.0 * (j - i) as real
  {
    RunKeepsInv(Init, run);
    CappedSpacing(Final(Init, run).log, i, j);
  }

  lemma {:induction false} CappedSpacing(log: seq<real>, i: nat, j: nat)
    requires Spaced(log) && 13 <= i <= j < |log|
    ensures log[j] - log[i] >= 300.0 * (j - i) as real
    decreases j
  {
    if i < j {
      CappedSpacing(log, i, j - 1);
      DelayCapped(Min(j, MAX_COUNTED_FAILURES));
      assert log[j - 1 + 1] >= log[j - 1] + Delay(Min(j - 1 + 1, MAX_COUNTED_FAILURES));
    }
  }

  // ----- the bound is attained ----------------------------------------------------------

  /** The fastest guesser: every guess at the first instant it is let in. */
  ghost function Fastest(n: nat): seq<Event> {
    if n == 0 then [] else Fastest(n - 1) + [Begin(0, MinSpan(n)), End(0, Wrong, MinSpan(n))]
  }

  lemma {:induction false} PossibleAppend(s: State, a: seq<Event>, b: seq<Event>)
    requires Possible(s, a) && Possible(Final(s, a), b)
    ensures Possible(s, a + b) && Final(s, a + b) == Final(Final(s, a), b)
    decreases |a|
  {
    if a == [] {
      assert a + b == b;
    } else {
      assert (a + b)[0] == a[0] && (a + b)[1..] == a[1..] + b;
      PossibleAppend(Step(s, a[0]), a[1..], b);
    }
  }

  lemma GuessStep(s: State, at: real)
    requires Inv(s) && s.running == {} && s.clock <= at && s.throttle.notBefore <= at
    ensures var guess := [Begin(0, at), End(0, Wrong, at)];
            && Possible(s, guess)
            && Final(s, guess) == State(s.slots, {}, Recorded(s.throttle, false, at), s.log + [at], at)
  {
    var guess := [Begin(0, at), End(0, Wrong, at)];
    var mid := Step(s, guess[0]);
    assert mid.running == {0} && mid.slots == s.slots - 1;
    var end := Step(mid, guess[1]);
    assert end == State(s.slots, {}, Recorded(s.throttle, false, at), s.log + [at], at);
    assert guess[1..] == [guess[1]] && [guess[1]][1..] == [];
    assert Possible(end, []) && Final(end, []) == end;
    assert Possible(mid, [guess[1]]) && Final(mid, [guess[1]]) == end;
    assert Possible(s, guess) && Final(s, guess) == end;
  }

  lemma NobodyYet()
    ensures Inv(Init) && Possible(Init, []) && Final(Init, []) == Init && MinSpan(0) == 0.0
  {
  }

  /** The fastest guesser's next guess is admitted. */
  lemma FastestWaits(s: State, n: nat)
    requires n > 0 && Inv(s) && |s.log| == n - 1 && s.clock == MinSpan(n - 1)
    requires n >= 2 ==> s.log[n - 2] == MinSpan(n - 1)
    ensures s.clock <= MinSpan(n) && s.throttle.notBefore <= MinSpan(n) && MinSpan(1) == 0.0
  {
    hide Pow2, Spaced;
    assert n >= 2 ==> MinSpan(n) == MinSpan(n - 1) + Delay(s.throttle.failures);
  }

  /** The bound of FailureSpan is exact for every n: the fastest guesser is a possible
      run, records n failures, and spans MinSpan(n). */
  lemma {:induction false} BoundAttained(n: nat)
    ensures Possible(Init, Fastest(n))
    ensures var s := Final(Init, Fastest(n));
            && |s.log| == n && s.running == {} && s.clock == MinSpan(n)
            && (n >= 1 ==> s.log[0] == 0.0 && s.log[n - 1] == MinSpan(n))
            && (n >= 14 ==> s.log[n - 1] - s.log[0] == 511.0 + 300.0 * (n - 14) as real)
    decreases n
  {
    hide Pow2, Delay, MinSpan, Inv, Enabled, Recorded, Possible, Final;
    NobodyYet();
    if n > 0 {
      BoundAttained(n - 1);
      RunKeepsInv(Init, Fastest(n - 1));
      var s := Final(Init, Fastest(n - 1));
      var at := MinSpan(n);
      FastestWaits(s, n);
      GuessStep(s, at);
      PossibleAppend(Init, Fastest(n - 1), [Begin(0, at), End(0, Wrong, at)]);
      if n >= 14 { SpanAfterCap(n); }
    }
  }

  // ----- never a permanent lockout ---------------------------------------------------

  /** No wait handed out ever exceeds 300 seconds (the assertion in retry_after never
      fires), and a credential offered 300 seconds after the last failure with the slot
      free is let in. */
  lemma NeverLockedOut(run: seq<Event>, who: nat, now: real)
    requires Possible(Init, run)
    requires Enabled(Final(Init, run), Begin(who, now))
    ensures var s := Final(Init, run);
            && s.throttle.notBefore - now <= BACKOFF_MAX_S && Wait(s.throttle, now) <= 300
            && ((s.running == {} && (s.log == [] || now >= s.log[|s.log| - 1] + BACKOFF_MAX_S)) ==>
                  EnterResult(s.slots, s.throttle, now) == Admitted)
  {
    RunKeepsInv(Init, run);
  }
}

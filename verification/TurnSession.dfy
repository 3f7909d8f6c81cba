/** One CLI session for one agent turn (app/smartbrain_3000/claudecli.py: TurnSession,
    chat_stream, _try_resume): which messages each call hands to the session. */
module TurnSession {
  import opened Prelude
  import opened Transcript
  import opened Conversation

  /** How a CLI process ended: normally, before its first chunk, or after some of its output
      had already reached the caller. */
  datatype Outcome = Completes | FailsEarly | FailsMidway

  /** `--no-session-persistence`, `--session-id` and `--resume`. */
  datatype Mode = Stateless | Opened | Resumed

  /** One CLI process: the positions its prompt carries, and the prompt. */
  datatype Run = Run(mode: Mode, carried: seq<nat>, prompt: Text, outcome: Outcome)

  datatype State = State(sent: nat, active: bool)

  /** One call of chat_stream: the whole message list, and how a resumed and a fresh process
      would end. */
  datatype Request = Request(ms: seq<Msg>, closing: Text, tools: Text, resume: Outcome, full: Outcome)

  /** `ok` is false when the call raises. */
  datatype Reply = Reply(state: State, runs: seq<Run>, ok: bool)

  function NewDelta(ms: seq<Msg>, sent: nat): seq<nat> {
    if sent <= |ms| then Delta(ms, sent) else []
  }

  function ResumeRun(ch: Chars, s: State, q: Request): Run
    requires s.sent <= |q.ms|
  {
    Run(Resumed, Delta(q.ms, s.sent), DeltaText(ch, q.ms, s.sent), q.resume)
  }

  function FullRun(ch: Chars, s: State, q: Request): Run {
    Run(if s.active then Opened else Stateless, Kept(q.ms), Flattened(ch, q.ms, q.closing, q.tools), q.full)
  }

  function FullCall(ch: Chars, s: State, q: Request): Reply {
    var run := FullRun(ch, s, q);
    var done := q.full.Completes?;
    Reply(if done && s.active then s.(sent := |q.ms|) else s, [run], done)
  }

  function Call(ch: Chars, s: State, q: Request): Reply {
    if s.active && s.sent > 0 && NewDelta(q.ms, s.sent) != [] then
      var run := ResumeRun(ch, s, q);
      match q.resume
      case Completes => Reply(s.(sent := |q.ms|), [run], true)
      case FailsMidway => Reply(s, [run], false)
      case FailsEarly =>
        var rest := FullCall(ch, s.(active := false), q);
        Reply(rest.state, [run] + rest.runs, rest.ok)
    else FullCall(ch, s, q)
  }

  class Session {
    var sentCount: nat
    var active: bool
    var closed: bool

    ghost predicate Valid() reads this {
      closed ==> !active
    }

    ghost function View(): State reads this {
      State(sentCount, active)
    }

    constructor ()
      ensures Valid() && View() == State(0, true) && !closed
    {
      sentCount, active, closed := 0, true, false;
    }

    method Disable()
      requires Valid() && !closed && active
      modifies this`active
      ensures Valid() && View() == old(View()).(active := false)
    {
      active := false;
    }

    method Close()
      requires Valid()
      modifies this`active, this`closed
      ensures Valid() && closed && View() == old(View()).(active := false)
    {
      if !closed {
        closed, active := true, false;
      }
    }

    /** Raises by returning ok == false; `yielded` says that the stream was produced. */
    method TryResume(ch: Chars, q: Request) returns (ok: bool, yielded: bool, runs: seq<Run>)
      requires Valid() && active && sentCount > 0
      modifies this`sentCount, this`active
      ensures Valid()
      ensures var s := old(View());
              if NewDelta(q.ms, s.sent) == [] then ok && !yielded && runs == [] && View() == s
              else
                && runs == [ResumeRun(ch, s, q)]
                && ok == !q.resume.FailsMidway? && yielded == q.resume.Completes?
                && View() == if q.resume.Completes? then s.(sent := |q.ms|)
                             else if q.resume.FailsEarly? then s.(active := false) else s
    {
      if sentCount > |q.ms| {
        return true, false, [];
      }
      var text := FlattenDelta(ch, q.ms, sentCount);
      DeltaTextEmpty(ch, q.ms, sentCount);
      if text == [] {
        return true, false, [];
      }
      runs := [Run(Resumed, Delta(q.ms, sentCount), text, q.resume)];
      if q.resume.Completes? {
        sentCount := |q.ms|;
        return true, true, runs;
      }
      if q.resume.FailsMidway? {
        return false, false, runs;
      }
      Disable();
      return true, false, runs;
    }

    method ChatStream(ch: Chars, q: Request) returns (ok: bool, runs: seq<Run>)
      requires Valid()
      modifies this`sentCount, this`active
      ensures Valid()
      ensures Reply(View(), runs, ok) == Call(ch, old(View()), q)
    {
      runs := [];
      if active && sentCount > 0 {
        var yielded;
        ok, yielded, runs := TryResume(ch, q);
        if !ok || yielded {
          return;
        }
      }
      var useSession := active;
      var prompt := Flatten(ch, q.ms, q.closing, q.tools);
      runs := runs + [Run(if useSession then Opened else Stateless, Kept(q.ms), prompt, q.full)];
      if !q.full.Completes? {
        return false, runs;
      }
      if useSession {
        sentCount := |q.ms|;
      }
      return true, runs;
    }
  }

  // ----- whole turns -----------------------------------------------------------------------------------

  function Runs(ch: Chars, s: State, qs: seq<Request>): seq<Run>
    decreases |qs|
  {
    if qs == [] then []
    else Runs(ch, s, qs[..|qs| - 1]) + Call(ch, After(ch, s, qs[..|qs| - 1]), qs[|qs| - 1]).runs
  }

  function After(ch: Chars, s: State, qs: seq<Request>): State
    decreases |qs|
  {
    if qs == [] then s else Call(ch, After(ch, s, qs[..|qs| - 1]), qs[|qs| - 1]).state
  }

  const Fresh := State(0, true)

  /** What a list of runs put into the session: a process that failed before its first chunk
      never took its prompt in. */
  function InSession(runs: seq<Run>): seq<nat> {
    if runs == [] then []
    else
      var last := runs[|runs| - 1];
      InSession(runs[..|runs| - 1]) + (if last.mode.Stateless? || last.outcome.FailsEarly? then [] else last.carried)
  }

  /** The user and tool messages among some positions. */
  function OnlySent(ms: seq<Msg>, at: seq<nat>): seq<nat> {
    if at == [] then []
    else
      var last := at[|at| - 1];
      OnlySent(ms, at[..|at| - 1]) + (if last < |ms| && Sent(ms[last]) then [last] else [])
  }

  /** Each list extends the one before, and none is longer than the cap. */
  ghost predicate AppendOnly(qs: seq<Request>) {
    && (forall i :: 0 <= i < |qs| ==> 0 < |qs[i].ms| <= MAX_MESSAGES)
    && (forall i, j :: 0 <= i < j < |qs| ==> qs[i].ms <= qs[j].ms)
  }

  /** The call puts into the session messages that it already holds. */
  predicate Redelivers(s: State, q: Request) {
    s.active && (if s.sent > 0 && NewDelta(q.ms, s.sent) != [] then q.resume.FailsMidway?
                 else if s.sent > 0 then !q.full.FailsEarly?
                 else q.full.FailsMidway?)
  }

  // ----- lists of positions ----------------------------------------------------------------------

  lemma {:induction false} InSessionSum(a: seq<Run>, b: seq<Run>)
    ensures InSession(a + b) == InSession(a) + InSession(b)
    decreases |b|
  {
    if b == [] {
      assert a + b == a;
    } else {
      assert (a + b)[..|a + b| - 1] == a + b[..|b| - 1];
      InSessionSum(a, b[..|b| - 1]);
    }
  }

  lemma {:induction false} OnlySentSum(ms: seq<Msg>, a: seq<nat>, b: seq<nat>)
    ensures OnlySent(ms, a + b) == OnlySent(ms, a) + OnlySent(ms, b)
    decreases |b|
  {
    if b == [] {
      assert a + b == a;
    } else {
      assert (a + b)[..|a + b| - 1] == a + b[..|b| - 1];
      OnlySentSum(ms, a, b[..|b| - 1]);
    }
  }

  lemma OnlySentOne(ms: seq<Msg>, x: nat)
    requires x < |ms|
    ensures OnlySent(ms, [x]) == if Sent(ms[x]) then [x] else []
  {
    assert [x][..0] == [];
  }

  lemma {:induction false} OnlySentOfSent(ms: seq<Msg>, a: nat, b: nat)
    requires a <= b <= |ms|
    ensures OnlySent(ms, SentIn(ms, a, b)) == SentIn(ms, a, b)
    decreases b
  {
    if a < b {
      OnlySentOfSent(ms, a, b - 1);
      OnlySentSum(ms, SentIn(ms, a, b - 1), if Sent(ms[b - 1]) then [b - 1] else []);
      OnlySentOne(ms, b - 1);
    }
  }

  lemma {:induction false} OnlySentOfNotSystem(ms: seq<Msg>, n: nat)
    requires n <= |ms|
    ensures OnlySent(ms, NotSystem(ms, n)) == SentIn(ms, 0, n)
    decreases n
  {
    if n > 0 {
      OnlySentOfNotSystem(ms, n - 1);
      OnlySentSum(ms, NotSystem(ms, n - 1), if ms[n - 1].role.System? then [] else [n - 1]);
      OnlySentOne(ms, n - 1);
    }
  }

  lemma {:induction false} NotSystemFits(ms: seq<Msg>, n: nat)
    requires n <= |ms|
    ensures |NotSystem(ms, n)| <= n
    decreases n
  {
    if n > 0 { NotSystemFits(ms, n - 1); }
  }

  lemma {:induction false} SentInSum(ms: seq<Msg>, a: nat, b: nat, c: nat)
    requires a <= b <= c <= |ms|
    ensures SentIn(ms, a, c) == SentIn(ms, a, b) + SentIn(ms, b, c)
    decreases c
  {
    if b < c { SentInSum(ms, a, b, c - 1); }
  }

  /** Positions below the end of a list read the same in a longer list. */
  lemma {:induction false} SentInPrefix(ms: seq<Msg>, more: seq<Msg>, a: nat, b: nat)
    requires ms <= more && a <= b <= |ms|
    ensures SentIn(ms, a, b) == SentIn(more, a, b)
    decreases b
  {
    if a < b { SentInPrefix(ms, more, a, b - 1); }
  }

  lemma {:induction false} OnlySentPrefix(ms: seq<Msg>, more: seq<Msg>, at: seq<nat>)
    requires ms <= more && forall i :: 0 <= i < |at| ==> at[i] < |ms|
    ensures OnlySent(ms, at) == OnlySent(more, at)
    decreases |at|
  {
    if at != [] { OnlySentPrefix(ms, more, at[..|at| - 1]); }
  }

  // ----- one call -------------------------------------------------------------------------------------

  /** What one call puts into the session, as user and tool messages. */
  function Added(ch: Chars, s: State, q: Request): seq<nat> {
    OnlySent(q.ms, InSession(Call(ch, s, q).runs))
  }

  lemma {:induction false} WholePrompt(ms: seq<Msg>)
    requires |ms| <= MAX_MESSAGES
    ensures OnlySent(ms, Kept(ms)) == SentIn(ms, 0, |ms|)
  {
    NotSystemFits(ms, |ms|);
    OnlySentOfNotSystem(ms, |ms|);
  }

  lemma WholeDelta(ms: seq<Msg>, sent: nat)
    requires sent <= |ms| <= MAX_MESSAGES
    ensures Delta(ms, sent) == SentIn(ms, sent, |ms|) == OnlySent(ms, Delta(ms, sent))
  {
    OnlySentOfSent(ms, sent, |ms|);
  }

  lemma OneRun(run: Run)
    ensures InSession([run]) == if run.mode.Stateless? || run.outcome.FailsEarly? then [] else run.carried
  {
    assert [run][..0] == [];
  }

  lemma TwoRuns(a: Run, b: Run)
    ensures InSession([a] + [b]) == InSession([a]) + InSession([b])
  {
    InSessionSum([a], [b]);
  }

  lemma {:induction false} FullCallAdds(ch: Chars, s: State, q: Request)
    requires 0 < |q.ms| <= MAX_MESSAGES
    ensures OnlySent(q.ms, InSession(FullCall(ch, s, q).runs))
         == if s.active && !q.full.FailsEarly? then SentIn(q.ms, 0, |q.ms|) else []
  {
    hide Flattened, Kept, SentIn;
    OneRun(FullRun(ch, s, q));
    WholePrompt(q.ms);
  }

  lemma {:induction false} ResumeAdds(ch: Chars, s: State, q: Request)
    requires 0 < |q.ms| <= MAX_MESSAGES && s.active && s.sent > 0 && NewDelta(q.ms, s.sent) != []
    ensures Added(ch, s, q) == if q.resume.FailsEarly? then [] else SentIn(q.ms, s.sent, |q.ms|)
  {
    hide Flattened, DeltaText, SentIn, OnlySent, InSession, Kept;
    WholeDelta(q.ms, s.sent);
    OneRun(ResumeRun(ch, s, q));
    if q.resume.FailsEarly? {
      var off := s.(active := false);
      TwoRuns(ResumeRun(ch, s, q), FullRun(ch, off, q));
      OneRun(FullRun(ch, off, q));
      assert OnlySent(q.ms, []) == [] by { OnlySentNone(q.ms); }
    }
  }

  lemma OnlySentNone(ms: seq<Msg>)
    ensures OnlySent(ms, []) == []
  {
  }

  /** A call that redelivers nothing adds exactly the messages between the old and the new
      count; one that redelivers adds more than those. */
  lemma OneCallAdds(ch: Chars, s: State, q: Request)
    requires 0 < |q.ms| <= MAX_MESSAGES && s.active && s.sent <= |q.ms| && SentIn(q.ms, 0, |q.ms|) != []
    ensures var r := Call(ch, s, q); r.state.active ==>
              && s.sent <= r.state.sent <= |q.ms|
              && (!Redelivers(s, q) ==> Added(ch, s, q) == SentIn(q.ms, s.sent, r.state.sent))
              && (Redelivers(s, q) ==> |Added(ch, s, q)| > |SentIn(q.ms, s.sent, r.state.sent)|)
  {
    hide Flattened, DeltaText, OnlySent, InSession, Kept;
    WholeDelta(q.ms, s.sent);
    SentInNone(q.ms, s.sent);
    if s.sent > 0 && NewDelta(q.ms, s.sent) != [] {
      ResumeAdds(ch, s, q);
    } else {
      FullCallAdds(ch, s, q);
      assert Call(ch, s, q) == FullCall(ch, s, q);
    }
  }

  lemma SentInNone(ms: seq<Msg>, a: nat)
    requires a <= |ms|
    ensures SentIn(ms, a, a) == []
  {
  }

  // ----- every turn ------------------------------------------------------------------------------------

  /** The user and tool messages in the session after a list of calls. */
  function Held(ch: Chars, qs: seq<Request>): seq<nat>
    requires qs != []
  {
    OnlySent(qs[|qs| - 1].ms, InSession(Runs(ch, Fresh, qs)))
  }

  ghost predicate NoneRedelivers(ch: Chars, qs: seq<Request>) {
    forall i :: 0 <= i < |qs| ==> !Redelivers(After(ch, Fresh, qs[..i]), qs[i])
  }

  lemma {:induction false} CarriedInside(ch: Chars, qs: seq<Request>)
    requires AppendOnly(qs) && qs != []
    ensures var last := qs[|qs| - 1].ms; forall i :: 0 <= i < |InSession(Runs(ch, Fresh, qs))| ==>
              InSession(Runs(ch, Fresh, qs))[i] < |last|
    decreases |qs|
  {
    hide Flattened, DeltaText, Kept, Delta;
    var n := |qs| - 1;
    var s := After(ch, Fresh, qs[..n]);
    InSessionSum(Runs(ch, Fresh, qs[..n]), Call(ch, s, qs[n]).runs);
    CallInside(ch, s, qs[n]);
    if n > 0 {
      CarriedInside(ch, qs[..n]);
      assert qs[..n][n - 1] == qs[n - 1] && qs[n - 1].ms <= qs[n].ms;
    }
  }

  lemma {:induction false} CallInside(ch: Chars, s: State, q: Request)
    ensures forall i :: 0 <= i < |InSession(Call(ch, s, q).runs)| ==> InSession(Call(ch, s, q).runs)[i] < |q.ms|
  {
    hide Flattened, DeltaText, Kept, Delta, InSession;
    var off := s.(active := false);
    OneRun(FullRun(ch, s, q));
    if s.active && s.sent > 0 && NewDelta(q.ms, s.sent) != [] {
      OneRun(ResumeRun(ch, s, q));
      OneRun(FullRun(ch, off, q));
      TwoRuns(ResumeRun(ch, s, q), FullRun(ch, off, q));
    }
  }

  /** Over any turn on which the session was never given up, however its processes ended:
      the session holds every user and tool message up to the count exactly once and in
      order if and only if no call redelivered; a redelivery is never made good. */
  lemma {:induction false} ExactlyOnce(ch: Chars, qs: seq<Request>)
    requires AppendOnly(qs) && qs != [] && After(ch, Fresh, qs).active
    requires SentIn(qs[0].ms, 0, |qs[0].ms|) != []
    ensures var ms, sent := qs[|qs| - 1].ms, After(ch, Fresh, qs).sent;
            && sent <= |ms|
            && (NoneRedelivers(ch, qs) <==> Held(ch, qs) == SentIn(ms, 0, sent))
            && |Held(ch, qs)| >= |SentIn(ms, 0, sent)|
            && (Held(ch, qs) != SentIn(ms, 0, sent) ==> |Held(ch, qs)| > |SentIn(ms, 0, sent)|)
    decreases |qs|
  {
    hide *;
    var n := |qs| - 1;
    var s := After(ch, Fresh, qs[..n]);
    Earlier(ch, qs);
    ActiveBefore(ch, qs);
    if n == 0 {
      StartEmpty(ch, qs);
    } else {
      AppendOnlyBefore(qs);
      ExactlyOnce(ch, qs[..n]);
      SoFar(ch, qs);
    }
    LastCall(ch, qs);
    Combine(OnlySent(qs[n].ms, InSession(Runs(ch, Fresh, qs[..n]))), SentIn(qs[n].ms, 0, s.sent),
            Added(ch, s, qs[n]), SentIn(qs[n].ms, s.sent, After(ch, Fresh, qs).sent),
            NoneRedelivers(ch, qs[..n]), Redelivers(s, qs[n]));
  }

  lemma Combine<T>(a: seq<T>, b: seq<T>, c: seq<T>, d: seq<T>, clean: bool, more: bool)
    requires (clean <==> a == b) && |a| >= |b| && (a != b ==> |a| > |b|)
    requires if more then |c| > |d| else c == d
    ensures (clean && !more <==> a + c == b + d) && |a + c| >= |b + d| && (a + c != b + d ==> |a + c| > |b + d|)
  {
    if a == b && c == d {
    } else {
      assert |a + c| > |b + d|;
    }
  }

  /** The last call on top of what the earlier ones left. */
  lemma {:induction false} LastCall(ch: Chars, qs: seq<Request>)
    requires AppendOnly(qs) && qs != [] && After(ch, Fresh, qs).active
    requires SentIn(qs[0].ms, 0, |qs[0].ms|) != []
    requires var s := After(ch, Fresh, qs[..|qs| - 1]); s.sent <= |qs[|qs| - 1].ms|
    ensures var n, sent := |qs| - 1, After(ch, Fresh, qs).sent;
            var s, q := After(ch, Fresh, qs[..n]), qs[n];
            && s.active && s.sent <= sent <= |q.ms|
            && Held(ch, qs) == OnlySent(q.ms, InSession(Runs(ch, Fresh, qs[..n]))) + Added(ch, s, q)
            && SentIn(q.ms, 0, sent) == SentIn(q.ms, 0, s.sent) + SentIn(q.ms, s.sent, sent)
            && (if Redelivers(s, q) then |Added(ch, s, q)| > |SentIn(q.ms, s.sent, sent)|
                else Added(ch, s, q) == SentIn(q.ms, s.sent, sent))
  {
    hide InSession, OnlySent, SentIn, Call, Redelivers;
    var n := |qs| - 1;
    var s, q := After(ch, Fresh, qs[..n]), qs[n];
    StaysActive(ch, s, q);
    FirstHasSent(qs);
    InSessionSum(Runs(ch, Fresh, qs[..n]), Call(ch, s, q).runs);
    OnlySentSum(q.ms, InSession(Runs(ch, Fresh, qs[..n])), InSession(Call(ch, s, q).runs));
    OneCallAdds(ch, s, q);
    SentInSum(q.ms, 0, s.sent, After(ch, Fresh, qs).sent);
  }

  /** What the earlier calls left reads the same against the longer list. */
  lemma {:induction false} SoFar(ch: Chars, qs: seq<Request>)
    requires AppendOnly(qs) && |qs| > 1
    requires var n := |qs| - 1; After(ch, Fresh, qs[..n]).sent <= |qs[n - 1].ms|
    ensures var n := |qs| - 1;
            var earlier, sent := qs[..n], After(ch, Fresh, qs[..n]).sent;
            && sent <= |qs[n].ms|
            && Held(ch, earlier) == OnlySent(qs[n].ms, InSession(Runs(ch, Fresh, earlier)))
            && SentIn(qs[n - 1].ms, 0, sent) == SentIn(qs[n].ms, 0, sent)
  {
    hide InSession, OnlySent, SentIn, Call, Runs, After;
    var n := |qs| - 1;
    assert qs[n - 1].ms <= qs[n].ms && qs[..n][n - 1] == qs[n - 1];
    CarriedInside(ch, qs[..n]);
    OnlySentPrefix(qs[n - 1].ms, qs[n].ms, InSession(Runs(ch, Fresh, qs[..n])));
    SentInPrefix(qs[n - 1].ms, qs[n].ms, 0, After(ch, Fresh, qs[..n]).sent);
  }

  lemma StaysActive(ch: Chars, s: State, q: Request)
    requires Call(ch, s, q).state.active
    ensures s.active
  {
  }

  lemma ActiveBefore(ch: Chars, qs: seq<Request>)
    requires qs != [] && After(ch, Fresh, qs).active
    ensures After(ch, Fresh, qs[..|qs| - 1]).active
  {
    hide Call;
    StaysActive(ch, After(ch, Fresh, qs[..|qs| - 1]), qs[|qs| - 1]);
  }

  lemma AppendOnlyBefore(qs: seq<Request>)
    requires AppendOnly(qs) && |qs| > 1
    ensures AppendOnly(qs[..|qs| - 1]) && qs[..|qs| - 1][0] == qs[0] && qs[..|qs| - 1][|qs| - 2] == qs[|qs| - 2]
  {
  }

  lemma StartEmpty(ch: Chars, qs: seq<Request>)
    requires |qs| == 1
    ensures qs[..0] == [] && After(ch, Fresh, qs[..0]) == Fresh && Fresh.sent == 0 && NoneRedelivers(ch, qs[..0])
    ensures OnlySent(qs[0].ms, InSession(Runs(ch, Fresh, qs[..0]))) == [] && SentIn(qs[0].ms, 0, 0) == []
  {
  }

  lemma FirstHasSent(qs: seq<Request>)
    requires AppendOnly(qs) && qs != [] && SentIn(qs[0].ms, 0, |qs[0].ms|) != []
    ensures var ms := qs[|qs| - 1].ms; SentIn(ms, 0, |ms|) != []
  {
    hide SentIn;
    var a, b := qs[0].ms, qs[|qs| - 1].ms;
    assert |qs| == 1 || a <= b;
    SentInPrefix(a, b, 0, |a|);
    SentInSum(b, 0, |a|, |b|);
  }

  lemma {:induction false} Earlier(ch: Chars, qs: seq<Request>)
    requires qs != []
    ensures var n := |qs| - 1;
            NoneRedelivers(ch, qs) <==> NoneRedelivers(ch, qs[..n]) && !Redelivers(After(ch, Fresh, qs[..n]), qs[n])
  {
    hide Redelivers, After;
    var n := |qs| - 1;
    assert forall i :: 0 <= i <= n ==> qs[..n][..i] == qs[..i];
  }

  /** Every process completes, and every call after the first brings a user or tool message. */
  ghost predicate Steady(qs: seq<Request>) {
    && (forall i :: 0 <= i < |qs| ==> qs[i].resume.Completes? && qs[i].full.Completes?)
    && (forall i :: 0 < i < |qs| ==> qs[i - 1].ms <= qs[i].ms && SentIn(qs[i].ms, |qs[i - 1].ms|, |qs[i].ms|) != [])
  }

  lemma {:induction false} SteadyStep(ch: Chars, s: State, q: Request)
    requires 0 < |q.ms| <= MAX_MESSAGES && q.resume.Completes? && q.full.Completes?
    requires s.active && s.sent <= |q.ms| && (s.sent > 0 ==> SentIn(q.ms, s.sent, |q.ms|) != [])
    ensures Call(ch, s, q).state == State(|q.ms|, true) && !Redelivers(s, q)
  {
    hide Flattened, DeltaText, Kept, SentIn, Delta;
    WholeDelta(q.ms, s.sent);
  }

  lemma SteadyBefore(qs: seq<Request>)
    requires AppendOnly(qs) && Steady(qs) && qs != []
    ensures var n := |qs| - 1;
            && 0 < |qs[n].ms| <= MAX_MESSAGES && qs[n].resume.Completes? && qs[n].full.Completes?
            && (n > 0 ==> && AppendOnly(qs[..n]) && Steady(qs[..n]) && qs[..n][n - 1] == qs[n - 1]
                          && 0 < |qs[n - 1].ms| <= |qs[n].ms| && SentIn(qs[n].ms, |qs[n - 1].ms|, |qs[n].ms|) != [])
  {
    hide SentIn;
    var n := |qs| - 1;
    assert forall i :: 0 <= i < n ==> qs[..n][i] == qs[i];
  }

  lemma {:induction false} SteadyState(ch: Chars, qs: seq<Request>)
    requires AppendOnly(qs) && Steady(qs) && qs != []
    ensures After(ch, Fresh, qs) == State(|qs[|qs| - 1].ms|, true) && NoneRedelivers(ch, qs)
    decreases |qs|
  {
    hide Call, SentIn, Redelivers, AppendOnly, Steady, NoneRedelivers;
    var n := |qs| - 1;
    Earlier(ch, qs);
    SteadyBefore(qs);
    if n == 0 {
      StartEmpty(ch, qs);
      SteadyStep(ch, Fresh, qs[0]);
    } else {
      SteadyState(ch, qs[..n]);
      SteadyStep(ch, After(ch, Fresh, qs[..n]), qs[n]);
    }
  }

  /** Delta delivery refines full delivery: over any such turn of at most 500 messages the
      session has been given every user and tool message of the last list, each once, in
      order. */
  lemma {:induction false} DeltaRefinesFull(ch: Chars, qs: seq<Request>)
    requires AppendOnly(qs) && Steady(qs) && qs != [] && SentIn(qs[0].ms, 0, |qs[0].ms|) != []
    ensures var ms := qs[|qs| - 1].ms; Held(ch, qs) == SentIn(ms, 0, |ms|)
  {
    hide *;
    SteadyState(ch, qs);
    ExactlyOnce(ch, qs);
  }

  // ----- giving a session up ---------------------------------------------------------------------

  /** A resume that fails before its first chunk hands the same call the whole transcript,
      outside any session, and gives the session up. */
  lemma EarlyFailureFallsBack(ch: Chars, s: State, q: Request)
    requires s.active && s.sent > 0 && NewDelta(q.ms, s.sent) != [] && q.resume.FailsEarly?
    ensures var r := Call(ch, s, q);
            && !r.state.active && |r.runs| == 2 && r.ok == q.full.Completes?
            && r.runs[0].mode.Resumed? && r.runs[0].carried == Delta(q.ms, s.sent)
            && r.runs[1].mode.Stateless? && r.runs[1].carried == Kept(q.ms)
  {
    hide Flattened, DeltaText, Kept, Delta;
  }

  /** A session that was given up is never used again: every later call is stateless and
      carries the whole transcript. */
  lemma {:induction false} NeverResumedAgain(ch: Chars, s: State, qs: seq<Request>)
    requires !s.active
    ensures After(ch, s, qs) == s && |Runs(ch, s, qs)| == |qs|
    ensures forall i :: 0 <= i < |qs| ==>
              Runs(ch, s, qs)[i].mode.Stateless? && Runs(ch, s, qs)[i].carried == Kept(qs[i].ms)
    decreases |qs|
  {
    hide Flattened, DeltaText, Kept, Delta;
    if qs != [] {
      NeverResumedAgain(ch, s, qs[..|qs| - 1]);
    }
  }

  // ----- two ways to redeliver -------------------------------------------------------------------

  /** A step that appended only assistant text falls through to a full prompt, but into the
      same session, which then holds every earlier question twice. */
  lemma AssistantOnlyStepRedelivers(ch: Chars, s: State, q: Request)
    requires s.active && 0 < s.sent == |q.ms| - 1 < MAX_MESSAGES && q.ms[s.sent].role.Assistant? && q.full.Completes?
    ensures var r := Call(ch, s, q);
            && |r.runs| == 1 && r.runs[0].mode.Opened? && r.ok && r.state == State(|q.ms|, true)
            && Added(ch, s, q) == SentIn(q.ms, 0, s.sent)
  {
    hide Flattened, DeltaText, Kept, OnlySent, InSession;
    WholeDelta(q.ms, s.sent);
    SentInNone(q.ms, s.sent);
    FullCallAdds(ch, s, q);
    assert NewDelta(q.ms, s.sent) == [];
  }

  /** A resumed process that fails after some output leaves the count where it was, so the
      retry of the same request hands its messages over again. */
  lemma RetryRedelivers(ch: Chars, s: State, q: Request)
    requires s.active && s.sent > 0 && NewDelta(q.ms, s.sent) != [] && q.resume.FailsMidway?
    ensures var first := Call(ch, s, q);
            var second := Call(ch, first.state, q.(resume := Completes));
            && !first.ok && second.ok
            && InSession(first.runs + second.runs) == Delta(q.ms, s.sent) + Delta(q.ms, s.sent)
  {
    hide Flattened, DeltaText, Kept, Delta, InSession;
    OneRun(ResumeRun(ch, s, q));
    OneRun(ResumeRun(ch, s, q.(resume := Completes)));
    InSessionSum([ResumeRun(ch, s, q)], [ResumeRun(ch, s, q.(resume := Completes))]);
  }
}

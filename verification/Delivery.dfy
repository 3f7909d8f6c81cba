/** What a turn's CLI calls deliver, read off the prompts (app/smartbrain_3000/claudecli.py:
    chat_stream, _try_resume): every prompt of every turn reads back as the messages it is meant
    to carry, and the session is handed each message once unless a call redelivers. */
module Delivery {
  import opened Prelude
  import opened Transcript
  import opened Conversation
  import opened TurnSession
  import opened Prompts

  ghost predicate GoodRequest(q: Request) {
    forall i :: 0 <= i < |q.ms| ==> GoodMsg(q.ms[i])
  }

  // ----- one prompt -----------------------------------------------------------------------------------

  /** One turn for each of the messages, in order, saying what it says. */
  ghost predicate TellsAll(ch: Chars, ms: seq<Msg>, at: seq<nat>, turns: seq<Turn>) {
    |turns| == |at| && forall i :: 0 <= i < |at| ==> at[i] < |ms| && TellsOf(ch, ms[at[i]], turns[i])
  }

  /** The text holds these turns and nothing else, and reads back as them. */
  ghost predicate Holds(ch: Chars, ms: seq<Msg>, at: seq<nat>, text: Text) {
    exists turns, marks :: HoldsAs(ch, ms, at, text, turns, marks)
  }

  ghost predicate HoldsAs(ch: Chars, ms: seq<Msg>, at: seq<nat>, text: Text, turns: seq<Turn>, marks: seq<nat>) {
    LaidAt(text, turns, marks) && ParseTurns(text) == Some(turns) && TellsAll(ch, ms, at, turns)
  }

  /** A resumed process is sent the new user and tool messages alone, any other one the preamble
      and the recent messages. */
  ghost predicate PromptTells(ch: Chars, q: Request, sent: nat, run: Run) {
    if run.mode.Resumed? then CarriesNew(q.ms, sent, run.carried) && Holds(ch, q.ms, run.carried, run.prompt)
    else exists pre, text :: FullPrompt(ch, q, run, pre, text)
  }

  ghost predicate FullPrompt(ch: Chars, q: Request, run: Run, pre: Text, text: Text) {
    && run.prompt == pre + text && PreambleOf(q.ms, q.closing, q.tools, pre)
    && CarriesRecent(q.ms, run.carried) && Holds(ch, q.ms, run.carried, text)
  }

  lemma JoinHolds(ch: Chars, ms: seq<Msg>, at: seq<nat>)
    requires ch.Valid()
    requires forall i :: 0 <= i < |at| ==> at[i] < |ms| && GoodMsg(ms[at[i]]) && ms[at[i]].role != System
    ensures Holds(ch, ms, at, Join(TurnsAt(ch, ms, at)))
    ensures ParseTurns(Join(TurnsAt(ch, ms, at))) == Some(TurnsAt(ch, ms, at))
  {
    hide LaidAt, Join, ParseTurns, TellsOf, TurnOf, Inert;
    var turns := TurnsAt(ch, ms, at);
    forall i | 0 <= i < |turns| ensures GoodTurn(ch, turns[i]) && TellsOf(ch, ms[at[i]], turns[i]) {
      GoodTurnOf(ch, ms[at[i]]);
      TurnTells(ch, ms[at[i]]);
    }
    TurnsParse(ch, turns);
    var marks := JoinTells(turns);
    assert HoldsAs(ch, ms, at, Join(turns), turns, marks);
  }

  lemma GoodTurnOf(ch: Chars, m: Msg)
    requires ch.Valid() && GoodMsg(m) && m.role != System
    ensures GoodTurn(ch, TurnOf(ch, m))
  {
    hide Inert;
    BodyIsInert(ch, m);
  }

  lemma ResumeTellsOf(ch: Chars, s: State, q: Request)
    requires ch.Valid() && GoodRequest(q) && s.sent <= |q.ms|
    ensures PromptTells(ch, q, s.sent, ResumeRun(ch, s, q))
    ensures ParseTurns(ResumeRun(ch, s, q).prompt) == Some(TurnsAt(ch, q.ms, Delta(q.ms, s.sent)))
  {
    hide Holds, CarriesNew, Delta, Join, ParseTurns;
    DeltaTells(q.ms, s.sent);
    JoinHolds(ch, q.ms, Delta(q.ms, s.sent));
  }

  lemma FullTellsOf(ch: Chars, s: State, q: Request)
    requires ch.Valid() && GoodRequest(q)
    ensures PromptTells(ch, q, s.sent, FullRun(ch, s, q))
    ensures ParseTurns(Join(TurnsAt(ch, q.ms, Kept(q.ms)))) == Some(TurnsAt(ch, q.ms, Kept(q.ms)))
  {
    hide Holds, CarriesRecent, Kept, Join, ParseTurns, Preamble, PreambleOf;
    KeptTells(q.ms);
    PreambleHolds(q.ms, q.closing, q.tools);
    JoinHolds(ch, q.ms, Kept(q.ms));
    assert FullPrompt(ch, q, FullRun(ch, s, q), Preamble(q.ms, q.closing, q.tools), Join(TurnsAt(ch, q.ms, Kept(q.ms))));
  }

  lemma CallTells(ch: Chars, s: State, q: Request, k: nat)
    requires ch.Valid() && GoodRequest(q) && k < |Call(ch, s, q).runs|
    ensures PromptTells(ch, q, s.sent, Call(ch, s, q).runs[k])
  {
    hide PromptTells, FullRun, ResumeRun, GoodRequest, Delta, Join, ParseTurns;
    var off := s.(active := false);
    FullTellsOf(ch, s, q);
    if s.active && s.sent > 0 && NewDelta(q.ms, s.sent) != [] {
      ResumeTellsOf(ch, s, q);
      FullTellsOf(ch, off, q);
    }
  }

  /** Every prompt of every turn: it belongs to one of the calls, and reads back as the messages
      that call had to carry. */
  lemma {:induction false} EveryPromptTells(ch: Chars, s: State, qs: seq<Request>, k: nat) returns (i: nat)
    requires ch.Valid() && (forall j :: 0 <= j < |qs| ==> GoodRequest(qs[j])) && k < |TurnSession.Runs(ch, s, qs)|
    ensures i < |qs| && TurnSession.Runs(ch, s, qs)[k] in Call(ch, After(ch, s, qs[..i]), qs[i]).runs
    ensures PromptTells(ch, qs[i], After(ch, s, qs[..i]).sent, TurnSession.Runs(ch, s, qs)[k])
    decreases |qs|
  {
    hide PromptTells, Call, After, GoodRequest;
    var n := |qs| - 1;
    var earlier := TurnSession.Runs(ch, s, qs[..n]);
    if k < |earlier| {
      i := EveryPromptTells(ch, s, qs[..n], k);
      assert qs[..n][..i] == qs[..i];
    } else {
      i := n;
      CallTells(ch, After(ch, s, qs[..n]), qs[n], k - |earlier|);
    }
  }

  // ----- whole turns -----------------------------------------------------------------------------------

  /** What a process makes of its prompt. */
  function ReadBack(q: Request, run: Run): seq<Turn> {
    var n := if run.mode.Resumed? then 0 else |Preamble(q.ms, q.closing, q.tools)|;
    if n > |run.prompt| then []
    else match ParseTurns(run.prompt[n..]) case Some(turns) => turns case None => []
  }

  /** The user and tool turns. */
  function Asked(turns: seq<Turn>): seq<Turn> {
    if turns == [] then []
    else
      var last := turns[|turns| - 1];
      Asked(turns[..|turns| - 1]) + if last.role == User || last.role == Tool then [last] else []
  }

  /** What a list of processes told the session; one that failed before its first chunk never
      took its prompt in. */
  function Heard(q: Request, runs: seq<Run>): seq<Turn> {
    if runs == [] then []
    else
      var last := runs[|runs| - 1];
      Heard(q, runs[..|runs| - 1]) + if last.mode.Stateless? || last.outcome.FailsEarly? then [] else Asked(ReadBack(q, last))
  }

  function HeardOver(ch: Chars, s: State, qs: seq<Request>): seq<Turn>
    decreases |qs|
  {
    if qs == [] then []
    else
      var n := |qs| - 1;
      HeardOver(ch, s, qs[..n]) + Heard(qs[n], Call(ch, After(ch, s, qs[..n]), qs[n]).runs)
  }

  /** The turns of some messages. */
  function TurnList(ch: Chars, ms: seq<Msg>, at: seq<nat>): seq<Turn> {
    if at == [] then []
    else
      var last := at[|at| - 1];
      TurnList(ch, ms, at[..|at| - 1]) + if last < |ms| then [TurnOf(ch, ms[last])] else []
  }

  lemma {:induction false} TurnListSum(ch: Chars, ms: seq<Msg>, a: seq<nat>, b: seq<nat>)
    ensures TurnList(ch, ms, a + b) == TurnList(ch, ms, a) + TurnList(ch, ms, b)
    decreases |b|
  {
    hide TurnOf;
    if b == [] {
      assert a + b == a;
    } else {
      assert (a + b)[..|a + b| - 1] == a + b[..|b| - 1];
      TurnListSum(ch, ms, a, b[..|b| - 1]);
    }
  }

  lemma RoleKept(ch: Chars, m: Msg)
    requires m.role != System
    ensures TurnOf(ch, m).role == m.role
  {
    hide Body;
  }

  lemma {:induction false} AskedTurns(ch: Chars, ms: seq<Msg>, at: seq<nat>)
    requires forall i :: 0 <= i < |at| ==> at[i] < |ms| && ms[at[i]].role != System
    ensures Asked(TurnsAt(ch, ms, at)) == TurnList(ch, ms, OnlySent(ms, at))
    decreases |at|
  {
    hide TurnOf, TurnList;
    if at == [] {
      assert TurnsAt(ch, ms, at) == [];
      NothingTold(ch, ms);
    } else {
      var n := |at| - 1;
      var m := ms[at[n]];
      var turns := TurnsAt(ch, ms, at);
      assert turns[..n] == TurnsAt(ch, ms, at[..n]);
      AskedTurns(ch, ms, at[..n]);
      assert turns[n] == TurnOf(ch, m);
      RoleKept(ch, m);
      var last := if Sent(m) then [at[n]] else [];
      TurnListSum(ch, ms, OnlySent(ms, at[..n]), last);
      TurnListOne(ch, ms, at[n]);
      assert OnlySent(ms, at) == OnlySent(ms, at[..n]) + last;
    }
  }

  lemma TurnListOne(ch: Chars, ms: seq<Msg>, x: nat)
    requires x < |ms|
    ensures TurnList(ch, ms, [x]) == [TurnOf(ch, ms[x])] && TurnList(ch, ms, []) == []
  {
    hide TurnOf;
    assert [x][..0] == [];
  }

  lemma ReadsBack(ch: Chars, s: State, q: Request)
    requires ch.Valid() && GoodRequest(q)
    ensures Asked(ReadBack(q, FullRun(ch, s, q))) == TurnList(ch, q.ms, OnlySent(q.ms, Kept(q.ms)))
    ensures s.sent <= |q.ms| ==>
              Asked(ReadBack(q, ResumeRun(ch, s, q))) == TurnList(ch, q.ms, OnlySent(q.ms, Delta(q.ms, s.sent)))
  {
    hide PromptTells, Preamble, ParseTurns, Join, Kept, Delta, Asked, OnlySent, TurnList, Conversation.Heading;
    FullTellsOf(ch, s, q);
    var pre, text := Preamble(q.ms, q.closing, q.tools), Join(TurnsAt(ch, q.ms, Kept(q.ms)));
    assert (pre + text)[|pre|..] == text;
    AskedTurns(ch, q.ms, Kept(q.ms));
    if s.sent <= |q.ms| {
      ResumeTellsOf(ch, s, q);
      assert ResumeRun(ch, s, q).prompt[0..] == ResumeRun(ch, s, q).prompt;
      AskedTurns(ch, q.ms, Delta(q.ms, s.sent));
    }
  }

  lemma HeardOne(q: Request, run: Run)
    ensures Heard(q, [run]) == if run.mode.Stateless? || run.outcome.FailsEarly? then [] else Asked(ReadBack(q, run))
  {
    hide Asked, ReadBack;
    assert [run][..0] == [];
  }

  lemma HeardTwo(q: Request, a: Run, b: Run)
    ensures Heard(q, [a] + [b]) == Heard(q, [a]) + Heard(q, [b])
  {
    hide Asked, ReadBack;
    assert ([a] + [b])[..1] == [a];
    HeardOne(q, b);
  }

  lemma NothingTold(ch: Chars, ms: seq<Msg>)
    ensures TurnList(ch, ms, OnlySent(ms, [])) == []
  {
  }

  lemma FullHeard(ch: Chars, s: State, q: Request)
    requires ch.Valid() && GoodRequest(q)
    ensures Heard(q, [FullRun(ch, s, q)]) == TurnList(ch, q.ms, OnlySent(q.ms, InSession([FullRun(ch, s, q)])))
  {
    hide Flattened, Kept, OnlySent, TurnList, Asked, ReadBack, InSession, Heard, GoodRequest;
    ReadsBack(ch, s, q);
    HeardOne(q, FullRun(ch, s, q));
    OneRun(FullRun(ch, s, q));
    NothingTold(ch, q.ms);
  }

  lemma ResumeHeard(ch: Chars, s: State, q: Request)
    requires ch.Valid() && GoodRequest(q) && s.sent <= |q.ms|
    ensures Heard(q, [ResumeRun(ch, s, q)]) == TurnList(ch, q.ms, OnlySent(q.ms, InSession([ResumeRun(ch, s, q)])))
  {
    hide DeltaText, Delta, OnlySent, TurnList, Asked, ReadBack, InSession, Heard, GoodRequest;
    ReadsBack(ch, s, q);
    HeardOne(q, ResumeRun(ch, s, q));
    OneRun(ResumeRun(ch, s, q));
    NothingTold(ch, q.ms);
  }

  /** What a call tells the session is the user and tool messages that its processes carry. */
  lemma CallHeard(ch: Chars, s: State, q: Request)
    requires ch.Valid() && GoodRequest(q)
    ensures Heard(q, Call(ch, s, q).runs) == TurnList(ch, q.ms, Added(ch, s, q))
  {
    hide OnlySent, TurnList, InSession, Heard, FullRun, ResumeRun, GoodRequest;
    var off := s.(active := false);
    FullHeard(ch, s, q);
    if s.active && s.sent > 0 && NewDelta(q.ms, s.sent) != [] {
      ResumeHeard(ch, s, q);
      var a, b := ResumeRun(ch, s, q), FullRun(ch, off, q);
      if q.resume.FailsEarly? {
        FullHeard(ch, off, q);
        HeardTwo(q, a, b);
        TwoRuns(a, b);
        OnlySentSum(q.ms, InSession([a]), InSession([b]));
        TurnListSum(ch, q.ms, OnlySent(q.ms, InSession([a])), OnlySent(q.ms, InSession([b])));
      }
    }
  }

  lemma {:induction false} TurnListPrefix(ch: Chars, ms: seq<Msg>, more: seq<Msg>, at: seq<nat>)
    requires ms <= more && forall i :: 0 <= i < |at| ==> at[i] < |ms|
    ensures TurnList(ch, ms, OnlySent(ms, at)) == TurnList(ch, more, OnlySent(more, at))
    decreases |at|
  {
    hide TurnOf;
    if at != [] {
      var n := |at| - 1;
      TurnListPrefix(ch, ms, more, at[..n]);
      var last := if Sent(ms[at[n]]) then [at[n]] else [];
      TurnListSum(ch, ms, OnlySent(ms, at[..n]), last);
      TurnListSum(ch, more, OnlySent(more, at[..n]), last);
      TurnListOne(ch, ms, at[n]);
      TurnListOne(ch, more, at[n]);
    }
  }

  /** Over a whole turn, what the prompts tell the session is what they are said to carry. */
  lemma {:induction false} HeardIsHeld(ch: Chars, qs: seq<Request>)
    requires ch.Valid() && AppendOnly(qs) && qs != [] && forall i :: 0 <= i < |qs| ==> GoodRequest(qs[i])
    ensures HeardOver(ch, Fresh, qs) == TurnList(ch, qs[|qs| - 1].ms, Held(ch, qs))
    decreases |qs|
  {
    hide InSession, OnlySent, TurnList, Call, After, Heard, GoodRequest;
    var n := |qs| - 1;
    var s, ms := After(ch, Fresh, qs[..n]), qs[n].ms;
    var earlier := InSession(TurnSession.Runs(ch, Fresh, qs[..n]));
    CallHeard(ch, s, qs[n]);
    InSessionSum(TurnSession.Runs(ch, Fresh, qs[..n]), Call(ch, s, qs[n]).runs);
    OnlySentSum(ms, earlier, InSession(Call(ch, s, qs[n]).runs));
    TurnListSum(ch, ms, OnlySent(ms, earlier), Added(ch, s, qs[n]));
    if n == 0 {
      assert TurnSession.Runs(ch, Fresh, qs[..0]) == [];
      NoRuns(ch, ms);
    } else {
      assert qs[..n][n - 1] == qs[n - 1] && qs[n - 1].ms <= ms;
      HeardIsHeld(ch, qs[..n]);
      CarriedInside(ch, qs[..n]);
      TurnListPrefix(ch, qs[n - 1].ms, ms, earlier);
    }
  }

  lemma NoRuns(ch: Chars, ms: seq<Msg>)
    ensures TurnList(ch, ms, OnlySent(ms, InSession([]))) == []
  {
  }

  /** The turns are those of the user and tool messages below `sent`, each once and in order. */
  ghost predicate Delivers(ch: Chars, ms: seq<Msg>, sent: nat, turns: seq<Turn>) {
    exists picks :: DeliversAs(ch, ms, sent, turns, picks)
  }

  ghost predicate DeliversAs(ch: Chars, ms: seq<Msg>, sent: nat, turns: seq<Turn>, picks: seq<nat>) {
    Rising(picks) && (forall i: nat :: i in picks <==> NewAt(ms, 0, sent, i)) && TellsAll(ch, ms, picks, turns)
  }

  lemma {:induction false} TurnListTells(ch: Chars, ms: seq<Msg>, at: seq<nat>)
    requires ch.Valid() && forall i :: 0 <= i < |at| ==> at[i] < |ms| && ms[at[i]].role != System
    ensures TellsAll(ch, ms, at, TurnList(ch, ms, at))
    decreases |at|
  {
    hide TellsOf, TurnOf;
    if at != [] {
      TurnListTells(ch, ms, at[..|at| - 1]);
      TurnTells(ch, ms[at[|at| - 1]]);
    }
  }

  lemma {:induction false} OnlySentInside(ms: seq<Msg>, at: seq<nat>)
    ensures forall i :: 0 <= i < |OnlySent(ms, at)| ==> OnlySent(ms, at)[i] < |ms| && ms[OnlySent(ms, at)[i]].role != System
    decreases |at|
  {
    if at != [] { OnlySentInside(ms, at[..|at| - 1]); }
  }

  /** Delivery over the prompts.  Over any turn on which the session was never given up, however
      its processes ended, the prompts told the session every user and tool message up to the
      count, each once and in order, if and only if no call redelivered. */
  lemma DeliveredOnce(ch: Chars, qs: seq<Request>)
    requires ch.Valid() && AppendOnly(qs) && qs != [] && (forall i :: 0 <= i < |qs| ==> GoodRequest(qs[i]))
    requires After(ch, Fresh, qs).active && SentIn(qs[0].ms, 0, |qs[0].ms|) != []
    ensures NoneRedelivers(ch, qs)
            <==> Delivers(ch, qs[|qs| - 1].ms, After(ch, Fresh, qs).sent, HeardOver(ch, Fresh, qs))
  {
    hide *;
    var ms, sent, held := qs[|qs| - 1].ms, After(ch, Fresh, qs).sent, Held(ch, qs);
    ExactlyOnce(ch, qs);
    HeardIsHeld(ch, qs);
    HeldInside(ch, qs);
    TurnListTells(ch, ms, held);
    if NoneRedelivers(ch, qs) {
      ListDelivers(ch, ms, sent, TurnList(ch, ms, held));
    }
    if Delivers(ch, ms, sent, TurnList(ch, ms, held)) {
      DeliveredSize(ch, ms, sent, TurnList(ch, ms, held));
      TellsSize(ch, ms, held, TurnList(ch, ms, held));
    }
  }

  lemma HeldInside(ch: Chars, qs: seq<Request>)
    requires qs != []
    ensures var ms := qs[|qs| - 1].ms;
            forall i :: 0 <= i < |Held(ch, qs)| ==> Held(ch, qs)[i] < |ms| && ms[Held(ch, qs)[i]].role != System
  {
    hide OnlySent, InSession, TurnSession.Runs;
    OnlySentInside(qs[|qs| - 1].ms, InSession(TurnSession.Runs(ch, Fresh, qs)));
  }

  lemma ListDelivers(ch: Chars, ms: seq<Msg>, sent: nat, turns: seq<Turn>)
    requires sent <= |ms| && TellsAll(ch, ms, SentIn(ms, 0, sent), turns)
    ensures Delivers(ch, ms, sent, turns)
  {
    hide SentIn, TellsAll;
    SentInTells(ms, 0, sent);
    assert DeliversAs(ch, ms, sent, turns, SentIn(ms, 0, sent));
  }

  lemma TellsSize(ch: Chars, ms: seq<Msg>, at: seq<nat>, turns: seq<Turn>)
    requires TellsAll(ch, ms, at, turns)
    ensures |turns| == |at|
  {
    hide TellsOf;
  }

  lemma DeliveredSize(ch: Chars, ms: seq<Msg>, sent: nat, turns: seq<Turn>)
    requires sent <= |ms| && Delivers(ch, ms, sent, turns)
    ensures |turns| == |SentIn(ms, 0, sent)|
  {
    hide SentIn, TellsAll;
    SentInTells(ms, 0, sent);
    var picks :| DeliversAs(ch, ms, sent, turns, picks);
    RisingOnce(picks, SentIn(ms, 0, sent));
    TellsSize(ch, ms, picks, turns);
  }

  /** And when every process completes and every call after the first brings something new, the
      prompts told the session the whole of the last list. */
  lemma PromptsDeliverAll(ch: Chars, qs: seq<Request>)
    requires ch.Valid() && AppendOnly(qs) && Steady(qs) && qs != [] && (forall i :: 0 <= i < |qs| ==> GoodRequest(qs[i]))
    requires SentIn(qs[0].ms, 0, |qs[0].ms|) != []
    ensures var ms := qs[|qs| - 1].ms; Delivers(ch, ms, |ms|, HeardOver(ch, Fresh, qs))
  {
    hide *;
    SteadyState(ch, qs);
    DeliveredOnce(ch, qs);
  }
}

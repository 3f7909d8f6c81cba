/** Scheduled turns end to end: the runs of the approval protocol, with what the model says at
    each drive, are histories of the turn (app/smartbrain_3000/agent_routes.py:
    _resume_scheduled_worker; agent.py: resume_turn, _park). */
module TurnRuns {
  import opened Prelude
  import A = Approvals
  import opened ApprovalProtocol
  import R = ResumeProtocol
  import G = AgentTurn
  import H = TurnHistory

  // ----- a protocol run and the history it makes --------------------------------------------------

  /** What a resume meets outside: consent and caps, the stored results, and the model. */
  datatype Said = Said(env: G.Env, texts: seq<string>, rs: seq<G.Response>)

  /** The turn looked at, and its opening run. */
  datatype Story = Story(turn: nat, w: G.Words, env: G.Env, base: seq<G.Msg>, rs: seq<G.Response>)

  /** `es` are the protocol's events and `hs` those of the turn's history; `sched` is the thread
      that parks the opening run's calls, `cur` the run of the last drive.  Was the turn ever
      driven while a row was still to be parked (`early`), or a second time since its last row
      was parked (`twice`)? */
  datatype Tale = Tale(es: seq<Event>, hs: seq<H.Event>, sched: nat, cur: nat, early: bool, twice: bool)

  ghost function Hist(st: Story, p: Tale): H.History {
    H.Lived(st.w, H.Opening(st.env, st.base, st.rs), p.hs)
  }

  function TurnRows(rows: seq<A.Row>, turn: nat): seq<A.Row> {
    if rows == [] then []
    else TurnRows(rows[..|rows| - 1], turn) + if rows[|rows| - 1].turn == turn then [rows[|rows| - 1]] else []
  }

  /** A row as a resume reads it. */
  function AnswerOf(r: A.Row, now: nat, text: string): G.Answer {
    match r.status
    case Pending => G.Waits
    case Approved => G.Approved
    case Executed => if r.result.Some? then G.Ran(text) else if A.InFlight(r, now) then G.InFlight else G.Interrupted
    case Denied => G.Refused
    case Expired => G.Lapsed
  }

  function Answers(rows: seq<A.Row>, now: nat, texts: seq<string>): (r: seq<G.Answer>)
    ensures |r| == |rows|
  {
    seq(|rows|, i requires 0 <= i < |rows| => AnswerOf(rows[i], now, if i < |texts| then texts[i] else ""))
  }

  ghost predicate StillParking(s: State, t: nat) {
    t < |s.threads| && s.threads[t].pc.Parking? && s.threads[t].pc.left > 0
  }

  /** The calls that a run parks are the rows that the protocol inserts for it. */
  ghost predicate Fits(st: Story, p: Tale, e: Event) {
    var s, h := Reached(p.es), Hist(st, p);
    && Enabled(s, e)
    && (e.Begin? && e.turn == st.turn ==> e.scheduled && h.runs != [] && e.parks == |H.Calls(h.runs[0])|)
    && (e.Step? && s.threads[e.thread].turn == st.turn && s.threads[e.thread].pc.Driving? ==>
          p.cur < |h.runs| && e.choice.parks == |H.Calls(h.runs[p.cur])|)
  }

  /** One event of the protocol, and what it means for the turn. */
  ghost function Told(st: Story, p: Tale, e: Event, said: Said): Tale
    requires Enabled(Reached(p.es), e)
  {
    var s := Reached(p.es);
    var q := p.(es := p.es + [e]);
    if e.Begin? && e.turn == st.turn then q.(hs := p.hs + [H.Insert(0)], sched := |s.threads|)
    else if e.Step? && s.threads[e.thread].turn == st.turn then
      match s.threads[e.thread].pc
      case Parking(left) => if left > 0 then q.(hs := p.hs + [H.Insert(0)]) else q
      case Reparking(left) => if left > 0 then q.(hs := p.hs + [H.Insert(p.cur)]) else q
      case Resuming(_) =>
        if AllResolved(s, st.turn) && st.turn in s.notes then
          q.(hs := p.hs + [H.Resume(said.env, Answers(TurnRows(s.rows, st.turn), s.now, said.texts), said.rs)],
             cur := |Hist(st, p).runs|,
             early := p.early || StillParking(s, p.sched), twice := p.twice || s.notes[st.turn].drives > 0)
        else q
      case _ => q
    else q
  }

  ghost function Tell(st: Story, es: seq<(Event, Said)>): Tale
    decreases |es|
  {
    if es == [] then Tale([], [], 0, 0, false, false)
    else
      var p, (e, said) := Tell(st, es[..|es| - 1]), es[|es| - 1];
      if Fits(st, p, e) then Told(st, p, e, said) else p
  }

  // ----- how far a turn is --------------------------------------------------------------------------

  predicate Hot(pc: Pc) {
    pc.Parking? || pc.Driving? || pc.Reparking?
  }

  ghost predicate Busy(s: State, turn: nat) {
    exists t :: 0 <= t < |s.threads| && s.threads[t].turn == turn && (s.threads[t].pc.Driving? || s.threads[t].pc.Reparking?)
  }

  function Left(r: H.Run): int {
    |H.Calls(r)| - r.inserted
  }

  /** One thread parks the opening run's calls. */
  ghost predicate SchedOk(s: State, h: H.History, turn: nat, sched: nat) {
    && h.runs != [] && sched < |s.threads| && s.threads[sched].turn == turn
    && Left(h.runs[0]) == (if s.threads[sched].pc.Parking? then s.threads[sched].pc.left else 0)
    && forall t :: 0 <= t < |s.threads| && s.threads[t].turn == turn && s.threads[t].pc.Parking? ==> t == sched
  }

  /** A worker that drives has parked nothing of its run yet; one that parks, all but the rest. */
  ghost predicate WorkOk(s: State, h: H.History, turn: nat, cur: nat) {
    && (|h.runs| > 1 ==> cur == |h.runs| - 1)
    && forall t :: 0 <= t < |s.threads| && s.threads[t].turn == turn ==>
         && (s.threads[t].pc.Driving? ==> 0 < cur < |h.runs| && h.runs[cur].inserted == 0)
         && (s.threads[t].pc.Reparking? ==> 0 < cur < |h.runs| && Left(h.runs[cur]) == s.threads[t].pc.left)
  }

  /** All other parks of resumed runs are in the table. */
  ghost predicate FullOk(s: State, h: H.History, turn: nat, cur: nat) {
    forall r :: 0 < r < |h.runs| ==> Left(h.runs[r]) == 0 || (r == cur && Busy(s, turn))
  }

  /** Nothing half inserted was driven, and nothing twice, as long as the tale says so. */
  ghost predicate CleanOk(s: State, h: H.History, turn: nat, early: bool, twice: bool)
    requires turn in s.notes
  {
    && h.runs != [] && !h.runs[|h.runs| - 1].driven
    && (!early ==> (|h.runs| > 1 ==> Left(h.runs[0]) == 0) && forall i :: 0 <= i < |h.runs| ==> !h.runs[i].half)
    && (!early && !twice ==>
          H.NeverAgain(h.runs) && (|h.runs| > 1 && h.runs[|h.runs| - 1].inserted == 0 ==> s.notes[turn].drives > 0))
  }

  ghost predicate RowsMatch(s: State, h: H.History, turn: nat) {
    h.rows != [] && |TurnRows(s.rows, turn)| == |h.rows|
  }

  ghost predicate Live(s: State, h: H.History, turn: nat, sched: nat, cur: nat, early: bool, twice: bool)
    requires turn in s.notes
  {
    && SchedOk(s, h, turn, sched) && WorkOk(s, h, turn, cur) && FullOk(s, h, turn, cur)
    && RowsMatch(s, h, turn) && CleanOk(s, h, turn, early, twice)
  }

  ghost predicate TaleOk(st: Story, p: Tale) {
    var s := Reached(p.es);
    && (st.turn !in s.notes ==> p.hs == [] && !TurnUsed(s, st.turn) && !p.early && !p.twice)
    && (st.turn in s.notes ==> Live(s, Hist(st, p), st.turn, p.sched, p.cur, p.early, p.twice))
  }

  // ----- rows of a turn ----------------------------------------------------------------------------

  lemma {:induction false} SameTurnRows(a: seq<A.Row>, b: seq<A.Row>, turn: nat)
    requires |a| == |b| && forall i :: 0 <= i < |a| ==> (a[i].turn == turn <==> b[i].turn == turn)
    ensures |TurnRows(a, turn)| == |TurnRows(b, turn)|
    decreases |a|
  {
    if a != [] { SameTurnRows(a[..|a| - 1], b[..|b| - 1], turn); }
  }

  lemma {:induction false} OtherTurnRows(a: seq<A.Row>, more: seq<A.Row>, turn: nat)
    requires forall i :: 0 <= i < |more| ==> more[i].turn != turn
    ensures TurnRows(a + more, turn) == TurnRows(a, turn)
    decreases |more|
  {
    if more == [] {
      assert a + more == a;
    } else {
      assert (a + more)[..|a + more| - 1] == a + more[..|more| - 1];
      OtherTurnRows(a, more[..|more| - 1], turn);
    }
  }

  lemma OneTurnRow(a: seq<A.Row>, r: A.Row, turn: nat)
    requires r.turn == turn
    ensures TurnRows(a + [r], turn) == TurnRows(a, turn) + [r]
  {
    assert (a + [r])[..|a|] == a;
  }

  lemma {:induction false} TurnRowsIn(a: seq<A.Row>, turn: nat, i: nat)
    requires i < |TurnRows(a, turn)|
    ensures TurnRows(a, turn)[i].turn == turn && TurnRows(a, turn)[i] in a
    decreases |a|
  {
    var n := |a| - 1;
    if i < |TurnRows(a[..n], turn)| {
      TurnRowsIn(a[..n], turn, i);
    }
  }

  // ----- steps that leave the turn where it is ---------------------------------------------------

  /** No thread of the turn moves in or out of a park or a drive. */
  ghost predicate Stays(s: State, s': State, turn: nat) {
    && |s.threads| <= |s'.threads|
    && (forall t :: 0 <= t < |s.threads| ==> s'.threads[t].turn == s.threads[t].turn)
    && (forall t :: 0 <= t < |s.threads| && s.threads[t].turn == turn && (Hot(s.threads[t].pc) || Hot(s'.threads[t].pc)) ==>
          s'.threads[t] == s.threads[t])
    && (forall t :: |s.threads| <= t < |s'.threads| && s'.threads[t].turn == turn ==> !Hot(s'.threads[t].pc))
    && turn in s.notes && turn in s'.notes && s'.notes[turn].drives == s.notes[turn].drives
    && |TurnRows(s'.rows, turn)| == |TurnRows(s.rows, turn)|
  }

  lemma StaysLive(s: State, s': State, h: H.History, turn: nat, sched: nat, cur: nat, early: bool, twice: bool)
    requires Stays(s, s', turn) && Live(s, h, turn, sched, cur, early, twice)
    ensures Live(s', h, turn, sched, cur, early, twice)
  {
    hide TurnRows, H.NeverAgain;
    assert Busy(s, turn) ==> Busy(s', turn) by {
      if t :| 0 <= t < |s.threads| && s.threads[t].turn == turn && (s.threads[t].pc.Driving? || s.threads[t].pc.Reparking?) {
        assert s'.threads[t] == s.threads[t];
      }
    }
  }

  lemma OthersStay(s: State, t: nat, c: Choice, turn: nat)
    requires RowsOk(s) && R.TurnsOk(s) && Enabled(s, Step(t, c)) && s.threads[t].turn != turn && turn in s.notes
    ensures Stays(s, ThreadStep(s, t, c), turn)
  {
    hide RowsOk, R.TurnsOk, ThreadStep, AllResolved, TurnRows;
    var s' := ThreadStep(s, t, c);
    R.StepIsOwnTurn(s, t, c);
    R.OthersStep(s, t, c, turn);
    SameTurnRows(s.rows, s'.rows[..|s.rows|], turn);
    OtherTurnRows(s'.rows[..|s.rows|], s'.rows[|s.rows|..], turn);
    assert s'.rows == s'.rows[..|s.rows|] + s'.rows[|s.rows|..];
  }

  lemma RequestStays(s: State, s': State, t: nat)
    requires t < |s.threads| && R.RequestStep(s, s', t) && s.threads[t].turn in s.notes
    requires !Hot(s.threads[t].pc) && !Hot(s'.threads[t].pc)
    ensures Stays(s, s', s.threads[t].turn)
  {
    hide AllResolved, TurnRows;
    SameTurnRows(s.rows, s'.rows, s.threads[t].turn);
  }

  lemma ApproveIsCool(s: State, t: nat, c: Choice)
    requires t < |s.threads| && s.threads[t].pid < |s.rows| && !Hot(s.threads[t].pc)
    ensures |ApproveStep(s, t, c).threads| == |s.threads| && !Hot(ApproveStep(s, t, c).threads[t].pc)
  {
    hide A.Stale, A.Moved, A.Storable, NotSwept, AfterResolving;
    ThenChecks(s, s.threads[t].turn);
    if s.threads[t].pc.Writing? {
      WritingIsCool(s, t, c);
    }
  }

  lemma WritingIsCool(s: State, t: nat, c: Choice)
    requires t < |s.threads| && s.threads[t].pid < |s.rows| && s.threads[t].pc.Writing?
    ensures |ApproveStep(s, t, c).threads| == |s.threads| && !Hot(ApproveStep(s, t, c).threads[t].pc)
  {
    hide A.Stale, A.Moved, A.Storable;
  }

  lemma ThenChecks(s: State, turn: nat)
    ensures AfterResolving(s, turn).Checking? || AfterResolving(s, turn).Done?
  {
  }

  lemma DenyIsCool(s: State, t: nat, c: Choice)
    requires t < |s.threads| && s.threads[t].pid < |s.rows| && !Hot(s.threads[t].pc)
    ensures |DenyStep(s, t, c).threads| == |s.threads| && !Hot(DenyStep(s, t, c).threads[t].pc)
  {
  }

  lemma FinishStays(s: State, t: nat)
    requires t < |s.threads| && s.threads[t].turn in s.notes && !Hot(s.threads[t].pc)
    ensures Stays(s, FinishStep(s, t), s.threads[t].turn)
  {
    hide AllResolved, OtherComing, TurnRows, Stays;
    if s.threads[t].pc.Checking? {
      CheckStays(s, t);
    } else if s.threads[t].pc.Launching? {
      LaunchStays(s, t);
    } else {
      SameStays(s, s.threads[t].turn);
    }
  }

  lemma SameStays(s: State, turn: nat)
    requires turn in s.notes
    ensures Stays(s, s, turn)
  {
  }

  lemma CheckStays(s: State, t: nat)
    requires t < |s.threads| && s.threads[t].turn in s.notes && s.threads[t].pc.Checking?
    ensures Stays(s, FinishStep(s, t), s.threads[t].turn)
  {
    hide AllResolved, OtherComing, TurnRows;
  }

  lemma LaunchStays(s: State, t: nat)
    requires t < |s.threads| && s.threads[t].turn in s.notes && s.threads[t].pc.Launching?
    ensures Stays(s, FinishStep(s, t), s.threads[t].turn)
  {
    hide TurnRows;
  }

  lemma WorkerStays(s: State, t: nat, c: Choice)
    requires t < |s.threads| && s.threads[t].pid < |s.rows| && s.threads[t].turn in s.notes && !Hot(s.threads[t].pc)
    requires !(s.threads[t].pc.Resuming? && AllResolved(s, s.threads[t].turn))
    ensures Stays(s, WorkerStep(s, t, c), s.threads[t].turn)
  {
    hide AllResolved, Parked, TurnRows;
  }

  /** A thread that neither parks nor drives. */
  lemma {:induction false} CoolStays(s: State, t: nat, c: Choice)
    requires RowsOk(s) && Enabled(s, Step(t, c)) && s.threads[t].turn in s.notes && !Hot(s.threads[t].pc)
    requires !(s.threads[t].pc.Resuming? && AllResolved(s, s.threads[t].turn))
    ensures Stays(s, ThreadStep(s, t, c), s.threads[t].turn)
  {
    hide RowsOk, AllResolved, ApproveStep, DenyStep, FinishStep, WorkerStep, Stays, R.RequestStep, TurnRows;
    var pc := s.threads[t].pc;
    if pc.DenyAsked? || pc.DenySeen? {
      R.DenyIsRequest(s, t, c);
      DenyIsCool(s, t, c);
      RequestStays(s, DenyStep(s, t, c), t);
    } else if pc.Checking? || pc.Launching? {
      FinishStays(s, t);
    } else if pc.Resuming? || pc.Leaving? {
      WorkerStays(s, t, c);
    } else {
      R.ApproveIsRequest(s, t, c);
      ApproveIsCool(s, t, c);
      RequestStays(s, ApproveStep(s, t, c), t);
    }
  }

  lemma OutsideStays(s: State, e: Event, turn: nat)
    requires RowsOk(s) && Enabled(s, e) && turn in s.notes && !e.Step?
    ensures Stays(s, ApprovalProtocol.Next(s, e), turn)
  {
    hide RowsOk, TurnRows, SweepHits, ThreadStep, HasToken;
    var s' := ApprovalProtocol.Next(s, e);
    match e {
      case Sweep => SameTurnRows(s.rows, s'.rows, turn);
      case Begin(other, _, _, _) =>
        assert s'.rows == s.rows + [s'.rows[|s.rows|]];
        OtherTurnRows(s.rows, [s'.rows[|s.rows|]], turn);
      case _ =>
    }
  }

  // ----- parking -----------------------------------------------------------------------------------------

  lemma LivedMore(st: Story, p: Tale, e: H.Event)
    ensures Hist(st, p.(hs := p.hs + [e])) == H.Next(st.w, Hist(st, p), e)
  {
    assert (p.hs + [e])[..|p.hs|] == p.hs;
  }

  /** A row of run `r` goes into both tables. */
  lemma RowGoesIn(s: State, h: H.History, turn: nat, r: nat, chat: bool)
    requires RowsMatch(s, h, turn) && r < |h.runs| && Left(h.runs[r]) > 0 && turn in s.notes
    ensures var s', h' := Parked(s, turn, chat), H.Inserting(h, r);
            && RowsMatch(s', h', turn) && s'.threads == s.threads && turn in s'.notes
            && |h'.runs| == |h.runs| && h'.runs == h.runs[r := h.runs[r].(inserted := h.runs[r].inserted + 1)]
  {
    hide HasToken, G.Loop;
    OneTurnRow(s.rows, A.Row(0, turn, chat, s.now, A.Pending, None, None), turn);
  }

  lemma OnlyWorker(s: State, t: nat, u: nat)
    requires R.TurnsOk(s) && t < |s.threads| && u < |s.threads| && s.threads[t].turn == s.threads[u].turn
    requires R.Working(s.threads[t].pc) && R.Working(s.threads[u].pc)
    ensures t == u
  {
    hide R.TurnOk, R.Driven;
    assert R.ThreadOk(s, t) && R.ThreadOk(s, u);
  }

  /** The only thread of the turn that drives or parks again. */
  ghost predicate Alone(s: State, t: nat)
    requires t < |s.threads|
  {
    forall u :: 0 <= u < |s.threads| && u != t && s.threads[u].turn == s.threads[t].turn ==>
      !s.threads[u].pc.Driving? && !s.threads[u].pc.Reparking?
  }

  lemma WorkerIsAlone(s: State, t: nat)
    requires R.TurnsOk(s) && t < |s.threads| && R.Working(s.threads[t].pc)
    ensures Alone(s, t)
  {
    hide R.TurnsOk;
    forall u | 0 <= u < |s.threads| && s.threads[u].turn == s.threads[t].turn && (s.threads[u].pc.Driving? || s.threads[u].pc.Reparking?)
      ensures u == t
    {
      OnlyWorker(s, t, u);
    }
  }

  /** Thread `t` parks a row of run `r` and goes on with the next: the scheduler's thread a row
      of the opening run, the worker one of the last. */
  ghost predicate ParksRow(s: State, h: H.History, t: nat, r: nat, sched: nat, cur: nat) {
    && t < |s.threads| && s.threads[t].pid < |s.rows| && s.threads[t].turn in s.notes && r < |h.runs| && Left(h.runs[r]) > 0
    && ((s.threads[t].pc.Parking? && t == sched && r == 0) || (s.threads[t].pc.Reparking? && r == cur && cur > 0 && Alone(s, t)))
    && s.threads[t].pc.left == Left(h.runs[r])
  }

  function ParkedAt(s: State, t: nat): State
    requires t < |s.threads| && s.threads[t].pid < |s.rows| && (s.threads[t].pc.Parking? || s.threads[t].pc.Reparking?) && s.threads[t].pc.left > 0
  {
    var th := s.threads[t];
    At(Parked(s, th.turn, s.rows[th.pid].chat), t, th.pc.(left := th.pc.left - 1))
  }

  lemma ParkedThreads(s: State, h: H.History, t: nat, r: nat, sched: nat, cur: nat)
    requires ParksRow(s, h, t, r, sched, cur)
    ensures var s' := ParkedAt(s, t);
            && s'.threads == s.threads[t := s.threads[t].(pc := s'.threads[t].pc)] && s'.threads[t].pc == s.threads[t].pc.(left := s.threads[t].pc.left - 1)
            && s'.notes.Keys == s.notes.Keys && H.Inserting(h, r).runs == h.runs[r := h.runs[r].(inserted := h.runs[r].inserted + 1)]
  {
    hide HasToken, Alone;
  }

  lemma ParkedSched(s: State, h: H.History, t: nat, r: nat, sched: nat, cur: nat)
    requires ParksRow(s, h, t, r, sched, cur) && SchedOk(s, h, s.threads[t].turn, sched)
    ensures SchedOk(ParkedAt(s, t), H.Inserting(h, r), s.threads[t].turn, sched)
  {
    hide ParkedAt, H.Inserting, Alone;
    ParkedThreads(s, h, t, r, sched, cur);
  }

  lemma ParkedWork(s: State, h: H.History, t: nat, r: nat, sched: nat, cur: nat)
    requires ParksRow(s, h, t, r, sched, cur) && WorkOk(s, h, s.threads[t].turn, cur)
    ensures WorkOk(ParkedAt(s, t), H.Inserting(h, r), s.threads[t].turn, cur)
  {
    hide ParkedAt, H.Inserting;
    ParkedThreads(s, h, t, r, sched, cur);
  }

  lemma ParkedFull(s: State, h: H.History, t: nat, r: nat, sched: nat, cur: nat)
    requires ParksRow(s, h, t, r, sched, cur) && FullOk(s, h, s.threads[t].turn, cur)
    ensures FullOk(ParkedAt(s, t), H.Inserting(h, r), s.threads[t].turn, cur)
  {
    hide ParkedAt, H.Inserting, Alone;
    var turn := s.threads[t].turn;
    ParkedThreads(s, h, t, r, sched, cur);
    if u :| 0 <= u < |s.threads| && s.threads[u].turn == turn && (s.threads[u].pc.Driving? || s.threads[u].pc.Reparking?) {
      var v := ParkedAt(s, t).threads[u];
      assert v.turn == turn && (v.pc.Driving? || v.pc.Reparking?);
    }
  }

  lemma ParkedClean(s: State, h: H.History, t: nat, r: nat, sched: nat, cur: nat, early: bool, twice: bool)
    requires ParksRow(s, h, t, r, sched, cur) && CleanOk(s, h, s.threads[t].turn, early, twice)
    requires |h.runs| > 1 ==> cur == |h.runs| - 1
    ensures s.threads[t].turn in ParkedAt(s, t).notes && CleanOk(ParkedAt(s, t), H.Inserting(h, r), s.threads[t].turn, early, twice)
  {
    hide ParkedAt, H.Inserting, Alone, H.NeverAgain;
    ParkedThreads(s, h, t, r, sched, cur);
    SameFlags(h, H.Inserting(h, r), r);
  }

  lemma ParkedLive(s: State, h: H.History, t: nat, r: nat, sched: nat, cur: nat, early: bool, twice: bool)
    requires ParksRow(s, h, t, r, sched, cur) && Live(s, h, s.threads[t].turn, sched, cur, early, twice)
    ensures var turn, s' := s.threads[t].turn, ParkedAt(s, t);
            turn in s'.notes && Live(s', H.Inserting(h, r), turn, sched, cur, early, twice)
  {
    hide SchedOk, FullOk, CleanOk, RowsMatch, H.Inserting, Alone, Parked;
    var th := s.threads[t];
    ParkedSched(s, h, t, r, sched, cur);
    ParkedFull(s, h, t, r, sched, cur);
    ParkedWork(s, h, t, r, sched, cur);
    ParkedClean(s, h, t, r, sched, cur, early, twice);
    RowGoesIn(s, h, th.turn, r, s.rows[th.pid].chat);
    SameRowsMatch(Parked(s, th.turn, s.rows[th.pid].chat), ParkedAt(s, t), H.Inserting(h, r), th.turn);
  }

  lemma SameRowsMatch(s: State, s': State, h: H.History, turn: nat)
    requires s'.rows == s.rows && RowsMatch(s, h, turn)
    ensures RowsMatch(s', h, turn)
  {
    hide TurnRows;
  }

  /** The scheduler's thread parks one more row, or is done. */
  lemma ParkingLive(s: State, h: H.History, t: nat, sched: nat, cur: nat, early: bool, twice: bool)
    requires Enabled(s, Step(t, Choice(false, 0, 0))) && s.threads[t].pc.Parking? && s.threads[t].turn in s.notes
    requires Live(s, h, s.threads[t].turn, sched, cur, early, twice)
    ensures var turn, left := s.threads[t].turn, s.threads[t].pc.left;
            var s' := ThreadStep(s, t, Choice(false, 0, 0));
            && t == sched && turn in s'.notes && h.runs != []
            && (left == 0 ==> Live(s', h, turn, sched, cur, early, twice))
            && (left > 0 ==> Left(h.runs[0]) > 0 && Live(s', H.Inserting(h, 0), turn, sched, cur, early, twice))
  {
    hide Live, H.Inserting, Parked, FullOk, WorkOk, CleanOk, RowsMatch;
    ParkingIsSched(s, h, t, sched, cur, early, twice);
    if s.threads[t].pc.left > 0 {
      ParkedLive(s, h, t, 0, sched, cur, early, twice);
      assert ThreadStep(s, t, Choice(false, 0, 0)) == ParkedAt(s, t);
    } else {
      ParkingEnds(s, h, t, sched, cur, early, twice);
    }
  }

  lemma ParkingIsSched(s: State, h: H.History, t: nat, sched: nat, cur: nat, early: bool, twice: bool)
    requires t < |s.threads| && s.threads[t].turn in s.notes && Live(s, h, s.threads[t].turn, sched, cur, early, twice) && s.threads[t].pc.Parking?
    ensures t == sched && h.runs != [] && s.threads[t].pc.left == Left(h.runs[0])
  {
    hide FullOk, WorkOk, CleanOk, RowsMatch;
  }

  lemma ParkingEnds(s: State, h: H.History, t: nat, sched: nat, cur: nat, early: bool, twice: bool)
    requires t < |s.threads| && s.threads[t].pc == Parking(0) && s.threads[t].turn in s.notes
    requires t == sched && Live(s, h, s.threads[t].turn, sched, cur, early, twice)
    ensures Live(At(s, t, Done), h, s.threads[t].turn, sched, cur, early, twice)
  {
    hide TurnRows, H.NeverAgain;
    StillBusy(s, At(s, t, Done), t);
  }

  lemma StillBusy(s: State, s': State, t: nat)
    requires t < |s.threads| && |s'.threads| == |s.threads| && !s.threads[t].pc.Driving? && !s.threads[t].pc.Reparking?
    requires forall u :: 0 <= u < |s.threads| && u != t ==> s'.threads[u] == s.threads[u]
    ensures Busy(s, s.threads[t].turn) ==> Busy(s', s.threads[t].turn)
  {
    if u :| 0 <= u < |s.threads| && s.threads[u].turn == s.threads[t].turn && (s.threads[u].pc.Driving? || s.threads[u].pc.Reparking?) {
      assert s'.threads[u] == s.threads[u];
    }
  }

  /** Inserting a row says nothing new about how runs came about. */
  lemma SameFlags(h: H.History, h': H.History, r: nat)
    requires r < |h.runs| && h'.runs == h.runs[r := h.runs[r].(inserted := h.runs[r].inserted + 1)]
    ensures H.NeverAgain(h.runs) ==> H.NeverAgain(h'.runs)
    ensures forall i :: 0 <= i < |h.runs| ==> h'.runs[i].half == h.runs[i].half && h'.runs[i].driven == h.runs[i].driven
  {
    assert forall i :: 0 <= i < |h.runs| ==> h'.runs[i].again == h.runs[i].again;
  }

  /** The worker parks one more row, or leaves. */
  lemma ReparkLive(s: State, h: H.History, t: nat, c: Choice, sched: nat, cur: nat, early: bool, twice: bool)
    requires R.TurnsOk(s) && Enabled(s, Step(t, c)) && s.threads[t].pc.Reparking? && s.threads[t].turn in s.notes
    requires Live(s, h, s.threads[t].turn, sched, cur, early, twice)
    ensures var turn, left := s.threads[t].turn, s.threads[t].pc.left;
            var s' := ThreadStep(s, t, c);
            && turn in s'.notes && 0 < cur < |h.runs|
            && (left == 0 ==> Live(s', h, turn, sched, cur, early, twice))
            && (left > 0 ==> Left(h.runs[cur]) > 0 && Live(s', H.Inserting(h, cur), turn, sched, cur, early, twice))
  {
    hide Live, H.Inserting, Parked, FullOk, SchedOk, CleanOk, RowsMatch, R.TurnsOk, Alone;
    WorkerIsAlone(s, t);
    ReparkingIsLast(s, h, t, sched, cur, early, twice);
    if s.threads[t].pc.left > 0 {
      ParkedLive(s, h, t, cur, sched, cur, early, twice);
      assert ThreadStep(s, t, c) == ParkedAt(s, t);
    } else {
      ReparkEnds(s, h, t, sched, cur, early, twice);
    }
  }

  lemma ReparkingIsLast(s: State, h: H.History, t: nat, sched: nat, cur: nat, early: bool, twice: bool)
    requires t < |s.threads| && s.threads[t].turn in s.notes && Live(s, h, s.threads[t].turn, sched, cur, early, twice) && s.threads[t].pc.Reparking?
    ensures 0 < cur < |h.runs| && s.threads[t].pc.left == Left(h.runs[cur])
  {
    hide FullOk, SchedOk, CleanOk, RowsMatch;
  }

  lemma ReparkEnds(s: State, h: H.History, t: nat, sched: nat, cur: nat, early: bool, twice: bool)
    requires t < |s.threads| && s.threads[t].pc == Reparking(0) && s.threads[t].turn in s.notes && Alone(s, t)
    requires Live(s, h, s.threads[t].turn, sched, cur, early, twice)
    ensures Live(At(s, t, Leaving), h, s.threads[t].turn, sched, cur, early, twice)
  {
    hide TurnRows, H.NeverAgain;
  }

  /** The worker has driven: it parks what its run parked. */
  lemma DrivingLive(s: State, h: H.History, t: nat, c: Choice, sched: nat, cur: nat, early: bool, twice: bool)
    requires R.TurnsOk(s) && Enabled(s, Step(t, c)) && s.threads[t].pc.Driving? && s.threads[t].turn in s.notes
    requires Live(s, h, s.threads[t].turn, sched, cur, early, twice)
    requires cur < |h.runs| && c.parks == |H.Calls(h.runs[cur])|
    ensures var s' := ThreadStep(s, t, c);
            s.threads[t].turn in s'.notes && Live(s', h, s.threads[t].turn, sched, cur, early, twice)
  {
    hide TurnRows, H.NeverAgain, R.TurnsOk, Parked;
    WorkerIsAlone(s, t);
    var s' := ThreadStep(s, t, c);
    assert forall u :: 0 <= u < |s.threads| && u != t ==> s'.threads[u] == s.threads[u];
    assert c.parks > 0 ==> s'.threads[t].turn == s.threads[t].turn && s'.threads[t].pc.Reparking?;
  }

  // ----- a drive --------------------------------------------------------------------------------------

  lemma BlocksIffUnresolved(r: A.Row, now: nat, text: string)
    ensures G.Blocks(AnswerOf(r, now, text)) <==> A.Unresolved(r, now)
  {
  }

  /** Whoever finds all rows resolved is not told to wait. */
  lemma ReadsResolved(s: State, h: H.History, turn: nat, texts: seq<string>)
    requires AllResolved(s, turn) && RowsMatch(s, h, turn)
    ensures var read := H.Listed(h, Answers(TurnRows(s.rows, turn), s.now, texts)); read != [] && !H.Blocked(read)
  {
    hide TurnRows, AnswerOf, A.Unresolved, G.Blocks;
    var rows := TurnRows(s.rows, turn);
    var answers := Answers(rows, s.now, texts);
    var n := if |h.rows| <= A.LIST_LIMIT then |h.rows| else A.LIST_LIMIT;
    H.TableTells(h, answers, n);
    var read := H.Listed(h, answers);
    forall i | 0 <= i < |read| ensures !G.Blocks(read[i].answer) {
      TurnRowsIn(s.rows, turn, i);
      BlocksIffUnresolved(rows[i], s.now, if i < |texts| then texts[i] else "");
    }
  }

  lemma DriveMoves(s: State, t: nat, c: Choice)
    requires Enabled(s, Step(t, c)) && s.threads[t].pc.Resuming? && s.threads[t].turn in s.notes && AllResolved(s, s.threads[t].turn)
    ensures var s', turn := ThreadStep(s, t, c), s.threads[t].turn;
            && s'.rows == s.rows && turn in s'.notes && s'.notes[turn].drives == s.notes[turn].drives + 1
            && s'.threads == s.threads[t := s.threads[t].(pc := Driving)]
  {
    hide AllResolved;
  }

  /** A run is appended that resumes the park of run `p`, and thread `t` drives it. */
  ghost predicate RunAppended(s: State, s': State, h: H.History, h': H.History, t: nat, p: nat)
    requires t < |s.threads| && s.threads[t].turn in s.notes
  {
    var n, turn := |h.runs|, s.threads[t].turn;
    && s'.rows == s.rows && turn in s'.notes && s'.notes[turn].drives == s.notes[turn].drives + 1
    && s'.threads == s.threads[t := s.threads[t].(pc := Driving)] && s.threads[t].pc.Resuming?
    && p < n && h'.rows == h.rows && |h'.runs| == n + 1
    && (forall i :: 0 <= i < n ==> h'.runs[i] == h.runs[i].(driven := h'.runs[i].driven))
    && h'.runs[n].inserted == 0 && !h'.runs[n].driven && h'.runs[n].half == (h.runs[p].inserted < |H.Calls(h.runs[p])|)
  }

  lemma DrivenSched(s: State, s': State, h: H.History, h': H.History, t: nat, p: nat, sched: nat)
    requires t < |s.threads| && s.threads[t].turn in s.notes && RunAppended(s, s', h, h', t, p) && SchedOk(s, h, s.threads[t].turn, sched)
    ensures SchedOk(s', h', s.threads[t].turn, sched)
  {
  }

  lemma DrivenWork(s: State, s': State, h: H.History, h': H.History, t: nat, p: nat)
    requires t < |s.threads| && s.threads[t].turn in s.notes && RunAppended(s, s', h, h', t, p) && Alone(s, t)
    ensures WorkOk(s', h', s.threads[t].turn, |h.runs|)
  {
  }

  lemma DrivenFull(s: State, s': State, h: H.History, h': H.History, t: nat, p: nat, cur: nat)
    requires t < |s.threads| && s.threads[t].turn in s.notes && RunAppended(s, s', h, h', t, p) && Alone(s, t)
    requires FullOk(s, h, s.threads[t].turn, cur)
    ensures FullOk(s', h', s.threads[t].turn, |h.runs|) && (p > 0 ==> Left(h.runs[p]) == 0)
  {
    var turn := s.threads[t].turn;
    assert !Busy(s, turn);
    assert s'.threads[t].turn == turn && s'.threads[t].pc.Driving? && Busy(s', turn);
  }

  /** Until a drive is early or a second one, nothing half inserted was driven and nothing twice. */
  lemma DrivenClean(s: State, s': State, h: H.History, h': H.History, t: nat, p: nat, sched: nat, early: bool, twice: bool)
    requires t < |s.threads| && s.threads[t].turn in s.notes && RunAppended(s, s', h, h', t, p) && SchedOk(s, h, s.threads[t].turn, sched)
    requires CleanOk(s, h, s.threads[t].turn, early, twice) && (p > 0 ==> Left(h.runs[p]) == 0)
    requires !early && !twice && !StillParking(s, sched) && s.notes[s.threads[t].turn].drives == 0 ==> H.NeverAgain(h'.runs)
    ensures CleanOk(s', h', s.threads[t].turn, early || StillParking(s, sched), twice || s.notes[s.threads[t].turn].drives > 0)
  {
    hide H.NeverAgain;
    assert !StillParking(s, sched) ==> Left(h.runs[0]) == 0;
  }

  /** A drive is a resume of the history, and what the tale says of it is true. */
  lemma DriveLive(w: G.Words, s: State, h: H.History, t: nat, c: Choice, said: Said, sched: nat, cur: nat, early: bool, twice: bool)
    requires R.TurnsOk(s) && Enabled(s, Step(t, c)) && s.threads[t].pc.Resuming? && s.threads[t].turn in s.notes
    requires AllResolved(s, s.threads[t].turn) && Live(s, h, s.threads[t].turn, sched, cur, early, twice)
    requires H.Sound(w, h) && H.Within(h) && H.InLine(h)
    ensures var turn := s.threads[t].turn;
            var h' := H.Next(w, h, H.Resume(said.env, Answers(TurnRows(s.rows, turn), s.now, said.texts), said.rs));
            var s' := ThreadStep(s, t, c);
            && turn in s'.notes
            && Live(s', h', turn, sched, |h.runs|, early || StillParking(s, sched), twice || s.notes[turn].drives > 0)
  {
    hide AllResolved, TurnRows, Answers, R.TurnsOk, H.Sound, H.Within, H.InLine, H.Listed, H.ParentOf, H.Resuming, H.Blocked, H.NeverAgain,
      ThreadStep, Alone, SchedOk, WorkOk, FullOk;
    var turn := s.threads[t].turn;
    var answers := Answers(TurnRows(s.rows, turn), s.now, said.texts);
    var read := H.Listed(h, answers);
    ReadsResolved(s, h, turn, said.texts);
    H.ListedTells(w, h, answers);
    H.ResumingTells(w, h, said.env, read, said.rs);
    DriveMoves(s, t, c);
    WorkerIsAlone(s, t);
    var s', h', p := ThreadStep(s, t, c), H.Resuming(w, h, said.env, read, said.rs), H.ParentOf(h, read);
    assert RunAppended(s, s', h, h', t, p);
    DrivenSched(s, s', h, h', t, p, sched);
    DrivenWork(s, s', h, h', t, p);
    DrivenFull(s, s', h, h', t, p, cur);
    if !early && !twice && !StillParking(s, sched) && s.notes[turn].drives == 0 {
      DriveClean(w, h, answers, h');
    }
    DrivenClean(s, s', h, h', t, p, sched, early, twice);
    SameRowsMatch(s, s', h, turn);
  }

  lemma DriveClean(w: G.Words, h: H.History, answers: seq<G.Answer>, h': H.History)
    requires H.Sound(w, h) && H.Within(h) && H.InLine(h) && H.NeverAgain(h.runs) && H.Listed(h, answers) != []
    requires h.runs != [] && !h.runs[|h.runs| - 1].driven && (|h.runs| > 1 ==> h.runs[|h.runs| - 1].inserted > 0)
    requires |h'.runs| == |h.runs| + 1 && forall i :: 0 <= i < |h.runs| ==> h'.runs[i] == h.runs[i].(driven := h'.runs[i].driven)
    requires var p := H.ParentOf(h, H.Listed(h, answers)); p < |h.runs| && h'.runs[|h.runs|].again == h.runs[p].driven
    ensures H.NeverAgain(h'.runs)
  {
    hide H.Sound, H.Within, H.Stocked, H.Listed, H.ParentOf, H.HalfOrWhole;
    H.ParentIsLast(w, h, answers);
    forall i | 0 <= i < |h'.runs| ensures !h'.runs[i].again {
      if i < |h.runs| { assert h'.runs[i].again == h.runs[i].again; }
    }
  }

  // ----- every run ------------------------------------------------------------------------------------

  ghost predicate PlainStory(st: Story) {
    forall i :: 0 <= i < |st.base| ==> st.base[i].Plain?
  }

  lemma HistoryIsSound(st: Story, p: Tale)
    requires PlainStory(st)
    ensures var h := Hist(st, p); H.Sound(st.w, h) && H.Within(h) && H.InLine(h) && h.runs != []
  {
    hide H.Lived, H.Within, H.RunOk;
    var start := H.Opening(st.env, st.base, st.rs);
    H.OpeningIsSound(st.w, st.env, st.base, st.rs);
    H.OpeningIsWithin(st.w, start);
    assert H.InLine(start) by { H.NoRowsOf([], 0); }
    H.EveryHistoryIsSound(st.w, start, p.hs);
    H.EveryHistoryIsWithin(st.w, start, p.hs);
    H.EveryHistoryIsInLine(st.w, start, p.hs);
  }

  lemma {:induction false} NoTurnRows(rows: seq<A.Row>, turn: nat)
    requires forall i :: 0 <= i < |rows| ==> rows[i].turn != turn
    ensures TurnRows(rows, turn) == []
    decreases |rows|
  {
    if rows != [] { NoTurnRows(rows[..|rows| - 1], turn); }
  }

  /** The turn begins: its first row, and the thread that parks the others. */
  lemma BeginLive(s: State, e: Event, h: H.History, cur: nat)
    requires RowsOk(s) && e.Begin? && e.scheduled && Enabled(s, e)
    requires |h.runs| == 1 && h.rows == [] && h.runs[0].inserted == 0 && e.parks == |H.Calls(h.runs[0])|
    requires !h.runs[0].driven && !h.runs[0].half && !h.runs[0].again
    ensures var s' := ApprovalProtocol.Next(s, e);
            e.turn in s'.notes && Live(s', H.Inserting(h, 0), e.turn, |s.threads|, cur, false, false)
  {
    hide AllResolved, HasToken, TurnRows, RowsOk;
    var s' := ApprovalProtocol.Next(s, e);
    forall t | 0 <= t < |s.threads| ensures s.threads[t].turn != e.turn { PidOf(s, t); }
    NoTurnRows(s.rows, e.turn);
    OneTurnRow(s.rows, s'.rows[|s.rows|], e.turn);
    assert s'.rows == s.rows + [s'.rows[|s.rows|]];
    assert forall t :: 0 <= t < |s.threads| ==> s'.threads[t] == s.threads[t];
  }

  /** Before the turn begins nothing concerns it. */
  lemma StaysUnused(s: State, e: Event, turn: nat)
    requires RowsOk(s) && R.TurnsOk(s) && Enabled(s, e) && turn !in s.notes && !TurnUsed(s, turn)
    requires e.Begin? ==> e.turn != turn
    ensures var s' := ApprovalProtocol.Next(s, e); turn !in s'.notes && !TurnUsed(s', turn)
    ensures e.Step? ==> s.threads[e.thread].turn != turn
  {
    hide RowsOk, R.TurnsOk, ThreadStep, AllResolved, HasToken, SweepHits;
    if e.Step? {
      PidOf(s, e.thread);
      R.StepIsOwnTurn(s, e.thread, e.choice);
    }
  }

  lemma BeginKeeps(st: Story, p: Tale, e: Event, said: Said)
    requires PlainStory(st) && TaleOk(st, p) && Fits(st, p, e) && RowsOk(Reached(p.es)) && e.Begin? && e.turn == st.turn
    ensures TaleOk(st, Told(st, p, e, said))
  {
    hide ApprovalProtocol.Next, Reached, Live, G.Loop, RowsOk;
    R.Then(p.es, e);
    LivedMore(st, p.(es := p.es + [e], sched := |Reached(p.es).threads|), H.Insert(0));
    BeginLive(Reached(p.es), e, Hist(st, p), p.cur);
  }

  lemma UnusedKeeps(st: Story, p: Tale, e: Event, said: Said)
    requires TaleOk(st, p) && Fits(st, p, e) && RowsOk(Reached(p.es)) && R.TurnsOk(Reached(p.es))
    requires st.turn !in Reached(p.es).notes && (e.Begin? ==> e.turn != st.turn)
    ensures TaleOk(st, Told(st, p, e, said))
  {
    hide ApprovalProtocol.Next, Reached, RowsOk, R.TurnsOk, TurnUsed, Enabled;
    R.Then(p.es, e);
    StaysUnused(Reached(p.es), e, st.turn);
  }

  /** The event leaves the turn where it is. */
  lemma CoolKeeps(st: Story, p: Tale, e: Event, said: Said)
    requires TaleOk(st, p) && Fits(st, p, e) && st.turn in Reached(p.es).notes
    requires Stays(Reached(p.es), ApprovalProtocol.Next(Reached(p.es), e), st.turn)
    requires Told(st, p, e, said) == p.(es := p.es + [e])
    ensures TaleOk(st, Told(st, p, e, said))
  {
    hide ApprovalProtocol.Next, Reached, Live, Fits, Told, Enabled;
    assert Enabled(Reached(p.es), e) by { FitsEnabled(st, p, e); }
    R.Then(p.es, e);
    StaysLive(Reached(p.es), ApprovalProtocol.Next(Reached(p.es), e), Hist(st, p), st.turn, p.sched, p.cur, p.early, p.twice);
    assert Hist(st, p.(es := p.es + [e])) == Hist(st, p);
  }

  lemma LiveTale(st: Story, q: Tale, s: State, h: H.History)
    requires Reached(q.es) == s && Hist(st, q) == h && st.turn in s.notes
    requires Live(s, h, st.turn, q.sched, q.cur, q.early, q.twice)
    ensures TaleOk(st, q)
  {
    hide Reached, Hist, Live;
  }

  lemma TaleLive(st: Story, p: Tale)
    requires TaleOk(st, p) && st.turn in Reached(p.es).notes
    ensures Live(Reached(p.es), Hist(st, p), st.turn, p.sched, p.cur, p.early, p.twice)
  {
    hide Reached, Hist, Live;
  }

  lemma FitsEnabled(st: Story, p: Tale, e: Event)
    requires Fits(st, p, e)
    ensures Enabled(Reached(p.es), e)
  {
  }

  lemma ParkingChooses(s: State, t: nat, c: Choice)
    requires t < |s.threads| && s.threads[t].pid < |s.rows| && s.threads[t].pc.Parking?
    ensures ThreadStep(s, t, c) == ThreadStep(s, t, Choice(false, 0, 0))
  {
    hide Parked;
  }

  lemma ParkingKeeps(st: Story, p: Tale, t: nat, c: Choice, said: Said)
    requires TaleOk(st, p) && Fits(st, p, Step(t, c)) && st.turn in Reached(p.es).notes
    requires Reached(p.es).threads[t].turn == st.turn && Reached(p.es).threads[t].pc.Parking?
    ensures TaleOk(st, Told(st, p, Step(t, c), said))
  {
    hide Reached, Live, AllResolved, ThreadStep;
    var s := Reached(p.es);
    R.Then(p.es, Step(t, c));
    ParkingLive(s, Hist(st, p), t, p.sched, p.cur, p.early, p.twice);
    ParkingChooses(s, t, c);
    var q, h := p.(es := p.es + [Step(t, c)]), Hist(st, p);
    assert Hist(st, q) == h;
    hide Hist;
    if s.threads[t].pc.left > 0 {
      LivedMore(st, q, H.Insert(0));
      assert H.Next(st.w, h, H.Insert(0)) == H.Inserting(h, 0);
    }
  }

  lemma ReparkKeeps(st: Story, p: Tale, t: nat, c: Choice, said: Said)
    requires TaleOk(st, p) && Fits(st, p, Step(t, c)) && st.turn in Reached(p.es).notes && R.TurnsOk(Reached(p.es))
    requires Reached(p.es).threads[t].turn == st.turn && Reached(p.es).threads[t].pc.Reparking?
    ensures TaleOk(st, Told(st, p, Step(t, c), said))
  {
    hide Reached, Live, ThreadStep, AllResolved, R.TurnsOk, TaleOk, Hist;
    var s, h := Reached(p.es), Hist(st, p);
    R.Then(p.es, Step(t, c));
    TaleLive(st, p);
    ReparkLive(s, h, t, c, p.sched, p.cur, p.early, p.twice);
    var q := p.(es := p.es + [Step(t, c)]);
    SameHist(st, p, q);
    if s.threads[t].pc.left == 0 {
      LiveTale(st, q, ThreadStep(s, t, c), h);
    } else {
      LivedMore(st, q, H.Insert(p.cur));
      assert H.Next(st.w, h, H.Insert(p.cur)) == H.Inserting(h, p.cur);
      LiveTale(st, q.(hs := q.hs + [H.Insert(p.cur)]), ThreadStep(s, t, c), H.Inserting(h, p.cur));
    }
  }

  lemma SameHist(st: Story, p: Tale, q: Tale)
    requires q.hs == p.hs
    ensures Hist(st, q) == Hist(st, p)
  {
  }

  lemma DrivingKeeps(st: Story, p: Tale, t: nat, c: Choice, said: Said)
    requires TaleOk(st, p) && Fits(st, p, Step(t, c)) && st.turn in Reached(p.es).notes && R.TurnsOk(Reached(p.es))
    requires Reached(p.es).threads[t].turn == st.turn && Reached(p.es).threads[t].pc.Driving?
    ensures TaleOk(st, Told(st, p, Step(t, c), said))
  {
    hide Reached, Live, ThreadStep, AllResolved, R.TurnsOk;
    R.Then(p.es, Step(t, c));
    DrivingLive(Reached(p.es), Hist(st, p), t, c, p.sched, p.cur, p.early, p.twice);
    assert Hist(st, p.(es := p.es + [Step(t, c)])) == Hist(st, p);
  }

  lemma DriveKeeps(st: Story, p: Tale, t: nat, c: Choice, said: Said)
    requires PlainStory(st) && TaleOk(st, p) && Fits(st, p, Step(t, c)) && st.turn in Reached(p.es).notes && R.TurnsOk(Reached(p.es))
    requires Reached(p.es).threads[t].turn == st.turn && Reached(p.es).threads[t].pc.Resuming? && AllResolved(Reached(p.es), st.turn)
    ensures TaleOk(st, Told(st, p, Step(t, c), said))
  {
    hide Reached, Live, ThreadStep, AllResolved, R.TurnsOk, H.Sound, H.Within, H.InLine, H.Next, Answers, TaleOk, Hist, PlainStory;
    var s, h := Reached(p.es), Hist(st, p);
    R.Then(p.es, Step(t, c));
    HistoryIsSound(st, p);
    TaleLive(st, p);
    DriveLive(st.w, s, h, t, c, said, p.sched, p.cur, p.early, p.twice);
    var e := H.Resume(said.env, Answers(TurnRows(s.rows, st.turn), s.now, said.texts), said.rs);
    var q := Told(st, p, Step(t, c), said);
    LivedMore(st, p, e);
    SameHist(st, p.(hs := p.hs + [e]), q);
    LiveTale(st, q, ThreadStep(s, t, c), H.Next(st.w, h, e));
  }

  /** One more event. */
  lemma {:induction false} TellKeeps(st: Story, p: Tale, e: Event, said: Said)
    requires PlainStory(st) && TaleOk(st, p) && Fits(st, p, e)
    ensures TaleOk(st, Told(st, p, e, said))
  {
    hide TaleOk, Reached, RowsOk, R.TurnsOk, ThreadStep, AllResolved, Stays;
    var s := Reached(p.es);
    R.EveryRunKeepsTurns(p.es);
    if e.Begin? && e.turn == st.turn {
      BeginKeeps(st, p, e, said);
    } else if st.turn !in s.notes {
      UnusedKeeps(st, p, e, said);
    } else if !e.Step? {
      OutsideStays(s, e, st.turn);
      CoolKeeps(st, p, e, said);
    } else if s.threads[e.thread].turn != st.turn {
      OthersStay(s, e.thread, e.choice, st.turn);
      CoolKeeps(st, p, e, said);
    } else {
      OwnStepKeeps(st, p, e.thread, e.choice, said);
    }
  }

  lemma {:induction false} OwnStepKeeps(st: Story, p: Tale, t: nat, c: Choice, said: Said)
    requires PlainStory(st) && TaleOk(st, p) && Fits(st, p, Step(t, c)) && st.turn in Reached(p.es).notes
    requires RowsOk(Reached(p.es)) && R.TurnsOk(Reached(p.es)) && Reached(p.es).threads[t].turn == st.turn
    ensures TaleOk(st, Told(st, p, Step(t, c), said))
  {
    hide TaleOk, Reached, RowsOk, R.TurnsOk, ThreadStep, AllResolved, Stays, Answers;
    var s := Reached(p.es);
    var pc := s.threads[t].pc;
    if pc.Parking? {
      ParkingKeeps(st, p, t, c, said);
    } else if pc.Reparking? {
      ReparkKeeps(st, p, t, c, said);
    } else if pc.Driving? {
      DrivingKeeps(st, p, t, c, said);
    } else if pc.Resuming? && AllResolved(s, st.turn) {
      DriveKeeps(st, p, t, c, said);
    } else {
      CoolStays(s, t, c);
      CoolKeeps(st, p, Step(t, c), said);
    }
  }

  /** Every run of the protocol, with whatever the model says at each drive, tells a history of
      the turn. */
  lemma {:induction false} EveryTaleIsTrue(st: Story, es: seq<(Event, Said)>)
    requires PlainStory(st)
    ensures TaleOk(st, Tell(st, es))
    decreases |es|
  {
    hide TaleOk, Fits, Told;
    if es == [] {
      NothingTold(st);
    } else {
      EveryTaleIsTrue(st, es[..|es| - 1]);
      var p := Tell(st, es[..|es| - 1]);
      if Fits(st, p, es[|es| - 1].0) {
        TellKeeps(st, p, es[|es| - 1].0, es[|es| - 1].1);
      }
    }
  }

  lemma NothingTold(st: Story)
    ensures TaleOk(st, Tell(st, []))
  {
    assert Reached([]) == Start;
  }

  /** End to end: in every run of the protocol, if no worker drove the turn while a row was
      still to be parked, and none drove it twice since its last row was parked, then every
      transcript the model was shown is paired, and all drives together made at most eight round
      trips and eight tool calls. */
  lemma {:induction false} ProtocolKeepsTranscripts(st: Story, es: seq<(Event, Said)>)
    requires PlainStory(st) && !Tell(st, es).early && !Tell(st, es).twice
    ensures var runs := Hist(st, Tell(st, es)).runs;
            && (forall i :: 0 <= i < |runs| ==> H.ShowsPaired(runs[i]))
            && H.Sum(runs, H.Shown) <= G.MAX_STEPS && H.Sum(runs, H.Spent) <= G.MAX_TOOL_CALLS
  {
    hide Tell, H.ShowsPaired, H.Lived, H.Sum, Reached, H.NeverAgain;
    var p := Tell(st, es);
    EveryTaleIsTrue(st, es);
    NeverAgainYet(st, p);
    H.HalfParkedIff(st.w, st.env, st.base, st.rs, p.hs);
    H.BudgetsSurvive(st.w, st.env, st.base, st.rs, p.hs);
    H.NoneAgain(Hist(st, p).runs);
  }

  lemma NeverAgainYet(st: Story, p: Tale)
    requires PlainStory(st) && TaleOk(st, p) && !p.early && !p.twice
    ensures var runs := Hist(st, p).runs; H.NeverAgain(runs) && forall i :: 0 <= i < |runs| ==> !runs[i].half
  {
    hide G.Loop, Reached;
    if st.turn !in Reached(p.es).notes {
      assert Hist(st, p) == H.Opening(st.env, st.base, st.rs);
    }
  }
}

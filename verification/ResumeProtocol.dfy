/** Resuming scheduled turns: who drives a batch, when no one will, and when it is driven twice
    (app/smartbrain_3000/agent_routes.py: _all_pending_resolved, _maybe_finish_scheduled_turn,
    _launch_scheduled_resume, _resume_scheduled_worker). */
module ResumeProtocol {
  import opened Prelude
  import opened Approvals
  import opened ApprovalProtocol

  predicate Working(pc: Pc) {
    pc.Resuming? || pc.Driving? || pc.Reparking? || pc.Leaving?
  }

  /** A thread that is still going to make the check, or to drive the turn as it stands. */
  predicate Obliging(pc: Pc, gen: nat) {
    Coming(pc) || pc == Launching(gen) || pc == Resuming(gen)
  }

  ghost predicate Obliged(s: State, turn: nat, gen: nat) {
    exists t :: 0 <= t < |s.threads| && s.threads[t].turn == turn && Obliging(s.threads[t].pc, gen)
  }

  ghost predicate HasComing(s: State, turn: nat) {
    exists t :: 0 <= t < |s.threads| && s.threads[t].turn == turn && Coming(s.threads[t].pc)
  }

  ghost predicate OneToken(s: State, turn: nat) {
    forall t, u :: (0 <= t < |s.threads| && 0 <= u < |s.threads| && s.threads[t].turn == turn && s.threads[u].turn == turn
      && Token(s.threads[t].pc) && Token(s.threads[u].pc)) ==> t == u
  }

  /** The worker of the turn has not looked at the rows yet. */
  ghost predicate Starting(s: State, turn: nat) {
    && turn in s.resuming && turn in s.driver && s.driver[turn] < |s.threads|
    && s.threads[s.driver[turn]].turn == turn && s.threads[s.driver[turn]].pc.Resuming?
  }

  // ----- the invariant -------------------------------------------------------------------------------

  /** A worker belongs to a turn of the set and is the one that drives it; whoever found the
      rows resolved found them so for good, unless more were parked. */
  ghost predicate ThreadOk(s: State, t: nat)
    requires t < |s.threads|
  {
    var th := s.threads[t];
    && (Working(th.pc) ==> th.turn in s.resuming && th.turn in s.driver && s.driver[th.turn] == t)
    && (Working(th.pc) || Token(th.pc) || th.pc.Checking? ==> th.turn in s.notes)
    && (Token(th.pc) ==>
          && th.pc.gen <= s.notes[th.turn].gen
          && (if th.pc.gen == s.notes[th.turn].gen then AllResolved(s, th.turn) else s.notes[th.turn].ahead))
  }

  /** Some thread works for every turn of the set. */
  ghost predicate Driven(s: State, turn: nat) {
    && turn in s.notes && turn in s.driver && s.driver[turn] < |s.threads|
    && s.threads[s.driver[turn]].turn == turn && Working(s.threads[s.driver[turn]].pc)
  }

  /** A worker that stands in the way of a launch drove the turn as it stands, is about to, or
      dates from before the last row. */
  ghost predicate RaceOk(s: State, turn: nat)
    requires turn in s.notes
  {
    var n := s.notes[turn];
    turn in s.resuming || n.refused ==>
      n.overlap || n.ahead || n.drives > 0 || (Starting(s, turn) && s.threads[s.driver[turn]].pc == Resuming(n.gen))
  }

  /** A turn whose rows are all resolved is driven, unless someone has yet to check or to start,
      a launch was refused, or the sweep came last. */
  ghost predicate SettledOk(s: State, turn: nat)
    requires turn in s.notes
  {
    var n := s.notes[turn];
    AllResolved(s, turn) && !Obliged(s, turn, n.gen) ==> n.drives > 0 || n.refused || n.swept
  }

  ghost predicate CheckedOk(s: State, turn: nat)
    requires turn in s.notes
  {
    s.notes[turn].checked || s.notes[turn].drives > 0 ==> AllResolved(s, turn)
  }

  /** The turn is driven again exactly when a worker was launched though it had been driven. */
  ghost predicate AgainOk(s: State, turn: nat)
    requires turn in s.notes
  {
    var n := s.notes[turn];
    && (n.drives >= 2 || (n.drives >= 1 && Starting(s, turn)) ==> n.again)
    && (n.again ==> n.drives >= 1 && (n.drives >= 2 || Starting(s, turn)))
  }

  /** One check leads to one drive at most. */
  ghost predicate OnceOk(s: State, turn: nat)
    requires turn in s.notes
  {
    var n := s.notes[turn];
    !n.ahead && !n.rival ==>
      && n.drives <= 1 && OneToken(s, turn)
      && (HasToken(s, turn) ==> n.drives == 0 && n.checked)
      && (n.drives > 0 ==> n.checked) && (n.checked ==> !HasComing(s, turn))
  }

  /** With nothing older at work, the turn is driven by whoever passed the check, and by
      nobody else. */
  ghost predicate PassedOk(s: State, turn: nat)
    requires turn in s.notes
  {
    var n := s.notes[turn];
    !n.ahead ==>
      && (n.drives > 0 || HasToken(s, turn) ==> n.checked)
      && (n.checked && !n.overlap ==> n.drives > 0 || HasToken(s, turn))
  }

  ghost predicate TurnOk(s: State, turn: nat)
    requires turn in s.notes
  {
    && RaceOk(s, turn) && SettledOk(s, turn) && CheckedOk(s, turn) && AgainOk(s, turn) && OnceOk(s, turn)
    && PassedOk(s, turn)
  }

  ghost predicate TurnsOk(s: State) {
    && (forall t :: 0 <= t < |s.threads| ==> ThreadOk(s, t))
    && (forall turn :: turn in s.resuming ==> Driven(s, turn))
    && (forall turn :: turn in s.notes ==> TurnOk(s, turn))
  }

  // ----- a turn that a step does not concern -----------------------------------------------------

  /** Everything the invariant says of a turn is as it was; threads of other turns may have
      moved. */
  ghost predicate SameTurn(s: State, s': State, turn: nat) {
    && |s.threads| <= |s'.threads| && AllResolved(s', turn) == AllResolved(s, turn)
    && (forall u :: 0 <= u < |s.threads| && s.threads[u].turn == turn ==> s'.threads[u] == s.threads[u])
    && (forall u :: 0 <= u < |s'.threads| && s'.threads[u].turn == turn ==>
          u < |s.threads| && s.threads[u] == s'.threads[u])
    && (turn in s.notes <==> turn in s'.notes) && (turn in s.notes ==> s'.notes[turn] == s.notes[turn])
    && (turn in s.resuming <==> turn in s'.resuming)
    && (turn in s.driver ==> turn in s'.driver && s'.driver[turn] == s.driver[turn])
    && (turn in s.resuming ==> turn in s.driver)
  }

  lemma SameTurnSets(s: State, s': State, turn: nat, gen: nat)
    requires SameTurn(s, s', turn)
    ensures Obliged(s', turn, gen) == Obliged(s, turn, gen) && HasComing(s', turn) == HasComing(s, turn)
    ensures HasToken(s', turn) == HasToken(s, turn)
  {
    hide AllResolved;
  }

  lemma SameTurnOk(s: State, s': State, turn: nat)
    requires SameTurn(s, s', turn) && turn in s.notes && TurnOk(s, turn)
    requires turn in s.resuming ==> Driven(s, turn)
    ensures TurnOk(s', turn)
  {
    hide AllResolved, HasToken, HasComing, Obliged;
    SameTurnSets(s, s', turn, s.notes[turn].gen);
  }

  // ----- steps of one thread ------------------------------------------------------------------------

  /** Thread `t` moved and did something to its own turn only. */
  ghost predicate OwnTurn(s: State, s': State, t: nat)
    requires t < |s.threads|
  {
    var turn := s.threads[t].turn;
    && s'.now == s.now && |s.rows| <= |s'.rows| && |s.threads| <= |s'.threads|
    && (forall p :: 0 <= p < |s.rows| ==> s'.rows[p].turn == s.rows[p].turn)
    && (forall p :: 0 <= p < |s.rows| && s.rows[p].turn != turn ==> s'.rows[p] == s.rows[p])
    && (forall p :: |s.rows| <= p < |s'.rows| ==> s'.rows[p].turn == turn)
    && (forall u :: 0 <= u < |s.threads| && u != t ==> s'.threads[u] == s.threads[u])
    && (forall u :: |s.threads| <= u < |s'.threads| ==> s'.threads[u].turn == turn)
    && s'.threads[t].turn == turn
    && s'.notes.Keys == s.notes.Keys && (forall x :: x in s.notes && x != turn ==> s'.notes[x] == s.notes[x])
    && (forall x :: x != turn ==> (x in s'.resuming <==> x in s.resuming))
    && (forall x :: x != turn && x in s.driver ==> x in s'.driver && s'.driver[x] == s.driver[x])
  }

  lemma OtherTurnSame(s: State, s': State, t: nat, turn: nat)
    requires t < |s.threads| && OwnTurn(s, s', t) && turn != s.threads[t].turn && (turn in s.resuming ==> turn in s.driver)
    ensures SameTurn(s, s', turn)
  {
    if AllResolved(s', turn) {
      forall p | 0 <= p < |s.rows| && s.rows[p].turn == turn ensures !Unresolved(s.rows[p], s.now) {
        assert s'.rows[p] == s.rows[p];
      }
    }
  }

  lemma OtherTurnOk(s: State, s': State, t: nat, turn: nat)
    requires TurnsOk(s) && t < |s.threads| && OwnTurn(s, s', t) && turn != s.threads[t].turn
    ensures turn in s'.notes ==> TurnOk(s', turn)
    ensures turn in s'.resuming ==> Driven(s', turn)
  {
    hide AllResolved, TurnOk;
    if turn in s'.resuming { assert Driven(s, turn); }
    OtherTurnSame(s, s', t, turn);
    if turn in s'.notes { SameTurnOk(s, s', turn); }
  }

  lemma OtherThreadOk(s: State, s': State, t: nat, u: nat)
    requires TurnsOk(s) && t < |s.threads| && OwnTurn(s, s', t) && u < |s.threads| && u != t
    requires s.threads[u].turn != s.threads[t].turn
    ensures ThreadOk(s', u)
  {
    hide AllResolved, TurnOk;
    assert ThreadOk(s, u);
    if s.threads[u].turn in s.resuming { assert Driven(s, s.threads[u].turn); }
    OtherTurnSame(s, s', t, s.threads[u].turn);
  }

  /** What is left to show of a step: the threads of its own turn, and that turn. */
  lemma {:induction false} OwnTurnKeeps(s: State, s': State, t: nat)
    requires TurnsOk(s) && t < |s.threads| && OwnTurn(s, s', t)
    requires forall u :: 0 <= u < |s'.threads| && s'.threads[u].turn == s.threads[t].turn ==> ThreadOk(s', u)
    requires s.threads[t].turn in s'.resuming ==> Driven(s', s.threads[t].turn)
    requires s.threads[t].turn in s'.notes ==> TurnOk(s', s.threads[t].turn)
    ensures TurnsOk(s')
  {
    hide ThreadOk, Driven, TurnOk;
    var turn := s.threads[t].turn;
    forall u | 0 <= u < |s'.threads| ensures ThreadOk(s', u) {
      if s'.threads[u].turn != turn {
        OtherThreadOk(s, s', t, u);
      }
    }
    forall x | x in s'.resuming ensures Driven(s', x) {
      if x != turn { OtherTurnOk(s, s', t, x); }
    }
    forall x | x in s'.notes ensures TurnOk(s', x) {
      if x != turn { OtherTurnOk(s, s', t, x); }
    }
  }

  // ----- a step of a request ---------------------------------------------------------------------------

  /** The rows of the turn only got further resolved, the set and the notes of the turn are
      as they were (but for `swept`), the thread is bound to check if it resolved a row, and it
      could only resolve one that was not. */
  ghost predicate RequestStep(s: State, s': State, t: nat)
    requires t < |s.threads|
  {
    && OwnTurn(s, s', t) && |s'.rows| == |s.rows| && |s'.threads| == |s.threads|
    && var turn, was, now := s.threads[t].turn, s.threads[t].pc, s'.threads[t].pc;
    && !Working(was) && !Working(now) && !Token(was) && !Token(now)
    && s'.resuming == s.resuming && s'.driver == s.driver
    && (turn in s.notes ==> s'.notes[turn] == s.notes[turn].(swept := s'.notes[turn].swept))
    && (forall p :: 0 <= p < |s.rows| ==> !Unresolved(s.rows[p], s.now) ==> !Unresolved(s'.rows[p], s'.now))
    && (now.Checking? ==> turn in s.notes)
    && (Coming(now) && AllResolved(s, turn) ==> Coming(was))
    && (turn in s.notes && AllResolved(s', turn) && !Coming(now) ==>
          s'.notes == s.notes && s'.rows == s.rows && !Coming(was))
  }

  lemma StillResolved(s: State, s': State, t: nat)
    requires t < |s.threads| && RequestStep(s, s', t)
    ensures AllResolved(s, s.threads[t].turn) ==> AllResolved(s', s.threads[t].turn)
  {
  }

  lemma {:induction false} RequestKeeps(s: State, s': State, t: nat)
    requires TurnsOk(s) && t < |s.threads| && RequestStep(s, s', t)
    ensures TurnsOk(s')
  {
    hide AllResolved, TurnOk;
    var turn := s.threads[t].turn;
    StillResolved(s, s', t);
    forall u | 0 <= u < |s'.threads| && s'.threads[u].turn == turn ensures ThreadOk(s', u) {
      assert ThreadOk(s, u);
    }
    if turn in s'.resuming {
      assert Driven(s, turn) && s.driver[turn] != t;
    }
    if turn in s'.notes {
      RequestTurnOk(s, s', t);
    }
    OwnTurnKeeps(s, s', t);
  }

  lemma RequestTurnOk(s: State, s': State, t: nat)
    requires t < |s.threads| && RequestStep(s, s', t)
    requires s.threads[t].turn in s.notes && TurnOk(s, s.threads[t].turn)
    requires s.threads[t].turn in s.resuming ==> s.threads[t].turn in s.driver && s.driver[s.threads[t].turn] != t
    ensures TurnOk(s', s.threads[t].turn)
  {
    hide AllResolved, Obliged, HasToken, HasComing;
    var turn := s.threads[t].turn;
    StillResolved(s, s', t);
    RequestSets(s, s', t, s.notes[turn].gen);
    if s'.rows == s.rows { SameRows(s, s', turn); }
  }

  /** Its effect on the turn's threads. */
  lemma RequestSets(s: State, s': State, t: nat, gen: nat)
    requires t < |s.threads| && RequestStep(s, s', t)
    ensures var turn := s.threads[t].turn;
            && HasToken(s', turn) == HasToken(s, turn)
            && (OneToken(s, turn) ==> OneToken(s', turn))
            && (HasComing(s', turn) ==> HasComing(s, turn) || !AllResolved(s, turn))
            && (Coming(s'.threads[t].pc) ==> Obliged(s', turn, gen))
            && (!Coming(s.threads[t].pc) && Obliged(s, turn, gen) ==> Obliged(s', turn, gen))
  {
    hide AllResolved;
    var turn := s.threads[t].turn;
    if u :| 0 <= u < |s.threads| && s.threads[u].turn == turn && Token(s.threads[u].pc) {
      assert s'.threads[u] == s.threads[u];
    }
    if u :| 0 <= u < |s.threads| && s.threads[u].turn == turn && Obliging(s.threads[u].pc, gen) {
      assert u != t ==> s'.threads[u] == s.threads[u];
    }
  }

  /** An approval that wins leaves its row waiting; one that does not changes nothing. */
  lemma WinIsRequest(s: State, t: nat, c: Choice)
    requires RowsOk(s) && t < |s.threads| && s.threads[t].pid < |s.rows| && s.threads[t].pc.Seen?
    ensures RequestStep(s, ApproveStep(s, t, c), t)
  {
    hide AllResolved, RowsOk, Stale;
    var p := s.threads[t].pid;
    var s' := ApproveStep(s, t, c);
    PidOf(s, t);
    if Moved(s.rows[p], Pending, Approved, s.now).Some? {
      RowWaits(s', p, s.threads[t].turn);
    } else {
      SameRows(s, s', s.threads[t].turn);
    }
  }

  lemma RowWaits(s: State, p: nat, turn: nat)
    requires p < |s.rows| && s.rows[p].turn == turn && (s.rows[p].status.Pending? || s.rows[p].status.Approved?)
    ensures !AllResolved(s, turn)
  {
    assert Unresolved(s.rows[p], s.now);
  }

  /** A row that waits keeps its turn unresolved. */
  lemma WaitingRow(s: State, t: nat)
    requires RowsOk(s) && t < |s.threads|
    ensures var r := s.rows[s.threads[t].pid];
            r.status.Pending? || r.status.Approved? ==> !AllResolved(s, s.threads[t].turn)
  {
    PidOf(s, t);
    var p := s.threads[t].pid;
    if s.rows[p].status.Pending? || s.rows[p].status.Approved? {
      RowWaits(s, p, s.threads[t].turn);
    }
  }

  lemma ClaimIsRequest(s: State, t: nat, c: Choice)
    requires RowsOk(s) && t < |s.threads| && s.threads[t].pid < |s.rows|
    requires s.threads[t].pc.Asked? || s.threads[t].pc.Running? || s.threads[t].pc.Claimed?
    ensures RequestStep(s, ApproveStep(s, t, c), t)
  {
    hide AllResolved;
    assert RowOk(s, s.threads[t].pid);
    WaitingRow(s, t);
  }

  lemma StoreIsRequest(s: State, t: nat, c: Choice)
    requires RowsOk(s) && t < |s.threads| && s.threads[t].pid < |s.rows|
    requires s.threads[t].pc.Storing? || s.threads[t].pc.Writing?
    ensures RequestStep(s, ApproveStep(s, t, c), t)
  {
    hide AllResolved;
    assert RowOk(s, s.threads[t].pid);
  }

  lemma {:induction false} ApproveIsRequest(s: State, t: nat, c: Choice)
    requires RowsOk(s) && t < |s.threads| && s.threads[t].pid < |s.rows|
    requires s.threads[t].pc.Asked? || s.threads[t].pc.Seen? || Owning(s.threads[t].pc)
    ensures RequestStep(s, ApproveStep(s, t, c), t)
  {
    hide RequestStep, ApproveStep, RowsOk;
    match s.threads[t].pc {
      case Seen => WinIsRequest(s, t, c);
      case Storing(_) => StoreIsRequest(s, t, c);
      case Writing(_) => StoreIsRequest(s, t, c);
      case _ => ClaimIsRequest(s, t, c);
    }
  }

  lemma DenyIsRequest(s: State, t: nat, c: Choice)
    requires RowsOk(s) && t < |s.threads| && (s.threads[t].pc.DenyAsked? || s.threads[t].pc.DenySeen?)
    ensures RequestStep(s, DenyStep(s, t, c), t)
  {
    hide AllResolved;
    assert RowOk(s, s.threads[t].pid);
    WaitingRow(s, t);
  }

  lemma FailedCheckIsRequest(s: State, t: nat)
    requires TurnsOk(s) && RowsOk(s) && t < |s.threads| && s.threads[t].pc.Checking?
    requires !AllResolved(s, s.threads[t].turn)
    ensures RequestStep(s, FinishStep(s, t), t)
  {
    hide Unresolved;
    assert ThreadOk(s, t);
    SameRows(s, FinishStep(s, t), s.threads[t].turn);
  }

  lemma SameRows(s: State, s': State, turn: nat)
    requires s'.rows == s.rows && s'.now == s.now
    ensures AllResolved(s', turn) == AllResolved(s, turn)
  {
  }

  // ----- a check that passes ------------------------------------------------------------------------

  lemma {:induction false} PassedCheckKeeps(s: State, t: nat)
    requires TurnsOk(s) && t < |s.threads| && s.threads[t].pc.Checking? && AllResolved(s, s.threads[t].turn)
    ensures TurnsOk(FinishStep(s, t))
  {
    hide AllResolved, TurnOk, HasToken, OtherComing;
    var turn := s.threads[t].turn;
    var s' := FinishStep(s, t);
    assert ThreadOk(s, t);
    SameRows(s, s', turn);
    forall u | 0 <= u < |s'.threads| && s'.threads[u].turn == turn ensures ThreadOk(s', u) {
      assert ThreadOk(s, u);
    }
    if turn in s.resuming {
      assert Driven(s, turn) && s.driver[turn] != t;
    }
    PassedCheckTurn(s, t);
    OwnTurnKeeps(s, s', t);
  }

  lemma PassedCheckTurn(s: State, t: nat)
    requires t < |s.threads| && s.threads[t].pc.Checking? && AllResolved(s, s.threads[t].turn)
    requires s.threads[t].turn in s.notes && TurnOk(s, s.threads[t].turn)
    requires s.threads[t].turn in s.resuming ==> s.threads[t].turn in s.driver && s.driver[s.threads[t].turn] != t
    ensures TurnOk(FinishStep(s, t), s.threads[t].turn)
  {
    hide AllResolved;
    var turn := s.threads[t].turn;
    var s' := FinishStep(s, t);
    var n := s.notes[turn];
    SameRows(s, s', turn);
    assert Obliging(s'.threads[t].pc, n.gen) && Obliged(s', turn, n.gen);
    assert Coming(s.threads[t].pc) && HasComing(s, turn);
    if !s'.notes[turn].rival && HasComing(s', turn) {
      var u :| 0 <= u < |s'.threads| && s'.threads[u].turn == turn && Coming(s'.threads[u].pc);
      assert s.threads[u] == s'.threads[u];
    }
    if !n.ahead && !n.rival {
      assert !HasToken(s, turn);
      forall u | 0 <= u < |s'.threads| && s'.threads[u].turn == turn && Token(s'.threads[u].pc) ensures u == t {
      }
    }
  }

  // ----- launches, workers and parks --------------------------------------------------------------

  lemma {:induction false} LaunchKeeps(s: State, t: nat)
    requires TurnsOk(s) && RowsOk(s) && t < |s.threads| && s.threads[t].pc.Launching?
    ensures TurnsOk(FinishStep(s, t))
  {
    hide AllResolved, TurnOk, HasToken;
    var turn := s.threads[t].turn;
    var s' := FinishStep(s, t);
    assert ThreadOk(s, t);
    SameRows(s, s', turn);
    forall u | 0 <= u < |s'.threads| && s'.threads[u].turn == turn ensures ThreadOk(s', u) {
      if u < |s.threads| { assert ThreadOk(s, u); }
    }
    if turn in s.resuming {
      assert Driven(s, turn) && s.driver[turn] != t;
      RefusedTurn(s, t);
    } else {
      LaunchedTurn(s, t);
    }
    OwnTurnKeeps(s, s', t);
  }

  lemma RefusedTurn(s: State, t: nat)
    requires t < |s.threads| && s.threads[t].pc.Launching? && ThreadOk(s, t)
    requires s.threads[t].turn in s.notes && TurnOk(s, s.threads[t].turn)
    requires s.threads[t].turn in s.resuming && s.threads[t].turn in s.driver && s.driver[s.threads[t].turn] != t
    ensures TurnOk(FinishStep(s, t), s.threads[t].turn)
  {
    hide AllResolved;
    var turn := s.threads[t].turn;
    var s' := FinishStep(s, t);
    var n := s.notes[turn];
    SameRows(s, s', turn);
    FinishedToken(s, s', t, n.gen);
  }

  /** A token gone: the other threads of the turn are as they were. */
  lemma FinishedToken(s: State, s': State, t: nat, gen: nat)
    requires t < |s.threads| && Token(s.threads[t].pc) && |s'.threads| >= |s.threads|
    requires s'.threads[t] == s.threads[t].(pc := s'.threads[t].pc) && !Token(s'.threads[t].pc) && !Coming(s'.threads[t].pc)
    requires forall u :: 0 <= u < |s.threads| && u != t ==> s'.threads[u] == s.threads[u]
    requires forall u :: |s.threads| <= u < |s'.threads| ==> Token(s'.threads[u].pc) && s'.threads[u].turn == s.threads[t].turn
    ensures var turn := s.threads[t].turn;
            && (HasComing(s', turn) ==> HasComing(s, turn))
            && (Obliged(s, turn, gen) && !Obliging(s.threads[t].pc, gen) ==> Obliged(s', turn, gen))
            && (OneToken(s, turn) && |s'.threads| <= |s.threads| + 1 ==> OneToken(s', turn))
            && (OneToken(s, turn) && |s'.threads| == |s.threads| ==> !HasToken(s', turn))
  {
    var turn := s.threads[t].turn;
    if u :| 0 <= u < |s.threads| && s.threads[u].turn == turn && Obliging(s.threads[u].pc, gen) {
      assert u != t ==> s'.threads[u] == s.threads[u];
    }
    if u :| 0 <= u < |s'.threads| && s'.threads[u].turn == turn && Coming(s'.threads[u].pc) {
      assert u != t ==> s'.threads[u] == s.threads[u];
    }
  }

  lemma LaunchedTurn(s: State, t: nat)
    requires t < |s.threads| && s.threads[t].pc.Launching? && ThreadOk(s, t)
    requires s.threads[t].turn in s.notes && TurnOk(s, s.threads[t].turn) && s.threads[t].turn !in s.resuming
    ensures TurnOk(FinishStep(s, t), s.threads[t].turn)
  {
    hide AllResolved;
    var turn := s.threads[t].turn;
    var s' := FinishStep(s, t);
    var n := s.notes[turn];
    SameRows(s, s', turn);
    FinishedToken(s, s', t, n.gen);
    assert s.threads[t].pc == Launching(n.gen) ==> Obliging(s'.threads[|s.threads|].pc, n.gen);
    assert HasToken(s, turn);
  }

  /** The worker's first look at the rows. */
  lemma {:induction false} LookKeeps(s: State, t: nat, c: Choice)
    requires TurnsOk(s) && RowsOk(s) && t < |s.threads| && s.threads[t].pid < |s.rows| && s.threads[t].pc.Resuming?
    ensures TurnsOk(WorkerStep(s, t, c))
  {
    hide AllResolved, TurnOk;
    var turn := s.threads[t].turn;
    var s' := WorkerStep(s, t, c);
    assert ThreadOk(s, t) && Driven(s, turn);
    SameRows(s, s', turn);
    forall u | 0 <= u < |s'.threads| && s'.threads[u].turn == turn ensures ThreadOk(s', u) {
      assert ThreadOk(s, u);
    }
    LookTurn(s, t, c);
    OwnTurnKeeps(s, s', t);
  }

  lemma LookTurn(s: State, t: nat, c: Choice)
    requires t < |s.threads| && s.threads[t].pid < |s.rows| && s.threads[t].pc.Resuming? && ThreadOk(s, t)
    requires s.threads[t].turn in s.notes && TurnOk(s, s.threads[t].turn)
    ensures TurnOk(WorkerStep(s, t, c), s.threads[t].turn)
  {
    hide AllResolved;
    var turn := s.threads[t].turn;
    var s' := WorkerStep(s, t, c);
    var n := s.notes[turn];
    SameRows(s, s', turn);
    FinishedToken(s, s', t, n.gen);
    assert HasToken(s, turn) && Starting(s, turn) && !Starting(s', turn);
  }

  lemma {:induction false} WorkerMoveKeeps(s: State, t: nat, pc: Pc)
    requires TurnsOk(s) && t < |s.threads| && Working(s.threads[t].pc) && !s.threads[t].pc.Resuming?
    requires Working(pc) && !pc.Resuming?
    ensures TurnsOk(At(s, t, pc))
  {
    hide AllResolved, TurnOk;
    var turn := s.threads[t].turn;
    var s' := At(s, t, pc);
    assert ThreadOk(s, t) && Driven(s, turn);
    SameRows(s, s', turn);
    forall u | 0 <= u < |s'.threads| && s'.threads[u].turn == turn ensures ThreadOk(s', u) {
      assert ThreadOk(s, u);
    }
    IdleTurn(s, s', t);
    OwnTurnKeeps(s, s', t);
  }

  /** A thread outside the check and the launch moved on. */
  ghost predicate IdleStep(s: State, s': State, t: nat)
    requires t < |s.threads|
  {
    && s'.rows == s.rows && s'.now == s.now && s'.notes == s.notes && s'.driver == s.driver && s'.resuming <= s.resuming
    && |s'.threads| == |s.threads| && s'.threads[t].turn == s.threads[t].turn
    && (forall u :: 0 <= u < |s.threads| && u != t ==> s'.threads[u] == s.threads[u])
    && !Token(s.threads[t].pc) && !Token(s'.threads[t].pc) && !Coming(s.threads[t].pc) && !Coming(s'.threads[t].pc)
    && (s.threads[t].turn in s.resuming ==> s.threads[t].turn in s.driver && s.driver[s.threads[t].turn] == t)
  }

  lemma IdleTurn(s: State, s': State, t: nat)
    requires t < |s.threads| && IdleStep(s, s', t) && s.threads[t].turn in s.notes && TurnOk(s, s.threads[t].turn)
    ensures TurnOk(s', s.threads[t].turn)
  {
    hide AllResolved;
    var turn := s.threads[t].turn;
    var n := s.notes[turn];
    SameRows(s, s', turn);
    if u :| 0 <= u < |s.threads| && s.threads[u].turn == turn && Obliging(s.threads[u].pc, n.gen) {
      assert s'.threads[u] == s.threads[u];
    }
    assert Starting(s', turn) == Starting(s, turn) == false;
    assert HasToken(s', turn) == HasToken(s, turn) && HasComing(s', turn) == HasComing(s, turn);
  }

  lemma {:induction false} LeaveKeeps(s: State, t: nat)
    requires TurnsOk(s) && t < |s.threads| && s.threads[t].pc.Leaving?
    ensures TurnsOk(At(s.(resuming := s.resuming - {s.threads[t].turn}), t, Done))
  {
    hide AllResolved, TurnOk;
    var turn := s.threads[t].turn;
    var s' := At(s.(resuming := s.resuming - {turn}), t, Done);
    assert ThreadOk(s, t);
    SameRows(s, s', turn);
    forall u | 0 <= u < |s'.threads| && s'.threads[u].turn == turn ensures ThreadOk(s', u) {
      assert ThreadOk(s, u);
    }
    IdleTurn(s, s', t);
    OwnTurnKeeps(s, s', t);
  }

  /** Parking a row opens a new generation, in which the turn is not resolved. */
  lemma {:induction false} ParkKeeps(s: State, t: nat, chat: bool)
    requires TurnsOk(s) && t < |s.threads|
    ensures TurnsOk(Parked(s, s.threads[t].turn, chat))
  {
    hide TurnOk;
    var turn := s.threads[t].turn;
    var s' := Parked(s, turn, chat);
    assert s'.rows[|s.rows|].turn == turn && Unresolved(s'.rows[|s.rows|], s'.now);
    forall u | 0 <= u < |s'.threads| && s'.threads[u].turn == turn ensures ThreadOk(s', u) {
      assert ThreadOk(s, u);
    }
    if turn in s.resuming { assert Driven(s, turn); }
    if turn in s'.notes { ParkedTurn(s, turn, chat); }
    OwnTurnKeeps(s, s', t);
  }

  lemma ParkedTurn(s: State, turn: nat, chat: bool)
    requires turn in s.notes
    ensures TurnOk(Parked(s, turn, chat), turn)
  {
    var s' := Parked(s, turn, chat);
    assert s'.rows[|s.rows|].turn == turn && Unresolved(s'.rows[|s.rows|], s'.now);
    assert HasToken(s', turn) == HasToken(s, turn);
  }

  lemma {:induction false} IdleMoveKeeps(s: State, t: nat, pc: Pc)
    requires TurnsOk(s) && t < |s.threads| && s.threads[t].pc.Parking? && (pc.Parking? || pc.Done?)
    ensures TurnsOk(At(s, t, pc))
  {
    hide TurnsOk;
    SameRows(s, At(s, t, pc), s.threads[t].turn);
    RequestKeeps(s, At(s, t, pc), t);
  }

  lemma {:induction false} StepKeepsTurns(s: State, t: nat, c: Choice)
    requires TurnsOk(s) && RowsOk(s) && Enabled(s, Step(t, c))
    ensures TurnsOk(ThreadStep(s, t, c))
  {
    hide TurnsOk, RowsOk, ApproveStep, DenyStep, RequestStep, Parked, AllResolved, FinishStep;
    var th := s.threads[t];
    match th.pc {
      case DenyAsked => DenyIsRequest(s, t, c); RequestKeeps(s, DenyStep(s, t, c), t);
      case DenySeen => DenyIsRequest(s, t, c); RequestKeeps(s, DenyStep(s, t, c), t);
      case Checking =>
        if AllResolved(s, th.turn) {
          PassedCheckKeeps(s, t);
        } else {
          FailedCheckIsRequest(s, t);
          RequestKeeps(s, FinishStep(s, t), t);
        }
      case Launching(_) => LaunchKeeps(s, t);
      case Resuming(_) => LookKeeps(s, t, c);
      case Driving => WorkerMoveKeeps(s, t, WorkerStep(s, t, c).threads[t].pc);
      case Reparking(left) =>
        ParkKeeps(s, t, s.rows[th.pid].chat);
        ParkedThreads(s, th.turn, s.rows[th.pid].chat);
        if left == 0 { WorkerMoveKeeps(s, t, Leaving); }
        else { WorkerMoveKeeps(Parked(s, th.turn, s.rows[th.pid].chat), t, Reparking(left - 1)); }
      case Parking(left) =>
        ParkKeeps(s, t, s.rows[th.pid].chat);
        ParkedThreads(s, th.turn, s.rows[th.pid].chat);
        if left == 0 { IdleMoveKeeps(s, t, Done); }
        else { IdleMoveKeeps(Parked(s, th.turn, s.rows[th.pid].chat), t, Parking(left - 1)); }
      case Leaving => LeaveKeeps(s, t);
      case Asked => RequestStepKeeps(s, t, c);
      case Seen => RequestStepKeeps(s, t, c);
      case Running => RequestStepKeeps(s, t, c);
      case Claimed => RequestStepKeeps(s, t, c);
      case Storing(_) => RequestStepKeeps(s, t, c);
      case Writing(_) => RequestStepKeeps(s, t, c);
      case Done =>
    }
  }

  lemma RequestStepKeeps(s: State, t: nat, c: Choice)
    requires TurnsOk(s) && RowsOk(s) && t < |s.threads| && s.threads[t].pid < |s.rows|
    requires s.threads[t].pc.Asked? || s.threads[t].pc.Seen? || Owning(s.threads[t].pc)
    ensures TurnsOk(ApproveStep(s, t, c))
  {
    hide TurnsOk, RowsOk, ApproveStep, RequestStep;
    ApproveIsRequest(s, t, c);
    RequestKeeps(s, ApproveStep(s, t, c), t);
  }

  lemma ParkedThreads(s: State, turn: nat, chat: bool)
    ensures Parked(s, turn, chat).threads == s.threads
  {
  }

  // ----- the other events -----------------------------------------------------------------------------

  /** Neither time nor the sweep moves a thread. */
  ghost predicate Unmoved(s: State, s': State) {
    s'.threads == s.threads && s'.resuming == s.resuming && s'.driver == s.driver && s'.notes.Keys == s.notes.Keys
  }

  lemma {:induction false} UnmovedKeeps(s: State, s': State)
    requires TurnsOk(s) && Unmoved(s, s')
    requires forall turn :: turn in s.notes ==> s'.notes[turn] == s.notes[turn].(swept := s'.notes[turn].swept)
    requires forall turn :: turn in s.notes && AllResolved(s, turn) ==> AllResolved(s', turn)
    requires forall turn :: turn in s.notes && AllResolved(s', turn) && !Obliged(s', turn, s.notes[turn].gen) ==>
               AllResolved(s, turn) || s'.notes[turn].swept
    requires forall turn :: turn in s.notes && s.notes[turn].swept ==> s'.notes[turn].swept
    ensures TurnsOk(s')
  {
    hide AllResolved;
    forall t | 0 <= t < |s'.threads| ensures ThreadOk(s', t) {
      assert ThreadOk(s, t);
    }
    forall turn | turn in s'.resuming ensures Driven(s', turn) {
      assert Driven(s, turn);
    }
    forall turn | turn in s'.notes ensures TurnOk(s', turn) {
      assert TurnOk(s, turn);
      UnmovedTurn(s, s', turn);
    }
  }

  lemma UnmovedTurn(s: State, s': State, turn: nat)
    requires Unmoved(s, s') && turn in s.notes && TurnOk(s, turn)
    requires s'.notes[turn] == s.notes[turn].(swept := s'.notes[turn].swept) && (s.notes[turn].swept ==> s'.notes[turn].swept)
    requires AllResolved(s, turn) ==> AllResolved(s', turn)
    requires AllResolved(s', turn) && !Obliged(s', turn, s.notes[turn].gen) ==> AllResolved(s, turn) || s'.notes[turn].swept
    ensures TurnOk(s', turn)
  {
    hide AllResolved;
    assert Obliged(s', turn, s.notes[turn].gen) == Obliged(s, turn, s.notes[turn].gen);
    assert HasToken(s', turn) == HasToken(s, turn) && HasComing(s', turn) == HasComing(s, turn);
  }

  /** Time resolves a row only while its handler runs, and then the check is still to come. */
  lemma {:induction false} TickKeeps(s: State, d: nat)
    requires TurnsOk(s) && RowsOk(s)
    ensures TurnsOk(Next(s, Tick(d)))
  {
    var s' := Next(s, Tick(d));
    forall turn | turn in s.notes && AllResolved(s, turn) ensures AllResolved(s', turn) {
    }
    forall turn | turn in s.notes && AllResolved(s', turn) && !Obliged(s', turn, s.notes[turn].gen)
      ensures AllResolved(s, turn)
    {
      TickTurn(s, d, turn, s.notes[turn].gen);
    }
    hide AllResolved, TurnsOk, RowsOk;
    UnmovedKeeps(s, s');
  }

  lemma TickTurn(s: State, d: nat, turn: nat, gen: nat)
    requires RowsOk(s)
    ensures var s' := s.(now := s.now + d); AllResolved(s', turn) && !Obliged(s', turn, gen) ==> AllResolved(s, turn)
  {
    var s' := s.(now := s.now + d);
    if AllResolved(s', turn) && !Obliged(s', turn, gen) {
      forall p | 0 <= p < |s.rows| && s.rows[p].turn == turn ensures !Unresolved(s.rows[p], s.now) {
        assert RowOk(s, p);
        assert s.rows[p].status.Executed? && s.rows[p].result.None? ==> Obliging(s.threads[s.owner[p]].pc, gen);
      }
    }
  }

  lemma {:induction false} SweepKeeps(s: State)
    requires TurnsOk(s)
    ensures TurnsOk(Next(s, Sweep))
  {
    hide TurnsOk, AllResolved, SweepHits, Swepts, ThreadStep;
    var s' := Next(s, Sweep);
    forall turn | turn in s.notes
      ensures s'.notes[turn] == s.notes[turn].(swept := s'.notes[turn].swept)
      ensures s.notes[turn].swept ==> s'.notes[turn].swept
      ensures AllResolved(s, turn) ==> AllResolved(s', turn)
      ensures AllResolved(s', turn) ==> AllResolved(s, turn) || s'.notes[turn].swept
    {
      SweepTurn(s, turn);
    }
    UnmovedKeeps(s, s');
  }

  lemma SweepTurn(s: State, turn: nat)
    ensures var s' := Next(s, Sweep);
            && (!SweepHits(s, turn) ==> AllResolved(s', turn) == AllResolved(s, turn))
            && (AllResolved(s, turn) ==> AllResolved(s', turn))
  {
    hide SweepNotes, ThreadStep;
    var s' := Next(s, Sweep);
    if SweepHits(s, turn) {
      assert forall p :: 0 <= p < |s.rows| ==> s'.rows[p].turn == s.rows[p].turn;
    } else {
      assert forall p :: 0 <= p < |s.rows| && s.rows[p].turn == turn ==> s'.rows[p] == s.rows[p];
    }
  }

  lemma {:induction false} SpawnKeepsTurns(s: State, th: Thread)
    requires TurnsOk(s) && !Working(th.pc) && !Coming(th.pc) && !Token(th.pc)
    ensures TurnsOk(Spawn(s, th))
  {
    hide AllResolved;
    var s' := Spawn(s, th);
    forall t | 0 <= t < |s'.threads| ensures ThreadOk(s', t) {
      if t < |s.threads| { assert ThreadOk(s, t); SameRows(s, s', s.threads[t].turn); }
    }
    forall turn | turn in s'.resuming ensures Driven(s', turn) {
      assert Driven(s, turn);
    }
    forall turn | turn in s'.notes ensures TurnOk(s', turn) {
      assert TurnOk(s, turn);
      if turn in s.resuming { assert Driven(s, turn); }
      SpawnedTurn(s, th, turn);
    }
  }

  lemma SpawnedTurn(s: State, th: Thread, turn: nat)
    requires turn in s.notes && TurnOk(s, turn) && !Working(th.pc) && !Coming(th.pc) && !Token(th.pc)
    requires turn in s.resuming ==> Driven(s, turn)
    ensures TurnOk(Spawn(s, th), turn)
  {
    hide AllResolved;
    var s' := Spawn(s, th);
    SameRows(s, s', turn);
    var gen := s.notes[turn].gen;
    if u :| 0 <= u < |s.threads| && s.threads[u].turn == turn && Obliging(s.threads[u].pc, gen) {
      assert s'.threads[u] == s.threads[u];
    }
    assert HasToken(s', turn) == HasToken(s, turn) by {
      if u :| 0 <= u < |s.threads| && s.threads[u].turn == turn && Token(s.threads[u].pc) {
        assert s'.threads[u] == s.threads[u];
      }
    }
  }

  /** A new turn starts with a pending row. */
  lemma {:induction false} BeginKeeps(s: State, e: Event)
    requires TurnsOk(s) && RowsOk(s) && e.Begin? && Enabled(s, e)
    ensures TurnsOk(Next(s, e))
  {
    hide TurnOk;
    var s1 := if e.scheduled then s.(notes := s.notes[e.turn := JustParked(0, false, false)]) else s;
    var s2 := Parked(s1, e.turn, e.chat);
    forall t | 0 <= t < |s.threads| ensures s.threads[t].turn != e.turn && ThreadOk(s2, t) {
      assert ThreadOk(s, t);
      PidOf(s, t);
      NewRowElsewhere(s, s2, s.threads[t].turn);
    }
    forall turn | turn in s2.resuming ensures Driven(s2, turn) {
      assert Driven(s, turn);
    }
    forall turn | turn in s2.notes ensures TurnOk(s2, turn) {
      if turn != e.turn {
        NewRowElsewhere(s, s2, turn);
        if turn in s.resuming { assert Driven(s, turn); }
        SameTurnOk(s, s2, turn);
      } else {
        ParkedTurn(s1, turn, e.chat);
      }
    }
    SpawnKeepsTurns(s2, Thread(e.turn, |s.rows|, Parking(e.parks - 1)));
  }

  lemma NewRowElsewhere(s: State, s': State, turn: nat)
    requires s'.now == s.now && |s'.rows| == |s.rows| + 1 && s'.rows[..|s.rows|] == s.rows
    requires s'.rows[|s.rows|].turn != turn
    ensures AllResolved(s', turn) == AllResolved(s, turn)
  {
    assert forall p :: 0 <= p < |s.rows| ==> s'.rows[p] == s.rows[p];
  }

  lemma {:induction false} NextKeepsTurns(s: State, e: Event)
    requires TurnsOk(s) && RowsOk(s) && Enabled(s, e)
    ensures TurnsOk(Next(s, e))
  {
    hide TurnsOk, RowsOk, ThreadStep;
    match e {
      case Tick(d) => TickKeeps(s, d);
      case Sweep => SweepKeeps(s);
      case Begin(_, _, _, _) => BeginKeeps(s, e);
      case Approve(pid) => SpawnKeepsTurns(s, Thread(s.rows[pid].turn, pid, Asked));
      case Deny(pid) => SpawnKeepsTurns(s, Thread(s.rows[pid].turn, pid, DenyAsked));
      case Step(t, c) => StepKeepsTurns(s, t, c);
    }
  }

  // ----- every run ------------------------------------------------------------------------------------

  lemma {:induction false} EveryRunKeepsTurns(es: seq<Event>)
    ensures TurnsOk(Reached(es)) && RowsOk(Reached(es))
    decreases |es|
  {
    hide Next, TurnsOk, RowsOk;
    if es == [] {
      EveryRunKeepsRows([]);
      NothingYet();
    } else {
      EveryRunKeepsTurns(es[..|es| - 1]);
      var s, e := Reached(es[..|es| - 1]), es[|es| - 1];
      if Enabled(s, e) {
        NextKeepsRows(s, e);
        NextKeepsTurns(s, e);
      }
    }
  }

  lemma NothingYet()
    ensures TurnsOk(Start)
  {
  }

  ghost predicate Quiet(s: State) {
    forall t :: 0 <= t < |s.threads| ==> s.threads[t].pc.Done?
  }

  /** The only ways to lose a resume, in every run and for any number of parks.  When all is
      quiet and every row of a scheduled turn is resolved, a worker drove the turn after its
      last row was parked, or the sweep resolved the last row, or a launch after a passed check
      was refused by a worker that dates from before the last row: it held the turn when that
      row was parked, or came of a check that had passed by then. */
  lemma {:induction false} NoLostResume(es: seq<Event>, turn: nat)
    requires var s := Reached(es); Quiet(s) && turn in s.notes && AllResolved(s, turn)
    ensures var n := Reached(es).notes[turn]; n.drives > 0 || n.swept || (n.refused && (n.overlap || n.ahead))
  {
    EveryRunKeepsTurns(es);
    assert TurnOk(Reached(es), turn);
  }

  /** A batch is driven if no check that passed before its last row was parked was still at
      work then, and the sweep was not the last to resolve a row. */
  lemma {:induction false} NoLostResumeOfFreshBatch(es: seq<Event>, turn: nat)
    requires var s := Reached(es); Quiet(s) && turn in s.notes && AllResolved(s, turn)
    requires var n := Reached(es).notes[turn]; !n.overlap && !n.ahead && !n.swept
    ensures Reached(es).notes[turn].drives > 0
  {
    NoLostResume(es, turn);
  }

  /** With nothing older at work, exactly when a batch is driven: when a check passed after its
      last row was parked. */
  lemma {:induction false} FreshBatchDrivenIff(es: seq<Event>, turn: nat)
    requires Quiet(Reached(es)) && turn in Reached(es).notes
    requires var n := Reached(es).notes[turn]; !n.overlap && !n.ahead
    ensures Reached(es).notes[turn].drives > 0 <==> Reached(es).notes[turn].checked
  {
    EveryRunKeepsTurns(es);
    assert TurnOk(Reached(es), turn);
  }

  /** Two workers never drive the same turn at once. */
  lemma {:induction false} WorkersNeverOverlap(es: seq<Event>, t: nat, u: nat)
    requires var s := Reached(es);
             && t < |s.threads| && u < |s.threads| && s.threads[t].turn == s.threads[u].turn
             && Working(s.threads[t].pc) && Working(s.threads[u].pc)
    ensures t == u
  {
    EveryRunKeepsTurns(es);
    assert ThreadOk(Reached(es), t) && ThreadOk(Reached(es), u);
  }

  /** A worker that starts before anything more is parked finds every row resolved, and goes
      on to drive the turn. */
  lemma {:induction false} WorkerSeesAllResolved(es: seq<Event>, t: nat, c: Choice)
    requires var s := Reached(es);
             && t < |s.threads| && s.threads[t].pc.Resuming? && s.threads[t].turn in s.notes
             && s.threads[t].pc.gen == s.notes[s.threads[t].turn].gen && s.threads[t].pid < |s.rows|
    ensures ThreadStep(Reached(es), t, c).threads[t].pc.Driving?
  {
    EveryRunKeepsTurns(es);
    assert ThreadOk(Reached(es), t);
  }

  /** When a batch is driven more than once: exactly when a launch went through although the
      turn had been driven since its last row was parked. */
  lemma {:induction false} DrivenTwiceIff(es: seq<Event>, turn: nat)
    requires Quiet(Reached(es)) && turn in Reached(es).notes
    ensures Reached(es).notes[turn].drives >= 2 <==> Reached(es).notes[turn].again
  {
    EveryRunKeepsTurns(es);
    assert TurnOk(Reached(es), turn);
  }

  /** That takes two passed checks: a batch is driven at most once if no earlier check was
      still at work when it was parked and no other request of the turn was on its way to the
      check when one passed. */
  lemma {:induction false} DrivenAtMostOnce(es: seq<Event>, turn: nat)
    requires turn in Reached(es).notes
    requires var n := Reached(es).notes[turn]; !n.ahead && !n.rival
    ensures Reached(es).notes[turn].drives <= 1
  {
    EveryRunKeepsTurns(es);
    assert TurnOk(Reached(es), turn);
  }

  lemma Then(es: seq<Event>, e: Event)
    requires Enabled(Reached(es), e)
    ensures Reached(es + [e]) == Next(Reached(es), e)
  {
    assert (es + [e])[..|es|] == es;
  }

  // ----- a settled turn ----------------------------------------------------------------------------------

  /** Nobody works for the turn, and whoever asks about it is late. */
  ghost predicate Over(s: State, turn: nat, gen: nat, drives: nat) {
    && turn in s.notes && s.notes[turn].gen == gen && s.notes[turn].drives == drives
    && AllResolved(s, turn) && turn !in s.resuming
    && forall t :: 0 <= t < |s.threads| && s.threads[t].turn == turn ==> Late(s.threads[t].pc)
  }

  predicate Late(pc: Pc) {
    pc.Asked? || pc.DenyAsked? || pc.DenySeen? || pc.Done?
  }

  lemma StepIsOwnTurn(s: State, t: nat, c: Choice)
    requires RowsOk(s) && Enabled(s, Step(t, c))
    ensures OwnTurn(s, ThreadStep(s, t, c), t)
  {
    hide OwnTurn, RowsOk, Parked, ApproveStep, DenyStep, FinishStep, WorkerStep, AllResolved;
    var th := s.threads[t];
    match th.pc {
      case DenyAsked => DenyIsRequest(s, t, c);
      case DenySeen => DenyIsRequest(s, t, c);
      case Checking => FinishIsOwnTurn(s, t);
      case Launching(_) => FinishIsOwnTurn(s, t);
      case Resuming(_) => WorkerIsOwnTurn(s, t, c);
      case Driving => WorkerIsOwnTurn(s, t, c);
      case Reparking(_) => WorkerIsOwnTurn(s, t, c);
      case Leaving => WorkerIsOwnTurn(s, t, c);
      case Parking(left) =>
        ParkIsOwnTurn(s, t, s.rows[th.pid].chat, if left == 0 then Done else Parking(left - 1));
      case _ => ApproveIsRequest(s, t, c);
    }
  }

  lemma FinishIsOwnTurn(s: State, t: nat)
    requires t < |s.threads|
    ensures OwnTurn(s, FinishStep(s, t), t)
  {
    hide AllResolved, OtherComing;
  }

  lemma WorkerIsOwnTurn(s: State, t: nat, c: Choice)
    requires t < |s.threads| && s.threads[t].pid < |s.rows|
    ensures OwnTurn(s, WorkerStep(s, t, c), t)
  {
    hide AllResolved, Parked, OwnTurn;
    var th := s.threads[t];
    match th.pc {
      case Reparking(left) => ParkIsOwnTurn(s, t, s.rows[th.pid].chat, if left == 0 then Leaving else Reparking(left - 1));
      case _ => UnparkedIsOwnTurn(s, t, c);
    }
  }

  lemma UnparkedIsOwnTurn(s: State, t: nat, c: Choice)
    requires t < |s.threads| && s.threads[t].pid < |s.rows| && !s.threads[t].pc.Reparking?
    ensures OwnTurn(s, WorkerStep(s, t, c), t)
  {
    hide AllResolved, Parked;
  }

  lemma ParkIsOwnTurn(s: State, t: nat, chat: bool, pc: Pc)
    requires t < |s.threads|
    ensures OwnTurn(s, At(s, t, pc), t)
    ensures |Parked(s, s.threads[t].turn, chat).threads| == |s.threads|
    ensures OwnTurn(s, At(Parked(s, s.threads[t].turn, chat), t, pc), t)
  {
    hide HasToken;
  }

  lemma {:induction false} OverThread(s: State, t: nat, c: Choice, turn: nat, gen: nat, drives: nat)
    requires RowsOk(s) && TurnsOk(s) && Over(s, turn, gen, drives) && Enabled(s, Step(t, c))
    ensures Over(ThreadStep(s, t, c), turn, gen, drives)
  {
    var s' := ThreadStep(s, t, c);
    if s.threads[t].turn == turn {
      LateStep(s, t, c, turn);
    } else {
      OthersStep(s, t, c, turn);
      hide AllResolved, ThreadStep, RowsOk, TurnsOk;
      forall u | 0 <= u < |s'.threads| && s'.threads[u].turn == turn ensures Late(s'.threads[u].pc) {
        assert s'.threads[u] == s.threads[u];
      }
    }
  }

  lemma OthersStep(s: State, t: nat, c: Choice, turn: nat)
    requires RowsOk(s) && TurnsOk(s) && Enabled(s, Step(t, c)) && s.threads[t].turn != turn
    ensures SameTurn(s, ThreadStep(s, t, c), turn)
  {
    hide AllResolved, ThreadStep, RowOk, OwnTurn, SameTurn, TurnOk, ThreadOk;
    StepIsOwnTurn(s, t, c);
    if turn in s.resuming { assert Driven(s, turn); }
    OtherTurnSame(s, ThreadStep(s, t, c), t, turn);
  }

  /** A late request finds its row resolved. */
  lemma LateStep(s: State, t: nat, c: Choice, turn: nat)
    requires RowsOk(s) && Enabled(s, Step(t, c)) && s.threads[t].turn == turn && Late(s.threads[t].pc) && AllResolved(s, turn)
    ensures var s' := ThreadStep(s, t, c);
            && s' == At(s, t, s'.threads[t].pc) && Late(s'.threads[t].pc) && AllResolved(s', turn)
  {
    hide AllResolved, RowsOk;
    WaitingRow(s, t);
    SameRows(s, ThreadStep(s, t, c), turn);
  }

  lemma {:induction false} OverStep(s: State, e: Event, turn: nat, gen: nat, drives: nat)
    requires RowsOk(s) && TurnsOk(s) && Over(s, turn, gen, drives) && Enabled(s, e)
    ensures Over(Next(s, e), turn, gen, drives)
  {
    hide RowsOk, TurnsOk, AllResolved, ThreadStep, SweepHits, Swepts;
    match e {
      case Tick(d) => LaterResolved(s, d, turn);
      case Sweep => SweepTurn(s, turn);
      case Begin(other, _, _, _) => NewRowElsewhere(s, Next(s, e), turn);
      case Approve(_) => SameRows(s, Next(s, e), turn);
      case Deny(_) => SameRows(s, Next(s, e), turn);
      case Step(t, c) => OverThread(s, t, c, turn, gen, drives);
    }
  }

  lemma LaterResolved(s: State, d: nat, turn: nat)
    requires AllResolved(s, turn)
    ensures AllResolved(s.(now := s.now + d), turn)
  {
  }

  /** When all is quiet and the turn is resolved, that is the end of it: whatever happens later,
      nothing more is parked for it and it is not driven again.  A lost turn stays lost. */
  lemma {:induction false} SettledForever(es: seq<Event>, more: seq<Event>, turn: nat)
    requires var s := Reached(es); Quiet(s) && turn in s.notes && AllResolved(s, turn)
    ensures var n := Reached(es).notes[turn]; Over(Reached(es + more), turn, n.gen, n.drives)
    decreases |more|
  {
    hide Next, RowsOk, TurnsOk, Enabled, AllResolved;
    var n := Reached(es).notes[turn];
    if more == [] {
      assert es + more == es;
      EveryRunKeepsTurns(es);
      NobodyWorks(Reached(es), turn);
    } else {
      var k := |more| - 1;
      SettledForever(es, more[..k], turn);
      assert (es + more)[..|es + more| - 1] == es + more[..k];
      EveryRunKeepsTurns(es + more[..k]);
      if Enabled(Reached(es + more[..k]), more[k]) {
        OverStep(Reached(es + more[..k]), more[k], turn, n.gen, n.drives);
      }
    }
  }

  lemma NobodyWorks(s: State, turn: nat)
    requires TurnsOk(s) && Quiet(s)
    ensures turn !in s.resuming
  {
    assert turn in s.resuming ==> Driven(s, turn);
  }

  // ----- a refused claim ---------------------------------------------------------------------------------

  /** Approved, with the request that won the approval past its claim. */
  ghost predicate Abandoned(s: State, p: nat) {
    && p < |s.rows| && s.rows[p].status.Approved? && p in s.owner && s.owner[p] < |s.threads|
    && !s.threads[s.owner[p]].pc.Running?
  }

  lemma {:induction false} AbandonedStep(s: State, e: Event, p: nat)
    requires RowsOk(s) && Abandoned(s, p) && Enabled(s, e)
    ensures Abandoned(Next(s, e), p) && Next(s, e).rows[p].turn == s.rows[p].turn
  {
    hide RowsOk, ThreadStep;
    if e.Step? {
      AbandonedThread(s, e.thread, e.choice, p);
    } else {
      AbandonedElse(s, e, p);
    }
  }

  lemma AbandonedElse(s: State, e: Event, p: nat)
    requires Abandoned(s, p) && Enabled(s, e) && !e.Step?
    ensures Abandoned(Next(s, e), p) && Next(s, e).rows[p].turn == s.rows[p].turn
  {
  }

  /** The row's own request has nothing left to do with the row, and no other can take it. */
  lemma {:induction false} AbandonedThread(s: State, t: nat, c: Choice, p: nat)
    requires RowsOk(s) && Abandoned(s, p) && Enabled(s, Step(t, c))
    ensures Abandoned(ThreadStep(s, t, c), p) && ThreadStep(s, t, c).rows[p].turn == s.rows[p].turn
  {
    hide ApproveStep, DenyStep, FinishStep, WorkerStep, AllResolved, RowsOk, Abandoned, Parked;
    var pc := s.threads[t].pc;
    AbandonedOwner(s, t, p);
    if pc.Asked? || pc.Seen? || Owning(pc) {
      AbandonedApprove(s, t, c, p);
    } else if pc.DenyAsked? || pc.DenySeen? {
      AbandonedDeny(s, t, c, p);
    } else if pc.Checking? || pc.Launching? {
      AbandonedFinish(s, t, p);
    } else if pc.Parking? {
      AbandonedPark(s, t, p, s.rows[s.threads[t].pid].chat, if pc.left == 0 then Done else Parking(pc.left - 1));
    } else {
      AbandonedWork(s, t, c, p);
    }
  }

  lemma AbandonedPark(s: State, t: nat, p: nat, chat: bool, pc: Pc)
    requires Abandoned(s, p) && t < |s.threads| && !pc.Running?
    ensures Abandoned(At(s, t, pc), p) && |Parked(s, s.threads[t].turn, chat).threads| == |s.threads|
    ensures var s' := At(Parked(s, s.threads[t].turn, chat), t, pc); Abandoned(s', p) && s'.rows[p] == s.rows[p]
  {
    hide HasToken;
  }

  lemma AbandonedWork(s: State, t: nat, c: Choice, p: nat)
    requires Abandoned(s, p) && t < |s.threads| && s.threads[t].pid < |s.rows| && Working(s.threads[t].pc)
    ensures Abandoned(WorkerStep(s, t, c), p) && WorkerStep(s, t, c).rows[p] == s.rows[p]
  {
    hide AllResolved, Parked;
    var th := s.threads[t];
    if th.pc.Reparking? {
      AbandonedPark(s, t, p, s.rows[th.pid].chat, if th.pc.left == 0 then Leaving else Reparking(th.pc.left - 1));
    }
  }

  lemma AbandonedOwner(s: State, t: nat, p: nat)
    requires RowsOk(s) && Abandoned(s, p) && t < |s.threads|
    ensures Owning(s.threads[t].pc) && s.threads[t].pid == p ==> s.threads[t].pc.Storing?
    ensures s.owner[p] == t ==> s.threads[t].pid == p && !Claiming(s.threads[t].pc)
    ensures p < |s.rows| && s.threads[t].pid < |s.rows| && s.rows[s.threads[t].pid].turn == s.threads[t].turn
    ensures p in s.owner
  {
    hide NoRepeats;
    assert RowOk(s, p);
  }

  predicate Claiming(pc: Pc) {
    pc.Asked? || pc.Seen? || pc.Running? || pc.Claimed? || pc.Writing?
  }

  lemma AbandonedApprove(s: State, t: nat, c: Choice, p: nat)
    requires Abandoned(s, p) && t < |s.threads| && s.threads[t].pid < |s.rows|
    requires Owning(s.threads[t].pc) && s.threads[t].pid == p ==> s.threads[t].pc.Storing?
    requires s.threads[t].pc.Asked? || s.threads[t].pc.Seen? || Owning(s.threads[t].pc)
    requires s.owner[p] == t ==> s.threads[t].pid == p && s.threads[t].pc.Storing?
    ensures Abandoned(ApproveStep(s, t, c), p) && ApproveStep(s, t, c).rows[p] == s.rows[p]
  {
  }

  lemma AbandonedDeny(s: State, t: nat, c: Choice, p: nat)
    requires Abandoned(s, p) && t < |s.threads| && s.threads[t].pid < |s.rows|
    requires s.threads[t].pc.DenyAsked? || s.threads[t].pc.DenySeen?
    ensures Abandoned(DenyStep(s, t, c), p) && DenyStep(s, t, c).rows[p] == s.rows[p]
  {
  }

  lemma AbandonedFinish(s: State, t: nat, p: nat)
    requires Abandoned(s, p) && t < |s.threads| && (s.threads[t].pc.Checking? || s.threads[t].pc.Launching?)
    ensures Abandoned(FinishStep(s, t), p) && FinishStep(s, t).rows == s.rows
  {
    hide AllResolved;
  }

  /** Such a row stays approved in every continuation, so its turn is never resumed again. */
  lemma {:induction false} AbandonedForever(es: seq<Event>, more: seq<Event>, p: nat)
    requires Abandoned(Reached(es), p)
    ensures var s := Reached(es + more); Abandoned(s, p) && !AllResolved(s, s.rows[p].turn)
    decreases |more|
  {
    hide Next, RowsOk, Enabled;
    if more == [] {
      assert es + more == es;
    } else {
      var n := |more| - 1;
      AbandonedForever(es, more[..n], p);
      assert (es + more)[..|es + more| - 1] == es + more[..n];
      EveryRunKeepsRows(es + more[..n]);
      var s, e := Reached(es + more[..n]), more[n];
      if Enabled(s, e) {
        AbandonedStep(s, e, p);
      }
    }
    assert Unresolved(Reached(es + more).rows[p], Reached(es + more).now);
  }

  /** When that happens: at the claim of an approved row, the row stays approved for good if
      and only if its arguments no longer validate or it has outlived its time. */
  lemma {:induction false} ClaimAbandonsIff(es: seq<Event>, t: nat, c: Choice)
    requires Enabled(Reached(es), Step(t, c)) && Reached(es).threads[t].pc.Running?
    ensures var s := Reached(es);
            var p := s.threads[t].pid;
            (forall more :: StaysApproved(es + [Step(t, c)], more, p)) <==> !c.go || Stale(s.rows[p], s.now)
  {
    var s := Reached(es);
    var p := s.threads[t].pid;
    var es' := es + [Step(t, c)];
    EveryRunKeepsRows(es);
    assert RowOk(s, p);
    Then(es, Step(t, c));
    if !c.go || Stale(s.rows[p], s.now) {
      assert Abandoned(Reached(es'), p);
      forall more ensures StaysApproved(es', more, p) {
        AbandonedForever(es', more, p);
      }
    } else {
      assert es' + [] == es';
      assert !StaysApproved(es', [], p);
    }
  }

  ghost predicate StaysApproved(es: seq<Event>, more: seq<Event>, p: nat) {
    p < |Reached(es + more).rows| && Reached(es + more).rows[p].status.Approved?
  }

  // ----- the rows a check reads ---------------------------------------------------------------------

  /** The code's check reads the first 200 rows of the turn; a turn with no more than that is
      found resolved exactly when all its rows are. */
  lemma {:induction false} CheckReadsEveryRow(s: State, session: nat, turn: nat)
    requires CountTurn(s.rows, turn, |s.rows|) <= LIST_LIMIT
    requires forall p :: 0 <= p < |s.rows| ==> s.rows[p].session == session
    ensures var read := OfTurn(s.rows, session, turn, |s.rows|);
            AllResolved(s, turn) <==> forall i :: 0 <= i < |read| ==> !Unresolved(s.rows[read[i]], s.now)
  {
    hide OfTurn, CountTurn, Unresolved;
    var read := OfTurn(s.rows, session, turn, |s.rows|);
    forall p | 0 <= p < |s.rows| && s.rows[p].turn == turn ensures exists i :: 0 <= i < |read| && read[i] == p {
      CountGrows(s.rows, turn, p, |s.rows|);
      OfTurnTells(s.rows, session, turn, |s.rows|, p);
      assert p in read;
    }
    if forall i :: 0 <= i < |read| ==> !Unresolved(s.rows[read[i]], s.now) {
      forall p | 0 <= p < |s.rows| && s.rows[p].turn == turn ensures !Unresolved(s.rows[p], s.now) {
        var i :| 0 <= i < |read| && read[i] == p;
      }
    }
  }
}

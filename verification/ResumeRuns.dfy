/** Runs of the approval protocol that end badly, step by step
    (app/smartbrain_3000/agent_routes.py: deny, _launch_scheduled_resume,
    _resume_scheduled_worker; approvals.py: list_pending, claim).  Each is the witness that a
    way out named in ResumeProtocol is one the code can take. */
module ResumeRuns {
  import opened Prelude
  import opened Approvals
  import opened ApprovalProtocol
  import opened ResumeProtocol

  const NoChoice := Choice(false, 0, 0)
  const LATE: nat := SCHEDULED_TTL + 1

  // ----- one more event ---------------------------------------------------------------------------

  /** A scheduled turn 7 parks its first row. */
  lemma Begun(parks: nat) returns (es: seq<Event>, s: State)
    requires parks > 0
    ensures Reached(es) == s
    ensures s == State(0, [Row(0, 7, false, 0, Pending, None, None)], [Thread(7, 0, Parking(parks - 1))], {},
                       map[7 := JustParked(1, false, false)], map[], map[], [], [])
  {
    hide Next, Reached;
    var e := Begin(7, parks, false, true);
    NothingReached();
    FirstRow(parks);
    Then([], e);
    es := [] + [e];
    s := Reached(es);
  }

  lemma NothingReached()
    ensures Reached([]) == Start
  {
  }

  lemma FirstRow(parks: nat)
    requires parks > 0
    ensures Enabled(Start, Begin(7, parks, false, true))
    ensures Next(Start, Begin(7, parks, false, true))
            == State(0, [Row(0, 7, false, 0, Pending, None, None)], [Thread(7, 0, Parking(parks - 1))], {},
                     map[7 := JustParked(1, false, false)], map[], map[], [], [])
  {
    hide Reached, ThreadStep, AllResolved;
    var s1 := Start.(notes := map[7 := JustParked(0, false, false)]);
    assert !HasToken(s1, 7);
    var s2 := Parked(s1, 7, false);
    assert s2.notes == map[7 := JustParked(1, false, false)];
    assert s2.rows == [Row(0, 7, false, 0, Pending, None, None)];
  }

  lemma Park(es: seq<Event>, s: State, t: nat) returns (es': seq<Event>, s': State)
    requires Reached(es) == s && Enabled(s, Step(t, NoChoice)) && s.threads[t].pc.Parking?
    ensures Reached(es') == s'
    ensures var th := s.threads[t];
            s' == if th.pc.left == 0 then At(s, t, Done)
                  else At(Parked(s, th.turn, s.rows[th.pid].chat), t, Parking(th.pc.left - 1))
  {
    Then(es, Step(t, NoChoice));
    es' := es + [Step(t, NoChoice)];
    s' := Reached(es');
  }

  /** A deny request comes in and looks its row up. */
  lemma AskDeny(es: seq<Event>, s: State, p: nat) returns (es': seq<Event>, s': State)
    requires Reached(es) == s && p < |s.rows|
    ensures Reached(es') == s' && s' == Spawn(s, Thread(s.rows[p].turn, p, DenySeen))
  {
    var t := |s.threads|;
    Then(es, Deny(p));
    Then(es + [Deny(p)], Step(t, NoChoice));
    es' := es + [Deny(p)] + [Step(t, NoChoice)];
    s' := Reached(es');
    assert s'.threads == Spawn(s, Thread(s.rows[p].turn, p, DenySeen)).threads;
  }

  lemma WinDeny(es: seq<Event>, s: State, t: nat) returns (es': seq<Event>, s': State)
    requires Reached(es) == s && Enabled(s, Step(t, NoChoice)) && s.threads[t].pc.DenySeen? && s.threads[t].turn in s.notes
    requires s.rows[s.threads[t].pid].status.Pending? && !Stale(s.rows[s.threads[t].pid], s.now)
    ensures Reached(es') == s'
    ensures var th := s.threads[t];
            s' == At(NotSwept(s.(rows := s.rows[th.pid := s.rows[th.pid].(status := Denied, resolvedAt := Some(s.now))]), th.turn),
                     t, Checking)
  {
    Then(es, Step(t, NoChoice));
    es' := es + [Step(t, NoChoice)];
    s' := Reached(es');
  }

  lemma PassCheck(es: seq<Event>, s: State, t: nat) returns (es': seq<Event>, s': State)
    requires Reached(es) == s && Enabled(s, Step(t, NoChoice)) && s.threads[t].pc.Checking?
    requires s.threads[t].turn in s.notes && AllResolved(s, s.threads[t].turn)
    ensures Reached(es') == s'
    ensures var turn := s.threads[t].turn;
            var n := s.notes[turn];
            s' == At(s.(notes := s.notes[turn := n.(checked := true, rival := n.rival || OtherComing(s, turn, t))]),
                     t, Launching(n.gen))
  {
    Then(es, Step(t, NoChoice));
    es' := es + [Step(t, NoChoice)];
    s' := Reached(es');
  }

  lemma RefuseLaunch(es: seq<Event>, s: State, t: nat) returns (es': seq<Event>, s': State)
    requires Reached(es) == s && Enabled(s, Step(t, NoChoice)) && s.threads[t].pc.Launching?
    requires s.threads[t].turn in s.notes && s.threads[t].turn in s.resuming
    ensures Reached(es') == s'
    ensures var th := s.threads[t];
            var n := s.notes[th.turn];
            s' == At(s.(notes := s.notes[th.turn := n.(refused := n.refused || th.pc.gen == n.gen)]), t, Done)
  {
    Then(es, Step(t, NoChoice));
    es' := es + [Step(t, NoChoice)];
    s' := Reached(es');
  }

  lemma Launch(es: seq<Event>, s: State, t: nat) returns (es': seq<Event>, s': State)
    requires Reached(es) == s && Enabled(s, Step(t, NoChoice)) && s.threads[t].pc.Launching?
    requires s.threads[t].turn in s.notes && s.threads[t].turn !in s.resuming
    ensures Reached(es') == s'
    ensures var th := s.threads[t];
            var n := s.notes[th.turn];
            s' == Spawn(At(s.(resuming := s.resuming + {th.turn}, driver := s.driver[th.turn := |s.threads|],
                              notes := s.notes[th.turn := n.(again := n.again || n.drives > 0)]), t, Done),
                        Thread(th.turn, th.pid, Resuming(th.pc.gen)))
  {
    Then(es, Step(t, NoChoice));
    es' := es + [Step(t, NoChoice)];
    s' := Reached(es');
  }

  /** The worker's first look at the rows. */
  lemma Look(es: seq<Event>, s: State, t: nat) returns (es': seq<Event>, s': State)
    requires Reached(es) == s && Enabled(s, Step(t, NoChoice)) && s.threads[t].pc.Resuming? && s.threads[t].turn in s.notes
    ensures Reached(es') == s'
    ensures var turn := s.threads[t].turn;
            s' == if !AllResolved(s, turn) then At(s, t, Leaving)
                  else At(s.(notes := s.notes[turn := s.notes[turn].(drives := s.notes[turn].drives + 1)]), t, Driving)
  {
    Then(es, Step(t, NoChoice));
    es' := es + [Step(t, NoChoice)];
    s' := Reached(es');
  }

  /** The rest of a worker's run: it drives, perhaps parks again, or leaves. */
  lemma Work(es: seq<Event>, s: State, t: nat, parks: nat) returns (es': seq<Event>, s': State)
    requires Reached(es) == s && Enabled(s, Step(t, Choice(false, 0, parks)))
    requires s.threads[t].pc.Driving? || s.threads[t].pc.Reparking? || s.threads[t].pc.Leaving?
    ensures Reached(es') == s' && s' == WorkerStep(s, t, Choice(false, 0, parks))
  {
    Then(es, Step(t, Choice(false, 0, parks)));
    es' := es + [Step(t, Choice(false, 0, parks))];
    s' := Reached(es');
  }

  // ----- the turn of the stories -------------------------------------------------------------------

  const Waits := Row(0, 7, false, 0, Pending, None, None)
  const Denies := Waits.(status := Denied, resolvedAt := Some(0))

  /** Turn 7 and nothing else, at time 0, with nothing approved. */
  function World(rows: seq<Row>, threads: seq<Thread>, resuming: set<nat>, driver: map<nat, nat>, n: Note): State {
    State(0, rows, threads, resuming, map[7 := n], driver, map[], [], [])
  }

  /** All rows resolved, all quiet, and nobody drove the turn after its last row was parked. */
  ghost predicate Lost(s: State, turn: nat) {
    Quiet(s) && turn in s.notes && AllResolved(s, turn) && s.notes[turn].drives == 0 && s.resuming == {}
  }

  /** The last row of the turn is denied and the check passes. */
  lemma DenyLast(es: seq<Event>, s: State) returns (es': seq<Event>, s': State)
    requires s.rows != [] && 7 in s.notes && Reached(es) == World(s.rows, s.threads, s.resuming, s.driver, s.notes[7]) == s
    requires var p := |s.rows| - 1; s.rows[p] == Waits && forall q :: 0 <= q < p ==> s.rows[q] == Denies
    requires forall u :: 0 <= u < |s.threads| ==> !Coming(s.threads[u].pc)
    ensures var p := |s.rows| - 1;
            && Reached(es') == s'
            && s' == World(s.rows[p := Denies], s.threads + [Thread(7, p, Launching(s.notes[7].gen))], s.resuming, s.driver,
                           s.notes[7].(checked := true, swept := false))
  {
    hide Next, Reached, Quiet;
    var p, t := |s.rows| - 1, |s.threads|;
    var es1, s1 := AskDeny(es, s, p);
    var es2, s2 := WinDeny(es1, s1, t);
    assert s2 == World(s.rows[p := Denies], s.threads + [Thread(7, p, Checking)], s.resuming, s.driver, s.notes[7].(swept := false));
    assert AllResolved(s2, 7) && !OtherComing(s2, 7, t);
    es', s' := PassCheck(es2, s2, t);
    assert s'.threads == s.threads + [Thread(7, p, Launching(s.notes[7].gen))];
  }

  // ----- lost turns -----------------------------------------------------------------------------------

  /** The sweep launches nothing: a turn whose only row expires is resolved and never resumed. */
  lemma {:induction false} SweepLosesResume()
    ensures exists es :: var s := Reached(es); Lost(s, 7) && s.notes[7].swept
  {
    var es, s := Begun(1);
    es, s := Park(es, s, 0);
    Then(es, Tick(LATE));
    es := es + [Tick(LATE)];
    var stale := Reached(es);
    Then(es, Sweep);
    es := es + [Sweep];
    assert Swept(stale.rows[0], stale.now) != stale.rows[0] && SweepHits(stale, 7);
    assert Lost(Reached(es), 7);
  }

  /** The first of two rows is denied before the second is parked, so the check passes. */
  lemma EarlyPass() returns (es: seq<Event>, s: State)
    ensures Reached(es) == s
    ensures s == World([Denies], [Thread(7, 0, Parking(1)), Thread(7, 0, Launching(1))], {}, map[],
                       JustParked(1, false, false).(checked := true))
  {
    hide Next, Reached, AllResolved;
    es, s := Begun(2);
    es, s := DenyLast(es, s);
    assert s.rows == [Denies] && s.threads == [Thread(7, 0, Parking(1)), Thread(7, 0, Launching(1))];
  }

  /** Its worker may drive the turn while the second row is still to be parked. */
  lemma {:induction false} DrivesHalfParked()
    ensures exists es ::
              var s := Reached(es);
              |s.threads| == 3 && s.threads[0].turn == s.threads[2].turn && s.threads[0].pc == Parking(1) && s.threads[2].pc.Driving?
  {
    hide Next, Reached;
    var es, s := EarlyPass();
    es, s := Launch(es, s, 1);
    assert AllResolved(s, 7);
    es, s := Look(es, s, 2);
    assert s.threads[0].pc == Parking(1) && s.threads[2].pc.Driving?;
  }

  /** Or the second row is parked first. */
  lemma HalfParked() returns (es: seq<Event>, s: State)
    ensures Reached(es) == s
    ensures s == World([Denies, Waits], [Thread(7, 0, Done), Thread(7, 0, Launching(1))], {}, map[], JustParked(2, false, true))
  {
    hide Next, Reached;
    es, s := EarlyPass();
    assert Token(s.threads[1].pc) && HasToken(s, 7);
    es, s := Park(es, s, 0);
    es, s := Park(es, s, 0);
    assert s.rows == [Denies, Waits] && s.threads == [Thread(7, 0, Done), Thread(7, 0, Launching(1))];
  }

  /** Its worker finds the second row pending. */
  lemma StaleLook() returns (es: seq<Event>, s: State)
    ensures Reached(es) == s
    ensures s == World([Denies, Waits], [Thread(7, 0, Done), Thread(7, 0, Done), Thread(7, 0, Leaving)],
                       {7}, map[7 := 2], JustParked(2, false, true))
  {
    hide Next, Reached;
    es, s := HalfParked();
    es, s := Launch(es, s, 1);
    assert s.threads == [Thread(7, 0, Done), Thread(7, 0, Done), Thread(7, 0, Resuming(1))];
    assert Unresolved(s.rows[1], s.now) && !AllResolved(s, 7);
    es, s := Look(es, s, 2);
    assert s.threads == [Thread(7, 0, Done), Thread(7, 0, Done), Thread(7, 0, Leaving)];
  }

  /** A launch is refused while the worker is still leaving; then the worker is gone. */
  lemma TurnedAway(es: seq<Event>, s: State) returns (es': seq<Event>, s': State)
    requires 7 in s.notes && |s.threads| == 4 && s.threads[0].pc.Done? && s.threads[1].pc.Done?
    requires Reached(es) == World([Denies, Denies], s.threads, {7}, map[7 := 2], s.notes[7]) == s
    requires s.threads[2] == Thread(7, 0, Leaving) && s.threads[3] == Thread(7, 1, Launching(s.notes[7].gen))
    requires s.notes[7].drives == 0
    ensures Reached(es') == s' && Lost(s', 7) && s'.notes[7] == s.notes[7].(refused := true)
  {
    hide Next, Reached;
    var es1, s1 := RefuseLaunch(es, s, 3);
    assert s1.threads[2] == s.threads[2];
    es', s' := Work(es1, s1, 2, 0);
    assert s'.threads[3].pc.Done? && s'.threads[2].pc.Done? && s'.resuming == {};
  }

  /** Rows are parked one by one, so a check can pass on the first alone.  Its worker finds the
      second row pending and leaves; a denial of that row meanwhile is refused its launch. */
  lemma {:induction false} StaleLaunchLosesResume()
    ensures exists es :: var s := Reached(es); Lost(s, 7) && !s.notes[7].swept && !s.notes[7].overlap && s.notes[7].ahead
  {
    hide Next, Reached, AllResolved, Quiet;
    var es, s := StaleLook();
    es, s := DenyLast(es, s);
    assert s.rows == [Denies, Denies];
    es, s := TurnedAway(es, s);
    assert Lost(s, 7);
  }

  /** A one-row batch was denied, checked and is being driven. */
  lemma FirstDrive() returns (es: seq<Event>, s: State)
    ensures Reached(es) == s
    ensures s == World([Denies], [Thread(7, 0, Done), Thread(7, 0, Done), Thread(7, 0, Driving)],
                       {7}, map[7 := 2], JustParked(1, false, false).(checked := true, drives := 1))
  {
    hide Next, Reached;
    es, s := Begun(1);
    es, s := Park(es, s, 0);
    assert s == World([Waits], [Thread(7, 0, Done)], {}, map[], JustParked(1, false, false));
    es, s := DenyLast(es, s);
    es, s := Launch(es, s, 1);
    assert s.threads == [Thread(7, 0, Done), Thread(7, 0, Done), Thread(7, 0, Resuming(1))];
    assert AllResolved(s, 7);
    es, s := Look(es, s, 2);
    assert s.threads == [Thread(7, 0, Done), Thread(7, 0, Done), Thread(7, 0, Driving)];
  }

  /** It parks one more row, and has not left yet. */
  lemma Reparked() returns (es: seq<Event>, s: State)
    ensures Reached(es) == s
    ensures s == World([Denies, Waits], [Thread(7, 0, Done), Thread(7, 0, Done), Thread(7, 0, Leaving)],
                       {7}, map[7 := 2], JustParked(2, true, false))
  {
    hide Next, Reached, AllResolved;
    es, s := FirstDrive();
    es, s := Work(es, s, 2, 1);
    es, s := Work(es, s, 2, 0);
    assert s.rows == [Denies, Waits];
    es, s := Work(es, s, 2, 0);
    assert s.threads == [Thread(7, 0, Done), Thread(7, 0, Done), Thread(7, 0, Leaving)];
  }

  /** A worker leaves the set only after it has parked again, so a denial in between finds the
      launch refused: the turn is resolved, no one drives it, and no one will. */
  lemma {:induction false} ReparkRaceLosesResume()
    ensures exists es :: var s := Reached(es); Lost(s, 7) && !s.notes[7].swept && s.notes[7].overlap && s.notes[7].gen == 2
  {
    hide Next, Reached, AllResolved, Quiet;
    var es, s := Reparked();
    es, s := DenyLast(es, s);
    assert s.rows == [Denies, Denies];
    es, s := TurnedAway(es, s);
    assert Lost(s, 7);
  }

  // ----- a batch driven twice ------------------------------------------------------------------------

  /** Two rows, both denied before either request makes its check. */
  lemma BothDenied() returns (es: seq<Event>, s: State)
    ensures Reached(es) == s
    ensures s == World([Denies, Denies], [Thread(7, 0, Done), Thread(7, 0, Checking), Thread(7, 1, Checking)],
                       {}, map[], JustParked(2, false, false))
  {
    hide Next, Reached, AllResolved;
    es, s := Begun(2);
    es, s := Park(es, s, 0);
    es, s := Park(es, s, 0);
    assert s == World([Waits, Waits], [Thread(7, 0, Done)], {}, map[], JustParked(2, false, false));
    es, s := AskDeny(es, s, 0);
    es, s := AskDeny(es, s, 1);
    assert s.threads == [Thread(7, 0, Done), Thread(7, 0, DenySeen), Thread(7, 1, DenySeen)];
    es, s := WinDeny(es, s, 1);
    es, s := WinDeny(es, s, 2);
    assert s.threads == [Thread(7, 0, Done), Thread(7, 0, Checking), Thread(7, 1, Checking)] && s.rows == [Denies, Denies];
  }

  /** Both checks pass. */
  lemma BothPassed() returns (es: seq<Event>, s: State)
    ensures Reached(es) == s
    ensures s == World([Denies, Denies], [Thread(7, 0, Done), Thread(7, 0, Launching(2)), Thread(7, 1, Launching(2))],
                       {}, map[], JustParked(2, false, false).(checked := true, rival := true))
  {
    hide Next, Reached;
    es, s := BothDenied();
    assert AllResolved(s, 7);
    assert Coming(s.threads[2].pc) && OtherComing(s, 7, 1);
    es, s := PassCheck(es, s, 1);
    assert AllResolved(s, 7);
    es, s := PassCheck(es, s, 2);
    assert s.threads == [Thread(7, 0, Done), Thread(7, 0, Launching(2)), Thread(7, 1, Launching(2))];
  }

  lemma BothResolved(s: State)
    requires s.rows == [Denies, Denies]
    ensures AllResolved(s, 7)
  {
  }

  lemma LaunchBoth(es: seq<Event>, s: State, t: nat) returns (es': seq<Event>, s': State)
    requires 7 in s.notes && Reached(es) == World([Denies, Denies], s.threads, {}, s.driver, s.notes[7]) == s
    requires t < |s.threads| && s.threads[t].pid < 2 && s.threads[t] == Thread(7, s.threads[t].pid, Launching(2))
    ensures var n := s.notes[7];
            && Reached(es') == s'
            && s' == World([Denies, Denies], s.threads[t := s.threads[t].(pc := Done)] + [Thread(7, s.threads[t].pid, Resuming(2))],
                           {7}, s.driver[7 := |s.threads|], n.(again := n.again || n.drives > 0))
  {
    hide Next, Reached, AllResolved;
    es', s' := Launch(es, s, t);
    assert s'.resuming == {7};
  }

  lemma LookBoth(es: seq<Event>, s: State, t: nat) returns (es': seq<Event>, s': State)
    requires 7 in s.notes && Reached(es) == World([Denies, Denies], s.threads, {7}, s.driver, s.notes[7]) == s
    requires t < |s.threads| && s.threads[t].pid < 2 && s.threads[t] == Thread(7, s.threads[t].pid, Resuming(2))
    ensures var n := s.notes[7];
            && Reached(es') == s'
            && s' == World([Denies, Denies], s.threads[t := s.threads[t].(pc := Driving)], {7}, s.driver, n.(drives := n.drives + 1))
  {
    hide Next, Reached, AllResolved;
    BothResolved(s);
    es', s' := Look(es, s, t);
  }

  /** A launch, a worker that drives and parks nothing, and its leave. */
  lemma OneDrive(es: seq<Event>, s: State, t: nat) returns (es': seq<Event>, s': State)
    requires 7 in s.notes && Reached(es) == World([Denies, Denies], s.threads, {}, s.driver, s.notes[7]) == s
    requires t < |s.threads| && s.threads[t].pid < 2 && s.threads[t] == Thread(7, s.threads[t].pid, Launching(2))
    ensures var n := s.notes[7];
            && Reached(es') == s'
            && s' == World([Denies, Denies], s.threads[t := s.threads[t].(pc := Done)] + [Thread(7, s.threads[t].pid, Done)],
                           {}, s.driver[7 := |s.threads|], n.(drives := n.drives + 1, again := n.again || n.drives > 0))
  {
    hide Next, Reached, AllResolved;
    var u := |s.threads|;
    var es1, s1 := LaunchBoth(es, s, t);
    var es2, s2 := LookBoth(es1, s1, u);
    var es3, s3 := Work(es2, s2, u, 0);
    es', s' := Work(es3, s3, u, 0);
    assert s'.threads == s.threads[t := s.threads[t].(pc := Done)] + [Thread(7, s.threads[t].pid, Done)];
    assert s'.resuming == {};
  }

  /** Two denials resolve the two rows before either checks: both checks pass, and when the
      first worker has left, the second launch goes through on the same batch. */
  lemma {:induction false} DoubleDrive()
    ensures exists es ::
              var s := Reached(es);
              Quiet(s) && 7 in s.notes && s.notes[7].gen == 2 && s.notes[7].drives == 2 && !s.notes[7].overlap && !s.notes[7].ahead
  {
    hide Next, Reached, AllResolved;
    var es, s := BothPassed();
    es, s := OneDrive(es, s, 1);
    assert s.threads == [Thread(7, 0, Done), Thread(7, 0, Done), Thread(7, 1, Launching(2)), Thread(7, 0, Done)];
    es, s := OneDrive(es, s, 2);
    assert Quiet(s);
  }

  // ----- a claim that comes too late ---------------------------------------------------------------

  /** One row is approved, and the request is about to claim it. */
  lemma Approving() returns (es: seq<Event>, s: State)
    ensures Reached(es) == s && s.now == 0
    ensures s.rows == [Waits.(status := Approved, resolvedAt := Some(0))] && s.owner == map[0 := 1]
    ensures |s.threads| == 2 && s.threads[1] == Thread(7, 0, Running)
  {
    var yes := Choice(true, 0, 0);
    es, s := Begun(1);
    Then(es, Approve(0));
    es := es + [Approve(0)];
    assert Reached(es).threads[1] == Thread(7, 0, Asked);
    Then(es, Step(1, yes));
    es := es + [Step(1, yes)];
    assert Reached(es).threads[1] == Thread(7, 0, Seen);
    Then(es, Step(1, yes));
    es := es + [Step(1, yes)];
    s := Reached(es);
  }

  /** An approval in time and a claim out of time: the row is abandoned. */
  lemma {:induction false} LateClaimAbandons()
    ensures exists es :: Abandoned(Reached(es), 0)
  {
    var es, s := Approving();
    Then(es, Tick(LATE));
    es := es + [Tick(LATE)];
    Then(es, Step(1, Choice(true, 0, 0)));
    es := es + [Step(1, Choice(true, 0, 0))];
    assert Abandoned(Reached(es), 0);
  }
}

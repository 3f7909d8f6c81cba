/** Approve and deny requests, the expiry sweep and the background resume worker, interleaved
    (app/smartbrain_3000/agent_routes.py: approve, deny, _maybe_finish_scheduled_turn,
    _launch_scheduled_resume, _resume_scheduled_worker; tools.py: run).  Every database
    statement and every locked region is one atomic step of one thread. */
module ApprovalProtocol {
  import opened Prelude
  import opened Approvals

  // ----- threads --------------------------------------------------------------------------------

  /** Where a thread stands.  An approve request: Asked, Seen, Running, Claimed, Storing,
      Writing, Checking, Launching; a deny request: DenyAsked, DenySeen, Checking, Launching;
      a scheduler run: Parking; a worker: Resuming, Driving, Reparking, Leaving.  `gen` is the
      number of rows the turn had parked when they were last found resolved. */
  datatype Pc =
    | Asked | Seen | Running | Claimed | Storing(result: int) | Writing(result: int)
    | DenyAsked | DenySeen
    | Checking | Launching(gen: nat)
    | Parking(left: nat)
    | Resuming(gen: nat) | Driving | Reparking(left: nat) | Leaving
    | Done

  datatype Thread = Thread(turn: nat, pid: nat, pc: Pc)

  /** History of a scheduled turn.  `gen` counts its rows.  When the last of them was parked:
      did a worker hold the turn (`overlap`), had a check passed whose worker did not drive
      yet (`ahead`)?  Since then: did a check pass (`checked`), with another request still on
      its way to the check (`rival`); how often was the turn driven (`drives`), was a worker
      launched though it had been driven (`again`), was the launch after a passed check
      refused (`refused`), and did the sweep resolve the last row to be resolved (`swept`)? */
  datatype Note = Note(gen: nat, overlap: bool, ahead: bool, checked: bool, rival: bool,
                       drives: nat, again: bool, refused: bool, swept: bool)

  /** A turn of which `gen` rows are parked and nothing else has happened since. */
  function JustParked(gen: nat, overlap: bool, ahead: bool): Note {
    Note(gen, overlap, ahead, false, false, 0, false, false, false)
  }

  /** `notes` holds the scheduled turns; `driver` the last worker of each; `owner` the request
      that won the approval of each row; `ran` and `written` the rows whose handler ran and
      whose result was written, in order. */
  datatype State = State(now: nat, rows: seq<Row>, threads: seq<Thread>, resuming: set<nat>,
                         notes: map<nat, Note>, driver: map<nat, nat>, owner: map<nat, nat>,
                         ran: seq<nat>, written: seq<nat>)

  /** What the outside decides in a step: whether an irreversible tool was confirmed, whether
      the arguments still validate, what the handler returns or raises, how many rows a
      resumed turn parks again (they are inserted one by one). */
  datatype Choice = Choice(go: bool, result: int, parks: nat)

  datatype Event =
    | Tick(seconds: nat)
    | Sweep
    | Begin(turn: nat, parks: nat, chat: bool, scheduled: bool)
    | Approve(pid: nat)
    | Deny(pid: nat)
    | Step(thread: nat, choice: Choice)

  const Start := State(0, [], [], {}, map[], map[], map[], [], [])

  ghost predicate AllResolved(s: State, turn: nat) {
    forall p :: 0 <= p < |s.rows| && s.rows[p].turn == turn ==> !Unresolved(s.rows[p], s.now)
  }

  predicate TurnUsed(s: State, turn: nat) {
    exists p :: 0 <= p < |s.rows| && s.rows[p].turn == turn
  }

  predicate Enabled(s: State, e: Event) {
    match e
    case Tick(_) => true
    case Sweep => true
    case Begin(turn, parks, _, _) => parks > 0 && turn !in s.notes && !TurnUsed(s, turn)
    case Approve(pid) => pid < |s.rows|
    case Deny(pid) => pid < |s.rows|
    case Step(t, c) => t < |s.threads| && s.threads[t].pid < |s.rows| && !s.threads[t].pc.Done?
  }

  /** Between a passed check and the worker's first look at the rows. */
  predicate Token(pc: Pc) {
    pc.Launching? || pc.Resuming?
  }

  predicate HasToken(s: State, turn: nat) {
    exists t :: 0 <= t < |s.threads| && s.threads[t].turn == turn && Token(s.threads[t].pc)
  }

  /** On its way to the check, with its own row behind it. */
  predicate Coming(pc: Pc) {
    pc.Claimed? || pc.Storing? || pc.Writing? || pc.Checking?
  }

  predicate OtherComing(s: State, turn: nat, t: nat) {
    exists u :: 0 <= u < |s.threads| && u != t && s.threads[u].turn == turn && Coming(s.threads[u].pc)
  }

  // ----- steps ------------------------------------------------------------------------------------

  function At(s: State, t: nat, pc: Pc): State
    requires t < |s.threads|
  {
    s.(threads := s.threads[t := s.threads[t].(pc := pc)])
  }

  function Spawn(s: State, th: Thread): State {
    s.(threads := s.threads + [th])
  }

  /** The row of a turn was resolved by a request. */
  function NotSwept(s: State, turn: nat): State {
    if turn in s.notes then s.(notes := s.notes[turn := s.notes[turn].(swept := false)]) else s
  }

  /** One more row parked for a turn. */
  function Parked(s: State, turn: nat, chat: bool): State {
    var s1 := s.(rows := s.rows + [Row(0, turn, chat, s.now, Pending, None, None)]);
    if turn in s.notes then
      s1.(notes := s.notes[turn := JustParked(s.notes[turn].gen + 1, turn in s.resuming, HasToken(s, turn))])
    else s1
  }

  ghost predicate SweepHits(s: State, turn: nat) {
    exists p :: 0 <= p < |s.rows| && s.rows[p].turn == turn && Swept(s.rows[p], s.now) != s.rows[p]
  }

  ghost function SweepNotes(s: State): map<nat, Note> {
    map t | t in s.notes :: if SweepHits(s, t) then s.notes[t].(swept := true) else s.notes[t]
  }

  /** A request that resolved a row goes on to the check only for a scheduled turn. */
  function AfterResolving(s: State, turn: nat): Pc {
    if turn in s.notes then Checking else Done
  }

  /** `approve`, up to and including the store of the result. */
  function ApproveStep(s: State, t: nat, c: Choice): State
    requires t < |s.threads| && s.threads[t].pid < |s.rows|
  {
    var th := s.threads[t];
    var r := s.rows[th.pid];
    match th.pc
    case Asked => At(s, t, if r.status.Pending? && !Stale(r, s.now) && c.go then Seen else Done)
    case Seen =>
      var m := Moved(r, Pending, Approved, s.now);
      if m.None? then At(s, t, Done)
      else At(s.(rows := s.rows[th.pid := m.value], owner := s.owner[th.pid := t]), t, Running)
    case Running =>
      var m := Moved(r, Approved, Executed, s.now);
      if !c.go || m.None? then At(s, t, Storing(c.result))
      else At(s.(rows := s.rows[th.pid := m.value]), t, Claimed)
    case Claimed => At(s.(ran := s.ran + [th.pid]), t, Storing(c.result))
    case Storing(result) => At(s, t, if Storable(r) then Writing(result) else AfterResolving(s, th.turn))
    case Writing(result) =>
      At(NotSwept(s.(rows := s.rows[th.pid := r.(result := Some(result))], written := s.written + [th.pid]), th.turn),
         t, AfterResolving(s, th.turn))
    case _ => s
  }

  function DenyStep(s: State, t: nat, c: Choice): State
    requires t < |s.threads| && s.threads[t].pid < |s.rows|
  {
    var th := s.threads[t];
    match th.pc
    case DenyAsked => At(s, t, DenySeen)
    case DenySeen =>
      var m := Moved(s.rows[th.pid], Pending, Denied, s.now);
      if m.None? then At(s, t, Done)
      else At(NotSwept(s.(rows := s.rows[th.pid := m.value]), th.turn), t, AfterResolving(s, th.turn))
    case _ => s
  }

  /** `_maybe_finish_scheduled_turn`: the check, then the test-and-set of the turn. */
  ghost function FinishStep(s: State, t: nat): State
    requires t < |s.threads|
  {
    var th := s.threads[t];
    match th.pc
    case Checking =>
      if AllResolved(s, th.turn) && th.turn in s.notes then
        var n := s.notes[th.turn];
        At(s.(notes := s.notes[th.turn := n.(checked := true, rival := n.rival || OtherComing(s, th.turn, t))]),
           t, Launching(n.gen))
      else At(s, t, Done)
    case Launching(gen) =>
      if th.turn !in s.notes then At(s, t, Done)
      else
        var n := s.notes[th.turn];
        if th.turn in s.resuming then
          At(s.(notes := s.notes[th.turn := n.(refused := n.refused || gen == n.gen)]), t, Done)
        else
          Spawn(At(s.(resuming := s.resuming + {th.turn}, driver := s.driver[th.turn := |s.threads|],
                      notes := s.notes[th.turn := n.(again := n.again || n.drives > 0)]), t, Done),
                Thread(th.turn, th.pid, Resuming(gen)))
    case _ => s
  }

  /** The worker: it drives the turn only if it finds every row resolved, may park again, and
      leaves the set last. */
  ghost function WorkerStep(s: State, t: nat, c: Choice): State
    requires t < |s.threads| && s.threads[t].pid < |s.rows|
  {
    var th := s.threads[t];
    match th.pc
    case Resuming(_) =>
      if !AllResolved(s, th.turn) then At(s, t, Leaving)
      else if th.turn !in s.notes then At(s, t, Driving)
      else At(s.(notes := s.notes[th.turn := s.notes[th.turn].(drives := s.notes[th.turn].drives + 1)]), t, Driving)
    case Driving =>
      At(s, t, if c.parks == 0 then Leaving else Reparking(c.parks))
    case Reparking(left) =>
      if left == 0 then At(s, t, Leaving)
      else At(Parked(s, th.turn, s.rows[th.pid].chat), t, Reparking(left - 1))
    case Leaving => At(s.(resuming := s.resuming - {th.turn}), t, Done)
    case _ => s
  }

  ghost function ThreadStep(s: State, t: nat, c: Choice): State
    requires t < |s.threads| && s.threads[t].pid < |s.rows|
  {
    match s.threads[t].pc
    case DenyAsked => DenyStep(s, t, c)
    case DenySeen => DenyStep(s, t, c)
    case Checking => FinishStep(s, t)
    case Launching(_) => FinishStep(s, t)
    case Resuming(_) => WorkerStep(s, t, c)
    case Driving => WorkerStep(s, t, c)
    case Reparking(_) => WorkerStep(s, t, c)
    case Parking(left) =>
      if left == 0 then At(s, t, Done)
      else At(Parked(s, s.threads[t].turn, s.rows[s.threads[t].pid].chat), t, Parking(left - 1))
    case Leaving => WorkerStep(s, t, c)
    case Done => s
    case _ => ApproveStep(s, t, c)
  }

  ghost function Next(s: State, e: Event): State
    requires Enabled(s, e)
  {
    match e
    case Tick(d) => s.(now := s.now + d)
    case Sweep => s.(rows := Swepts(s.rows, s.now), notes := SweepNotes(s))
    case Begin(turn, parks, chat, scheduled) =>
      var s1 := if scheduled then s.(notes := s.notes[turn := JustParked(0, false, false)]) else s;
      Spawn(Parked(s1, turn, chat), Thread(turn, |s.rows|, Parking(parks - 1)))
    case Approve(pid) => Spawn(s, Thread(s.rows[pid].turn, pid, Asked))
    case Deny(pid) => Spawn(s, Thread(s.rows[pid].turn, pid, DenyAsked))
    case Step(t, c) => ThreadStep(s, t, c)
  }

  ghost predicate PidsExist(s: State) {
    forall t :: 0 <= t < |s.threads| ==> s.threads[t].pid < |s.rows| && s.rows[s.threads[t].pid].turn == s.threads[t].turn
  }

  // ----- every row: single use -----------------------------------------------------------------

  ghost predicate NoRepeats(xs: seq<nat>) {
    forall i, j :: 0 <= i < j < |xs| ==> xs[i] != xs[j]
  }

  predicate Owning(pc: Pc) {
    pc.Running? || pc.Claimed? || pc.Storing? || pc.Writing?
  }

  predicate Past(pc: Pc) {
    pc.Checking? || pc.Launching? || pc.Done?
  }

  /** What a row is like while the request that won its approval stands at `pc`. */
  ghost predicate RowAt(s: State, p: nat, pc: Pc)
    requires p < |s.rows|
  {
    var r := s.rows[p];
    if r.status.Approved? then
      p !in s.ran && p !in s.written && r.result.None? && (pc.Running? || pc.Storing? || Past(pc))
    else
      && r.status.Executed?
      && (p in s.ran <==> !pc.Claimed?) && (p in s.written <==> Past(pc)) && (r.result.Some? <==> Past(pc))
      && (pc.Claimed? || pc.Storing? || pc.Writing? || Past(pc))
  }

  /** A row that was approved has one owner, forever; a row that was not was never run. */
  ghost predicate RowOk(s: State, p: nat)
    requires p < |s.rows|
  {
    if p in s.owner then
      var t := s.owner[p];
      t < |s.threads| && s.threads[t].pid == p && RowAt(s, p, s.threads[t].pc)
    else
      && !s.rows[p].status.Approved? && !s.rows[p].status.Executed? && s.rows[p].result.None?
      && p !in s.ran && p !in s.written
  }

  ghost predicate RowsOk(s: State) {
    && PidsExist(s)
    && (forall p :: 0 <= p < |s.rows| ==> RowOk(s, p))
    && (forall p :: p in s.owner || p in s.ran || p in s.written ==> p < |s.rows|)
    && (forall t :: 0 <= t < |s.threads| && Owning(s.threads[t].pc) ==>
          s.threads[t].pid in s.owner && s.owner[s.threads[t].pid] == t)
    && NoRepeats(s.ran) && NoRepeats(s.written)
  }

  /** Only thread `t` and its row changed, apart from new threads and new pending rows. */
  ghost predicate OnlyRow(s: State, s': State, t: nat)
    requires t < |s.threads|
  {
    var p := s.threads[t].pid;
    && |s.rows| <= |s'.rows| && |s.threads| <= |s'.threads| && s'.threads[t] == s.threads[t].(pc := s'.threads[t].pc)
    && (forall q :: 0 <= q < |s.rows| && q != p ==> SameRow(s, s', q))
    && (forall q :: |s.rows| <= q < |s'.rows| ==> s'.rows[q].status.Pending? && s'.rows[q].result.None?)
    && (forall u :: 0 <= u < |s.threads| && u != t ==> s'.threads[u] == s.threads[u])
    && (forall u :: |s.threads| <= u < |s'.threads| ==>
          && !Owning(s'.threads[u].pc) && s'.threads[u].pid < |s'.rows|
          && s'.rows[s'.threads[u].pid].turn == s'.threads[u].turn)
    && (p < |s.rows| ==> s'.rows[p].turn == s.rows[p].turn)
    && s'.owner.Keys <= s.owner.Keys + {p}
    && (forall q :: q in s'.ran ==> q in s.ran || q == p) && (forall q :: q in s'.written ==> q in s.written || q == p)
  }

  ghost predicate SameRow(s: State, s': State, q: nat)
    requires q < |s.rows| && q < |s'.rows|
  {
    && s'.rows[q] == s.rows[q] && (q in s'.owner <==> q in s.owner) && (q in s.owner ==> s'.owner[q] == s.owner[q])
    && (q in s'.ran <==> q in s.ran) && (q in s'.written <==> q in s.written)
  }

  lemma OtherRowOk(s: State, s': State, t: nat, q: nat)
    requires RowsOk(s) && t < |s.threads| && OnlyRow(s, s', t) && q < |s'.rows| && q != s.threads[t].pid
    ensures RowOk(s', q)
  {
    if q < |s.rows| {
      assert RowOk(s, q) && SameRow(s, s', q);
    }
  }

  /** Whoever else owns the thread's row still does. */
  ghost predicate OthersOwn(s: State, s': State, t: nat)
    requires t < |s.threads|
  {
    var p := s.threads[t].pid;
    forall u :: 0 <= u < |s.threads| && u != t && s.threads[u].pid == p && Owning(s.threads[u].pc) ==>
      p in s'.owner && s'.owner[p] == u
  }

  lemma {:induction false} FrameKeeps(s: State, s': State, t: nat)
    requires RowsOk(s) && t < |s.threads| && OnlyRow(s, s', t)
    requires var p := s.threads[t].pid; RowOk(s', p) && (Owning(s'.threads[t].pc) ==> p in s'.owner && s'.owner[p] == t)
    requires OthersOwn(s, s', t)
    requires NoRepeats(s'.ran) && NoRepeats(s'.written)
    ensures RowsOk(s')
  {
    hide RowOk, NoRepeats, Owning;
    forall q | 0 <= q < |s'.rows| ensures RowOk(s', q) {
      if q != s.threads[t].pid { OtherRowOk(s, s', t, q); }
    }
    forall u | 0 <= u < |s'.threads|
      ensures s'.threads[u].pid < |s'.rows| && s'.rows[s'.threads[u].pid].turn == s'.threads[u].turn
      ensures Owning(s'.threads[u].pc) ==> s'.threads[u].pid in s'.owner && s'.owner[s'.threads[u].pid] == u
    {
      if u < |s.threads| && s.threads[u].pid != s.threads[t].pid {
        assert SameRow(s, s', s.threads[u].pid);
      }
    }
  }

  lemma {:induction false} MovePc(s: State, t: nat, pc: Pc)
    requires RowsOk(s) && t < |s.threads|
    requires !Owning(s.threads[t].pc) && !Owning(pc) && (Past(s.threads[t].pc) ==> Past(pc))
    ensures RowsOk(At(s, t, pc))
  {
    assert RowOk(s, s.threads[t].pid);
    FrameKeeps(s, At(s, t, pc), t);
  }

  lemma {:induction false} SpawnKeeps(s: State, th: Thread)
    requires RowsOk(s) && !Owning(th.pc) && th.pid < |s.rows| && s.rows[th.pid].turn == th.turn
    ensures RowsOk(Spawn(s, th))
  {
    hide NoRepeats;
    var s' := Spawn(s, th);
    forall p | 0 <= p < |s'.rows| ensures RowOk(s', p) {
      assert RowOk(s, p);
    }
  }

  /** Rows, owners and runs do not depend on the turns' bookkeeping. */
  lemma {:induction false} NotesAside(s: State, s': State)
    requires RowsOk(s) && s' == s.(notes := s'.notes, resuming := s'.resuming, driver := s'.driver)
    ensures RowsOk(s')
  {
    hide NoRepeats;
    forall p | 0 <= p < |s'.rows| ensures RowOk(s', p) {
      assert RowOk(s, p);
    }
  }

  lemma {:induction false} ParkedKeeps(s: State, turn: nat, chat: bool)
    requires RowsOk(s)
    ensures RowsOk(Parked(s, turn, chat))
  {
    hide NoRepeats;
    var s1 := s.(rows := s.rows + [Row(0, turn, chat, s.now, Pending, None, None)]);
    forall p | 0 <= p < |s1.rows| ensures RowOk(s1, p) {
      if p < |s.rows| { assert RowOk(s, p); }
    }
    NotesAside(s1, Parked(s, turn, chat));
  }

  lemma {:induction false} WinApproval(s: State, t: nat)
    requires RowsOk(s) && t < |s.threads| && s.threads[t].pc.Seen?
    ensures RowsOk(ApproveStep(s, t, Choice(true, 0, 0)))
  {
    var p := s.threads[t].pid;
    assert RowOk(s, p);
    var s' := ApproveStep(s, t, Choice(true, 0, 0));
    FrameKeeps(s, s', t);
  }

  lemma {:induction false} TryClaim(s: State, t: nat, c: Choice)
    requires RowsOk(s) && t < |s.threads| && s.threads[t].pc.Running?
    ensures RowsOk(ApproveStep(s, t, c))
  {
    assert RowOk(s, s.threads[t].pid);
    FrameKeeps(s, ApproveStep(s, t, c), t);
  }

  lemma {:induction false} AppendFresh(xs: seq<nat>, x: nat)
    requires NoRepeats(xs) && x !in xs
    ensures NoRepeats(xs + [x])
  {
  }

  lemma {:induction false} RunHandler(s: State, t: nat, c: Choice)
    requires RowsOk(s) && t < |s.threads| && s.threads[t].pc.Claimed?
    ensures RowsOk(ApproveStep(s, t, c))
  {
    hide NoRepeats;
    assert RowOk(s, s.threads[t].pid);
    AppendFresh(s.ran, s.threads[t].pid);
    FrameKeeps(s, ApproveStep(s, t, c), t);
  }

  lemma {:induction false} StoreStep(s: State, t: nat, c: Choice)
    requires RowsOk(s) && t < |s.threads| && (s.threads[t].pc.Storing? || s.threads[t].pc.Writing?)
    ensures RowsOk(ApproveStep(s, t, c))
  {
    hide NoRepeats;
    var p := s.threads[t].pid;
    assert RowOk(s, p);
    if s.threads[t].pc.Writing? {
      AppendFresh(s.written, p);
    }
    FrameKeeps(s, ApproveStep(s, t, c), t);
  }

  lemma {:induction false} ApproveKeepsRows(s: State, t: nat, c: Choice)
    requires RowsOk(s) && t < |s.threads|
    ensures RowsOk(ApproveStep(s, t, c))
  {
    match s.threads[t].pc {
      case Asked => MovePc(s, t, ApproveStep(s, t, c).threads[t].pc);
      case Seen => WinApproval(s, t);
      case Running => TryClaim(s, t, c);
      case Claimed => RunHandler(s, t, c);
      case Storing(_) => StoreStep(s, t, c);
      case Writing(_) => StoreStep(s, t, c);
      case _ =>
    }
  }

  lemma {:induction false} DenyKeepsRows(s: State, t: nat, c: Choice)
    requires RowsOk(s) && t < |s.threads|
    ensures RowsOk(DenyStep(s, t, c))
  {
    hide NoRepeats;
    var p := s.threads[t].pid;
    assert RowOk(s, p);
    var s' := DenyStep(s, t, c);
    if s.threads[t].pc.DenySeen? && Moved(s.rows[p], Pending, Denied, s.now).Some? {
      FrameKeeps(s, s', t);
    } else if s.threads[t].pc.DenyAsked? || s.threads[t].pc.DenySeen? {
      MovePc(s, t, s'.threads[t].pc);
    }
  }

  lemma {:induction false} FinishKeepsRows(s: State, t: nat)
    requires RowsOk(s) && t < |s.threads|
    ensures RowsOk(FinishStep(s, t))
  {
    hide RowsOk;
    match s.threads[t].pc {
      case Checking =>
        var s' := FinishStep(s, t);
        NotesAside(s, s.(notes := s'.notes));
        MovePc(s.(notes := s'.notes), t, s'.threads[t].pc);
      case Launching(gen) =>
        var th := s.threads[t];
        var s' := FinishStep(s, t);
        var s1 := s.(resuming := s'.resuming, driver := s'.driver, notes := s'.notes);
        NotesAside(s, s1);
        MovePc(s1, t, Done);
        if th.turn in s.notes && th.turn !in s.resuming {
          PidOf(s1, t);
          SpawnKeeps(At(s1, t, Done), Thread(th.turn, th.pid, Resuming(gen)));
        }
      case _ =>
    }
  }

  lemma {:induction false} PidOf(s: State, t: nat)
    requires RowsOk(s) && t < |s.threads|
    ensures s.threads[t].pid < |s.rows| && s.rows[s.threads[t].pid].turn == s.threads[t].turn
  {
  }

  lemma {:induction false} WorkerKeepsRows(s: State, t: nat, c: Choice)
    requires RowsOk(s) && t < |s.threads| && s.threads[t].pid < |s.rows|
    ensures RowsOk(WorkerStep(s, t, c))
  {
    hide RowsOk;
    var th := s.threads[t];
    match th.pc {
      case Resuming(_) =>
        var s' := WorkerStep(s, t, c);
        NotesAside(s, s.(notes := s'.notes));
        MovePc(s.(notes := s'.notes), t, s'.threads[t].pc);
      case Driving => MovePc(s, t, WorkerStep(s, t, c).threads[t].pc);
      case Reparking(left) =>
        ParkedKeeps(s, th.turn, s.rows[th.pid].chat);
        if left == 0 { MovePc(s, t, Leaving); } else { MovePc(Parked(s, th.turn, s.rows[th.pid].chat), t, Reparking(left - 1)); }
      case Leaving =>
        NotesAside(s, s.(resuming := s.resuming - {th.turn}));
        MovePc(s.(resuming := s.resuming - {th.turn}), t, Done);
      case _ =>
    }
  }

  lemma {:induction false} SweepKeepsRows(s: State)
    requires RowsOk(s)
    ensures RowsOk(Next(s, Sweep))
  {
    hide NoRepeats;
    var s' := Next(s, Sweep);
    forall p | 0 <= p < |s'.rows| ensures RowOk(s', p) {
      assert RowOk(s, p);
    }
  }

  lemma {:induction false} TickKeepsRows(s: State, d: nat)
    requires RowsOk(s)
    ensures RowsOk(Next(s, Tick(d)))
  {
    hide NoRepeats;
    forall p | 0 <= p < |s.rows| ensures RowOk(Next(s, Tick(d)), p) {
      assert RowOk(s, p);
    }
  }

  lemma {:induction false} BeginKeepsRows(s: State, e: Event)
    requires RowsOk(s) && e.Begin? && Enabled(s, e)
    ensures RowsOk(Next(s, e))
  {
    hide RowsOk;
    var s1 := if e.scheduled then s.(notes := s.notes[e.turn := JustParked(0, false, false)]) else s;
    NotesAside(s, s1);
    ParkedKeeps(s1, e.turn, e.chat);
    SpawnKeeps(Parked(s1, e.turn, e.chat), Thread(e.turn, |s.rows|, Parking(e.parks - 1)));
  }

  lemma {:induction false} StepKeepsRows(s: State, t: nat, c: Choice)
    requires RowsOk(s) && Enabled(s, Step(t, c))
    ensures RowsOk(ThreadStep(s, t, c))
  {
    hide RowsOk, ApproveStep, DenyStep, FinishStep, WorkerStep;
    ApproveKeepsRows(s, t, c);
    DenyKeepsRows(s, t, c);
    FinishKeepsRows(s, t);
    WorkerKeepsRows(s, t, c);
    var th := s.threads[t];
    if th.pc.Parking? {
      if th.pc.left == 0 {
        MovePc(s, t, Done);
      } else {
        ParkedKeeps(s, th.turn, s.rows[th.pid].chat);
        MovePc(Parked(s, th.turn, s.rows[th.pid].chat), t, Parking(th.pc.left - 1));
      }
    }
  }

  lemma {:induction false} NextKeepsRows(s: State, e: Event)
    requires RowsOk(s) && Enabled(s, e)
    ensures RowsOk(Next(s, e))
  {
    hide RowsOk, ThreadStep;
    match e {
      case Tick(d) => TickKeepsRows(s, d);
      case Sweep => SweepKeepsRows(s);
      case Begin(_, _, _, _) => BeginKeepsRows(s, e);
      case Approve(pid) => SpawnKeeps(s, Thread(s.rows[pid].turn, pid, Asked));
      case Deny(pid) => SpawnKeeps(s, Thread(s.rows[pid].turn, pid, DenyAsked));
      case Step(t, c) => StepKeepsRows(s, t, c);
    }
  }

  // ----- every run ------------------------------------------------------------------------------------

  /** The state after any events, in any interleaving; an event that cannot happen changes
      nothing. */
  ghost function Reached(es: seq<Event>): State
    decreases |es|
  {
    if es == [] then Start
    else
      var s := Reached(es[..|es| - 1]);
      if Enabled(s, es[|es| - 1]) then Next(s, es[|es| - 1]) else s
  }

  lemma {:induction false} EveryRunKeepsRows(es: seq<Event>)
    ensures RowsOk(Reached(es))
    decreases |es|
  {
    hide Next;
    if es != [] {
      EveryRunKeepsRows(es[..|es| - 1]);
      var s, e := Reached(es[..|es| - 1]), es[|es| - 1];
      if Enabled(s, e) {
        NextKeepsRows(s, e);
      }
    }
  }

  /** Single use, under every interleaving: a row's handler runs at most once, and only when
      the row was approved and its execution claimed; its result is written at most once. */
  lemma {:induction false} SingleUse(es: seq<Event>, p: nat)
    requires p < |Reached(es).rows|
    ensures var s := Reached(es);
            && multiset(s.ran)[p] <= 1 && multiset(s.written)[p] <= 1
            && (p in s.ran ==> s.rows[p].status.Executed? && p in s.owner)
            && (p in s.written <==> s.rows[p].result.Some?)
            && (p in s.written ==> p in s.ran)
  {
    var s := Reached(es);
    EveryRunKeepsRows(es);
    assert RowOk(s, p);
    CountedOnce(s.ran, p);
    CountedOnce(s.written, p);
  }

  lemma {:induction false} CountedOnce(xs: seq<nat>, x: nat)
    requires NoRepeats(xs)
    ensures multiset(xs)[x] == if x in xs then 1 else 0
    decreases |xs|
  {
    if xs != [] {
      var n := |xs| - 1;
      assert xs == xs[..n] + [xs[n]];
      CountedOnce(xs[..n], x);
    }
  }

  /** Statuses only move along the declared edges, and a stored result never changes. */
  lemma {:induction false} OnlyEdges(s: State, e: Event, p: nat)
    requires RowsOk(s) && Enabled(s, e) && p < |s.rows|
    ensures var s' := Next(s, e);
            && p < |s'.rows|
            && (s'.rows[p].status == s.rows[p].status || Edge(s.rows[p].status, s'.rows[p].status))
            && (s.rows[p].result.Some? ==> s'.rows[p].result == s.rows[p].result)
  {
    hide RowsOk, RowOk, ThreadStep;
    if e.Step? {
      OnlyEdgesThread(s, e.thread, e.choice, p);
    } else {
      OnlyEdgesElse(s, e, p);
    }
  }

  lemma {:induction false} OnlyEdgesElse(s: State, e: Event, p: nat)
    requires Enabled(s, e) && p < |s.rows| && !e.Step?
    ensures var s' := Next(s, e);
            && p < |s'.rows|
            && (s'.rows[p].status == s.rows[p].status || Edge(s.rows[p].status, s'.rows[p].status))
            && s'.rows[p].result == s.rows[p].result
  {
  }

  lemma {:induction false} OnlyEdgesThread(s: State, t: nat, c: Choice, p: nat)
    requires RowsOk(s) && Enabled(s, Step(t, c)) && p < |s.rows|
    ensures var s' := ThreadStep(s, t, c);
            && p < |s'.rows|
            && (s'.rows[p].status == s.rows[p].status || Edge(s.rows[p].status, s'.rows[p].status))
            && (s.rows[p].result.Some? ==> s'.rows[p].result == s.rows[p].result)
  {
    hide RowsOk, RowOk, ApproveStep, DenyStep, FinishStep, WorkerStep, Parked, Edge;
    OnlyEdgesApprove(s, t, c, p);
    OnlyEdgesDeny(s, t, c, p);
    FinishKeepsOld(s, t);
    WorkerKeepsOld(s, t, c, p);
    ParkedKeepsOld(s, s.threads[t].turn, s.rows[s.threads[t].pid].chat, p);
  }

  /** The row is as it was, or one edge further, with any result kept. */
  predicate Further(r: Row, r': Row) {
    (r'.status == r.status || Edge(r.status, r'.status)) && (r.result.Some? ==> r'.result == r.result)
  }

  lemma OnlyEdgesApprove(s: State, t: nat, c: Choice, p: nat)
    requires RowsOk(s) && t < |s.threads| && s.threads[t].pid < |s.rows| && p < |s.rows|
    ensures var s' := ApproveStep(s, t, c); p < |s'.rows| && Further(s.rows[p], s'.rows[p])
  {
    hide NoRepeats, PidsExist, Stale;
    if s.threads[t].pc.Writing? {
      assert RowOk(s, s.threads[t].pid);
    }
  }

  lemma OnlyEdgesDeny(s: State, t: nat, c: Choice, p: nat)
    requires t < |s.threads| && s.threads[t].pid < |s.rows| && p < |s.rows|
    ensures var s' := DenyStep(s, t, c); p < |s'.rows| && Further(s.rows[p], s'.rows[p])
  {
    hide Stale;
  }

  lemma FinishKeepsOld(s: State, t: nat)
    requires t < |s.threads|
    ensures FinishStep(s, t).rows == s.rows
  {
    hide AllResolved, OtherComing;
  }

  lemma WorkerKeepsOld(s: State, t: nat, c: Choice, p: nat)
    requires t < |s.threads| && s.threads[t].pid < |s.rows| && p < |s.rows|
    ensures var s' := WorkerStep(s, t, c); p < |s'.rows| && s'.rows[p] == s.rows[p]
  {
    hide AllResolved, Parked;
    ParkedKeepsOld(s, s.threads[t].turn, s.rows[s.threads[t].pid].chat, p);
  }

  lemma ParkedKeepsOld(s: State, turn: nat, chat: bool, p: nat)
    requires p < |s.rows|
    ensures var s' := Parked(s, turn, chat); p < |s'.rows| && s'.rows[p] == s.rows[p]
  {
  }
}

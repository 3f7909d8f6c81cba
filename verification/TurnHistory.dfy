/** A turn over its whole life: the rows of a park are inserted one by one, and the turn may be
    resumed at any time and any number of times, by workers and by the chat page
    (app/smartbrain_3000/agent.py: _park, run_turn, resume_turn; approvals.py: list_for_turn). */
module TurnHistory {
  import opened Prelude
  import opened AgentTurn
  import Approvals

  // ----- histories --------------------------------------------------------------------------------

  /** A row of the table: a call, and which run parked it. */
  datatype Slot = Slot(call: Call, park: nat)

  /** One run of the loop.  `read` are the rows it resumed from (the opening run has none) and
      `parent` the run that parked its batch: was that park still being inserted (`half`), had
      it been resumed before (`again`)?  Of the calls this run parks, `inserted` are in the
      table; `driven` says whether they have been resumed. */
  datatype Run = Run(env: Env, read: seq<PRow>, start: Turn, rs: seq<Response>, out: Outcome,
                     parent: nat, half: bool, again: bool, inserted: nat, driven: bool)

  datatype History = History(rows: seq<Slot>, runs: seq<Run>)

  /** The next row of a run's park is inserted; or the turn is resumed, with the consent and
      caps of that moment, the rows as they stand then, and what the model says. */
  datatype Event =
    | Insert(run: nat)
    | Resume(env: Env, answers: seq<Answer>, rs: seq<Response>)

  function Calls(r: Run): seq<Call> {
    if r.out.ending.Awaiting? then r.out.ending.parked else []
  }

  /** The consent of a run: nothing that a row it read shows as denied. */
  function Consent(env: Env, read: seq<PRow>): Env {
    env.(denied := DeniedPairs(read))
  }

  function RunOf(env: Env, read: seq<PRow>, start: Turn, rs: seq<Response>, parent: nat, half: bool, again: bool): Run {
    Run(env, read, start, rs, Loop(Consent(env, read), start, rs), parent, half, again, 0, false)
  }

  function Opening(env: Env, base: seq<Msg>, rs: seq<Response>): History {
    History([], [RunOf(env, [], Turn(base, 0, 0, 0), rs, 0, false, false)])
  }

  function SnapshotOf(h: History, park: nat): Turn {
    if park < |h.runs| then h.runs[park].out.turn else Turn([], 0, 0, 0)
  }

  /** The first `n` rows. */
  function Table(h: History, answers: seq<Answer>, n: nat): seq<PRow>
    requires n <= |h.rows|
  {
    if n == 0 then []
    else
      var s := h.rows[n - 1];
      Table(h, answers, n - 1) + [PRow(s.call, SnapshotOf(h, s.park), if n - 1 < |answers| then answers[n - 1] else Waits)]
  }

  /** What a resume lists: no more than the limit. */
  function Listed(h: History, answers: seq<Answer>): seq<PRow> {
    Table(h, answers, if |h.rows| <= Approvals.LIST_LIMIT then |h.rows| else Approvals.LIST_LIMIT)
  }

  predicate Blocked(rows: seq<PRow>) {
    exists i :: 0 <= i < |rows| && Blocks(rows[i].answer)
  }

  function FirstAt(rows: seq<PRow>, step: nat): nat {
    if rows == [] then 0
    else
      var n := |rows| - 1;
      var before := FirstAt(rows[..n], step);
      if before < n || rows[n].snapshot.step == step then before else |rows|
  }

  /** The run that parked the batch. */
  function ParentOf(h: History, read: seq<PRow>): nat {
    var i := FirstAt(read, LatestStep(read));
    if i < |h.rows| then h.rows[i].park else 0
  }

  function Resuming(w: Words, h: History, env: Env, read: seq<PRow>, rs: seq<Response>): History
    requires read != []
  {
    var p := ParentOf(h, read);
    if p >= |h.runs| then h
    else
      var r := h.runs[p];
      History(h.rows, h.runs[p := r.(driven := true)]
                      + [RunOf(env, read, Rebuilt(env, w, read), rs, p, r.inserted < |Calls(r)|, r.driven)])
  }

  /** A row of run `p` is inserted. */
  function Inserting(h: History, p: nat): History
    requires p < |h.runs| && h.runs[p].inserted < |Calls(h.runs[p])|
  {
    var r := h.runs[p];
    History(h.rows + [Slot(Calls(r)[r.inserted], p)], h.runs[p := r.(inserted := r.inserted + 1)])
  }

  /** Nothing happens to an unknown turn or to one that still waits. */
  function Next(w: Words, h: History, e: Event): History {
    match e
    case Insert(p) => if p < |h.runs| && h.runs[p].inserted < |Calls(h.runs[p])| then Inserting(h, p) else h
    case Resume(env, answers, rs) =>
      var read := Listed(h, answers);
      if read == [] || Blocked(read) then h else Resuming(w, h, env, read, rs)
  }

  function Lived(w: Words, start: History, es: seq<Event>): History
    decreases |es|
  {
    if es == [] then start else Next(w, Lived(w, start, es[..|es| - 1]), es[|es| - 1])
  }

  // ----- the batch -----------------------------------------------------------------------------------

  lemma {:induction false} BatchLeads(rows: seq<PRow>, step: nat)
    ensures var batch := Batch(rows, step);
            && (batch == [] <==> FirstAt(rows, step) == |rows|) && FirstAt(rows, step) <= |rows|
            && (batch != [] ==> batch[0] == rows[FirstAt(rows, step)] && batch[0].snapshot.step == step)
    decreases |rows|
  {
    if rows != [] { BatchLeads(rows[..|rows| - 1], step); }
  }

  lemma {:induction false} TableTells(h: History, answers: seq<Answer>, n: nat)
    requires n <= |h.rows|
    ensures var t := Table(h, answers, n);
            && |t| == n
            && forall i :: 0 <= i < n ==>
                 && t[i].call == h.rows[i].call && t[i].snapshot == SnapshotOf(h, h.rows[i].park)
                 && t[i].answer == if i < |answers| then answers[i] else Waits
    decreases n
  {
    if n > 0 { TableTells(h, answers, n - 1); }
  }

  // ----- what every history keeps -----------------------------------------------------------------

  predicate Named(c: Call) {
    c.name.Some? && c.args.Some?
  }

  /** The opening run starts from plain messages; every later run from the park of an earlier
      one. */
  ghost predicate RunOk(w: Words, runs: seq<Run>, i: nat)
    requires i < |runs|
  {
    var r := runs[i];
    && r.out == Loop(Consent(r.env, r.read), r.start, r.rs) && Exact(r.start) && r.inserted <= |Calls(r)|
    && (forall j :: 0 <= j < |r.read| ==> Named(r.read[j].call))
    && if i == 0 then Paired(r.start.messages) && r.start.step == 0 && r.start.calls == 0 && r.read == [] && !r.again
       else LinkOk(w, runs, i)
  }

  ghost predicate LinkOk(w: Words, runs: seq<Run>, i: nat)
    requires i < |runs|
  {
    var r := runs[i];
    && r.parent < i && runs[r.parent].out.ending.Awaiting? && runs[r.parent].driven
    && r.read != [] && r.start == Rebuilt(r.env, w, r.read)
    && r.start.step == runs[r.parent].out.turn.step + 1 && r.start.calls == runs[r.parent].out.turn.calls
    && var batch := Batch(r.read, LatestStep(r.read)); batch != [] && batch[0].snapshot == runs[r.parent].out.turn
  }

  ghost predicate SlotOk(h: History, i: nat)
    requires i < |h.rows|
  {
    var s := h.rows[i];
    Named(s.call) && s.park < |h.runs| && h.runs[s.park].out.ending.Awaiting?
  }

  ghost predicate Sound(w: Words, h: History) {
    && h.runs != []
    && (forall i :: 0 <= i < |h.runs| ==> RunOk(w, h.runs, i))
    && (forall i :: 0 <= i < |h.rows| ==> SlotOk(h, i))
  }

  /** A run's counters, as LoopCounts states them. */
  ghost predicate Counts(r: Run) {
    && Exact(r.out.turn) && r.start.step <= r.out.turn.step
    && |r.out.asked| <= MAX_STEPS - r.start.step && r.start.calls <= r.out.turn.calls
    && (r.out.ending.Awaiting? ==>
          && r.out.turn.step < MAX_STEPS && |r.out.asked| == r.out.turn.step - r.start.step + 1
          && Calls(r) != [] && r.start.calls + |Calls(r)| <= r.out.turn.calls
          && forall i :: 0 <= i < |Calls(r)| ==> Named(Calls(r)[i]))
  }

  lemma RunCounts(w: Words, h: History, i: nat)
    requires Sound(w, h) && i < |h.runs|
    ensures Counts(h.runs[i])
  {
    hide Exact, Loop;
    var r := h.runs[i];
    assert RunOk(w, h.runs, i);
    LoopCounts(Consent(r.env, r.read), r.start, r.rs);
  }

  lemma {:induction false} PlainIsPaired(base: seq<Msg>)
    requires forall i :: 0 <= i < |base| ==> base[i].Plain?
    ensures Paired(base) && Exact(Turn(base, 0, 0, 0))
    decreases |base|
  {
    if base != [] { PlainIsPaired(base[..|base| - 1]); }
  }

  lemma OpeningIsSound(w: Words, env: Env, base: seq<Msg>, rs: seq<Response>)
    requires forall i :: 0 <= i < |base| ==> base[i].Plain?
    ensures Sound(w, Opening(env, base, rs))
  {
    hide Loop, Exact, Paired;
    PlainIsPaired(base);
  }

  /** A run record may change what it says about its own park. */
  ghost predicate SameRun(r: Run, r': Run) {
    r' == r.(inserted := r'.inserted, driven := r'.driven) && r'.inserted <= |Calls(r)| && (r.driven ==> r'.driven)
  }

  lemma UpdateKeeps(w: Words, runs: seq<Run>, p: nat, r': Run, i: nat)
    requires p < |runs| && SameRun(runs[p], r') && i < |runs| && RunOk(w, runs, i)
    ensures RunOk(w, runs[p := r'], i)
  {
    hide Loop, Exact, Paired, Rebuilt, Batch, LatestStep, DeniedPairs;
  }

  lemma InsertKeeps(w: Words, h: History, p: nat)
    requires Sound(w, h) && p < |h.runs| && h.runs[p].inserted < |Calls(h.runs[p])|
    ensures Sound(w, Inserting(h, p))
  {
    hide RunOk, Loop, Exact;
    var h' := Inserting(h, p);
    forall i | 0 <= i < |h'.runs| ensures RunOk(w, h'.runs, i) {
      UpdateKeeps(w, h.runs, p, h'.runs[p], i);
    }
    RunCounts(w, h, p);
    forall i | 0 <= i < |h'.rows| ensures SlotOk(h', i) {
      assert i < |h.rows| ==> SlotOk(h, i);
    }
  }

  /** What a resume reads: rows of earlier runs, the batch of one that parked. */
  lemma ListedTells(w: Words, h: History, answers: seq<Answer>)
    requires Sound(w, h) && Listed(h, answers) != []
    ensures var read := Listed(h, answers);
            var batch := Batch(read, LatestStep(read));
            var p := ParentOf(h, read);
            && |read| <= |h.rows| && (forall j :: 0 <= j < |read| ==> Named(read[j].call))
            && p < |h.runs| && h.runs[p].out.ending.Awaiting?
            && batch != [] && batch[0].snapshot == h.runs[p].out.turn && LatestStep(read) == h.runs[p].out.turn.step
  {
    hide RunOk, Batch, LatestStep, FirstAt;
    var read := Listed(h, answers);
    TableTells(h, answers, if |h.rows| <= Approvals.LIST_LIMIT then |h.rows| else Approvals.LIST_LIMIT);
    forall j | 0 <= j < |read| ensures Named(read[j].call) { assert SlotOk(h, j); }
    BatchNonempty(read);
    BatchLeads(read, LatestStep(read));
    assert SlotOk(h, FirstAt(read, LatestStep(read)));
  }

  lemma ResumeKeeps(w: Words, h: History, env: Env, answers: seq<Answer>, rs: seq<Response>)
    requires Sound(w, h) && Listed(h, answers) != []
    ensures Sound(w, Resuming(w, h, env, Listed(h, answers), rs))
  {
    hide Loop, Exact, Paired, Listed, Rebuilt, Batch, LatestStep, DeniedPairs, RunOk, ParentOf;
    var read := Listed(h, answers);
    var p := ParentOf(h, read);
    ListedTells(w, h, answers);
    RunCounts(w, h, p);
    RebuiltFromPark(env, w, read, h.runs[p]);
    var h' := Resuming(w, h, env, read, rs);
    var n := |h.runs|;
    NewRunOk(w, h'.runs);
    forall i | 0 <= i < |h'.runs| ensures RunOk(w, h'.runs, i) {
      if i < n {
        assert RunOk(w, h.runs, i) && RunOk(w, h.runs, p);
        KeepsOlder(w, h.runs, p, h'.runs, i);
      }
    }
    forall i | 0 <= i < |h'.rows| ensures SlotOk(h', i) {
      assert SlotOk(h, i);
    }
  }

  lemma KeepsOlder(w: Words, runs: seq<Run>, p: nat, runs': seq<Run>, i: nat)
    requires p < |runs| && i < |runs| && RunOk(w, runs, i) && RunOk(w, runs, p)
    requires |runs'| == |runs| + 1 && runs'[..|runs|] == runs[p := runs[p].(driven := true)]
    ensures RunOk(w, runs', i)
  {
    hide Loop, Exact, Paired, Rebuilt, Batch, LatestStep, DeniedPairs;
    UpdateKeeps(w, runs, p, runs[p].(driven := true), i);
    assert forall j :: 0 <= j < |runs| ==> runs'[j] == runs'[..|runs|][j];
  }

  lemma RebuiltFromPark(env: Env, w: Words, read: seq<PRow>, r: Run)
    requires read != [] && Counts(r) && r.out.ending.Awaiting?
    requires var batch := Batch(read, LatestStep(read)); batch != [] && batch[0].snapshot == r.out.turn
    ensures var t := Rebuilt(env, w, read); Exact(t) && t.step == r.out.turn.step + 1 && t.calls == r.out.turn.calls
  {
    hide Exact, Batch, LatestStep, AnswerMsgs, ToolText;
    RebuiltIsExact(env, w, read);
  }

  lemma NewRunOk(w: Words, runs: seq<Run>)
    requires |runs| > 1
    requires var r := runs[|runs| - 1];
             && r == RunOf(r.env, r.read, r.start, r.rs, r.parent, r.half, r.again) && Exact(r.start)
             && (forall j :: 0 <= j < |r.read| ==> Named(r.read[j].call))
             && LinkOk(w, runs, |runs| - 1)
    ensures RunOk(w, runs, |runs| - 1)
  {
  }

  lemma {:induction false} EveryHistoryIsSound(w: Words, start: History, es: seq<Event>)
    requires Sound(w, start)
    ensures Sound(w, Lived(w, start, es))
    decreases |es|
  {
    hide Sound, Inserting, Resuming, Listed;
    if es != [] {
      EveryHistoryIsSound(w, start, es[..|es| - 1]);
      NextKeeps(w, Lived(w, start, es[..|es| - 1]), es[|es| - 1]);
    }
  }

  lemma NextKeeps(w: Words, h: History, e: Event)
    requires Sound(w, h)
    ensures Sound(w, Next(w, h, e))
  {
    hide Sound, Inserting, Resuming, Listed;
    match e {
      case Insert(p) => if p < |h.runs| && h.runs[p].inserted < |Calls(h.runs[p])| { InsertKeeps(w, h, p); }
      case Resume(env, answers, rs) => if Listed(h, answers) != [] { ResumeKeeps(w, h, env, answers, rs); }
    }
  }

  // ----- transcript integrity -----------------------------------------------------------------------

  ghost predicate ShowsPaired(r: Run) {
    forall k :: 0 <= k < |r.out.asked| ==> Paired(r.out.asked[k])
  }

  /** The rows of the run's batch are the calls of the park it resumes, each once. */
  ghost predicate Whole(runs: seq<Run>, i: nat)
    requires i < |runs|
  {
    var r := runs[i];
    i == 0 || (r.parent < |runs| && Ids(CallsOf(Batch(r.read, LatestStep(r.read)))) == Ids(Calls(runs[r.parent])))
  }

  /** Exactly the parked calls of the run are open. */
  ghost predicate LeavesParked(r: Run) {
    Open(r.out.turn.messages) == Some(Ids(Calls(r)))
  }

  /** One run: whole from a park that is in order, it shows only paired transcripts and leaves
      its own park in order; otherwise the first transcript it shows is not paired. */
  lemma RunPairs(w: Words, runs: seq<Run>, i: nat)
    requires i < |runs| && RunOk(w, runs, i) && (i > 0 ==> LeavesParked(runs[runs[i].parent]))
    ensures Whole(runs, i) ==> ShowsPaired(runs[i]) && LeavesParked(runs[i])
    ensures !Whole(runs, i) && runs[i].out.asked != [] ==> !Paired(runs[i].out.asked[0])
  {
    hide Open, Ids, Batch, LatestStep, CallsOf, Rebuilt, Loop, Exact;
    var r := runs[i];
    var e := Consent(r.env, r.read);
    if i > 0 {
      RebuiltIsPairedIff(r.env, w, r.read, Calls(runs[r.parent]));
    }
    if Whole(runs, i) {
      LoopKeeps(e, r.start, r.rs);
      IdsNone();
    } else {
      ShowsStartFirst(e, r.start, r.rs);
    }
  }

  lemma {:induction false} WholeRunsPair(w: Words, runs: seq<Run>, n: nat)
    requires n <= |runs| && forall i :: 0 <= i < |runs| ==> RunOk(w, runs, i)
    requires forall i :: 0 <= i < n ==> runs[i].out.asked == [] || Whole(runs, i)
    requires forall i :: 0 <= i < n && runs[i].out.ending.Awaiting? ==> runs[i].out.asked != []
    ensures forall i :: 0 <= i < n ==> ShowsPaired(runs[i]) && (runs[i].out.ending.Awaiting? ==> LeavesParked(runs[i]))
    decreases n
  {
    hide RunOk, ShowsPaired, Whole, LeavesParked;
    if n > 0 {
      WholeRunsPair(w, runs, n - 1);
      ParentParked(w, runs, n - 1);
      if runs[n - 1].out.asked == [] {
        ShowsNothing(runs[n - 1]);
      } else {
        RunPairs(w, runs, n - 1);
      }
    }
  }

  lemma ShowsNothing(r: Run)
    requires r.out.asked == []
    ensures ShowsPaired(r)
  {
  }

  lemma {:induction false} PairedRunsAreWhole(w: Words, runs: seq<Run>, n: nat)
    requires n <= |runs| && forall i :: 0 <= i < |runs| ==> RunOk(w, runs, i) && ShowsPaired(runs[i])
    requires forall i :: 0 <= i < |runs| && runs[i].out.ending.Awaiting? ==> runs[i].out.asked != []
    ensures forall i :: 0 <= i < n ==>
              && (runs[i].out.asked == [] || Whole(runs, i))
              && (runs[i].out.ending.Awaiting? ==> LeavesParked(runs[i]))
    decreases n
  {
    hide RunOk, ShowsPaired, Whole, LeavesParked, Paired;
    if n > 0 {
      PairedRunsAreWhole(w, runs, n - 1);
      ParentParked(w, runs, n - 1);
      if runs[n - 1].out.asked != [] {
        RunPairs(w, runs, n - 1);
        FirstIsPaired(runs[n - 1]);
      }
    }
  }

  lemma ParentParked(w: Words, runs: seq<Run>, i: nat)
    requires i < |runs| && RunOk(w, runs, i)
    ensures i > 0 ==> runs[i].parent < i && runs[runs[i].parent].out.ending.Awaiting?
  {
    hide Loop, Exact, Paired, Rebuilt, Batch, LatestStep;
  }

  lemma FirstIsPaired(r: Run)
    requires ShowsPaired(r) && r.out.asked != []
    ensures Paired(r.out.asked[0])
  {
  }

  /** Transcript integrity, in every history: every transcript the model is shown has the
      results of each message's calls right behind it, id for id, if and only if every resume
      that asked the model found in its batch exactly the rows of the park it resumed. */
  lemma {:induction false} TranscriptIntegrity(w: Words, env: Env, base: seq<Msg>, rs: seq<Response>, es: seq<Event>)
    requires forall j :: 0 <= j < |base| ==> base[j].Plain?
    ensures var runs := Lived(w, Opening(env, base, rs), es).runs;
            (forall i :: 0 <= i < |runs| ==> ShowsPaired(runs[i]))
            <==> (forall i :: 0 <= i < |runs| && runs[i].out.asked != [] ==> Whole(runs, i))
  {
    hide RunOk, ShowsPaired, Whole, Lived, Counts;
    var h := Lived(w, Opening(env, base, rs), es);
    OpeningIsSound(w, env, base, rs);
    EveryHistoryIsSound(w, Opening(env, base, rs), es);
    forall i | 0 <= i < |h.runs| && h.runs[i].out.ending.Awaiting? ensures h.runs[i].out.asked != [] {
      ParkedAsked(w, h, i);
    }
    if forall i :: 0 <= i < |h.runs| && h.runs[i].out.asked != [] ==> Whole(h.runs, i) {
      WholeRunsPair(w, h.runs, |h.runs|);
    }
    if forall i :: 0 <= i < |h.runs| ==> ShowsPaired(h.runs[i]) {
      PairedRunsAreWhole(w, h.runs, |h.runs|);
    }
  }

  lemma ParkedAsked(w: Words, h: History, i: nat)
    requires Sound(w, h) && i < |h.runs| && h.runs[i].out.ending.Awaiting?
    ensures h.runs[i].out.asked != []
  {
    hide Sound, Exact;
    RunCounts(w, h, i);
  }

  // ----- budgets -----------------------------------------------------------------------------------

  function Sum(runs: seq<Run>, f: Run -> nat): nat {
    if runs == [] then 0 else Sum(runs[..|runs| - 1], f) + f(runs[|runs| - 1])
  }

  /** Round trips, tool calls and rows of a run; and whether it resumed a park again. */
  function Shown(r: Run): nat { |r.out.asked| }
  function Spent(r: Run): nat { if r.out.turn.calls >= r.start.calls then r.out.turn.calls - r.start.calls else 0 }
  function Inserted(r: Run): nat { r.inserted }
  function Again(r: Run): nat { if r.again then 1 else 0 }

  /** What the first resume of its park may still spend. */
  function StepsLeft(r: Run): nat {
    if r.out.ending.Awaiting? && !r.driven && r.out.turn.step < MAX_STEPS then MAX_STEPS - 1 - r.out.turn.step else 0
  }

  function CallsLeft(r: Run): nat {
    if r.out.ending.Awaiting? && !r.driven && r.out.turn.calls <= MAX_TOOL_CALLS then MAX_TOOL_CALLS - r.out.turn.calls else 0
  }

  lemma {:induction false} SumUpdate(runs: seq<Run>, p: nat, r: Run, f: Run -> nat)
    requires p < |runs|
    ensures Sum(runs[p := r], f) + f(runs[p]) == Sum(runs, f) + f(r)
    decreases |runs|
  {
    var n := |runs| - 1;
    if p < n {
      assert runs[p := r][..n] == runs[..n][p := r];
      SumUpdate(runs[..n], p, r, f);
    } else {
      assert runs[p := r][..n] == runs[..n];
    }
  }

  lemma SumMore(runs: seq<Run>, r: Run, f: Run -> nat)
    ensures Sum(runs + [r], f) == Sum(runs, f) + f(r)
  {
    assert (runs + [r])[..|runs|] == runs;
  }

  lemma {:induction false} SumLeq(runs: seq<Run>, f: Run -> nat, g: Run -> nat)
    requires forall i :: 0 <= i < |runs| ==> f(runs[i]) <= g(runs[i])
    ensures Sum(runs, f) <= Sum(runs, g)
    decreases |runs|
  {
    if runs != [] { SumLeq(runs[..|runs| - 1], f, g); }
  }

  /** What was spent and what the first resumes may still spend. */
  ghost predicate Within(h: History) {
    && Sum(h.runs, Shown) + Sum(h.runs, StepsLeft) <= MAX_STEPS + 7 * Sum(h.runs, Again)
    && Sum(h.runs, Spent) + Sum(h.runs, CallsLeft) <= MAX_TOOL_CALLS + 7 * Sum(h.runs, Again)
    && |h.rows| == Sum(h.runs, Inserted)
  }

  lemma OpeningIsWithin(w: Words, h: History)
    requires Sound(w, h) && |h.runs| == 1 && h.rows == [] && h.runs[0].inserted == 0
    ensures Within(h)
  {
    hide CallsIn, ToolText, Loop, Sum;
    RunCounts(w, h, 0);
    assert RunOk(w, h.runs, 0);
    SumOne(h.runs, Shown);
    SumOne(h.runs, StepsLeft);
    SumOne(h.runs, Again);
    SumOne(h.runs, Spent);
    SumOne(h.runs, CallsLeft);
    SumOne(h.runs, Inserted);
  }

  lemma SumOne(runs: seq<Run>, f: Run -> nat)
    requires |runs| == 1
    ensures Sum(runs, f) == f(runs[0])
  {
    assert runs[..0] == [];
  }

  lemma InsertWithin(h: History, p: nat)
    requires Within(h) && p < |h.runs| && h.runs[p].inserted < |Calls(h.runs[p])|
    ensures Within(Inserting(h, p))
  {
    hide Sum;
    var r := h.runs[p].(inserted := h.runs[p].inserted + 1);
    SumUpdate(h.runs, p, r, Shown);
    SumUpdate(h.runs, p, r, StepsLeft);
    SumUpdate(h.runs, p, r, Again);
    SumUpdate(h.runs, p, r, Spent);
    SumUpdate(h.runs, p, r, CallsLeft);
    SumUpdate(h.runs, p, r, Inserted);
  }

  /** A run replaces at most what the first resume of its park had left; a park has come at
      least one step and made at least one call, so a further resume adds seven at most. */
  lemma RunSpends(w: Words, h: History, p: nat, r: Run)
    requires p < |h.runs| && Counts(h.runs[p]) && h.runs[p].out.ending.Awaiting? && Counts(r) && !r.driven
    requires r.start.step == h.runs[p].out.turn.step + 1 && r.start.calls == h.runs[p].out.turn.calls
    requires r.again == h.runs[p].driven
    ensures Shown(r) + StepsLeft(r) <= StepsLeft(h.runs[p]) + 7 * Again(r)
    ensures Spent(r) + CallsLeft(r) <= CallsLeft(h.runs[p]) + 7 * Again(r)
  {
  }

  lemma ResumeWithin(w: Words, h: History, env: Env, answers: seq<Answer>, rs: seq<Response>)
    requires Sound(w, h) && Within(h) && Listed(h, answers) != []
    ensures Within(Resuming(w, h, env, Listed(h, answers), rs))
  {
    hide Sum, Sound, Listed, ParentOf, Rebuilt, Batch, LatestStep, Loop, Exact, Counts;
    var read := Listed(h, answers);
    var p := ParentOf(h, read);
    ListedTells(w, h, answers);
    ResumeKeeps(w, h, env, answers, rs);
    var h' := Resuming(w, h, env, read, rs);
    var n := |h.runs|;
    var spent, r := h.runs[p].(driven := true), h'.runs[n];
    RunCounts(w, h, p);
    RunCounts(w, h', n);
    NewLink(w, h');
    RunSpends(w, h, p, r);
    MoreSums(h.runs, p, spent, r, Shown);
    MoreSums(h.runs, p, spent, r, StepsLeft);
    MoreSums(h.runs, p, spent, r, Again);
    MoreSums(h.runs, p, spent, r, Spent);
    MoreSums(h.runs, p, spent, r, CallsLeft);
    MoreSums(h.runs, p, spent, r, Inserted);
  }

  lemma NewLink(w: Words, h: History)
    requires Sound(w, h) && |h.runs| > 1
    ensures var r := h.runs[|h.runs| - 1];
            && r.parent < |h.runs| - 1 && r.start.step == h.runs[r.parent].out.turn.step + 1
            && r.start.calls == h.runs[r.parent].out.turn.calls
  {
    hide Loop, Exact, Rebuilt, Batch, LatestStep;
    assert RunOk(w, h.runs, |h.runs| - 1);
  }

  lemma MoreSums(runs: seq<Run>, p: nat, q: Run, r: Run, f: Run -> nat)
    requires p < |runs|
    ensures Sum(runs[p := q] + [r], f) + f(runs[p]) == Sum(runs, f) + f(q) + f(r)
  {
    SumUpdate(runs, p, q, f);
    SumMore(runs[p := q], r, f);
  }

  lemma {:induction false} EveryHistoryIsWithin(w: Words, start: History, es: seq<Event>)
    requires Sound(w, start) && Within(start)
    ensures Within(Lived(w, start, es))
    decreases |es|
  {
    hide Sound, Within, Inserting, Resuming, Listed;
    if es != [] {
      var h := Lived(w, start, es[..|es| - 1]);
      EveryHistoryIsWithin(w, start, es[..|es| - 1]);
      EveryHistoryIsSound(w, start, es[..|es| - 1]);
      match es[|es| - 1] {
        case Insert(p) => if p < |h.runs| && h.runs[p].inserted < |Calls(h.runs[p])| { InsertWithin(h, p); }
        case Resume(env, answers, rs) => if Listed(h, answers) != [] { ResumeWithin(w, h, env, answers, rs); }
      }
    }
  }

  /** Budgets survive parking.  In every history each run ends with exact counters within the
      budgets; all runs together make at most eight round trips and eight tool calls, and seven
      more for each time a park is resumed again; and no more rows are parked than calls made. */
  lemma {:induction false} BudgetsSurvive(w: Words, env: Env, base: seq<Msg>, rs: seq<Response>, es: seq<Event>)
    requires forall j :: 0 <= j < |base| ==> base[j].Plain?
    ensures var h := Lived(w, Opening(env, base, rs), es);
            && Sum(h.runs, Shown) <= MAX_STEPS + 7 * Sum(h.runs, Again)
            && Sum(h.runs, Spent) <= MAX_TOOL_CALLS + 7 * Sum(h.runs, Again)
            && |h.rows| <= Sum(h.runs, Spent)
            && forall i :: 0 <= i < |h.runs| ==> Exact(h.runs[i].out.turn)
  {
    hide Sound, Lived, Exact, Counts;
    OpeningIsSound(w, env, base, rs);
    OpeningIsWithin(w, Opening(env, base, rs));
    EveryHistoryIsSound(w, Opening(env, base, rs), es);
    EveryHistoryIsWithin(w, Opening(env, base, rs), es);
    var h := Lived(w, Opening(env, base, rs), es);
    forall i | 0 <= i < |h.runs| ensures Exact(h.runs[i].out.turn) && Inserted(h.runs[i]) <= Spent(h.runs[i]) {
      RunSpentItsRows(w, h, i);
    }
    SumLeq(h.runs, Inserted, Spent);
  }

  lemma RunSpentItsRows(w: Words, h: History, i: nat)
    requires Sound(w, h) && i < |h.runs|
    ensures Exact(h.runs[i].out.turn) && Inserted(h.runs[i]) <= Spent(h.runs[i])
  {
    hide Exact, Loop;
    RunCounts(w, h, i);
    assert RunOk(w, h.runs, i);
  }

  /** No run shows the model a transcript whose tool text has reached the budget of that run. */
  lemma {:induction false} ContextBudgetHolds(w: Words, env: Env, base: seq<Msg>, rs: seq<Response>, es: seq<Event>, i: nat, k: nat)
    requires forall j :: 0 <= j < |base| ==> base[j].Plain?
    requires var runs := Lived(w, Opening(env, base, rs), es).runs; i < |runs| && k < |runs[i].out.asked|
    ensures var r := Lived(w, Opening(env, base, rs), es).runs[i]; ToolText(r.out.asked[k]) < r.env.budget
  {
    hide Lived, Exact, Loop, ToolText;
    OpeningIsSound(w, env, base, rs);
    EveryHistoryIsSound(w, Opening(env, base, rs), es);
    var runs := Lived(w, Opening(env, base, rs), es).runs;
    assert RunOk(w, runs, i);
    LoopCounts(Consent(runs[i].env, runs[i].read), runs[i].start, runs[i].rs);
  }

  // ----- histories that resume no park twice -------------------------------------------------------

  ghost predicate NeverAgain(runs: seq<Run>) {
    forall i :: 0 <= i < |runs| ==> !runs[i].again
  }

  /** Each run resumes the one before it. */
  ghost predicate Chained(runs: seq<Run>) {
    forall i :: 0 < i < |runs| ==> runs[i].parent == i - 1
  }

  function RowsOf(rows: seq<Slot>, p: nat): seq<Call> {
    if rows == [] then []
    else RowsOf(rows[..|rows| - 1], p) + if rows[|rows| - 1].park == p then [rows[|rows| - 1].call] else []
  }

  /** The rows of a park are its first calls, in order. */
  ghost predicate Stocked(h: History) {
    forall p :: 0 <= p < |h.runs| ==>
      h.runs[p].inserted <= |Calls(h.runs[p])| && RowsOf(h.rows, p) == Calls(h.runs[p])[..h.runs[p].inserted]
  }

  ghost predicate HalfOrWhole(runs: seq<Run>) {
    forall i :: 0 < i < |runs| ==> (Whole(runs, i) <==> !runs[i].half)
  }

  ghost predicate InLine(h: History) {
    Stocked(h) && (NeverAgain(h.runs) ==> Chained(h.runs) && HalfOrWhole(h.runs))
  }

  lemma {:induction false} IdsCount(calls: seq<Call>)
    ensures |Ids(calls)| == |calls|
    decreases |calls|
  {
    if calls != [] { IdsCount(calls[..|calls| - 1]); }
  }

  lemma PrefixIds(calls: seq<Call>, k: nat)
    requires k <= |calls|
    ensures Ids(calls[..k]) == Ids(calls) <==> k == |calls|
  {
    hide Ids;
    IdsCount(calls);
    IdsCount(calls[..k]);
    assert calls[..|calls|] == calls;
  }

  lemma {:induction false} NoRowsOf(rows: seq<Slot>, p: nat)
    requires forall i :: 0 <= i < |rows| ==> rows[i].park != p
    ensures RowsOf(rows, p) == []
    decreases |rows|
  {
    if rows != [] { NoRowsOf(rows[..|rows| - 1], p); }
  }

  /** The batch, when no other park has its step. */
  lemma {:induction false} BatchIsPark(h: History, answers: seq<Answer>, n: nat, p: nat, step: nat)
    requires n <= |h.rows|
    requires forall i :: 0 <= i < n ==> (SnapshotOf(h, h.rows[i].park).step == step <==> h.rows[i].park == p)
    ensures CallsOf(Batch(Table(h, answers, n), step)) == RowsOf(h.rows[..n], p)
    decreases n
  {
    if n > 0 {
      BatchIsPark(h, answers, n - 1, p, step);
      assert h.rows[..n][..n - 1] == h.rows[..n - 1];
      var before, t := Table(h, answers, n - 1), Table(h, answers, n);
      assert t[..|t| - 1] == before;
      if h.rows[n - 1].park == p {
        LastCall(Batch(before, step), t[|t| - 1]);
      } else {
        assert Batch(before, step) + [] == Batch(before, step);
      }
    }
  }

  lemma LastCall(rows: seq<PRow>, r: PRow)
    ensures CallsOf(rows + [r]) == CallsOf(rows) + [r.call]
  {
    assert (rows + [r])[..|rows|] == rows;
  }

  lemma {:induction false} StepsRise(w: Words, h: History, i: nat, j: nat)
    requires Sound(w, h) && Chained(h.runs) && i < j < |h.runs|
    ensures h.runs[i].out.turn.step < h.runs[j].out.turn.step
    decreases j
  {
    hide Exact, Loop, Rebuilt, Batch, LatestStep;
    RunCounts(w, h, j);
    assert RunOk(w, h.runs, j);
    if i < j - 1 { StepsRise(w, h, i, j - 1); }
  }

  lemma InsertInLine(h: History, p: nat)
    requires InLine(h) && p < |h.runs| && h.runs[p].inserted < |Calls(h.runs[p])|
    ensures InLine(Inserting(h, p))
  {
    hide Whole, Stocked;
    var h' := Inserting(h, p);
    InsertStocks(h, p);
    if NeverAgain(h'.runs) {
      assert forall i :: 0 <= i < |h.runs| ==> h'.runs[i].again == h.runs[i].again;
      assert NeverAgain(h.runs);
      SameHalves(h.runs, h'.runs);
    }
  }

  lemma InsertStocks(h: History, p: nat)
    requires Stocked(h) && p < |h.runs| && h.runs[p].inserted < |Calls(h.runs[p])|
    ensures Stocked(Inserting(h, p))
  {
    var h' := Inserting(h, p);
    assert h'.rows[..|h'.rows| - 1] == h.rows;
    forall q | 0 <= q < |h'.runs| ensures RowsOf(h'.rows, q) == Calls(h'.runs[q])[..h'.runs[q].inserted] {
      assert RowsOf(h.rows, q) == Calls(h.runs[q])[..h.runs[q].inserted];
    }
  }

  /** More rows, a resumed park, more runs: the older runs are what they were. */
  lemma SameHalves(runs: seq<Run>, runs': seq<Run>)
    requires |runs| <= |runs'| && Chained(runs) && HalfOrWhole(runs)
    requires forall j :: 0 <= j < |runs| ==> runs'[j] == runs[j].(inserted := runs'[j].inserted, driven := runs'[j].driven)
    ensures forall i :: 0 < i < |runs| ==> runs'[i].parent == i - 1 && (Whole(runs', i) <==> !runs'[i].half)
  {
    hide Ids, CallsOf, Batch, LatestStep;
    forall i | 0 < i < |runs| ensures Whole(runs', i) == Whole(runs, i) {
      assert runs'[i].parent == runs[i].parent == i - 1 && runs'[i].read == runs[i].read;
      assert Calls(runs'[i - 1]) == Calls(runs[i - 1]);
    }
  }

  lemma FewRows(w: Words, h: History)
    requires Sound(w, h) && Within(h) && NeverAgain(h.runs)
    ensures |h.rows| <= MAX_TOOL_CALLS
  {
    hide Sound, Exact, Counts;
    forall i | 0 <= i < |h.runs| ensures Inserted(h.runs[i]) <= Spent(h.runs[i]) {
      RunSpentItsRows(w, h, i);
    }
    SumLeq(h.runs, Inserted, Spent);
    NoneAgain(h.runs);
  }

  lemma {:induction false} NoneAgain(runs: seq<Run>)
    requires NeverAgain(runs)
    ensures Sum(runs, Again) == 0
    decreases |runs|
  {
    if runs != [] { NoneAgain(runs[..|runs| - 1]); }
  }

  /** A resume in line reads the rows of the last run's park, as far as they are inserted. */
  lemma ReadsLastPark(w: Words, h: History, answers: seq<Answer>)
    requires Sound(w, h) && Within(h) && Stocked(h) && NeverAgain(h.runs) && Chained(h.runs) && Listed(h, answers) != []
    requires var p := ParentOf(h, Listed(h, answers)); p < |h.runs| && !h.runs[p].driven
    ensures var read, p := Listed(h, answers), |h.runs| - 1;
            && ParentOf(h, read) == p
            && CallsOf(Batch(read, LatestStep(read))) == Calls(h.runs[p])[..h.runs[p].inserted]
  {
    hide Batch, LatestStep, CallsOf, FirstAt, Within, Sum, Table, ParentOf;
    var read := Listed(h, answers);
    var p := ParentOf(h, read);
    ListedTells(w, h, answers);
    FewRows(w, h);
    LastIsFree(w, h, p);
    var step := h.runs[p].out.turn.step;
    forall i | 0 <= i < |h.rows| ensures SnapshotOf(h, h.rows[i].park).step == step <==> h.rows[i].park == p {
      assert SlotOk(h, i);
      if h.rows[i].park < p { StepsRise(w, h, h.rows[i].park, p); }
    }
    BatchIsPark(h, answers, |h.rows|, p, step);
    assert h.rows[..|h.rows|] == h.rows;
  }

  lemma {:induction false} LatestAbove(rows: seq<PRow>, i: nat)
    requires i < |rows|
    ensures LatestStep(rows) >= rows[i].snapshot.step
    decreases |rows|
  {
    if i < |rows| - 1 { LatestAbove(rows[..|rows| - 1], i); }
  }

  /** Once the last run has a row in the table, a resume in line resumes its park. */
  lemma ParentIsLast(w: Words, h: History, answers: seq<Answer>)
    requires Sound(w, h) && Within(h) && Stocked(h) && NeverAgain(h.runs) && Chained(h.runs) && Listed(h, answers) != []
    requires |h.runs| > 1 ==> h.runs[|h.runs| - 1].inserted > 0
    ensures ParentOf(h, Listed(h, answers)) == |h.runs| - 1
  {
    hide Batch, LatestStep, FirstAt, Within, Sum, Table, ParentOf, RunOk, RowsOf;
    var read, n := Listed(h, answers), |h.runs| - 1;
    var p := ParentOf(h, read);
    ListedTells(w, h, answers);
    FewRows(w, h);
    if p < n {
      assert RowsOf(h.rows, n) != [];
      if forall i :: 0 <= i < |h.rows| ==> h.rows[i].park != n { NoRowsOf(h.rows, n); }
      var i: nat :| i < |h.rows| && h.rows[i].park == n;
      TableTells(h, answers, |h.rows|);
      LatestAbove(read, i);
      StepsRise(w, h, p, n);
      assert false;
    }
  }

  lemma LastIsFree(w: Words, h: History, p: nat)
    requires Sound(w, h) && Chained(h.runs) && p < |h.runs| && !h.runs[p].driven
    ensures p == |h.runs| - 1
  {
    hide Loop, Exact, Rebuilt, Batch, LatestStep;
    assert p < |h.runs| - 1 ==> RunOk(w, h.runs, p + 1);
  }

  lemma ResumeInLine(w: Words, h: History, env: Env, answers: seq<Answer>, rs: seq<Response>)
    requires Sound(w, h) && Within(h) && InLine(h) && Listed(h, answers) != []
    ensures InLine(Resuming(w, h, env, Listed(h, answers), rs))
  {
    hide Sound, Within, Listed, ParentOf, Resuming, Whole, Stocked, RowsOf, CallsOf, Batch, LatestStep;
    var read := Listed(h, answers);
    var p, n := ParentOf(h, read), |h.runs|;
    ListedTells(w, h, answers);
    var h' := Resuming(w, h, env, read, rs);
    ResumingTells(w, h, env, read, rs);
    NewParkIsEmpty(w, h);
    StockedOn(h, h');
    if NeverAgain(h'.runs) {
      StillNever(h.runs, h'.runs);
      ReadsLastPark(w, h, answers);
      ResumeHalf(w, h, env, answers, rs);
      SameHalves(h.runs, h'.runs);
    }
  }

  lemma ResumingTells(w: Words, h: History, env: Env, read: seq<PRow>, rs: seq<Response>)
    requires read != [] && ParentOf(h, read) < |h.runs|
    ensures var h', n, p := Resuming(w, h, env, read, rs), |h.runs|, ParentOf(h, read);
            && h'.rows == h.rows && |h'.runs| == n + 1
            && (forall i :: 0 <= i < n ==> h'.runs[i] == h.runs[i].(driven := h'.runs[i].driven))
            && h'.runs[n].inserted == 0 && h'.runs[n].again == h.runs[p].driven && h'.runs[n].parent == p
            && !h'.runs[n].driven && h'.runs[n].half == (h.runs[p].inserted < |Calls(h.runs[p])|)
  {
    hide ParentOf, Rebuilt, Loop;
  }

  lemma StillNever(runs: seq<Run>, runs': seq<Run>)
    requires |runs'| == |runs| + 1 && forall i :: 0 <= i < |runs| ==> runs'[i] == runs[i].(driven := runs'[i].driven)
    requires NeverAgain(runs')
    ensures NeverAgain(runs) && !runs'[|runs|].again
  {
    assert forall i :: 0 <= i < |runs| ==> runs'[i].again == runs[i].again;
  }

  lemma ResumeHalf(w: Words, h: History, env: Env, answers: seq<Answer>, rs: seq<Response>)
    requires Stocked(h) && Listed(h, answers) != []
    requires var read, p := Listed(h, answers), |h.runs| - 1;
             && p >= 0 && ParentOf(h, read) == p
             && CallsOf(Batch(read, LatestStep(read))) == Calls(h.runs[p])[..h.runs[p].inserted]
    ensures var runs := Resuming(w, h, env, Listed(h, answers), rs).runs;
            |runs| == |h.runs| + 1 && (Whole(runs, |h.runs|) <==> !runs[|h.runs|].half)
  {
    hide CallsOf, Batch, LatestStep, Listed, ParentOf, Rebuilt, Loop, Ids;
    NewHalf(Resuming(w, h, env, Listed(h, answers), rs), h.runs[|h.runs| - 1].inserted);
  }

  lemma StockedOn(h: History, h': History)
    requires Stocked(h) && h'.rows == h.rows && |h'.runs| == |h.runs| + 1
    requires forall i :: 0 <= i < |h.runs| ==> h'.runs[i] == h.runs[i].(driven := h'.runs[i].driven)
    requires h'.runs[|h.runs|].inserted == 0 && RowsOf(h.rows, |h.runs|) == []
    ensures Stocked(h')
  {
    hide RowsOf;
  }

  lemma NewParkIsEmpty(w: Words, h: History)
    requires Sound(w, h)
    ensures RowsOf(h.rows, |h.runs|) == []
  {
    hide RunOk;
    forall i | 0 <= i < |h.rows| ensures h.rows[i].park != |h.runs| { assert SlotOk(h, i); }
    NoRowsOf(h.rows, |h.runs|);
  }

  lemma NewHalf(h: History, k: nat)
    requires |h.runs| > 1
    requires var r := h.runs[|h.runs| - 1];
             && r.parent < |h.runs| - 1
             && var parked := Calls(h.runs[r.parent]);
             && k <= |parked| && CallsOf(Batch(r.read, LatestStep(r.read))) == parked[..k] && r.half == (k < |parked|)
    ensures Whole(h.runs, |h.runs| - 1) <==> !h.runs[|h.runs| - 1].half
  {
    hide Ids, CallsOf, Batch, LatestStep;
    PrefixIds(Calls(h.runs[h.runs[|h.runs| - 1].parent]), k);
  }

  lemma {:induction false} EveryHistoryIsInLine(w: Words, start: History, es: seq<Event>)
    requires Sound(w, start) && Within(start) && InLine(start)
    ensures InLine(Lived(w, start, es))
    decreases |es|
  {
    hide Sound, Within, InLine, Inserting, Resuming, Listed;
    if es != [] {
      var h := Lived(w, start, es[..|es| - 1]);
      EveryHistoryIsInLine(w, start, es[..|es| - 1]);
      EveryHistoryIsSound(w, start, es[..|es| - 1]);
      EveryHistoryIsWithin(w, start, es[..|es| - 1]);
      match es[|es| - 1] {
        case Insert(p) => if p < |h.runs| && h.runs[p].inserted < |Calls(h.runs[p])| { InsertInLine(h, p); }
        case Resume(env, answers, rs) => if Listed(h, answers) != [] { ResumeInLine(w, h, env, answers, rs); }
      }
    }
  }

  /** When no park is resumed twice, every transcript shown is paired if and only if no resume
      that asked the model came while the rows of its park were still being inserted. */
  lemma {:induction false} HalfParkedIff(w: Words, env: Env, base: seq<Msg>, rs: seq<Response>, es: seq<Event>)
    requires forall j :: 0 <= j < |base| ==> base[j].Plain?
    requires NeverAgain(Lived(w, Opening(env, base, rs), es).runs)
    ensures var runs := Lived(w, Opening(env, base, rs), es).runs;
            (forall i :: 0 <= i < |runs| ==> ShowsPaired(runs[i]))
            <==> (forall i :: 0 < i < |runs| && runs[i].out.asked != [] ==> !runs[i].half)
  {
    hide Sound, Within, Lived, Whole, ShowsPaired;
    var start := Opening(env, base, rs);
    OpeningIsSound(w, env, base, rs);
    OpeningIsWithin(w, start);
    assert InLine(start) by { NoRowsOf([], 0); }
    EveryHistoryIsInLine(w, start, es);
    TranscriptIntegrity(w, env, base, rs, es);
    FirstIsWhole(Lived(w, start, es).runs);
  }

  lemma FirstIsWhole(runs: seq<Run>)
    ensures runs != [] ==> Whole(runs, 0)
  {
  }

  // ----- denials ---------------------------------------------------------------------------------------

  /** No run parks a call that a row it read shows as denied. */
  lemma {:induction false} DeniedNeverParksAgain(w: Words, env: Env, base: seq<Msg>, rs: seq<Response>, es: seq<Event>, i: nat, j: nat, k: nat)
    requires forall l :: 0 <= l < |base| ==> base[l].Plain?
    requires var runs := Lived(w, Opening(env, base, rs), es).runs;
             i < |runs| && j < |runs[i].read| && runs[i].read[j].answer.Refused? && k < |Calls(runs[i])|
    ensures var r := Lived(w, Opening(env, base, rs), es).runs[i];
            Calls(r)[k].name != r.read[j].call.name || Calls(r)[k].args != r.read[j].call.args
  {
    hide Lived, Exact, Loop, Parks, DeniedPairs;
    OpeningIsSound(w, env, base, rs);
    EveryHistoryIsSound(w, Opening(env, base, rs), es);
    var r := Lived(w, Opening(env, base, rs), es).runs[i];
    assert RunOk(w, Lived(w, Opening(env, base, rs), es).runs, i);
    LoopCounts(Consent(r.env, r.read), r.start, r.rs);
    if Calls(r)[k].name == r.read[j].call.name && Calls(r)[k].args == r.read[j].call.args {
      DeniedOnceDeniedAlways(r.env, r.read, j, Calls(r)[k]);
    }
  }

  lemma {:induction false} NothingDenied(rows: seq<PRow>)
    requires forall j :: 0 <= j < |rows| ==> !rows[j].answer.Refused?
    ensures DeniedPairs(rows) == {}
    decreases |rows|
  {
    if rows != [] { NothingDenied(rows[..|rows| - 1]); }
  }

  /** When the failing assertion ends a run: exactly when a row it read was denied and the
      model, while that run asks it, calls something without a name but with readable
      arguments, within the call budget. */
  lemma {:induction false} RunTripsIff(w: Words, env: Env, base: seq<Msg>, rs: seq<Response>, es: seq<Event>, i: nat)
    requires forall l :: 0 <= l < |base| ==> base[l].Plain?
    requires i < |Lived(w, Opening(env, base, rs), es).runs|
    ensures var r := Lived(w, Opening(env, base, rs), es).runs[i];
            r.out.ending.Tripped? <==>
              && (exists j :: 0 <= j < |r.read| && r.read[j].answer.Refused?)
              && ReachesNameless(Consent(r.env, r.read), r.start, r.rs)
  {
    hide Lived, Exact, Loop, DeniedPairs, ReachesNameless;
    OpeningIsSound(w, env, base, rs);
    EveryHistoryIsSound(w, Opening(env, base, rs), es);
    var r := Lived(w, Opening(env, base, rs), es).runs[i];
    assert RunOk(w, Lived(w, Opening(env, base, rs), es).runs, i);
    TripsIff(Consent(r.env, r.read), r.start, r.rs);
    if j :| 0 <= j < |r.read| && r.read[j].answer.Refused? {
      DeniedKept(r.read, j);
    } else {
      NothingDenied(r.read);
    }
  }

  // ----- histories that end badly -----------------------------------------------------------------

  /** One-letter tools ask for consent, all others are unknown; results come to nothing. */
  const Asking: Env := Env((name: string) => if |name| == 1 then Some(Reviewed) else None, (_, _) => true, (_, _) => true,
                           (_, _) => false, {}, _ => "", 0, 1)
  const Silent := Words("", "")
  const Write := Call(Some("1"), Some("w"), Some(""))
  const Stray := Call(Some("2"), None, None)

  lemma WriteParks()
    ensures Parks(Asking, Write) && !Trips(Asking, Write)
  {
  }

  /** A turn whose first answer is `calls` writes parks them all at step 0. */
  lemma ParksAtOnce(calls: seq<Call>)
    requires 1 <= |calls| <= 2 && forall i :: 0 <= i < |calls| ==> calls[i] == Write
    ensures var o := Opening(Asking, [], [Wants("", calls, [])]).runs[0].out;
            && o.ending == Awaiting(calls) && o.asked == [[]]
            && o.turn == Turn([Asks("", calls)], 0, |calls|, 0)
  {
    hide Parks, Trips;
    WriteParks();
    assert Asking.(denied := {}) == Asking;
    ParksAll(calls, |calls|);
    NoText();
    assert [] + [Asks("", calls)] + [] == [Asks("", calls)];
    assert !AnyTrips(Asking, calls);
  }

  lemma {:induction false} ParksAll(calls: seq<Call>, n: nat)
    requires n <= |calls| && forall i :: 0 <= i < |calls| ==> calls[i] == Write
    ensures Parked(Asking, calls, n) == calls[..n] && InlineResults(Asking, calls, [], n) == []
    decreases n
  {
    hide Parks;
    WriteParks();
    if n > 0 {
      ParksAll(calls, n - 1);
    }
  }

  /** The one row in the table, and how it ended. */
  function OneRow(calls: seq<Call>, a: Answer): seq<PRow> {
    [PRow(Write, Turn([Asks("", calls)], 0, |calls|, 0), a)]
  }

  lemma NothingSaid(t: Turn, a: Answer)
    ensures AnswerMsg(Asking, Silent, PRow(Write, t, a)) == Result(Some("1"), "")
  {
  }

  lemma OneRowRebuilt(calls: seq<Call>, a: Answer)
    requires calls != []
    ensures Rebuilt(Asking, Silent, OneRow(calls, a)) == Turn([Asks("", calls), Result(Some("1"), "")], 1, |calls|, 0)
    ensures Batch(OneRow(calls, a), 0) == OneRow(calls, a) && LatestStep(OneRow(calls, a)) == 0 && FirstAt(OneRow(calls, a), 0) == 0
  {
    var rows := OneRow(calls, a);
    assert rows[..0] == [];
    NothingSaid(rows[0].snapshot, a);
    assert AnswerMsgs(Asking, Silent, rows) == [Result(Some("1"), "")];
    var ms := [Asks("", calls)];
    assert ms + [Result(Some("1"), "")] == [Asks("", calls), Result(Some("1"), "")];
    OneMore(ms, Result(Some("1"), ""));
    OneResult(Asks("", calls));
    assert ToolText([Asks("", calls), Result(Some("1"), "")]) == 0;
    assert Batch(rows, LatestStep(rows)) == rows;
  }

  function Opened(calls: seq<Call>): History {
    Opening(Asking, [], [Wants("", calls, [])])
  }

  /** The table after the first row of the opening run's park. */
  ghost predicate OneInserted(h: History, calls: seq<Call>) {
    h.rows == [Slot(Write, 0)] && h.runs != [] && h.runs[0].inserted == 1
    && h.runs[0].out == Opened(calls).runs[0].out
  }

  lemma InsertOne(calls: seq<Call>)
    requires 1 <= |calls| <= 2 && forall i :: 0 <= i < |calls| ==> calls[i] == Write
    ensures var h := Lived(Silent, Opened(calls), [Insert(0)]);
            OneInserted(h, calls) && h.runs == [Opened(calls).runs[0].(inserted := 1)]
  {
    hide Loop;
    ParksAtOnce(calls);
    assert [Insert(0)][..0] == [];
    assert Lived(Silent, Opened(calls), []) == Opened(calls);
  }

  lemma ListsOne(h: History, calls: seq<Call>, a: Answer)
    requires 1 <= |calls| <= 2 && forall i :: 0 <= i < |calls| ==> calls[i] == Write
    requires OneInserted(h, calls) && !Blocks(a)
    ensures Listed(h, [a]) == OneRow(calls, a) && !Blocked(OneRow(calls, a)) && ParentOf(h, OneRow(calls, a)) == 0
  {
    hide Loop, Batch, LatestStep, FirstAt;
    ParksAtOnce(calls);
    OneRowRebuilt(calls, a);
    assert Table(h, [a], 0) == [];
  }

  /** Resuming it appends a run that starts with the one result. */
  lemma ResumeOne(h: History, calls: seq<Call>, a: Answer, rs: seq<Response>)
    requires 1 <= |calls| <= 2 && forall i :: 0 <= i < |calls| ==> calls[i] == Write
    requires OneInserted(h, calls) && !Blocks(a)
    ensures var t := Turn([Asks("", calls), Result(Some("1"), "")], 1, |calls|, 0);
            var r := RunOf(Asking, OneRow(calls, a), t, rs, 0, 1 < |calls|, h.runs[0].driven);
            var h' := Next(Silent, h, Resume(Asking, [a], rs));
            h'.rows == h.rows && h'.runs == h.runs[0 := h.runs[0].(driven := true)] + [r] && OneInserted(h', calls)
  {
    hide Loop, Rebuilt, Listed, ParentOf, Blocked;
    ListsOne(h, calls, a);
    OneRowRebuilt(calls, a);
    ParksAtOnce(calls);
  }

  /** Two calls are parked, one row is in the table and denied, and the turn is resumed: the
      model is shown two calls and one result. */
  lemma {:induction false} HalfParkedResume()
    ensures exists es ::
              var runs := Lived(Silent, Opening(Asking, [], [Wants("", [Write, Write], [])]), es).runs;
              NeverAgain(runs) && |runs| == 2 && runs[1].half && !ShowsPaired(runs[1])
  {
    hide Next, Loop, ShowsPaired;
    var calls := [Write, Write];
    var e1, e2 := Insert(0), Resume(Asking, [Refused], []);
    InsertOne(calls);
    ResumeOne(Lived(Silent, Opened(calls), [e1]), calls, Refused, []);
    assert [e1, e2][..1] == [e1];
    var runs := Lived(Silent, Opened(calls), [e1, e2]).runs;
    assert |runs| == 2 && runs[1].half && runs[1].out.asked != [] by { AsksOnce(calls); }
    HalfParkedIff(Silent, Asking, [], [Wants("", calls, [])], [e1, e2]);
    assert ShowsPaired(runs[0]) by { NothingYet(calls, runs[0]); }
  }

  lemma AsksOnce(calls: seq<Call>)
    ensures var t := Turn([Asks("", calls), Result(Some("1"), "")], 1, |calls|, 0);
            Loop(Consent(Asking, OneRow(calls, Refused)), t, []).asked != []
  {
  }

  lemma NothingYet(calls: seq<Call>, r: Run)
    requires 1 <= |calls| <= 2 && forall i :: 0 <= i < |calls| ==> calls[i] == Write
    requires r.out == Opened(calls).runs[0].out
    ensures ShowsPaired(r)
  {
    hide Loop;
    ParksAtOnce(calls);
  }

  /** The turn at the first resume of a park of one write, and once it has parked that write
      again. */
  const Resumed1 := Turn([Asks("", [Write]), Result(Some("1"), "")], 1, 1, 0)
  const Parked1 := Turn([Asks("", [Write]), Result(Some("1"), ""), Asks("", [Write])], 1, 2, 0)
  const WriteAgain := [Wants("", [Write], [])]

  lemma ParksAgain()
    ensures Loop(Consent(Asking, OneRow([Write], Ran(""))), Resumed1, WriteAgain)
            == Outcome(Parked1, Awaiting([Write]), [Resumed1.messages])
  {
    hide Parks, Trips;
    WriteParks();
    NothingDenied(OneRow([Write], Ran("")));
    assert Consent(Asking, OneRow([Write], Ran(""))) == Asking;
    ParksAll([Write], 1);
    NoText();
    assert [Write][..1] == [Write];
    assert Resumed1.messages + [Asks("", [Write])] + [] == Parked1.messages;
    assert !AnyTrips(Asking, [Write]);
  }

  function AgainRun(again: bool): Run {
    RunOf(Asking, OneRow([Write], Ran("")), Resumed1, WriteAgain, 0, false, again)
  }

  /** A park of one write was resumed twice, and both runs parked the write again. */
  lemma ResumedTwice() returns (es: seq<Event>, h: History)
    ensures Lived(Silent, Opened([Write]), es) == h
    ensures h == History([Slot(Write, 0)],
                         [Opened([Write]).runs[0].(inserted := 1, driven := true), AgainRun(false), AgainRun(true)])
  {
    hide Next, Loop, RunOf, Lived;
    InsertOne([Write]);
    var h0 := Lived(Silent, Opened([Write]), [Insert(0)]);
    var e := Resume(Asking, [Ran("")], WriteAgain);
    assert !h0.runs[0].driven by { OpenedUndriven(); }
    ResumeOne(h0, [Write], Ran(""), WriteAgain);
    var h1 := Next(Silent, h0, e);
    assert h1.runs == [h0.runs[0].(driven := true), AgainRun(false)];
    ResumeOne(h1, [Write], Ran(""), WriteAgain);
    es := [Insert(0)] + [e] + [e];
    LivedMore([Insert(0)], e);
    LivedMore([Insert(0)] + [e], e);
    h := Lived(Silent, Opened([Write]), es);
    assert h1.runs[0 := h1.runs[0].(driven := true)] == h1.runs;
    assert h.runs == h1.runs + [AgainRun(true)];
  }

  lemma OpenedUndriven()
    ensures !Opened([Write]).runs[0].driven
  {
    hide Loop;
  }

  lemma InsertNext(es: seq<Event>, h: History, p: nat) returns (es': seq<Event>, h': History)
    requires Lived(Silent, Opened([Write]), es) == h && p < |h.runs| && h.runs[p].inserted < |Calls(h.runs[p])|
    ensures Lived(Silent, Opened([Write]), es') == h' == Inserting(h, p)
  {
    es' := es + [Insert(p)];
    assert es'[..|es|] == es;
    h' := Inserting(h, p);
  }

  /** Both parks are in the table: two rows of one step. */
  lemma MixedTable() returns (es: seq<Event>, h: History)
    ensures Lived(Silent, Opened([Write]), es) == h
    ensures h == History([Slot(Write, 0), Slot(Write, 1), Slot(Write, 2)],
                         [Opened([Write]).runs[0].(inserted := 1, driven := true), AgainRun(false).(inserted := 1),
                          AgainRun(true).(inserted := 1)])
  {
    hide Next, Loop, Lived;
    es, h := ResumedTwice();
    ParksAgain();
    es, h := InsertNext(es, h, 1);
    assert h.rows == [Slot(Write, 0), Slot(Write, 1)];
    es, h := InsertNext(es, h, 2);
    assert h.rows == [Slot(Write, 0), Slot(Write, 1), Slot(Write, 2)];
  }

  const MixedRead := [PRow(Write, Turn([Asks("", [Write])], 0, 1, 0), Ran("")), PRow(Write, Parked1, Ran("")), PRow(Write, Parked1, Ran(""))]

  /** One more row. */
  lemma BatchMore(rows: seq<PRow>, r: PRow, step: nat)
    ensures Batch(rows + [r], step) == Batch(rows, step) + if r.snapshot.step == step then [r] else []
    ensures LatestStep(rows + [r]) == if r.snapshot.step > LatestStep(rows) then r.snapshot.step else LatestStep(rows)
    ensures CallsOf(rows + [r]) == CallsOf(rows) + [r.call]
    ensures var before := FirstAt(rows, step);
            FirstAt(rows + [r], step) == if before < |rows| || r.snapshot.step == step then before else |rows| + 1
  {
    assert (rows + [r])[..|rows|] == rows;
  }

  /** The rows of the two parks are one batch. */
  lemma MixedBatch()
    ensures LatestStep(MixedRead) == 1 && FirstAt(MixedRead, 1) == 1
    ensures Batch(MixedRead, 1) == [PRow(Write, Parked1, Ran("")), PRow(Write, Parked1, Ran(""))]
    ensures CallsOf(Batch(MixedRead, 1)) == [Write, Write] && !Blocked(MixedRead)
  {
    assert !Blocked(MixedRead);
    var r0, r := MixedRead[0], MixedRead[1];
    assert MixedRead == [] + [r0] + [r] + [r];
    assert Batch([], 1) == [] && LatestStep([]) == 0 && FirstAt([], 1) == 0 && CallsOf([]) == [];
    hide Batch, LatestStep, FirstAt, CallsOf;
    BatchMore([], r0, 1);
    BatchMore([] + [r0], r, 1);
    BatchMore([] + [r0] + [r], r, 1);
    BatchMore([], r, 1);
    BatchMore([] + [r], r, 1);
    assert Batch(MixedRead, 1) == [] + [r] + [r];
    assert [] + [r] + [r] == [r, r] && [Write] + [Write] == [Write, Write];
  }

  lemma MixedListed(h: History)
    requires h.rows == [Slot(Write, 0), Slot(Write, 1), Slot(Write, 2)] && |h.runs| == 3
    requires h.runs[0].out == Opened([Write]).runs[0].out && h.runs[1].out.turn == h.runs[2].out.turn == Parked1
    ensures Listed(h, [Ran(""), Ran(""), Ran("")]) == MixedRead
  {
    hide Loop;
    ParksAtOnce([Write]);
    var answers := [Ran(""), Ran(""), Ran("")];
    assert Table(h, answers, 0) == [];
    assert Table(h, answers, 1) == MixedRead[..1];
    assert Table(h, answers, 2) == MixedRead[..2];
  }

  /** A park resumed twice can fill one batch with the rows of two parks: the model is shown
      two results for one call, though no park was half inserted. */
  lemma {:induction false} MixedBatchResume()
    ensures exists es ::
              var runs := Lived(Silent, Opening(Asking, [], [Wants("", [Write], [])]), es).runs;
              && (forall i :: 0 <= i < |runs| ==> !runs[i].half) && Sum(runs, Again) == 1
              && exists i :: 0 <= i < |runs| && !ShowsPaired(runs[i])
  {
    hide Next, Loop, Lived, Sum, ShowsPaired, Whole;
    var es, h := MixedTable();
    var e := Resume(Asking, [Ran(""), Ran(""), Ran("")], []);
    var es' := es + [e];
    var h' := MixedResume(h, e);
    assert Lived(Silent, Opened([Write]), es') == h' by { LivedMore(es, e); }
    TranscriptIntegrity(Silent, Asking, [], WriteAgain, es');
    assert exists i :: 0 <= i < |h'.runs| && !ShowsPaired(h'.runs[i]);
  }

  lemma LivedMore(es: seq<Event>, e: Event)
    ensures Lived(Silent, Opened([Write]), es + [e]) == Next(Silent, Lived(Silent, Opened([Write]), es), e)
  {
    assert (es + [e])[..|es|] == es;
  }

  lemma MixedResume(h: History, e: Event) returns (h': History)
    requires e == Resume(Asking, [Ran(""), Ran(""), Ran("")], [])
    requires h == History([Slot(Write, 0), Slot(Write, 1), Slot(Write, 2)],
                          [Opened([Write]).runs[0].(inserted := 1, driven := true), AgainRun(false).(inserted := 1),
                           AgainRun(true).(inserted := 1)])
    ensures h' == Next(Silent, h, e) && |h'.runs| == 4 && (forall i :: 0 <= i < 4 ==> !h'.runs[i].half)
    ensures Sum(h'.runs, Again) == 1 && h'.runs[3].out.asked != [] && !Whole(h'.runs, 3)
  {
    hide Loop, Listed, Batch, LatestStep, FirstAt, CallsOf, Rebuilt, Blocked, Sum;
    ParksAgain();
    MixedListed(h);
    MixedBatch();
    h' := Next(Silent, h, e);
    assert ParentOf(h, MixedRead) == 1;
    var r := h'.runs[3];
    assert h'.runs == h.runs[1 := h.runs[1].(driven := true)] + [r];
    assert r == RunOf(Asking, MixedRead, Rebuilt(Asking, Silent, MixedRead), [], 1, false, false);
    MixedAsks();
    AgainOnce(h'.runs);
    IdsCount([Write, Write]);
    IdsCount([Write]);
  }

  lemma AgainOnce(runs: seq<Run>)
    requires |runs| == 4 && !runs[0].again && !runs[1].again && runs[2].again && !runs[3].again
    ensures Sum(runs, Again) == 1
  {
    SumOne([runs[0]], Again);
    SumMore([runs[0]], runs[1], Again);
    SumMore([runs[0]] + [runs[1]], runs[2], Again);
    SumMore([runs[0]] + [runs[1]] + [runs[2]], runs[3], Again);
    assert runs == [runs[0]] + [runs[1]] + [runs[2]] + [runs[3]];
  }

  lemma MixedAsks()
    ensures Loop(Consent(Asking, MixedRead), Rebuilt(Asking, Silent, MixedRead), []).asked != []
  {
    hide Batch, LatestStep, FirstAt, CallsOf, AnswerMsg, ToolText, DeniedPairs;
    MixedBatch();
    var row := PRow(Write, Parked1, Ran(""));
    NothingSaid(Parked1, Ran(""));
    var m := Result(Some("1"), "");
    assert [row, row][..1] == [row] && [row][..0] == [];
    assert AnswerMsgs(Asking, Silent, [row]) == [m];
    assert AnswerMsgs(Asking, Silent, [row, row]) == [m, m];
    ToolTextSum(Parked1.messages, [m, m]);
    MixedText();
    assert Rebuilt(Asking, Silent, MixedRead).gathered == 0;
  }

  lemma MixedText()
    ensures var m := Result(Some("1"), ""); ToolText([m, m]) == 0 && ToolText(Parked1.messages) == 0
  {
    var m := Result(Some("1"), "");
    var a := Asks("", [Write]);
    OneResult(m);
    OneMore([m], m);
    OneResult(a);
    OneMore([a], m);
    OneMore([a] + [m], a);
    assert [m] + [m] == [m, m] && [a] + [m] + [a] == Parked1.messages;
  }

  const Nobody := Call(Some("2"), None, Some(""))

  /** After a denial, one call without a name ends the turn in a failed assertion. */
  lemma {:induction false} NamelessCallTrips()
    ensures exists es ::
              var runs := Lived(Silent, Opening(Asking, [], [Wants("", [Write], [])]), es).runs;
              |runs| == 2 && runs[1].out.ending.Tripped?
  {
    hide Next, Loop;
    var e1, e2 := Insert(0), Resume(Asking, [Refused], [Wants("", [Nobody], [])]);
    InsertOne([Write]);
    ResumeOne(Lived(Silent, Opened([Write]), [e1]), [Write], Refused, e2.rs);
    assert [e1, e2][..1] == [e1];
    var runs := Lived(Silent, Opened([Write]), [e1, e2]).runs;
    var r := runs[1];
    DeniedKept(r.read, 0);
    assert Nameless(e2.rs[0].calls[0]);
    assert Reaches(Consent(r.env, r.read), r.start, r.rs, 0).Some?;
    TripsIff(Consent(r.env, r.read), r.start, r.rs);
  }

  // ----- the bounds are attained ---------------------------------------------------------------------

  function Strays(n: nat): seq<Response> {
    if n == 0 then [] else [Wants("", [Stray], [])] + Strays(n - 1)
  }

  /** A model that goes on calling an unknown tool spends every step and call that is left. */
  lemma {:induction false} StraysSpend(t: Turn, n: nat)
    requires t.step + n == MAX_STEPS && t.calls + n <= MAX_TOOL_CALLS && t.gathered == 0
    ensures var o := Loop(Consent(Asking, OneRow([Write], Refused)), t, Strays(n)); |o.asked| == n && o.turn.calls == t.calls + n && !o.ending.Awaiting?
    decreases n
  {
    hide TakeIn, Parked, AnyTrips, DeniedPairs, OneRow;
    var env := Consent(Asking, OneRow([Write], Refused));
    if n > 0 {
      StrayIsInline(env);
      StrayTaken(env, t);
      var t' := TakeIn(env, t, "", [Stray], []);
      assert Strays(n)[1..] == Strays(n - 1);
      StraysSpend(t'.(step := t.step + 1), n - 1);
    }
  }

  lemma StrayTaken(env: Env, t: Turn)
    requires env == Consent(Asking, OneRow([Write], Refused)) && t.gathered == 0
    ensures var t' := TakeIn(env, t, "", [Stray], []); t'.calls == t.calls + 1 && t'.gathered == 0
  {
    hide InlineResults, ToolText, DeniedPairs, OneRow;
    StrayIsInline(env);
  }

  lemma StrayIsInline(env: Env)
    requires env == Consent(Asking, OneRow([Write], Refused))
    ensures Parked(env, [Stray], 1) == [] && !AnyTrips(env, [Stray])
    ensures ToolText(InlineResults(env, [Stray], [], 1)) == 0
  {
    assert Parked(env, [Stray], 0) == [] && InlineResults(env, [Stray], [], 0) == [];
    var m := InlineResult(env, Stray, "");
    assert InlineResults(env, [Stray], [], 1) == [m];
    OneResult(m);
  }

  /** The park of one write was resumed `n` times. */
  ghost predicate Repeated(h: History, n: nat) {
    && OneInserted(h, [Write]) && h.runs[0].driven == (n > 0)
    && Sum(h.runs, Shown) == 1 + 7 * n && Sum(h.runs, Spent) == 1 + 7 * n
    && Sum(h.runs, Again) == if n == 0 then 0 else n - 1
  }

  lemma {:induction false} ResumedOften(n: nat) returns (es: seq<Event>)
    ensures Repeated(Lived(Silent, Opened([Write]), es), n)
    decreases n
  {
    hide Next, Loop, Sum, RunOf;
    if n == 0 {
      es := [Insert(0)];
      InsertOne([Write]);
      OpensRepeated(Lived(Silent, Opened([Write]), es));
    } else {
      var before := ResumedOften(n - 1);
      var e := Resume(Asking, [Refused], Strays(7));
      es := before + [e];
      assert es[..|es| - 1] == before;
      RepeatsOnce(Lived(Silent, Opened([Write]), before), n - 1);
    }
  }

  lemma OpensRepeated(h: History)
    requires h.runs == [Opened([Write]).runs[0].(inserted := 1)] && OneInserted(h, [Write])
    ensures Repeated(h, 0)
  {
    hide Loop, Sum;
    ParksAtOnce([Write]);
    SumOne(h.runs, Shown);
    SumOne(h.runs, Spent);
    SumOne(h.runs, Again);
  }

  lemma RepeatsOnce(h: History, n: nat)
    requires Repeated(h, n)
    ensures Repeated(Next(Silent, h, Resume(Asking, [Refused], Strays(7))), n + 1)
  {
    hide Loop, Sum, Next, Strays;
    ResumeOne(h, [Write], Refused, Strays(7));
    var t := Turn([Asks("", [Write]), Result(Some("1"), "")], 1, 1, 0);
    StraysSpend(t, 7);
    var r := RunOf(Asking, OneRow([Write], Refused), t, Strays(7), 0, false, h.runs[0].driven);
    var first := h.runs[0].(driven := true);
    MoreSums(h.runs, 0, first, r, Shown);
    MoreSums(h.runs, 0, first, r, Spent);
    MoreSums(h.runs, 0, first, r, Again);
  }

  /** Each further resume of a park can cost the full seven round trips and calls: the bounds
      of BudgetsSurvive are attained for every number of them. */
  lemma {:induction false} BoundsAttained(n: nat)
    ensures exists es ::
              var runs := Lived(Silent, Opening(Asking, [], [Wants("", [Write], [])]), es).runs;
              && Sum(runs, Again) == n
              && Sum(runs, Shown) == MAX_STEPS + 7 * n && Sum(runs, Spent) == MAX_TOOL_CALLS + 7 * n
  {
    hide Lived, Sum;
    var es := ResumedOften(n + 1);
    assert Repeated(Lived(Silent, Opened([Write]), es), n + 1);
  }
}

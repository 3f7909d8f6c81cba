/** What a turn tells the model (app/smartbrain_3000/agent.py: _classify, _execute_inline,
    _run_turn_loop, resume_turn): which call runs, waits or is refused, what each result says,
    how a run ends, and what a resumed turn says about each row. */
module TurnContent {
  import opened Prelude
  import opened AgentTurn
  import opened TurnHistory

  // ----- the fate of a call -----------------------------------------------------------------------

  /** A call of a known tool with readable arguments. */
  predicate Readable(env: Env, c: Call) {
    c.name.Some? && c.args.Some? && env.tier(c.name.value).Some?
  }

  /** The whole decision table. */
  ghost predicate Fated(env: Env, c: Call, parks: bool, inline: Inline) {
    if c.name.None? || env.tier(c.name.value).None? || c.args.None? then !parks && inline == CannotRun
    else
      var name, args, tier := c.name.value, c.args.value, env.tier(c.name.value).value;
      var checked := env.valid(name, args) && env.prevalid(name, args);
      if (name, args) in env.denied then !parks && inline == DeniedAgain
      else if tier.Observe? then !parks && inline == Runs
      else if tier.Reviewed? && env.remembered(name, args) then !parks && inline == Runs
      else (parks <==> checked) && inline == BadArguments
  }

  lemma CallFate(env: Env, c: Call)
    ensures Fated(env, c, Parks(env, c), InlineOf(env, c))
  {
    if Readable(env, c) {
      match env.tier(c.name.value).value {
        case Observe =>
        case Reviewed =>
        case Irreversible =>
      }
    }
  }

  // ----- the results of a step -------------------------------------------------------------------

  /** The text, cut at `cap` characters. */
  ghost predicate Clipped(s: string, text: string, cap: nat) {
    s <= text && |s| == if |text| <= cap then |text| else cap
  }

  /** What the model reads of a call that does not wait: what the call returned if it ran, and
      the reason why it did not run otherwise. */
  ghost predicate InlineTold(env: Env, c: Call, out: string, m: Msg) {
    exists why :: InlineToldAs(env, c, out, m, why)
  }

  ghost predicate InlineToldAs(env: Env, c: Call, out: string, m: Msg, why: Inline) {
    m.Result? && m.id == c.id && Fated(env, c, Parks(env, c), why)
    && Clipped(m.content, if why == Runs then out else env.say(why), env.cap)
  }

  lemma InlineTells(env: Env, c: Call, out: string)
    ensures InlineTold(env, c, out, InlineResult(env, c, out))
  {
    hide Parks, InlineOf, Fated;
    CallFate(env, c);
    assert InlineToldAs(env, c, out, InlineResult(env, c, out), InlineOf(env, c));
  }

  ghost predicate IsInline(env: Env, calls: seq<Call>, n: nat, i: nat) {
    i < n && i < |calls| && !Parks(env, calls[i])
  }

  ghost predicate Waiting(env: Env, calls: seq<Call>, n: nat, i: nat) {
    i < n && i < |calls| && Parks(env, calls[i])
  }

  /** The results are those of the calls that do not wait, in order. */
  ghost predicate ResultsOf(env: Env, calls: seq<Call>, outs: seq<string>, n: nat, results: seq<Msg>, picks: seq<nat>) {
    && Rising(picks) && (forall i: nat :: i in picks <==> IsInline(env, calls, n, i)) && |results| == |picks|
    && forall k :: 0 <= k < |picks| ==> picks[k] < |calls| && InlineTold(env, calls[picks[k]], Out(outs, picks[k]), results[k])
  }

  /** The calls that wait, in order. */
  ghost predicate WaitsOf(env: Env, calls: seq<Call>, n: nat, parked: seq<Call>, picks: seq<nat>) {
    && Rising(picks) && (forall i: nat :: i in picks <==> Waiting(env, calls, n, i)) && |parked| == |picks|
    && forall k :: 0 <= k < |picks| ==> picks[k] < |calls| && parked[k] == calls[picks[k]]
  }

  lemma {:induction false} ResultsTell(env: Env, calls: seq<Call>, outs: seq<string>, n: nat) returns (picks: seq<nat>)
    requires n <= |calls|
    ensures ResultsOf(env, calls, outs, n, InlineResults(env, calls, outs, n), picks)
    decreases n
  {
    hide Parks, InlineResult, InlineTold;
    if n == 0 {
      picks := [];
    } else {
      var before := ResultsTell(env, calls, outs, n - 1);
      if Parks(env, calls[n - 1]) {
        picks := before;
        assert InlineResults(env, calls, outs, n) == InlineResults(env, calls, outs, n - 1);
      } else {
        InlineTells(env, calls[n - 1], Out(outs, n - 1));
        RisingMore(before, n - 1);
        picks := before + [n - 1];
        forall i: nat ensures i in picks <==> IsInline(env, calls, n, i) {
          assert i in before <==> IsInline(env, calls, n - 1, i);
        }
      }
    }
  }

  lemma {:induction false} WaitsTell(env: Env, calls: seq<Call>, n: nat) returns (picks: seq<nat>)
    requires n <= |calls|
    ensures WaitsOf(env, calls, n, Parked(env, calls, n), picks)
    decreases n
  {
    hide Parks;
    if n == 0 {
      picks := [];
    } else {
      var before := WaitsTell(env, calls, n - 1);
      if Parks(env, calls[n - 1]) {
        RisingMore(before, n - 1);
        picks := before + [n - 1];
      } else {
        picks := before;
        assert Parked(env, calls, n) == Parked(env, calls, n - 1);
      }
    }
  }

  /** A step takes the calls of an answer in: the asking message, then the results. */
  ghost predicate Taken(env: Env, t: Turn, r: Response, t': Turn, parked: seq<Call>, picks: seq<nat>, waits: seq<nat>)
    requires r.Wants?
  {
    var n := |t.messages|;
    && n < |t'.messages| && t'.messages[..n] == t.messages && t'.messages[n] == Asks(r.text, r.calls)
    && ResultsOf(env, r.calls, r.outs, |r.calls|, t'.messages[n + 1..], picks)
    && WaitsOf(env, r.calls, |r.calls|, parked, waits)
    && t'.step == t.step && t'.calls == t.calls + |r.calls|
    && t'.gathered == t.gathered + ToolText(t'.messages[n + 1..])
  }

  ghost predicate TakesIn(env: Env, t: Turn, r: Response, t': Turn, parked: seq<Call>)
    requires r.Wants?
  {
    exists picks, waits :: Taken(env, t, r, t', parked, picks, waits)
  }

  lemma StepTells(env: Env, t: Turn, r: Response)
    requires r.Wants?
    ensures TakesIn(env, t, r, TakeIn(env, t, r.text, r.calls, r.outs), Parked(env, r.calls, |r.calls|))
  {
    hide ResultsOf, WaitsOf, InlineResults, Parked, ToolText;
    var picks := ResultsTell(env, r.calls, r.outs, |r.calls|);
    var waits := WaitsTell(env, r.calls, |r.calls|);
    var t' := TakeIn(env, t, r.text, r.calls, r.outs);
    assert t'.messages[|t.messages| + 1..] == InlineResults(env, r.calls, r.outs, |r.calls|);
    assert Taken(env, t, r, t', Parked(env, r.calls, |r.calls|), picks, waits);
  }

  // ----- how a run goes ------------------------------------------------------------------------------

  ghost predicate Spent(env: Env, t: Turn) {
    t.step >= MAX_STEPS || t.gathered >= env.budget
  }

  function ReplyAt(rs: seq<Response>, k: nat): Response {
    if k < |rs| then rs[k] else Garbled
  }

  /** The answer holds calls that the budget allows and the key assertion lets pass. */
  ghost predicate Acts(env: Env, t: Turn, r: Response) {
    && r.Wants? && r.calls != [] && t.calls + |r.calls| <= MAX_TOOL_CALLS
    && forall i :: 0 <= i < |r.calls| ==> !(env.denied != {} && Nameless(r.calls[i]))
  }

  /** The run goes on: nothing of the step waits. */
  ghost predicate GoesOn(env: Env, t: Turn, r: Response, t': Turn) {
    !Spent(env, t) && Acts(env, t, r) && t'.step == t.step + 1 && TakesIn(env, t, r, t'.(step := t.step), [])
  }

  /** The run ends: each ending has its condition. */
  ghost predicate EndsAs(env: Env, t: Turn, r: Response, o: Outcome) {
    if Spent(env, t) then o.ending == Exhausted && o.turn == t
    else if Acts(env, t, r) then
      o.ending.Awaiting? && o.ending.parked != [] && TakesIn(env, t, r, o.turn, o.ending.parked)
    else
      && o.turn == t
      && (o.ending.Degraded? <==> r == Fails(true) && t.calls == 0)
      && (o.ending.Raised? <==> r == Garbled || r == Fails(false) || (r == Fails(true) && t.calls > 0))
      && (o.ending.Complete? <==> r.Says? || (r.Wants? && r.calls == []))
      && (o.ending.Exhausted? <==> r.Wants? && t.calls + |r.calls| > MAX_TOOL_CALLS && r.calls != [])
      && (o.ending.Tripped? <==> r.Wants? && r.calls != [] && t.calls + |r.calls| <= MAX_TOOL_CALLS)
  }

  /** The turns a run passes through: one per transcript the model is shown, and one more when
      the budget is spent before it would be asked again. */
  ghost predicate Passes(env: Env, t: Turn, rs: seq<Response>, o: Outcome, ts: seq<Turn>) {
    && ts != [] && ts[0] == t
    && (forall k :: 0 <= k < |ts| - 1 ==> GoesOn(env, ts[k], ReplyAt(rs, k), ts[k + 1]))
    && EndsAs(env, ts[|ts| - 1], ReplyAt(rs, |ts| - 1), o)
    && |o.asked| == (if Spent(env, ts[|ts| - 1]) then |ts| - 1 else |ts|)
    && forall k :: 0 <= k < |o.asked| ==> o.asked[k] == ts[k].messages
  }

  lemma ActsUnlessTripping(env: Env, t: Turn, r: Response)
    requires r.Wants? && r.calls != [] && t.calls + |r.calls| <= MAX_TOOL_CALLS
    ensures Acts(env, t, r) <==> !AnyTrips(env, r.calls)
  {
    assert forall i :: 0 <= i < |r.calls| ==> (Trips(env, r.calls[i]) <==> env.denied != {} && Nameless(r.calls[i]));
  }

  lemma PassesMore(env: Env, t: Turn, rs: seq<Response>, t': Turn, o: Outcome, rest: Outcome, ts: seq<Turn>)
    requires rs != [] && GoesOn(env, t, rs[0], t') && Passes(env, t', rs[1..], rest, ts)
    requires o == rest.(asked := [t.messages] + rest.asked)
    ensures Passes(env, t, rs, o, [t] + ts)
  {
    hide GoesOn, Spent, EndsAs;
    var all := [t] + ts;
    assert all[|all| - 1] == ts[|ts| - 1];
    assert ReplyAt(rs, |all| - 1) == ReplyAt(rs[1..], |ts| - 1);
    SameEnd(env, ts[|ts| - 1], ReplyAt(rs, |all| - 1), rest, o);
    forall k | 0 <= k < |all| - 1 ensures GoesOn(env, all[k], ReplyAt(rs, k), all[k + 1]) {
      if k > 0 {
        assert all[k] == ts[k - 1] && all[k + 1] == ts[k] && ReplyAt(rs, k) == ReplyAt(rs[1..], k - 1);
      }
    }
  }

  lemma SameEnd(env: Env, t: Turn, r: Response, o: Outcome, o': Outcome)
    requires EndsAs(env, t, r, o) && o'.turn == o.turn && o'.ending == o.ending
    ensures EndsAs(env, t, r, o')
  {
    hide Acts, TakesIn, Spent;
  }

  /** Every run, step by step: what each transcript adds to the one before, and why the run
      ended as it did. */
  lemma {:induction false} LoopTells(env: Env, t: Turn, rs: seq<Response>) returns (ts: seq<Turn>)
    ensures Passes(env, t, rs, Loop(env, t, rs), ts)
    decreases MAX_STEPS - t.step
  {
    hide TakeIn, Parked, AnyTrips, TakesIn, Acts, Passes;
    ts := [t];
    var o := Loop(env, t, rs);
    var r := ReplyAt(rs, 0);
    assert r == if rs == [] then Garbled else rs[0];
    if !Spent(env, t) && r.Wants? && r.calls != [] && t.calls + |r.calls| <= MAX_TOOL_CALLS {
      ActsUnlessTripping(env, t, r);
      if Acts(env, t, r) {
        StepTells(env, t, r);
        var next := TakeIn(env, t, r.text, r.calls, r.outs);
        TakenKeepsStep(env, t, r);
        if Parked(env, r.calls, |r.calls|) == [] {
          var t' := next.(step := t.step + 1);
          assert t'.(step := t.step) == next;
          var later := LoopTells(env, t', rs[1..]);
          PassesMore(env, t, rs, t', o, Loop(env, t', rs[1..]), later);
          ts := [t] + later;
          return;
        }
      }
    } else if !Spent(env, t) {
      NotActing(env, t, r);
    }
    PassesOnce(env, t, rs, o);
  }

  lemma TakenKeepsStep(env: Env, t: Turn, r: Response)
    requires r.Wants?
    ensures TakeIn(env, t, r.text, r.calls, r.outs).step == t.step
  {
    hide InlineResults;
  }

  lemma NotActing(env: Env, t: Turn, r: Response)
    requires !(r.Wants? && r.calls != [] && t.calls + |r.calls| <= MAX_TOOL_CALLS)
    ensures !Acts(env, t, r)
  {
  }

  lemma PassesOnce(env: Env, t: Turn, rs: seq<Response>, o: Outcome)
    requires EndsAs(env, t, ReplyAt(rs, 0), o) && o.asked == if Spent(env, t) then [] else [t.messages]
    ensures Passes(env, t, rs, o, [t])
  {
    hide EndsAs, Spent, GoesOn;
  }

  /** Every transcript continues the ones before it. */
  lemma {:induction false} OnlyAppends(env: Env, t: Turn, rs: seq<Response>, o: Outcome, ts: seq<Turn>, k: nat)
    requires Passes(env, t, rs, o, ts) && k < |o.asked|
    ensures t.messages <= o.asked[k]
    decreases k
  {
    if k > 0 {
      OnlyAppends(env, t, rs, o, ts, k - 1);
      assert GoesOn(env, ts[k - 1], ReplyAt(rs, k - 1), ts[k - 1 + 1]);
    }
  }

  // ----- what a resume says of each row ------------------------------------------------------------

  /** The row belongs to the last park. */
  ghost predicate Newest(rows: seq<PRow>, i: nat) {
    i < |rows| && forall j :: 0 <= j < |rows| ==> rows[j].snapshot.step <= rows[i].snapshot.step
  }

  /** What the model reads about a row: the stored result if it ran, that its outcome is unknown
      if it was interrupted, and that it was denied otherwise. */
  ghost predicate RowTold(w: Words, cap: nat, r: PRow, m: Msg) {
    && m.Result? && m.id == r.call.id
    && (r.answer.Ran? ==> Clipped(m.content, r.answer.text, cap))
    && (r.answer.Interrupted? ==> Clipped(m.content, w.interrupted, cap))
    && (r.answer.Refused? || r.answer.Lapsed? ==> Clipped(m.content, w.refused, cap))
  }

  /** The transcript is the parked one, and one result per row of the last park, in order. */
  ghost predicate RowsTold(w: Words, cap: nat, rows: seq<PRow>, ms: seq<Msg>, picks: seq<nat>) {
    && picks != [] && Rising(picks) && (forall i: nat :: i in picks <==> Newest(rows, i))
    && (forall k :: 0 <= k < |picks| ==> picks[k] < |rows|)
    && var parked := rows[picks[0]].snapshot.messages;
       && |ms| == |parked| + |picks| && ms[..|parked|] == parked
       && forall k :: 0 <= k < |picks| ==> RowTold(w, cap, rows[picks[k]], ms[|parked| + k])
  }

  lemma {:induction false} LatestIsGreatest(rows: seq<PRow>)
    ensures forall i :: 0 <= i < |rows| ==> rows[i].snapshot.step <= LatestStep(rows)
    ensures rows != [] ==> exists i :: 0 <= i < |rows| && rows[i].snapshot.step == LatestStep(rows)
    decreases |rows|
  {
    if rows != [] {
      var n := |rows| - 1;
      LatestIsGreatest(rows[..n]);
      if n > 0 {
        var i :| 0 <= i < n && rows[..n][i].snapshot.step == LatestStep(rows[..n]);
        assert rows[i].snapshot.step == LatestStep(rows) || rows[n].snapshot.step == LatestStep(rows);
      } else {
        assert rows[0].snapshot.step == LatestStep(rows);
      }
    }
  }

  ghost predicate AtStep(rows: seq<PRow>, step: nat, i: nat) {
    i < |rows| && rows[i].snapshot.step == step
  }

  lemma {:induction false} BatchPicks(rows: seq<PRow>, step: nat) returns (picks: seq<nat>)
    ensures Rising(picks) && |picks| == |Batch(rows, step)|
    ensures forall i: nat :: i in picks <==> AtStep(rows, step, i)
    ensures forall k :: 0 <= k < |picks| ==> picks[k] < |rows| && Batch(rows, step)[k] == rows[picks[k]]
    decreases |rows|
  {
    if rows == [] {
      picks := [];
    } else {
      var n := |rows| - 1;
      var before := BatchPicks(rows[..n], step);
      assert forall i: nat :: AtStep(rows, step, i) <==> AtStep(rows[..n], step, i) || (i == n && rows[n].snapshot.step == step);
      picks := before;
      if rows[n].snapshot.step == step {
        RisingMore(before, n);
        picks := before + [n];
      }
    }
  }

  lemma {:induction false} AnswersTell(env: Env, w: Words, rows: seq<PRow>)
    ensures |AnswerMsgs(env, w, rows)| == |rows|
    ensures forall k :: 0 <= k < |rows| ==> RowTold(w, env.cap, rows[k], AnswerMsgs(env, w, rows)[k])
    decreases |rows|
  {
    if rows != [] {
      var n := |rows| - 1;
      AnswersTell(env, w, rows[..n]);
      assert RowTold(w, env.cap, rows[n], AnswerMsg(env, w, rows[n]));
    }
  }

  /** The turn a resume starts from. */
  lemma RebuiltTells(env: Env, w: Words, rows: seq<PRow>) returns (picks: seq<nat>)
    requires rows != []
    ensures RowsTold(w, env.cap, rows, Rebuilt(env, w, rows).messages, picks)
    ensures var first := rows[picks[0]].snapshot; Rebuilt(env, w, rows).step == first.step + 1 && Rebuilt(env, w, rows).calls == first.calls
  {
    hide AnswerMsgs, Batch, LatestStep, RowTold, ToolText;
    BatchNonempty(rows);
    LatestIsGreatest(rows);
    var batch := Batch(rows, LatestStep(rows));
    picks := BatchPicks(rows, LatestStep(rows));
    AnswersTell(env, w, batch);
    forall i: nat ensures AtStep(rows, LatestStep(rows), i) <==> Newest(rows, i) {
    }
  }

  lemma {:induction false} DeniedExactly(rows: seq<PRow>, pair: (string, string))
    ensures pair in DeniedPairs(rows) <==>
            exists i :: 0 <= i < |rows| && rows[i].answer.Refused? && rows[i].call.name == Some(pair.0) && rows[i].call.args == Some(pair.1)
    decreases |rows|
  {
    if rows != [] {
      var n := |rows| - 1;
      DeniedExactly(rows[..n], pair);
      assert rows == rows[..n] + [rows[n]];
    }
  }

  /** What a resume shows the model: first the parked transcript with one result per row of the
      last park, which says what became of that row; and in every later transcript the same in
      front. */
  lemma {:induction false} ResumeTells(env: Env, w: Words, rows: seq<PRow>, rs: seq<Response>) returns (picks: seq<nat>)
    requires rows != []
    ensures var o := Resumed(env, w, rows, rs);
            && (o.asked != [] ==> RowsTold(w, env.cap, rows, o.asked[0], picks))
            && forall k :: 0 <= k < |o.asked| ==> o.asked[0] <= o.asked[k]
  {
    hide RowsTold, Loop, Rebuilt, Passes, DeniedPairs;
    picks := RebuiltTells(env, w, rows);
    var env', t := env.(denied := DeniedPairs(rows)), Rebuilt(env, w, rows);
    var ts := LoopTells(env', t, rs);
    PassesFirst(env', t, rs, Loop(env', t, rs), ts);
    forall k | 0 <= k < |Loop(env', t, rs).asked| ensures t.messages <= Loop(env', t, rs).asked[k] {
      OnlyAppends(env', t, rs, Loop(env', t, rs), ts, k);
    }
  }

  lemma PassesFirst(env: Env, t: Turn, rs: seq<Response>, o: Outcome, ts: seq<Turn>)
    requires Passes(env, t, rs, o, ts)
    ensures o.asked != [] ==> o.asked[0] == t.messages
  {
    hide GoesOn, EndsAs, Spent;
  }

  /** In every history of a turn: each resumed run that asks the model shows it first the
      transcript of the run that parked, and what became of each row of that park. */
  lemma {:induction false} EveryResumeTells(w: Words, env: Env, base: seq<Msg>, rs: seq<Response>, es: seq<Event>, i: nat)
    returns (picks: seq<nat>)
    requires forall j :: 0 <= j < |base| ==> base[j].Plain?
    requires 0 < i < |Lived(w, Opening(env, base, rs), es).runs|
    ensures var runs := Lived(w, Opening(env, base, rs), es).runs;
            var r := runs[i];
            && r.parent < i && runs[r.parent].out.ending.Awaiting?
            && (r.out.asked != [] ==>
                  && RowsTold(w, r.env.cap, r.read, r.out.asked[0], picks)
                  && runs[r.parent].out.turn.messages == r.read[picks[0]].snapshot.messages
                  && runs[r.parent].out.turn.messages <= r.out.asked[0])
  {
    hide Lived, Exact, Loop, Rebuilt, RowTold, DeniedPairs;
    OpeningIsSound(w, env, base, rs);
    EveryHistoryIsSound(w, Opening(env, base, rs), es);
    var runs := Lived(w, Opening(env, base, rs), es).runs;
    var r := runs[i];
    assert RunOk(w, runs, i);
    picks := RebuiltTells(r.env, w, r.read);
    ShowsStartFirst(Consent(r.env, r.read), r.start, r.rs);
    FirstOfBatch(r.read, picks);
  }

  lemma FirstOfBatch(rows: seq<PRow>, picks: seq<nat>)
    requires picks != [] && Rising(picks) && (forall i: nat :: i in picks <==> Newest(rows, i))
    requires Batch(rows, LatestStep(rows)) != []
    ensures picks[0] < |rows| && Batch(rows, LatestStep(rows))[0] == rows[picks[0]]
  {
    hide Batch, LatestStep;
    LatestIsGreatest(rows);
    var others := BatchPicks(rows, LatestStep(rows));
    assert picks[0] in picks && others[0] in others;
    assert Newest(rows, others[0]);
    assert others[0] in picks && picks[0] in others;
  }
}

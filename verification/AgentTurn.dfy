/** The agent's tool loop (app/smartbrain_3000/agent.py: _classify, _execute_inline,
    _run_turn_loop, resume_turn): what the model is shown over any number of parks, and what
    a turn may spend. */
module AgentTurn {
  import opened Prelude

  // ----- calls, tools and consent ------------------------------------------------------------------

  type Id = Option<string>

  datatype Tier = Observe | Reviewed | Irreversible

  /** A tool call as parsed: an absent name is the empty name, absent args are bad JSON. */
  datatype Call = Call(id: Id, name: Option<string>, args: Option<string>)

  /** The tool registry and the remembered consent of one run; `denied` holds the (name, args)
      pairs refused earlier in the turn; `say` is the error text for a call that is not run;
      `cap` bounds a result, `budget` all results. */
  datatype Env = Env(tier: string -> Option<Tier>, valid: (string, string) -> bool,
                     prevalid: (string, string) -> bool, remembered: (string, string) -> bool,
                     denied: set<(string, string)>, say: Inline -> string, cap: nat, budget: nat)

  function TierOf(env: Env, c: Call): Option<Tier> {
    if c.name.Some? then env.tier(c.name.value) else None
  }

  predicate Denied(env: Env, c: Call) {
    c.name.Some? && c.args.Some? && (c.name.value, c.args.value) in env.denied
  }

  predicate Remembered(env: Env, c: Call) {
    TierOf(env, c) == Some(Reviewed) && env.remembered(c.name.value, if c.args.Some? then c.args.value else "")
  }

  /** Building the key of a nameless call fails an assertion, and a key is built whenever
      there are args and something was denied. */
  predicate Trips(env: Env, c: Call) {
    c.name.None? && c.args.Some? && env.denied != {}
  }

  /** `_classify`: the call waits for the user. */
  predicate Parks(env: Env, c: Call) {
    && (TierOf(env, c) == Some(Reviewed) || TierOf(env, c) == Some(Irreversible))
    && !Remembered(env, c) && !Denied(env, c) && c.args.Some?
    && env.valid(c.name.value, c.args.value) && env.prevalid(c.name.value, c.args.value)
  }

  datatype Inline = DeniedAgain | CannotRun | BadArguments | Runs

  /** `_execute_inline`: what becomes of a call that does not wait. */
  function InlineOf(env: Env, c: Call): Inline {
    if TierOf(env, c).Some? && Denied(env, c) then DeniedAgain
    else if c.args.None? || TierOf(env, c).None? then CannotRun
    else if TierOf(env, c) != Some(Observe) && !Remembered(env, c) then BadArguments
    else Runs
  }

  /** What a turn does with a call: nothing irreversible runs without a park, nothing refused
      runs or parks again in the turn, a write runs only with remembered consent, and a call
      is told that its arguments are bad only if they are. */
  lemma Chokepoint(env: Env, c: Call)
    ensures TierOf(env, c) == Some(Irreversible) ==> !InlineOf(env, c).Runs?
    ensures Denied(env, c) ==> !Parks(env, c) && !InlineOf(env, c).Runs?
    ensures InlineOf(env, c).Runs? ==> TierOf(env, c) == Some(Observe) || Remembered(env, c)
    ensures Parks(env, c) ==> c.args.Some? && env.valid(c.name.value, c.args.value) && !Denied(env, c)
    ensures !Parks(env, c) && InlineOf(env, c).BadArguments? ==>
              !env.valid(c.name.value, c.args.value) || !env.prevalid(c.name.value, c.args.value)
  {
    var tier := TierOf(env, c);
    if tier.Some? {
      match tier.value {
        case Observe =>
        case Reviewed =>
        case Irreversible =>
      }
    }
  }

  // ----- transcripts ---------------------------------------------------------------------------------

  datatype Msg =
    | Plain(content: string)
    | Asks(content: string, calls: seq<Call>)
    | Result(id: Id, content: string)

  function Ids(calls: seq<Call>): multiset<Id> {
    if calls == [] then multiset{} else Ids(calls[..|calls| - 1]) + multiset{calls[|calls| - 1].id}
  }

  /** Reading a transcript: the ids still waiting for their result, None when a message comes
      out of turn. */
  function Open(ms: seq<Msg>): Option<multiset<Id>> {
    if ms == [] then Some(multiset{}) else Read(Open(ms[..|ms| - 1]), ms[|ms| - 1])
  }

  function Read(open: Option<multiset<Id>>, m: Msg): Option<multiset<Id>> {
    if open.None? then None
    else
      match m
      case Plain(_) => if open.value == multiset{} then open else None
      case Asks(_, calls) => if open.value == multiset{} then Some(Ids(calls)) else None
      case Result(id, _) => if id in open.value then Some(open.value - multiset{id}) else None
  }

  /** Every tool call has its result right behind the message that made it. */
  predicate Paired(ms: seq<Msg>) {
    Open(ms) == Some(multiset{})
  }

  function CallsIn(ms: seq<Msg>): nat {
    if ms == [] then 0
    else CallsIn(ms[..|ms| - 1]) + if ms[|ms| - 1].Asks? then |ms[|ms| - 1].calls| else 0
  }

  /** The length of all tool results. */
  function ToolText(ms: seq<Msg>): nat {
    if ms == [] then 0
    else ToolText(ms[..|ms| - 1]) + if ms[|ms| - 1].Result? then |ms[|ms| - 1].content| else 0
  }

  // ----- one run of the loop ----------------------------------------------------------------------

  const MAX_STEPS: nat := 8
  const MAX_TOOL_CALLS: nat := 8

  /** The answer to one round trip: an error (`plain` says whether asking again without tools
      would be answered), a malformed answer, a text, or calls, with what each of them returns
      if it is run inline. */
  datatype Response =
    | Fails(plain: bool)
    | Garbled
    | Says(text: string)
    | Wants(text: string, calls: seq<Call>, outs: seq<string>)

  datatype Turn = Turn(messages: seq<Msg>, step: nat, calls: nat, gathered: nat)

  datatype Ending = Complete | Degraded | Raised | Tripped | Exhausted | Awaiting(parked: seq<Call>)

  /** `asked` is every transcript the model was shown. */
  datatype Outcome = Outcome(turn: Turn, ending: Ending, asked: seq<seq<Msg>>)

  function Cut(text: string, cap: nat): string {
    if |text| <= cap then text else text[..cap]
  }

  function Out(outs: seq<string>, i: nat): string {
    if i < |outs| then outs[i] else ""
  }

  function InlineResult(env: Env, c: Call, out: string): Msg {
    Result(c.id, Cut(if InlineOf(env, c).Runs? then out else env.say(InlineOf(env, c)), env.cap))
  }

  /** Results of the inline calls among the first `n`, in order. */
  function InlineResults(env: Env, calls: seq<Call>, outs: seq<string>, n: nat): seq<Msg>
    requires n <= |calls|
  {
    if n == 0 then []
    else
      InlineResults(env, calls, outs, n - 1)
      + (if Parks(env, calls[n - 1]) then [] else [InlineResult(env, calls[n - 1], Out(outs, n - 1))])
  }

  function Parked(env: Env, calls: seq<Call>, n: nat): seq<Call>
    requires n <= |calls|
  {
    if n == 0 then []
    else Parked(env, calls, n - 1) + (if Parks(env, calls[n - 1]) then [calls[n - 1]] else [])
  }

  predicate AnyTrips(env: Env, calls: seq<Call>) {
    exists i :: 0 <= i < |calls| && Trips(env, calls[i])
  }

  /** The turn once a response's calls were taken in. */
  function TakeIn(env: Env, t: Turn, text: string, calls: seq<Call>, outs: seq<string>): Turn {
    var results := InlineResults(env, calls, outs, |calls|);
    Turn(t.messages + [Asks(text, calls)] + results, t.step, t.calls + |calls|, t.gathered + ToolText(results))
  }

  function Loop(env: Env, t: Turn, rs: seq<Response>): Outcome
    decreases MAX_STEPS - t.step
  {
    if t.step >= MAX_STEPS || t.gathered >= env.budget then Outcome(t, Exhausted, [])
    else
      match if rs == [] then Garbled else rs[0]
      case Fails(plain) => Outcome(t, if t.calls == 0 && plain then Degraded else Raised, [t.messages])
      case Garbled => Outcome(t, Raised, [t.messages])
      case Says(_) => Outcome(t, Complete, [t.messages])
      case Wants(text, calls, outs) =>
        if calls == [] then Outcome(t, Complete, [t.messages])
        else if t.calls + |calls| > MAX_TOOL_CALLS then Outcome(t, Exhausted, [t.messages])
        else if AnyTrips(env, calls) then Outcome(t, Tripped, [t.messages])
        else
          var t' := TakeIn(env, t, text, calls, outs);
          if Parked(env, calls, |calls|) != [] then
            Outcome(t', Awaiting(Parked(env, calls, |calls|)), [t.messages])
          else
            var rest := Loop(env, t'.(step := t.step + 1), rs[1..]);
            rest.(asked := [t.messages] + rest.asked)
  }

  method TakeCalls(env: Env, t: Turn, text: string, calls: seq<Call>, outs: seq<string>) returns (t': Turn, parked: seq<Call>)
    ensures t' == TakeIn(env, t, text, calls, outs) && parked == Parked(env, calls, |calls|)
  {
    hide Parks, InlineOf, Cut, ToolText;
    assert ToolText([]) == 0 by { NoText(); }
    var messages := t.messages + [Asks(text, calls)];
    var gathered := t.gathered;
    parked := [];
    for i := 0 to |calls|
      invariant parked == Parked(env, calls, i)
      invariant messages == t.messages + [Asks(text, calls)] + InlineResults(env, calls, outs, i)
      invariant gathered == t.gathered + ToolText(InlineResults(env, calls, outs, i))
    {
      if Parks(env, calls[i]) {
        parked := parked + [calls[i]];
        assert InlineResults(env, calls, outs, i + 1) == InlineResults(env, calls, outs, i);
      } else {
        var result := InlineResult(env, calls[i], Out(outs, i));
        ToolTextSum(InlineResults(env, calls, outs, i), [result]);
        OneResult(result);
        assert InlineResults(env, calls, outs, i + 1) == InlineResults(env, calls, outs, i) + [result];
        messages := messages + [result];
        gathered := gathered + |result.content|;
      }
    }
    t' := Turn(messages, t.step, t.calls + |calls|, gathered);
  }

  lemma NoText()
    ensures ToolText([]) == 0
  {
  }

  lemma OneResult(m: Msg)
    ensures ToolText([m]) == if m.Result? then |m.content| else 0
  {
    assert [m][..0] == [];
  }

  function After(asked: seq<seq<Msg>>, o: Outcome): Outcome {
    o.(asked := asked + o.asked)
  }

  lemma AfterOne(asked: seq<seq<Msg>>, prompt: seq<Msg>, o: Outcome)
    ensures After(asked, After([prompt], o)) == After(asked + [prompt], o)
  {
    assert asked + ([prompt] + o.asked) == asked + [prompt] + o.asked;
  }

  method RunTurnLoop(env: Env, start: Turn, rs: seq<Response>) returns (o: Outcome)
    ensures o == Loop(env, start, rs)
  {
    hide TakeIn, Parked, AnyTrips;
    var t := start;
    var left := rs;
    var asked: seq<seq<Msg>> := [];
    while t.step < MAX_STEPS
      invariant Loop(env, start, rs) == After(asked, Loop(env, t, left))
      decreases MAX_STEPS - t.step
    {
      if t.gathered >= env.budget {
        assert Loop(env, t, left) == Outcome(t, Exhausted, []);
        return Outcome(t, Exhausted, asked);
      }
      var response := if left == [] then Garbled else left[0];
      match response {
        case Fails(plain) => return Outcome(t, if t.calls == 0 && plain then Degraded else Raised, asked + [t.messages]);
        case Garbled => return Outcome(t, Raised, asked + [t.messages]);
        case Says(_) => return Outcome(t, Complete, asked + [t.messages]);
        case Wants(text, calls, outs) =>
          if calls == [] {
            return Outcome(t, Complete, asked + [t.messages]);
          }
          if t.calls + |calls| > MAX_TOOL_CALLS {
            return Outcome(t, Exhausted, asked + [t.messages]);
          }
          if AnyTrips(env, calls) {
            return Outcome(t, Tripped, asked + [t.messages]);
          }
          var t', parked := TakeCalls(env, t, text, calls, outs);
          if parked != [] {
            return Outcome(t', Awaiting(parked), asked + [t.messages]);
          }
          AfterOne(asked, t.messages, Loop(env, t'.(step := t.step + 1), left[1..]));
          assert Loop(env, t, left) == After([t.messages], Loop(env, t'.(step := t.step + 1), left[1..]));
          asked := asked + [t.messages];
          t, left := t'.(step := t.step + 1), left[1..];
      }
    }
    assert Loop(env, t, left) == Outcome(t, Exhausted, []);
    return Outcome(t, Exhausted, asked);
  }

  lemma {:induction false} ToolTextSum(a: seq<Msg>, b: seq<Msg>)
    ensures ToolText(a + b) == ToolText(a) + ToolText(b)
    decreases |b|
  {
    if b == [] {
      assert a + b == a;
    } else {
      assert (a + b)[..|a + b| - 1] == a + b[..|b| - 1];
      ToolTextSum(a, b[..|b| - 1]);
    }
  }

  // ----- what one run keeps: counters ----------------------------------------------------------------

  /** Both counters say what the transcript holds. */
  ghost predicate Exact(t: Turn) {
    t.calls == CallsIn(t.messages) <= MAX_TOOL_CALLS && t.gathered == ToolText(t.messages) && t.step <= MAX_STEPS
  }

  lemma {:induction false} CallsInSum(a: seq<Msg>, b: seq<Msg>)
    ensures CallsIn(a + b) == CallsIn(a) + CallsIn(b)
    decreases |b|
  {
    if b == [] {
      assert a + b == a;
    } else {
      assert (a + b)[..|a + b| - 1] == a + b[..|b| - 1];
      CallsInSum(a, b[..|b| - 1]);
    }
  }

  lemma OneMore(ms: seq<Msg>, m: Msg)
    ensures Open(ms + [m]) == Read(Open(ms), m)
    ensures CallsIn(ms + [m]) == CallsIn(ms) + if m.Asks? then |m.calls| else 0
    ensures ToolText(ms + [m]) == ToolText(ms) + if m.Result? then |m.content| else 0
  {
    assert (ms + [m])[..|ms + [m]| - 1] == ms;
  }

  lemma {:induction false} InlineAsksNothing(env: Env, calls: seq<Call>, outs: seq<string>, n: nat)
    requires n <= |calls|
    ensures CallsIn(InlineResults(env, calls, outs, n)) == 0
    decreases n
  {
    hide Parks, InlineOf, Cut;
    if n > 0 {
      InlineAsksNothing(env, calls, outs, n - 1);
      var before := InlineResults(env, calls, outs, n - 1);
      if Parks(env, calls[n - 1]) {
        assert before + [] == before;
      } else {
        OneMore(before, InlineResult(env, calls[n - 1], Out(outs, n - 1)));
      }
    }
  }

  lemma {:induction false} ParkedTell(env: Env, calls: seq<Call>, n: nat)
    requires n <= |calls|
    ensures var parked := Parked(env, calls, n);
            |parked| <= n && forall i :: 0 <= i < |parked| ==> Parks(env, parked[i])
    decreases n
  {
    hide Parks;
    if n > 0 { ParkedTell(env, calls, n - 1); }
  }

  lemma {:induction false} TakeInCounts(env: Env, t: Turn, text: string, calls: seq<Call>, outs: seq<string>)
    requires Exact(t) && t.calls + |calls| <= MAX_TOOL_CALLS
    ensures var t' := TakeIn(env, t, text, calls, outs); Exact(t') && t'.step == t.step && t'.calls == t.calls + |calls|
  {
    hide Parks, InlineResults, CallsIn, ToolText, Open, Read;
    var results := InlineResults(env, calls, outs, |calls|);
    InlineAsksNothing(env, calls, outs, |calls|);
    var front := t.messages + [Asks(text, calls)];
    OneMore(t.messages, Asks(text, calls));
    CallsInSum(front, results);
    ToolTextSum(front, results);
  }

  /** What a run spends: one transcript per step left at most, each below the context budget,
      and counters that are exact at the end; a run that parks has come one step further with
      each transcript, and has counted the calls it parks. */
  lemma {:induction false} LoopCounts(env: Env, t: Turn, rs: seq<Response>)
    requires Exact(t)
    ensures var o := Loop(env, t, rs);
            && Exact(o.turn) && t.step <= o.turn.step && |o.asked| <= MAX_STEPS - t.step && t.calls <= o.turn.calls
            && (forall i :: 0 <= i < |o.asked| ==> ToolText(o.asked[i]) < env.budget)
            && (o.ending.Awaiting? ==>
                  && o.turn.step < MAX_STEPS && |o.asked| == o.turn.step - t.step + 1
                  && o.ending.parked != [] && t.calls + |o.ending.parked| <= o.turn.calls
                  && forall i :: 0 <= i < |o.ending.parked| ==> Parks(env, o.ending.parked[i]))
    decreases MAX_STEPS - t.step
  {
    hide TakeIn, Parked, AnyTrips, Parks, CallsIn, ToolText;
    if t.step < MAX_STEPS && t.gathered < env.budget {
      var response := if rs == [] then Garbled else rs[0];
      if response.Wants? && response.calls != [] && t.calls + |response.calls| <= MAX_TOOL_CALLS
         && !AnyTrips(env, response.calls) {
        TakeInCounts(env, t, response.text, response.calls, response.outs);
        ParkedTell(env, response.calls, |response.calls|);
        if Parked(env, response.calls, |response.calls|) == [] {
          LoopCounts(env, TakeIn(env, t, response.text, response.calls, response.outs).(step := t.step + 1), rs[1..]);
        }
      }
    }
  }

  // ----- what one run keeps: pairing -----------------------------------------------------------------

  lemma {:induction false} IdsSum(a: seq<Call>, b: seq<Call>)
    ensures Ids(a + b) == Ids(a) + Ids(b)
    decreases |b|
  {
    if b == [] {
      assert a + b == a;
    } else {
      assert (a + b)[..|a + b| - 1] == a + b[..|b| - 1];
      IdsSum(a, b[..|b| - 1]);
    }
  }

  lemma IdsNone()
    ensures Ids([]) == multiset{}
  {
  }

  lemma IdsOne(c: Call)
    ensures Ids([c]) == multiset{c.id}
  {
    assert [c][..0] == [];
  }

  /** With the first `n` calls looked at, the parked ones among them and all later ones wait. */
  lemma {:induction false} InlineAnswers(env: Env, ms: seq<Msg>, text: string, calls: seq<Call>, outs: seq<string>, n: nat)
    requires Paired(ms) && n <= |calls|
    ensures Open(ms + [Asks(text, calls)] + InlineResults(env, calls, outs, n)) == Some(Ids(Parked(env, calls, n) + calls[n..]))
    decreases n
  {
    hide Parks, InlineResult, Open, Read, Ids;
    var front := ms + [Asks(text, calls)];
    if n == 0 {
      AskOpens(ms, text, calls);
      assert front + [] == front && [] + calls[0..] == calls;
    } else {
      InlineAnswers(env, ms, text, calls, outs, n - 1);
      InlineStep(env, front, calls, outs, n);
    }
  }

  lemma AskOpens(ms: seq<Msg>, text: string, calls: seq<Call>)
    requires Paired(ms)
    ensures Open(ms + [Asks(text, calls)]) == Some(Ids(calls))
  {
    hide Open, Ids;
    OneMore(ms, Asks(text, calls));
  }

  lemma AnswerOpens(ms: seq<Msg>, m: Msg, a: seq<Call>, c: Call, b: seq<Call>)
    requires m.Result? && m.id == c.id && Open(ms) == Some(Ids(a + ([c] + b)))
    ensures Open(ms + [m]) == Some(Ids(a + b))
  {
    hide Open, Ids;
    OneMore(ms, m);
    IdsSum(a, [c] + b);
    IdsSum([c], b);
    IdsSum(a, b);
    IdsOne(c);
    assert Ids(a) + (multiset{c.id} + Ids(b)) - multiset{c.id} == Ids(a) + Ids(b);
  }

  lemma {:induction false} InlineStep(env: Env, front: seq<Msg>, calls: seq<Call>, outs: seq<string>, n: nat)
    requires 0 < n <= |calls|
    requires Open(front + InlineResults(env, calls, outs, n - 1)) == Some(Ids(Parked(env, calls, n - 1) + calls[n - 1..]))
    ensures Open(front + InlineResults(env, calls, outs, n)) == Some(Ids(Parked(env, calls, n) + calls[n..]))
  {
    hide Parks, InlineOf, Open, Ids;
    var c := calls[n - 1];
    var before, parked := InlineResults(env, calls, outs, n - 1), Parked(env, calls, n - 1);
    assert calls[n - 1..] == [c] + calls[n..];
    if Parks(env, c) {
      assert parked + calls[n - 1..] == parked + [c] + calls[n..];
      assert before + [] == before;
    } else {
      var m := InlineResult(env, c, Out(outs, n - 1));
      assert front + (before + [m]) == front + before + [m];
      AnswerOpens(front + before, m, parked, c, calls[n..]);
      assert parked + [] == parked;
    }
  }

  lemma TakeInPairs(env: Env, t: Turn, text: string, calls: seq<Call>, outs: seq<string>)
    requires Paired(t.messages)
    ensures Open(TakeIn(env, t, text, calls, outs).messages) == Some(Ids(Parked(env, calls, |calls|)))
  {
    hide Parks, InlineResults, Parked, Open, Ids;
    var n := |calls|;
    InlineAnswers(env, t.messages, text, calls, outs, n);
    assert Parked(env, calls, n) + calls[n..] == Parked(env, calls, n);
  }

  /** A run that starts from a paired transcript shows only paired ones, and leaves exactly
      the calls it parks unanswered. */
  lemma {:induction false} LoopKeeps(env: Env, t: Turn, rs: seq<Response>)
    requires Paired(t.messages)
    ensures var o := Loop(env, t, rs);
            && (forall i :: 0 <= i < |o.asked| ==> Paired(o.asked[i]))
            && Open(o.turn.messages) == Some(if o.ending.Awaiting? then Ids(o.ending.parked) else multiset{})
    decreases MAX_STEPS - t.step
  {
    hide TakeIn, Parked, AnyTrips, Open, Ids;
    if t.step < MAX_STEPS && t.gathered < env.budget {
      var response := if rs == [] then Garbled else rs[0];
      if response.Wants? && response.calls != [] && t.calls + |response.calls| <= MAX_TOOL_CALLS
         && !AnyTrips(env, response.calls) {
        TakeInPairs(env, t, response.text, response.calls, response.outs);
        if Parked(env, response.calls, |response.calls|) == [] {
          IdsNone();
          LoopKeeps(env, TakeIn(env, t, response.text, response.calls, response.outs).(step := t.step + 1), rs[1..]);
        }
      }
    }
  }

  /** The first transcript a run shows is the one it starts from. */
  lemma ShowsStartFirst(env: Env, t: Turn, rs: seq<Response>)
    ensures Loop(env, t, rs).asked != [] ==> Loop(env, t, rs).asked[0] == t.messages
  {
  }

  // ----- the failing assertion -------------------------------------------------------------------------

  /** The turn as it stands when the model is asked for the `k`-th time, if the run gets there;
      failing assertions aside. */
  function Reaches(env: Env, t: Turn, rs: seq<Response>, k: nat): Option<Turn>
    decreases k
  {
    if t.step >= MAX_STEPS || t.gathered >= env.budget then None
    else if k == 0 then Some(t)
    else if rs == [] || !rs[0].Wants? || rs[0].calls == [] || t.calls + |rs[0].calls| > MAX_TOOL_CALLS then None
    else if Parked(env, rs[0].calls, |rs[0].calls|) != [] then None
    else Reaches(env, TakeIn(env, t, rs[0].text, rs[0].calls, rs[0].outs).(step := t.step + 1), rs[1..], k - 1)
  }

  /** The answer is calls within the budget, one of them without a name but with readable
      arguments. */
  predicate AsksNameless(t: Turn, r: Response) {
    r.Wants? && t.calls + |r.calls| <= MAX_TOOL_CALLS && exists i :: 0 <= i < |r.calls| && Nameless(r.calls[i])
  }

  predicate Nameless(c: Call) {
    c.name.None? && c.args.Some?
  }

  ghost predicate ReachesNameless(env: Env, t: Turn, rs: seq<Response>) {
    exists k :: 0 <= k < |rs| && Reaches(env, t, rs, k).Some? && AsksNameless(Reaches(env, t, rs, k).value, rs[k])
  }

  lemma ReachesLater(env: Env, t: Turn, rs: seq<Response>, t': Turn)
    requires t.step < MAX_STEPS && t.gathered < env.budget && rs != [] && rs[0].Wants? && rs[0].calls != []
    requires t.calls + |rs[0].calls| <= MAX_TOOL_CALLS && Parked(env, rs[0].calls, |rs[0].calls|) == []
    requires t' == TakeIn(env, t, rs[0].text, rs[0].calls, rs[0].outs).(step := t.step + 1)
    ensures ReachesNameless(env, t, rs) <==> AsksNameless(t, rs[0]) || ReachesNameless(env, t', rs[1..])
  {
    hide TakeIn, Parked, AsksNameless;
    assert forall k :: 0 < k < |rs| ==> Reaches(env, t, rs, k) == Reaches(env, t', rs[1..], k - 1) && rs[k] == rs[1..][k - 1];
    assert Reaches(env, t, rs, 0) == Some(t);
    if k :| 0 <= k < |rs[1..]| && Reaches(env, t', rs[1..], k).Some? && AsksNameless(Reaches(env, t', rs[1..], k).value, rs[1..][k]) {
      assert Reaches(env, t, rs, k + 1) == Reaches(env, t', rs[1..], k) && rs[k + 1] == rs[1..][k];
    }
  }

  /** When the assertion fails: exactly when something was denied and the model, while it is
      still asked, makes a call within the budget without a name but with readable arguments. */
  lemma {:induction false} TripsIff(env: Env, t: Turn, rs: seq<Response>)
    ensures Loop(env, t, rs).ending.Tripped? <==> env.denied != {} && ReachesNameless(env, t, rs)
    decreases MAX_STEPS - t.step
  {
    hide TakeIn, Parked;
    if t.step < MAX_STEPS && t.gathered < env.budget {
      assert Reaches(env, t, rs, 0) == Some(t);
      if rs != [] && rs[0].Wants? && rs[0].calls != [] && t.calls + |rs[0].calls| <= MAX_TOOL_CALLS {
        AnyTripsIff(env, t, rs[0]);
        if Parked(env, rs[0].calls, |rs[0].calls|) == [] {
          var t' := TakeIn(env, t, rs[0].text, rs[0].calls, rs[0].outs).(step := t.step + 1);
          ReachesLater(env, t, rs, t');
          TripsIff(env, t', rs[1..]);
        }
      }
    }
  }

  lemma AnyTripsIff(env: Env, t: Turn, r: Response)
    requires r.Wants? && t.calls + |r.calls| <= MAX_TOOL_CALLS
    ensures AnyTrips(env, r.calls) <==> env.denied != {} && AsksNameless(t, r)
  {
    if i :| 0 <= i < |r.calls| && Nameless(r.calls[i]) {
      assert Trips(env, r.calls[i]) <==> env.denied != {};
    }
  }

  // ----- parking and resuming ---------------------------------------------------------------------

  /** How a parked call stands: it waits for the user, was approved and not yet claimed, or is
      still running; or it ran and its result was stored, was claimed but no result was ever
      stored, was denied, or expired. */
  datatype Answer =
    | Waits | Approved | InFlight
    | Ran(text: string) | Interrupted | Refused | Lapsed

  predicate Blocks(a: Answer) {
    a.Waits? || a.Approved? || a.InFlight?
  }

  /** A row; `snapshot` is the turn as it was parked. */
  datatype PRow = PRow(call: Call, snapshot: Turn, answer: Answer)

  /** The words for a call that left no result. */
  datatype Words = Words(interrupted: string, refused: string)

  function AnswerMsg(env: Env, w: Words, r: PRow): (m: Msg)
    ensures m.Result? && m.id == r.call.id
  {
    Result(r.call.id, Cut(match r.answer case Ran(text) => text case Interrupted => w.interrupted case _ => w.refused, env.cap))
  }

  function AnswerMsgs(env: Env, w: Words, rows: seq<PRow>): seq<Msg> {
    if rows == [] then [] else AnswerMsgs(env, w, rows[..|rows| - 1]) + [AnswerMsg(env, w, rows[|rows| - 1])]
  }

  function LatestStep(rows: seq<PRow>): nat {
    if rows == [] then 0
    else
      var before, last := LatestStep(rows[..|rows| - 1]), rows[|rows| - 1].snapshot.step;
      if last > before then last else before
  }

  function Batch(rows: seq<PRow>, step: nat): seq<PRow> {
    if rows == [] then []
    else Batch(rows[..|rows| - 1], step) + if rows[|rows| - 1].snapshot.step == step then [rows[|rows| - 1]] else []
  }

  /** Every pair denied in any park of the turn. */
  function DeniedPairs(rows: seq<PRow>): set<(string, string)> {
    if rows == [] then {}
    else
      var r := rows[|rows| - 1];
      DeniedPairs(rows[..|rows| - 1])
      + if r.answer.Refused? && r.call.name.Some? && r.call.args.Some? then {(r.call.name.value, r.call.args.value)} else {}
  }

  /** The turn as `resume_turn` rebuilds it from the rows alone. */
  function Rebuilt(env: Env, w: Words, rows: seq<PRow>): Turn
    requires rows != []
  {
    var batch := Batch(rows, LatestStep(rows));
    BatchNonempty(rows);
    var snap := batch[0].snapshot;
    var messages := snap.messages + AnswerMsgs(env, w, batch);
    Turn(messages, snap.step + 1, snap.calls, if snap.calls > 0 then ToolText(messages) else 0)
  }

  lemma {:induction false} BatchNonempty(rows: seq<PRow>)
    requires rows != []
    ensures Batch(rows, LatestStep(rows)) != []
    decreases |rows|
  {
    var n := |rows| - 1;
    if n > 0 && LatestStep(rows) == LatestStep(rows[..n]) {
      BatchNonempty(rows[..n]);
    }
  }

  function Resumed(env: Env, w: Words, rows: seq<PRow>, rs: seq<Response>): Outcome
    requires rows != []
  {
    Loop(env.(denied := DeniedPairs(rows)), Rebuilt(env, w, rows), rs)
  }

  /** What a resume answers: there is no such turn, it still waits (for which rows, and is one
      running), or a run of the loop. */
  datatype Reply = Unknown | StillWaiting(pending: seq<nat>, running: bool) | Ended(outcome: Outcome)

  method ResumeTurn(env: Env, w: Words, rows: seq<PRow>, rs: seq<Response>) returns (reply: Reply)
    ensures reply.Unknown? <==> rows == []
    ensures reply.StillWaiting? <==> exists i :: 0 <= i < |rows| && Blocks(rows[i].answer)
    ensures reply.StillWaiting? ==>
              && (forall i, j :: 0 <= i < j < |reply.pending| ==> reply.pending[i] < reply.pending[j])
              && (forall i :: i in reply.pending <==> 0 <= i < |rows| && rows[i].answer.Waits?)
              && (reply.running <==> exists i :: 0 <= i < |rows| && rows[i].answer.InFlight?)
    ensures reply.Ended? ==> reply.outcome == Resumed(env, w, rows, rs)
  {
    hide Loop, ToolText, AnswerMsg, Rebuilt, LatestStep, Batch, DeniedPairs;
    if rows == [] {
      return Unknown;
    }
    var waits, pending, running := ListWaiting(rows);
    if waits {
      return StillWaiting(pending, running);
    }
    var outcome := ResumeResolved(env, w, rows, rs);
    reply := Ended(outcome);
  }

  method ListWaiting(rows: seq<PRow>) returns (waits: bool, pending: seq<nat>, running: bool)
    ensures waits <==> exists i :: 0 <= i < |rows| && Blocks(rows[i].answer)
    ensures forall i, j :: 0 <= i < j < |pending| ==> pending[i] < pending[j]
    ensures forall i :: i in pending <==> 0 <= i < |rows| && rows[i].answer.Waits?
    ensures running <==> exists i :: 0 <= i < |rows| && rows[i].answer.InFlight?
  {
    hide Blocks;
    waits, pending, running := false, [], false;
    for i := 0 to |rows|
      invariant waits <==> exists j :: 0 <= j < i && Blocks(rows[j].answer)
    {
      waits := waits || Blocks(rows[i].answer);
    }
    pending := ListPending(rows);
    for i := 0 to |rows|
      invariant running <==> exists j :: 0 <= j < i && rows[j].answer.InFlight?
    {
      running := running || rows[i].answer.InFlight?;
    }
  }

  method ListPending(rows: seq<PRow>) returns (pending: seq<nat>)
    ensures forall i, j :: 0 <= i < j < |pending| ==> pending[i] < pending[j]
    ensures forall i :: i in pending <==> 0 <= i < |rows| && rows[i].answer.Waits?
  {
    pending := [];
    for i := 0 to |rows|
      invariant forall j, k :: 0 <= j < k < |pending| ==> pending[j] < pending[k]
      invariant forall j :: j in pending <==> 0 <= j < i && rows[j].answer.Waits?
    {
      if rows[i].answer.Waits? {
        assert forall j :: 0 <= j < |pending| ==> pending[j] in pending;
        pending := pending + [i];
      }
    }
  }

  /** The rest of `resume_turn`, once no row blocks it. */
  method ResumeResolved(env: Env, w: Words, rows: seq<PRow>, rs: seq<Response>) returns (o: Outcome)
    requires rows != []
    ensures o == Resumed(env, w, rows, rs)
  {
    hide Loop, ToolText, AnswerMsg;
    var latest := 0;
    var denied: set<(string, string)> := {};
    for i := 0 to |rows|
      invariant latest == LatestStep(rows[..i]) && denied == DeniedPairs(rows[..i])
    {
      assert rows[..i + 1][..i] == rows[..i];
      latest := if rows[i].snapshot.step > latest then rows[i].snapshot.step else latest;
      if rows[i].answer.Refused? && rows[i].call.name.Some? && rows[i].call.args.Some? {
        denied := denied + {(rows[i].call.name.value, rows[i].call.args.value)};
      }
    }
    assert rows[..|rows|] == rows;
    var batch: seq<PRow> := [];
    for i := 0 to |rows|
      invariant batch == Batch(rows[..i], latest)
    {
      assert rows[..i + 1][..i] == rows[..i];
      if rows[i].snapshot.step == latest {
        batch := batch + [rows[i]];
      }
    }
    BatchNonempty(rows);
    var messages := batch[0].snapshot.messages;
    for i := 0 to |batch|
      invariant messages == batch[0].snapshot.messages + AnswerMsgs(env, w, batch[..i])
    {
      assert batch[..i + 1][..i] == batch[..i];
      messages := messages + [AnswerMsg(env, w, batch[i])];
    }
    assert batch[..|batch|] == batch;
    var snap := batch[0].snapshot;
    var start := Turn(messages, snap.step + 1, snap.calls, if snap.calls > 0 then ToolText(messages) else 0);
    o := RunTurnLoop(env.(denied := denied), start, rs);
  }

  // ----- what a resume rebuilds ------------------------------------------------------------------------

  function CallsOf(rows: seq<PRow>): seq<Call> {
    if rows == [] then [] else CallsOf(rows[..|rows| - 1]) + [rows[|rows| - 1].call]
  }

  lemma {:induction false} AnswersAskNothing(env: Env, w: Words, rows: seq<PRow>)
    ensures CallsIn(AnswerMsgs(env, w, rows)) == 0
    decreases |rows|
  {
    hide AnswerMsg;
    if rows != [] {
      var n := |rows| - 1;
      AnswersAskNothing(env, w, rows[..n]);
      assert AnswerMsg(env, w, rows[n]).Result?;
      OneMore(AnswerMsgs(env, w, rows[..n]), AnswerMsg(env, w, rows[n]));
    }
  }

  /** A turn rebuilt from a turn that parked has exact counters: its recount of the tool text is
      the counter it would have had, had it never stopped. */
  lemma RebuiltIsExact(env: Env, w: Words, rows: seq<PRow>)
    requires rows != []
    requires var snap := Batch(rows, LatestStep(rows)); snap != [] && Exact(snap[0].snapshot) && snap[0].snapshot.calls > 0 && snap[0].snapshot.step < MAX_STEPS
    ensures var batch := Batch(rows, LatestStep(rows));
            var t, t' := batch[0].snapshot, Rebuilt(env, w, rows);
            && Exact(t') && t'.step == t.step + 1 && t'.calls == t.calls
            && t'.gathered == t.gathered + ToolText(AnswerMsgs(env, w, batch))
  {
    hide Batch, LatestStep, CallsIn, ToolText, AnswerMsgs;
    var batch := Batch(rows, LatestStep(rows));
    AnswersAskNothing(env, w, batch);
    CallsInSum(batch[0].snapshot.messages, AnswerMsgs(env, w, batch));
    ToolTextSum(batch[0].snapshot.messages, AnswerMsgs(env, w, batch));
  }

  /** Answering rows answers their calls: all of them must be open, and they are open no more. */
  lemma {:induction false} AnswersRead(env: Env, w: Words, ms: seq<Msg>, rows: seq<PRow>)
    requires Open(ms).Some?
    ensures var open, ids := Open(ms).value, Ids(CallsOf(rows));
            Open(ms + AnswerMsgs(env, w, rows)) == if ids <= open then Some(open - ids) else None
    decreases |rows|
  {
    hide Open, AnswerMsg, Ids;
    if rows == [] {
      IdsNone();
      assert ms + [] == ms && Open(ms).value - multiset{} == Open(ms).value;
    } else {
      var n := |rows| - 1;
      AnswersRead(env, w, ms, rows[..n]);
      var front, m := AnswerMsgs(env, w, rows[..n]), AnswerMsg(env, w, rows[n]);
      assert ms + (front + [m]) == ms + front + [m];
      assert m.Result? && m.id == rows[n].call.id;
      OneMore(ms + front, m);
      IdsSum(CallsOf(rows[..n]), [rows[n].call]);
      IdsOne(rows[n].call);
      OneTaken(Open(ms).value, Ids(CallsOf(rows[..n])), m);
    }
  }

  lemma OneTaken(open: multiset<Id>, taken: multiset<Id>, m: Msg)
    requires m.Result?
    ensures Read(if taken <= open then Some(open - taken) else None, m)
            == if taken + multiset{m.id} <= open then Some(open - (taken + multiset{m.id})) else None
  {
    if taken <= open {
      assert m.id in open - taken <==> taken + multiset{m.id} <= open;
      assert open - taken - multiset{m.id} == open - (taken + multiset{m.id});
    }
  }

  /** What a resume rebuilds is paired exactly when the rows of its batch are the calls that
      the snapshot left open, each once. */
  lemma RebuiltIsPairedIff(env: Env, w: Words, rows: seq<PRow>, parked: seq<Call>)
    requires rows != []
    requires var batch := Batch(rows, LatestStep(rows)); batch != [] && Open(batch[0].snapshot.messages) == Some(Ids(parked))
    ensures Paired(Rebuilt(env, w, rows).messages) <==> Ids(CallsOf(Batch(rows, LatestStep(rows)))) == Ids(parked)
  {
    hide Open, Ids, Batch, LatestStep, CallsOf, AnswerMsgs;
    var batch := Batch(rows, LatestStep(rows));
    AnswersRead(env, w, batch[0].snapshot.messages, batch);
    AllTaken(Ids(parked), Ids(CallsOf(batch)));
  }

  lemma AllTaken<T>(open: multiset<T>, ids: multiset<T>)
    ensures ids <= open && open - ids == multiset{} <==> ids == open
  {
    if ids <= open && open - ids == multiset{} {
      assert open == ids + (open - ids);
    }
  }

  lemma {:induction false} DeniedKept(rows: seq<PRow>, i: nat)
    requires i < |rows| && rows[i].answer.Refused? && rows[i].call.name.Some? && rows[i].call.args.Some?
    ensures (rows[i].call.name.value, rows[i].call.args.value) in DeniedPairs(rows)
    decreases |rows|
  {
    if i < |rows| - 1 { DeniedKept(rows[..|rows| - 1], i); }
  }

  /** A pair denied in any park of the turn neither parks again nor runs in any later resume. */
  lemma DeniedOnceDeniedAlways(env: Env, rows: seq<PRow>, i: nat, c: Call)
    requires i < |rows| && rows[i].answer.Refused? && rows[i].call.name.Some? && rows[i].call.args.Some?
    requires c.name == rows[i].call.name && c.args == rows[i].call.args
    ensures var env' := env.(denied := DeniedPairs(rows)); !Parks(env', c) && !InlineOf(env', c).Runs?
  {
    DeniedKept(rows, i);
    Chokepoint(env.(denied := DeniedPairs(rows)), c);
  }
}

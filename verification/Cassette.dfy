/** The record/replay cassette of tools/ni-eval.py (class Session).  A fetch key is an
    opaque string; JSON text and hashing are exact total functions. */
module Cassette {
  import opened Prelude

  // ----- what the live services say, and what is kept of it ------------------------

  /** A field of a fetched dictionary: raw bytes are never written to a cassette. */
  datatype Field = Raw | Json(text: string)
  datatype Value = Plain(text: string) | Dict(fields: map<string, Field>)

  datatype Fault = Fault(kind: Option<string>, status: Option<int>, msg: string)

  datatype Usage = Usage(prompt: int, completion: int, cacheRead: int, cacheWrite: int, cost: real)

  datatype Answer =
    | Fetched(value: Value)
    | FetchRaised(fault: Fault)
    | Found(text: string)
    | SearchRaised(error: string, text: string)
    | Replied(reply: string)
    | Turn(response: string, usage: Option<Usage>)
    | CallRaised
    | Miss

  datatype Op =
    | Fetch(key: string)
    | Search(query: string)
    | Model(prompt: string)
    | Research(messages: string)

  datatype FetchRow = FetchRow(key: string, answer: Answer)
  datatype SearchRow = SearchRow(query: string, answer: Answer)
  datatype ReplyRow = ReplyRow(sha: string, reply: string)
  datatype TurnRow = TurnRow(sha: string, response: string, usage: Option<Usage>)

  const MSG_KEPT: nat := 300
  const SEARCH_KEPT: nat := 200
  const SEARCH_ERROR := "SearchError"
  const RECORDED_FAILURE := "recorded failure"

  function Clip(s: string, n: nat): string {
    if |s| <= n then s else s[..n]
  }

  function Kept(v: Value): Value {
    match v
    case Plain(_) => v
    case Dict(fs) => Dict(map k | k in fs && fs[k].Json? :: fs[k])
  }

  /** The row a fetch leaves: its value without raw bytes, or its failure clipped. */
  function KeptFetch(a: Answer): Answer
    requires a.Fetched? || a.FetchRaised?
  {
    match a
    case Fetched(v) => Fetched(Kept(v))
    case FetchRaised(f) => FetchRaised(f.(msg := Clip(f.msg, MSG_KEPT)))
  }

  /** The row a search leaves: its value, or one text with the error's type and its first
      characters, which a replay raises as an error of its own type. */
  function KeptSearch(a: Answer): Answer
    requires a.Found? || a.SearchRaised?
  {
    match a
    case Found(_) => a
    case SearchRaised(error, text) => SearchRaised(SEARCH_ERROR, error + ": " + Clip(text, SEARCH_KEPT))
  }

  /** What replaying a recorded row gives back. */
  function Served(a: Answer): Answer {
    match a
    case FetchRaised(f) => FetchRaised(f.(msg := if f.msg != "" then f.msg else RECORDED_FAILURE))
    case SearchRaised(e, text) => SearchRaised(e, if text != "" then text else RECORDED_FAILURE)
    case _ => a
  }

  /** An answer the live service of this operation can give. */
  predicate Fits(op: Op, a: Answer) {
    match op
    case Fetch(_) => a.Fetched? || a.FetchRaised?
    case Search(_) => a.Found? || a.SearchRaised?
    case Model(_) => a.Replied? || a.CallRaised?
    case Research(_) => a.Turn? || a.CallRaised?
  }

  /** What a replay owes the caller for a recorded live answer. */
  function Owed(a: Answer): Answer {
    if a.Fetched? || a.FetchRaised? then Served(KeptFetch(a))
    else if a.Found? || a.SearchRaised? then Served(KeptSearch(a))
    else Served(a)
  }

  /** What a replay gives for a live answer: a text as it was, a dictionary with exactly its JSON
      fields, a failed fetch with its kind, its status and the first 300 characters of its
      message, a failed search as one text with the first 200, and any other answer as it was. */
  ghost predicate ComesBack(live: Answer, a: Answer) {
    match live
    case Fetched(Plain(text)) => a == Fetched(Plain(text))
    case Fetched(Dict(fields)) =>
      && a.Fetched? && a.value.Dict?
      && (forall k :: k in a.value.fields <==> k in fields && fields[k].Json?)
      && forall k :: k in a.value.fields ==> a.value.fields[k] == fields[k]
    case FetchRaised(f) =>
      && a.FetchRaised? && a.fault.kind == f.kind && a.fault.status == f.status
      && if f.msg == "" then a.fault.msg == "recorded failure" else a.fault.msg <= f.msg && |a.fault.msg| == Min(|f.msg|, 300)
    case SearchRaised(error, text) =>
      && a.SearchRaised? && a.error == "SearchError" && error + ": " <= a.text
      && a.text[|error| + 2..] <= text && |a.text| == |error| + 2 + Min(|text|, 200)
    case _ => a == live
  }

  lemma ComesBackIff(live: Answer, a: Answer)
    ensures ComesBack(live, a) <==> a == Owed(live)
  {
    match live {
      case Fetched(Dict(fields)) =>
        if ComesBack(live, a) {
          assert a.value.fields == Owed(live).value.fields;
        }
      case SearchRaised(error, text) =>
        var owed := error + ": " + Clip(text, SEARCH_KEPT);
        assert owed[|error| + 2..] == Clip(text, SEARCH_KEPT);
        if ComesBack(live, a) {
          assert a.text == a.text[..|error| + 2] + a.text[|error| + 2..];
          assert a.text[|error| + 2..] == Clip(text, SEARCH_KEPT);
        }
      case _ =>
    }
  }

  // ----- the session's data and its transitions ------------------------------------------

  datatype Data = Data(
    fetches: seq<FetchRow>, searches: seq<SearchRow>, replies: seq<ReplyRow>, turns: seq<TurnRow>,
    fetchSeen: map<string, nat>, searchSeen: map<string, nat>, modelI: nat, researchI: nat, drift: nat)

  const Empty := Data([], [], [], [], map[], map[], 0, 0, 0)

  function FetchRows(rows: seq<FetchRow>, key: string): seq<FetchRow> {
    if rows == [] then []
    else (if rows[0].key == key then [rows[0]] else []) + FetchRows(rows[1..], key)
  }

  function SearchRows(rows: seq<SearchRow>, query: string): seq<SearchRow> {
    if rows == [] then []
    else (if rows[0].query == query then [rows[0]] else []) + SearchRows(rows[1..], query)
  }

  function Count(seen: map<string, nat>, k: string): nat {
    if k in seen then seen[k] else 0
  }

  function Recorded(d: Data, op: Op, live: Answer, sha: string -> string): Data
    requires Fits(op, live)
  {
    match op
    case Fetch(key) => d.(fetches := d.fetches + [FetchRow(key, KeptFetch(live))])
    case Search(query) => d.(searches := d.searches + [SearchRow(query, KeptSearch(live))])
    case Model(prompt) =>
      if live.CallRaised? then d else d.(replies := d.replies + [ReplyRow(sha(prompt), live.reply)])
    case Research(messages) =>
      if live.CallRaised? then d else d.(turns := d.turns + [TurnRow(sha(messages), live.response, live.usage)])
  }

  function Replayed(d: Data, op: Op, sha: string -> string): (Data, Answer) {
    match op
    case Fetch(key) =>
      var rows := FetchRows(d.fetches, key);
      if rows == [] then (d, Miss)
      else
        var n := Count(d.fetchSeen, key);
        (d.(fetchSeen := d.fetchSeen[key := n + 1]), Served(rows[Min(n, |rows| - 1)].answer))
    case Search(query) =>
      var rows := SearchRows(d.searches, query);
      if rows == [] then (d, Miss)
      else
        var n := Count(d.searchSeen, query);
        (d.(searchSeen := d.searchSeen[query := n + 1]), Served(rows[Min(n, |rows| - 1)].answer))
    case Model(prompt) =>
      if d.modelI >= |d.replies| then (d, Miss)
      else
        var row := d.replies[d.modelI];
        (d.(modelI := d.modelI + 1, drift := d.drift + Drifted(row.sha, sha(prompt))), Replied(row.reply))
    case Research(messages) =>
      if d.researchI >= |d.turns| then (d, Miss)
      else
        var row := d.turns[d.researchI];
        (d.(researchI := d.researchI + 1, drift := d.drift + Drifted(row.sha, sha(messages))), Turn(row.response, row.usage))
  }

  function Drifted(recorded: string, now: string): nat {
    if recorded != "" && recorded != now then 1 else 0
  }

  class Session {
    const recording: bool
    const sha: string -> string
    var fetches: seq<FetchRow>
    var searches: seq<SearchRow>
    var replies: seq<ReplyRow>
    var turns: seq<TurnRow>
    var fetchSeen: map<string, nat>
    var searchSeen: map<string, nat>
    var modelI: nat
    var researchI: nat
    var drift: nat

    ghost function View(): Data
      reads this
    {
      Data(fetches, searches, replies, turns, fetchSeen, searchSeen, modelI, researchI, drift)
    }

    constructor (recording: bool, sha: string -> string, tape: Data)
      ensures this.recording == recording && this.sha == sha
      ensures View() == Data(tape.fetches, tape.searches, tape.replies, tape.turns, map[], map[], 0, 0, 0)
    {
      this.recording, this.sha := recording, sha;
      fetches, searches, replies, turns := tape.fetches, tape.searches, tape.replies, tape.turns;
      fetchSeen, searchSeen := map[], map[];
      modelI, researchI, drift := 0, 0, 0;
    }

    /** `live` is what the wrapped service answers or raises; it is looked at only while
        recording.  A recorded call hands its live answer through. */
    method FetchCall(key: string, live: Answer) returns (a: Answer)
      requires Fits(Fetch(key), live)
      modifies this
      ensures recording ==> View() == Recorded(old(View()), Fetch(key), live, sha) && a == live
      ensures !recording ==> (View(), a) == Replayed(old(View()), Fetch(key), sha)
    {
      if recording {
        var row := KeptFetch(live);
        fetches := fetches + [FetchRow(key, row)];
        return live;
      }
      var rows := FetchRows(fetches, key);
      if rows == [] {
        return Miss;
      }
      var n := if key in fetchSeen then fetchSeen[key] else 0;
      fetchSeen := fetchSeen[key := n + 1];
      a := Served(rows[Min(n, |rows| - 1)].answer);
    }

    method SearchCall(query: string, live: Answer) returns (a: Answer)
      requires Fits(Search(query), live)
      modifies this
      ensures recording ==> View() == Recorded(old(View()), Search(query), live, sha) && a == live
      ensures !recording ==> (View(), a) == Replayed(old(View()), Search(query), sha)
    {
      if recording {
        searches := searches + [SearchRow(query, KeptSearch(live))];
        return live;
      }
      var rows := SearchRows(searches, query);
      if rows == [] {
        return Miss;
      }
      var n := if query in searchSeen then searchSeen[query] else 0;
      searchSeen := searchSeen[query := n + 1];
      a := Served(rows[Min(n, |rows| - 1)].answer);
    }

    method ModelCall(prompt: string, live: Answer) returns (a: Answer)
      requires Fits(Model(prompt), live)
      modifies this
      ensures recording ==> View() == Recorded(old(View()), Model(prompt), live, sha) && a == live
      ensures !recording ==> (View(), a) == Replayed(old(View()), Model(prompt), sha)
    {
      if recording {
        if live.Replied? {
          replies := replies + [ReplyRow(sha(prompt), live.reply)];
        }
        return live;
      }
      if modelI >= |replies| {
        return Miss;
      }
      var row := replies[modelI];
      modelI := modelI + 1;
      if row.sha != "" && row.sha != sha(prompt) {
        drift := drift + 1;
      }
      a := Replied(row.reply);
    }

    method ResearchTurn(messages: string, live: Answer) returns (a: Answer)
      requires Fits(Research(messages), live)
      modifies this
      ensures recording ==> View() == Recorded(old(View()), Research(messages), live, sha) && a == live
      ensures !recording ==> (View(), a) == Replayed(old(View()), Research(messages), sha)
    {
      if recording {
        if live.Turn? {
          turns := turns + [TurnRow(sha(messages), live.response, live.usage)];
        }
        return live;
      }
      if researchI >= |turns| {
        return Miss;
      }
      var row := turns[researchI];
      researchI := researchI + 1;
      if row.sha != "" && row.sha != sha(messages) {
        drift := drift + 1;
      }
      a := Turn(row.response, row.usage);
    }

    /** Replay counts what was served, recording everything there is. */
    method ResearchStats() returns (calls: nat, total: Usage)
      requires researchI <= |turns|
      ensures var counted := if recording then turns else turns[..researchI];
              calls == |counted| && total == Spent(counted)
    {
      var counted := if recording then turns else turns[..researchI];
      calls, total := 0, Usage(0, 0, 0, 0, 0.0);
      for i := 0 to |counted|
        invariant calls == i && total == Spent(counted[..i])
      {
        assert counted[..i + 1][..i] == counted[..i];
        calls := calls + 1;
        match counted[i].usage {
          case None =>
          case Some(u) =>
            total := Usage(total.prompt + u.prompt, total.completion + u.completion,
                           total.cacheRead + u.cacheRead, total.cacheWrite + u.cacheWrite, total.cost + u.cost);
        }
      }
      assert counted[..|counted|] == counted;
    }
  }

  datatype Meter = Prompt | Completion | CacheRead | CacheWrite | Cost

  function Reading(u: Usage, m: Meter): real {
    match m
    case Prompt => u.prompt as real
    case Completion => u.completion as real
    case CacheRead => u.cacheRead as real
    case CacheWrite => u.cacheWrite as real
    case Cost => u.cost
  }

  /** The sum of one meter over the turns that report their usage. */
  function Metered(turns: seq<TurnRow>, m: Meter): real {
    if turns == [] then 0.0
    else (if turns[0].usage.Some? then Reading(turns[0].usage.value, m) else 0.0) + Metered(turns[1..], m)
  }

  lemma {:induction false} MeteredMore(turns: seq<TurnRow>, row: TurnRow, m: Meter)
    ensures Metered(turns + [row], m) == Metered(turns, m) + if row.usage.Some? then Reading(row.usage.value, m) else 0.0
    decreases |turns|
  {
    hide Reading;
    var all := turns + [row];
    if turns == [] {
      assert all[1..] == [];
    } else {
      assert all[1..] == turns[1..] + [row];
      MeteredMore(turns[1..], row, m);
    }
  }

  /** Every total is the sum of its own meter. */
  lemma {:induction false} TotalsAreSums(turns: seq<TurnRow>, m: Meter)
    ensures Reading(Spent(turns), m) == Metered(turns, m)
    decreases |turns|
  {
    if turns != [] {
      var init, row := turns[..|turns| - 1], turns[|turns| - 1];
      TotalsAreSums(init, m);
      MeteredMore(init, row, m);
      assert turns == init + [row];
    }
  }

  ghost function Spent(turns: seq<TurnRow>): Usage {
    if turns == [] then Usage(0, 0, 0, 0, 0.0)
    else
      var t := Spent(turns[..|turns| - 1]);
      match turns[|turns| - 1].usage
      case None => t
      case Some(u) => Usage(t.prompt + u.prompt, t.completion + u.completion,
                            t.cacheRead + u.cacheRead, t.cacheWrite + u.cacheWrite, t.cost + u.cost)
  }

  // ----- whole sessions -------------------------------------------------------------------

  datatype Call = Call(op: Op, live: Answer)

  ghost predicate Plausible(calls: seq<Call>) {
    forall c :: c in calls ==> Fits(c.op, c.live)
  }

  ghost function RecordAll(d: Data, calls: seq<Call>, sha: string -> string): Data
    requires Plausible(calls)
    decreases |calls|
  {
    if calls == [] then d
    else RecordAll(Recorded(d, calls[0].op, calls[0].live, sha), Tail(calls), sha)
  }

  ghost function ReplayAll(d: Data, calls: seq<Call>, sha: string -> string): (Data, seq<Answer>)
    decreases |calls|
  {
    if calls == [] then (d, [])
    else
      var (d1, a) := Replayed(d, calls[0].op, sha);
      var (d2, rest) := ReplayAll(d1, calls[1..], sha);
      (d2, [a] + rest)
  }

  ghost function Tail(calls: seq<Call>): (t: seq<Call>)
    requires calls != [] && Plausible(calls)
    ensures t == calls[1..] && Plausible(t)
    ensures Fits(calls[0].op, calls[0].live)
  {
    assert calls[0] in calls;
    assert forall c :: c in calls[1..] ==> c in calls;
    calls[1..]
  }

  /** The rows of a tape, without the replay counters. */
  ghost predicate SameTape(a: Data, b: Data) {
    a.fetches == b.fetches && a.searches == b.searches && a.replies == b.replies && a.turns == b.turns
  }

  /** A replay that stands where the recording stood after `done`: it holds the whole
      tape and has used up exactly the rows recorded so far. */
  ghost predicate InStep(done: Data, full: Data, r: Data) {
    && SameTape(full, r)
    && done.fetches <= full.fetches && done.searches <= full.searches
    && done.replies <= full.replies && done.turns <= full.turns
    && (forall k :: Count(r.fetchSeen, k) == |FetchRows(done.fetches, k)|)
    && (forall q :: Count(r.searchSeen, q) == |SearchRows(done.searches, q)|)
    && r.modelI == |done.replies| && r.researchI == |done.turns| && r.drift == 0
  }

  lemma {:induction false} FetchRowsAppend(a: seq<FetchRow>, b: seq<FetchRow>, k: string)
    ensures FetchRows(a + b, k) == FetchRows(a, k) + FetchRows(b, k)
    decreases |a|
  {
    if a == [] {
      assert a + b == b;
    } else {
      assert (a + b)[1..] == a[1..] + b;
      FetchRowsAppend(a[1..], b, k);
      var first := if a[0].key == k then [a[0]] else [];
      assert FetchRows(a, k) == first + FetchRows(a[1..], k);
      assert first + (FetchRows(a[1..], k) + FetchRows(b, k)) == first + FetchRows(a[1..], k) + FetchRows(b, k);
    }
  }

  lemma {:induction false} SearchRowsAppend(a: seq<SearchRow>, b: seq<SearchRow>, q: string)
    ensures SearchRows(a + b, q) == SearchRows(a, q) + SearchRows(b, q)
    decreases |a|
  {
    if a == [] {
      assert a + b == b;
    } else {
      assert (a + b)[1..] == a[1..] + b;
      SearchRowsAppend(a[1..], b, q);
      var first := if a[0].query == q then [a[0]] else [];
      assert SearchRows(a, q) == first + SearchRows(a[1..], q);
      assert first + (SearchRows(a[1..], q) + SearchRows(b, q)) == first + SearchRows(a[1..], q) + SearchRows(b, q);
    }
  }

  /** Rows once recorded stay where they are. */
  lemma {:induction false} TapeGrows(d: Data, calls: seq<Call>, sha: string -> string)
    requires Plausible(calls)
    ensures var full := RecordAll(d, calls, sha);
            && d.fetches <= full.fetches && d.searches <= full.searches
            && d.replies <= full.replies && d.turns <= full.turns
    decreases |calls|
  {
    if calls != [] {
      var rest := Tail(calls);
      TapeGrows(Recorded(d, calls[0].op, calls[0].live, sha), rest, sha);
    }
  }

  lemma FetchInStep(done: Data, full: Data, r: Data, key: string, live: Answer, sha: string -> string)
    requires InStep(done, full, r) && Fits(Fetch(key), live)
    requires Recorded(done, Fetch(key), live, sha).fetches <= full.fetches
    ensures var (r', a) := Replayed(r, Fetch(key), sha);
            a == Owed(live) && InStep(Recorded(done, Fetch(key), live, sha), full, r')
  {
    hide KeptFetch, KeptSearch, Served;
    var row := FetchRow(key, KeptFetch(live));
    var next := done.fetches + [row];
    var rest := full.fetches[|next|..];
    assert full.fetches == next + rest;
    assert [row][1..] == [];
    forall k ensures FetchRows(next, k) == FetchRows(done.fetches, k) + (if k == key then [row] else []) {
      FetchRowsAppend(done.fetches, [row], k);
    }
    FetchRowsAppend(next, rest, key);
  }

  lemma SearchInStep(done: Data, full: Data, r: Data, query: string, live: Answer, sha: string -> string)
    requires InStep(done, full, r) && Fits(Search(query), live)
    requires Recorded(done, Search(query), live, sha).searches <= full.searches
    ensures var (r', a) := Replayed(r, Search(query), sha);
            a == Owed(live) && InStep(Recorded(done, Search(query), live, sha), full, r')
  {
    hide KeptFetch, KeptSearch, Served;
    var row := SearchRow(query, KeptSearch(live));
    var next := done.searches + [row];
    var rest := full.searches[|next|..];
    assert full.searches == next + rest;
    assert [row][1..] == [];
    forall q ensures SearchRows(next, q) == SearchRows(done.searches, q) + (if q == query then [row] else []) {
      SearchRowsAppend(done.searches, [row], q);
    }
    SearchRowsAppend(next, rest, query);
  }

  lemma CallInStep(done: Data, full: Data, r: Data, op: Op, live: Answer, sha: string -> string)
    requires InStep(done, full, r) && Fits(op, live) && !live.CallRaised? && (op.Model? || op.Research?)
    requires var next := Recorded(done, op, live, sha); next.replies <= full.replies && next.turns <= full.turns
    ensures var (r', a) := Replayed(r, op, sha);
            a == Owed(live) && InStep(Recorded(done, op, live, sha), full, r')
  {
    hide FetchRows, SearchRows, Count;
    var next := Recorded(done, op, live, sha);
    if op.Model? {
      assert full.replies[|done.replies|] == next.replies[|done.replies|];
    } else {
      assert full.turns[|done.turns|] == next.turns[|done.turns|];
    }
  }

  ghost predicate NothingRaised(calls: seq<Call>) {
    forall c :: c in calls ==> !c.live.CallRaised?
  }

  lemma {:induction false} ReplayFollows(done: Data, calls: seq<Call>, r: Data, sha: string -> string)
    requires Plausible(calls) && NothingRaised(calls)
    requires InStep(done, RecordAll(done, calls, sha), r)
    ensures var full := RecordAll(done, calls, sha);
            var (end, answers) := ReplayAll(r, calls, sha);
            && InStep(full, full, end)
            && |answers| == |calls|
            && forall i :: 0 <= i < |calls| ==> answers[i] == Owed(calls[i].live)
    decreases |calls|
  {
    hide Recorded, Replayed, Owed, SameTape, Fits;
    if calls != [] {
      var full := RecordAll(done, calls, sha);
      var rest := Tail(calls);
      var op, live := calls[0].op, calls[0].live;
      assert calls[0] in calls && forall c :: c in rest ==> c in calls;
      var next := Recorded(done, op, live, sha);
      TapeGrows(next, rest, sha);
      match op {
        case Fetch(key) => FetchInStep(done, full, r, key, live, sha);
        case Search(query) => SearchInStep(done, full, r, query, live, sha);
        case Model(_) => CallInStep(done, full, r, op, live, sha);
        case Research(_) => CallInStep(done, full, r, op, live, sha);
      }
      var (r', a) := Replayed(r, op, sha);
      ReplayFollows(next, rest, r', sha);
    }
  }

  /** Record then replay is the identity: the same interleaved calls get their recorded answers
      and failures back, with no drift, and the research totals after the replay are the
      recorded ones. */
  lemma {:induction false} ReplayIsIdentity(calls: seq<Call>, sha: string -> string)
    requires Plausible(calls) && NothingRaised(calls)
    ensures var tape := RecordAll(Empty, calls, sha);
            var (end, answers) := ReplayAll(tape, calls, sha);
            && |answers| == |calls|
            && (forall i :: 0 <= i < |calls| ==> ComesBack(calls[i].live, answers[i]))
            && end.drift == 0
            && end.researchI <= |end.turns| && end.turns[..end.researchI] == tape.turns
  {
    hide ComesBack, Owed;
    CountersUntouched(Empty, calls, sha);
    TapeGrows(Empty, calls, sha);
    ReplayFollows(Empty, calls, RecordAll(Empty, calls, sha), sha);
    AllComeBack(calls, ReplayAll(RecordAll(Empty, calls, sha), calls, sha).1);
  }

  lemma AllComeBack(calls: seq<Call>, answers: seq<Answer>)
    requires |answers| == |calls|
    ensures (forall i :: 0 <= i < |calls| ==> ComesBack(calls[i].live, answers[i]))
            <==> forall i :: 0 <= i < |calls| ==> answers[i] == Owed(calls[i].live)
  {
    hide ComesBack, Owed;
    forall i | 0 <= i < |calls| ensures ComesBack(calls[i].live, answers[i]) <==> answers[i] == Owed(calls[i].live) {
      ComesBackIff(calls[i].live, answers[i]);
    }
  }

  lemma {:induction false} CountersUntouched(d: Data, calls: seq<Call>, sha: string -> string)
    requires Plausible(calls)
    ensures var t := RecordAll(d, calls, sha);
            && t.fetchSeen == d.fetchSeen && t.searchSeen == d.searchSeen
            && t.modelI == d.modelI && t.researchI == d.researchI && t.drift == d.drift
    decreases |calls|
  {
    if calls != [] {
      CountersUntouched(Recorded(d, calls[0].op, calls[0].live, sha), Tail(calls), sha);
    }
  }

  /** The identity needs its hypothesis: a model or research call that raised leaves no
      row, and no replay ever raises in its place.  So a replay gives every answer back
      iff no such call raised. */
  lemma {:induction false} ReplayIsIdentityExactly(calls: seq<Call>, sha: string -> string)
    requires Plausible(calls)
    ensures var (_, answers) := ReplayAll(RecordAll(Empty, calls, sha), calls, sha);
            && |answers| == |calls|
            && ((forall i :: 0 <= i < |calls| ==> ComesBack(calls[i].live, answers[i])) <==> NothingRaised(calls))
  {
    hide ComesBack;
    var tape := RecordAll(Empty, calls, sha);
    ReplayNeverRaises(tape, calls, sha);
    var (_, answers) := ReplayAll(tape, calls, sha);
    AllComeBack(calls, answers);
    if NothingRaised(calls) {
      ReplayIsIdentity(calls, sha);
      assert forall i :: 0 <= i < |calls| ==> ComesBack(calls[i].live, answers[i]);
    } else {
      var c :| c in calls && c.live.CallRaised?;
      var i :| 0 <= i < |calls| && calls[i] == c;
      assert answers[i] != CallRaised && Owed(calls[i].live) == CallRaised;
    }
  }

  ghost predicate RowsAreAnswers(d: Data) {
    && (forall row :: row in d.fetches ==> row.answer.Fetched? || row.answer.FetchRaised?)
    && (forall row :: row in d.searches ==> row.answer.Found? || row.answer.SearchRaised?)
  }

  lemma {:induction false} RecordKeepsAnswers(d: Data, calls: seq<Call>, sha: string -> string)
    requires Plausible(calls) && RowsAreAnswers(d)
    ensures RowsAreAnswers(RecordAll(d, calls, sha))
    decreases |calls|
  {
    if calls != [] {
      RecordKeepsAnswers(Recorded(d, calls[0].op, calls[0].live, sha), Tail(calls), sha);
    }
  }

  lemma {:induction false} RowsOfKey(rows: seq<FetchRow>, k: string)
    ensures forall row :: row in FetchRows(rows, k) <==> row in rows && row.key == k
    decreases |rows|
  {
    if rows != [] { RowsOfKey(rows[1..], k); }
  }

  lemma {:induction false} RowsOfQuery(rows: seq<SearchRow>, q: string)
    ensures forall row :: row in SearchRows(rows, q) <==> row in rows && row.query == q
    decreases |rows|
  {
    if rows != [] { RowsOfQuery(rows[1..], q); }
  }

  lemma ReplayNeverRaises(tape: Data, calls: seq<Call>, sha: string -> string)
    requires Plausible(calls) && tape == RecordAll(Empty, calls, sha)
    ensures var answers := ReplayAll(tape, calls, sha).1;
            |answers| == |calls| && forall i :: 0 <= i < |calls| ==> answers[i] != CallRaised
  {
    RecordKeepsAnswers(Empty, calls, sha);
    ServesRows(tape, calls, sha);
  }

  lemma {:induction false} ServesRows(d: Data, calls: seq<Call>, sha: string -> string)
    requires RowsAreAnswers(d)
    ensures var answers := ReplayAll(d, calls, sha).1;
            |answers| == |calls| && forall i :: 0 <= i < |calls| ==> answers[i] != CallRaised
    decreases |calls|
  {
    if calls != [] {
      match calls[0].op {
        case Fetch(key) => RowsOfKey(d.fetches, key);
        case Search(query) => RowsOfQuery(d.searches, query);
        case _ =>
      }
      ServesRows(Replayed(d, calls[0].op, sha).0, calls[1..], sha);
    }
  }

  // ----- drift -------------------------------------------------------------------------------

  /** How many of the first `n` calls ask the model itself (or else a researcher). */
  function CallsBefore(calls: seq<Call>, n: nat, model: bool): nat
    requires n <= |calls|
  {
    if n == 0 then 0
    else CallsBefore(calls, n - 1, model) + if (if model then calls[n - 1].op.Model? else calls[n - 1].op.Research?) then 1 else 0
  }

  /** The row such a call is served, after so many model and research calls, was recorded for
      another prompt. */
  ghost predicate Strays(d: Data, op: Op, models: nat, turns: nat, sha: string -> string) {
    match op
    case Model(prompt) =>
      var k := d.modelI + models;
      k < |d.replies| && d.replies[k].sha != "" && d.replies[k].sha != sha(prompt)
    case Research(messages) =>
      var k := d.researchI + turns;
      k < |d.turns| && d.turns[k].sha != "" && d.turns[k].sha != sha(messages)
    case _ => false
  }

  ghost predicate Differs(d: Data, calls: seq<Call>, sha: string -> string, i: nat) {
    i < |calls| && Strays(d, calls[i].op, CallsBefore(calls, i, true), CallsBefore(calls, i, false), sha)
  }

  ghost function Differing(d: Data, calls: seq<Call>, sha: string -> string): set<nat> {
    set i: nat | i < |calls| && Differs(d, calls, sha, i)
  }

  lemma {:induction false} OneReplayMore(d: Data, calls: seq<Call>, c: Call, sha: string -> string)
    ensures ReplayAll(d, calls + [c], sha).0 == Replayed(ReplayAll(d, calls, sha).0, c.op, sha).0
    decreases |calls|
  {
    hide Replayed;
    var all := calls + [c];
    if calls == [] {
      assert all[1..] == [];
    } else {
      assert all[1..] == calls[1..] + [c];
      OneReplayMore(Replayed(d, calls[0].op, sha).0, calls[1..], c, sha);
    }
  }

  lemma {:induction false} SameCallsBefore(calls: seq<Call>, c: Call, n: nat, model: bool)
    requires n <= |calls|
    ensures CallsBefore(calls + [c], n, model) == CallsBefore(calls, n, model)
    decreases n
  {
    if n > 0 { SameCallsBefore(calls, c, n - 1, model); }
  }

  lemma DifferingMore(d: Data, calls: seq<Call>, c: Call, sha: string -> string)
    ensures Differing(d, calls + [c], sha) == Differing(d, calls, sha) + if Differs(d, calls + [c], sha, |calls|) then {|calls|} else {}
  {
    var all := calls + [c];
    hide Strays, CallsBefore;
    forall i: nat | i < |calls| ensures Differs(d, all, sha, i) == Differs(d, calls, sha, i) {
      SameCallsBefore(calls, c, i, true);
      SameCallsBefore(calls, c, i, false);
    }
  }

  lemma DriftStep(d: Data, e: Data, op: Op, models: nat, turns: nat, sha: string -> string)
    requires e.replies == d.replies && e.turns == d.turns
    requires e.modelI == Min(|d.replies|, d.modelI + models) && e.researchI == Min(|d.turns|, d.researchI + turns)
    ensures var r := Replayed(e, op, sha).0;
            && r.drift == e.drift + (if Strays(d, op, models, turns, sha) then 1 else 0) && r.replies == d.replies && r.turns == d.turns
            && r.modelI == Min(|d.replies|, d.modelI + models + if op.Model? then 1 else 0)
            && r.researchI == Min(|d.turns|, d.researchI + turns + if op.Research? then 1 else 0)
  {
    hide FetchRows, SearchRows, Served, Count;
  }

  lemma LastBefore(calls: seq<Call>, model: bool)
    requires calls != []
    ensures var op := calls[|calls| - 1].op;
            CallsBefore(calls, |calls|, model)
            == CallsBefore(calls, |calls| - 1, model) + if (if model then op.Model? else op.Research?) then 1 else 0
  {
  }

  /** A replay counts as drift exactly the model and research calls whose row was recorded for
      another prompt. */
  lemma {:induction false} DriftIsDifference(d: Data, calls: seq<Call>, sha: string -> string)
    requires d.modelI <= |d.replies| && d.researchI <= |d.turns|
    ensures var end := ReplayAll(d, calls, sha).0;
            && end.drift == d.drift + |Differing(d, calls, sha)| && end.replies == d.replies && end.turns == d.turns
            && end.modelI == Min(|d.replies|, d.modelI + CallsBefore(calls, |calls|, true))
            && end.researchI == Min(|d.turns|, d.researchI + CallsBefore(calls, |calls|, false))
    decreases |calls|
  {
    hide ReplayAll, Differing, Replayed, CallsBefore, Strays;
    if calls == [] {
      NothingDiffers(d, sha);
    } else {
      var n := |calls| - 1;
      var before, c := calls[..n], calls[n];
      assert calls == before + [c];
      DriftIsDifference(d, before, sha);
      OneReplayMore(d, before, c, sha);
      DifferingMore(d, before, c, sha);
      SameCallsBefore(before, c, n, true);
      SameCallsBefore(before, c, n, false);
      LastBefore(calls, true);
      LastBefore(calls, false);
      DriftStep(d, ReplayAll(d, before, sha).0, c.op, CallsBefore(calls, n, true), CallsBefore(calls, n, false), sha);
      DifferingBelow(d, before, sha);
    }
  }

  lemma NothingDiffers(d: Data, sha: string -> string)
    ensures ReplayAll(d, [], sha).0 == d && Differing(d, [], sha) == {} && CallsBefore([], 0, true) == CallsBefore([], 0, false) == 0
  {
  }

  lemma DifferingBelow(d: Data, calls: seq<Call>, sha: string -> string)
    ensures |calls| !in Differing(d, calls, sha)
  {
  }

  ghost function Asked(key: string, n: nat): seq<Call> {
    if n == 0 then [] else [Call(Fetch(key), Miss)] + Asked(key, n - 1)
  }

  /** The answer to the n-th time a key is asked for. */
  ghost function RowServed(rows: seq<FetchRow>, n: nat): Answer
    requires rows != []
  {
    Served(rows[Min(n, |rows| - 1)].answer)
  }

  /** However often one key is asked for in a row, the answers are its recorded rows in
      order, and past the last row that last row again and again. */
  lemma {:induction false} RepeatsServeTheLast(d: Data, key: string, n: nat, sha: string -> string)
    requires FetchRows(d.fetches, key) != []
    ensures var answers := ReplayAll(d, Asked(key, n), sha).1;
            |answers| == n && forall i :: 0 <= i < n ==>
              answers[i] == RowServed(FetchRows(d.fetches, key), Count(d.fetchSeen, key) + i)
    decreases n
  {
    hide FetchRows, Served;
    if n > 0 {
      var (d', a) := Replayed(d, Fetch(key), sha);
      var calls := Asked(key, n);
      assert calls[0] == Call(Fetch(key), Miss) && calls[1..] == Asked(key, n - 1);
      RepeatsServeTheLast(d', key, n - 1, sha);
      var rest := ReplayAll(d', Asked(key, n - 1), sha).1;
      assert ReplayAll(d, calls, sha).1 == [a] + rest;
      assert Count(d'.fetchSeen, key) == Count(d.fetchSeen, key) + 1 && d'.fetches == d.fetches;
      forall i | 1 <= i < n
        ensures ([a] + rest)[i] == RowServed(FetchRows(d.fetches, key), Count(d.fetchSeen, key) + i)
      {
        assert ([a] + rest)[i] == rest[i - 1];
      }
    }
  }
}

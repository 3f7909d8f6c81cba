/** What the Claude CLI is shown (app/smartbrain_3000/claudecli.py: _flatten, _flatten_delta,
    chat_stream): how each message is written, which messages a prompt holds, and what a whole
    turn delivers, read off the prompts themselves. */
module Prompts {
  import opened Prelude
  import opened Transcript
  import opened Conversation
  import opened TurnSession

  // ----- which messages ---------------------------------------------------------------------------

  ghost predicate NewAt(ms: seq<Msg>, a: nat, b: nat, i: nat) {
    a <= i < b && i < |ms| && (ms[i].role == User || ms[i].role == Tool)
  }

  /** The user and tool messages of a range, each once and in order. */
  lemma {:induction false} SentInTells(ms: seq<Msg>, a: nat, b: nat)
    requires a <= b <= |ms|
    ensures Rising(SentIn(ms, a, b)) && forall i: nat :: i in SentIn(ms, a, b) <==> NewAt(ms, a, b, i)
    decreases b
  {
    if a < b {
      hide SentIn, NewAt, Rising, Sent;
      SentInTells(ms, a, b - 1);
      SentInNext(ms, a, b);
      forall i: nat ensures NewAt(ms, a, b, i) <==> NewAt(ms, a, b - 1, i) || (i == b - 1 && Sent(ms[b - 1])) {
        NewAtNext(ms, a, b, i);
      }
      OneMoreAt(SentIn(ms, a, b - 1), SentIn(ms, a, b), b - 1, Sent(ms[b - 1]));
    }
  }

  /** Appending a position, or not. */
  lemma OneMoreAt(before: seq<nat>, after: seq<nat>, n: nat, more: bool)
    requires Rising(before) && (forall i :: 0 <= i < |before| ==> before[i] < n) && after == if more then before + [n] else before
    ensures Rising(after) && forall i: nat :: i in after <==> i in before || (more && i == n)
  {
  }

  lemma SentInNext(ms: seq<Msg>, a: nat, b: nat)
    requires a < b <= |ms|
    ensures SentIn(ms, a, b) == if Sent(ms[b - 1]) then SentIn(ms, a, b - 1) + [b - 1] else SentIn(ms, a, b - 1)
  {
  }

  lemma NewAtNext(ms: seq<Msg>, a: nat, b: nat, i: nat)
    requires a < b <= |ms|
    ensures NewAt(ms, a, b, i) <==> NewAt(ms, a, b - 1, i) || (i == b - 1 && Sent(ms[b - 1]))
  {
  }

  ghost predicate Speaks(ms: seq<Msg>, n: nat, i: nat) {
    i < n && i < |ms| && ms[i].role != System
  }

  lemma {:induction false} NotSystemTells(ms: seq<Msg>, n: nat)
    requires n <= |ms|
    ensures Rising(NotSystem(ms, n)) && forall i: nat :: i in NotSystem(ms, n) <==> Speaks(ms, n, i)
    decreases n
  {
    if n > 0 {
      NotSystemTells(ms, n - 1);
      assert forall i: nat :: Speaks(ms, n, i) <==> Speaks(ms, n - 1, i) || (i == n - 1 && Speaks(ms, n, n - 1));
      if Speaks(ms, n, n - 1) {
        RisingMore(NotSystem(ms, n - 1), n - 1);
      }
    }
  }

  /** The list is the newest 500 of the messages that are not system among the first 2000. */
  ghost predicate CarriesRecent(ms: seq<Msg>, at: seq<nat>) {
    && Rising(at) && |at| <= MAX_MESSAGES && (forall i: nat :: i in at ==> Speaks(ms, MAX_SCAN, i))
    && forall i: nat :: Speaks(ms, MAX_SCAN, i) && i !in at ==> |at| == MAX_MESSAGES && i < at[0]
  }

  lemma KeptTells(ms: seq<Msg>)
    ensures CarriesRecent(ms, Kept(ms))
  {
    hide NotSystem;
    var n := |Take(ms, MAX_SCAN)|;
    var all, at := NotSystem(ms, n), Kept(ms);
    NotSystemTells(ms, n);
    assert forall i: nat :: Speaks(ms, MAX_SCAN, i) <==> Speaks(ms, n, i);
    var from := |all| - |at|;
    assert forall k :: 0 <= k < |at| ==> at[k] == all[from + k];
    forall i: nat | i in at ensures i in all {
      var k :| 0 <= k < |at| && at[k] == i;
      assert all[from + k] == i;
    }
    forall i: nat | i in all ensures i in at || (|at| == MAX_MESSAGES && i < at[0]) {
      var k :| 0 <= k < |all| && all[k] == i;
      if k >= from { assert at[k - from] == i; }
    }
  }

  /** The list is the user and tool messages among the first 500 that the session has not seen. */
  ghost predicate CarriesNew(ms: seq<Msg>, sent: nat, at: seq<nat>) {
    Rising(at) && forall i: nat :: i in at <==> NewAt(ms, sent, sent + MAX_MESSAGES, i)
  }

  lemma DeltaTells(ms: seq<Msg>, sent: nat)
    requires sent <= |ms|
    ensures CarriesNew(ms, sent, Delta(ms, sent))
  {
    hide SentIn;
    var b := sent + |Take(ms[sent..], MAX_MESSAGES)|;
    SentInTells(ms, sent, b);
    assert forall i: nat :: NewAt(ms, sent, b, i) <==> NewAt(ms, sent, sent + MAX_MESSAGES, i);
  }

  // ----- how a message is written ---------------------------------------------------------------

  /** `u` is the text with heading lines quoted: nothing else is changed, no line of it opens
      with a heading, and a text without headings stays as it is. */
  ghost predicate Quotes(ch: Chars, t: Text, u: Text) {
    OnlyQuotes(t, u) && Inert(ch, u, true) && (Inert(ch, t, true) ==> u == t)
  }

  lemma NeutralizeQuotes(ch: Chars, t: Text)
    requires ch.Valid()
    ensures Quotes(ch, t, Neutralize(ch, t, true))
  {
    NeutralizeOnlyQuotes(ch, t, true);
    NeutralizedIsInert(ch, t, true);
    UnchangedIffInert(ch, t, true);
  }

  /** The `i`-th call stands between two marks, fenced and on lines of its own. */
  ghost predicate CallAt(body: Text, calls: seq<Text>, at: seq<nat>, i: nat)
    requires i < |calls| && |at| == |calls| + 1
  {
    at[i] <= at[i + 1] <= |body|
    && body[at[i]..at[i + 1]] == (if at[i] == 0 then "" else "\n") + "```json\n" + calls[i] + "\n```"
  }

  ghost predicate CallsAt(body: Text, calls: seq<Text>, at: seq<nat>) {
    |at| == |calls| + 1 && at[|calls|] == |body| && forall i: nat :: i < |calls| ==> CallAt(body, calls, at, i)
  }

  lemma {:induction false} WithCallsTells(body: Text, calls: seq<Text>) returns (at: seq<nat>)
    ensures CallsAt(WithCalls(body, calls), calls, at) && at[0] == |body| && body <= WithCalls(body, calls)
    decreases |calls|
  {
    if calls == [] {
      at := [|body|];
    } else {
      var next := (if body != [] then body + "\n" else []) + Fenced(calls[0]);
      var rest := WithCallsTells(next, calls[1..]);
      at := [|body|] + rest;
      var whole := WithCalls(body, calls);
      FirstCall(body, calls, next, rest, whole);
      hide CallAt, WithCalls, Fenced;
      forall i: nat | 0 < i < |calls| ensures CallAt(whole, calls, at, i) {
        CallLater(whole, calls, rest, |body|, i);
      }
    }
  }

  lemma FirstCall(body: Text, calls: seq<Text>, next: Text, rest: seq<nat>, whole: Text)
    requires calls != [] && next == (if body != [] then body + "\n" else []) + Fenced(calls[0])
    requires |rest| == |calls| && rest[0] == |next| && next <= whole
    ensures CallAt(whole, calls, [|body|] + rest, 0) && body <= whole
  {
    assert whole[..|next|] == next;
    assert whole[|body|..|next|] == next[|body|..];
  }

  lemma CallLater(body: Text, calls: seq<Text>, rest: seq<nat>, from: nat, i: nat)
    requires 0 < i < |calls| && |rest| == |calls| && CallAt(body, calls[1..], rest, i - 1)
    ensures CallAt(body, calls, [from] + rest, i)
  {
    var at := [from] + rest;
    assert at[i] == rest[i - 1] && at[i + 1] == rest[i] && calls[i] == calls[1..][i - 1];
  }

  /** The body of an assistant turn: the quoted content, then the first sixteen calls. */
  ghost predicate AssistantBody(ch: Chars, m: Msg, body: Text, calls: seq<Text>, at: seq<nat>) {
    && calls <= m.calls && |calls| == Min(|m.calls|, 16)
    && CallsAt(body, calls, at) && at[0] <= |body| && Quotes(ch, m.content, body[..at[0]])
  }

  /** The turn says what the message says. */
  ghost predicate TellsOf(ch: Chars, m: Msg, t: Turn) {
    && t.role == m.role
    && if m.role == Assistant then exists calls, at :: AssistantBody(ch, m, t.body, calls, at)
       else Quotes(ch, m.content, t.body)
  }

  lemma TurnTells(ch: Chars, m: Msg)
    requires ch.Valid() && m.role != System
    ensures TellsOf(ch, m, TurnOf(ch, m))
  {
    hide WithCalls, Neutralize, Inert, OnlyQuotes, CallsAt;
    NeutralizeQuotes(ch, m.content);
    if m.role == Assistant {
      var quoted, calls := Neutralize(ch, m.content, true), Take(m.calls, MAX_CALLS);
      var at := WithCallsTells(quoted, calls);
      assert Body(ch, m)[..|quoted|] == quoted;
      assert AssistantBody(ch, m, TurnOf(ch, m).body, calls, at);
    }
  }

  // ----- how the turns are laid out --------------------------------------------------------------

  /** The `i`-th turn stands between two marks, under the heading of its role. */
  ghost predicate TurnAt(text: Text, turns: seq<Turn>, at: seq<nat>, i: nat)
    requires i < |turns| && |at| == |turns| + 1
  {
    at[i] <= at[i + 1] <= |text|
    && text[at[i]..at[i + 1]]
       == (if i == 0 then "" else "\n\n") + Title(turns[i].role) + turns[i].body
  }

  function Title(r: Role): Text {
    if r == Assistant then "### Assistant\n" else if r == Tool then "### Tool result\n" else "### User\n"
  }

  lemma TitleIsHeading(r: Role)
    ensures Title(r) == Conversation.Heading(r)
  {
  }

  ghost predicate LaidAt(text: Text, turns: seq<Turn>, at: seq<nat>) {
    |at| == |turns| + 1 && at[0] == 0 && at[|turns|] == |text| && forall i: nat :: i < |turns| ==> TurnAt(text, turns, at, i)
  }

  lemma {:induction false} JoinTells(turns: seq<Turn>) returns (at: seq<nat>)
    ensures LaidAt(Join(turns), turns, at)
    decreases |turns|
  {
    if |turns| <= 1 {
      at := FewLaid(turns);
    } else {
      hide TurnAt, Join;
      var init, t := turns[..|turns| - 1], turns[|turns| - 1];
      var before := JoinTells(init);
      assert turns == init + [t];
      JoinMore(init, t);
      at := before + [|Join(turns)|];
      LaidMore(Join(init), init, before, t, Join(turns));
    }
  }

  lemma FewLaid(turns: seq<Turn>) returns (at: seq<nat>)
    requires |turns| <= 1
    ensures LaidAt(Join(turns), turns, at)
  {
    if turns == [] {
      at := [0];
    } else {
      hide Title, Conversation.Heading;
      TitleIsHeading(turns[0].role);
      at := [0, |Join(turns)|];
      assert Join(turns)[0..|Join(turns)|] == Join(turns);
    }
  }

  lemma {:induction false} JoinMore(turns: seq<Turn>, t: Turn)
    requires turns != []
    ensures Join(turns + [t]) == Join(turns) + "\n\n" + Conversation.Heading(t.role) + t.body
    decreases |turns|
  {
    hide Conversation.Heading;
    var all := turns + [t];
    JoinSplits(all);
    assert all[1..] == turns[1..] + [t];
    if |turns| == 1 {
      assert all[1..] == [t];
    } else {
      JoinMore(turns[1..], t);
      JoinSplits(turns);
    }
  }

  lemma LaidMore(text: Text, turns: seq<Turn>, at: seq<nat>, t: Turn, more: Text)
    requires turns != [] && LaidAt(text, turns, at) && more == text + "\n\n" + Conversation.Heading(t.role) + t.body
    ensures LaidAt(more, turns + [t], at + [|more|])
  {
    hide Conversation.Heading, TurnAt;
    var all, cuts := turns + [t], at + [|more|];
    LastTurn(text, turns, at, t, more);
    forall i: nat | i < |turns| ensures TurnAt(more, all, cuts, i) {
      SameTurn(text, turns, at, t, more, i);
    }
  }

  lemma SameTurn(text: Text, turns: seq<Turn>, at: seq<nat>, t: Turn, more: Text, i: nat)
    requires |at| == |turns| + 1 && i < |turns| && TurnAt(text, turns, at, i) && text <= more
    ensures TurnAt(more, turns + [t], at + [|more|], i)
  {
    var all, cuts := turns + [t], at + [|more|];
    assert cuts[i] == at[i] && cuts[i + 1] == at[i + 1] && all[i] == turns[i];
    assert more[at[i]..at[i + 1]] == text[at[i]..at[i + 1]];
  }

  lemma LastTurn(text: Text, turns: seq<Turn>, at: seq<nat>, t: Turn, more: Text)
    requires turns != [] && |at| == |turns| + 1 && at[|turns|] == |text| && more == text + "\n\n" + Conversation.Heading(t.role) + t.body
    ensures TurnAt(more, turns + [t], at + [|more|], |turns|) && text <= more
  {
    hide Title, Conversation.Heading;
    TitleIsHeading(t.role);
    var all, cuts := turns + [t], at + [|more|];
    assert cuts[|turns|] == |text| && cuts[|turns| + 1] == |more| && all[|turns|] == t;
    assert more[|text|..|more|] == "\n\n" + Conversation.Heading(t.role) + t.body;
  }

  // ----- the preamble ----------------------------------------------------------------------------------

  ghost predicate SystemAt(ms: seq<Msg>, i: nat) {
    i < |ms| && i < MAX_SCAN && ms[i].role == System && ms[i].content != []
  }

  /** A system message stands between two marks, the next one behind a blank line; nothing else
      stands anywhere. */
  ghost predicate PartAt(text: Text, ms: seq<Msg>, at: seq<nat>, i: nat)
    requires i < |ms| && |at| == |ms| + 1
  {
    at[i] <= at[i + 1] <= |text|
    && text[at[i]..at[i + 1]] == if SystemAt(ms, i) then (if at[i] == 0 then "" else "\n\n") + ms[i].content else ""
  }

  ghost predicate PartsAt(text: Text, ms: seq<Msg>, at: seq<nat>) {
    |at| == |ms| + 1 && at[0] == 0 && at[|ms|] == |text| && forall i: nat :: i < |ms| ==> PartAt(text, ms, at, i)
  }

  /** What stands above the conversation. */
  ghost predicate PreambleOf(ms: seq<Msg>, closing: Text, tools: Text, text: Text) {
    exists parts, at :: PreambleAs(ms, closing, tools, text, parts, at)
  }

  ghost predicate PreambleAs(ms: seq<Msg>, closing: Text, tools: Text, text: Text, parts: Text, at: seq<nat>) {
    PartsAt(parts, ms, at) && text == "## System instructions\n" + parts + closing + tools + "\n\n## Conversation\n"
  }

  function PartOf(m: Msg): seq<Text> {
    if m.role.System? && m.content != [] then [m.content] else []
  }

  lemma {:induction false} PartsMore(ms: seq<Msg>, m: Msg)
    ensures SystemParts(ms + [m]) == SystemParts(ms) + PartOf(m)
    decreases |ms|
  {
    var all := ms + [m];
    if ms == [] {
      assert all[1..] == [];
    } else {
      PartsMore(ms[1..], m);
      assert all[1..] == ms[1..] + [m];
    }
  }

  lemma {:induction false} BlanksMore(parts: seq<Text>, p: Text)
    ensures Blanks(parts + [p]) == Blanks(parts) + (if parts == [] then [] else "\n\n") + p
    decreases |parts|
  {
    var all := parts + [p];
    if parts == [] {
      assert all == [p];
    } else {
      BlanksMore(parts[1..], p);
      assert all[1..] == parts[1..] + [p];
      assert Blanks(all) == parts[0] + "\n\n" + Blanks(all[1..]);
      var rest := if |parts| == 1 then [] else "\n\n" + Blanks(parts[1..]);
      assert Blanks(parts) == parts[0] + rest;
    }
  }

  lemma {:induction false} SomePartsShow(ms: seq<Msg>)
    ensures Blanks(SystemParts(ms)) == [] <==> SystemParts(ms) == []
    decreases |ms|
  {
    if ms != [] {
      var init := ms[..|ms| - 1];
      assert ms == init + [ms[|ms| - 1]];
      SomePartsShow(init);
      PartsMore(init, ms[|ms| - 1]);
      if PartOf(ms[|ms| - 1]) != [] {
        BlanksMore(SystemParts(init), ms[|ms| - 1].content);
      }
    }
  }

  /** The parts of the first `n` messages. */
  lemma {:induction false} PartsTell(ms: seq<Msg>, n: nat) returns (at: seq<nat>)
    requires n <= |ms| && n <= MAX_SCAN
    ensures |at| == n + 1 && at[0] == 0 && at[n] == |Blanks(SystemParts(ms[..n]))|
    ensures forall i: nat :: i < n ==> PartAt(Blanks(SystemParts(ms[..n])), ms[..n], at, i)
    decreases n
  {
    if n == 0 {
      assert ms[..0] == [];
      at := [0];
    } else {
      var before := PartsTell(ms, n - 1);
      var init, m := ms[..n - 1], ms[n - 1];
      assert ms[..n] == init + [m];
      PartsMore(init, m);
      SomePartsShow(init);
      if PartOf(m) != [] { BlanksMore(SystemParts(init), m.content); }
      assert SystemParts(init) + [] == SystemParts(init);
      var was, text := Blanks(SystemParts(init)), Blanks(SystemParts(ms[..n]));
      at := before + [|text|];
      LastPart(was, text, ms[..n], at);
      forall i: nat | i < n ensures PartAt(text, ms[..n], at, i) {
        if i < n - 1 {
          SamePart(was, text, init, ms[..n], before, at, i);
        }
      }
    }
  }

  lemma SamePart(was: Text, text: Text, ms: seq<Msg>, more: seq<Msg>, at: seq<nat>, at': seq<nat>, i: nat)
    requires was <= text && ms <= more && at <= at' && |at| == |ms| + 1 && |at'| == |more| + 1
    requires i < |ms| && PartAt(was, ms, at, i)
    ensures PartAt(text, more, at', i)
  {
    assert at'[i] == at[i] && at'[i + 1] == at[i + 1] && more[i] == ms[i];
    assert text[at[i]..at[i + 1]] == was[at[i]..at[i + 1]];
  }

  lemma LastPart(was: Text, text: Text, ms: seq<Msg>, at: seq<nat>)
    requires 0 < |ms| <= MAX_SCAN && |at| == |ms| + 1 && at[|ms| - 1] == |was| && at[|ms|] == |text|
    requires text == was + if PartOf(ms[|ms| - 1]) == [] then [] else (if was == [] then [] else "\n\n") + ms[|ms| - 1].content
    ensures PartAt(text, ms, at, |ms| - 1) && was <= text
  {
    assert text[|was|..] == text[|was|..|text|];
  }

  /** The preamble holds every system message among the first 2000, in order and unchanged, then
      the fixed closing and the tool protocol. */
  lemma PreambleHolds(ms: seq<Msg>, closing: Text, tools: Text)
    ensures PreambleOf(ms, closing, tools, Preamble(ms, closing, tools))
  {
    hide Blanks, SystemParts;
    var n := |Take(ms, MAX_SCAN)|;
    var text := Blanks(SystemParts(ms[..n]));
    var first := PartsTell(ms, n);
    var at := first + seq(|ms| - n, _ => |text|);
    forall i: nat | i < |ms| ensures PartAt(text, ms, at, i) {
      if i < n {
        assert PartAt(text, ms[..n], first, i);
      }
    }
    assert ms[..n] == Take(ms, MAX_SCAN);
    assert PreambleAs(ms, closing, tools, Preamble(ms, closing, tools), text, at);
  }
}

/** Rendering a message list for the Claude CLI and reading it back
    (app/smartbrain_3000/claudecli.py: _render_assistant, _flatten, _flatten_delta). */
module Conversation {
  import opened Prelude
  import opened Transcript

  /** Any role but these three reads as user input. */
  datatype Role = System | Assistant | Tool | User

  /** `calls` holds each tool call as one line of JSON. */
  datatype Msg = Msg(role: Role, content: Text, calls: seq<Text>)

  const MAX_MESSAGES: nat := 500
  const MAX_SCAN: nat := 2000
  const MAX_CALLS: nat := 16

  function Take<T>(s: seq<T>, n: nat): seq<T> {
    if |s| <= n then s else s[..n]
  }

  function Newest<T>(s: seq<T>, n: nat): seq<T> {
    if |s| <= n then s else s[|s| - n..]
  }

  /** What json.dumps returns for an object: one line that starts with a brace. */
  ghost predicate OneLineObject(call: Text) {
    call != [] && call[0] == '{' && '\n' !in call
  }

  ghost predicate GoodMsg(m: Msg) {
    forall i :: 0 <= i < |m.calls| ==> OneLineObject(m.calls[i])
  }

  // ----- one turn -----------------------------------------------------------------------------------

  function Fenced(call: Text): Text {
    "```json\n" + call + "\n```"
  }

  function WithCalls(body: Text, calls: seq<Text>): Text
    decreases |calls|
  {
    if calls == [] then body
    else WithCalls((if body != [] then body + "\n" else []) + Fenced(calls[0]), calls[1..])
  }

  function Body(ch: Chars, m: Msg): Text {
    var quoted := Neutralize(ch, m.content, true);
    if m.role.Assistant? then WithCalls(quoted, Take(m.calls, MAX_CALLS)) else quoted
  }

  method RenderAssistant(ch: Chars, m: Msg) returns (body: Text)
    requires m.role.Assistant?
    ensures body == Body(ch, m)
  {
    body := Neutralize(ch, m.content, true);
    var calls := Take(m.calls, MAX_CALLS);
    for i := 0 to |calls|
      invariant WithCalls(body, calls[i..]) == Body(ch, m)
    {
      assert calls[i..][1..] == calls[i + 1..];
      body := (if body != [] then body + "\n" else []) + Fenced(calls[i]);
    }
  }

  /** A turn of the transcript: what a heading line and the text below it say. */
  datatype Turn = Turn(role: Role, body: Text)

  function Heading(r: Role): Text {
    match r
    case Assistant => "### Assistant\n"
    case Tool => "### Tool result\n"
    case _ => "### User\n"
  }

  function TurnOf(ch: Chars, m: Msg): Turn {
    Turn(if m.role.System? then User else m.role, Body(ch, m))
  }

  function Join(turns: seq<Turn>): Text {
    if turns == [] then []
    else if |turns| == 1 then Heading(turns[0].role) + turns[0].body
    else Heading(turns[0].role) + turns[0].body + "\n\n" + Join(turns[1..])
  }

  // ----- reading a conversation back -----------------------------------------------------------

  function SentinelAt(t: Text): (r: Option<Role>)
    ensures r.Some? ==> Heading(r.value) <= t && !r.value.System?
  {
    if Heading(Assistant) <= t then Some(Assistant)
    else if Heading(Tool) <= t then Some(Tool)
    else if Heading(User) <= t then Some(User)
    else None
  }

  /** How far the next line that is a sentinel heading is. */
  function NextSentinel(t: Text, lineStart: bool): (n: nat)
    ensures n <= |t|
    decreases |t|
  {
    if t == [] || (lineStart && SentinelAt(t).Some?) then 0 else 1 + NextSentinel(t[1..], t[0] == '\n')
  }

  /** Splits at sentinel lines; the two newlines in front of one belong to no turn. */
  function ParseTurns(t: Text): Option<seq<Turn>>
    decreases |t|
  {
    if t == [] then Some([])
    else
      match SentinelAt(t)
      case None => None
      case Some(role) =>
        HeadingNonempty(role);
        var rest := t[|Heading(role)|..];
        var n := NextSentinel(rest, true);
        if n == |rest| then Some([Turn(role, rest)])
        else if n < 2 || rest[n - 2..n] != "\n\n" then None
        else
          match ParseTurns(rest[n..])
          case None => None
          case Some(turns) => Some([Turn(role, rest[..n - 2])] + turns)
  }

  lemma HeadingNonempty(r: Role)
    ensures |Heading(r)| >= 9 && Heading(r)[0] == '#' && Heading(r)[|Heading(r)| - 1] == '\n'
    ensures forall i :: 0 <= i < |Heading(r)| - 1 ==> Heading(r)[i] != '\n'
  {
  }

  // ----- sentinel lines are headings ----------------------------------------------------------

  lemma SentinelsDiffer(a: Role, b: Role, t: Text)
    requires Heading(a) <= t && Heading(b) <= t && !a.System? && !b.System?
    ensures a == b
  {
    assert Heading(Assistant)[4] == 'A' && Heading(Tool)[4] == 'T' && Heading(User)[4] == 'U';
    assert t[4] == Heading(a)[4] == Heading(b)[4];
  }

  function KeywordOf(r: Role): Keyword {
    match r case Assistant => KAssistant case Tool => KTool case _ => KUser
  }

  /** `c` is the letter `l` in either case. */
  predicate EitherCase(c: char, l: char) {
    'a' <= l <= 'z' && (c == l || ('A' <= c <= 'Z' && (c as int + 32) as char == l))
  }

  lemma HeadingParts(r: Role)
    ensures var h, s := Heading(r), Spelling(KeywordOf(r));
            && |h| == |s| + 5 && h[0] == '#' && h[1] == '#' && h[2] == '#' && h[3] == ' '
            && forall i :: 0 <= i < |s| ==> if s[i] == ' ' then h[i + 4] == ' ' else EitherCase(h[i + 4], s[i])
  {
  }

  lemma {:induction false} SentinelSpells(ch: Chars, t: Text, r: Role)
    requires ch.Valid()
    requires var n := |Heading(r)| - 1; n <= |t| && t[..n] == Heading(r)[..n] && (n == |t| || t[n] == '\n')
    ensures |t| > 4 && Spells(ch, t[4..], KeywordOf(r))
  {
    hide Heading, Spelling;
    HeadingParts(r);
    SpellingIsLetters(KeywordOf(r));
    var h, s := Heading(r), Spelling(KeywordOf(r));
    var n := |h| - 1;
    assert forall i :: 0 <= i < n ==> t[i] == t[..n][i] == h[i];
    forall i | 0 <= i < |s| ensures if s[i] == ' ' then t[4..][i] == ' ' else ch.fold(t[4..][i]) == s[i] {
      assert t[4..][i] == h[i + 4];
    }
  }

  lemma SpelledEnds(ch: Chars, t: Text, k: Keyword)
    requires Spells(ch, t, k)
    ensures KeywordEnd(ch, t) == Some(|Spelling(k)|)
  {
    hide Spelling;
    SpellsOne(ch, t, k, KeywordAt(ch, t).value);
  }

  /** A heading line without its newline, at the end of a text or of a line, is what the
      pattern looks for. */
  lemma SentinelMatches(ch: Chars, t: Text, r: Role)
    requires ch.Valid()
    requires var n := |Heading(r)| - 1; n <= |t| && t[..n] == Heading(r)[..n] && (n == |t| || t[n] == '\n')
    ensures MatchHeading(ch, t).Heading?
  {
    hide KeywordEnd, SpaceRun, HashRun, Heading, Spelling, Spells;
    HeadingParts(r);
    var n := |Heading(r)| - 1;
    assert forall i :: 0 <= i < n ==> t[i] == t[..n][i] == Heading(r)[i];
    SentinelSpells(ch, t, r);
    SpelledEnds(ch, t[4..], KeywordOf(r));
    KeywordStart(ch, t[4..]);
    assert SpaceRun(ch, t) == 0 && t[0..] == t;
    assert HashRun(t) == 3;
    assert t[3..][0] == ' ' && t[3..][1] == t[4..][0];
    assert SpaceRun(ch, t[3..]) == 1;
    MatchRuns(ch, t, 0, 3, 1, |Spelling(KeywordOf(r))|);
  }

  // ----- bodies are inert ----------------------------------------------------------------------------

  /** A heading found in front of more text was there without it, unless it reaches across
      a line break into text that goes on with a hash or a word. */
  lemma {:induction false} MatchBeforeBreak(ch: Chars, s: Text, z: Text, j: nat)
    requires ch.Valid() && MatchHeading(ch, s + "\n" + z).Heading?
    requires j < |z| && (forall i :: 0 <= i < j ==> ch.space(z[i])) && !ch.space(z[j]) && z[j] != '#' && !ch.word(z[j])
    ensures MatchHeading(ch, s).Heading?
  {
    hide MatchHeading;
    var u := s + "\n" + z;
    HeadingChars(ch, u);
    var n := MatchHeading(ch, u).end;
    var b := |s| + 1 + j;
    assert u[b] == z[j];
    assert n <= b;
    forall i | |s| <= i < b ensures ch.space(u[i]) {
      assert i > |s| ==> u[i] == z[i - |s| - 1];
    }
    assert n <= |s|;
    assert u[..n] == s[..n];
    MatchDepends(ch, u, s, n);
  }

  lemma {:induction false} InertAt(ch: Chars, t: Text, lineStart: bool, i: nat)
    requires Inert(ch, t, lineStart) && i < |t| && (if i == 0 then lineStart else t[i - 1] == '\n')
    ensures MatchHeading(ch, t[i..]).Missing?
  {
    hide MatchHeading;
    InertTells(ch, t, lineStart);
    assert LineInert(ch, t, lineStart, i);
  }

  lemma FencedIsInert(ch: Chars, call: Text)
    requires ch.Valid() && OneLineObject(call)
    ensures Inert(ch, Fenced(call), true)
  {
    hide MatchHeading, Inert;
    var p := Fenced(call);
    assert |"```json\n"| == 8 && "```json\n"[7] == '\n' && forall i :: 0 <= i < 7 ==> "```json\n"[i] != '\n';
    assert forall k :: 0 <= k < |call| ==> p[8 + k] == call[k];
    forall i | 0 <= i < |p| && (i == 0 || p[i - 1] == '\n') ensures MatchHeading(ch, (p + [])[i..]).Missing? {
      assert (p + [])[i..][0] == p[i];
      if i > 0 {
        assert i == 8 || i == 9 + |call|;
      }
      NoHashNoHeading(ch, (p + [])[i..], 0);
    }
    assert Inert(ch, [], false) && Inert(ch, [], true) by { EmptyIsInert(ch); }
    InertSum(ch, p, [], true);
    assert p + [] == p;
  }

  lemma EmptyIsInert(ch: Chars)
    ensures Inert(ch, [], false) && Inert(ch, [], true)
  {
  }

  lemma {:induction false} OneCallIsInert(ch: Chars, body: Text, call: Text)
    requires ch.Valid() && OneLineObject(call) && Inert(ch, body, true)
    ensures Inert(ch, body + "\n" + Fenced(call), true)
  {
    hide MatchHeading, Inert;
    var rest := Fenced(call);
    var p := body + "\n";
    assert rest[0] == '`';
    FencedIsInert(ch, call);
    forall i | 0 <= i < |p| && (i == 0 || p[i - 1] == '\n') ensures MatchHeading(ch, (p + rest)[i..]).Missing? {
      if i < |body| {
        InertAt(ch, body, true, i);
        assert (p + rest)[i..] == body[i..] + "\n" + rest;
        if MatchHeading(ch, (p + rest)[i..]).Heading? {
          MatchBeforeBreak(ch, body[i..], rest, 0);
        }
      } else {
        assert (p + rest)[i..] == "\n" + rest;
        NoHashNoHeading(ch, (p + rest)[i..], 1);
      }
    }
    InertSum(ch, p, rest, true);
  }

  lemma {:induction false} WithCallsIsInert(ch: Chars, body: Text, calls: seq<Text>)
    requires ch.Valid() && Inert(ch, body, true) && forall i :: 0 <= i < |calls| ==> OneLineObject(calls[i])
    ensures Inert(ch, WithCalls(body, calls), true)
    decreases |calls|
  {
    hide Inert, Fenced;
    if calls != [] {
      FencedIsInert(ch, calls[0]);
      OneCallIsInert(ch, body, calls[0]);
      assert [] + Fenced(calls[0]) == Fenced(calls[0]);
      WithCallsIsInert(ch, (if body != [] then body + "\n" else []) + Fenced(calls[0]), calls[1..]);
    }
  }

  lemma {:induction false} BodyIsInert(ch: Chars, m: Msg)
    requires ch.Valid() && GoodMsg(m)
    ensures Inert(ch, Body(ch, m), true)
  {
    NeutralizedIsInert(ch, m.content, true);
    if m.role.Assistant? {
      WithCallsIsInert(ch, Neutralize(ch, m.content, true), Take(m.calls, MAX_CALLS));
    }
  }

  // ----- parsing what was rendered ----------------------------------------------------------------

  ghost predicate GoodTurn(ch: Chars, t: Turn) {
    !t.role.System? && Inert(ch, t.body, true)
  }

  lemma SentinelOfHeading(r: Role, rest: Text)
    requires !r.System?
    ensures SentinelAt(Heading(r) + rest) == Some(r)
  {
    hide Heading;
    SentinelsDiffer(r, SentinelAt(Heading(r) + rest).value, Heading(r) + rest);
  }

  /** No sentinel line starts inside an inert body. */
  lemma NoSentinelInside(ch: Chars, s: Text, z: Text)
    requires ch.Valid() && MatchHeading(ch, s).Missing? && s != [] && (z == [] || z[0] == '\n')
    ensures SentinelAt(s + z).None?
  {
    hide MatchHeading, Heading, SentinelAt;
    assert z != [] ==> (s + z)[|s|] == z[0];
    if SentinelAt(s + z).Some? {
      var r := SentinelAt(s + z).value;
      HeadingNonempty(r);
      var h := Heading(r);
      var n := |h| - 1;
      assert forall i :: 0 <= i < |h| ==> (s + z)[i] == h[i];
      if n <= |s| {
        assert s[..n] == h[..n];
        SentinelMatches(ch, s, r);
      }
    }
  }

  lemma NextAfterBlank(z: Text, lineStart: bool)
    requires SentinelAt(z).Some?
    ensures NextSentinel("\n\n" + z, lineStart) == 2
  {
    hide SentinelAt, Heading;
    var t := "\n\n" + z;
    NewlinesNoSentinel(t);
    NewlinesNoSentinel(t[1..]);
    assert t[1..][1..] == z;
    assert NextSentinel(z, true) == 0;
    assert NextSentinel(t[1..], true) == 1;
  }

  lemma {:induction false} NextAfterBody(ch: Chars, s: Text, z: Text, lineStart: bool)
    requires ch.Valid() && Inert(ch, s, lineStart) && SentinelAt(z).Some?
    ensures NextSentinel(s + "\n\n" + z, lineStart) == |s| + 2
    decreases |s|
  {
    hide MatchHeading, SentinelAt, NextSentinel;
    var t := s + "\n\n" + z;
    if s == [] {
      assert t == "\n\n" + z;
      NextAfterBlank(z, lineStart);
    } else {
      assert t[1..] == s[1..] + "\n\n" + z;
      NextAfterBody(ch, s[1..], z, s[0] == '\n');
      BodyNotSentinel(ch, s, z, lineStart);
      NextStep(t, lineStart);
    }
  }

  lemma NextStep(t: Text, lineStart: bool)
    requires t != [] && (lineStart ==> SentinelAt(t).None?)
    ensures NextSentinel(t, lineStart) == 1 + NextSentinel(t[1..], t[0] == '\n')
  {
    hide SentinelAt;
  }

  lemma BodyNotSentinel(ch: Chars, s: Text, z: Text, lineStart: bool)
    requires ch.Valid() && s != [] && Inert(ch, s, lineStart)
    ensures lineStart ==> SentinelAt(s + "\n\n" + z).None?
  {
    hide MatchHeading, SentinelAt, NextSentinel;
    if lineStart {
      assert s + "\n\n" + z == s + ("\n\n" + z);
      NoSentinelInside(ch, s, "\n\n" + z);
    }
  }

  lemma NewlinesNoSentinel(t: Text)
    requires t != [] && t[0] == '\n'
    ensures SentinelAt(t).None?
  {
    hide Heading;
    if SentinelAt(t).Some? {
      HeadingNonempty(SentinelAt(t).value);
    }
  }

  lemma {:induction false} NoNextInBody(ch: Chars, s: Text, lineStart: bool)
    requires ch.Valid() && Inert(ch, s, lineStart)
    ensures NextSentinel(s, lineStart) == |s|
    decreases |s|
  {
    hide MatchHeading, SentinelAt;
    if s != [] {
      NoNextInBody(ch, s[1..], s[0] == '\n');
      if lineStart {
        NoSentinelInside(ch, s, []);
        assert s + [] == s;
      }
    }
  }

  /** One segment per turn, in order, each with its role and its whole body. */
  lemma {:induction false} TurnsParse(ch: Chars, turns: seq<Turn>)
    requires ch.Valid() && forall i :: 0 <= i < |turns| ==> GoodTurn(ch, turns[i])
    ensures ParseTurns(Join(turns)) == Some(turns)
    decreases |turns|
  {
    hide GoodTurn, Join, ParseTurns;
    if |turns| <= 1 {
      LastTurnParses(ch, turns);
    } else {
      TurnsParse(ch, turns[1..]);
      FirstTurnParses(ch, turns);
      assert turns == [turns[0]] + turns[1..];
    }
  }

  lemma LastTurnParses(ch: Chars, turns: seq<Turn>)
    requires ch.Valid() && |turns| <= 1 && forall i :: 0 <= i < |turns| ==> GoodTurn(ch, turns[i])
    ensures ParseTurns(Join(turns)) == Some(turns)
  {
    hide Heading, SentinelAt, NextSentinel, Inert;
    if turns != [] {
      var t, text := turns[0], Join(turns);
      HeadingNonempty(t.role);
      SentinelOfHeading(t.role, t.body);
      assert text[|Heading(t.role)|..] == t.body;
      NoNextInBody(ch, t.body, true);
      assert turns == [t];
    }
  }

  lemma FirstTurnParses(ch: Chars, turns: seq<Turn>)
    requires ch.Valid() && |turns| > 1 && GoodTurn(ch, turns[0]) && GoodTurn(ch, turns[1])
    requires ParseTurns(Join(turns[1..])) == Some(turns[1..])
    ensures ParseTurns(Join(turns)) == Some([turns[0]] + turns[1..])
  {
    hide Heading, SentinelAt, NextSentinel, Inert, ParseTurns;
    var t, more := turns[0], Join(turns[1..]);
    JoinSplits(turns);
    SentinelOfHeading(t.role, t.body + "\n\n" + more);
    JoinStarts(turns[1..]);
    HeadingNonempty(SentinelAt(more).value);
    NextAfterBody(ch, t.body, more, true);
    SegmentParses(t, more);
  }

  lemma JoinSplits(turns: seq<Turn>)
    requires |turns| > 1
    ensures Join(turns) == Heading(turns[0].role) + (turns[0].body + "\n\n" + Join(turns[1..]))
  {
    hide Heading;
  }

  lemma SegmentParses(t: Turn, more: Text)
    requires var rest := t.body + "\n\n" + more;
             SentinelAt(Heading(t.role) + rest) == Some(t.role) && NextSentinel(rest, true) == |t.body| + 2
    requires more != [] && ParseTurns(more).Some?
    ensures ParseTurns(Heading(t.role) + (t.body + "\n\n" + more)) == Some([t] + ParseTurns(more).value)
  {
    hide Heading, SentinelAt, NextSentinel;
    var rest := t.body + "\n\n" + more;
    HeadingNonempty(t.role);
    assert (Heading(t.role) + rest)[|Heading(t.role)|..] == rest;
    BodySlices(t.body, more);
  }

  lemma BodySlices(body: Text, more: Text)
    ensures var rest := body + "\n\n" + more;
            rest[|body|..|body| + 2] == "\n\n" && rest[..|body|] == body && rest[|body| + 2..] == more
  {
  }

  lemma JoinStarts(turns: seq<Turn>)
    requires turns != [] && !turns[0].role.System?
    ensures SentinelAt(Join(turns)) == Some(turns[0].role)
  {
    hide Heading, SentinelAt;
    var t := turns[0];
    if |turns| == 1 {
      SentinelOfHeading(t.role, t.body);
    } else {
      SentinelOfHeading(t.role, t.body + "\n\n" + Join(turns[1..]));
      assert Join(turns) == Heading(t.role) + (t.body + "\n\n" + Join(turns[1..]));
    }
  }

  // ----- the whole prompt ------------------------------------------------------------------------------

  /** Positions, in order, of the messages among the first `n` that are not system. */
  function NotSystem(ms: seq<Msg>, n: nat): (r: seq<nat>)
    requires n <= |ms|
    ensures forall i :: 0 <= i < |r| ==> r[i] < n && !ms[r[i]].role.System?
  {
    if n == 0 then []
    else NotSystem(ms, n - 1) + (if ms[n - 1].role.System? then [] else [n - 1])
  }

  /** The positions whose turns a full prompt carries. */
  function Kept(ms: seq<Msg>): (r: seq<nat>)
    ensures forall i :: 0 <= i < |r| ==> r[i] < |ms| && !ms[r[i]].role.System?
  {
    Newest(NotSystem(ms, |Take(ms, MAX_SCAN)|), MAX_MESSAGES)
  }

  function TurnsAt(ch: Chars, ms: seq<Msg>, at: seq<nat>): (r: seq<Turn>)
    requires forall i :: 0 <= i < |at| ==> at[i] < |ms|
    ensures |r| == |at| && forall i :: 0 <= i < |at| ==> r[i] == TurnOf(ch, ms[at[i]])
  {
    seq(|at|, i requires 0 <= i < |at| => TurnOf(ch, ms[at[i]]))
  }

  function SystemParts(ms: seq<Msg>): seq<Text> {
    if ms == [] then []
    else (if ms[0].role.System? && ms[0].content != [] then [ms[0].content] else []) + SystemParts(ms[1..])
  }

  function Blanks(parts: seq<Text>): Text {
    if parts == [] then [] else if |parts| == 1 then parts[0] else parts[0] + "\n\n" + Blanks(parts[1..])
  }

  /** Everything above the conversation; `closing` and `tools` are fixed text. */
  function Preamble(ms: seq<Msg>, closing: Text, tools: Text): Text {
    "## System instructions\n" + Blanks(SystemParts(Take(ms, MAX_SCAN))) + closing + tools + "\n\n## Conversation\n"
  }

  function Flattened(ch: Chars, ms: seq<Msg>, closing: Text, tools: Text): Text {
    Preamble(ms, closing, tools) + Join(TurnsAt(ch, ms, Kept(ms)))
  }

  method Flatten(ch: Chars, ms: seq<Msg>, closing: Text, tools: Text) returns (text: Text)
    ensures text == Flattened(ch, ms, closing, tools)
  {
    hide Preamble, Neutralize, Join, Kept, WithCalls;
    var turns: seq<Turn> := [];
    var recent := Kept(ms);
    for i := 0 to |recent|
      invariant turns == TurnsAt(ch, ms, recent)[..i]
    {
      var m := ms[recent[i]];
      var body := Neutralize(ch, m.content, true);
      if m.role.Assistant? {
        body := RenderAssistant(ch, m);
      }
      turns := turns + [Turn(m.role, body)];
    }
    assert turns == TurnsAt(ch, ms, recent);
    text := Preamble(ms, closing, tools) + Join(turns);
  }

  /** What follows the preamble reads back as one turn for each kept message, in order,
      with its role and its quoted body, whatever the messages contain. */
  lemma {:induction false} FlattenedParses(ch: Chars, ms: seq<Msg>, closing: Text, tools: Text)
    requires ch.Valid() && forall i :: 0 <= i < |ms| ==> GoodMsg(ms[i])
    ensures var text, n := Flattened(ch, ms, closing, tools), |Preamble(ms, closing, tools)|;
            n <= |text| && ParseTurns(text[n..]) == Some(TurnsAt(ch, ms, Kept(ms)))
  {
    hide Inert, ParseTurns, Join, Preamble;
    var turns := TurnsAt(ch, ms, Kept(ms));
    forall i | 0 <= i < |turns| ensures GoodTurn(ch, turns[i]) {
      BodyIsInert(ch, ms[Kept(ms)[i]]);
    }
    TurnsParse(ch, turns);
    var text, n := Flattened(ch, ms, closing, tools), |Preamble(ms, closing, tools)|;
    assert text[n..] == Join(turns);
  }

  /** The turns kept are the newest of all exactly when nothing but system messages stands
      past the scan limit: the cut at 2000 drops the newest turns, not the oldest. */
  lemma KeepsTheNewest(ms: seq<Msg>)
    ensures Kept(ms) == Newest(NotSystem(ms, |ms|), MAX_MESSAGES)
            <==> forall i :: MAX_SCAN <= i < |ms| ==> ms[i].role.System?
  {
    hide NotSystem;
    var n := |Take(ms, MAX_SCAN)|;
    if forall i :: MAX_SCAN <= i < |ms| ==> ms[i].role.System? {
      OnlySystemAfter(ms, n, |ms|);
    } else {
      var i :| MAX_SCAN <= i < |ms| && !ms[i].role.System?;
      LastReaches(ms, |ms|, i);
    }
  }

  lemma {:induction false} OnlySystemAfter(ms: seq<Msg>, a: nat, b: nat)
    requires a <= b <= |ms| && forall i :: a <= i < b ==> ms[i].role.System?
    ensures NotSystem(ms, b) == NotSystem(ms, a)
    decreases b
  {
    if a < b { OnlySystemAfter(ms, a, b - 1); }
  }

  lemma {:induction false} LastReaches(ms: seq<Msg>, n: nat, i: nat)
    requires i < n <= |ms| && !ms[i].role.System?
    ensures var r := NotSystem(ms, n); r != [] && r[|r| - 1] >= i
    decreases n
  {
    if i < n - 1 { LastReaches(ms, n - 1, i); }
  }

  // ----- the delta of a resumed call -----------------------------------------------------------

  predicate Sent(m: Msg) {
    m.role.User? || m.role.Tool?
  }

  /** Positions in [a, b) of the user and tool messages. */
  function SentIn(ms: seq<Msg>, a: nat, b: nat): (r: seq<nat>)
    requires a <= b <= |ms|
    ensures forall i :: 0 <= i < |r| ==> a <= r[i] < b && Sent(ms[r[i]])
    decreases b
  {
    if a == b then [] else SentIn(ms, a, b - 1) + (if Sent(ms[b - 1]) then [b - 1] else [])
  }

  /** What a delta from `sent` carries: the first 500 new messages at most. */
  function Delta(ms: seq<Msg>, sent: nat): (r: seq<nat>)
    requires sent <= |ms|
    ensures forall i :: 0 <= i < |r| ==> sent <= r[i] < |ms| && Sent(ms[r[i]])
  {
    SentIn(ms, sent, sent + |Take(ms[sent..], MAX_MESSAGES)|)
  }

  function DeltaText(ch: Chars, ms: seq<Msg>, sent: nat): Text
    requires sent <= |ms|
  {
    Join(TurnsAt(ch, ms, Delta(ms, sent)))
  }

  method FlattenDelta(ch: Chars, ms: seq<Msg>, sent: nat) returns (text: Text)
    requires sent <= |ms|
    ensures text == DeltaText(ch, ms, sent)
  {
    hide Neutralize, Join;
    var turns: seq<Turn> := [];
    var end := sent + |Take(ms[sent..], MAX_MESSAGES)|;
    for i := sent to end
      invariant turns == TurnsAt(ch, ms, SentIn(ms, sent, i))
    {
      var m := ms[i];
      if m.role.Assistant? || m.role.System? {
        continue;
      }
      turns := turns + [Turn(if m.role.Tool? then Tool else User, Neutralize(ch, m.content, true))];
    }
    text := Join(turns);
  }

  /** A delta reads back like a conversation. */
  lemma {:induction false} DeltaParses(ch: Chars, ms: seq<Msg>, sent: nat)
    requires ch.Valid() && sent <= |ms|
    ensures ParseTurns(DeltaText(ch, ms, sent)) == Some(TurnsAt(ch, ms, Delta(ms, sent)))
  {
    var turns := TurnsAt(ch, ms, Delta(ms, sent));
    forall i | 0 <= i < |turns| ensures GoodTurn(ch, turns[i]) {
      NeutralizedIsInert(ch, ms[Delta(ms, sent)[i]].content, true);
    }
    TurnsParse(ch, turns);
  }

  /** The text is empty exactly when there is nothing to send. */
  lemma DeltaTextEmpty(ch: Chars, ms: seq<Msg>, sent: nat)
    requires sent <= |ms|
    ensures DeltaText(ch, ms, sent) == [] <==> Delta(ms, sent) == []
  {
    var turns := TurnsAt(ch, ms, Delta(ms, sent));
    if turns != [] {
      HeadingNonempty(turns[0].role);
    }
  }
}

/** The Claude CLI transcript of app/smartbrain_3000/claudecli.py: quoting of forged
    headings (_HEADING_FORGERY, _neutralize), rendering (_render_assistant, _flatten,
    _flatten_delta), and reading a rendered conversation back. */
module Transcript {
  import opened Prelude

  type Text = seq<char>

  // ----- characters ----------------------------------------------------------------------------

  /** Python's `\s`, `\w` and case-insensitive comparison.  Everything below holds for any
      classification that satisfies `Valid`. */
  datatype Chars = Chars(space: char -> bool, word: char -> bool, fold: char -> char) {
    ghost predicate Valid() {
      && space(' ') && space('\n')
      && !space('#') && !space('>') && !space('`') && !space('{')
      && !word('#') && !word('>') && !word('`') && !word('{')
      && (forall c :: word(c) ==> !space(c))
      && (forall c :: 'a' <= fold(c) <= 'z' ==> word(c))
      && (forall c :: 'a' <= c <= 'z' ==> fold(c) == c)
      && (forall c :: 'A' <= c <= 'Z' ==> fold(c) == (c as int + 32) as char)
    }
  }

  // ----- the heading pattern -------------------------------------------------------------------

  datatype Keyword = KSystem | KConversation | KUser | KAssistant | KTool

  function Spelling(k: Keyword): Text {
    match k
    case KSystem => "system instructions"
    case KConversation => "conversation"
    case KUser => "user"
    case KAssistant => "assistant"
    case KTool => "tool result"
  }

  function SpaceRun(ch: Chars, t: Text): (n: nat)
    ensures n <= |t| && (forall i :: 0 <= i < n ==> ch.space(t[i])) && (n < |t| ==> !ch.space(t[n]))
  {
    if t != [] && ch.space(t[0]) then 1 + SpaceRun(ch, t[1..]) else 0
  }

  function HashRun(t: Text): (n: nat)
    ensures n <= |t| && (forall i :: 0 <= i < n ==> t[i] == '#') && (n < |t| ==> t[n] != '#')
  {
    if t != [] && t[0] == '#' then 1 + HashRun(t[1..]) else 0
  }

  /** `t` starts with the keyword in some case, and the word ends there. */
  predicate Spells(ch: Chars, t: Text, k: Keyword) {
    var s := Spelling(k);
    && |t| >= |s|
    && (forall i :: 0 <= i < |s| ==> if s[i] == ' ' then t[i] == ' ' else ch.fold(t[i]) == s[i])
    && (|t| == |s| || !ch.word(t[|s|]))
  }

  /** Where the heading's hashes start and where its keyword ends. */
  datatype Found = Missing | Heading(hashes: nat, end: nat)

  function KeywordAt(ch: Chars, t: Text): (k: Option<Keyword>)
    ensures k.Some? ==> Spells(ch, t, k.value)
    ensures k.None? ==> forall w :: !Spells(ch, t, w)
  {
    hide Spells, Spelling;
    if Spells(ch, t, KSystem) then Some(KSystem)
    else if Spells(ch, t, KConversation) then Some(KConversation)
    else if Spells(ch, t, KUser) then Some(KUser)
    else if Spells(ch, t, KAssistant) then Some(KAssistant)
    else if Spells(ch, t, KTool) then Some(KTool)
    else None
  }

  function KeywordEnd(ch: Chars, t: Text): (n: Option<nat>)
    ensures n.Some? ==> 0 < n.value <= |t|
  {
    var k := KeywordAt(ch, t);
    if k.Some? then
      SpellingIsLetters(k.value);
      Some(|Spelling(k.value)|)
    else None
  }

  /** The pattern at the start of a line: at most three spaces, one to six hashes, spaces,
      a keyword.  Each run is taken whole: what follows it cannot continue it. */
  function MatchHeading(ch: Chars, t: Text): (f: Found)
    ensures f.Heading? ==> f.hashes < f.end <= |t|
  {
    hide Spells, KeywordAt, Spelling;
    var w := SpaceRun(ch, t);
    var h := HashRun(t[w..]);
    var m := SpaceRun(ch, t[w + h..]);
    var k := KeywordEnd(ch, t[w + h + m..]);
    if w <= 3 && 1 <= h <= 6 && k.Some? then Heading(w, w + h + m + k.value) else Missing
  }

  /** `_neutralize`: every match, left to right, gets "> " before its hashes. */
  function Neutralize(ch: Chars, t: Text, lineStart: bool): Text
    decreases |t|
  {
    if t == [] then []
    else
      var f := if lineStart then MatchHeading(ch, t) else Missing;
      if f.Heading? then t[..f.hashes] + "> " + t[f.hashes..f.end] + Neutralize(ch, t[f.end..], false)
      else [t[0]] + Neutralize(ch, t[1..], t[0] == '\n')
  }

  /** No line opens with a heading. */
  ghost predicate Inert(ch: Chars, t: Text, lineStart: bool)
    decreases |t|
  {
    t == [] || ((lineStart ==> MatchHeading(ch, t).Missing?) && Inert(ch, t[1..], t[0] == '\n'))
  }

  /** The line that starts at `i`, if one does, does not open with a heading. */
  ghost predicate LineInert(ch: Chars, t: Text, lineStart: bool, i: nat)
    requires i < |t|
  {
    (if i == 0 then lineStart else t[i - 1] == '\n') ==> MatchHeading(ch, t[i..]).Missing?
  }

  lemma InertShifts(ch: Chars, t: Text, lineStart: bool, i: nat)
    requires i + 1 < |t|
    ensures LineInert(ch, t, lineStart, i + 1) == LineInert(ch, t[1..], t[0] == '\n', i)
  {
    hide MatchHeading;
    assert t[i + 1..] == t[1..][i..];
  }

  /** The same, line by line. */
  lemma {:induction false} InertTells(ch: Chars, t: Text, lineStart: bool)
    ensures Inert(ch, t, lineStart) <==> forall i :: 0 <= i < |t| ==> LineInert(ch, t, lineStart, i)
    decreases |t|
  {
    hide MatchHeading, LineInert;
    if t != [] {
      var rest, next := t[1..], t[0] == '\n';
      InertTells(ch, rest, next);
      FirstLine(ch, t, lineStart);
      if forall i :: 0 <= i < |rest| ==> LineInert(ch, rest, next, i) {
        forall i | 0 < i < |t| ensures LineInert(ch, t, lineStart, i) {
          InertShifts(ch, t, lineStart, i - 1);
        }
      } else {
        var i :| 0 <= i < |rest| && !LineInert(ch, rest, next, i);
        InertShifts(ch, t, lineStart, i);
      }
    }
  }

  lemma FirstLine(ch: Chars, t: Text, lineStart: bool)
    requires t != []
    ensures LineInert(ch, t, lineStart, 0) == (lineStart ==> MatchHeading(ch, t).Missing?)
  {
    assert t[0..] == t;
  }

  // ----- what a match is made of ---------------------------------------------------------------

  /** A matched heading is made of spaces, hashes and word characters, the last of them a
      word character. */
  lemma {:induction false} HeadingChars(ch: Chars, t: Text)
    requires ch.Valid() && MatchHeading(ch, t).Heading?
    ensures var n := MatchHeading(ch, t).end;
            && (forall i :: 0 <= i < n ==> ch.space(t[i]) || t[i] == '#' || ch.word(t[i]))
            && ch.word(t[n - 1]) && (n == |t| || !ch.word(t[n]))
  {
    hide KeywordEnd, SpaceRun, HashRun;
    var w, h, m, k := RunsOf(ch, t);
    RunsChars(ch, t, w, h, m, k);
  }

  lemma {:induction false} RunsChars(ch: Chars, t: Text, w: nat, h: nat, m: nat, k: nat)
    requires ch.Valid() && Runs(ch, t, w, h, m, k)
    ensures var n := w + h + m + k;
            && (forall i :: 0 <= i < n ==> ch.space(t[i]) || t[i] == '#' || ch.word(t[i]))
            && k > 0 && ch.word(t[n - 1]) && (n == |t| || !ch.word(t[n]))
  {
    hide KeywordEnd, SpaceRun, HashRun;
    var a := w + h + m;
    KeywordChars(ch, t[a..]);
    assert forall i :: w <= i < w + h ==> t[i] == t[w..][i - w];
    assert forall i :: w + h <= i < a ==> t[i] == t[w + h..][i - w - h];
    assert forall i :: a <= i < |t| ==> t[i] == t[a..][i - a];
  }

  lemma {:induction false} KeywordChars(ch: Chars, t: Text)
    requires ch.Valid() && KeywordEnd(ch, t).Some?
    ensures var n := KeywordEnd(ch, t).value;
            && 0 < n <= |t| && (forall i :: 0 <= i < n ==> t[i] == ' ' || ch.word(t[i]))
            && ch.word(t[n - 1]) && (n == |t| || !ch.word(t[n]))
  {
    hide Spelling;
    var k := KeywordAt(ch, t).value;
    SpellingIsLetters(k);
    forall i | 0 <= i < |Spelling(k)| ensures t[i] == ' ' || ch.word(t[i]) {
      assert Spelling(k)[i] == ' ' || 'a' <= ch.fold(t[i]) <= 'z';
    }
  }

  lemma SpellsOne(ch: Chars, t: Text, j: Keyword, k: Keyword)
    requires Spells(ch, t, j) && Spells(ch, t, k)
    ensures j == k
  {
    hide Spelling;
    FirstLetters(j, k);
    SpellingIsLetters(j);
    SpellingIsLetters(k);
  }

  lemma FirstLetters(j: Keyword, k: Keyword)
    ensures |Spelling(j)| > 0 && |Spelling(k)| > 0 && Spelling(j)[0] != ' ' && Spelling(k)[0] != ' '
    ensures j != k ==> Spelling(j)[0] != Spelling(k)[0]
  {
  }

  lemma SpellingIsLetters(k: Keyword)
    ensures var s := Spelling(k);
            0 < |s| && (forall i :: 0 <= i < |s| ==> s[i] == ' ' || 'a' <= s[i] <= 'z') && s[|s| - 1] != ' '
  {
  }

  /** The four runs of a heading. */
  ghost predicate Runs(ch: Chars, t: Text, w: nat, h: nat, m: nat, k: nat) {
    && w + h + m + k <= |t|
    && SpaceRun(ch, t) == w && HashRun(t[w..]) == h && SpaceRun(ch, t[w + h..]) == m
    && KeywordEnd(ch, t[w + h + m..]) == Some(k)
  }

  lemma {:induction false} MatchRuns(ch: Chars, t: Text, w: nat, h: nat, m: nat, k: nat)
    requires Runs(ch, t, w, h, m, k)
    ensures MatchHeading(ch, t) == if w <= 3 && 1 <= h <= 6 then Heading(w, w + h + m + k) else Missing
  {
    hide KeywordEnd, SpaceRun, HashRun;
  }

  /** The pattern as it is written: up to three spaces, one to six hashes, any spaces, one of
      the five keywords in either case, and the end of a word. */
  ghost predicate Written(ch: Chars, t: Text, w: nat, h: nat, m: nat, k: Keyword) {
    && w <= 3 && 1 <= h <= 6 && w + h + m + |Spelling(k)| <= |t|
    && (forall i :: 0 <= i < w ==> ch.space(t[i]))
    && (forall i :: w <= i < w + h ==> t[i] == '#')
    && (forall i :: w + h <= i < w + h + m ==> ch.space(t[i]))
    && (forall i :: 0 <= i < |Spelling(k)| ==>
          var c := t[w + h + m + i];
          if Spelling(k)[i] == ' ' then c == ' ' else ch.fold(c) == Spelling(k)[i])
    && (w + h + m + |Spelling(k)| == |t| || !ch.word(t[w + h + m + |Spelling(k)|]))
  }

  lemma WrittenSpells(ch: Chars, t: Text, w: nat, h: nat, m: nat, k: Keyword)
    requires ch.Valid() && Written(ch, t, w, h, m, k)
    ensures Spells(ch, t[w + h + m..], k) && ch.word(t[w + h + m])
  {
    hide Spelling;
    SpellingIsLetters(k);
    FirstLetters(k, k);
    var rest := t[w + h + m..];
    forall i | 0 <= i < |Spelling(k)| ensures if Spelling(k)[i] == ' ' then rest[i] == ' ' else ch.fold(rest[i]) == Spelling(k)[i] {
      assert rest[i] == t[w + h + m + i];
    }
    assert rest[0] == t[w + h + m + 0];
  }

  /** The search finds a heading exactly where the pattern can be read, and marks where its
      hashes start and where its keyword ends: there is only one way to read it. */
  lemma {:induction false} HeadingIff(ch: Chars, t: Text, w: nat, h: nat, m: nat, k: Keyword)
    requires ch.Valid()
    ensures Written(ch, t, w, h, m, k) ==> MatchHeading(ch, t) == Heading(w, w + h + m + |Spelling(k)|)
    ensures MatchHeading(ch, t).Heading? ==> exists w', h', m', k' :: Written(ch, t, w', h', m', k')
  {
    if Written(ch, t, w, h, m, k) {
      WrittenIsFound(ch, t, w, h, m, k);
    }
    if MatchHeading(ch, t).Heading? {
      var k' := FoundIsWritten(ch, t);
    }
  }

  lemma WrittenIsFound(ch: Chars, t: Text, w: nat, h: nat, m: nat, k: Keyword)
    requires ch.Valid() && Written(ch, t, w, h, m, k)
    ensures MatchHeading(ch, t) == Heading(w, w + h + m + |Spelling(k)|)
  {
    hide Written, SpaceRun, HashRun, KeywordEnd, Spelling, MatchHeading;
    WrittenRuns(ch, t, w, h, m, k);
    WrittenKeyword(ch, t, w, h, m, k);
    MatchRuns(ch, t, w, h, m, |Spelling(k)|);
  }

  lemma WrittenRuns(ch: Chars, t: Text, w: nat, h: nat, m: nat, k: Keyword)
    requires ch.Valid() && Written(ch, t, w, h, m, k)
    ensures w <= 3 && 1 <= h <= 6 && w + h + m + |Spelling(k)| <= |t|
    ensures SpaceRun(ch, t) == w && HashRun(t[w..]) == h && SpaceRun(ch, t[w + h..]) == m
  {
    hide Spells, Spelling, SpaceRun, HashRun;
    WrittenSpells(ch, t, w, h, m, k);
    SpellingIsLetters(k);
    assert !ch.space('#') && !ch.word('#');
    assert !ch.space(t[w + h + m]) && t[w] == '#';
    RunEnds(ch, t, 0, w);
    HashEnds(t, w, h);
    RunEnds(ch, t, w + h, m);
  }

  lemma WrittenKeyword(ch: Chars, t: Text, w: nat, h: nat, m: nat, k: Keyword)
    requires ch.Valid() && Written(ch, t, w, h, m, k)
    ensures w + h + m <= |t| && KeywordEnd(ch, t[w + h + m..]) == Some(|Spelling(k)|)
  {
    WrittenSpells(ch, t, w, h, m, k);
    hide Spells, Spelling, Written;
    SpellsOne(ch, t[w + h + m..], KeywordAt(ch, t[w + h + m..]).value, k);
  }

  lemma RunEnds(ch: Chars, t: Text, a: nat, n: nat)
    requires a + n < |t| && (forall i :: a <= i < a + n ==> ch.space(t[i])) && !ch.space(t[a + n])
    ensures SpaceRun(ch, t[a..]) == n
    ensures a == 0 ==> SpaceRun(ch, t) == n
  {
    hide SpaceRun;
    var rest := t[a..];
    assert forall i :: 0 <= i < |rest| ==> rest[i] == t[a + i];
    assert a == 0 ==> rest == t;
  }

  lemma HashEnds(t: Text, a: nat, n: nat)
    requires a + n < |t| && (forall i :: a <= i < a + n ==> t[i] == '#') && t[a + n] != '#'
    ensures HashRun(t[a..]) == n
  {
    hide HashRun;
    var rest := t[a..];
    assert forall i :: 0 <= i < |rest| ==> rest[i] == t[a + i];
  }

  lemma FoundIsWritten(ch: Chars, t: Text) returns (k: Keyword)
    requires ch.Valid() && MatchHeading(ch, t).Heading?
    ensures exists w, h, m :: Written(ch, t, w, h, m, k)
  {
    hide MatchHeading, Spelling, SpaceRun, HashRun;
    var w, h, m, n := RunsOf(ch, t);
    MatchRuns(ch, t, w, h, m, n);
    var a, b, rest := t[w..], t[w + h..], t[w + h + m..];
    k := KeywordAt(ch, rest).value;
    assert forall i :: 0 <= i < |a| ==> a[i] == t[w + i];
    assert forall i :: 0 <= i < |b| ==> b[i] == t[w + h + i];
    assert forall i :: 0 <= i < |rest| ==> rest[i] == t[w + h + m + i];
    assert n == |Spelling(k)|;
    assert forall i :: w <= i < w + h ==> t[i] == a[i - w];
    assert forall i :: w + h <= i < w + h + m ==> t[i] == b[i - w - h];
    assert Written(ch, t, w, h, m, k);
  }

  /** A match depends only on its own characters and on whether a word ends there. */
  lemma {:induction false} MatchDepends(ch: Chars, t: Text, u: Text, n: nat)
    requires MatchHeading(ch, t).Heading? && n == MatchHeading(ch, t).end
    requires n <= |u| && t[..n] == u[..n] && (n == |u| || !ch.word(u[n]))
    ensures MatchHeading(ch, u) == MatchHeading(ch, t)
  {
    hide *;
    var w, h, m, k := RunsOf(ch, t);
    MatchRuns(ch, t, w, h, m, k);
    RunsDepend(ch, t, u, w, h, m, k, n);
    MatchRuns(ch, u, w, h, m, k);
  }

  lemma {:induction false} RunsDepend(ch: Chars, t: Text, u: Text, w: nat, h: nat, m: nat, k: nat, n: nat)
    requires Runs(ch, t, w, h, m, k) && h > 0 && k > 0 && n == w + h + m + k
    requires n <= |u| && n <= |t| && t[..n] == u[..n] && (n == |u| || !ch.word(u[n]))
    ensures Runs(ch, u, w, h, m, k)
  {
    hide KeywordEnd, SpaceRun, HashRun, MatchHeading;
    SlicesAgree(t, u, n, 0, w + 1);
    assert t[0..] == t && u[0..] == u;
    SameSpaceRun(ch, t, u, w);
    SlicesAgree(t, u, n, w, h + 1);
    SameHashRun(t[w..], u[w..], h);
    SlicesAgree(t, u, n, w + h, m + 1);
    SameSpaceRun(ch, t[w + h..], u[w + h..], m);
    SlicesAgree(t, u, n, w + h + m, k);
    SameKeyword(ch, t[w + h + m..], u[w + h + m..]);
  }

  lemma SlicesAgree(t: Text, u: Text, n: nat, a: nat, b: nat)
    requires n <= |t| && n <= |u| && t[..n] == u[..n] && a + b <= n
    ensures t[a..][..b] == u[a..][..b]
  {
    assert t[a..][..b] == t[..n][a..a + b] && u[a..][..b] == u[..n][a..a + b];
  }

  lemma {:induction false} SameSpaceRun(ch: Chars, t: Text, u: Text, n: nat)
    requires SpaceRun(ch, t) == n < |t| && n < |u| && t[..n + 1] == u[..n + 1]
    ensures SpaceRun(ch, u) == n
    decreases n
  {
    assert t[0] == t[..n + 1][0] && u[0] == u[..n + 1][0];
    if n > 0 {
      assert t[1..][..n] == t[..n + 1][1..] && u[1..][..n] == u[..n + 1][1..];
      SameSpaceRun(ch, t[1..], u[1..], n - 1);
    }
  }

  lemma {:induction false} SameHashRun(t: Text, u: Text, n: nat)
    requires HashRun(t) == n < |t| && n < |u| && t[..n + 1] == u[..n + 1]
    ensures HashRun(u) == n
    decreases n
  {
    assert t[0] == t[..n + 1][0] && u[0] == u[..n + 1][0];
    if n > 0 {
      assert t[1..][..n] == t[..n + 1][1..] && u[1..][..n] == u[..n + 1][1..];
      SameHashRun(t[1..], u[1..], n - 1);
    }
  }

  lemma {:induction false} SameKeyword(ch: Chars, t: Text, u: Text)
    requires KeywordEnd(ch, t).Some?
    requires var n := KeywordEnd(ch, t).value; n <= |u| && t[..n] == u[..n] && (n == |u| || !ch.word(u[n]))
    ensures KeywordEnd(ch, u) == KeywordEnd(ch, t)
  {
    hide Spelling;
    var n := KeywordEnd(ch, t).value;
    assert forall i :: 0 <= i < n ==> t[i] == t[..n][i] && u[i] == u[..n][i];
    var k := KeywordAt(ch, t).value;
    assert Spells(ch, u, k);
    SpellsOne(ch, u, k, KeywordAt(ch, u).value);
  }

  /** Spaces and then something that is neither a space nor a hash: no heading. */
  lemma NoHashNoHeading(ch: Chars, t: Text, j: nat)
    requires j < |t| && (forall i :: 0 <= i < j ==> ch.space(t[i])) && !ch.space(t[j]) && t[j] != '#'
    ensures MatchHeading(ch, t).Missing?
  {
    hide KeywordEnd, SpaceRun, HashRun;
    assert SpaceRun(ch, t) == j;
    assert t[j..][0] == t[j];
    assert HashRun(t[j..]) == 0;
  }

  // ----- quoting leaves no heading ---------------------------------------------------------------

  /** Where the first "> " goes in, or the length of the text. */
  function FirstEdit(ch: Chars, t: Text, lineStart: bool): (e: nat)
    ensures e <= |t|
    decreases |t|
  {
    if t == [] then 0
    else if lineStart && MatchHeading(ch, t).Heading? then MatchHeading(ch, t).hashes
    else 1 + FirstEdit(ch, t[1..], t[0] == '\n')
  }

  /** `u` and `t` agree up to `e`, where a "> " went into `u` after a space or at the start. */
  ghost predicate EditedAt(ch: Chars, t: Text, u: Text, e: nat, atStart: bool) {
    && e <= |t| && e <= |u| && t[..e] == u[..e]
    && (e == |u| ==> t == u)
    && (e < |u| ==> u[e] == '>' && if e > 0 then ch.space(t[e - 1]) else atStart)
  }

  lemma EditedLater(ch: Chars, t: Text, u: Text, e: nat)
    requires t != [] && EditedAt(ch, t[1..], u, e, t[0] == '\n') && ch.space('\n')
    ensures EditedAt(ch, t, [t[0]] + u, e + 1, false)
  {
    assert t[..e + 1] == [t[0]] + t[1..][..e];
    assert ([t[0]] + u)[..e + 1] == [t[0]] + u[..e];
    assert t == [t[0]] + t[1..];
  }

  lemma {:induction false} FirstEditTells(ch: Chars, t: Text, lineStart: bool)
    requires ch.Valid()
    ensures EditedAt(ch, t, Neutralize(ch, t, lineStart), FirstEdit(ch, t, lineStart),
                     lineStart && MatchHeading(ch, t).Heading?)
    decreases |t|
  {
    hide MatchHeading;
    if t == [] {
    } else if lineStart && MatchHeading(ch, t).Heading? {
      HashesAfterSpaces(ch, t);
    } else {
      hide EditedAt;
      FirstEditTells(ch, t[1..], t[0] == '\n');
      EditWeaken(ch, t[1..], Neutralize(ch, t[1..], t[0] == '\n'), FirstEdit(ch, t[1..], t[0] == '\n'),
                 t[0] == '\n' && MatchHeading(ch, t[1..]).Heading?, t[0] == '\n');
      EditedLater(ch, t, Neutralize(ch, t[1..], t[0] == '\n'), FirstEdit(ch, t[1..], t[0] == '\n'));
      EditWeaken(ch, t, Neutralize(ch, t, lineStart), FirstEdit(ch, t, lineStart), false, lineStart && MatchHeading(ch, t).Heading?);
    }
  }

  lemma EditWeaken(ch: Chars, t: Text, u: Text, e: nat, a: bool, b: bool)
    requires EditedAt(ch, t, u, e, a) && (a ==> b)
    ensures EditedAt(ch, t, u, e, b)
  {
  }

  lemma {:induction false} HashesAfterSpaces(ch: Chars, t: Text)
    requires MatchHeading(ch, t).Heading?
    ensures forall i :: 0 <= i < MatchHeading(ch, t).hashes ==> ch.space(t[i])
  {
    hide KeywordEnd, SpaceRun, HashRun;
  }

  /** Quoting makes no heading: one that stands at the head of the result stood there before. */
  lemma {:induction false} NoNewHeading(ch: Chars, t: Text, lineStart: bool)
    requires ch.Valid() && MatchHeading(ch, Neutralize(ch, t, lineStart)).Heading?
    requires lineStart ==> MatchHeading(ch, t).Missing?
    ensures MatchHeading(ch, t).Heading?
  {
    hide MatchHeading, Neutralize, FirstEdit;
    var u, e := Neutralize(ch, t, lineStart), FirstEdit(ch, t, lineStart);
    FirstEditTells(ch, t, lineStart);
    if e < |u| {
      HeadingChars(ch, u);
      var n := MatchHeading(ch, u).end;
      assert n <= e;
      assert u[n - 1] == u[..e][n - 1] == t[..e][n - 1] == t[n - 1];
      assert n < e;
      assert u[n] == u[..e][n] == t[..e][n] == t[n];
      assert u[..n] == u[..e][..n] == t[..e][..n] == t[..n];
      MatchDepends(ch, u, t, n);
    }
  }

  /** A text in front of an inert one. */
  lemma {:induction false} InertSum(ch: Chars, p: Text, rest: Text, lineStart: bool)
    requires forall i :: 0 <= i < |p| && (if i == 0 then lineStart else p[i - 1] == '\n') ==>
               MatchHeading(ch, (p + rest)[i..]).Missing?
    requires Inert(ch, rest, if p == [] then lineStart else p[|p| - 1] == '\n')
    ensures Inert(ch, p + rest, lineStart)
    decreases |p|
  {
    hide MatchHeading;
    if p == [] {
      assert p + rest == rest;
    } else {
      assert (p + rest)[0..] == p + rest;
      assert (p + rest)[1..] == p[1..] + rest;
      forall i | 0 <= i < |p[1..]| && (if i == 0 then p[0] == '\n' else p[1..][i - 1] == '\n')
        ensures MatchHeading(ch, (p[1..] + rest)[i..]).Missing?
      {
        assert (p[1..] + rest)[i..] == (p + rest)[i + 1..];
        assert i > 0 ==> p[1..][i - 1] == p[i];
      }
      InertSum(ch, p[1..], rest, p[0] == '\n');
    }
  }

  /** In front of the inserted "> ". */
  lemma {:induction false} BeforeQuote(ch: Chars, t: Text, w: nat, tail: Text, i: nat)
    requires ch.Valid() && i <= w <= |t| && (forall j :: 0 <= j < w ==> ch.space(t[j]))
    ensures MatchHeading(ch, (t[..w] + ">" + tail)[i..]).Missing?
  {
    hide MatchHeading;
    var x := (t[..w] + ">" + tail)[i..];
    assert forall j :: 0 <= j < w - i ==> x[j] == t[i + j];
    assert x[w - i] == '>';
    NoHashNoHeading(ch, x, w - i);
  }

  /** Of the parts of a heading behind its first spaces, only the spaces before the keyword
      can hold a line break. */
  lemma {:induction false} HeadingRegions(ch: Chars, t: Text, w: nat, h: nat, m: nat, k: nat, i: nat)
    requires ch.Valid() && Runs(ch, t, w, h, m, k) && w <= i < w + h + m + k && t[i] == '\n'
    ensures w + h <= i < w + h + m
  {
    hide KeywordEnd, SpaceRun, HashRun;
    KeywordChars(ch, t[w + h + m..]);
    assert forall j :: w <= j < w + h ==> t[j] == t[w..][j - w];
    assert forall j :: w + h + m <= j < |t| ==> t[j] == t[w + h + m..][j - w - h - m];
  }

  /** Behind it, a line can only begin among the spaces before the keyword. */
  lemma {:induction false} BehindHashes(ch: Chars, t: Text, w: nat, h: nat, m: nat, k: nat, i: nat, tail: Text)
    requires ch.Valid() && Runs(ch, t, w, h, m, k) && w < i < w + h + m + k && t[i - 1] == '\n'
    ensures MatchHeading(ch, t[i..w + h + m + k] + tail).Missing?
  {
    hide KeywordEnd, SpaceRun, HashRun, MatchHeading;
    var a := w + h + m;
    HeadingRegions(ch, t, w, h, m, k, i - 1);
    KeywordStart(ch, t[a..]);
    assert t[a] == t[a..][0] && t[a] == t[w + h..][m];
    assert forall j :: w + h <= j < a ==> t[j] == t[w + h..][j - w - h];
    var x := t[i..a + k] + tail;
    assert forall j :: 0 <= j <= a - i ==> x[j] == t[i + j];
    NoHashNoHeading(ch, x, a - i);
  }

  lemma {:induction false} RunsOf(ch: Chars, t: Text) returns (w: nat, h: nat, m: nat, k: nat)
    requires MatchHeading(ch, t).Heading?
    ensures Runs(ch, t, w, h, m, k) && h > 0 && k > 0 && MatchHeading(ch, t) == Heading(w, w + h + m + k)
  {
    hide KeywordEnd, SpaceRun, HashRun;
    w := SpaceRun(ch, t);
    h := HashRun(t[w..]);
    m := SpaceRun(ch, t[w + h..]);
    k := KeywordEnd(ch, t[w + h + m..]).value;
  }

  lemma KeywordStart(ch: Chars, t: Text)
    requires ch.Valid() && KeywordEnd(ch, t).Some?
    ensures ch.word(t[0])
  {
    hide Spelling;
    var k := KeywordAt(ch, t).value;
    SpellingIsLetters(k);
    FirstLetters(k, k);
  }

  /** What replaces a heading opens no line with one. */
  lemma {:induction false} QuotedIsInert(ch: Chars, t: Text, rest: Text)
    requires ch.Valid() && MatchHeading(ch, t).Heading? && Inert(ch, rest, false)
    ensures var f := MatchHeading(ch, t); Inert(ch, t[..f.hashes] + "> " + t[f.hashes..f.end] + rest, true)
  {
    hide MatchHeading, Inert, Runs;
    var f := MatchHeading(ch, t);
    var w, h, m, k := RunsOf(ch, t);
    var n := f.end;
    var p := t[..w] + "> " + t[w..n];
    HeadingChars(ch, t);
    HashesAfterSpaces(ch, t);
    assert p[|p| - 1] == t[n - 1];
    forall i | 0 <= i < |p| && (i == 0 || p[i - 1] == '\n') ensures MatchHeading(ch, (p + rest)[i..]).Missing? {
      if i <= w {
        assert p + rest == t[..w] + ">" + (" " + t[w..n] + rest);
        BeforeQuote(ch, t, w, " " + t[w..n] + rest, i);
      } else {
        assert i > w + 2 && p[i - 1] == t[i - 3];
        assert (p + rest)[i..] == t[i - 2..n] + rest;
        BehindHashes(ch, t, w, h, m, k, i - 2, rest);
      }
    }
    InertSum(ch, p, rest, true);
  }

  /** Whatever the content, no line of the quoted text opens with a heading. */
  lemma {:induction false} NeutralizedIsInert(ch: Chars, t: Text, lineStart: bool)
    requires ch.Valid()
    ensures Inert(ch, Neutralize(ch, t, lineStart), lineStart)
    decreases |t|
  {
    hide MatchHeading;
    if t == [] {
    } else if lineStart && MatchHeading(ch, t).Heading? {
      var f := MatchHeading(ch, t);
      NeutralizedIsInert(ch, t[f.end..], false);
      QuotedIsInert(ch, t, Neutralize(ch, t[f.end..], false));
    } else {
      NeutralizedIsInert(ch, t[1..], t[0] == '\n');
      var u := Neutralize(ch, t, lineStart);
      assert u[1..] == Neutralize(ch, t[1..], t[0] == '\n');
      if lineStart && MatchHeading(ch, u).Heading? {
        NoNewHeading(ch, t, lineStart);
      }
    }
  }

  /** Quoting changes exactly the texts that hold a heading, so doing it twice is doing it
      once. */
  lemma {:induction false} UnchangedIffInert(ch: Chars, t: Text, lineStart: bool)
    requires ch.Valid()
    ensures Neutralize(ch, t, lineStart) == t <==> Inert(ch, t, lineStart)
    decreases |t|
  {
    hide MatchHeading;
    if t == [] {
    } else if lineStart && MatchHeading(ch, t).Heading? {
      NeutralizedIsInert(ch, t, lineStart);
    } else {
      UnchangedIffInert(ch, t[1..], t[0] == '\n');
    }
  }

  lemma {:induction false} NeutralizeTwice(ch: Chars, t: Text, lineStart: bool)
    requires ch.Valid()
    ensures Neutralize(ch, Neutralize(ch, t, lineStart), lineStart) == Neutralize(ch, t, lineStart)
  {
    NeutralizedIsInert(ch, t, lineStart);
    UnchangedIffInert(ch, Neutralize(ch, t, lineStart), lineStart);
  }

  /** `u` is `t` with some "> " put in: nothing is lost, moved or otherwise added. */
  ghost predicate OnlyQuotes(t: Text, u: Text)
    decreases |u|
  {
    || (t == [] && u == [])
    || (t != [] && u != [] && t[0] == u[0] && OnlyQuotes(t[1..], u[1..]))
    || (t != [] && |u| >= 2 && u[..2] == "> " && OnlyQuotes(t, u[2..]))
  }

  lemma {:induction false} OnlyQuotesSum(p: Text, t: Text, u: Text)
    requires OnlyQuotes(t, u)
    ensures OnlyQuotes(p + t, p + u)
    decreases |p|
  {
    if p == [] {
      assert p + t == t && p + u == u;
    } else {
      OnlyQuotesSum(p[1..], t, u);
      assert (p + t)[1..] == p[1..] + t && (p + u)[1..] == p[1..] + u;
    }
  }

  lemma MarkAdded(t: Text, u: Text)
    requires t != [] && OnlyQuotes(t, u)
    ensures OnlyQuotes(t, "> " + u)
  {
    assert ("> " + u)[2..] == u && ("> " + u)[..2] == "> ";
  }

  lemma OneQuote(t: Text, w: nat, n: nat, rest: Text)
    requires w < n <= |t| && OnlyQuotes(t[n..], rest)
    ensures OnlyQuotes(t, t[..w] + "> " + t[w..n] + rest)
  {
    hide OnlyQuotes;
    OnlyQuotesSum(t[w..n], t[n..], rest);
    var u := "> " + (t[w..n] + rest);
    assert t[w..] == t[w..n] + t[n..];
    MarkAdded(t[w..], t[w..n] + rest);
    OnlyQuotesSum(t[..w], t[w..], u);
    assert t == t[..w] + t[w..];
    assert t[..w] + "> " + t[w..n] + rest == t[..w] + u;
  }

  lemma {:induction false} NeutralizeOnlyQuotes(ch: Chars, t: Text, lineStart: bool)
    ensures OnlyQuotes(t, Neutralize(ch, t, lineStart))
    decreases |t|
  {
    hide MatchHeading;
    if t == [] {
    } else if lineStart && MatchHeading(ch, t).Heading? {
      var f := MatchHeading(ch, t);
      var rest := Neutralize(ch, t[f.end..], false);
      NeutralizeOnlyQuotes(ch, t[f.end..], false);
      OneQuote(t, f.hashes, f.end, rest);
    } else {
      NeutralizeOnlyQuotes(ch, t[1..], t[0] == '\n');
      assert Neutralize(ch, t, lineStart)[1..] == Neutralize(ch, t[1..], t[0] == '\n');
    }
  }
}

/** Rebuilding complete tool calls from streamed fragments (agent_routes.py,
    _assemble_tool_calls).  JSON parsing is a parameter: `parse(text)` is the compact text
    of the object that `text` denotes, or None when it denotes no object. */
module ToolCallStream {
  import opened Prelude

  const MAX_CALLS: nat := 16
  const MAX_ARG_CHARS: nat := 100_000

  /** One streamed fragment.  An absent or empty id, name or arguments piece is "". */
  datatype Fragment =
    | NotAnObject
    | BadIndex
    | BadFunction
    | Fragment(index: int, id: string, name: string, piece: string)

  datatype Chunk = NotAList | Chunk(fragments: seq<Fragment>)

  datatype Call = Call(id: string, name: string, arguments: string)

  const Blank := Call("", "", "")

  // ----- the specification ------------------------------------------------------------

  function Merge(c: Call, f: Fragment): Call
    requires f.Fragment?
  {
    Call(if f.id != "" then f.id else c.id, if f.name != "" then f.name else c.name, c.arguments + f.piece)
  }

  function Add(m: map<int, Call>, f: Fragment): Option<map<int, Call>> {
    if !f.Fragment? || |m| >= MAX_CALLS then None
    else
      var c := Merge(if f.index in m then m[f.index] else Blank, f);
      if f.piece != "" && |c.arguments| > MAX_ARG_CHARS then None else Some(m[f.index := c])
  }

  function Fold(m: map<int, Call>, fs: seq<Fragment>): Option<map<int, Call>>
    decreases |fs|
  {
    if fs == [] then Some(m)
    else
      match Add(m, fs[0])
      case None => None
      case Some(m') => Fold(m', fs[1..])
  }

  /** The fragments in arrival order; a chunk of the wrong shape stands for one bad fragment. */
  function Flatten(chunks: seq<Chunk>): seq<Fragment> {
    if chunks == [] then []
    else (if chunks[0].NotAList? then [NotAnObject] else chunks[0].fragments) + Flatten(chunks[1..])
  }

  lemma {:induction false} MinimumExists(s: set<int>)
    requires s != {}
    ensures exists k :: k in s && IsLeast(k, s)
    decreases |s|
  {
    assert (forall k :: k !in s) ==> s == {};
    var k :| k in s;
    var rest := s - {k};
    if rest == {} {
      assert forall i :: i in s ==> i == k || i in rest;
      assert IsLeast(k, s);
    } else {
      MinimumExists(rest);
      var j :| j in rest && IsLeast(j, rest);
      var least := if k <= j then k else j;
      assert forall i :: i in s ==> i == k || i in rest;
      assert least in s && IsLeast(least, s);
    }
  }

  predicate IsLeast(k: int, s: set<int>) {
    forall i :: i in s ==> k <= i
  }

  /** Python's sorted() on a set of integers. */
  function Sorted(s: set<int>): (r: seq<int>)
    ensures |r| == |s|
    ensures forall k :: k in r <==> k in s
    ensures Increasing(r)
    decreases |s|
  {
    if s == {} then []
    else
      MinimumExists(s);
      var k :| k in s && IsLeast(k, s);
      var rest := Sorted(s - {k});
      PrependLeast(k, rest);
      assert forall i :: i in [k] + rest <==> i == k || i in rest;
      [k] + rest
  }

  predicate Increasing(r: seq<int>) {
    forall i, j :: 0 <= i < j < |r| ==> r[i] < r[j]
  }

  lemma PrependLeast(k: int, rest: seq<int>)
    requires Increasing(rest)
    ensures (forall i :: i in rest ==> k < i) ==> Increasing([k] + rest)
  {
    if forall i :: i in rest ==> k < i {
      forall i | 0 <= i < |rest| ensures k < rest[i] {
        assert rest[i] in rest;
      }
    }
  }

  function ArgumentText(c: Call): string {
    if c.arguments != "" then c.arguments else "{}"
  }

  /** A call is sound when its name is there and its argument text denotes an object. */
  predicate SoundCall(c: Call, parse: string -> Option<string>) {
    c.name != "" && parse(ArgumentText(c)).Some?
  }

  function Finished(c: Call, k: int, parse: string -> Option<string>, newId: int -> string): Call
    requires SoundCall(c, parse)
  {
    Call(if c.id != "" then c.id else newId(k), c.name, parse(ArgumentText(c)).value)
  }

  function Finish(m: map<int, Call>, keys: seq<int>, parse: string -> Option<string>, newId: int -> string): Option<seq<Call>>
    requires forall i :: 0 <= i < |keys| ==> keys[i] in m
  {
    if forall i :: 0 <= i < |keys| ==> SoundCall(m[keys[i]], parse)
    then Some(seq(|keys|, i requires 0 <= i < |keys| => Finished(m[keys[i]], keys[i], parse, newId)))
    else None
  }

  function Assemble(chunks: seq<Chunk>, parse: string -> Option<string>, newId: int -> string): Option<seq<Call>> {
    match Fold(map[], Flatten(chunks))
    case None => None
    case Some(m) => if m == map[] then None else Finish(m, Sorted(m.Keys), parse, newId)
  }

  // ----- the source's loops --------------------------------------------------------------

  lemma {:induction false} FoldAppend(m: map<int, Call>, a: seq<Fragment>, b: seq<Fragment>)
    ensures Fold(m, a + b) == match Fold(m, a) case None => None case Some(m') => Fold(m', b)
    decreases |a|
  {
    if a == [] {
      assert a + b == b;
    } else {
      assert (a + b)[1..] == a[1..] + b;
      if Add(m, a[0]).Some? {
        FoldAppend(Add(m, a[0]).value, a[1..], b);
      }
    }
  }

  method MergeFragment(start: map<int, Call>, f: Fragment) returns (r: Option<map<int, Call>>)
    ensures r == Add(start, f)
  {
    var byIndex := start;
    if !f.Fragment? || |byIndex| >= MAX_CALLS {
      return None;
    }
    if f.index !in byIndex {
      byIndex := byIndex[f.index := Blank];
    }
    var call := byIndex[f.index];
    if f.id != "" {
      call := call.(id := f.id);
    }
    if f.name != "" {
      call := call.(name := f.name);
    }
    if f.piece != "" {
      call := call.(arguments := call.arguments + f.piece);
      if |call.arguments| > MAX_ARG_CHARS {
        return None;
      }
    }
    MergedArguments(if f.index in start then start[f.index] else Blank, f);
    assert byIndex[f.index := call] == start[f.index := call];
    byIndex := byIndex[f.index := call];
    return Some(byIndex);
  }

  method MergeChunk(start: map<int, Call>, fragments: seq<Fragment>) returns (r: Option<map<int, Call>>)
    ensures r == Fold(start, fragments)
  {
    hide Add;
    var byIndex := start;
    for i := 0 to |fragments|
      invariant Fold(start, fragments) == Fold(byIndex, fragments[i..])
    {
      assert fragments[i..][0] == fragments[i] && fragments[i..][1..] == fragments[i + 1..];
      var merged := MergeFragment(byIndex, fragments[i]);
      if merged.None? {
        return None;
      }
      byIndex := merged.value;
    }
    return Some(byIndex);
  }

  method AssembleToolCalls(chunks: seq<Chunk>, parse: string -> Option<string>, newId: int -> string)
    returns (r: Option<seq<Call>>)
    ensures r == Assemble(chunks, parse, newId)
  {
    var byIndex: map<int, Call> := map[];
    for i := 0 to |chunks|
      invariant Fold(map[], Flatten(chunks)) == Fold(byIndex, Flatten(chunks[i..]))
    {
      assert chunks[i..][0] == chunks[i] && chunks[i..][1..] == chunks[i + 1..];
      if chunks[i].NotAList? {
        assert Flatten(chunks[i..])[0] == NotAnObject;
        return None;
      }
      FoldAppend(byIndex, chunks[i].fragments, Flatten(chunks[i + 1..]));
      var merged := MergeChunk(byIndex, chunks[i].fragments);
      if merged.None? {
        return None;
      }
      byIndex := merged.value;
    }
    assert chunks[|chunks|..] == [];
    if byIndex == map[] {
      return None;
    }
    r := FinishCalls(byIndex, Sorted(byIndex.Keys), parse, newId);
  }

  method FinishCalls(m: map<int, Call>, keys: seq<int>, parse: string -> Option<string>, newId: int -> string)
    returns (r: Option<seq<Call>>)
    requires forall i :: 0 <= i < |keys| ==> keys[i] in m
    ensures r == Finish(m, keys, parse, newId)
  {
    var out: seq<Call> := [];
    for i := 0 to |keys|
      invariant |out| == i
      invariant forall j :: 0 <= j < i ==>
                  SoundCall(m[keys[j]], parse) && out[j] == Finished(m[keys[j]], keys[j], parse, newId)
    {
      var call := m[keys[i]];
      if call.name == "" {
        return None;
      }
      var parsed := parse(ArgumentText(call));
      if parsed.None? {
        return None;
      }
      out := out + [Call(if call.id != "" then call.id else newId(keys[i]), call.name, parsed.value)];
    }
    var all := Finish(m, keys, parse, newId);
    assert all.Some? && out == all.value;
    return Some(out);
  }

  // ----- fragmentation invariance -------------------------------------------------------

  ghost function Indices(fs: seq<Fragment>): set<int> {
    set f | f in fs && f.Fragment? :: f.index
  }

  /** What the fragments of one index say together: the last id and name given, and the
      concatenation of the argument pieces. */
  ghost function Told(fs: seq<Fragment>, k: int): Call
    decreases |fs|
  {
    if fs == [] then Blank
    else
      var n := |fs| - 1;
      var before := Told(fs[..n], k);
      if fs[n].Fragment? && fs[n].index == k then Merge(before, fs[n]) else before
  }

  ghost predicate WellShaped(fs: seq<Fragment>) {
    forall f :: f in fs ==> f.Fragment?
  }

  /** The stream keeps within the two caps: when a fragment arrives fewer than MAX_CALLS
      indices are known, and no argument text grows past MAX_ARG_CHARS. */
  ghost predicate WithinCaps(fs: seq<Fragment>) {
    && (fs != [] ==> |Indices(fs[..|fs| - 1])| < MAX_CALLS)
    && forall k :: k in Indices(fs) ==> |Told(fs, k).arguments| <= MAX_ARG_CHARS
  }

  lemma IndicesAppend(fs: seq<Fragment>, f: Fragment)
    ensures Indices(fs + [f]) == Indices(fs) + (if f.Fragment? then {f.index} else {})
  {
    forall g ensures g in fs + [f] <==> g in fs || g == f {}
  }

  ghost function Table(fs: seq<Fragment>): map<int, Call> {
    map k | k in Indices(fs) :: Told(fs, k)
  }

  /** One more fragment: the table grows by what it says, or the caps are broken. */
  lemma AddTells(before: seq<Fragment>, f: Fragment)
    requires WellShaped(before) && WithinCaps(before)
    ensures Add(Table(before), f).Some? <==> WellShaped(before + [f]) && WithinCaps(before + [f])
    ensures Add(Table(before), f).Some? ==> Add(Table(before), f).value == Table(before + [f])
  {
    var fs := before + [f];
    var m := Table(before);
    assert fs[..|fs| - 1] == before;
    assert |m| == |m.Keys| && m.Keys == Indices(before);
    assert f in fs && forall g :: g in before ==> g in fs;
    if f.Fragment? {
      assert WellShaped(fs);
      TableGrows(before, f);
      UntoldIsBlank(before);
      var c := Merge(if f.index in m then m[f.index] else Blank, f);
      assert c == Told(fs, f.index);
      GrownCaps(before, f);
    }
  }

  lemma GrownCaps(before: seq<Fragment>, f: Fragment)
    requires WithinCaps(before) && f.Fragment?
    ensures WithinCaps(before + [f]) <==>
              |Indices(before)| < MAX_CALLS && (f.piece == "" || |Told(before + [f], f.index).arguments| <= MAX_ARG_CHARS)
  {
    hide Indices, Told, Merge, Table;
    var fs := before + [f];
    assert fs[..|fs| - 1] == before;
    TableGrows(before, f);
    IndicesAppend(before, f);
    UntoldIsBlank(before);
    assert f.index in Indices(fs);
    MergedArguments(Told(before, f.index), f);
  }

  lemma MergedArguments(c: Call, f: Fragment)
    requires f.Fragment?
    ensures f.piece == "" ==> Merge(c, f).arguments == c.arguments
  {
  }

  lemma TableGrows(before: seq<Fragment>, f: Fragment)
    requires f.Fragment?
    ensures Told(before + [f], f.index) == Merge(Told(before, f.index), f)
    ensures forall k :: k != f.index ==> Told(before + [f], k) == Told(before, k)
    ensures Table(before + [f]) == Table(before)[f.index := Told(before + [f], f.index)]
  {
    var fs := before + [f];
    assert fs[..|fs| - 1] == before && fs[|fs| - 1] == f;
    IndicesAppend(before, f);
  }

  /** The folding loop, exactly: it succeeds iff every fragment has the right shape and
      the caps hold, and then the table holds what the fragments of each index say
      together, whatever their interleaving. */
  lemma {:induction false} FoldTells(fs: seq<Fragment>)
    ensures Fold(map[], fs).Some? <==> WellShaped(fs) && WithinCaps(fs)
    ensures Fold(map[], fs).Some? ==> Fold(map[], fs).value == Table(fs)
    decreases |fs|
  {
    if fs == [] {
      assert Indices(fs) == {};
    } else {
      var before, f := fs[..|fs| - 1], fs[|fs| - 1];
      assert fs == before + [f];
      FoldTells(before);
      FoldAppend(map[], before, [f]);
      if Fold(map[], before).Some? {
        FoldOne(Table(before), f);
        AddTells(before, f);
      } else if WellShaped(fs) && WithinCaps(fs) {
        assert forall g :: g in before ==> g in fs;
        CapsOfPrefix(before, f);
      }
    }
  }

  lemma FoldOne(m: map<int, Call>, f: Fragment)
    ensures Fold(m, [f]) == Add(m, f)
  {
    assert [f][1..] == [];
  }

  lemma {:induction false} UntoldIsBlank(fs: seq<Fragment>)
    ensures forall k :: k !in Indices(fs) ==> Told(fs, k) == Blank
    decreases |fs|
  {
    if fs != [] {
      var n := |fs| - 1;
      UntoldIsBlank(fs[..n]);
      assert fs == fs[..n] + [fs[n]];
      IndicesAppend(fs[..n], fs[n]);
    }
  }

  lemma CapsOfPrefix(before: seq<Fragment>, f: Fragment)
    requires WellShaped(before + [f]) && WithinCaps(before + [f])
    ensures WithinCaps(before)
  {
    var fs := before + [f];
    assert fs[..|fs| - 1] == before;
    IndicesAppend(before, f);
    if before != [] {
      var n := |before| - 1;
      assert before == before[..n] + [before[n]];
      IndicesAppend(before[..n], before[n]);
      var small, big := Indices(before[..n]), Indices(before);
      assert small <= big;
      assert |small| <= |big| by { SubsetSize(small, big); }
    }
    forall k | k in Indices(before) ensures |Told(before, k).arguments| <= MAX_ARG_CHARS {
      assert k in Indices(fs);
      assert |Told(fs, k).arguments| >= |Told(before, k).arguments|;
    }
  }

  // ----- what the fragments of an index say ----------------------------------------------

  /** The `i`-th fragment speaks of call `k`. */
  ghost predicate Of(fs: seq<Fragment>, k: int, i: nat) {
    i < |fs| && fs[i].Fragment? && fs[i].index == k
  }

  datatype Field = IdField | NameField

  function Word(f: Fragment, field: Field): string
    requires f.Fragment?
  {
    match field case IdField => f.id case NameField => f.name
  }

  /** The `i`-th fragment gives the word, and no later one of the call gives another. */
  ghost predicate GivenLast(fs: seq<Fragment>, k: int, field: Field, word: string, i: nat) {
    && Of(fs, k, i) && Word(fs[i], field) == word
    && forall j: nat :: i < j && Of(fs, k, j) ==> Word(fs[j], field) == ""
  }

  /** The last word that is not empty, or the empty word if there is none. */
  ghost predicate LastWord(fs: seq<Fragment>, k: int, field: Field, word: string) {
    if word == "" then forall i: nat :: Of(fs, k, i) ==> Word(fs[i], field) == ""
    else exists i: nat :: GivenLast(fs, k, field, word, i)
  }

  /** The `i`-th fragment carries the part of the text from `at[i]` to `at[i + 1]` if it speaks
      of the call, and nothing lies there if it does not. */
  ghost predicate PartAt(fs: seq<Fragment>, k: int, text: string, at: seq<nat>, i: nat)
    requires i < |fs| && |at| == |fs| + 1
  {
    at[i] <= at[i + 1] <= |text| && text[at[i]..at[i + 1]] == if Of(fs, k, i) then fs[i].piece else ""
  }

  ghost predicate CutAt(fs: seq<Fragment>, k: int, text: string, at: seq<nat>) {
    && |at| == |fs| + 1 && at[0] == 0 && at[|fs|] == |text|
    && forall i: nat :: i < |fs| ==> PartAt(fs, k, text, at, i)
  }

  /** The fragments of index `k` are a way of cutting up this call. */
  ghost predicate Says(fs: seq<Fragment>, k: int, c: Call) {
    LastWord(fs, k, IdField, c.id) && LastWord(fs, k, NameField, c.name) && exists at :: CutAt(fs, k, c.arguments, at)
  }

  lemma {:induction false} ToldWords(fs: seq<Fragment>, k: int)
    ensures LastWord(fs, k, IdField, Told(fs, k).id) && LastWord(fs, k, NameField, Told(fs, k).name)
    decreases |fs|
  {
    if fs != [] {
      var n := |fs| - 1;
      ToldWords(fs[..n], k);
      assert fs == fs[..n] + [fs[n]];
      WordMore(fs[..n], fs[n], k, IdField, Told(fs[..n], k).id);
      WordMore(fs[..n], fs[n], k, NameField, Told(fs[..n], k).name);
    }
  }

  lemma WordMore(fs: seq<Fragment>, f: Fragment, k: int, field: Field, word: string)
    requires LastWord(fs, k, field, word)
    ensures LastWord(fs + [f], k, field, if f.Fragment? && f.index == k && Word(f, field) != "" then Word(f, field) else word)
  {
    var all := fs + [f];
    assert forall i: nat :: Of(all, k, i) <==> Of(fs, k, i) || (i == |fs| && f.Fragment? && f.index == k);
    if Of(all, k, |fs|) && Word(f, field) != "" {
      assert GivenLast(all, k, field, Word(f, field), |fs|);
    } else if word != "" {
      var i: nat :| GivenLast(fs, k, field, word, i);
      assert GivenLast(all, k, field, word, i);
    }
  }

  lemma LastWordOnce(fs: seq<Fragment>, k: int, field: Field, a: string, b: string)
    requires LastWord(fs, k, field, a) && LastWord(fs, k, field, b)
    ensures a == b
  {
    if a != "" && b != "" {
      var i: nat :| GivenLast(fs, k, field, a, i);
      var j: nat :| GivenLast(fs, k, field, b, j);
      assert i == j;
    }
  }

  lemma {:induction false} ToldIsCut(fs: seq<Fragment>, k: int) returns (at: seq<nat>)
    ensures CutAt(fs, k, Told(fs, k).arguments, at)
    decreases |fs|
  {
    if fs == [] {
      at := [0];
    } else {
      var n := |fs| - 1;
      var before := ToldIsCut(fs[..n], k);
      var text := Told(fs, k).arguments;
      at := before + [|text|];
      CutMore(fs[..n], fs[n], k, Told(fs[..n], k).arguments, before);
      assert fs == fs[..n] + [fs[n]];
    }
  }

  lemma CutMore(fs: seq<Fragment>, f: Fragment, k: int, text: string, at: seq<nat>)
    requires CutAt(fs, k, text, at)
    ensures var more := if f.Fragment? && f.index == k then text + f.piece else text; CutAt(fs + [f], k, more, at + [|more|])
  {
    var all, more := fs + [f], if f.Fragment? && f.index == k then text + f.piece else text;
    var cuts := at + [|more|];
    forall i: nat | i < |all| ensures PartAt(all, k, more, cuts, i) {
      if i < |fs| {
        assert PartAt(fs, k, text, at, i);
        SamePart(fs, all, k, text, more, at, cuts, i);
      }
    }
  }

  lemma SamePart(fs: seq<Fragment>, fs': seq<Fragment>, k: int, text: string, text': string, at: seq<nat>, at': seq<nat>, i: nat)
    requires fs <= fs' && text <= text' && at <= at' && |at| == |fs| + 1 && |at'| == |fs'| + 1
    requires i < |fs| && at[i + 1] <= |text|
    ensures PartAt(fs, k, text, at, i) == PartAt(fs', k, text', at', i)
  {
    assert at'[i] == at[i] && at'[i + 1] == at[i + 1] && fs'[i] == fs[i];
    if at[i] <= at[i + 1] {
      assert text'[at[i]..at[i + 1]] == text[at[i]..at[i + 1]];
    }
  }

  lemma {:induction false} CutIsTold(fs: seq<Fragment>, k: int, text: string, at: seq<nat>)
    requires CutAt(fs, k, text, at)
    ensures text == Told(fs, k).arguments
    decreases |fs|
  {
    if fs != [] {
      var n := |fs| - 1;
      assert PartAt(fs, k, text, at, n);
      var before := text[..at[n]];
      CutBefore(fs, k, text, at);
      CutIsTold(fs[..n], k, before, at[..n + 1]);
      assert text == before + text[at[n]..at[n + 1]];
    }
  }

  lemma CutBefore(fs: seq<Fragment>, k: int, text: string, at: seq<nat>)
    requires fs != [] && CutAt(fs, k, text, at)
    ensures var n := |fs| - 1; at[n] <= |text| && CutAt(fs[..n], k, text[..at[n]], at[..n + 1])
  {
    var n := |fs| - 1;
    assert PartAt(fs, k, text, at, n);
    var init, before, cuts := fs[..n], text[..at[n]], at[..n + 1];
    forall i: nat | i < n ensures PartAt(init, k, before, cuts, i) {
      CutsRise(fs, k, text, at, i + 1);
      assert PartAt(fs, k, text, at, i);
      SamePart(init, fs, k, before, text, cuts, at, i);
    }
  }

  lemma {:induction false} CutsRise(fs: seq<Fragment>, k: int, text: string, at: seq<nat>, i: nat)
    requires CutAt(fs, k, text, at) && i < |fs|
    ensures at[i] <= at[|fs| - 1]
    decreases |fs| - i
  {
    if i < |fs| - 1 {
      CutsRise(fs, k, text, at, i + 1);
      assert PartAt(fs, k, text, at, i);
    }
  }

  /** The fragments of an index say one call and no other: the last id and the last name given,
      and the argument pieces joined in the order of their arrival. */
  lemma ToldIff(fs: seq<Fragment>, k: int, c: Call)
    ensures Says(fs, k, c) <==> c == Told(fs, k)
  {
    hide CutAt, LastWord, Told;
    ToldWords(fs, k);
    var at := ToldIsCut(fs, k);
    if Says(fs, k, c) {
      LastWordOnce(fs, k, IdField, c.id, Told(fs, k).id);
      LastWordOnce(fs, k, NameField, c.name, Told(fs, k).name);
      var cuts :| CutAt(fs, k, c.arguments, cuts);
      CutIsTold(fs, k, c.arguments, cuts);
    }
  }

  /** Fragments arrive chunk after chunk. */
  lemma {:induction false} InArrivalOrder(chunks: seq<Chunk>, fragments: seq<Fragment>)
    ensures Flatten(chunks + [Chunk(fragments)]) == Flatten(chunks) + fragments
    ensures Flatten(chunks + [NotAList]) == Flatten(chunks) + [NotAnObject]
    decreases |chunks|
  {
    if chunks == [] {
      assert [Chunk(fragments)][1..] == [] && [NotAList][1..] == [];
      assert chunks + [Chunk(fragments)] == [Chunk(fragments)] && chunks + [NotAList] == [NotAList];
    } else {
      InArrivalOrder(chunks[1..], fragments);
      assert (chunks + [Chunk(fragments)])[1..] == chunks[1..] + [Chunk(fragments)];
      assert (chunks + [NotAList])[1..] == chunks[1..] + [NotAList];
    }
  }

  /** What the folding loop holds at the end of a stream, exactly. */
  lemma FoldSays(fs: seq<Fragment>, k: int, c: Call)
    requires Fold(map[], fs).Some?
    ensures var m := Fold(map[], fs).value;
            (k in m <==> exists i: nat :: Of(fs, k, i)) && (k in m && m[k] == c <==> k in m && Says(fs, k, c))
  {
    hide Told, Fold, Says;
    FoldTells(fs);
    ToldIff(fs, k, c);
    if k in Indices(fs) {
      var f :| f in fs && f.Fragment? && f.index == k;
      var i: nat :| i < |fs| && fs[i] == f;
      assert Of(fs, k, i);
    }
  }

  // ----- any fragmentation ---------------------------------------------------------------------

  /** `fs` is some way of cutting the calls into fragments and interleaving them: nothing
      but fragments of these calls, each call cut up into the fragments of its index. */
  ghost predicate Fragmentation(fs: seq<Fragment>, calls: map<int, Call>) {
    && WellShaped(fs)
    && Indices(fs) == calls.Keys
    && forall k :: k in calls ==> Says(fs, k, calls[k])
  }

  /** Every call has its name, and the argument text, or "{}" if there is none, denotes an
      object. */
  ghost predicate AllSound(calls: map<int, Call>, parse: string -> Option<string>) {
    forall k :: k in calls ==>
      calls[k].name != "" && (if calls[k].arguments == "" then parse("{}") else parse(calls[k].arguments)).Some?
  }

  lemma FragmentationTold(fs: seq<Fragment>, calls: map<int, Call>)
    requires Fragmentation(fs, calls)
    ensures forall k :: k in calls ==> Told(fs, k) == calls[k]
  {
    hide Says, Told;
    forall k | k in calls ensures Told(fs, k) == calls[k] {
      ToldIff(fs, k, calls[k]);
    }
  }

  /** Fragmentation invariance.  However fewer than sixteen calls, each with its argument
      text within the length cap, are cut into fragments and interleaved over chunks, the
      result is the same: the calls in index order, arguments parsed, when every call is
      sound, and None otherwise. */
  lemma {:induction false} AnyFragmentationReassembles(chunks: seq<Chunk>, calls: map<int, Call>, parse: string -> Option<string>, newId: int -> string)
    requires Fragmentation(Flatten(chunks), calls)
    requires 0 < |calls| < MAX_CALLS
    requires forall k :: k in calls ==> |calls[k].arguments| <= MAX_ARG_CHARS
    ensures var r := Assemble(chunks, parse, newId);
            && (r.Some? <==> AllSound(calls, parse))
            && (r.Some? ==> InIndexOrder(r.value, calls, parse, newId))
  {
    hide Says, Assemble, Fragmentation, Sorted;
    AssemblesTable(chunks, calls, parse, newId);
    EveryKeyListed(calls, parse);
  }

  /** `out` is the finished calls, in index order. */
  ghost predicate InIndexOrder(out: seq<Call>, calls: map<int, Call>, parse: string -> Option<string>, newId: int -> string) {
    var keys := Sorted(calls.Keys);
    && |out| == |keys|
    && forall i :: 0 <= i < |keys| ==>
         && keys[i] in calls
         && var c := calls[keys[i]];
            && out[i].name == c.name
            && (c.id != "" ==> out[i].id == c.id) && (c.id == "" ==> out[i].id == newId(keys[i]))
            && Some(out[i].arguments) == if c.arguments == "" then parse("{}") else parse(c.arguments)
  }

  lemma {:induction false} AssemblesTable(chunks: seq<Chunk>, calls: map<int, Call>, parse: string -> Option<string>, newId: int -> string)
    requires Fragmentation(Flatten(chunks), calls)
    requires 0 < |calls| < MAX_CALLS
    requires forall k :: k in calls ==> |calls[k].arguments| <= MAX_ARG_CHARS
    ensures forall i :: 0 <= i < |Sorted(calls.Keys)| ==> Sorted(calls.Keys)[i] in calls
    ensures Assemble(chunks, parse, newId) == Finish(calls, Sorted(calls.Keys), parse, newId)
  {
    hide Told, Finish, Flatten, SoundCall, Fold, Table, Says;
    var fs := Flatten(chunks);
    EveryKeyListed(calls, parse);
    NoCallsNoFragments(fs, calls);
    CapsFromCalls(fs, calls);
    TableIsCalls(fs, calls);
  }

  lemma TableIsCalls(fs: seq<Fragment>, calls: map<int, Call>)
    requires Fragmentation(fs, calls) && fs != [] && WithinCaps(fs)
    ensures Fold(map[], fs) == Some(calls)
  {
    hide Told, Says;
    FoldTells(fs);
    FragmentationTold(fs, calls);
    assert Table(fs) == calls;
  }

  lemma NoCallsNoFragments(fs: seq<Fragment>, calls: map<int, Call>)
    requires Fragmentation(fs, calls) && |calls| > 0
    ensures fs != []
  {
    hide Says;
    assert |calls.Keys| == |calls|;
    assert fs == [] ==> Indices(fs) == {};
  }

  lemma EveryKeyListed(calls: map<int, Call>, parse: string -> Option<string>)
    ensures var keys := Sorted(calls.Keys);
            && (forall i :: 0 <= i < |keys| ==> keys[i] in calls)
            && ((forall i :: 0 <= i < |keys| ==> SoundCall(calls[keys[i]], parse)) <==>
                  (forall k :: k in calls ==> SoundCall(calls[k], parse)))
  {
    var keys := Sorted(calls.Keys);
    assert forall i :: 0 <= i < |keys| ==> keys[i] in keys;
    forall k | k in calls ensures exists i :: 0 <= i < |keys| && keys[i] == k {
      assert k in keys;
    }
  }

  lemma CapsFromCalls(fs: seq<Fragment>, calls: map<int, Call>)
    requires Fragmentation(fs, calls) && fs != []
    requires |calls| < MAX_CALLS
    requires forall k :: k in calls ==> |calls[k].arguments| <= MAX_ARG_CHARS
    ensures WithinCaps(fs)
  {
    hide Says, Told;
    FragmentationTold(fs, calls);
    assert |calls| == |calls.Keys|;
    assert fs == fs[..|fs| - 1] + [fs[|fs| - 1]];
    IndicesAppend(fs[..|fs| - 1], fs[|fs| - 1]);
    SubsetSize(Indices(fs[..|fs| - 1]), Indices(fs));
  }

  /** The cap on calls bites one fragment late: sixteen indices assemble only if the
      fragment that brings in the sixteenth is the last of the stream. */
  lemma SixteenthCallMustComeLast(fs: seq<Fragment>, f: Fragment)
    requires |Indices(fs)| == MAX_CALLS
    ensures Fold(map[], fs + [f]).None?
  {
    FoldTells(fs + [f]);
    assert (fs + [f])[..|fs + [f]| - 1] == fs;
  }
}

/** The type printers of tools/gen-ni-schema.py (_union, py_type, ts_type) as token lists,
    the type trees they mean, and a parser in which `[]` binds tighter than `|`. */
module TypeText {
  import opened Prelude
  import opened SchemaOrder

  datatype Lang = Python | TypeScript

  datatype Base = BString | BInt | BNumber | BBool | BNull | BAny

  /** A type is a nonempty list of alternatives. */
  datatype Ty =
    | Name(n: string)
    | Basic(base: Base)
    | Lit(value: string)
    | Lits(values: seq<string>)
    | ListOf(elem: seq<Ty>)
    | DictOf(elem: seq<Ty>)

  /** `Brackets` is TypeScript's `[]`; `EndBracket` is Python's `]`. */
  datatype Tok =
    | Ident(n: string) | Word(base: Base) | Quoted(value: string)
    | Bar | Open | Close | Brackets | RecordOpen | RecordClose
    | ListOpen | DictOpen | LiteralOpen | Comma | EndBracket

  // ----- printing, as the generator does it ------------------------------------------------------

  /** What the printers need of a schema: an array has items, a choice has members. */
  predicate Printable(s: Schema) {
    match s
    case Ref(_) => true
    case AnyOf(alts) => alts != [] && forall i :: 0 <= i < |alts| ==> Printable(alts[i])
    case Shape(enum, kind, _, items, properties, _, extra) =>
      if enum.Some? then enum.value != []
      else if kind == Some(KArray) then items.Some? && Printable(items.value)
      else if kind == Some(KObject) && properties.Unlisted? && extra.Each? then Printable(extra.schema)
      else true
  }

  /** dict.fromkeys: the first of equal entries stays. */
  function Dedup<T(==,!new)>(xs: seq<T>): (r: seq<T>)
    ensures forall x :: x in r <==> x in xs
    ensures forall i, j :: 0 <= i < j < |r| ==> r[i] != r[j]
    ensures |r| <= |xs| && (xs != [] ==> r != [])
  {
    if xs == [] then []
    else
      var front := Dedup(xs[..|xs| - 1]);
      assert xs == xs[..|xs| - 1] + [xs[|xs| - 1]];
      if xs[|xs| - 1] in front then front else front + [xs[|xs| - 1]]
  }

  function Join(parts: seq<seq<Tok>>, sep: Tok): seq<Tok> {
    if parts == [] then [] else if |parts| == 1 then parts[0] else parts[0] + [sep] + Join(parts[1..], sep)
  }

  function Union(parts: seq<seq<Tok>>): seq<Tok> {
    Join(Dedup(parts), Bar)
  }

  function Quotes(values: seq<string>): (r: seq<seq<Tok>>)
    ensures |r| == |values| && forall i :: 0 <= i < |values| ==> r[i] == [Quoted(values[i])]
  {
    seq(|values|, i requires 0 <= i < |values| => [Quoted(values[i])])
  }

  function PyType(s: Schema): seq<Tok>
    requires Printable(s)
  {
    match s
    case Ref(name) => [Ident(name)]
    case AnyOf(alts) => Union(PyTypes(alts))
    case Shape(enum, kind, _, items, properties, _, extra) =>
      if enum.Some? then [LiteralOpen] + Join(Quotes(enum.value), Comma) + [EndBracket]
      else if kind.None? then [Word(BAny)]
      else
        match kind.value
        case KString => [Word(BString)]
        case KInteger => [Word(BInt)]
        case KNumber => [Word(BNumber)]
        case KBoolean => [Word(BBool)]
        case KNull => [Word(BNull)]
        case KArray => [ListOpen] + PyType(items.value) + [EndBracket]
        case KObject =>
          if properties.Listed? then [Word(BAny)]
          else if extra.Each? then [DictOpen] + PyType(extra.schema) + [EndBracket]
          else [DictOpen, Word(BAny), EndBracket]
  }

  function PyTypes(ss: seq<Schema>): (r: seq<seq<Tok>>)
    requires forall i :: 0 <= i < |ss| ==> Printable(ss[i])
    ensures |r| == |ss| && forall i :: 0 <= i < |ss| ==> r[i] == PyType(ss[i])
  {
    if ss == [] then [] else [PyType(ss[0])] + PyTypes(ss[1..])
  }

  /** The test `" | " in inner`, on the printed text: a union, or a literal that contains
      those three characters. */
  predicate MentionsBar(toks: seq<Tok>) {
    exists i :: 0 <= i < |toks| && (toks[i] == Bar || (toks[i].Quoted? && HoldsBar(toks[i].value)))
  }

  predicate HoldsBar(s: string) {
    exists i :: 0 <= i <= |s| - 3 && s[i] == ' ' && s[i + 1] == '|' && s[i + 2] == ' '
  }

  function TsArray(inner: seq<Tok>): seq<Tok> {
    if MentionsBar(inner) then [Open] + inner + [Close, Brackets] else inner + [Brackets]
  }

  function TsType(s: Schema): seq<Tok>
    requires Printable(s)
  {
    match s
    case Ref(name) => [Ident(name)]
    case AnyOf(alts) => Union(TsTypes(alts))
    case Shape(enum, kind, _, items, properties, _, extra) =>
      if enum.Some? then Union(Quotes(enum.value))
      else if kind.None? then [Word(BAny)]
      else
        match kind.value
        case KString => [Word(BString)]
        case KInteger => [Word(BNumber)]
        case KNumber => [Word(BNumber)]
        case KBoolean => [Word(BBool)]
        case KNull => [Word(BNull)]
        case KArray => TsArray(TsType(items.value))
        case KObject =>
          if properties.Listed? then [Word(BAny)]
          else if extra.Each? then [RecordOpen] + TsType(extra.schema) + [RecordClose]
          else [RecordOpen, Word(BAny), RecordClose]
  }

  function TsTypes(ss: seq<Schema>): (r: seq<seq<Tok>>)
    requires forall i :: 0 <= i < |ss| ==> Printable(ss[i])
    ensures |r| == |ss| && forall i :: 0 <= i < |ss| ==> r[i] == TsType(ss[i])
  {
    if ss == [] then [] else [TsType(ss[0])] + TsTypes(ss[1..])
  }

  function TypeOf(lang: Lang, s: Schema): seq<Tok>
    requires Printable(s)
  {
    if lang.Python? then PyType(s) else TsType(s)
  }

  // ----- the intended tree -----------------------------------------------------------------------

  function Flatten(parts: seq<seq<Ty>>): seq<Ty> {
    if parts == [] then [] else parts[0] + Flatten(parts[1..])
  }

  function LitParts(values: seq<string>): (r: seq<seq<Ty>>)
    ensures |r| == |values| && forall i :: 0 <= i < |values| ==> r[i] == [Lit(values[i])]
  {
    seq(|values|, i requires 0 <= i < |values| => [Lit(values[i])])
  }

  function BaseOf(lang: Lang, k: Kind): Base {
    match k
    case KString => BString
    case KInteger => if lang.Python? then BInt else BNumber
    case KNumber => BNumber
    case KBoolean => BBool
    case KNull => BNull
    case _ => BAny
  }

  function Tree(lang: Lang, s: Schema): seq<Ty>
    requires Printable(s)
  {
    match s
    case Ref(name) => [Name(name)]
    case AnyOf(alts) => Flatten(Dedup(Trees(lang, alts)))
    case Shape(enum, kind, _, items, properties, _, extra) =>
      if enum.Some? then if lang.Python? then [Lits(enum.value)] else Flatten(Dedup(LitParts(enum.value)))
      else if kind == Some(KArray) then [ListOf(Tree(lang, items.value))]
      else if kind == Some(KObject) && properties.Unlisted? then
        [DictOf(if extra.Each? then Tree(lang, extra.schema) else [Basic(BAny)])]
      else [Basic(if kind.Some? then BaseOf(lang, kind.value) else BAny)]
  }

  function Trees(lang: Lang, ss: seq<Schema>): (r: seq<seq<Ty>>)
    requires forall i :: 0 <= i < |ss| ==> Printable(ss[i])
    ensures |r| == |ss| && forall i :: 0 <= i < |ss| ==> r[i] == Tree(lang, ss[i])
  {
    if ss == [] then [] else [Tree(lang, ss[0])] + Trees(lang, ss[1..])
  }

  // ----- the notation of trees ------------------------------------------------------------------

  /** Trees a language has a notation for. */
  predicate Notable(lang: Lang, t: Ty) {
    match t
    case Lit(_) => lang.TypeScript?
    case Lits(values) => lang.Python? && values != []
    case ListOf(elem) => AllNotable(lang, elem)
    case DictOf(elem) => AllNotable(lang, elem)
    case _ => true
  }

  predicate AllNotable(lang: Lang, alts: seq<Ty>) {
    alts != [] && forall i :: 0 <= i < |alts| ==> Notable(lang, alts[i])
  }

  function PrintOne(lang: Lang, t: Ty): (r: seq<Tok>)
  {
    match t
    case Name(n) => [Ident(n)]
    case Basic(b) => [Word(b)]
    case Lit(v) => [Quoted(v)]
    case Lits(vs) => [LiteralOpen] + Join(Quotes(vs), Comma) + [EndBracket]
    case ListOf(elem) =>
      if lang.Python? then [ListOpen] + Print(lang, elem) + [EndBracket] else TsArray(Print(lang, elem))
    case DictOf(elem) =>
      if lang.Python? then [DictOpen] + Print(lang, elem) + [EndBracket]
      else [RecordOpen] + Print(lang, elem) + [RecordClose]
  }

  function Print(lang: Lang, alts: seq<Ty>): seq<Tok> {
    if alts == [] then []
    else if |alts| == 1 then PrintOne(lang, alts[0])
    else PrintOne(lang, alts[0]) + [Bar] + Print(lang, alts[1..])
  }

  // ----- a parser for both notations ----------------------------------------------------------

  datatype Parsed = Fail | Got(alts: seq<Ty>, rest: seq<Tok>)

  /** What a pair of brackets makes of the type between them. */
  datatype Wrap = Group | AsList | AsDict

  function Wrapped(wrap: Wrap, a: seq<Ty>): seq<Ty> {
    match wrap
    case Group => a
    case AsList => [ListOf(a)]
    case AsDict => [DictOf(a)]
  }

  predicate At(toks: seq<Tok>, t: Tok) {
    toks != [] && toks[0] == t
  }

  /** Alternatives separated by `|`. */
  function ParseType(toks: seq<Tok>): (p: Parsed)
    ensures p.Got? ==> |p.rest| < |toks|
    decreases |toks|, 2
  {
    match ParsePostfix(toks)
    case Fail => Fail
    case Got(a, rest) =>
      if At(rest, Bar) then
        match ParseType(rest[1..])
        case Fail => Fail
        case Got(b, rest') => Got(a + b, rest')
      else Got(a, rest)
  }

  /** An atom, then any number of `[]`. */
  function ParsePostfix(toks: seq<Tok>): (p: Parsed)
    ensures p.Got? ==> |p.rest| < |toks|
    decreases |toks|, 1
  {
    match ParseAtom(toks)
    case Fail => Fail
    case Got(a, rest) => Suffixes(a, rest)
  }

  function Suffixes(a: seq<Ty>, rest: seq<Tok>): (p: Parsed)
    ensures p.Got? && |p.rest| <= |rest|
    decreases |rest|
  {
    if At(rest, Brackets) then Suffixes([ListOf(a)], rest[1..]) else Got(a, rest)
  }

  function ParseAtom(toks: seq<Tok>): (p: Parsed)
    ensures p.Got? ==> |p.rest| < |toks|
    decreases |toks|, 0
  {
    if toks == [] then Fail
    else
      var rest := toks[1..];
      match toks[0]
      case Ident(n) => Got([Name(n)], rest)
      case Word(b) => Got([Basic(b)], rest)
      case Quoted(v) => Got([Lit(v)], rest)
      case LiteralOpen => ParseValues([], rest)
      case Open => ParseEnclosed(rest, Close, Group)
      case RecordOpen => ParseEnclosed(rest, RecordClose, AsDict)
      case ListOpen => ParseEnclosed(rest, EndBracket, AsList)
      case DictOpen => ParseEnclosed(rest, EndBracket, AsDict)
      case _ => Fail
  }

  function ParseEnclosed(toks: seq<Tok>, end: Tok, wrap: Wrap): (p: Parsed)
    ensures p.Got? ==> |p.rest| < |toks|
    decreases |toks|, 3
  {
    match ParseType(toks)
    case Fail => Fail
    case Got(a, rest) => if At(rest, end) then Got(Wrapped(wrap, a), rest[1..]) else Fail
  }

  function ParseValues(before: seq<string>, toks: seq<Tok>): (p: Parsed)
    ensures p.Got? ==> |p.rest| < |toks|
    decreases |toks|
  {
    if |toks| < 2 || !toks[0].Quoted? then Fail
    else
      var values := before + [toks[0].value];
      if toks[1] == Comma then ParseValues(values, toks[2..])
      else if toks[1] == EndBracket then Got([Lits(values)], toks[2..])
      else Fail
  }

  function Parse(toks: seq<Tok>): Option<seq<Ty>> {
    match ParseType(toks)
    case Fail => None
    case Got(a, rest) => if rest == [] then Some(a) else None
  }

  // ----- parsing what was printed -----------------------------------------------------------------

  predicate Stops(rest: seq<Tok>) {
    !At(rest, Bar) && !At(rest, Brackets)
  }

  lemma {:induction false} ValuesParse(before: seq<string>, values: seq<string>, rest: seq<Tok>)
    requires values != []
    ensures ParseValues(before, Join(Quotes(values), Comma) + [EndBracket] + rest) == Got([Lits(before + values)], rest)
    decreases |values|
  {
    var toks := Join(Quotes(values), Comma) + [EndBracket] + rest;
    if |values| == 1 {
      assert toks == [Quoted(values[0]), EndBracket] + rest;
      assert toks[2..] == rest;
      assert before + values == before + [values[0]];
    } else {
      assert Quotes(values)[1..] == Quotes(values[1..]);
      assert toks == [Quoted(values[0]), Comma] + (Join(Quotes(values[1..]), Comma) + [EndBracket] + rest);
      assert toks[2..] == Join(Quotes(values[1..]), Comma) + [EndBracket] + rest;
      ValuesParse(before + [values[0]], values[1..], rest);
      assert before + [values[0]] + values[1..] == before + values;
    }
  }

  lemma EnclosedParses(lang: Lang, elem: seq<Ty>, end: Tok, wrap: Wrap, rest: seq<Tok>)
    requires AllNotable(lang, elem) && end in {Close, RecordClose, EndBracket}
    ensures ParseEnclosed(Print(lang, elem) + [end] + rest, end, wrap) == Got(Wrapped(wrap, elem), rest)
    decreases elem, 1
  {
    PrintParses(lang, elem, [end] + rest);
    assert Print(lang, elem) + [end] + rest == Print(lang, elem) + ([end] + rest);
    assert ([end] + rest)[1..] == rest;
  }

  /** A printed alternative parses as itself, and whatever `[]` follow it apply to it. */
  lemma {:induction false} PrintOneParses(lang: Lang, t: Ty, rest: seq<Tok>)
    requires Notable(lang, t)
    ensures ParsePostfix(PrintOne(lang, t) + rest) == Suffixes([t], rest)
    decreases t, 0
  {
    hide ParseType, ParseEnclosed, ParseValues, Print, Join, Suffixes, TsArray;
    var toks := PrintOne(lang, t) + rest;
    match t {
      case Name(n) => assert toks[1..] == rest;
      case Basic(b) => assert toks[1..] == rest;
      case Lit(v) => assert toks[1..] == rest;
      case Lits(vs) =>
        ValuesParse([], vs, rest);
        assert toks[1..] == Join(Quotes(vs), Comma) + [EndBracket] + rest;
        assert [] + vs == vs;
      case DictOf(elem) =>
        var end := if lang.Python? then EndBracket else RecordClose;
        EnclosedParses(lang, elem, end, AsDict, rest);
        assert toks[1..] == Print(lang, elem) + [end] + rest;
      case ListOf(elem) =>
        if lang.Python? {
          EnclosedParses(lang, elem, EndBracket, AsList, rest);
          assert toks[1..] == Print(lang, elem) + [EndBracket] + rest;
        } else {
          TsArrayParses(elem, rest);
        }
    }
  }

  /** Parentheses stand wherever they are needed. */
  lemma TsArrayParses(elem: seq<Ty>, rest: seq<Tok>)
    requires AllNotable(TypeScript, elem)
    ensures ParsePostfix(TsArray(Print(TypeScript, elem)) + rest) == Suffixes([ListOf(elem)], rest)
    decreases elem, 3
  {
    hide AllNotable, ParsePostfix, Print, Suffixes, MentionsBar;
    var inner := Print(TypeScript, elem);
    var after := [Brackets] + rest;
    BracketsApply(elem, rest);
    if MentionsBar(inner) {
      GroupedParses(elem, after);
      assert TsArray(inner) + rest == [Open] + inner + [Close] + after;
    } else {
      NoBarNoUnion(elem);
      OneParses(elem, after);
      assert TsArray(inner) + rest == inner + after;
    }
  }

  lemma BracketsApply(elem: seq<Ty>, rest: seq<Tok>)
    ensures Suffixes(elem, [Brackets] + rest) == Suffixes([ListOf(elem)], rest)
  {
    assert ([Brackets] + rest)[1..] == rest;
  }

  lemma GroupedParses(elem: seq<Ty>, after: seq<Tok>)
    requires AllNotable(TypeScript, elem)
    ensures ParsePostfix([Open] + Print(TypeScript, elem) + [Close] + after) == Suffixes(elem, after)
    decreases elem, 2
  {
    hide AllNotable, ParsePostfix, ParseEnclosed, Print, Suffixes;
    var inner := Print(TypeScript, elem);
    var toks := [Open] + inner + [Close] + after;
    EnclosedParses(TypeScript, elem, Close, Group, after);
    assert toks[1..] == inner + [Close] + after;
    GroupParses(toks, elem, after);
  }

  lemma GroupParses(toks: seq<Tok>, elem: seq<Ty>, after: seq<Tok>)
    requires toks != [] && toks[0] == Open && ParseEnclosed(toks[1..], Close, Group) == Got(elem, after)
    ensures ParsePostfix(toks) == Suffixes(elem, after)
  {
    hide ParseEnclosed, Suffixes;
  }

  lemma OneParses(elem: seq<Ty>, after: seq<Tok>)
    requires AllNotable(TypeScript, elem) && |elem| == 1
    ensures ParsePostfix(Print(TypeScript, elem) + after) == Suffixes(elem, after)
    decreases elem, 1
  {
    hide ParsePostfix, PrintOne;
    PrintOneParses(TypeScript, elem[0], after);
    assert elem == [elem[0]];
  }

  lemma BarPrinted(elem: seq<Ty>)
    requires |elem| > 1
    ensures MentionsBar(Print(TypeScript, elem))
  {
    assert Print(TypeScript, elem)[|PrintOne(TypeScript, elem[0])|] == Bar;
  }

  lemma NoBarNoUnion(elem: seq<Ty>)
    requires AllNotable(TypeScript, elem) && !MentionsBar(Print(TypeScript, elem))
    ensures |elem| == 1
  {
    if |elem| > 1 {
      BarPrinted(elem);
      assert false;
    }
  }

  lemma {:induction false} PrintParses(lang: Lang, alts: seq<Ty>, rest: seq<Tok>)
    requires AllNotable(lang, alts) && Stops(rest)
    ensures ParseType(Print(lang, alts) + rest) == Got(alts, rest)
    decreases alts, 0
  {
    hide ParsePostfix, PrintOne, Notable, ParseType, Stops, Suffixes;
    var toks := Print(lang, alts) + rest;
    if |alts| == 1 {
      PrintOneParses(lang, alts[0], rest);
      assert alts == [alts[0]];
      LastParses(toks, alts, rest);
    } else {
      var more := Print(lang, alts[1..]) + rest;
      assert toks == PrintOne(lang, alts[0]) + ([Bar] + more);
      PrintOneParses(lang, alts[0], [Bar] + more);
      PrintParses(lang, alts[1..], rest);
      BarParses(toks, [alts[0]], alts[1..], more, rest);
      assert [alts[0]] + alts[1..] == alts;
    }
  }

  lemma LastParses(toks: seq<Tok>, a: seq<Ty>, rest: seq<Tok>)
    requires ParsePostfix(toks) == Suffixes(a, rest) && Stops(rest)
    ensures ParseType(toks) == Got(a, rest)
  {
    hide ParsePostfix;
  }

  lemma BarParses(toks: seq<Tok>, a: seq<Ty>, b: seq<Ty>, more: seq<Tok>, rest: seq<Tok>)
    requires ParsePostfix(toks) == Suffixes(a, [Bar] + more) && ParseType(more) == Got(b, rest)
    ensures ParseType(toks) == Got(a + b, rest)
  {
    hide ParsePostfix;
    var after := [Bar] + more;
    assert after[1..] == more && At(after, Bar) && !At(after, Brackets);
  }

  /** Parsing undoes printing, for every tree of either language. */
  lemma PrintThenParse(lang: Lang, alts: seq<Ty>)
    requires AllNotable(lang, alts)
    ensures Parse(Print(lang, alts)) == Some(alts)
  {
    PrintParses(lang, alts, []);
    assert Print(lang, alts) + [] == Print(lang, alts);
  }

  lemma PrintInjective(lang: Lang, a: seq<Ty>, b: seq<Ty>)
    requires AllNotable(lang, a) && AllNotable(lang, b) && Print(lang, a) == Print(lang, b)
    ensures a == b
  {
    PrintThenParse(lang, a);
    PrintThenParse(lang, b);
  }

  // ----- the generator prints the intended tree ---------------------------------------------

  ghost predicate Prints(lang: Lang, texts: seq<seq<Tok>>, trees: seq<seq<Ty>>) {
    && |texts| == |trees|
    && forall i :: 0 <= i < |trees| ==> AllNotable(lang, trees[i]) && texts[i] == Print(lang, trees[i])
  }

  /** Dropping repeated texts drops exactly the repeated trees, since no two trees share a
      text. */
  lemma {:induction false} DedupPrints(lang: Lang, texts: seq<seq<Tok>>, trees: seq<seq<Ty>>)
    requires Prints(lang, texts, trees)
    ensures Prints(lang, Dedup(texts), Dedup(trees))
    decreases |trees|
  {
    hide Print, AllNotable;
    if trees != [] {
      var n := |trees| - 1;
      DedupPrints(lang, texts[..n], trees[..n]);
      var ts, xs := Dedup(trees[..n]), Dedup(texts[..n]);
      if texts[n] in xs {
        var i :| 0 <= i < |xs| && xs[i] == texts[n];
        PrintInjective(lang, ts[i], trees[n]);
        assert ts[i] in ts;
      }
    }
  }

  lemma {:induction false} PrintOfSum(lang: Lang, a: seq<Ty>, b: seq<Ty>)
    requires a != [] && b != []
    ensures Print(lang, a + b) == Print(lang, a) + [Bar] + Print(lang, b)
    decreases |a|
  {
    if |a| == 1 {
      assert (a + b)[1..] == b;
    } else {
      assert (a + b)[1..] == a[1..] + b;
      PrintOfSum(lang, a[1..], b);
    }
  }

  lemma {:induction false} JoinPrints(lang: Lang, texts: seq<seq<Tok>>, trees: seq<seq<Ty>>)
    requires Prints(lang, texts, trees) && trees != []
    ensures AllNotable(lang, Flatten(trees)) && Join(texts, Bar) == Print(lang, Flatten(trees))
    decreases |trees|
  {
    if |trees| == 1 {
      assert Flatten(trees[1..]) == [];
      assert Flatten(trees) == trees[0];
    } else {
      JoinPrints(lang, texts[1..], trees[1..]);
      PrintOfSum(lang, trees[0], Flatten(trees[1..]));
    }
  }

  lemma UnionPrints(lang: Lang, texts: seq<seq<Tok>>, trees: seq<seq<Ty>>)
    requires Prints(lang, texts, trees) && trees != []
    ensures AllNotable(lang, Flatten(Dedup(trees))) && Union(texts) == Print(lang, Flatten(Dedup(trees)))
  {
    DedupPrints(lang, texts, trees);
    JoinPrints(lang, Dedup(texts), Dedup(trees));
  }

  lemma BasicPrints(lang: Lang, b: Base)
    ensures AllNotable(lang, [Basic(b)]) && Print(lang, [Basic(b)]) == [Word(b)]
  {
  }

  lemma LitsPrint(values: seq<string>)
    ensures Prints(TypeScript, Quotes(values), LitParts(values))
  {
    forall i | 0 <= i < |values|
      ensures AllNotable(TypeScript, LitParts(values)[i]) && Quotes(values)[i] == Print(TypeScript, LitParts(values)[i])
    {
      assert LitParts(values)[i] == [Lit(values[i])];
    }
  }

  lemma {:induction false} TypePrints(lang: Lang, s: Schema)
    requires Printable(s)
    ensures AllNotable(lang, Tree(lang, s)) && TypeOf(lang, s) == Print(lang, Tree(lang, s))
    decreases s
  {
    match s {
      case Ref(_) =>
      case AnyOf(alts) =>
        forall i | 0 <= i < |alts|
          ensures AllNotable(lang, Tree(lang, alts[i])) && TypeOf(lang, alts[i]) == Print(lang, Tree(lang, alts[i]))
        {
          TypePrints(lang, alts[i]);
        }
        UnionPrints(lang, if lang.Python? then PyTypes(alts) else TsTypes(alts), Trees(lang, alts));
      case Shape(enum, kind, _, items, properties, _, extra) =>
        if enum.Some? {
          if lang.TypeScript? {
            LitsPrint(enum.value);
            UnionPrints(lang, Quotes(enum.value), LitParts(enum.value));
          }
        } else if kind == Some(KArray) {
          TypePrints(lang, items.value);
        } else if kind == Some(KObject) && properties.Unlisted? {
          if extra.Each? {
            TypePrints(lang, extra.schema);
          } else {
            BasicPrints(lang, BAny);
          }
        } else {
          BasicPrints(lang, if kind.Some? then BaseOf(lang, kind.value) else BAny);
        }
    }
  }

  /** Parsing the text a printer writes for a schema gives back the intended type. */
  lemma TypeParses(lang: Lang, s: Schema)
    requires Printable(s)
    ensures Parse(TypeOf(lang, s)) == Some(Tree(lang, s))
  {
    TypePrints(lang, s);
    PrintThenParse(lang, Tree(lang, s));
  }
}

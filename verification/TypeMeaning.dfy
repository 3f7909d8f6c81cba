/** What the generated Python and TypeScript modules of tools/gen-ni-schema.py (gen_python,
    gen_ts) mean, read from top to bottom, and which values inhabit their types. */
module TypeMeaning {
  import opened Prelude
  import opened SchemaOrder
  import opened SchemaValidate
  import opened TypeText

  // ----- the generated declarations ------------------------------------------------------------

  /** An enum, a TypedDict or interface, or a type alias. */
  datatype Decl =
    | DEnum(values: seq<string>)
    | DRecord(fields: seq<FieldDecl>)
    | DAlias(text: seq<Tok>)
  datatype FieldDecl = FieldDecl(key: string, optional: bool, text: seq<Tok>)

  predicate IsEnum(d: Schema) {
    d.Shape? && d.enum.Some?
  }

  predicate IsRecord(d: Schema) {
    d.Shape? && d.enum.None? && d.kind == Some(KObject) && d.properties.Listed?
  }

  predicate PrintableProps(ps: seq<Prop>) {
    && (forall i :: 0 <= i < |ps| ==> Printable(ps[i].schema))
    && (forall i, j :: 0 <= i < j < |ps| ==> ps[i].key != ps[j].key)
  }

  predicate PrintableDef(d: Schema) {
    if IsRecord(d) then PrintableProps(d.properties.list) else Printable(d)
  }

  function FieldDecls(lang: Lang, ps: seq<Prop>, required: seq<string>): (r: seq<FieldDecl>)
    requires forall i :: 0 <= i < |ps| ==> Printable(ps[i].schema)
    ensures |r| == |ps|
    ensures forall i :: 0 <= i < |ps| ==>
              r[i] == FieldDecl(ps[i].key, ps[i].key !in required, TypeOf(lang, ps[i].schema))
  {
    hide TypeOf;
    if ps == [] then []
    else [FieldDecl(ps[0].key, ps[0].key !in required, TypeOf(lang, ps[0].schema))] + FieldDecls(lang, ps[1..], required)
  }

  function DeclOf(lang: Lang, d: Schema): Decl
    requires PrintableDef(d)
  {
    if IsEnum(d) then DEnum(d.enum.value)
    else if IsRecord(d) then DRecord(FieldDecls(lang, d.properties.list, d.required))
    else DAlias(TypeOf(lang, d))
  }

  // ----- what declarations mean ---------------------------------------------------------------

  /** The values of each name declared so far. */
  type Env = map<string, iset<Json>>

  ghost predicate HasOne(env: Env, t: Ty, v: Json)
    decreases v, t, 0
  {
    match t
    case Name(n) => n in env && v in env[n]
    case Basic(b) => (
      match b
      case BString => v.JStr?
      case BInt => v.JInt?
      case BNumber => v.JInt? || v.JFloat?
      case BBool => v.JBool?
      case BNull => v.JNull?
      case BAny => true
    )
    case Lit(x) => v == JStr(x)
    case Lits(xs) => v.JStr? && v.s in xs
    case ListOf(elem) => v.JArr? && forall i :: 0 <= i < |v.items| ==> Has(env, elem, v.items[i])
    case DictOf(elem) => v.JObj? && forall i :: 0 <= i < |v.fields| ==> Has(env, elem, v.fields[i].value)
  }

  ghost predicate Has(env: Env, alts: seq<Ty>, v: Json)
    decreases v, alts, 1
  {
    exists i :: 0 <= i < |alts| && HasOne(env, alts[i], v)
  }

  /** The text is read by parsing it. */
  ghost predicate HasText(env: Env, text: seq<Tok>, v: Json) {
    Parse(text).Some? && Has(env, Parse(text).value, v)
  }

  /** A record is open to keys it does not list. */
  ghost predicate InDecl(env: Env, decl: Decl, v: Json) {
    match decl
    case DEnum(values) => v.JStr? && v.s in values
    case DRecord(fields) =>
      && v.JObj?
      && (forall f :: 0 <= f < |fields| && !fields[f].optional ==> HasKey(v, fields[f].key))
      && (forall f, i :: 0 <= f < |fields| && 0 <= i < |v.fields| && v.fields[i].key == fields[f].key ==>
            HasText(env, fields[f].text, v.fields[i].value))
    case DAlias(text) => HasText(env, text, v)
  }

  ghost predicate PrintableDefs(defs: Defs) {
    forall n :: n in defs ==> PrintableDef(defs[n])
  }

  ghost predicate Known(defs: Defs, order: seq<string>) {
    forall i :: 0 <= i < |order| ==> order[i] in defs
  }

  /** The generated module: each declaration means what it says given the ones above it. */
  ghost function Module(lang: Lang, defs: Defs, order: seq<string>): (env: Env)
    requires PrintableDefs(defs) && Known(defs, order)
    ensures env.Keys == Elems(order)
    decreases |order|
  {
    if order == [] then map[]
    else
      var n := order[|order| - 1];
      var above := Module(lang, defs, order[..|order| - 1]);
      assert order == order[..|order| - 1] + [n];
      above[n := iset v: Json | InDecl(above, DeclOf(lang, defs[n]), v)]
  }

  lemma ModuleGrows(lang: Lang, defs: Defs, order: seq<string>, k: nat)
    requires PrintableDefs(defs) && Known(defs, order) && k < |order|
    ensures var above := Module(lang, defs, order[..k]);
            Module(lang, defs, order[..k + 1])
            == above[order[k] := iset v: Json | InDecl(above, DeclOf(lang, defs[order[k]]), v)]
  {
    hide InDecl, DeclOf;
    assert order[..k + 1][..k] == order[..k];
  }

  lemma {:induction false} ModuleAt(lang: Lang, defs: Defs, order: seq<string>, j: nat, k: nat)
    requires PrintableDefs(defs) && Known(defs, order) && Distinct(order) && j < k <= |order|
    ensures var env, above := Module(lang, defs, order[..k]), Module(lang, defs, order[..j]);
            order[j] in env && forall v :: v in env[order[j]] <==> InDecl(above, DeclOf(lang, defs[order[j]]), v)
    decreases k
  {
    hide InDecl, DeclOf, Module, PrintableDefs, Elems;
    ModuleGrows(lang, defs, order, k - 1);
    if j < k - 1 {
      ModuleAt(lang, defs, order, j, k - 1);
      assert order[j] != order[k - 1];
    }
  }

  // ----- no forward reference ----------------------------------------------------------------------

  lemma {:induction false} JoinIdents(parts: seq<seq<Tok>>, n: string)
    requires Ident(n) in Join(parts, Bar)
    ensures exists i :: 0 <= i < |parts| && Ident(n) in parts[i]
    decreases |parts|
  {
    if |parts| > 1 && Ident(n) !in parts[0] {
      JoinIdents(parts[1..], n);
    }
  }

  lemma UnionIdents(parts: seq<seq<Tok>>, n: string)
    requires Ident(n) in Union(parts)
    ensures exists i :: 0 <= i < |parts| && Ident(n) in parts[i]
  {
    JoinIdents(Dedup(parts), n);
    var i :| 0 <= i < |Dedup(parts)| && Ident(n) in Dedup(parts)[i];
    assert Dedup(parts)[i] in parts;
  }

  lemma {:induction false} QuotesHaveNoIdents(values: seq<string>, n: string)
    ensures Ident(n) !in Join(Quotes(values), Comma) && Ident(n) !in Union(Quotes(values))
    decreases |values|
  {
    if |values| > 1 {
      assert Quotes(values)[1..] == Quotes(values[1..]);
      QuotesHaveNoIdents(values[1..], n);
    }
    if Ident(n) in Union(Quotes(values)) {
      UnionIdents(Quotes(values), n);
    }
  }

  lemma {:induction false} IdentsAreDeps(lang: Lang, s: Schema, n: string)
    requires Printable(s) && Ident(n) in TypeOf(lang, s)
    ensures n in Deps(s)
    decreases s
  {
    match s {
      case Ref(_) =>
      case AnyOf(alts) =>
        var parts := if lang.Python? then PyTypes(alts) else TsTypes(alts);
        UnionIdents(parts, n);
        var i :| 0 <= i < |parts| && Ident(n) in parts[i];
        IdentsAreDeps(lang, alts[i], n);
        DepsOfAllAt(alts, i);
      case Shape(enum, kind, _, items, properties, _, extra) =>
        if enum.Some? {
          QuotesHaveNoIdents(enum.value, n);
        } else if kind == Some(KArray) {
          IdentsAreDeps(lang, items.value, n);
        } else if kind == Some(KObject) && properties.Unlisted? && extra.Each? {
          IdentsAreDeps(lang, extra.schema, n);
        }
    }
  }

  /** The texts of a declaration. */
  function Texts(decl: Decl): set<seq<Tok>> {
    match decl
    case DEnum(_) => {}
    case DRecord(fields) => set f | f in fields :: f.text
    case DAlias(text) => {text}
  }

  /** Every name a generated declaration mentions is declared above it. */
  lemma {:induction false} NoForwardReference(lang: Lang, defs: Defs, order: seq<string>, k: nat, text: seq<Tok>, n: string)
    requires Topological(defs, order) && PrintableDefs(defs) && k < |order|
    requires text in Texts(DeclOf(lang, defs[order[k]])) && Ident(n) in text
    ensures n in order[..k]
  {
    var d := defs[order[k]];
    if IsRecord(d) {
      var ps := d.properties.list;
      var fields := FieldDecls(lang, ps, d.required);
      var f :| f in fields && f.text == text;
      var i :| 0 <= i < |fields| && fields[i] == f;
      IdentsAreDeps(lang, ps[i].schema, n);
      DepsOfPropsAt(ps, i);
    } else {
      IdentsAreDeps(lang, d, n);
    }
    assert n in Elems(order[..k]);
  }

  // ----- soundness -----------------------------------------------------------------------------------

  lemma {:induction false} HasFlatten(env: Env, parts: seq<seq<Ty>>, v: Json)
    ensures Has(env, Flatten(parts), v) <==> exists i :: 0 <= i < |parts| && Has(env, parts[i], v)
    decreases |parts|
  {
    if parts != [] {
      HasFlatten(env, parts[1..], v);
      HasSum(env, parts[0], Flatten(parts[1..]), v);
      if i :| 0 <= i < |parts| && Has(env, parts[i], v) {
        assert i > 0 ==> parts[1..][i - 1] == parts[i];
      }
      if i :| 0 <= i < |parts[1..]| && Has(env, parts[1..][i], v) {
        assert parts[i + 1] == parts[1..][i];
      }
    }
  }

  lemma HasSum(env: Env, a: seq<Ty>, b: seq<Ty>, v: Json)
    ensures Has(env, a + b, v) <==> Has(env, a, v) || Has(env, b, v)
  {
    if i :| 0 <= i < |a| && HasOne(env, a[i], v) {
      assert (a + b)[i] == a[i];
    }
    if i :| 0 <= i < |b| && HasOne(env, b[i], v) {
      assert (a + b)[|a| + i] == b[i];
    }
  }

  /** Dropping repeated alternatives loses nothing. */
  lemma HasUnion(env: Env, parts: seq<seq<Ty>>, v: Json)
    ensures Has(env, Flatten(Dedup(parts)), v) <==> exists i :: 0 <= i < |parts| && Has(env, parts[i], v)
  {
    hide Has;
    HasFlatten(env, Dedup(parts), v);
    if i :| 0 <= i < |parts| && Has(env, parts[i], v) {
      assert parts[i] in Dedup(parts);
      var j :| 0 <= j < |Dedup(parts)| && Dedup(parts)[j] == parts[i];
    }
    if j :| 0 <= j < |Dedup(parts)| && Has(env, Dedup(parts)[j], v) {
      assert Dedup(parts)[j] in parts;
    }
  }

  lemma HasLits(env: Env, values: seq<string>, v: Json)
    ensures Has(env, Flatten(Dedup(LitParts(values))), v) <==> v.JStr? && v.s in values
  {
    HasUnion(env, LitParts(values), v);
    forall i | 0 <= i < |values| ensures Has(env, LitParts(values)[i], v) <==> v == JStr(values[i]) {
      HasSingle(env, Lit(values[i]), v);
    }
  }

  lemma HasSingle(env: Env, t: Ty, v: Json)
    ensures Has(env, [t], v) <==> HasOne(env, t, v)
  {
    assert [t][0] == t;
  }

  /** What every lemma below starts from: `s` uses only the first `k` definitions. */
  ghost predicate Below(s: Schema, defs: Defs, order: seq<string>, k: nat) {
    Topological(defs, order) && PrintableDefs(defs) && k <= |order| && Deps(s) <= Elems(order[..k])
  }

  lemma {:induction false} BelowGrounded(s: Schema, defs: Defs, order: seq<string>, k: nat)
    requires Below(s, defs, order, k)
    ensures Grounded(s, defs, order) && Known(defs, order[..k])
  {
    PrefixDefined(defs, order, k);
  }

  lemma {:induction false} BelowRef(n: string, defs: Defs, order: seq<string>, k: nat) returns (j: nat)
    requires Below(Ref(n), defs, order, k)
    ensures j < k && order[j] == n && n in defs && Below(defs[n], defs, order, j)
  {
    assert n in Elems(order[..k]);
    j :| 0 <= j < k && order[..k][j] == n;
  }

  lemma BelowParts(s: Schema, key: string, defs: Defs, order: seq<string>, k: nat)
    requires Below(s, defs, order, k) && s.Shape?
    ensures Below(ItemSchema(s), defs, order, k)
    ensures RuleFor(s, key).Check? ==> Below(RuleFor(s, key).schema, defs, order, k)
  {
    RuleDeps(s, key);
  }

  /** A name means the declaration it got, however many came after. */
  lemma NameHas(lang: Lang, v: Json, defs: Defs, order: seq<string>, j: nat, k: nat)
    requires PrintableDefs(defs) && Known(defs, order) && Distinct(order) && j < k <= |order|
    ensures Has(Module(lang, defs, order[..k]), [Name(order[j])], v)
            <==> InDecl(Module(lang, defs, order[..j]), DeclOf(lang, defs[order[j]]), v)
  {
    hide InDecl, DeclOf, Module;
    ModuleAt(lang, defs, order, j, k);
    HasSingle(Module(lang, defs, order[..k]), Name(order[j]), v);
  }

  /** A value that conforms inhabits the type printed for its schema. */
  lemma {:induction false} ConformsHas(lang: Lang, v: Json, s: Schema, defs: Defs, order: seq<string>, k: nat)
    requires Below(s, defs, order, k) && Printable(s)
    requires (BelowGrounded(s, defs, order, k); Conforms(v, s, defs, order))
    ensures (BelowGrounded(s, defs, order, k); Has(Module(lang, defs, order[..k]), Tree(lang, s), v))
    decreases k, v, s, 2
  {
    hide Has, HasOne, InDecl, DeclOf, Module;
    BelowGrounded(s, defs, order, k);
    match s {
      case Ref(n) =>
        var j := BelowRef(n, defs, order, k);
        RefGrounded(s, defs, order);
        ConformsDeclared(lang, v, defs[n], defs, order, j);
        NameHas(lang, v, defs, order, j, k);
      case AnyOf(alts) =>
        var i: nat :| i < |alts| && (AltGrounded(s, i, defs, order); Conforms(v, alts[i], defs, order));
        DepsOfAllAt(alts, i);
        ConformsHas(lang, v, alts[i], defs, order, k);
        HasUnion(Module(lang, defs, order[..k]), Trees(lang, alts), v);
      case Shape(_, _, _, _, _, _, _) =>
        ShapeHas(lang, v, s, defs, order, k);
    }
  }

  lemma {:induction false} ShapeHas(lang: Lang, v: Json, s: Schema, defs: Defs, order: seq<string>, k: nat)
    requires Below(s, defs, order, k) && Printable(s) && s.Shape?
    requires (BelowGrounded(s, defs, order, k); Conforms(v, s, defs, order))
    ensures (BelowGrounded(s, defs, order, k); Has(Module(lang, defs, order[..k]), Tree(lang, s), v))
    decreases k, v, s, 1
  {
    hide Topological, Deps, Level, Module, Has;
    BelowGrounded(s, defs, order, k);
    var env := Module(lang, defs, order[..k]);
    if s.enum.Some? {
      HasLits(env, s.enum.value, v);
      HasSingle(env, Lits(s.enum.value), v);
    } else if s.kind == Some(KArray) {
      hide Conforms;
      ListHas(lang, v, s, defs, order, k);
    } else if s.kind == Some(KObject) && s.properties.Unlisted? {
      hide Conforms;
      DictHas(lang, v, s, defs, order, k);
    } else {
      HasSingle(env, Basic(if s.kind.Some? then BaseOf(lang, s.kind.value) else BAny), v);
    }
  }

  lemma {:induction false} ListHas(lang: Lang, v: Json, s: Schema, defs: Defs, order: seq<string>, k: nat)
    requires Below(s, defs, order, k) && Printable(s) && s.Shape? && s.enum.None? && s.kind == Some(KArray)
    requires (BelowGrounded(s, defs, order, k); Conforms(v, s, defs, order))
    ensures (BelowGrounded(s, defs, order, k); Has(Module(lang, defs, order[..k]), Tree(lang, s), v))
    decreases k, v, s, 0
  {
    hide Topological, Deps, Level, Module, Has;
    BelowGrounded(s, defs, order, k);
    var env := Module(lang, defs, order[..k]);
    forall i | 0 <= i < |v.items| ensures Has(env, Tree(lang, s.items.value), v.items[i]) {
      PartGrounded(s, "", defs, order);
      BelowParts(s, "", defs, order, k);
      ConformsHas(lang, v.items[i], ItemSchema(s), defs, order, k);
    }
    HasSingle(env, ListOf(Tree(lang, s.items.value)), v);
  }

  lemma {:induction false} DictHas(lang: Lang, v: Json, s: Schema, defs: Defs, order: seq<string>, k: nat)
    requires Below(s, defs, order, k) && Printable(s) && s.Shape? && s.enum.None? && s.kind == Some(KObject) && s.properties.Unlisted?
    requires (BelowGrounded(s, defs, order, k); Conforms(v, s, defs, order))
    ensures (BelowGrounded(s, defs, order, k); Has(Module(lang, defs, order[..k]), Tree(lang, s), v))
    decreases k, v, s, 0
  {
    hide Topological, Deps, Level, Module, Has;
    BelowGrounded(s, defs, order, k);
    var env := Module(lang, defs, order[..k]);
    var elem := if s.extra.Each? then Tree(lang, s.extra.schema) else [Basic(BAny)];
    forall i | 0 <= i < |v.fields| ensures Has(env, elem, v.fields[i].value) {
      var key := v.fields[i].key;
      if s.extra.Each? {
        PartGrounded(s, key, defs, order);
        BelowParts(s, key, defs, order, k);
        ConformsHas(lang, v.fields[i].value, s.extra.schema, defs, order, k);
      } else {
        HasSingle(env, Basic(BAny), v.fields[i].value);
      }
    }
    HasSingle(env, DictOf(elem), v);
  }

  lemma {:induction false} LookupAt(ps: seq<Prop>, i: nat)
    requires PrintableProps(ps) && i < |ps|
    ensures Lookup(ps, ps[i].key) == Some(ps[i].schema)
    decreases |ps|
  {
    if i > 0 { LookupAt(ps[1..], i - 1); }
  }

  /** The same for a definition and the declaration generated for it. */
  lemma {:induction false} ConformsDeclared(lang: Lang, v: Json, d: Schema, defs: Defs, order: seq<string>, k: nat)
    requires Below(d, defs, order, k) && PrintableDef(d)
    requires (BelowGrounded(d, defs, order, k); Conforms(v, d, defs, order))
    ensures (BelowGrounded(d, defs, order, k); InDecl(Module(lang, defs, order[..k]), DeclOf(lang, d), v))
    decreases k, v, d, 3
  {
    hide Topological, Deps, Level, Module, HasText, TypeOf;
    BelowGrounded(d, defs, order, k);
    if IsRecord(d) {
      hide InDecl, DeclOf, PrintableDef, Conforms;
      ConformsRecord(v, d, defs, order);
      forall f, i | 0 <= f < |d.properties.list| && 0 <= i < |v.fields| && v.fields[i].key == d.properties.list[f].key
        ensures HasText(Module(lang, defs, order[..k]), TypeOf(lang, d.properties.list[f].schema), v.fields[i].value)
      {
        FieldHas(lang, v, d, defs, order, k, f, i);
      }
      RecordDeclared(Module(lang, defs, order[..k]), lang, v, d);
    } else if IsEnum(d) {
      EnumDeclared(lang, v, d, defs, order, k);
    } else {
      ConformsHas(lang, v, d, defs, order, k);
      AliasDeclared(Module(lang, defs, order[..k]), lang, v, d);
    }
  }

  lemma ConformsRecord(v: Json, d: Schema, defs: Defs, order: seq<string>)
    requires Grounded(d, defs, order) && IsRecord(d) && Conforms(v, d, defs, order)
    ensures v.JObj? && forall key :: key in d.required ==> HasKey(v, key)
  {
    hide Topological, Deps, Level, HasKey;
  }

  lemma RecordDeclared(env: Env, lang: Lang, v: Json, d: Schema)
    requires PrintableDef(d) && IsRecord(d) && v.JObj? && forall key :: key in d.required ==> HasKey(v, key)
    requires forall f, i ::
               0 <= f < |d.properties.list| && 0 <= i < |v.fields| && v.fields[i].key == d.properties.list[f].key ==>
                 HasText(env, TypeOf(lang, d.properties.list[f].schema), v.fields[i].value)
    ensures InDecl(env, DeclOf(lang, d), v)
  {
    hide HasText, TypeOf, HasKey;
  }

  lemma EnumDeclared(lang: Lang, v: Json, d: Schema, defs: Defs, order: seq<string>, k: nat)
    requires Below(d, defs, order, k) && PrintableDef(d) && IsEnum(d)
    requires (BelowGrounded(d, defs, order, k); Conforms(v, d, defs, order))
    ensures (BelowGrounded(d, defs, order, k); InDecl(Module(lang, defs, order[..k]), DeclOf(lang, d), v))
  {
    hide Topological, Deps, Level, Module;
  }

  lemma AliasDeclared(env: Env, lang: Lang, v: Json, d: Schema)
    requires PrintableDef(d) && !IsRecord(d) && !IsEnum(d) && Has(env, Tree(lang, d), v)
    ensures InDecl(env, DeclOf(lang, d), v)
  {
    hide Has, Parse, TypeOf, Tree;
    TypeParses(lang, d);
  }

  lemma {:induction false} FieldHas(lang: Lang, v: Json, d: Schema, defs: Defs, order: seq<string>, k: nat, f: nat, i: nat)
    requires Below(d, defs, order, k) && PrintableDef(d) && IsRecord(d) && v.JObj?
    requires (BelowGrounded(d, defs, order, k); Conforms(v, d, defs, order))
    requires f < |d.properties.list| && i < |v.fields| && v.fields[i].key == d.properties.list[f].key
    ensures (BelowGrounded(d, defs, order, k);
             HasText(Module(lang, defs, order[..k]), TypeOf(lang, d.properties.list[f].schema), v.fields[i].value))
    decreases k, v, d, 2
  {
    hide Topological, Deps, Level, Module, Parse, TypeOf;
    BelowGrounded(d, defs, order, k);
    var ps, key := d.properties.list, v.fields[i].key;
    LookupAt(ps, f);
    PartGrounded(d, key, defs, order);
    BelowParts(d, key, defs, order, k);
    ConformsHas(lang, v.fields[i].value, ps[f].schema, defs, order, k);
    TypeParses(lang, ps[f].schema);
  }

  /** Generation keeps the meaning: what the validator accepts, read from the printed type
      in either language, is a value of that type. */
  lemma {:induction false} GenerationIsSound(lang: Lang, v: Json, s: Schema, defs: Defs, order: seq<string>, path: Path)
    requires Topological(defs, order) && PrintableDefs(defs) && Printable(s) && Deps(s) <= defs.Keys
    requires Validate(v, s, defs, order, path) == []
    ensures HasText(Module(lang, defs, order), TypeOf(lang, s), v)
  {
    assert order[..|order|] == order;
    ValidateTells(v, s, defs, order, path);
    ConformsHas(lang, v, s, defs, order, |order|);
    TypeParses(lang, s);
  }
}

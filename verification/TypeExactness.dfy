/** How much of a schema its generated type captures: everything but the bounds, the
    closedness of records, the shape of unnamed records and, in TypeScript, integrality. */
module TypeExactness {
  import opened Prelude
  import opened SchemaOrder
  import opened SchemaValidate
  import opened TypeText
  import opened TypeMeaning

  // ----- the part of a schema that a type can say ------------------------------------------------

  function Loosen(lang: Lang, s: Schema): Schema
    requires Printable(s)
  {
    match s
    case Ref(_) => s
    case AnyOf(alts) => AnyOf(LoosenAll(lang, alts))
    case Shape(enum, kind, _, items, properties, _, extra) =>
      if enum.Some? then Top.(enum := enum)
      else if kind == Some(KArray) then Top.(kind := kind, items := Some(Loosen(lang, items.value)))
      else if kind == Some(KObject) then
        if properties.Listed? then Top
        else Top.(kind := kind, extra := if extra.Each? then Each(Loosen(lang, extra.schema)) else Anything)
      else if kind == Some(KInteger) && lang.TypeScript? then Top.(kind := Some(KNumber))
      else Top.(kind := kind)
  }

  function LoosenAll(lang: Lang, ss: seq<Schema>): (r: seq<Schema>)
    requires forall i :: 0 <= i < |ss| ==> Printable(ss[i])
    ensures |r| == |ss| && forall i :: 0 <= i < |ss| ==> r[i] == Loosen(lang, ss[i])
  {
    if ss == [] then [] else [Loosen(lang, ss[0])] + LoosenAll(lang, ss[1..])
  }

  function LoosenProps(lang: Lang, ps: seq<Prop>): (r: seq<Prop>)
    requires forall i :: 0 <= i < |ps| ==> Printable(ps[i].schema)
    ensures |r| == |ps| && forall i :: 0 <= i < |ps| ==> r[i] == Prop(ps[i].key, Loosen(lang, ps[i].schema))
  {
    if ps == [] then [] else [Prop(ps[0].key, Loosen(lang, ps[0].schema))] + LoosenProps(lang, ps[1..])
  }

  /** The keys a record both lists and requires. */
  function RequiredKeys(ps: seq<Prop>, required: seq<string>): (r: seq<string>)
    ensures forall k :: k in r <==> k in required && exists i :: 0 <= i < |ps| && ps[i].key == k
  {
    if ps == [] then []
    else
      assert ps == [ps[0]] + ps[1..];
      (if ps[0].key in required then [ps[0].key] else []) + RequiredKeys(ps[1..], required)
  }

  function LoosenDef(lang: Lang, d: Schema): Schema
    requires PrintableDef(d)
  {
    if IsRecord(d) then
      Top.(kind := d.kind, properties := Listed(LoosenProps(lang, d.properties.list)),
           required := RequiredKeys(d.properties.list, d.required))
    else Loosen(lang, d)
  }

  ghost function LooseDefs(lang: Lang, defs: Defs): Defs
    requires PrintableDefs(defs)
  {
    map n | n in defs :: LoosenDef(lang, defs[n])
  }

  /** No text or list longer than the limit the validator applies where a schema sets none. */
  predicate Small(v: Json) {
    match v
    case JStr(s) => |s| <= DEFAULT_MAX
    case JArr(items) => |items| <= DEFAULT_MAX && forall i :: 0 <= i < |items| ==> Small(items[i])
    case JObj(fields) => forall i :: 0 <= i < |fields| ==> Small(fields[i].value)
    case _ => true
  }

  // ----- loosening adds no dependency ------------------------------------------------------------

  lemma {:induction false} LooseDeps(lang: Lang, s: Schema)
    requires Printable(s)
    ensures Deps(Loosen(lang, s)) <= Deps(s)
    decreases s
  {
    match s {
      case Ref(_) =>
      case AnyOf(alts) => LooseAllDeps(lang, alts);
      case Shape(enum, kind, _, items, properties, _, extra) =>
        if enum.None? && kind == Some(KArray) {
          LooseDeps(lang, items.value);
        } else if enum.None? && kind == Some(KObject) && properties.Unlisted? && extra.Each? {
          LooseDeps(lang, extra.schema);
        }
    }
  }

  lemma {:induction false} LooseAllDeps(lang: Lang, ss: seq<Schema>)
    requires forall i :: 0 <= i < |ss| ==> Printable(ss[i])
    ensures DepsOfAll(LoosenAll(lang, ss)) <= DepsOfAll(ss)
    decreases ss
  {
    if ss != [] {
      LooseDeps(lang, ss[0]);
      LooseAllDeps(lang, ss[1..]);
    }
  }

  lemma {:induction false} LoosePropsDeps(lang: Lang, ps: seq<Prop>)
    requires forall i :: 0 <= i < |ps| ==> Printable(ps[i].schema)
    ensures DepsOfProps(LoosenProps(lang, ps)) <= DepsOfProps(ps)
    decreases |ps|
  {
    if ps != [] {
      LooseDeps(lang, ps[0].schema);
      LoosePropsDeps(lang, ps[1..]);
    }
  }

  lemma LooseDefDeps(lang: Lang, d: Schema)
    requires PrintableDef(d)
    ensures Deps(LoosenDef(lang, d)) <= Deps(d)
  {
    if IsRecord(d) {
      LoosePropsDeps(lang, d.properties.list);
    } else {
      LooseDeps(lang, d);
    }
  }

  lemma {:induction false} LooseTopological(lang: Lang, defs: Defs, order: seq<string>)
    requires Topological(defs, order) && PrintableDefs(defs)
    ensures Topological(LooseDefs(lang, defs), order)
  {
    forall i | 0 <= i < |order|
      ensures order[i] in defs && Deps(LooseDefs(lang, defs)[order[i]]) <= Elems(order[..i])
    {
      LooseDefDeps(lang, defs[order[i]]);
    }
  }

  lemma LooseGrounded(lang: Lang, s: Schema, defs: Defs, order: seq<string>, k: nat)
    requires Below(s, defs, order, k)
    ensures Known(defs, order[..k])
    ensures Printable(s) ==> Grounded(Loosen(lang, s), LooseDefs(lang, defs), order)
    ensures PrintableDef(s) ==> Grounded(LoosenDef(lang, s), LooseDefs(lang, defs), order)
  {
    BelowGrounded(s, defs, order, k);
    LooseTopological(lang, defs, order);
    if Printable(s) { LooseDeps(lang, s); }
    if PrintableDef(s) { LooseDefDeps(lang, s); }
  }

  // ----- exactness -------------------------------------------------------------------------------------

  /** `v` inhabits the type printed for `s`. */
  ghost predicate Inhabits(lang: Lang, v: Json, s: Schema, defs: Defs, order: seq<string>, k: nat)
    requires Below(s, defs, order, k) && Printable(s)
  {
    BelowGrounded(s, defs, order, k);
    Has(Module(lang, defs, order[..k]), Tree(lang, s), v)
  }

  ghost predicate Loosely(lang: Lang, v: Json, s: Schema, defs: Defs, order: seq<string>, k: nat)
    requires Below(s, defs, order, k) && Printable(s)
  {
    LooseGrounded(lang, s, defs, order, k);
    Conforms(v, Loosen(lang, s), LooseDefs(lang, defs), order)
  }

  lemma {:induction false} Exact(lang: Lang, v: Json, s: Schema, defs: Defs, order: seq<string>, k: nat)
    requires Below(s, defs, order, k) && Printable(s) && Small(v)
    ensures Inhabits(lang, v, s, defs, order, k) <==> Loosely(lang, v, s, defs, order, k)
    decreases k, v, s, 1
  {
    match s {
      case Ref(n) =>
        var j := BelowRef(n, defs, order, k);
        ExactDecl(lang, v, defs[n], defs, order, j);
        NameHas(lang, v, defs, order, j, k);
      case AnyOf(alts) => ExactUnion(lang, v, s, defs, order, k);
      case Shape(enum, kind, _, items, properties, _, extra) =>
        if enum.None? && kind == Some(KArray) {
          ExactList(lang, v, s, defs, order, k);
        } else if enum.None? && kind == Some(KObject) && properties.Unlisted? {
          ExactDict(lang, v, s, defs, order, k);
        } else {
          ExactBasic(lang, v, s, defs, order, k);
        }
    }
  }

  lemma ExactBasic(lang: Lang, v: Json, s: Schema, defs: Defs, order: seq<string>, k: nat)
    requires Below(s, defs, order, k) && Printable(s) && Small(v) && s.Shape?
    requires s.enum.Some? || (s.kind != Some(KArray) && (s.kind == Some(KObject) ==> s.properties.Listed?))
    ensures Inhabits(lang, v, s, defs, order, k) <==> Loosely(lang, v, s, defs, order, k)
  {
    hide Has, Conforms, Module, Topological, Flatten, Deps, Level;
    BelowGrounded(s, defs, order, k);
    LooseGrounded(lang, s, defs, order, k);
    BasicHas(Module(lang, defs, order[..k]), lang, v, s);
    TopConforms(v, Loosen(lang, s), LooseDefs(lang, defs), order, k);
  }

  lemma BasicHas(env: Env, lang: Lang, v: Json, s: Schema)
    requires Printable(s) && s.Shape?
    requires s.enum.Some? || (s.kind != Some(KArray) && (s.kind == Some(KObject) ==> s.properties.Listed?))
    ensures Has(env, Tree(lang, s), v)
            <==> var loose := Loosen(lang, s);
                 loose.Shape? && (loose.enum.Some? ==> v.JStr? && v.s in loose.enum.value) && (loose.kind.Some? ==> Is(v, loose.kind.value))
  {
    hide Has, Flatten;
    if s.enum.Some? {
      HasLits(env, s.enum.value, v);
      HasSingle(env, Lits(s.enum.value), v);
    } else {
      HasSingle(env, Basic(if s.kind.Some? then BaseOf(lang, s.kind.value) else BAny), v);
    }
  }

  /** Only the enum and the kind matter when a shape says nothing else. */
  lemma {:induction false} TopConforms(v: Json, s: Schema, defs: Defs, order: seq<string>, k: nat)
    requires s.Shape? && s == Top.(enum := s.enum, kind := s.kind) && Small(v)
    requires Topological(defs, order)
    ensures Conforms(v, s, defs, order)
            <==> (s.enum.Some? ==> v.JStr? && v.s in s.enum.value) && (s.kind.Some? ==> Is(v, s.kind.value))
    decreases v
  {
    if v.JArr? {
      forall i | 0 <= i < |v.items| ensures (PartGrounded(s, "", defs, order); Conforms(v.items[i], ItemSchema(s), defs, order)) {
        TopConforms(v.items[i], Top, defs, order, k);
      }
    }
  }

  lemma {:induction false} ExactList(lang: Lang, v: Json, s: Schema, defs: Defs, order: seq<string>, k: nat)
    requires Below(s, defs, order, k) && Printable(s) && Small(v)
    requires s.Shape? && s.enum.None? && s.kind == Some(KArray)
    ensures Inhabits(lang, v, s, defs, order, k) <==> Loosely(lang, v, s, defs, order, k)
    decreases k, v, s, 0
  {
    hide Topological, Deps, Level, Module;
    var t := s.items.value;
    var loose := Loosen(lang, s);
    BelowParts(s, "", defs, order, k);
    LooseGrounded(lang, s, defs, order, k);
    HasSingle(Module(lang, defs, order[..k]), ListOf(Tree(lang, t)), v);
    if v.JArr? {
      forall i | 0 <= i < |v.items|
        ensures Inhabits(lang, v.items[i], t, defs, order, k) <==> Loosely(lang, v.items[i], t, defs, order, k)
      {
        Exact(lang, v.items[i], t, defs, order, k);
      }
      assert ItemSchema(loose) == Loosen(lang, t);
    }
  }

  lemma {:induction false} ExactDict(lang: Lang, v: Json, s: Schema, defs: Defs, order: seq<string>, k: nat)
    requires Below(s, defs, order, k) && Printable(s) && Small(v)
    requires s.Shape? && s.enum.None? && s.kind == Some(KObject) && s.properties.Unlisted?
    ensures Inhabits(lang, v, s, defs, order, k) <==> Loosely(lang, v, s, defs, order, k)
    decreases k, v, s, 0
  {
    hide Topological, Deps, Level, Module;
    BelowParts(s, "", defs, order, k);
    LooseGrounded(lang, s, defs, order, k);
    var env := Module(lang, defs, order[..k]);
    var elem := if s.extra.Each? then Tree(lang, s.extra.schema) else [Basic(BAny)];
    HasSingle(env, DictOf(elem), v);
    if v.JObj? {
      forall i | 0 <= i < |v.fields|
        ensures Has(env, elem, v.fields[i].value)
                <==> (s.extra.Each? ==> Loosely(lang, v.fields[i].value, s.extra.schema, defs, order, k))
      {
        if s.extra.Each? {
          Exact(lang, v.fields[i].value, s.extra.schema, defs, order, k);
        } else {
          HasSingle(env, Basic(BAny), v.fields[i].value);
        }
      }
    }
  }

  lemma {:induction false} ExactUnion(lang: Lang, v: Json, s: Schema, defs: Defs, order: seq<string>, k: nat)
    requires Below(s, defs, order, k) && Printable(s) && Small(v) && s.AnyOf?
    ensures Inhabits(lang, v, s, defs, order, k) <==> Loosely(lang, v, s, defs, order, k)
    decreases k, v, s, 0
  {
    hide Has, Module, Topological, Flatten, Deps, DepsOfAll, Level;
    LooseGrounded(lang, s, defs, order, k);
    var env := Module(lang, defs, order[..k]);
    HasUnion(env, Trees(lang, s.alts), v);
    UnionLoosely(lang, v, s, defs, order, k);
    forall i | 0 <= i < |s.alts|
      ensures Has(env, Trees(lang, s.alts)[i], v) <==> Loosely(lang, v, s.alts[i], defs, order, k)
    {
      Exact(lang, v, s.alts[i], defs, order, k);
    }
  }

  lemma UnionLoosely(lang: Lang, v: Json, s: Schema, defs: Defs, order: seq<string>, k: nat)
    requires Below(s, defs, order, k) && Printable(s) && s.AnyOf?
    ensures forall i :: 0 <= i < |s.alts| ==> Below(s.alts[i], defs, order, k)
    ensures Loosely(lang, v, s, defs, order, k)
            <==> exists i :: 0 <= i < |s.alts| && Loosely(lang, v, s.alts[i], defs, order, k)
  {
    hide Topological, Level, DepsOfAll;
    LooseGrounded(lang, s, defs, order, k);
    forall i | 0 <= i < |s.alts| ensures Below(s.alts[i], defs, order, k) {
      DepsOfAllAt(s.alts, i);
    }
  }

  ghost predicate Declares(lang: Lang, v: Json, d: Schema, defs: Defs, order: seq<string>, k: nat)
    requires Below(d, defs, order, k) && PrintableDef(d)
  {
    BelowGrounded(d, defs, order, k);
    InDecl(Module(lang, defs, order[..k]), DeclOf(lang, d), v)
  }

  ghost predicate LooselyDef(lang: Lang, v: Json, d: Schema, defs: Defs, order: seq<string>, k: nat)
    requires Below(d, defs, order, k) && PrintableDef(d)
  {
    LooseGrounded(lang, d, defs, order, k);
    Conforms(v, LoosenDef(lang, d), LooseDefs(lang, defs), order)
  }

  lemma {:induction false} ExactDecl(lang: Lang, v: Json, d: Schema, defs: Defs, order: seq<string>, k: nat)
    requires Below(d, defs, order, k) && PrintableDef(d) && Small(v)
    ensures Declares(lang, v, d, defs, order, k) <==> LooselyDef(lang, v, d, defs, order, k)
    decreases k, v, d, 3
  {
    hide Declares, LooselyDef, Inhabits, Loosely, Below, Deps;
    if IsRecord(d) {
      ExactRecord(lang, v, d, defs, order, k);
    } else if IsEnum(d) {
      ExactEnum(lang, v, d, defs, order, k);
    } else {
      Exact(lang, v, d, defs, order, k);
      AliasIsType(lang, v, d, defs, order, k);
    }
  }

  lemma ExactEnum(lang: Lang, v: Json, d: Schema, defs: Defs, order: seq<string>, k: nat)
    requires Below(d, defs, order, k) && IsEnum(d) && PrintableDef(d) && Small(v)
    ensures Declares(lang, v, d, defs, order, k) <==> LooselyDef(lang, v, d, defs, order, k)
  {
    hide Conforms, Module, Topological, Deps, Level;
    LooseGrounded(lang, d, defs, order, k);
    TopConforms(v, Loosen(lang, d), LooseDefs(lang, defs), order, k);
  }

  /** An alias declares the values of the type it is printed from. */
  lemma AliasIsType(lang: Lang, v: Json, d: Schema, defs: Defs, order: seq<string>, k: nat)
    requires Below(d, defs, order, k) && PrintableDef(d) && !IsRecord(d) && !IsEnum(d)
    ensures Printable(d)
    ensures Declares(lang, v, d, defs, order, k) <==> Inhabits(lang, v, d, defs, order, k)
    ensures LooselyDef(lang, v, d, defs, order, k) <==> Loosely(lang, v, d, defs, order, k)
  {
    hide Has, Conforms, Module, Topological, Deps, Level, Parse, TypeOf, Tree, Loosen;
    TypeParses(lang, d);
  }

  /** Field `i` of `v` as the record's declaration sees it. */
  ghost predicate FieldInDecl(lang: Lang, v: Json, d: Schema, defs: Defs, order: seq<string>, k: nat, i: nat)
    requires Below(d, defs, order, k) && IsRecord(d) && PrintableDef(d) && v.JObj? && i < |v.fields|
  {
    BelowGrounded(d, defs, order, k);
    var fields := FieldDecls(lang, d.properties.list, d.required);
    forall f :: 0 <= f < |fields| && v.fields[i].key == fields[f].key ==>
      HasText(Module(lang, defs, order[..k]), fields[f].text, v.fields[i].value)
  }

  /** The same field as the loosened schema sees it. */
  ghost predicate FieldLoosely(lang: Lang, v: Json, d: Schema, defs: Defs, order: seq<string>, k: nat, i: nat)
    requires Below(d, defs, order, k) && IsRecord(d) && PrintableDef(d) && v.JObj? && i < |v.fields|
  {
    LooseGrounded(lang, d, defs, order, k);
    var loose := LoosenDef(lang, d);
    PartGrounded(loose, v.fields[i].key, LooseDefs(lang, defs), order);
    var rule := RuleFor(loose, v.fields[i].key);
    !rule.Refuse? && (rule.Check? ==> Conforms(v.fields[i].value, rule.schema, LooseDefs(lang, defs), order))
  }

  lemma {:induction false} LooseLookup(lang: Lang, ps: seq<Prop>, key: string)
    requires forall i :: 0 <= i < |ps| ==> Printable(ps[i].schema)
    ensures var r := Lookup(LoosenProps(lang, ps), key);
            if r.None? then forall f :: 0 <= f < |ps| ==> ps[f].key != key
            else exists f :: 0 <= f < |ps| && ps[f].key == key && r.value == Loosen(lang, ps[f].schema)
    decreases |ps|
  {
    if ps != [] && ps[0].key != key {
      LooseLookup(lang, ps[1..], key);
      var r := Lookup(LoosenProps(lang, ps[1..]), key);
      if r.Some? {
        var f: nat :| f < |ps[1..]| && ps[1..][f].key == key && r.value == Loosen(lang, ps[1..][f].schema);
        assert ps[f + 1].key == key;
      } else {
        assert forall f :: 1 <= f < |ps| ==> ps[f] == ps[1..][f - 1];
      }
    }
  }

  lemma LooseRule(lang: Lang, d: Schema, key: string)
    requires IsRecord(d) && PrintableDef(d)
    ensures LoosenDef(lang, d).Shape?
    ensures var ps, rule := d.properties.list, RuleFor(LoosenDef(lang, d), key);
            if rule.Check? then exists f :: 0 <= f < |ps| && ps[f].key == key && rule == Check(Loosen(lang, ps[f].schema))
            else rule.Accept? && forall f :: 0 <= f < |ps| ==> ps[f].key != key
  {
    hide Loosen, LoosenProps, Lookup, RequiredKeys;
    LooseLookup(lang, d.properties.list, key);
  }

  /** A listed key is declared once. */
  lemma FieldDeclared(lang: Lang, v: Json, d: Schema, defs: Defs, order: seq<string>, k: nat, i: nat, f: nat)
    requires Below(d, defs, order, k) && IsRecord(d) && PrintableDef(d) && v.JObj? && i < |v.fields|
    requires f < |d.properties.list| && d.properties.list[f].key == v.fields[i].key
    ensures Below(d.properties.list[f].schema, defs, order, k)
    ensures FieldInDecl(lang, v, d, defs, order, k, i)
            <==> Inhabits(lang, v.fields[i].value, d.properties.list[f].schema, defs, order, k)
  {
    hide Has, Module, Topological, Parse, TypeOf, Tree;
    var ps := d.properties.list;
    var fields := FieldDecls(lang, ps, d.required);
    DepsOfPropsAt(ps, f);
    TypeParses(lang, ps[f].schema);
    assert fields[f].key == ps[f].key;
    forall g | 0 <= g < |fields| && fields[g].key == v.fields[i].key ensures g == f {
      assert fields[g].key == ps[g].key;
    }
  }

  lemma {:induction false} ExactField(lang: Lang, v: Json, d: Schema, defs: Defs, order: seq<string>, k: nat, i: nat)
    requires Below(d, defs, order, k) && IsRecord(d) && PrintableDef(d) && v.JObj? && i < |v.fields|
    requires Small(v.fields[i].value)
    ensures FieldInDecl(lang, v, d, defs, order, k, i) <==> FieldLoosely(lang, v, d, defs, order, k, i)
    decreases k, v, d, 1
  {
    hide Has, Conforms, Module, Topological, Lookup, Deps, RuleFor, LoosenDef;
    var ps := d.properties.list;
    var key, value := v.fields[i].key, v.fields[i].value;
    LooseRule(lang, d, key);
    if RuleFor(LoosenDef(lang, d), key).Check? {
      var f: nat :| f < |ps| && ps[f].key == key && RuleFor(LoosenDef(lang, d), key) == Check(Loosen(lang, ps[f].schema));
      FieldDeclared(lang, v, d, defs, order, k, i, f);
      Exact(lang, value, ps[f].schema, defs, order, k);
    }
  }

  ghost predicate HasUnoptional(v: Json, fields: seq<FieldDecl>)
    requires v.JObj?
  {
    forall f :: 0 <= f < |fields| && !fields[f].optional ==> HasKey(v, fields[f].key)
  }

  ghost predicate HasAll(v: Json, keys: seq<string>)
    requires v.JObj?
  {
    forall key :: key in keys ==> HasKey(v, key)
  }

  lemma RequiredInDecl(lang: Lang, v: Json, ps: seq<Prop>, required: seq<string>)
    requires v.JObj? && forall i :: 0 <= i < |ps| ==> Printable(ps[i].schema)
    ensures HasUnoptional(v, FieldDecls(lang, ps, required)) <==> HasAll(v, RequiredKeys(ps, required))
  {
    hide HasKey, RequiredKeys, FieldDecls;
    var fields, keys := FieldDecls(lang, ps, required), RequiredKeys(ps, required);
    if HasUnoptional(v, fields) {
      forall key | key in keys ensures HasKey(v, key) {
        var f :| 0 <= f < |ps| && ps[f].key == key;
        assert fields[f].key == key && !fields[f].optional;
      }
    }
    if HasAll(v, keys) {
      forall f | 0 <= f < |fields| && !fields[f].optional ensures HasKey(v, fields[f].key) {
        assert ps[f].key in keys;
      }
    }
  }

  lemma {:induction false} RecordInDecl(lang: Lang, v: Json, d: Schema, defs: Defs, order: seq<string>, k: nat)
    requires Below(d, defs, order, k) && IsRecord(d) && PrintableDef(d) && v.JObj?
    ensures Declares(lang, v, d, defs, order, k)
            <==> HasAll(v, RequiredKeys(d.properties.list, d.required))
                 && (forall i :: 0 <= i < |v.fields| ==> FieldInDecl(lang, v, d, defs, order, k, i))
  {
    hide HasText, Module, Topological, Deps, RequiredKeys, HasKey, FieldDecls;
    BelowGrounded(d, defs, order, k);
    var env, fields := Module(lang, defs, order[..k]), FieldDecls(lang, d.properties.list, d.required);
    RequiredInDecl(lang, v, d.properties.list, d.required);
    if forall i :: 0 <= i < |v.fields| ==> FieldInDecl(lang, v, d, defs, order, k, i) {
      forall f, i | 0 <= f < |fields| && 0 <= i < |v.fields| && v.fields[i].key == fields[f].key
        ensures HasText(env, fields[f].text, v.fields[i].value)
      {
        assert FieldInDecl(lang, v, d, defs, order, k, i);
      }
    }
  }

  lemma RecordLoosely(lang: Lang, v: Json, d: Schema, defs: Defs, order: seq<string>, k: nat)
    requires Below(d, defs, order, k) && IsRecord(d) && PrintableDef(d) && v.JObj?
    ensures LooselyDef(lang, v, d, defs, order, k)
            <==> HasAll(v, RequiredKeys(d.properties.list, d.required))
                 && (forall i :: 0 <= i < |v.fields| ==> FieldLoosely(lang, v, d, defs, order, k, i))
  {
    hide Topological, Deps, RequiredKeys, HasKey, RuleFor, LoosenProps, Level;
    LooseGrounded(lang, d, defs, order, k);
    if LooselyDef(lang, v, d, defs, order, k) {
      forall i | 0 <= i < |v.fields| ensures FieldLoosely(lang, v, d, defs, order, k, i) {
      }
    }
    if forall i :: 0 <= i < |v.fields| ==> FieldLoosely(lang, v, d, defs, order, k, i) {
      forall i | 0 <= i < |v.fields|
        ensures (PartGrounded(LoosenDef(lang, d), v.fields[i].key, LooseDefs(lang, defs), order);
                 var rule := RuleFor(LoosenDef(lang, d), v.fields[i].key);
                 !rule.Refuse? && (rule.Check? ==> Conforms(v.fields[i].value, rule.schema, LooseDefs(lang, defs), order)))
      {
        assert FieldLoosely(lang, v, d, defs, order, k, i);
      }
    }
  }

  lemma NoObjectNoRecord(lang: Lang, v: Json, d: Schema, defs: Defs, order: seq<string>, k: nat)
    requires Below(d, defs, order, k) && IsRecord(d) && PrintableDef(d) && !v.JObj?
    ensures !Declares(lang, v, d, defs, order, k) && !LooselyDef(lang, v, d, defs, order, k)
  {
    hide HasText, Module, Topological, Deps, LoosenProps, RequiredKeys, Level, FieldDecls;
  }

  lemma {:induction false} ExactRecord(lang: Lang, v: Json, d: Schema, defs: Defs, order: seq<string>, k: nat)
    requires Below(d, defs, order, k) && IsRecord(d) && PrintableDef(d) && Small(v)
    ensures Declares(lang, v, d, defs, order, k) <==> LooselyDef(lang, v, d, defs, order, k)
    decreases k, v, d, 2
  {
    hide Declares, LooselyDef, FieldInDecl, FieldLoosely, IsRecord, PrintableDef, Below, RequiredKeys, HasAll;
    if !v.JObj? {
      NoObjectNoRecord(lang, v, d, defs, order, k);
    } else {
      forall i | 0 <= i < |v.fields|
        ensures FieldInDecl(lang, v, d, defs, order, k, i) <==> FieldLoosely(lang, v, d, defs, order, k, i)
      {
        ExactField(lang, v, d, defs, order, k, i);
      }
      RecordInDecl(lang, v, d, defs, order, k);
      RecordLoosely(lang, v, d, defs, order, k);
    }
  }

  /** The generated type is exactly the schema with its bounds and its closedness dropped:
      a value inhabits the type printed in the module iff it conforms to the loosened
      schema. */
  lemma {:induction false} GenerationIsExact(lang: Lang, v: Json, s: Schema, defs: Defs, order: seq<string>)
    requires Topological(defs, order) && PrintableDefs(defs) && Printable(s) && Deps(s) <= defs.Keys && Small(v)
    ensures Grounded(Loosen(lang, s), LooseDefs(lang, defs), order)
    ensures HasText(Module(lang, defs, order), TypeOf(lang, s), v)
            <==> Validate(v, Loosen(lang, s), LooseDefs(lang, defs), order, []) == []
  {
    assert order[..|order|] == order;
    Exact(lang, v, s, defs, order, |order|);
    TypeParses(lang, s);
    LooseGrounded(lang, s, defs, order, |order|);
    ValidateTells(v, Loosen(lang, s), LooseDefs(lang, defs), order, []);
  }
}

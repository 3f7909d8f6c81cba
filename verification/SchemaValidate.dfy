/** The validator of tools/gen-ni-schema.py (_is, validate, _validate_object), and what a
    conforming value is, stated without error lists (JSON Schema draft 2020-12, Core
    sections 8.2.3.1, 10.2.1.2 and 10.3, Validation sections 6.1 to 6.5). */
module SchemaValidate {
  import opened Prelude
  import opened SchemaOrder

  /** Parsed JSON as Python holds it: an int and a float are different values. */
  datatype Json =
    | JNull
    | JBool(b: bool)
    | JInt(i: int)
    | JFloat(r: real)
    | JStr(s: string)
    | JArr(items: seq<Json>)
    | JObj(fields: seq<Field>)
  datatype Field = Field(key: string, value: Json)

  datatype Step = At(i: nat) | Key(k: string)
  type Path = seq<Step>

  datatype Error =
    | NoAlternative(path: Path, tried: nat)
    | NotListed(path: Path)
    | WrongKind(path: Path, kind: Kind)
    | BadLength(path: Path)
    | OutOfRange(path: Path)
    | BadCount(path: Path)
    | Missing(path: Path, key: string)
    | UnknownKey(path: Path, key: string)

  const DEFAULT_MAX: nat := 0x4000_0000

  function Or<T>(o: Option<T>, d: T): T {
    if o.Some? then o.value else d
  }

  predicate Is(v: Json, k: Kind) {
    match k
    case KInteger => v.JInt?
    case KNumber => v.JInt? || v.JFloat?
    case KString => v.JStr?
    case KBoolean => v.JBool?
    case KObject => v.JObj?
    case KArray => v.JArr?
    case KNull => v.JNull?
  }

  function Number(v: Json): real
    requires v.JInt? || v.JFloat?
  {
    if v.JInt? then v.i as real else v.r
  }

  predicate GoodLength(n: nat, b: Bounds) {
    Or(b.minLength, 0) <= n <= Or(b.maxLength, DEFAULT_MAX)
  }

  predicate GoodCount(n: nat, b: Bounds) {
    Or(b.minItems, 0) <= n <= Or(b.maxItems, DEFAULT_MAX)
  }

  predicate GoodRange(x: real, b: Bounds) {
    (b.minimum.Some? ==> b.minimum.value as real <= x) && (b.maximum.Some? ==> x <= b.maximum.value as real)
  }

  predicate HasKey(v: Json, k: string)
    requires v.JObj?
  {
    exists i :: 0 <= i < |v.fields| && v.fields[i].key == k
  }

  function ItemSchema(s: Schema): Schema
    requires s.Shape?
  {
    if s.items.Some? then s.items.value else Top
  }

  /** Which schema a key of an object is checked against. */
  datatype KeyRule = Check(schema: Schema) | Refuse | Accept

  function Lookup(ps: seq<Prop>, k: string): Option<Schema> {
    if ps == [] then None else if ps[0].key == k then Some(ps[0].schema) else Lookup(ps[1..], k)
  }

  function RuleFor(s: Schema, k: string): KeyRule
    requires s.Shape?
  {
    var listed := if s.properties.Listed? then Lookup(s.properties.list, k) else None;
    if listed.Some? then Check(listed.value)
    else
      match s.extra
      case Nothing => Refuse
      case Each(e) => Check(e)
      case Anything => Accept
  }

  lemma {:induction false} LookupDeps(ps: seq<Prop>, k: string)
    ensures Lookup(ps, k).Some? ==> Deps(Lookup(ps, k).value) <= DepsOfProps(ps)
    decreases |ps|
  {
    if ps != [] { LookupDeps(ps[1..], k); }
  }

  lemma RuleDeps(s: Schema, k: string)
    requires s.Shape?
    ensures RuleFor(s, k).Check? ==> Deps(RuleFor(s, k).schema) <= Deps(s)
    ensures Deps(ItemSchema(s)) <= Deps(s)
  {
    if s.properties.Listed? { LookupDeps(s.properties.list, k); }
  }

  /** The premises every recursive call needs: the schema refers to known names, and the
      definitions have a topological order, whose rank goes down through `$ref`. */
  ghost predicate Grounded(s: Schema, defs: Defs, order: seq<string>) {
    Topological(defs, order) && Deps(s) <= defs.Keys
  }

  ghost function Rank(s: Schema, order: seq<string>): nat {
    Level(Deps(s), order)
  }

  lemma {:induction false} RefGrounded(s: Schema, defs: Defs, order: seq<string>)
    requires Grounded(s, defs, order) && s.Ref?
    ensures s.name in defs && Grounded(defs[s.name], defs, order)
    ensures Rank(defs[s.name], order) < Rank(s, order)
  {
    assert s.name in Deps(s);
    RefGoesDown(defs, order, s.name);
  }

  lemma AltGrounded(s: Schema, i: nat, defs: Defs, order: seq<string>)
    requires Grounded(s, defs, order) && s.AnyOf? && i < |s.alts|
    ensures Grounded(s.alts[i], defs, order) && Rank(s.alts[i], order) <= Rank(s, order)
  {
    DepsOfAllAt(s.alts, i);
    LevelMonotone(Deps(s.alts[i]), Deps(s), order);
  }

  lemma PartGrounded(s: Schema, k: string, defs: Defs, order: seq<string>)
    requires Grounded(s, defs, order) && s.Shape?
    ensures Grounded(ItemSchema(s), defs, order) && Rank(ItemSchema(s), order) <= Rank(s, order)
    ensures RuleFor(s, k).Check? ==>
              Grounded(RuleFor(s, k).schema, defs, order) && Rank(RuleFor(s, k).schema, order) <= Rank(s, order)
  {
    RuleDeps(s, k);
    LevelMonotone(Deps(ItemSchema(s)), Deps(s), order);
    if RuleFor(s, k).Check? {
      LevelMonotone(Deps(RuleFor(s, k).schema), Deps(s), order);
    }
  }

  // ----- the validator's error list ------------------------------------------------------------

  function Validate(v: Json, s: Schema, defs: Defs, ghost order: seq<string>, path: Path): seq<Error>
    requires Grounded(s, defs, order)
    decreases Rank(s, order), v, s, 1, 0
  {
    match s
    case Ref(name) =>
      RefGrounded(s, defs, order);
      Validate(v, defs[name], defs, order, path)
    case AnyOf(alts) =>
      if SomeAlternative(v, s, 0, defs, order, path) then [] else [NoAlternative(path, |alts|)]
    case Shape(enum, kind, b, _, _, required, _) =>
      if enum.Some? && !(v.JStr? && v.s in enum.value) then [NotListed(path)]
      else if kind.Some? && !Is(v, kind.value) then [WrongKind(path, kind.value)]
      else
        match v
        case JStr(t) => if GoodLength(|t|, b) then [] else [BadLength(path)]
        case JInt(i) => if GoodRange(i as real, b) then [] else [OutOfRange(path)]
        case JFloat(x) => if GoodRange(x, b) then [] else [OutOfRange(path)]
        case JArr(items) =>
          (if GoodCount(|items|, b) then [] else [BadCount(path)]) + ItemErrors(v, s, 0, defs, order, path)
        case JObj(_) => MissingErrors(v, required, path) + FieldErrors(v, s, 0, defs, order, path)
        case _ => []
  }

  predicate SomeAlternative(v: Json, s: Schema, i: nat, defs: Defs, ghost order: seq<string>, path: Path)
    requires Grounded(s, defs, order) && s.AnyOf? && i <= |s.alts|
    decreases Rank(s, order), v, s, 0, |s.alts| - i
  {
    if i == |s.alts| then false
    else
      AltGrounded(s, i, defs, order);
      Validate(v, s.alts[i], defs, order, path) == [] || SomeAlternative(v, s, i + 1, defs, order, path)
  }

  function ItemErrors(v: Json, s: Schema, i: nat, defs: Defs, ghost order: seq<string>, path: Path): seq<Error>
    requires Grounded(s, defs, order) && s.Shape? && v.JArr? && i <= |v.items|
    decreases Rank(s, order), v, s, 0, |v.items| - i
  {
    if i == |v.items| then []
    else
      PartGrounded(s, "", defs, order);
      Validate(v.items[i], ItemSchema(s), defs, order, path + [At(i)]) + ItemErrors(v, s, i + 1, defs, order, path)
  }

  function MissingErrors(v: Json, required: seq<string>, path: Path): seq<Error>
    requires v.JObj?
  {
    if required == [] then []
    else (if HasKey(v, required[0]) then [] else [Missing(path, required[0])]) + MissingErrors(v, required[1..], path)
  }

  function FieldErrors(v: Json, s: Schema, i: nat, defs: Defs, ghost order: seq<string>, path: Path): seq<Error>
    requires Grounded(s, defs, order) && s.Shape? && v.JObj? && i <= |v.fields|
    decreases Rank(s, order), v, s, 0, |v.fields| - i
  {
    if i == |v.fields| then []
    else
      OneFieldErrors(v, s, i, defs, order, path) + FieldErrors(v, s, i + 1, defs, order, path)
  }

  function OneFieldErrors(v: Json, s: Schema, i: nat, defs: Defs, ghost order: seq<string>, path: Path): seq<Error>
    requires Grounded(s, defs, order) && s.Shape? && v.JObj? && i < |v.fields|
    decreases Rank(s, order), v, s, 0, 0
  {
    var f := v.fields[i];
    PartGrounded(s, f.key, defs, order);
    match RuleFor(s, f.key)
    case Check(t) => Validate(f.value, t, defs, order, path + [Key(f.key)])
    case Refuse => [UnknownKey(path, f.key)]
    case Accept => []
  }

  // ----- the validator's loops --------------------------------------------------------------

  method ValidateValue(v: Json, s: Schema, defs: Defs, ghost order: seq<string>, path: Path) returns (errors: seq<Error>)
    requires Grounded(s, defs, order)
    ensures errors == Validate(v, s, defs, order, path)
    decreases Rank(s, order), v, s, 1
  {
    match s {
      case Ref(name) =>
        RefGrounded(s, defs, order);
        errors := ValidateValue(v, defs[name], defs, order, path);
      case AnyOf(alts) =>
        var matched := ValidateAlternatives(v, s, defs, order, path);
        errors := if matched then [] else [NoAlternative(path, |alts|)];
      case Shape(enum, kind, b, _, _, _, _) =>
        if enum.Some? && !(v.JStr? && v.s in enum.value) {
          return [NotListed(path)];
        }
        if kind.Some? && !Is(v, kind.value) {
          return [WrongKind(path, kind.value)];
        }
        errors := [];
        match v {
          case JStr(t) =>
            if !GoodLength(|t|, b) { errors := [BadLength(path)]; }
          case JInt(i) =>
            if !GoodRange(i as real, b) { errors := [OutOfRange(path)]; }
          case JFloat(x) =>
            if !GoodRange(x, b) { errors := [OutOfRange(path)]; }
          case JArr(items) =>
            if !GoodCount(|items|, b) { errors := [BadCount(path)]; }
            var found := ValidateItems(v, s, defs, order, path);
            errors := errors + found;
          case JObj(_) => errors := ValidateObject(v, s, defs, order, path);
          case _ =>
        }
    }
  }

  method ValidateAlternatives(v: Json, s: Schema, defs: Defs, ghost order: seq<string>, path: Path) returns (matched: bool)
    requires Grounded(s, defs, order) && s.AnyOf?
    ensures matched == SomeAlternative(v, s, 0, defs, order, path)
    decreases Rank(s, order), v, s, 0
  {
    hide Validate, Topological, Deps, DepsOfAll, Level;
    matched := false;
    for i := 0 to |s.alts|
      invariant SomeAlternative(v, s, 0, defs, order, path) == (matched || SomeAlternative(v, s, i, defs, order, path))
    {
      AltGrounded(s, i, defs, order);
      var tried := ValidateValue(v, s.alts[i], defs, order, path);
      matched := matched || tried == [];
    }
  }

  method ValidateItems(v: Json, s: Schema, defs: Defs, ghost order: seq<string>, path: Path) returns (errors: seq<Error>)
    requires Grounded(s, defs, order) && s.Shape? && v.JArr?
    ensures errors == ItemErrors(v, s, 0, defs, order, path)
    decreases Rank(s, order), v, s, 0
  {
    hide Validate, Topological, Deps, DepsOfAll, Level, ItemSchema;
    errors := [];
    for i := 0 to |v.items|
      invariant errors + ItemErrors(v, s, i, defs, order, path) == ItemErrors(v, s, 0, defs, order, path)
    {
      PartGrounded(s, "", defs, order);
      var found := ValidateValue(v.items[i], ItemSchema(s), defs, order, path + [At(i)]);
      errors := errors + found;
    }
  }

  method ValidateObject(v: Json, s: Schema, defs: Defs, ghost order: seq<string>, path: Path) returns (errors: seq<Error>)
    requires Grounded(s, defs, order) && s.Shape? && v.JObj?
    ensures errors == MissingErrors(v, s.required, path) + FieldErrors(v, s, 0, defs, order, path)
    decreases Rank(s, order), v, s, 0
  {
    hide Validate, Topological, Deps, DepsOfAll, Level, RuleFor;
    errors := MissingErrors(v, s.required, path);
    ghost var before := errors;
    for i := 0 to |v.fields|
      invariant errors + FieldErrors(v, s, i, defs, order, path) == before + FieldErrors(v, s, 0, defs, order, path)
    {
      assert FieldErrors(v, s, i, defs, order, path)
        == OneFieldErrors(v, s, i, defs, order, path) + FieldErrors(v, s, i + 1, defs, order, path);
      var f := v.fields[i];
      PartGrounded(s, f.key, defs, order);
      match RuleFor(s, f.key) {
        case Check(t) =>
          var found := ValidateValue(f.value, t, defs, order, path + [Key(f.key)]);
          errors := errors + found;
        case Refuse => errors := errors + [UnknownKey(path, f.key)];
        case Accept =>
      }
    }
    assert FieldErrors(v, s, |v.fields|, defs, order, path) == [];
  }

  // ----- what a conforming value is -----------------------------------------------------------

  ghost predicate Conforms(v: Json, s: Schema, defs: Defs, order: seq<string>)
    requires Grounded(s, defs, order)
    decreases Rank(s, order), v, s
  {
    match s
    case Ref(name) =>
      RefGrounded(s, defs, order);
      Conforms(v, defs[name], defs, order)
    case AnyOf(alts) =>
      exists i :: 0 <= i < |alts| && (AltGrounded(s, i, defs, order); Conforms(v, alts[i], defs, order))
    case Shape(enum, kind, b, _, _, required, _) =>
      && (enum.Some? ==> v.JStr? && v.s in enum.value)
      && (kind.Some? ==> Is(v, kind.value))
      && (v.JStr? ==> GoodLength(|v.s|, b))
      && (v.JInt? || v.JFloat? ==> GoodRange(Number(v), b))
      && (v.JArr? ==> GoodCount(|v.items|, b))
      && (v.JArr? ==> forall i :: 0 <= i < |v.items| ==> (PartGrounded(s, "", defs, order); Conforms(v.items[i], ItemSchema(s), defs, order)))
      && (v.JObj? ==> forall k :: k in required ==> HasKey(v, k))
      && (v.JObj? ==> forall i :: 0 <= i < |v.fields| ==>
            (PartGrounded(s, v.fields[i].key, defs, order);
             var rule := RuleFor(s, v.fields[i].key);
             !rule.Refuse? && (rule.Check? ==> Conforms(v.fields[i].value, rule.schema, defs, order))))
  }

  lemma {:induction false} MissingErrorsTell(v: Json, required: seq<string>, path: Path)
    requires v.JObj?
    ensures MissingErrors(v, required, path) == [] <==> forall k :: k in required ==> HasKey(v, k)
    decreases |required|
  {
    if required != [] {
      MissingErrorsTell(v, required[1..], path);
      assert forall k :: k in required <==> k == required[0] || k in required[1..];
    }
  }

  lemma {:induction false} ItemErrorsTell(v: Json, s: Schema, i: nat, defs: Defs, order: seq<string>, path: Path)
    requires Grounded(s, defs, order) && s.Shape? && v.JArr? && i <= |v.items|
    ensures ItemErrors(v, s, i, defs, order, path) == [] <==>
            forall j :: i <= j < |v.items| ==>
              (PartGrounded(s, "", defs, order); Conforms(v.items[j], ItemSchema(s), defs, order))
    decreases Rank(s, order), v, s, 0, |v.items| - i
  {
    hide Conforms, Validate, Topological, Deps, DepsOfAll, Level, ItemSchema;
    PartGrounded(s, "", defs, order);
    if i < |v.items| {
      ValidateTells(v.items[i], ItemSchema(s), defs, order, path + [At(i)]);
      ItemErrorsTell(v, s, i + 1, defs, order, path);
    }
  }

  lemma {:induction false} FieldErrorsTell(v: Json, s: Schema, i: nat, defs: Defs, order: seq<string>, path: Path)
    requires Grounded(s, defs, order) && s.Shape? && v.JObj? && i <= |v.fields|
    ensures FieldErrors(v, s, i, defs, order, path) == [] <==>
            forall j :: i <= j < |v.fields| ==>
              (PartGrounded(s, v.fields[j].key, defs, order);
               var rule := RuleFor(s, v.fields[j].key);
               !rule.Refuse? && (rule.Check? ==> Conforms(v.fields[j].value, rule.schema, defs, order)))
    decreases Rank(s, order), v, s, 0, |v.fields| - i
  {
    hide Conforms, Validate, Topological, Deps, DepsOfAll, Level, RuleFor;
    if i < |v.fields| {
      var f := v.fields[i];
      PartGrounded(s, f.key, defs, order);
      if RuleFor(s, f.key).Check? {
        ValidateTells(f.value, RuleFor(s, f.key).schema, defs, order, path + [Key(f.key)]);
      }
      FieldErrorsTell(v, s, i + 1, defs, order, path);
    }
  }

  lemma {:induction false} AlternativesTell(v: Json, s: Schema, i: nat, defs: Defs, order: seq<string>, path: Path)
    requires Grounded(s, defs, order) && s.AnyOf? && i <= |s.alts|
    ensures SomeAlternative(v, s, i, defs, order, path) <==>
            exists j :: i <= j < |s.alts| && (AltGrounded(s, j, defs, order); Conforms(v, s.alts[j], defs, order))
    decreases Rank(s, order), v, s, 0, |s.alts| - i
  {
    hide Conforms, Validate, Topological, Deps, DepsOfAll, Level;
    if i < |s.alts| {
      AltGrounded(s, i, defs, order);
      ValidateTells(v, s.alts[i], defs, order, path);
      AlternativesTell(v, s, i + 1, defs, order, path);
    }
  }

  /** The validator is exact: it reports no error iff the value conforms, wherever in a
      document it stands. */
  lemma {:induction false} ValidateTells(v: Json, s: Schema, defs: Defs, order: seq<string>, path: Path)
    requires Grounded(s, defs, order)
    ensures Validate(v, s, defs, order, path) == [] <==> Conforms(v, s, defs, order)
    decreases Rank(s, order), v, s, 1, 0
  {
    hide Topological, Deps, DepsOfAll, Level, ItemErrors, FieldErrors, SomeAlternative, MissingErrors;
    match s {
      case Ref(name) =>
        RefGrounded(s, defs, order);
        ValidateTells(v, defs[name], defs, order, path);
      case AnyOf(alts) => AlternativesTell(v, s, 0, defs, order, path);
      case Shape(_, _, _, _, _, required, _) =>
        if v.JArr? {
          ItemErrorsTell(v, s, 0, defs, order, path);
        } else if v.JObj? {
          MissingErrorsTell(v, required, path);
          FieldErrorsTell(v, s, 0, defs, order, path);
        }
    }
  }
}

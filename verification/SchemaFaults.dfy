/** Where the validator of tools/gen-ni-schema.py (validate, _validate_object) finds fault:
    each error stands at the place of a fault and names it, and every fault is reported. */
module SchemaFaults {
  import opened Prelude
  import opened SchemaOrder
  import opened SchemaValidate

  // ----- the fault that an error names ---------------------------------------------------------

  /** Key `k` is listed, first at place `j`. */
  ghost predicate Names(s: Schema, k: string, j: nat) {
    s.Shape? && s.properties.Listed? && j < |s.properties.list| && s.properties.list[j].key == k
    && forall i :: 0 <= i < j ==> s.properties.list[i].key != k
  }

  ghost predicate Unnamed(s: Schema, k: string) {
    s.Shape? && (s.properties.Listed? ==> forall i :: 0 <= i < |s.properties.list| ==> s.properties.list[i].key != k)
  }

  /** The value is one of the enum, and of the kind. */
  ghost predicate Enters(v: Json, s: Schema)
    requires s.Shape?
  {
    (s.enum.Some? ==> v.JStr? && v.s in s.enum.value) && (s.kind.Some? ==> Is(v, s.kind.value))
  }

  /** The value itself, not a part of it, breaks the schema as the error says. */
  ghost predicate FaultHere(v: Json, s: Schema, e: Error)
    requires s.Shape?
  {
    var b := s.bounds;
    match e
    case NoAlternative(_, _) => false
    case NotListed(_) => s.enum.Some? && !(v.JStr? && v.s in s.enum.value)
    case WrongKind(_, k) => (s.enum.Some? ==> v.JStr? && v.s in s.enum.value) && s.kind == Some(k) && !Is(v, k)
    case BadLength(_) =>
      Enters(v, s) && v.JStr?
      && ((b.minLength.Some? && |v.s| < b.minLength.value) || |v.s| > (if b.maxLength.Some? then b.maxLength.value else 0x4000_0000))
    case OutOfRange(_) =>
      Enters(v, s)
      && ((v.JInt? && ((b.minimum.Some? && v.i < b.minimum.value) || (b.maximum.Some? && v.i > b.maximum.value)))
          || (v.JFloat? && ((b.minimum.Some? && v.r < b.minimum.value as real) || (b.maximum.Some? && v.r > b.maximum.value as real))))
    case BadCount(_) =>
      Enters(v, s) && v.JArr?
      && ((b.minItems.Some? && |v.items| < b.minItems.value) || |v.items| > (if b.maxItems.Some? then b.maxItems.value else 0x4000_0000))
    case Missing(_, k) => Enters(v, s) && v.JObj? && k in s.required && forall i :: 0 <= i < |v.fields| ==> v.fields[i].key != k
    case UnknownKey(_, k) =>
      Enters(v, s) && v.JObj? && (exists i :: 0 <= i < |v.fields| && v.fields[i].key == k) && Unnamed(s, k) && s.extra.Nothing?
  }

  /** The same error, one step further down. */
  function Inside(e: Error): Error
    requires e.path != []
  {
    e.(path := e.path[1..])
  }

  /** The schema of the items; `{}` where none is given. */
  function ItemsOf(s: Schema): Schema
    requires s.Shape?
  {
    if s.items.Some? then s.items.value else Top
  }

  lemma ItemsGrounded(s: Schema, defs: Defs, order: seq<string>)
    requires Grounded(s, defs, order) && s.Shape?
    ensures Grounded(ItemsOf(s), defs, order) && Rank(ItemsOf(s), order) <= Rank(s, order)
  {
    hide Topological, Level;
    LevelMonotone(Deps(ItemsOf(s)), Deps(s), order);
  }

  lemma NamedGrounded(s: Schema, k: string, j: nat, defs: Defs, order: seq<string>)
    requires Grounded(s, defs, order) && Names(s, k, j)
    ensures Grounded(s.properties.list[j].schema, defs, order) && Rank(s.properties.list[j].schema, order) <= Rank(s, order)
  {
    hide Topological, Level;
    DepsOfPropsAt(s.properties.list, j);
    LevelMonotone(Deps(s.properties.list[j].schema), Deps(s), order);
  }

  lemma ExtraGrounded(s: Schema, defs: Defs, order: seq<string>)
    requires Grounded(s, defs, order) && s.Shape? && s.extra.Each?
    ensures Grounded(s.extra.schema, defs, order) && Rank(s.extra.schema, order) <= Rank(s, order)
  {
    hide Topological, Level;
    LevelMonotone(Deps(s.extra.schema), Deps(s), order);
  }

  /** Following the error's path through the value and the schema together leads to the fault
      that the error names.  The path is relative to the value. */
  ghost predicate FaultAt(v: Json, s: Schema, e: Error, defs: Defs, order: seq<string>)
    requires Grounded(s, defs, order)
    decreases Rank(s, order), v, s, 0
  {
    match s
    case Ref(name) =>
      RefGrounded(s, defs, order);
      FaultAt(v, defs[name], e, defs, order)
    case AnyOf(alts) =>
      && e == NoAlternative([], |alts|)
      && forall i :: 0 <= i < |alts| ==> (AltGrounded(s, i, defs, order); Faulty(v, alts[i], defs, order))
    case Shape(_, _, _, _, _, _, _) =>
      if e.path == [] then FaultHere(v, s, e)
      else
        Enters(v, s)
        && match e.path[0]
           case At(i) =>
             v.JArr? && i < |v.items| && (ItemsGrounded(s, defs, order); FaultAt(v.items[i], ItemsOf(s), Inside(e), defs, order))
           case Key(k) =>
             v.JObj? && exists i :: 0 <= i < |v.fields| && v.fields[i].key == k && FieldFault(v.fields[i].value, s, k, Inside(e), defs, order)
  }

  ghost predicate Faulty(v: Json, s: Schema, defs: Defs, order: seq<string>)
    requires Grounded(s, defs, order)
    decreases Rank(s, order), v, s, 1
  {
    exists e :: FaultAt(v, s, e, defs, order)
  }

  /** The value of key `k` breaks the schema listed for it, or else that of all other keys. */
  ghost predicate FieldFault(x: Json, s: Schema, k: string, e: Error, defs: Defs, order: seq<string>)
    requires Grounded(s, defs, order) && s.Shape?
    decreases Rank(s, order), x, s, 0
  {
    || (exists j: nat :: Names(s, k, j)
          && (NamedGrounded(s, k, j, defs, order); FaultAt(x, s.properties.list[j].schema, e, defs, order)))
    || (Unnamed(s, k) && s.extra.Each? && (ExtraGrounded(s, defs, order); FaultAt(x, s.extra.schema, e, defs, order)))
  }

  // ----- from error lists to faults ------------------------------------------------------------

  /** The error as seen from `path`. */
  function From(path: Path, e: Error): Error
    requires path <= e.path
  {
    e.(path := e.path[|path|..])
  }

  lemma StepsDown(path: Path, step: Step, e: Error)
    ensures path + [step] <= e.path <==> path <= e.path && From(path, e).path != [] && From(path, e).path[0] == step
    ensures path + [step] <= e.path ==> From(path + [step], e) == Inside(From(path, e))
  {
    if path <= e.path && From(path, e).path != [] && From(path, e).path[0] == step {
      assert e.path == path + e.path[|path|..];
      assert e.path[|path|] == step;
    }
    if path + [step] <= e.path {
      assert e.path[..|path|] == path && e.path[|path|] == step;
      assert e.path[|path|..][1..] == e.path[|path| + 1..];
    }
  }

  lemma {:induction false} LookupTells(ps: seq<Prop>, k: string)
    ensures var r := Lookup(ps, k);
            if r.None? then forall i :: 0 <= i < |ps| ==> ps[i].key != k
            else exists j: nat :: j < |ps| && ps[j].key == k && ps[j].schema == r.value && forall i :: 0 <= i < j ==> ps[i].key != k
    decreases |ps|
  {
    if ps != [] && ps[0].key != k {
      LookupTells(ps[1..], k);
      var r := Lookup(ps[1..], k);
      if r.Some? {
        var j: nat :| j < |ps[1..]| && ps[1..][j].key == k && ps[1..][j].schema == r.value && forall i :: 0 <= i < j ==> ps[1..][i].key != k;
        assert ps[j + 1].key == k && forall i :: 0 < i < j + 1 ==> ps[i] == ps[1..][i - 1];
      } else {
        assert forall i :: 0 < i < |ps| ==> ps[i] == ps[1..][i - 1];
      }
    }
  }

  /** The validator's rule for a key, over the listed properties themselves. */
  lemma RuleTells(s: Schema, k: string) returns (j: nat)
    requires s.Shape?
    ensures match RuleFor(s, k)
            case Refuse => Unnamed(s, k) && s.extra.Nothing?
            case Accept => Unnamed(s, k) && s.extra.Anything?
            case Check(t) => (Names(s, k, j) && s.properties.list[j].schema == t) || (Unnamed(s, k) && s.extra == Each(t))
  {
    j := 0;
    if s.properties.Listed? {
      var ps := s.properties.list;
      LookupTells(ps, k);
      if Lookup(ps, k).Some? {
        j :| j < |ps| && ps[j].key == k && ps[j].schema == Lookup(ps, k).value && forall i :: 0 <= i < j ==> ps[i].key != k;
      }
    }
  }

  lemma NamedOnce(s: Schema, k: string, i: nat, j: nat)
    requires Names(s, k, i)
    ensures !Unnamed(s, k) && (Names(s, k, j) ==> i == j)
  {
  }

  /** What the errors of one field of an object are. */
  lemma {:induction false} FieldErrorsAre(v: Json, s: Schema, i: nat, defs: Defs, order: seq<string>, path: Path, e: Error)
    requires Grounded(s, defs, order) && s.Shape? && v.JObj? && i < |v.fields|
    ensures var k := v.fields[i].key;
            e in OneFieldErrors(v, s, i, defs, order, path)
            <==> (e == UnknownKey(path, k) && Unnamed(s, k) && s.extra.Nothing?)
                 || (path + [Key(k)] <= e.path && FieldFault(v.fields[i].value, s, k, From(path + [Key(k)], e), defs, order))
    decreases Rank(s, order), v, s, 0, 0
  {
    hide Topological, Deps, Level, Validate, RuleFor, FaultAt, Names, Unnamed;
    var k, x := v.fields[i].key, v.fields[i].value;
    PartGrounded(s, k, defs, order);
    var j := RuleTells(s, k);
    match RuleFor(s, k) {
      case Check(t) => ErrorsAreFaults(x, t, defs, order, path + [Key(k)], e);
      case _ =>
    }
    if Names(s, k, j) {
      NamedGrounded(s, k, j, defs, order);
      forall i ensures !Unnamed(s, k) && (Names(s, k, i) ==> i == j) { NamedOnce(s, k, j, i); }
    } else {
      if n: nat :| Names(s, k, n) { NamedOnce(s, k, n, j); }
    }
  }

  lemma {:induction false} ItemErrorsAre(v: Json, s: Schema, i: nat, defs: Defs, order: seq<string>, path: Path, e: Error)
    requires Grounded(s, defs, order) && s.Shape? && v.JArr? && i <= |v.items|
    ensures e in ItemErrors(v, s, i, defs, order, path)
            <==> exists j: nat :: i <= j < |v.items| && ItemFault(v, s, j, defs, order, path, e)
    decreases Rank(s, order), v, s, 0, |v.items| - i
  {
    hide Topological, Deps, Level, Validate, FaultAt, ItemFault;
    if i < |v.items| {
      PartGrounded(s, "", defs, order);
      ErrorsAreFaults(v.items[i], ItemSchema(s), defs, order, path + [At(i)], e);
      ItemFaultTells(v, s, i, defs, order, path, e);
      ItemErrorsAre(v, s, i + 1, defs, order, path, e);
    }
  }

  ghost predicate ItemFault(v: Json, s: Schema, j: nat, defs: Defs, order: seq<string>, path: Path, e: Error)
    requires Grounded(s, defs, order) && s.Shape? && v.JArr? && j < |v.items|
  {
    path + [At(j)] <= e.path && (ItemsGrounded(s, defs, order); FaultAt(v.items[j], ItemsOf(s), From(path + [At(j)], e), defs, order))
  }

  lemma ItemFaultTells(v: Json, s: Schema, j: nat, defs: Defs, order: seq<string>, path: Path, e: Error)
    requires Grounded(s, defs, order) && s.Shape? && v.JArr? && j < |v.items|
    ensures Grounded(ItemSchema(s), defs, order)
    ensures ItemFault(v, s, j, defs, order, path, e)
            <==> path + [At(j)] <= e.path && FaultAt(v.items[j], ItemSchema(s), From(path + [At(j)], e), defs, order)
  {
    hide Topological, Deps, Level, FaultAt;
    ItemsGrounded(s, defs, order);
  }

  lemma {:induction false} MissingAre(v: Json, required: seq<string>, path: Path, e: Error)
    requires v.JObj?
    ensures e in MissingErrors(v, required, path)
            <==> e.Missing? && e.path == path && e.key in required && forall i :: 0 <= i < |v.fields| ==> v.fields[i].key != e.key
    decreases |required|
  {
    if required != [] {
      MissingAre(v, required[1..], path, e);
      assert e.Missing? ==> (e.key in required <==> e.key == required[0] || e.key in required[1..]);
    }
  }

  lemma {:induction false} FieldsAre(v: Json, s: Schema, i: nat, defs: Defs, order: seq<string>, path: Path, e: Error)
    requires Grounded(s, defs, order) && s.Shape? && v.JObj? && i <= |v.fields|
    ensures e in FieldErrors(v, s, i, defs, order, path)
            <==> exists j: nat :: i <= j < |v.fields| && FieldError(v, s, j, defs, order, path, e)
    decreases |v.fields| - i
  {
    hide Topological, Deps, Level, OneFieldErrors;
    if i < |v.fields| {
      FieldsAre(v, s, i + 1, defs, order, path, e);
      var first, rest := OneFieldErrors(v, s, i, defs, order, path), FieldErrors(v, s, i + 1, defs, order, path);
      assert FieldErrors(v, s, i, defs, order, path) == first + rest;
      assert e in first + rest <==> FieldError(v, s, i, defs, order, path, e) || e in rest;
    }
  }

  ghost predicate FieldError(v: Json, s: Schema, j: nat, defs: Defs, order: seq<string>, path: Path, e: Error)
    requires Grounded(s, defs, order) && s.Shape? && v.JObj? && j < |v.fields|
  {
    e in OneFieldErrors(v, s, j, defs, order, path)
  }

  lemma {:induction false} NoAlternativeMeets(v: Json, s: Schema, i: nat, defs: Defs, order: seq<string>, path: Path)
    requires Grounded(s, defs, order) && s.AnyOf? && i <= |s.alts|
    ensures !SomeAlternative(v, s, i, defs, order, path) <==>
            forall j :: i <= j < |s.alts| ==> (AltGrounded(s, j, defs, order); Faulty(v, s.alts[j], defs, order))
    decreases Rank(s, order), v, s, 0, |s.alts| - i
  {
    hide Topological, Deps, DepsOfAll, Level, Validate, Faulty;
    if i < |s.alts| {
      AltGrounded(s, i, defs, order);
      SomeErrorSomeFault(v, s.alts[i], defs, order, path);
      NoAlternativeMeets(v, s, i + 1, defs, order, path);
    }
  }

  lemma {:induction false} SomeErrorSomeFault(v: Json, s: Schema, defs: Defs, order: seq<string>, path: Path)
    requires Grounded(s, defs, order)
    ensures Validate(v, s, defs, order, path) != [] <==> Faulty(v, s, defs, order)
    decreases Rank(s, order), v, s, 2, 0
  {
    hide Topological, Deps, Level, Validate, FaultAt;
    var errors := Validate(v, s, defs, order, path);
    if errors != [] {
      assert errors[0] in errors;
      ErrorsAreFaults(v, s, defs, order, path, errors[0]);
    }
    if f :| FaultAt(v, s, f, defs, order) {
      var e := f.(path := path + f.path);
      assert From(path, e) == f;
      ErrorsAreFaults(v, s, defs, order, path, e);
    }
  }

  /** Each reported error leads along its path to the fault it names, and every fault is
      reported: an error is in the list exactly if it extends the path and, read from there,
      is a fault of the value. */
  lemma {:induction false} ErrorsAreFaults(v: Json, s: Schema, defs: Defs, order: seq<string>, path: Path, e: Error)
    requires Grounded(s, defs, order)
    ensures e in Validate(v, s, defs, order, path) <==> path <= e.path && FaultAt(v, s, From(path, e), defs, order)
    decreases Rank(s, order), v, s, 1, 0
  {
    hide Topological, Deps, DepsOfAll, Level;
    match s {
      case Ref(name) =>
        RefGrounded(s, defs, order);
        ErrorsAreFaults(v, defs[name], defs, order, path, e);
      case AnyOf(alts) =>
        NoAlternativeMeets(v, s, 0, defs, order, path);
        AnyOfFaults(v, s, defs, order, path, e);
      case Shape(_, _, _, _, _, _, _) =>
        hide FaultAt, Validate;
        if !Enters(v, s) {
          OutsideFaults(v, s, defs, order, path, e);
        } else if v.JArr? {
          ArrayFaults(v, s, defs, order, path, e);
        } else if v.JObj? {
          ObjectFaults(v, s, defs, order, path, e);
        } else {
          PlainFaults(v, s, defs, order, path, e);
        }
    }
  }

  /** `path <= e.path` and nothing further down: the error is about the value itself. */
  lemma HereOrBelow(path: Path, e: Error)
    ensures path <= e.path ==> (From(path, e).path == [] <==> e.path == path)
    ensures e.path == path ==> From(path, e) == e.(path := [])
  {
  }

  lemma AnyOfFaults(v: Json, s: Schema, defs: Defs, order: seq<string>, path: Path, e: Error)
    requires Grounded(s, defs, order) && s.AnyOf?
    requires !SomeAlternative(v, s, 0, defs, order, path) <==>
               forall j :: 0 <= j < |s.alts| ==> (AltGrounded(s, j, defs, order); Faulty(v, s.alts[j], defs, order))
    ensures e in Validate(v, s, defs, order, path) <==> path <= e.path && FaultAt(v, s, From(path, e), defs, order)
  {
    hide Topological, Deps, DepsOfAll, Level, Faulty;
    HereOrBelow(path, e);
  }

  lemma OutsideFaults(v: Json, s: Schema, defs: Defs, order: seq<string>, path: Path, e: Error)
    requires Grounded(s, defs, order) && s.Shape? && !Enters(v, s)
    ensures e in Validate(v, s, defs, order, path) <==> path <= e.path && FaultAt(v, s, From(path, e), defs, order)
  {
    hide Topological, Deps, Level;
    HereOrBelow(path, e);
  }

  lemma PlainFaults(v: Json, s: Schema, defs: Defs, order: seq<string>, path: Path, e: Error)
    requires Grounded(s, defs, order) && s.Shape? && Enters(v, s) && !v.JArr? && !v.JObj?
    ensures e in Validate(v, s, defs, order, path) <==> path <= e.path && FaultAt(v, s, From(path, e), defs, order)
  {
    hide Topological, Deps, Level;
    HereOrBelow(path, e);
  }

  lemma {:induction false} ArrayFaults(v: Json, s: Schema, defs: Defs, order: seq<string>, path: Path, e: Error)
    requires Grounded(s, defs, order) && s.Shape? && Enters(v, s) && v.JArr?
    ensures e in Validate(v, s, defs, order, path) <==> path <= e.path && FaultAt(v, s, From(path, e), defs, order)
    decreases Rank(s, order), v, s, 0, |v.items| + 1
  {
    hide Topological, Deps, Level, ItemErrors;
    HereOrBelow(path, e);
    ItemErrorsAre(v, s, 0, defs, order, path, e);
    forall j: nat | j < |v.items|
      ensures ItemFault(v, s, j, defs, order, path, e)
              <==> path <= e.path && From(path, e).path != [] && From(path, e).path[0] == At(j)
                   && (ItemsGrounded(s, defs, order); FaultAt(v.items[j], ItemsOf(s), Inside(From(path, e)), defs, order))
    {
      StepsDown(path, At(j), e);
      ItemsGrounded(s, defs, order);
    }
  }

  lemma {:induction false} ObjectFaults(v: Json, s: Schema, defs: Defs, order: seq<string>, path: Path, e: Error)
    requires Grounded(s, defs, order) && s.Shape? && Enters(v, s) && v.JObj?
    ensures e in Validate(v, s, defs, order, path) <==> path <= e.path && FaultAt(v, s, From(path, e), defs, order)
    decreases Rank(s, order), v, s, 0, |v.fields| + 1
  {
    hide Topological, Deps, Level, FieldErrors, MissingErrors, OneFieldErrors, FieldFault;
    HereOrBelow(path, e);
    MissingAre(v, s.required, path, e);
    FieldsAre(v, s, 0, defs, order, path, e);
    forall j: nat | j < |v.fields|
      ensures var k := v.fields[j].key;
              FieldError(v, s, j, defs, order, path, e)
              <==> (e == UnknownKey(path, k) && Unnamed(s, k) && s.extra.Nothing?)
                   || (path <= e.path && From(path, e).path != [] && From(path, e).path[0] == Key(k)
                       && FieldFault(v.fields[j].value, s, k, Inside(From(path, e)), defs, order))
    {
      FieldErrorsAre(v, s, j, defs, order, path, e);
      StepsDown(path, Key(v.fields[j].key), e);
    }
  }

  /** A value conforms exactly if nothing in it is at fault: every bound, key and kind that
      conforming asks for is a fault of its own, and no others are. */
  lemma ConformsIffFaultless(v: Json, s: Schema, defs: Defs, order: seq<string>)
    requires Grounded(s, defs, order)
    ensures Conforms(v, s, defs, order) <==> forall e :: !FaultAt(v, s, e, defs, order)
  {
    hide Topological, Deps, Level, Conforms, Validate, FaultAt, Faulty;
    ValidateTells(v, s, defs, order, []);
    SomeErrorSomeFault(v, s, defs, order, []);
    FaultyTells(v, s, defs, order);
  }

  lemma FaultyTells(v: Json, s: Schema, defs: Defs, order: seq<string>)
    requires Grounded(s, defs, order)
    ensures Faulty(v, s, defs, order) <==> exists e :: FaultAt(v, s, e, defs, order)
  {
    hide Topological, Deps, Level;
    if e :| FaultAt(v, s, e, defs, order) {
      assert FaultAt(v, s, e, defs, order);
    }
  }

  // ----- the order of the errors -----------------------------------------------------------------

  /** The error belongs to a place of the value: 0 is the value itself with its missing keys, and
      `i + 1` its `i`-th item or field. */
  ghost predicate Belongs(v: Json, path: Path, e: Error, at: nat) {
    if at == 0 then e.path == path
    else if v.JArr? then at <= |v.items| && path + [At(at - 1)] <= e.path
    else
      && v.JObj? && at <= |v.fields|
      && var k := v.fields[at - 1].key;
         e == UnknownKey(path, k) || path + [Key(k)] <= e.path
  }

  /** Every error belongs to its place, and no place comes before an earlier one. */
  ghost predicate InOrder(v: Json, path: Path, errors: seq<Error>, at: seq<nat>) {
    && |at| == |errors| && (forall i, j :: 0 <= i < j < |at| ==> at[i] <= at[j])
    && forall i :: 0 <= i < |errors| ==> Belongs(v, path, errors[i], at[i])
  }

  /** All of `b` comes behind all of `a`. */
  lemma OrderSum(v: Json, path: Path, a: seq<Error>, at: seq<nat>, b: seq<Error>, more: seq<nat>, n: nat)
    requires InOrder(v, path, a, at) && InOrder(v, path, b, more)
    requires (forall i :: 0 <= i < |at| ==> at[i] <= n) && (forall i :: 0 <= i < |more| ==> n <= more[i])
    ensures InOrder(v, path, a + b, at + more)
  {
    hide Belongs;
    var errors, all := a + b, at + more;
    forall i | 0 <= i < |errors| ensures Belongs(v, path, errors[i], all[i]) {
      if i < |a| { assert errors[i] == a[i]; } else { assert errors[i] == b[i - |a|]; }
    }
  }

  /** A list of errors of one place. */
  lemma OnePlace(v: Json, path: Path, errors: seq<Error>, n: nat) returns (at: seq<nat>)
    requires forall e :: e in errors ==> Belongs(v, path, e, n)
    ensures InOrder(v, path, errors, at) && forall i :: 0 <= i < |at| ==> at[i] == n
  {
    hide Belongs;
    at := seq(|errors|, _ => n);
    forall i | 0 <= i < |errors| ensures Belongs(v, path, errors[i], at[i]) {
      assert errors[i] in errors;
    }
  }

  lemma NothingInOrder(v: Json, path: Path)
    ensures InOrder(v, path, [], [])
  {
  }

  lemma {:induction false} ItemsInOrder(v: Json, s: Schema, i: nat, defs: Defs, order: seq<string>, path: Path) returns (at: seq<nat>)
    requires Grounded(s, defs, order) && s.Shape? && v.JArr? && i <= |v.items|
    ensures InOrder(v, path, ItemErrors(v, s, i, defs, order, path), at) && forall j :: 0 <= j < |at| ==> i + 1 <= at[j]
    decreases |v.items| - i
  {
    hide Validate, Belongs, InOrder, ItemSchema, Grounded;
    if i == |v.items| {
      at := [];
      assert InOrder(v, path, [], at) by { NothingInOrder(v, path); }
    } else {
      PartGrounded(s, "", defs, order);
      var step := path + [At(i)];
      var first := Validate(v.items[i], ItemSchema(s), defs, order, step);
      forall e | e in first ensures Belongs(v, path, e, i + 1) {
        ErrorsAreFaults(v.items[i], ItemSchema(s), defs, order, step, e);
        ItemBelongs(v, path, e, i);
      }
      var here := OnePlace(v, path, first, i + 1);
      var rest := ItemsInOrder(v, s, i + 1, defs, order, path);
      OrderSum(v, path, first, here, ItemErrors(v, s, i + 1, defs, order, path), rest, i + 1);
      at := here + rest;
    }
  }

  lemma ItemBelongs(v: Json, path: Path, e: Error, i: nat)
    requires v.JArr? && i < |v.items| && path + [At(i)] <= e.path
    ensures Belongs(v, path, e, i + 1)
  {
  }

  lemma FieldBelongs(v: Json, s: Schema, i: nat, defs: Defs, order: seq<string>, path: Path, e: Error)
    requires Grounded(s, defs, order) && s.Shape? && v.JObj? && i < |v.fields| && e in OneFieldErrors(v, s, i, defs, order, path)
    ensures Belongs(v, path, e, i + 1)
  {
    hide Validate, Grounded, RuleFor;
    var f := v.fields[i];
    PartGrounded(s, f.key, defs, order);
    if RuleFor(s, f.key).Check? {
      ErrorsAreFaults(f.value, RuleFor(s, f.key).schema, defs, order, path + [Key(f.key)], e);
    }
  }

  lemma {:induction false} FieldsInOrder(v: Json, s: Schema, i: nat, defs: Defs, order: seq<string>, path: Path) returns (at: seq<nat>)
    requires Grounded(s, defs, order) && s.Shape? && v.JObj? && i <= |v.fields|
    ensures InOrder(v, path, FieldErrors(v, s, i, defs, order, path), at) && forall j :: 0 <= j < |at| ==> i + 1 <= at[j]
    decreases |v.fields| - i
  {
    hide OneFieldErrors, Belongs, InOrder, Grounded;
    if i == |v.fields| {
      at := [];
      assert InOrder(v, path, [], at) by { NothingInOrder(v, path); }
    } else {
      var first := OneFieldErrors(v, s, i, defs, order, path);
      forall e | e in first ensures Belongs(v, path, e, i + 1) {
        FieldBelongs(v, s, i, defs, order, path, e);
      }
      var here := OnePlace(v, path, first, i + 1);
      var rest := FieldsInOrder(v, s, i + 1, defs, order, path);
      OrderSum(v, path, first, here, FieldErrors(v, s, i + 1, defs, order, path), rest, i + 1);
      at := here + rest;
    }
  }

  lemma {:induction false} MissingHere(v: Json, required: seq<string>, path: Path)
    requires v.JObj?
    ensures forall e :: e in MissingErrors(v, required, path) ==> e.path == path
    decreases |required|
  {
    if required != [] { MissingHere(v, required[1..], path); }
  }

  /** The errors come in the order of the value: first those of the value itself, then those of
      its items or fields one after the other. */
  lemma {:induction false} ErrorsInOrder(v: Json, s: Schema, defs: Defs, order: seq<string>, path: Path) returns (at: seq<nat>)
    requires Grounded(s, defs, order)
    ensures InOrder(v, path, Validate(v, s, defs, order, path), at)
    decreases Rank(s, order)
  {
    hide InOrder, Grounded, ItemErrors, FieldErrors, MissingErrors, SomeAlternative;
    if s.Ref? {
      RefGrounded(s, defs, order);
      at := ErrorsInOrder(v, defs[s.name], defs, order, path);
    } else if s.Shape? && Enters(v, s) && v.JArr? {
      var own := if GoodCount(|v.items|, s.bounds) then [] else [BadCount(path)];
      var here := OnePlace(v, path, own, 0);
      var rest := ItemsInOrder(v, s, 0, defs, order, path);
      OrderSum(v, path, own, here, ItemErrors(v, s, 0, defs, order, path), rest, 0);
      at := here + rest;
    } else if s.Shape? && Enters(v, s) && v.JObj? {
      MissingHere(v, s.required, path);
      var own := MissingErrors(v, s.required, path);
      var here := OnePlace(v, path, own, 0);
      var rest := FieldsInOrder(v, s, 0, defs, order, path);
      OrderSum(v, path, own, here, FieldErrors(v, s, 0, defs, order, path), rest, 0);
      at := here + rest;
    } else {
      at := OnePlace(v, path, Validate(v, s, defs, order, path), 0);
    }
  }
}

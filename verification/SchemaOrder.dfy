/** The JSON Schema subset of tools/gen-ni-schema.py, and the order in which its
    definitions are generated (_deps, ordered). */
module SchemaOrder {
  import opened Prelude

  datatype Kind = KString | KInteger | KNumber | KBoolean | KObject | KArray | KNull

  /** `$ref` and `anyOf` stand alone in this subset; `{}` is a Shape with nothing set. */
  datatype Schema =
    | Ref(name: string)
    | AnyOf(alts: seq<Schema>)
    | Shape(enum: Option<seq<string>>, kind: Option<Kind>, bounds: Bounds,
            items: Option<Schema>, properties: Properties, required: seq<string>, extra: Extra)
  datatype Bounds = Bounds(minLength: Option<nat>, maxLength: Option<nat>, minimum: Option<int>, maximum: Option<int>,
                           minItems: Option<nat>, maxItems: Option<nat>)
  datatype Prop = Prop(key: string, schema: Schema)
  datatype Properties = Unlisted | Listed(list: seq<Prop>)
  datatype Extra = Anything | Nothing | Each(schema: Schema)

  const Unbounded := Bounds(None, None, None, None, None, None)
  const Top := Shape(None, None, Unbounded, None, Unlisted, [], Anything)

  type Defs = map<string, Schema>

  // ----- dependencies ------------------------------------------------------------------------

  function Deps(s: Schema): set<string> {
    match s
    case Ref(name) => {name}
    case AnyOf(alts) => DepsOfAll(alts)
    case Shape(_, _, _, items, properties, _, extra) =>
      (match items case None => {} case Some(i) => Deps(i))
      + (match properties case Unlisted => {} case Listed(ps) => DepsOfProps(ps))
      + (match extra case Each(e) => Deps(e) case _ => {})
  }

  function DepsOfAll(ss: seq<Schema>): set<string> {
    if ss == [] then {} else Deps(ss[0]) + DepsOfAll(ss[1..])
  }

  function DepsOfProps(ps: seq<Prop>): set<string> {
    if ps == [] then {} else Deps(ps[0].schema) + DepsOfProps(ps[1..])
  }

  lemma {:induction false} DepsOfAllAt(ss: seq<Schema>, i: nat)
    requires i < |ss|
    ensures Deps(ss[i]) <= DepsOfAll(ss)
    decreases i
  {
    if i > 0 { DepsOfAllAt(ss[1..], i - 1); }
  }

  lemma {:induction false} DepsOfPropsAt(ps: seq<Prop>, i: nat)
    requires i < |ps|
    ensures Deps(ps[i].schema) <= DepsOfProps(ps)
    decreases i
  {
    if i > 0 { DepsOfPropsAt(ps[1..], i - 1); }
  }

  // ----- orders ----------------------------------------------------------------------------------

  ghost predicate Distinct(names: seq<string>) {
    forall i, j :: 0 <= i < j < |names| ==> names[i] != names[j]
  }

  ghost function Elems(names: seq<string>): set<string> {
    set n | n in names
  }

  /** All names, each once, every dependency earlier. */
  ghost predicate Topological(defs: Defs, order: seq<string>) {
    && Distinct(order) && Elems(order) == defs.Keys
    && forall i :: 0 <= i < |order| ==> order[i] in defs && Deps(defs[order[i]]) <= Elems(order[..i])
  }

  ghost predicate Ready(defs: Defs, n: string, out: seq<string>) {
    n in defs && Deps(defs[n]) <= Elems(out)
  }

  /** Each name is the first of `names` that was ready when its turn came. */
  ghost predicate FirstReady(defs: Defs, names: seq<string>, out: seq<string>) {
    forall i, j :: 0 <= i < |out| && 0 <= j < |names| && names[j] !in out[..i] && Ready(defs, names[j], out[..i]) ==>
      exists k :: 0 <= k <= j && names[k] == out[i]
  }

  /** A set of definitions none of which can ever be placed: each depends on one of them,
      or on a name that is not defined. */
  ghost predicate Stuck(defs: Defs, s: set<string>) {
    && s != {} && s <= defs.Keys
    && forall n :: n in s ==> exists d :: d in Deps(defs[n]) && (d in s || d !in defs)
  }

  // ----- the generator's loop ----------------------------------------------------------------

  method FirstReadyName(defs: Defs, todo: seq<string>, out: seq<string>) returns (at: Option<nat>)
    requires forall n :: n in todo ==> n in defs
    ensures match at
            case None => forall i :: 0 <= i < |todo| ==> !Ready(defs, todo[i], out)
            case Some(k) => k < |todo| && Ready(defs, todo[k], out) && forall i :: 0 <= i < k ==> !Ready(defs, todo[i], out)
  {
    for i := 0 to |todo|
      invariant forall j :: 0 <= j < i ==> !Ready(defs, todo[j], out)
    {
      assert todo[i] in todo;
      if Deps(defs[todo[i]]) <= (set n | n in out) {
        return Some(i);
      }
    }
    return None;
  }

  /** `ordered`: None stands for the failed assertion "cyclic defs".  `names` is
      sorted(defs). */
  method Ordered(defs: Defs, names: seq<string>) returns (r: Option<seq<string>>)
    requires Distinct(names) && Elems(names) == defs.Keys
    ensures r.Some? ==> Topological(defs, r.value) && FirstReady(defs, names, r.value)
    ensures r.None? ==> exists s :: Stuck(defs, s)
  {
    var out: seq<string> := [];
    var todo := names;
    Beginning(defs, names);
    while todo != []
      invariant Progress(defs, names, out, todo)
      decreases |todo|
    {
      assert forall n :: n in todo ==> n in Elems(todo);
      var at := FirstReadyName(defs, todo, out);
      if at.None? {
        NoneReadyIsStuck(defs, out, todo);
        return None;
      }
      var k := at.value;
      PickKeepsProgress(defs, names, out, todo, k);
      out := out + [todo[k]];
      todo := todo[..k] + todo[k + 1..];
    }
    assert Elems(todo) == {};
    return Some(out);
  }

  /** `todo` is what is left of `names` once `out` is taken away, in the same order. */
  ghost predicate Waiting(names: seq<string>, out: seq<string>, todo: seq<string>) {
    && Distinct(names) && Distinct(todo)
    && (forall n :: n in todo <==> n in names && n !in out)
    && InOrder(names, todo)
  }

  ghost predicate InOrder(names: seq<string>, todo: seq<string>) {
    forall i, j, k, l :: (0 <= i < j < |todo| && 0 <= k < |names| && 0 <= l < |names|
      && names[k] == todo[i] && names[l] == todo[j]) ==> k < l
  }

  ghost predicate Placed(defs: Defs, out: seq<string>) {
    forall i :: 0 <= i < |out| ==> out[i] in defs && Deps(defs[out[i]]) <= Elems(out[..i])
  }

  ghost predicate Progress(defs: Defs, names: seq<string>, out: seq<string>, todo: seq<string>) {
    && Waiting(names, out, todo) && Distinct(out)
    && Elems(out) + Elems(todo) == defs.Keys
    && Placed(defs, out) && FirstReady(defs, names, out)
  }

  lemma Beginning(defs: Defs, names: seq<string>)
    requires Distinct(names) && Elems(names) == defs.Keys
    ensures Progress(defs, names, [], names)
  {
    assert Elems([]) == {};
  }

  lemma {:induction false} PickKeepsProgress(defs: Defs, names: seq<string>, out: seq<string>, todo: seq<string>, k: nat)
    requires Progress(defs, names, out, todo) && k < |todo|
    requires Ready(defs, todo[k], out) && forall i :: 0 <= i < k ==> !Ready(defs, todo[i], out)
    ensures Progress(defs, names, out + [todo[k]], todo[..k] + todo[k + 1..])
  {
    PickKeepsWaiting(names, out, todo, k);
    PickIsFirst(defs, names, out, todo, k);
    PlacedStaysPlaced(defs, out, todo[k]);
    assert todo[k] in Elems(todo);
  }

  lemma PickKeepsWaiting(names: seq<string>, out: seq<string>, todo: seq<string>, k: nat)
    requires Waiting(names, out, todo) && k < |todo|
    ensures var todo', out' := todo[..k] + todo[k + 1..], out + [todo[k]];
            && Waiting(names, out', todo')
            && Elems(todo') == Elems(todo) - {todo[k]} && Elems(out') == Elems(out) + {todo[k]}
            && todo[k] !in out
  {
    var todo' := todo[..k] + todo[k + 1..];
    assert forall i :: 0 <= i < |todo'| ==> todo'[i] == if i < k then todo[i] else todo[i + 1];
    forall n ensures n in todo' <==> n in todo && n != todo[k] {
      if n in todo && n != todo[k] {
        var i :| 0 <= i < |todo| && todo[i] == n;
        assert todo'[if i < k then i else i - 1] == n;
      }
    }
    assert todo[k] in todo;
  }

  lemma {:induction false} PickIsFirst(defs: Defs, names: seq<string>, out: seq<string>, todo: seq<string>, k: nat)
    requires Waiting(names, out, todo) && k < |todo| && FirstReady(defs, names, out)
    requires forall i :: 0 <= i < k ==> !Ready(defs, todo[i], out)
    ensures FirstReady(defs, names, out + [todo[k]])
  {
    var out' := out + [todo[k]];
    forall i, j | 0 <= i < |out'| && 0 <= j < |names| && names[j] !in out'[..i] && Ready(defs, names[j], out'[..i])
      ensures exists m :: 0 <= m <= j && names[m] == out'[i]
    {
      if i < |out| {
        assert out'[..i] == out[..i] && out'[i] == out[i];
      } else {
        assert out'[..i] == out;
        assert names[j] in names && names[j] in todo;
        var t :| 0 <= t < |todo| && todo[t] == names[j];
        assert todo[k] in todo && todo[k] in names;
        var m :| 0 <= m < |names| && names[m] == todo[k];
        assert k <= t;
      }
    }
  }

  lemma PlacedStaysPlaced(defs: Defs, out: seq<string>, n: string)
    requires Placed(defs, out) && Ready(defs, n, out)
    ensures Placed(defs, out + [n])
  {
    var out' := out + [n];
    forall i | 0 <= i < |out'| ensures out'[i] in defs && Deps(defs[out'[i]]) <= Elems(out'[..i]) {
      assert out'[..i] == out[..i];
    }
    assert out[..|out|] == out;
  }

  lemma NoneReadyIsStuck(defs: Defs, out: seq<string>, todo: seq<string>)
    requires todo != [] && Elems(out) + Elems(todo) == defs.Keys
    requires forall i :: 0 <= i < |todo| ==> !Ready(defs, todo[i], out)
    ensures Stuck(defs, Elems(todo))
  {
    assert todo[0] in Elems(todo);
    forall n | n in Elems(todo) ensures exists d :: d in Deps(defs[n]) && (d in Elems(todo) || d !in defs) {
      var i :| 0 <= i < |todo| && todo[i] == n;
      assert n in defs && !Ready(defs, todo[i], out);
      var d :| d in Deps(defs[n]) && d !in Elems(out);
      assert d in defs ==> d in Elems(todo);
    }
  }

  // ----- sound and complete ---------------------------------------------------------------------

  /** The assertion fails only when no order exists: a stuck set rules every order out. */
  lemma {:induction false} StuckHasNoOrder(defs: Defs, s: set<string>)
    requires Stuck(defs, s)
    ensures !exists order :: Topological(defs, order)
  {
    forall order | Topological(defs, order) ensures s <= Elems(order) && Elems(order) !! s {
      forall k | 0 <= k < |order| ensures order[k] !in s {
        NoStuckPlace(defs, s, order, k);
      }
    }
  }

  lemma {:induction false} NoStuckPlace(defs: Defs, s: set<string>, order: seq<string>, k: nat)
    requires Stuck(defs, s) && Topological(defs, order) && k < |order|
    ensures order[k] !in s
    decreases k
  {
    hide Deps;
    if order[k] in s {
      PrefixDefined(defs, order, k);
      var d :| d in Deps(defs[order[k]]) && (d in s || d !in defs);
      assert d in Elems(order[..k]);
      var j :| 0 <= j < k && order[..k][j] == d;
      NoStuckPlace(defs, s, order, j);
      assert false;
    }
  }

  lemma PrefixDefined(defs: Defs, order: seq<string>, k: nat)
    requires Topological(defs, order) && k <= |order|
    ensures Elems(order[..k]) <= defs.Keys
  {
    forall x | x in Elems(order[..k]) ensures x in defs.Keys {
      assert x in Elems(order);
    }
  }

  /** A walk along dependencies. */
  ghost predicate Walk(defs: Defs, p: seq<string>) {
    forall i :: 0 <= i < |p| - 1 ==> p[i] in defs && p[i + 1] in Deps(defs[p[i]])
  }

  ghost predicate Cycle(defs: Defs, p: seq<string>) {
    |p| >= 2 && Walk(defs, p) && p[0] == p[|p| - 1]
  }

  /** A stuck set means what the assertion says: a dependency cycle, unless some
      definition refers to a name that does not exist; and either of the two gets the loop
      stuck.  So `ordered` fails exactly on a cycle or a dangling reference. */
  lemma StuckIffCycleOrDangling(defs: Defs)
    ensures (exists s :: Stuck(defs, s)) <==> !Closed(defs) || exists p :: Cycle(defs, p)
  {
    if s :| Stuck(defs, s) {
      if Closed(defs) {
        var p := StuckHasCycle(defs, s);
        assert Cycle(defs, p);
      }
    }
    if n, d :| n in defs && d in Deps(defs[n]) && d !in defs {
      assert Stuck(defs, {n});
    }
    if p :| Cycle(defs, p) {
      CycleIsStuck(defs, p);
    }
  }

  lemma {:induction false} StuckHasCycle(defs: Defs, s: set<string>) returns (c: seq<string>)
    requires Stuck(defs, s) && Closed(defs)
    ensures Cycle(defs, c)
  {
    hide Stuck, Closed;
    var p := LongWalk(defs, s, |s| + 1);
    var i, j := Repeats(p, s);
    WalkInside(defs, p, i, j + 1);
    c := p[i..j + 1];
    assert c[0] == p[i] && c[|c| - 1] == p[j];
  }

  lemma CycleIsStuck(defs: Defs, p: seq<string>)
    requires Cycle(defs, p)
    ensures Stuck(defs, Elems(p[..|p| - 1]))
  {
    var n := |p| - 1;
    var s := Elems(p[..n]);
    assert p[..n][0] in s;
    forall x | x in s ensures x in defs && exists d :: d in Deps(defs[x]) && (d in s || d !in defs) {
      var i :| 0 <= i < n && p[..n][i] == x;
      assert p[i] in defs && p[i + 1] in Deps(defs[p[i]]);
      if i + 1 < n {
        assert p[..n][i + 1] in s;
      } else {
        assert p[i + 1] == p[..n][0];
      }
    }
  }

  /** No definition refers to a name that does not exist. */
  ghost predicate Closed(defs: Defs) {
    forall n, d :: n in defs && d in Deps(defs[n]) ==> d in defs
  }

  lemma WalkInside(defs: Defs, p: seq<string>, i: nat, j: nat)
    requires Walk(defs, p) && i <= j <= |p|
    ensures Walk(defs, p[i..j])
  {
    var c := p[i..j];
    forall k | 0 <= k < |c| - 1 ensures c[k] in defs && c[k + 1] in Deps(defs[c[k]]) {
      assert c[k] == p[i + k] && c[k + 1] == p[i + k + 1];
    }
  }

  lemma {:induction false} LongWalk(defs: Defs, s: set<string>, n: nat) returns (p: seq<string>)
    requires Stuck(defs, s) && n >= 1 && Closed(defs)
    ensures |p| == n && Walk(defs, p) && forall i :: 0 <= i < n ==> p[i] in s
    decreases n
  {
    hide Deps, Closed;
    if n == 1 {
      var x :| x in s;
      p := [x];
    } else {
      var q := LongWalk(defs, s, n - 1);
      var last := q[n - 2];
      var d := StuckStep(defs, s, last);
      p := q + [d];
      forall i | 0 <= i < |p| - 1 ensures p[i] in defs && p[i + 1] in Deps(defs[p[i]]) {
        assert i < n - 2 ==> p[i] == q[i] && p[i + 1] == q[i + 1];
      }
    }
  }

  lemma {:induction false} StuckStep(defs: Defs, s: set<string>, n: string) returns (d: string)
    requires Stuck(defs, s) && Closed(defs) && n in s
    ensures n in defs && d in Deps(defs[n]) && d in s
  {
    d :| d in Deps(defs[n]) && (d in s || d !in defs);
  }

  /** Pigeonhole: more places than names. */
  lemma {:induction false} Repeats(p: seq<string>, s: set<string>) returns (i: nat, j: nat)
    requires |p| > |s| && forall k :: 0 <= k < |p| ==> p[k] in s
    ensures i < j < |p| && p[i] == p[j]
    decreases |p|
  {
    var n := |p| - 1;
    var last, front := p[n], p[..n];
    if last in front {
      i :| 0 <= i < n && front[i] == last;
      j := n;
    } else {
      assert last in s && |s - {last}| == |s| - 1;
      forall k | 0 <= k < n ensures front[k] in s - {last} {
        assert front[k] in front && front[k] == p[k];
      }
      i, j := Repeats(front, s - {last});
    }
  }

  // ----- the rank that terminates validation ---------------------------------------------

  /** How much of the order a set of names reaches into. */
  ghost function Level(names: set<string>, order: seq<string>): (n: nat)
    ensures n <= |order|
    decreases |order|
  {
    if order == [] then 0
    else if order[|order| - 1] in names then |order|
    else Level(names, order[..|order| - 1])
  }

  lemma {:induction false} LevelMonotone(a: set<string>, b: set<string>, order: seq<string>)
    requires a <= b
    ensures Level(a, order) <= Level(b, order)
    decreases |order|
  {
    if order != [] { LevelMonotone(a, b, order[..|order| - 1]); }
  }

  lemma {:induction false} LevelAtMost(names: set<string>, order: seq<string>, k: nat)
    requires Distinct(order) && k <= |order| && names <= Elems(order[..k])
    ensures Level(names, order) <= k
    decreases |order|
  {
    if k < |order| {
      var n := |order| - 1;
      assert order[n] !in order[..k];
      assert order[..n][..k] == order[..k];
      LevelAtMost(names, order[..n], k);
    }
  }

  lemma {:induction false} LevelAbove(names: set<string>, order: seq<string>, k: nat)
    requires k < |order| && order[k] in names
    ensures Level(names, order) > k
    decreases |order|
  {
    if order[|order| - 1] !in names {
      LevelAbove(names, order[..|order| - 1], k);
    }
  }

  /** Following a reference goes strictly down in rank. */
  lemma {:induction false} RefGoesDown(defs: Defs, order: seq<string>, name: string)
    requires Topological(defs, order) && name in defs
    ensures Deps(defs[name]) <= defs.Keys
    ensures Level(Deps(defs[name]), order) < Level({name}, order)
  {
    assert name in Elems(order);
    var k :| 0 <= k < |order| && order[k] == name;
    LevelAtMost(Deps(defs[name]), order, k);
    LevelAbove({name}, order, k);
    PrefixDefined(defs, order, k);
  }
}

/** Proofs of many desktops side by side (signaling/server.py: _prove_desktop, BindingMap):
    the map between a challenge and its reply, in every run. */
module DesktopRuns {
  import opened Prelude
  import opened OrderedDict
  import opened Bindings
  import opened DesktopProof

  /** A challenge that is out: what its hello found in the map, and whether no other challenge
      of the same id was answered with success since (`alone`). */
  datatype Challenge = Challenge(id: string, pubkey: string, bound: Option<string>, seen: real, alone: bool)

  datatype Desk = Desk(entries: Dict<Entry>, now: real, out: map<nat, Challenge>)

  /** Which ids are pairing rooms, and the limits of the map. */
  datatype Rules = Rules(pairs: string -> bool, allowLegacy: bool, max: nat, ttl: real)

  datatype Happening =
    | Greets(ws: nat, id: string, pubkey: string)
    | Replies(ws: nat, wait: real, signed: bool)
    | Vanishes(ws: nat)

  predicate Possible(s: Desk, e: Happening) {
    match e
    case Greets(ws, id, _) => ws !in s.out && id != ""
    case Replies(ws, wait, _) => ws in s.out && wait >= 0.0
    case Vanishes(ws) => true
  }

  /** What a reply leaves in the map, and its answer. */
  ghost function Replied(ru: Rules, s: Desk, ws: nat, wait: real, signed: bool): (Dict<Entry>, Option<Reject>)
    requires ws in s.out && Valid(s.entries)
  {
    var c := s.out[ws];
    Finished(s.entries, c.bound, c.id, ru.pairs(c.id), c.pubkey, signed, s.now + wait, ru.max, ru.ttl)
  }

  /** The other challenges of an id that was just registered are not alone. */
  function Crossed(out: map<nat, Challenge>, id: string): map<nat, Challenge> {
    map ws | ws in out :: out[ws].(alone := out[ws].alone && out[ws].id != id)
  }

  ghost function Step(ru: Rules, s: Desk, e: Happening): Desk
    requires Possible(s, e) && Valid(s.entries)
  {
    match e
    case Greets(ws, id, pubkey) =>
      var stage := Begun(s.entries, id, ru.pairs(id), pubkey, ru.allowLegacy);
      if !stage.Challenged? then s
      else
        var seen := if id in s.entries.of then s.entries.of[id].seen else s.now;
        s.(out := s.out[ws := Challenge(id, pubkey, stage.bound, seen, true)])
    case Replies(ws, wait, signed) =>
      var (d, reject) := Replied(ru, s, ws, wait, signed);
      Desk(d, s.now + wait, if reject.None? then Crossed(s.out - {ws}, s.out[ws].id) else s.out - {ws})
    case Vanishes(ws) => s.(out := s.out - {ws})
  }

  // ----- what a challenge may rely on --------------------------------------------------------------

  /** While a challenge is alone, the map holds its id as its hello saw it, or lost it; and it
      cannot have lost it within the time to live of what the hello saw. */
  ghost predicate ChallengeOk(ru: Rules, d: Dict<Entry>, now: real, c: Challenge) {
    && c.id != "" && c.pubkey != ""
    && (c.alone && !ru.pairs(c.id) ==>
          && (c.id in d.of ==> c.bound == Some(c.pubkey) && d.of[c.id] == Entry(c.pubkey, c.seen))
          && (c.bound.Some? && now - c.seen <= ru.ttl ==> c.id in d.of))
  }

  ghost predicate DeskOk(ru: Rules, s: Desk) {
    Inv(s.entries, ru.max) && forall ws :: ws in s.out ==> ChallengeOk(ru, s.entries, s.now, s.out[ws])
  }

  /** The id has not been given to the map, and not been taken from it while it was live. */
  ghost predicate Leaves(d: Dict<Entry>, d': Dict<Entry>, id: string, now: real, ttl: real) {
    && (id in d'.of ==> id in d.of && d'.of[id] == d.of[id])
    && (id in d.of && !Stale(d.of[id], now, ttl) ==> id in d'.of)
  }

  lemma KeptChallenge(ru: Rules, d: Dict<Entry>, d': Dict<Entry>, now: real, later: real, c: Challenge)
    requires ChallengeOk(ru, d, now, c) && later >= now && Leaves(d, d', c.id, later, ru.ttl)
    ensures ChallengeOk(ru, d', later, c)
  {
  }

  lemma BoundLeaves(d: Dict<Entry>, id: string, pubkey: string, now: real, max: nat, ttl: real, k: string)
    requires Valid(d) && k != id
    ensures Leaves(d, Bound(d, id, pubkey, now, max, ttl).0, k, now, ttl)
  {
    EvictedTells(d, now, ttl);
  }

  lemma FinishedLeaves(d: Dict<Entry>, bound: Option<string>, id: string, pairRoom: bool, pubkey: string,
                       signed: bool, now: real, max: nat, ttl: real, k: string)
    requires Inv(d, max) && max > 0 && id != "" && pubkey != ""
    ensures var (d', reject) := Finished(d, bound, id, pairRoom, pubkey, signed, now, max, ttl);
            Inv(d', max) && (k != id || reject.Some? ==> Leaves(d, d', k, now, ttl))
  {
    hide Bound, Evicted;
    BindTells(d, id, pubkey, now, max, ttl);
    if k != id { BoundLeaves(d, id, pubkey, now, max, ttl, k); }
    assert Leaves(d, d, k, now, ttl);
    if id in d.of { PutValid(d, id, d.of[id].(seen := now)); }
    assert id in d.of ==> Put(d, id, d.of[id].(seen := now)).of.Keys == d.of.Keys;
  }

  lemma {:induction false} StepKeeps(ru: Rules, s: Desk, e: Happening)
    requires DeskOk(ru, s) && Possible(s, e) && ru.max > 0
    ensures DeskOk(ru, Step(ru, s, e))
  {
    hide Finished, Leaves, Begun;
    match e {
      case Vanishes(_) =>
      case Greets(ws, id, pubkey) => GreetKeeps(ru, s, ws, id, pubkey);
      case Replies(ws, wait, signed) =>
        var s' := Step(ru, s, e);
        var c := s.out[ws];
        assert ChallengeOk(ru, s.entries, s.now, c);
        FinishedLeaves(s.entries, c.bound, c.id, ru.pairs(c.id), c.pubkey, signed, s.now + wait, ru.max, ru.ttl, c.id);
        forall x | x in s'.out ensures ChallengeOk(ru, s'.entries, s'.now, s'.out[x]) {
          var k := s.out[x];
          FinishedLeaves(s.entries, c.bound, c.id, ru.pairs(c.id), c.pubkey, signed, s.now + wait, ru.max, ru.ttl, k.id);
          if s'.out[x].alone {
            assert k.id != c.id || Replied(ru, s, ws, wait, signed).1.Some?;
            KeptChallenge(ru, s.entries, s'.entries, s.now, s'.now, k);
          }
        }
    }
  }

  lemma GreetKeeps(ru: Rules, s: Desk, ws: nat, id: string, pubkey: string)
    requires DeskOk(ru, s) && Possible(s, Greets(ws, id, pubkey))
    ensures DeskOk(ru, Step(ru, s, Greets(ws, id, pubkey)))
  {
  }

  // ----- every run --------------------------------------------------------------------------------------

  ghost function Reached(ru: Rules, d: Dict<Entry>, es: seq<Happening>): (s: Desk)
    requires Inv(d, ru.max) && ru.max > 0
    ensures DeskOk(ru, s)
    decreases |es|
  {
    if es == [] then Desk(d, 0.0, map[])
    else
      var s := Reached(ru, d, es[..|es| - 1]);
      if Possible(s, es[|es| - 1]) then (StepKeeps(ru, s, es[|es| - 1]); Step(ru, s, es[|es| - 1])) else s
  }

  /** What the reply to a lone challenge leaves in the map. */
  lemma SoleReply(ru: Rules, s: Desk, ws: nat, wait: real)
    requires DeskOk(ru, s) && ru.max > 0 && wait >= 0.0
    requires ws in s.out && s.out[ws].alone && !ru.pairs(s.out[ws].id) && Replied(ru, s, ws, wait, true).1.None?
    ensures var c, after := s.out[ws], Replied(ru, s, ws, wait, true).0;
            (c.id in after.of && after.of[c.id].pubkey == c.pubkey) <==> (c.bound.Some? ==> c.id in s.entries.of)
  {
    var c := s.out[ws];
    assert ChallengeOk(ru, s.entries, s.now, c);
    BindTells(s.entries, c.id, c.pubkey, s.now + wait, ru.max, ru.ttl);
  }

  /** In every run: a desktop registered while no other challenge of its id was answered with
      success is registered under the bound key, if and only if a binding that its hello saw was
      not reclaimed from the map meanwhile. */
  lemma {:induction false} SoleProofBindsIff(ru: Rules, d: Dict<Entry>, es: seq<Happening>, ws: nat, wait: real)
    requires Inv(d, ru.max) && ru.max > 0 && wait >= 0.0
    requires var s := Reached(ru, d, es);
             ws in s.out && s.out[ws].alone && !ru.pairs(s.out[ws].id) && Replied(ru, s, ws, wait, true).1.None?
    ensures var s := Reached(ru, d, es);
            var c, after := s.out[ws], Replied(ru, s, ws, wait, true).0;
            (c.id in after.of && after.of[c.id].pubkey == c.pubkey) <==> (c.bound.Some? ==> c.id in s.entries.of)
  {
    SoleReply(ru, Reached(ru, d, es), ws, wait);
  }

  /** And a binding is not reclaimed within its time to live: then the registered key is the
      bound key. */
  lemma {:induction false} SoleProofBinds(ru: Rules, d: Dict<Entry>, es: seq<Happening>, ws: nat, wait: real)
    requires Inv(d, ru.max) && ru.max > 0 && wait >= 0.0
    requires var s := Reached(ru, d, es);
             && ws in s.out && s.out[ws].alone && !ru.pairs(s.out[ws].id) && Replied(ru, s, ws, wait, true).1.None?
             && (s.out[ws].bound.Some? ==> s.now - s.out[ws].seen <= ru.ttl)
    ensures var s := Reached(ru, d, es);
            var c, after := s.out[ws], Replied(ru, s, ws, wait, true).0;
            c.id in after.of && after.of[c.id].pubkey == c.pubkey
  {
    hide Finished;
    SoleProofBindsIff(ru, d, es, ws, wait);
    assert ChallengeOk(ru, Reached(ru, d, es).entries, Reached(ru, d, es).now, Reached(ru, d, es).out[ws]);
  }
}

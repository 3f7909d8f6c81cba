/** Proof of possession at registration (signaling/server.py, _prove_desktop): what is decided
    before the challenge, what after it, and what another hello for the same id can change in
    between. */
module DesktopProof {
  import opened Prelude
  import opened OrderedDict
  import opened Bindings

  datatype Reject = Unauthorized | Busy

  /** Decided without a challenge, or waiting for the reply to one. */
  datatype Stage = Decided(reject: Option<Reject>) | Challenged(bound: Option<string>)

  /** `pairRoom` is whether the id has the pairing prefix; an absent key is "". */
  ghost function Begun(d: Dict<Entry>, id: string, pairRoom: bool, pubkey: string, allowLegacy: bool): Stage {
    var bound := if !pairRoom && id in d.of then Some(d.of[id].pubkey) else None;
    if pubkey == "" then Decided(if allowLegacy && bound.None? then None else Some(Unauthorized))
    else if bound.Some? && bound.value != pubkey then Decided(Some(Unauthorized))
    else Challenged(bound)
  }

  /** `signed` is whether the reply is a proof whose signature verifies under `pubkey`. */
  ghost function Finished(d: Dict<Entry>, bound: Option<string>, id: string, pairRoom: bool, pubkey: string,
                          signed: bool, now: real, max: nat, ttl: real): (Dict<Entry>, Option<Reject>)
    requires Valid(d)
  {
    if !signed then (d, Some(Unauthorized))
    else if pairRoom then (d, None)
    else if bound.Some? then (Touched(d, id, now), None)
    else
      var (d', ok) := Bound(d, id, pubkey, now, max, ttl);
      (d', if ok then None else Some(Busy))
  }

  method BeginProof(b: BindingMap, id: string, pairRoom: bool, pubkey: string, allowLegacy: bool) returns (s: Stage)
    ensures s == Begun(b.entries, id, pairRoom, pubkey, allowLegacy)
  {
    var bound := None;
    if !pairRoom && id in b.entries.of {
      bound := Some(b.entries.of[id].pubkey);
    }
    if pubkey == "" {
      if allowLegacy && bound.None? {
        return Decided(None);
      }
      return Decided(Some(Unauthorized));
    }
    if bound.Some? && bound.value != pubkey {
      return Decided(Some(Unauthorized));
    }
    return Challenged(bound);
  }

  method FinishProof(b: BindingMap, bound: Option<string>, id: string, pairRoom: bool, pubkey: string,
                     signed: bool, now: real, writable: bool) returns (reject: Option<Reject>)
    requires id != "" && pubkey != "" && Valid(b.entries)
    modifies b
    ensures (b.entries, reject) == Finished(old(b.entries), bound, id, pairRoom, pubkey, signed, now, b.max, b.ttl)
  {
    if !signed {
      return Some(Unauthorized);
    }
    if pairRoom {
      return None;
    }
    if bound.Some? {
      b.Touch(id, now, writable);
      return None;
    }
    var ok := b.Bind(id, pubkey, now, writable);
    return if ok then None else Some(Busy);
  }

  /** What is decided on the hello.  A client without a key is let in exactly when the grace is
      on and no key is bound for the id; one with a key is challenged exactly when no other key
      is; and any other one is refused.  A pairing room counts as never bound. */
  lemma HelloVerdict(d: Dict<Entry>, id: string, pairRoom: bool, pubkey: string, allowLegacy: bool)
    ensures var s := Begun(d, id, pairRoom, pubkey, allowLegacy);
            var free := pairRoom || id !in d.of;
            && (s == Decided(None) <==> pubkey == "" && allowLegacy && free)
            && (s.Challenged? <==> pubkey != "" && (free || d.of[id].pubkey == pubkey))
            && (s.Challenged? ==> s.bound == if free then None else Some(pubkey))
            && (s.Decided? && s.reject.Some? ==> s.reject == Some(Unauthorized))
  {
  }

  /** What is decided on the reply.  It is refused exactly when the signature does not verify;
      it is turned away as busy exactly when the id had no key at the hello, has none now, and
      every place is held by a live id; and the map changes only for a verified reply outside
      a pairing room, in at most this id and the stale ones. */
  lemma ReplyVerdict(d: Dict<Entry>, bound: Option<string>, id: string, pairRoom: bool, pubkey: string,
                     signed: bool, now: real, max: nat, ttl: real)
    requires Inv(d, max) && max > 0 && id != "" && pubkey != ""
    ensures var (d', reject) := Finished(d, bound, id, pairRoom, pubkey, signed, now, max, ttl);
            && (reject == Some(Unauthorized) <==> !signed)
            && (reject == Some(Busy) <==> && signed && !pairRoom && bound.None? && id !in d.of
                                          && |d.of| == max && forall k :: k in d.of ==> now <= d.of[k].seen + ttl)
            && (!signed || pairRoom ==> d' == d)
            && (signed && !pairRoom && bound.Some? && id in d.of ==> id in d'.of && d'.of[id] == Entry(d.of[id].pubkey, now))
            && (signed && !pairRoom && bound.None? && reject.None? ==>
                  id in d'.of && d'.of[id] == if id in d.of then d.of[id] else Entry(pubkey, now))
            && (forall k :: k in d.of && k != id && now <= d.of[k].seen + ttl ==> k in d'.of && d'.of[k] == d.of[k])
  {
    hide Bound;
    BindTells(d, id, pubkey, now, max, ttl);
    assert forall k :: k in d.of ==> (Stale(d.of[k], now, ttl) <==> now > d.of[k].seen + ttl);
  }

  /** An id whose key was bound when its hello came in is only ever registered by a client
      that names that key and signs with it; a client without a key never takes it over. */
  lemma OnlyTheKeyHolder(d: Dict<Entry>, later: Dict<Entry>, id: string, pubkey: string, allowLegacy: bool,
                         signed: bool, now: real, max: nat, ttl: real)
    requires id in d.of && Valid(later)
    ensures var s := Begun(d, id, false, pubkey, allowLegacy);
            match s
            case Decided(reject) => reject == Some(Unauthorized)
            case Challenged(bound) =>
              pubkey == d.of[id].pubkey && (Finished(later, bound, id, false, pubkey, signed, now, max, ttl).1.None? ==> signed)
  {
  }

  /** The map may change while the challenge is out.  A registered client's key is the one
      the map holds for the id exactly when, at the reply, the map held no other key for it,
      and had not reclaimed a binding seen at the hello. */
  lemma RegisteredKeyIsBoundIff(d: Dict<Entry>, later: Dict<Entry>, id: string, pubkey: string, allowLegacy: bool,
                                now: real, max: nat, ttl: real)
    requires Begun(d, id, false, pubkey, allowLegacy).Challenged? && id != "" && max > 0 && Inv(later, max)
    ensures var bound := Begun(d, id, false, pubkey, allowLegacy).bound;
            var (after, reject) := Finished(later, bound, id, false, pubkey, true, now, max, ttl);
            reject.None? ==>
              ((id in after.of && after.of[id].pubkey == pubkey)
               <==> (id in later.of ==> later.of[id].pubkey == pubkey) && (bound.Some? ==> id in later.of))
  {
    BindTells(later, id, pubkey, now, max, ttl);
  }

  /** Two first hellos for one id, with different keys, can both be registered. */
  lemma FirstHellosRace(id: string, a: string, b: string, now: real, max: nat, ttl: real)
    requires id != "" && a != "" && b != "" && a != b && max > 0
    ensures var first := Begun(Empty(), id, false, a, false);
            var second := Begun(Empty(), id, false, b, false);
            && first.Challenged? && second.Challenged?
            && var (d1, r1) := Finished(Empty(), first.bound, id, false, a, true, now, max, ttl);
            Valid(d1) && var (d2, r2) := Finished(d1, second.bound, id, false, b, true, now, max, ttl);
            r1.None? && r2.None? && id in d2.of && d2.of[id].pubkey == a
  {
    var d: Dict<Entry> := Empty();
    PutValid(d, id, Entry(a, now));
    assert |d.of| == 0;
  }
}

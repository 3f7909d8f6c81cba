/** The broker together with its binding map (signaling/server.py: handle, _prove_desktop,
    _Bindings): a desktop's proof is judged by the map as it stands at the reply, and what is
    registered is compared with what the map holds, in every run. */
module KeyedBroker {
  import opened Prelude
  import opened OrderedDict
  import opened Bindings
  import opened DesktopProof
  import opened DesktopRuns
  import B = Broker
  import R = BrokerRates
  import T = BrokerTables

  /** `keys` are the keys that registered sockets signed with.  A socket is in `sole` if no
      other challenge of its id was answered with success while its own was out, and the
      binding its hello saw was not reclaimed meanwhile. */
  datatype State = State(broker: B.State, desk: Desk, keys: map<nat, string>, sole: set<nat>)

  datatype Event =
    | Connects(ws: nat, ip: string)
    | Says(ws: nat, hello: B.Hello, pubkey: string, ident: string, at: real)
    | Answers(ws: nat, wait: real, signed: bool)
    | Ends(ws: nat)

  /** A challenge is out for exactly the sockets that the broker waits for. */
  ghost predicate Linked(s: State) {
    forall ws :: (ws in s.desk.out <==> ws in s.broker.hub.handlers && s.broker.hub.handlers[ws].Proving?)
      && (ws in s.desk.out ==> s.broker.hub.handlers[ws].id == s.desk.out[ws].id)
  }

  ghost predicate Enabled(s: State, e: Event) {
    match e
    case Connects(ws, ip) => B.Enabled(s.broker, B.Connects(ws, ip))
    case Says(ws, hello, _, ident, at) => B.Enabled(s.broker, B.Hellos(ws, hello, ident, at))
    case Answers(ws, wait, _) => ws in s.desk.out && wait >= 0.0
    case Ends(ws) => B.Enabled(s.broker, B.Ends(ws))
  }

  /** The broker after a hello, up to its next await or the proof. */
  ghost function Heard(c: T.Config, s: State, e: Event): (b: B.State)
    requires e.Says? && Enabled(s, e)
    ensures b == B.Next(c, s.broker, B.Hellos(e.ws, e.hello, e.ident, e.at))
    ensures e.ws in b.hub.handlers && !b.hub.handlers[e.ws].Desk?
    ensures b.hub.handlers[e.ws].Proving? ==> b.hub.handlers[e.ws].id == e.hello.id && e.hello.id != ""
    ensures b.hub.desktops == s.broker.hub.desktops && b.hub.handlers == s.broker.hub.handlers[e.ws := b.hub.handlers[e.ws]]
  {
    hide B.Judged, B.Greeted, B.LogsAfter;
    var ip := s.broker.hub.handlers[e.ws].ip;
    ProofNamesId(c, s.broker.hub, s.broker.rates, ip, e.hello, e.at);
    GreetedTells(s.broker.hub, e.ws, ip, e.hello, e.ident, B.Judged(c, s.broker.hub, s.broker.rates, ip, e.hello, e.at).1);
    B.Next(c, s.broker, B.Hellos(e.ws, e.hello, e.ident, e.at))
  }

  lemma ProofNamesId(c: T.Config, h: T.Hub, r: R.Rates, ip: string, hello: B.Hello, now: real)
    ensures B.Judged(c, h, r, ip, hello, now).1.ProofWanted? ==> hello.id != ""
  {
    hide R.HelloAdmitted, R.DesktopAdmitted, R.PhoneAdmitted;
  }

  lemma GreetedTells(h: T.Hub, ws: nat, ip: string, hello: B.Hello, ident: string, v: B.Verdict)
    ensures var h' := B.Greeted(h, ws, ip, hello, ident, v);
            && ws in h'.handlers && h'.handlers == h.handlers[ws := h'.handlers[ws]] && h'.desktops == h.desktops
            && (h'.handlers[ws].Proving? ==> v.ProofWanted? && h'.handlers[ws].id == hello.id)
            && !h'.handlers[ws].Desk?
  {
  }

  /** What the end of a proof does to the broker. */
  lemma ProvesTells(c: T.Config, b: B.State, ws: nat, proven: bool)
    requires B.Enabled(b, B.Proves(ws, proven))
    ensures var b', id := B.Next(c, b, B.Proves(ws, proven)), b.hub.handlers[ws].id;
            && ws in b'.hub.handlers && b'.hub.handlers == b.hub.handlers[ws := b'.hub.handlers[ws]]
            && !b'.hub.handlers[ws].Proving?
            && b'.hub.desktops == if proven then b.hub.desktops[id := ws] else b.hub.desktops
  {
  }

  lemma EndsTells(c: T.Config, b: B.State, ws: nat)
    requires B.Enabled(b, B.Ends(ws))
    ensures var b' := B.Next(c, b, B.Ends(ws));
            && b'.hub.handlers == b.hub.handlers - {ws}
            && forall id :: id in b'.hub.desktops ==> id in b.hub.desktops && b'.hub.desktops[id] == b.hub.desktops[id]
  {
    ClosedTells(b.hub, ws);
    hide T.Closed;
  }

  lemma ClosedTells(h: T.Hub, ws: nat)
    requires ws in h.handlers
    ensures var h' := T.Closed(h, ws);
            && h'.handlers == h.handlers - {ws}
            && forall id :: id in h'.desktops ==> id in h.desktops && h'.desktops[id] == h.desktops[id]
  {
    hide T.Decremented;
  }

  lemma ConnectsTells(c: T.Config, b: B.State, ws: nat, ip: string)
    requires B.Enabled(b, B.Connects(ws, ip))
    ensures var b' := B.Next(c, b, B.Connects(ws, ip));
            && b'.hub.desktops == b.hub.desktops && (forall x :: x != ws ==> (x in b'.hub.handlers <==> x in b.hub.handlers))
            && (forall x :: x in b.hub.handlers && x != ws ==> b'.hub.handlers[x] == b.hub.handlers[x])
            && (ws in b'.hub.handlers ==> b'.hub.handlers[ws].Greeting?)
  {
  }

  /** A desktop without a key is decided at once; one with a key is sent a challenge. */
  ghost function Said(c: T.Config, ru: Rules, s: State, e: Event): State
    requires e.Says? && Enabled(s, e) && Linked(s) && Valid(s.desk.entries)
  {
    var b := Heard(c, s, e);
    if !b.hub.handlers[e.ws].Proving? then s.(broker := b, sole := s.sole - {e.ws})
    else
      var stage := Begun(s.desk.entries, e.hello.id, ru.pairs(e.hello.id), e.pubkey, ru.allowLegacy);
      if stage.Challenged? then State(b, Step(ru, s.desk, Greets(e.ws, e.hello.id, e.pubkey)), s.keys, s.sole - {e.ws})
      else State(B.Next(c, b, B.Proves(e.ws, stage.reject.None?)), s.desk, s.keys, s.sole - {e.ws})
  }

  /** The reply to a challenge. */
  ghost function Answered(c: T.Config, ru: Rules, s: State, ws: nat, wait: real, signed: bool): State
    requires Enabled(s, Answers(ws, wait, signed)) && Linked(s) && Valid(s.desk.entries)
  {
    var k := s.desk.out[ws];
    var reject := Replied(ru, s.desk, ws, wait, signed).1;
    var b := B.Next(c, s.broker, B.Proves(ws, reject.None?));
    var d := Step(ru, s.desk, Replies(ws, wait, signed));
    if reject.Some? then State(b, d, s.keys, s.sole - {ws})
    else
      var sole := k.alone && !ru.pairs(k.id) && (k.bound.Some? ==> k.id in s.desk.entries.of);
      State(b, d, s.keys[ws := k.pubkey], if sole then s.sole + {ws} else s.sole - {ws})
  }

  ghost function Next(c: T.Config, ru: Rules, s: State, e: Event): State
    requires Enabled(s, e) && Linked(s) && Valid(s.desk.entries)
  {
    match e
    case Connects(ws, ip) => s.(broker := B.Next(c, s.broker, B.Connects(ws, ip)))
    case Says(_, _, _, _, _) => Said(c, ru, s, e)
    case Answers(ws, wait, signed) => Answered(c, ru, s, ws, wait, signed)
    case Ends(ws) =>
      State(B.Next(c, s.broker, B.Ends(ws)), Step(ru, s.desk, Vanishes(ws)), s.keys, s.sole - {ws})
  }

  // ----- what every run keeps -----------------------------------------------------------------------

  /** What is registered for an id signed with the key that the map holds for it. */
  ghost predicate KeysOk(s: State) {
    forall id :: id in s.broker.hub.desktops && s.broker.hub.desktops[id] in s.sole ==>
      var ws := s.broker.hub.desktops[id];
      ws in s.keys && (id in s.desk.entries.of ==> s.desk.entries.of[id].pubkey == s.keys[ws])
  }

  ghost predicate Good(c: T.Config, ru: Rules, s: State) {
    B.Good(c, s.broker) && DeskOk(ru, s.desk) && Linked(s) && KeysOk(s)
  }

  ghost predicate Limits(c: T.Config, ru: Rules) {
    T.ValidConfig(c) && ru.max > 0
  }

  /** A registered socket is no longer proving. */
  lemma DesktopsAreDone(c: T.Config, s: State, id: string)
    requires B.Good(c, s.broker) && id in s.broker.hub.desktops
    ensures var ws := s.broker.hub.desktops[id];
            ws in s.broker.hub.handlers && s.broker.hub.handlers[ws].Desk? && s.broker.hub.handlers[ws].id == id
  {
    hide R.RateInv;
  }

  lemma DeskValid(ru: Rules, d: Desk)
    requires DeskOk(ru, d)
    ensures Valid(d.entries)
  {
  }

  lemma GreetsTells(ru: Rules, d: Desk, ws: nat, id: string, pubkey: string)
    requires DeskOk(ru, d) && ru.max > 0 && Possible(d, Greets(ws, id, pubkey))
    requires Begun(d.entries, id, ru.pairs(id), pubkey, ru.allowLegacy).Challenged?
    ensures var d' := Step(ru, d, Greets(ws, id, pubkey));
            && DeskOk(ru, d') && d'.entries == d.entries
            && ws in d'.out && d'.out == d.out[ws := d'.out[ws]] && d'.out[ws].id == id
  {
    StepKeeps(ru, d, Greets(ws, id, pubkey));
  }

  /** A reply closes its challenge, changes no key but its own, and a lone one that is accepted
      leaves its own key. */
  lemma RepliesTells(ru: Rules, d: Desk, ws: nat, wait: real, signed: bool)
    requires DeskOk(ru, d) && ru.max > 0 && ws in d.out && wait >= 0.0
    ensures var d' := Step(ru, d, Replies(ws, wait, signed));
            var k, reject := d.out[ws], Replied(ru, d, ws, wait, signed).1;
            && DeskOk(ru, d') && d'.out.Keys == d.out.Keys - {ws} && (forall x :: x in d'.out ==> d'.out[x].id == d.out[x].id)
            && (forall id :: id in d'.entries.of && (id != k.id || reject.Some?) ==>
                  id in d.entries.of && d'.entries.of[id] == d.entries.of[id])
            && (reject.None? && k.alone && !ru.pairs(k.id) && (k.bound.Some? ==> k.id in d.entries.of) ==>
                  k.id in d'.entries.of && d'.entries.of[k.id].pubkey == k.pubkey)
  {
    hide Finished, ChallengeOk;
    StepKeeps(ru, d, Replies(ws, wait, signed));
    var k := d.out[ws];
    var reject := Replied(ru, d, ws, wait, signed).1;
    ReplyLeaves(ru, d, ws, wait, signed);
    if reject.None? {
      SignedOnly(ru, d, ws, wait, signed);
      if k.alone && !ru.pairs(k.id) { SoleReply(ru, d, ws, wait); }
    }
  }

  lemma ReplyLeaves(ru: Rules, d: Desk, ws: nat, wait: real, signed: bool)
    requires DeskOk(ru, d) && ru.max > 0 && ws in d.out && wait >= 0.0
    ensures var (d', reject) := Replied(ru, d, ws, wait, signed);
            forall id :: id in d'.of && (id != d.out[ws].id || reject.Some?) ==> id in d.entries.of && d'.of[id] == d.entries.of[id]
  {
    hide Finished;
    var k := d.out[ws];
    assert ChallengeOk(ru, d.entries, d.now, k);
    forall id ensures var (d', reject) := Replied(ru, d, ws, wait, signed);
                      id in d'.of && (id != k.id || reject.Some?) ==> id in d.entries.of && d'.of[id] == d.entries.of[id] {
      FinishedLeaves(d.entries, k.bound, k.id, ru.pairs(k.id), k.pubkey, signed, d.now + wait, ru.max, ru.ttl, id);
    }
  }

  /** Only a signed reply is accepted. */
  lemma SignedOnly(ru: Rules, d: Desk, ws: nat, wait: real, signed: bool)
    requires ws in d.out && Valid(d.entries) && Replied(ru, d, ws, wait, signed).1.None?
    ensures signed
  {
  }

  lemma {:induction false} SaidKeeps(c: T.Config, ru: Rules, s: State, e: Event)
    requires Limits(c, ru) && Good(c, ru, s) && Enabled(s, e) && e.Says?
    ensures Good(c, ru, Next(c, ru, s, e))
  {
    hide B.Next, B.Good, Heard, Begun, Step, DeskOk, Valid;
    DeskValid(ru, s.desk);
    var s' := Next(c, ru, s, e);
    var b := Heard(c, s, e);
    B.NextKeepsGood(c, s.broker, B.Hellos(e.ws, e.hello, e.ident, e.at));
    if b.hub.handlers[e.ws].Proving? {
      var id := e.hello.id;
      var stage := Begun(s.desk.entries, id, ru.pairs(id), e.pubkey, ru.allowLegacy);
      if stage.Challenged? {
        GreetsTells(ru, s.desk, e.ws, id, e.pubkey);
      } else {
        B.NextKeepsGood(c, b, B.Proves(e.ws, stage.reject.None?));
        ProvesTells(c, b, e.ws, stage.reject.None?);
      }
    }
  }

  lemma {:induction false} AnsweredKeeps(c: T.Config, ru: Rules, s: State, e: Event)
    requires Limits(c, ru) && Good(c, ru, s) && Enabled(s, e) && e.Answers?
    ensures Good(c, ru, Next(c, ru, s, e))
  {
    hide B.Next, B.Good, Step, DeskOk, Valid, Replied, Linked, KeysOk;
    DeskValid(ru, s.desk);
    var reject := Replied(ru, s.desk, e.ws, e.wait, e.signed).1;
    assert B.Enabled(s.broker, B.Proves(e.ws, reject.None?)) by { StillProving(s, e.ws); }
    B.NextKeepsGood(c, s.broker, B.Proves(e.ws, reject.None?));
    ProvesTells(c, s.broker, e.ws, reject.None?);
    RepliesTells(ru, s.desk, e.ws, e.wait, e.signed);
    AnsweredLinked(c, ru, s, e);
    AnsweredKeys(c, ru, s, e);
  }

  lemma StillProving(s: State, ws: nat)
    requires Linked(s) && ws in s.desk.out
    ensures ws in s.broker.hub.handlers && s.broker.hub.handlers[ws].Proving? && s.broker.hub.handlers[ws].id == s.desk.out[ws].id
  {
  }

  lemma AnsweredLinked(c: T.Config, ru: Rules, s: State, e: Event)
    requires Limits(c, ru) && Good(c, ru, s) && Enabled(s, e) && e.Answers?
    ensures Linked(Next(c, ru, s, e))
  {
    hide B.Next, B.Good, Step, DeskOk, Valid, Replied, KeysOk;
    DeskValid(ru, s.desk);
    StillProving(s, e.ws);
    ProvesTells(c, s.broker, e.ws, Replied(ru, s.desk, e.ws, e.wait, e.signed).1.None?);
    RepliesTells(ru, s.desk, e.ws, e.wait, e.signed);
  }

  lemma AnsweredKeys(c: T.Config, ru: Rules, s: State, e: Event)
    requires Limits(c, ru) && Good(c, ru, s) && Enabled(s, e) && e.Answers?
    ensures KeysOk(Next(c, ru, s, e))
  {
    hide B.Next, B.Good, Step, DeskOk, Valid, Replied, Linked;
    DeskValid(ru, s.desk);
    StillProving(s, e.ws);
    ProvesTells(c, s.broker, e.ws, Replied(ru, s.desk, e.ws, e.wait, e.signed).1.None?);
    RepliesTells(ru, s.desk, e.ws, e.wait, e.signed);
    forall id | id in s.broker.hub.desktops ensures s.broker.hub.desktops[id] != e.ws {
      DesktopsAreDone(c, s, id);
    }
  }

  lemma {:induction false} OtherKeeps(c: T.Config, ru: Rules, s: State, e: Event)
    requires Limits(c, ru) && Good(c, ru, s) && Enabled(s, e) && (e.Connects? || e.Ends?)
    ensures Good(c, ru, Next(c, ru, s, e))
  {
    hide B.Next, B.Good, DeskOk;
    if e.Connects? {
      B.NextKeepsGood(c, s.broker, B.Connects(e.ws, e.ip));
      ConnectsTells(c, s.broker, e.ws, e.ip);
    } else {
      B.NextKeepsGood(c, s.broker, B.Ends(e.ws));
      EndsTells(c, s.broker, e.ws);
      StepKeeps(ru, s.desk, Vanishes(e.ws));
    }
  }

  // ----- every run ------------------------------------------------------------------------------------

  /** The state after any events, starting with the map `d`; an event that cannot happen
      changes nothing. */
  ghost function Ran(c: T.Config, ru: Rules, d: Dict<Entry>, es: seq<Event>): (s: State)
    requires Limits(c, ru) && Inv(d, ru.max)
    ensures Good(c, ru, s)
    decreases |es|
  {
    hide Next, Good, B.Good;
    if es == [] then
      StartIsGood(c, ru, d);
      State(B.Start, Desk(d, 0.0, map[]), map[], {})
    else
      var s, e := Ran(c, ru, d, es[..|es| - 1]), es[|es| - 1];
      if Enabled(s, e) then (NextKeeps(c, ru, s, e); Next(c, ru, s, e)) else s
  }

  lemma StartIsGood(c: T.Config, ru: Rules, d: Dict<Entry>)
    requires Limits(c, ru) && Inv(d, ru.max)
    ensures Good(c, ru, State(B.Start, Desk(d, 0.0, map[]), map[], {}))
  {
    hide B.Good;
    B.StartIsGood(c);
  }

  lemma NextKeeps(c: T.Config, ru: Rules, s: State, e: Event)
    requires Limits(c, ru) && Good(c, ru, s) && Enabled(s, e)
    ensures Linked(s) && Valid(s.desk.entries) && Good(c, ru, Next(c, ru, s, e))
  {
    hide B.Good, KeysOk, Next;
    match e {
      case Says(_, _, _, _, _) => SaidKeeps(c, ru, s, e);
      case Answers(_, _, _) => AnsweredKeeps(c, ru, s, e);
      case _ => OtherKeeps(c, ru, s, e);
    }
  }

  /** In every run of the broker: an offer goes to a live desktop socket of its id; and if that
      socket was registered alone, with its binding still in the map, then it signed with the
      key that the map holds for the id, for as long as the map holds one. */
  lemma {:induction false} OffersReachTheKeyHolder(c: T.Config, ru: Rules, d: Dict<Entry>, es: seq<Event>, id: string)
    requires Limits(c, ru) && Inv(d, ru.max)
    ensures var s := Ran(c, ru, d, es);
            var to := B.OfferGoesTo(s.broker.hub, id);
            to.Some? ==>
              && to.value in s.broker.hub.handlers && s.broker.hub.handlers[to.value].Desk? && s.broker.hub.handlers[to.value].id == id
              && (to.value in s.sole && id in s.desk.entries.of ==>
                    to.value in s.keys && s.keys[to.value] == s.desk.entries.of[id].pubkey)
  {
    hide B.Good, DeskOk, Ran;
    var s := Ran(c, ru, d, es);
    if id in s.broker.hub.desktops { DesktopsAreDone(c, s, id); }
  }
}

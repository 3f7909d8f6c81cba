/** The signaling broker (signaling/server.py, class Broker): the class with its tables and
    limiters, and every run of its handlers, which interleave only where they await. */
module Broker {
  import opened Prelude
  import opened OrderedDict
  import opened RateWindow
  import opened BrokerTables
  import opened BrokerRates

  datatype Role = DesktopRole | PhoneRole | UnknownRole
  datatype Hello = Hello(role: Role, id: string, token: Option<string>)

  /** What becomes of a hello. */
  datatype Verdict =
    | TooManyHellos
    | MissingId
    | DesktopRefused(why: Refusal)
    | AlreadyRegistered
    | ProofWanted
    | PhoneRefused(whyPhone: Refusal)
    | PhoneIn
    | BadRole

  // ----- specification of the hello step -----------------------------------------------------

  ghost function DesktopJudged(c: Config, h: Hub, r: Rates, hello: Hello, now: real): (Rates, Verdict) {
    var (r', e) := DesktopAdmitted(c, h, r, hello.token, now);
    (r', if e.Some? then DesktopRefused(e.value)
         else if hello.id in h.desktops then AlreadyRegistered
         else ProofWanted)
  }

  ghost function PhoneJudged(c: Config, h: Hub, r: Rates, hello: Hello, now: real): (Rates, Verdict) {
    var (r', e) := PhoneAdmitted(c, h, r, hello.id, now);
    (r', if e.Some? then PhoneRefused(e.value) else PhoneIn)
  }

  ghost function RoleJudged(c: Config, h: Hub, r: Rates, hello: Hello, now: real): (Rates, Verdict) {
    if hello.id == "" then (r, MissingId)
    else
      match hello.role
      case DesktopRole => DesktopJudged(c, h, r, hello, now)
      case PhoneRole => PhoneJudged(c, h, r, hello, now)
      case UnknownRole => (r, BadRole)
  }

  ghost function Judged(c: Config, h: Hub, r: Rates, ip: string, hello: Hello, now: real): (Rates, Verdict) {
    var (r', ok) := HelloAdmitted(c, r, ip, now);
    if ok then RoleJudged(c, h, r', hello, now) else (r', TooManyHellos)
  }

  ghost function Greeted(h: Hub, ws: nat, ip: string, hello: Hello, ident: string, v: Verdict): Hub {
    match v
    case ProofWanted => ProofBegun(h, ws, ip, hello.id)
    case PhoneIn => PhoneJoined(h, ws, ip, hello.id, ident)
    case _ => MovedTo(h, ws, Leaving(ip))
  }

  // ----- the class ----------------------------------------------------------------------------

  class SignalingBroker {
    const c: Config
    var desktops: map<string, nat>
    var phones: map<string, nat>
    var phoneRooms: map<string, string>
    var phonesPerDesktop: map<string, nat>
    var ipConns: map<string, nat>
    var phoneConnects: Buckets
    var desktopRegs: seq<real>
    var ipHellos: Buckets
    ghost var handlers: Handlers
    ghost var peak: nat

    ghost function Tables(): Hub
      reads this
    {
      Hub(desktops, phones, phoneRooms, phonesPerDesktop, ipConns, handlers, peak)
    }

    ghost function Limits(): Rates
      reads this
    {
      Rates(phoneConnects, desktopRegs, ipHellos)
    }

    constructor (c: Config)
      requires ValidConfig(c)
      ensures this.c == c && Tables() == NoTables && Limits() == NoRates
    {
      this.c := c;
      desktops, phones, phoneRooms, phonesPerDesktop, ipConns := map[], map[], map[], map[], map[];
      phoneConnects, desktopRegs, ipHellos := Empty(), [], Empty();
      handlers, peak := map[], 0;
    }

    /** Up to the first await of `handle`. */
    method Connect(ws: nat, ip: string) returns (admitted: bool)
      modifies this
      ensures Tables() == Connected(c, old(Tables()), ws, ip) && Limits() == old(Limits())
      ensures admitted <==> CountOf(old(ipConns), ip) < c.maxConnsPerIp
    {
      if CountOf(ipConns, ip) >= c.maxConnsPerIp {
        return false;
      }
      ipConns := ipConns[ip := CountOf(ipConns, ip) + 1];
      handlers := handlers[ws := Greeting(ip)];
      return true;
    }

    method AdmitIpHello(ip: string, now: real) returns (ok: bool)
      requires Valid(ipHellos)
      modifies this`ipHellos
      ensures (Limits(), ok) == HelloAdmitted(c, old(Limits()), ip, now)
    {
      var cutoff := now - c.helloWindow;
      var bucket := Prune(Bucket(ipHellos, ip), cutoff);
      if |bucket| >= c.helloLimit {
        return false;
      }
      bucket := bucket + [now];
      PutValid(ipHellos, ip, bucket);
      ipHellos := Put(ipHellos, ip, bucket);
      if |ipHellos.of| > RATE_MAP_MAX_KEYS {
        SweepIpHellos(cutoff);
      }
      return true;
    }

    method SweepIpHellos(cutoff: real)
      requires Valid(ipHellos)
      modifies this`ipHellos
      ensures ipHellos == Trimmed(Swept(old(ipHellos), old(ipHellos).order, cutoff))
    {
      ipHellos := SweepKeys(ipHellos, ipHellos.order, cutoff);
      ghost var swept := ipHellos;
      SweptValid(old(ipHellos), old(ipHellos).order, cutoff);
      while |ipHellos.of| > RATE_MAP_MAX_KEYS
        invariant Valid(ipHellos) && Trimmed(ipHellos) == Trimmed(swept)
        decreases |ipHellos.order|
      {
        SizeIsOrder(ipHellos);
        WithoutTells(ipHellos.order, ipHellos.order[0]);
        DropValid(ipHellos, ipHellos.order[0]);
        ipHellos := Drop(ipHellos, ipHellos.order[0]);
      }
    }

    /** The loop both sweeps share: a snapshot of the keys, visited one by one. */
    method SweepKeys(d: Buckets, keys: seq<string>, cutoff: real) returns (swept: Buckets)
      requires Valid(d)
      requires forall i, j :: 0 <= i < j < |keys| ==> keys[i] != keys[j]
      requires forall k :: k in keys ==> k in d.of
      ensures swept == Swept(d, keys, cutoff)
    {
      swept := d;
      SweptNothing(d, cutoff);
      for i := 0 to |keys|
        invariant swept == Swept(d, keys[..i], cutoff)
      {
        assert keys[..i + 1] == keys[..i] + [keys[i]];
        assert keys[i] in keys && keys[i] !in keys[..i];
        SweptOneMore(d, keys[..i], keys[i], cutoff);
        var kept := Prune(swept.of[keys[i]], cutoff);
        if kept != [] {
          swept := Put(swept, keys[i], kept);
        } else {
          swept := Drop(swept, keys[i]);
        }
      }
      assert keys[..|keys|] == keys;
    }

    method SweepRateMap(now: real)
      requires Valid(phoneConnects)
      modifies this`phoneConnects
      ensures phoneConnects == Swept(old(phoneConnects), FirstKeys(old(phoneConnects).order), now - c.rateWindow)
    {
      hide Swept, FirstKeys;
      FirstKeysTell(phoneConnects);
      var keys := FirstKeys(phoneConnects.order);
      phoneConnects := SweepKeys(phoneConnects, keys, now - c.rateWindow);
    }

    method AdmitDesktop(token: Option<string>, now: real) returns (reject: Option<Refusal>)
      modifies this`desktopRegs
      ensures (Limits(), reject) == DesktopAdmitted(c, old(Tables()), old(Limits()), token, now)
    {
      if c.openMode {
        if |desktops| >= c.maxDesktops {
          return Some(Busy);
        }
        desktopRegs := LastN(Prune(desktopRegs, now - c.regWindow), c.regLimit);
        if |desktopRegs| >= c.regLimit {
          return Some(RateLimited);
        }
        desktopRegs := desktopRegs + [now];
        return None;
      }
      if c.token == "" || token != Some(c.token) {
        return Some(Unauthorized);
      }
      return None;
    }

    /** `_admit_phone`: admitting reserves a place in the room's count. */
    method AdmitPhone(id: string, now: real) returns (reject: Option<Refusal>)
      requires Valid(phoneConnects)
      modifies this`phoneConnects, this`phonesPerDesktop
      ensures (Limits(), reject) == PhoneAdmitted(c, old(Tables()), old(Limits()), id, now)
      ensures phonesPerDesktop == if reject == None
                                  then old(phonesPerDesktop)[id := CountOf(old(phonesPerDesktop), id) + 1]
                                  else old(phonesPerDesktop)
    {
      hide ConnectAdmitted;
      if |phones| >= c.maxPhones {
        return Some(Busy);
      }
      if CountOf(phonesPerDesktop, id) >= c.maxPhonesPerDesktop {
        return Some(Busy);
      }
      var ok := NoteConnect(id, now);
      if !ok {
        return Some(RateLimited);
      }
      phonesPerDesktop := phonesPerDesktop[id := CountOf(phonesPerDesktop, id) + 1];
      return None;
    }

    /** The rate part of `_admit_phone`, with the sweep that keeps the map bounded. */
    method NoteConnect(id: string, now: real) returns (ok: bool)
      requires Valid(phoneConnects)
      modifies this`phoneConnects
      ensures (Limits(), ok) == ConnectAdmitted(c, old(Limits()), id, now)
    {
      hide SweptMap, Remaining, Swept, Prune, Valid, FirstKeys, Bucket, Put;
      var bucket := Prune(Bucket(phoneConnects, id), now - c.rateWindow);
      if |bucket| >= c.rateLimit {
        return false;
      }
      bucket := bucket + [now];
      PutValid(phoneConnects, id, bucket);
      phoneConnects := Put(phoneConnects, id, bucket);
      if |phoneConnects.of| > RATE_MAP_MAX_KEYS {
        SweepRateMap(now);
      }
      return true;
    }

    /** From the hello to the next await.  `ident` is the fresh random name a phone gets. */
    method ReceiveHello(ws: nat, ip: string, hello: Hello, ident: string, now: real) returns (v: Verdict)
      requires Valid(ipHellos) && Valid(phoneConnects)
      requires ws in handlers && handlers[ws] == Greeting(ip) && ident !in phones
      modifies this
      ensures (Limits(), v) == Judged(c, old(Tables()), old(Limits()), ip, hello, now)
      ensures Tables() == Greeted(old(Tables()), ws, ip, hello, ident, v)
    {
      hide HelloAdmitted, DesktopJudged, PhoneJudged, Valid;
      var ok := AdmitIpHello(ip, now);
      if !ok {
        v := TooManyHellos;
      } else if hello.id == "" {
        v := MissingId;
      } else {
        match hello.role {
          case DesktopRole =>
            v := DesktopHello(ws, ip, hello, now);
            return;
          case PhoneRole =>
            v := PhoneHello(ws, ip, hello, ident, now);
            return;
          case UnknownRole => v := BadRole;
        }
      }
      handlers := handlers[ws := Leaving(ip)];
    }

    method DesktopHello(ws: nat, ip: string, hello: Hello, now: real) returns (v: Verdict)
      modifies this`desktopRegs, this`handlers, this`peak
      ensures (Limits(), v) == DesktopJudged(c, old(Tables()), old(Limits()), hello, now)
      ensures Tables() == Greeted(old(Tables()), ws, ip, hello, "", v) && !v.PhoneIn?
    {
      var reject := AdmitDesktop(hello.token, now);
      if reject != None {
        v := DesktopRefused(reject.value);
      } else if hello.id in desktops {
        v := AlreadyRegistered;
      } else {
        handlers := handlers[ws := Proving(ip, hello.id)];
        peak := Max(peak, |InProof(handlers)|);
        return ProofWanted;
      }
      handlers := handlers[ws := Leaving(ip)];
    }

    method PhoneHello(ws: nat, ip: string, hello: Hello, ident: string, now: real) returns (v: Verdict)
      requires Valid(phoneConnects)
      modifies this
      ensures (Limits(), v) == PhoneJudged(c, old(Tables()), old(Limits()), hello, now)
      ensures Tables() == Greeted(old(Tables()), ws, ip, hello, ident, v)
    {
      hide ConnectAdmitted, Valid;
      var reject := AdmitPhone(hello.id, now);
      assert (Limits(), reject) == PhoneAdmitted(c, old(Tables()), old(Limits()), hello.id, now);
      v := if reject == None then PhoneIn else PhoneRefused(reject.value);
      assert (Limits(), v) == PhoneJudged(c, old(Tables()), old(Limits()), hello, now);
      if reject != None {
        handlers := handlers[ws := Leaving(ip)];
        return;
      }
      phones := phones[ident := ws];
      phoneRooms := phoneRooms[ident := hello.id];
      handlers := handlers[ws := Phone(ip, hello.id, ident)];
    }

    /** The end of the proof round trip; `proven` is whether `_prove_desktop` gave None. */
    method FinishProof(ws: nat, ip: string, id: string, proven: bool)
      requires ws in handlers && handlers[ws] == Proving(ip, id)
      modifies this
      ensures Limits() == old(Limits())
      ensures Tables() == if proven then Registered(old(Tables()), ws, ip, id) else MovedTo(old(Tables()), ws, Leaving(ip))
    {
      if proven {
        desktops := desktops[id := ws];
        handlers := handlers[ws := Desk(ip, id)];
      } else {
        handlers := handlers[ws := Leaving(ip)];
      }
    }

    method ReleasePhone(id: string)
      requires CountOf(phonesPerDesktop, id) > 0
      modifies this`phonesPerDesktop
      ensures phonesPerDesktop == Decremented(old(phonesPerDesktop), id)
    {
      var remaining := CountOf(phonesPerDesktop, id) - 1;
      if remaining <= 0 {
        phonesPerDesktop := phonesPerDesktop - {id};
      } else {
        phonesPerDesktop := phonesPerDesktop[id := remaining];
      }
    }

    /** The `finally` block, whatever ended the handler. */
    method Close(ws: nat, x: Handler)
      requires ws in handlers && handlers[ws] == x
      requires x.Phone? ==> CountOf(phonesPerDesktop, x.id) > 0
      modifies this
      ensures Limits() == old(Limits()) && Tables() == Closed(old(Tables()), ws)
    {
      var remaining := CountOf(ipConns, x.ip) - 1;
      if remaining <= 0 {
        ipConns := ipConns - {x.ip};
      } else {
        ipConns := ipConns[x.ip := remaining];
      }
      match x {
        case Desk(_, id) =>
          if id in desktops && desktops[id] == ws {
            desktops := desktops - {id};
          }
        case Phone(_, id, ident) =>
          phones := phones - {ident};
          phoneRooms := phoneRooms - {ident};
          ReleasePhone(id);
        case _ =>
      }
      handlers := handlers - {ws};
    }

    /** Where a phone's offer goes: its desktop's socket, if there is one. */
    method RouteOffer(id: string) returns (to: Option<nat>)
      ensures to == OfferGoesTo(Tables(), id)
    {
      if id in desktops {
        return Some(desktops[id]);
      }
      return None;
    }

    /** Where a desktop's answer goes: only to a phone of its own room. */
    method RouteAnswer(id: string, ident: string) returns (to: Option<nat>)
      ensures to == AnswerGoesTo(Tables(), id, ident)
    {
      if ident !in phones {
        return None;
      }
      if ident !in phoneRooms || phoneRooms[ident] != id {
        return None;
      }
      return Some(phones[ident]);
    }
  }

  const NoTables := Hub(map[], map[], map[], map[], map[], map[], 0)
  const NoRates := Rates(Empty(), [], Empty())

  lemma SweptNothing(d: Buckets, cutoff: real)
    requires Valid(d)
    ensures Swept(d, [], cutoff) == d
  {
    assert SweptMap(d.of, [], cutoff) == d.of;
    RemainingAll(d.order, d.of);
  }

  function OfferGoesTo(h: Hub, id: string): Option<nat> {
    if id in h.desktops then Some(h.desktops[id]) else None
  }

  function AnswerGoesTo(h: Hub, id: string, ident: string): Option<nat> {
    if ident in h.phones && ident in h.rooms && h.rooms[ident] == id then Some(h.phones[ident]) else None
  }

  // ----- every run ------------------------------------------------------------------------------

  datatype Event =
    | Connects(ws: nat, ip: string)
    | Hellos(ws: nat, hello: Hello, ident: string, at: real)
    | Proves(ws: nat, proven: bool)
    | Ends(ws: nat)

  datatype State = State(hub: Hub, rates: Rates, logs: Logs, clock: real)

  const Start := State(NoTables, NoRates, Logs(map[], [], map[], {}), 0.0)

  /** What can happen next: a new socket, a hello on a waiting one, the end of a proof, or
      the end of any handler at all.  Random phone names do not collide and the monotonic
      clock does not run backwards. */
  ghost predicate Enabled(s: State, e: Event) {
    match e
    case Connects(ws, ip) => ws !in s.hub.handlers
    case Hellos(ws, _, ident, at) =>
      ws in s.hub.handlers && s.hub.handlers[ws].Greeting? && ident !in s.hub.phones && s.clock <= at
    case Proves(ws, _) => ws in s.hub.handlers && s.hub.handlers[ws].Proving?
    case Ends(ws) => ws in s.hub.handlers
  }

  /** An open-mode registration is counted even when its id turns out to be taken. */
  ghost function RoleLogged(c: Config, l: Logs, hello: Hello, v: Verdict, at: real): Logs {
    match v
    case ProofWanted => if c.openMode then l.(regs := l.regs + [at]) else l
    case AlreadyRegistered => if c.openMode then l.(regs := l.regs + [at]) else l
    case PhoneIn => l.(connects := Logged(l.connects, hello.id, at))
    case _ => l
  }

  ghost function LogsAfter(c: Config, s: State, ip: string, hello: Hello, v: Verdict, at: real): Logs {
    if v.TooManyHellos? then s.logs
    else RoleLogged(c, HelloLogged(c, s.rates, s.logs, ip, at), hello, v, at)
  }

  ghost function Next(c: Config, s: State, e: Event): State
    requires Enabled(s, e)
  {
    match e
    case Connects(ws, ip) => s.(hub := Connected(c, s.hub, ws, ip))
    case Hellos(ws, hello, ident, at) =>
      var ip := s.hub.handlers[ws].ip;
      var (r, v) := Judged(c, s.hub, s.rates, ip, hello, at);
      State(Greeted(s.hub, ws, ip, hello, ident, v), r, LogsAfter(c, s, ip, hello, v, at), at)
    case Proves(ws, proven) =>
      var x := s.hub.handlers[ws];
      s.(hub := if proven then Registered(s.hub, ws, x.ip, x.id) else MovedTo(s.hub, ws, Leaving(x.ip)))
    case Ends(ws) => s.(hub := Closed(s.hub, ws))
  }

  ghost predicate Possible(c: Config, s: State, run: seq<Event>)
    decreases |run|
  {
    run == [] || (Enabled(s, run[0]) && Possible(c, Next(c, s, run[0]), run[1..]))
  }

  ghost function Final(c: Config, s: State, run: seq<Event>): State
    requires Possible(c, s, run)
    decreases |run|
  {
    if run == [] then s else Final(c, Next(c, s, run[0]), run[1..])
  }

  ghost predicate Good(c: Config, s: State) {
    Inv(c, s.hub) && RateInv(c, s.rates, s.logs, s.clock)
  }

  lemma StartIsGood(c: Config)
    requires ValidConfig(c)
    ensures Good(c, Start)
  {
    assert Inv(c, NoTables) by {
      forall ip ensures IpOk(c, map[], map[], ip) {
        assert From(map[], ip) == {};
      }
      forall id ensures RoomOk(c, map[], map[], id) {
        assert InRoom(map[], id) == {};
      }
      assert InProof(map[]) == {};
    }
  }

  /** An admitting verdict means that the caps leave room. */
  lemma VerdictLeavesRoom(c: Config, h: Hub, r: Rates, ip: string, hello: Hello, now: real)
    ensures var v := Judged(c, h, r, ip, hello, now).1;
            && (v.ProofWanted? ==> (c.openMode ==> |h.desktops| < c.maxDesktops) && hello.id !in h.desktops)
            && (v.PhoneIn? ==> |h.phones| < c.maxPhones && CountOf(h.perDesktop, hello.id) < c.maxPhonesPerDesktop)
  {
  }

  /** A hello keeps the tables consistent. */
  lemma {:induction false} HelloKeepsTables(c: Config, h: Hub, ws: nat, ip: string, hello: Hello, ident: string, v: Verdict)
    requires ValidConfig(c) && Inv(c, h) && ws in h.handlers && h.handlers[ws] == Greeting(ip) && ident !in h.phones
    requires v.ProofWanted? ==> (c.openMode ==> |h.desktops| < c.maxDesktops)
    requires v.PhoneIn? ==> |h.phones| < c.maxPhones && CountOf(h.perDesktop, hello.id) < c.maxPhonesPerDesktop
    ensures Inv(c, Greeted(h, ws, ip, hello, ident, v))
  {
    match v {
      case ProofWanted => BeginningProof(c, h, ws, ip, hello.id);
      case PhoneIn => Joining(c, h, ws, ip, hello.id, ident);
      case _ => Refusing(c, h, ws);
    }
  }

  lemma DesktopKeepsRates(c: Config, h: Hub, r: Rates, l: Logs, hello: Hello, now: real)
    requires ValidConfig(c) && RateInv(c, r, l, now)
    ensures var (r', v) := DesktopJudged(c, h, r, hello, now);
            !v.TooManyHellos? && RateInv(c, r', RoleLogged(c, l, hello, v, now), now)
  {
    DesktopAdmission(c, h, r, l, hello.token, now);
  }

  lemma {:induction false} PhoneKeepsRates(c: Config, h: Hub, r: Rates, l: Logs, hello: Hello, now: real)
    requires ValidConfig(c) && RateInv(c, r, l, now)
    ensures var (r', v) := PhoneJudged(c, h, r, hello, now);
            !v.TooManyHellos? && RateInv(c, r', RoleLogged(c, l, hello, v, now), now)
  {
    hide ConnectAdmitted;
    ConnectAdmission(c, r, l, hello.id, now);
  }

  lemma {:induction false} RoleKeepsRates(c: Config, h: Hub, r: Rates, l: Logs, hello: Hello, now: real)
    requires ValidConfig(c) && RateInv(c, r, l, now)
    ensures var (r', v) := RoleJudged(c, h, r, hello, now);
            !v.TooManyHellos? && RateInv(c, r', RoleLogged(c, l, hello, v, now), now)
  {
    hide DesktopJudged, PhoneJudged;
    DesktopKeepsRates(c, h, r, l, hello, now);
    PhoneKeepsRates(c, h, r, l, hello, now);
  }

  /** A hello keeps the limiters true to the logs. */
  lemma {:induction false} HelloKeepsRates(c: Config, s: State, ip: string, hello: Hello, at: real)
    requires ValidConfig(c) && RateInv(c, s.rates, s.logs, s.clock) && s.clock <= at
    ensures var (r, v) := Judged(c, s.hub, s.rates, ip, hello, at);
            RateInv(c, r, LogsAfter(c, s, ip, hello, v, at), at)
  {
    TimePasses(c, s.rates, s.logs, s.clock, at);
    HelloAdmission(c, s.rates, s.logs, ip, at);
    var (r1, ok) := HelloAdmitted(c, s.rates, ip, at);
    if ok {
      var l := HelloLogged(c, s.rates, s.logs, ip, at);
      assert RateInv(c, r1, l, at);
      RoleKeepsRates(c, s.hub, r1, l, hello, at);
    }
  }

  lemma NextKeepsGood(c: Config, s: State, e: Event)
    requires ValidConfig(c) && Good(c, s) && Enabled(s, e)
    ensures Good(c, Next(c, s, e))
  {
    match e {
      case Connects(ws, ip) => Connecting(c, s.hub, ws, ip);
      case Hellos(ws, hello, ident, at) =>
        var ip := s.hub.handlers[ws].ip;
        var v := Judged(c, s.hub, s.rates, ip, hello, at).1;
        VerdictLeavesRoom(c, s.hub, s.rates, ip, hello, at);
        HelloKeepsTables(c, s.hub, ws, ip, hello, ident, v);
        HelloKeepsRates(c, s, ip, hello, at);
      case Proves(ws, proven) =>
        if proven {
          Registering(c, s.hub, ws, s.hub.handlers[ws].ip, s.hub.handlers[ws].id);
        } else {
          Refusing(c, s.hub, ws);
        }
      case Ends(ws) => Closing(c, s.hub, ws);
    }
  }

  /** Broker conservation: at every await point of every run the tables agree with each
      other and with the live handlers, and every cap holds. */
  lemma {:induction false} EveryRunIsGood(c: Config, s: State, run: seq<Event>)
    requires ValidConfig(c) && Good(c, s) && Possible(c, s, run)
    ensures Good(c, Final(c, s, run))
    decreases |run|
  {
    if run != [] {
      NextKeepsGood(c, s, run[0]);
      EveryRunIsGood(c, Next(c, s, run[0]), run[1..]);
    }
  }

  /** Sliding windows over whole runs: in any half-open interval of a window's length at
      most the limit of phone connects per desktop id, of open-mode registrations, and of
      hellos per address (for an address no overflow has thrown out) are admitted. */
  lemma WindowsHold(c: Config, run: seq<Event>, key: string, from: real)
    requires ValidConfig(c) && Possible(c, Start, run)
    ensures var l := Final(c, Start, run).logs;
            && |Inside(LogOf(l.connects, key), from, c.rateWindow)| <= c.rateLimit
            && |Inside(l.regs, from, c.regWindow)| <= c.regLimit
            && (key !in l.forgotten ==> |Inside(LogOf(l.hellos, key), from, c.helloWindow)| <= c.helloLimit)
  {
    StartIsGood(c);
    EveryRunIsGood(c, Start, run);
    var s := Final(c, Start, run);
    assert KeyTracked(s.rates.connects, s.logs.connects, key, c.rateWindow, c.rateLimit, s.clock);
    AtMostLimitPerWindow(LogOf(s.logs.connects, key), from, c.rateWindow, c.rateLimit);
    AtMostLimitPerWindow(s.logs.regs, from, c.regWindow, c.regLimit);
    if key !in s.logs.forgotten {
      assert KeyTracked(s.rates.hellos, s.logs.hellos, key, c.helloWindow, c.helloLimit, s.clock);
      AtMostLimitPerWindow(LogOf(s.logs.hellos, key), from, c.helloWindow, c.helloLimit);
    }
  }

  /** Routing: an offer reaches a live desktop handler of the id it was sent to, and an
      answer a live phone handler that dialled the answering desktop's id. */
  lemma RoutesWithinTheRoom(c: Config, run: seq<Event>, id: string, ident: string)
    requires ValidConfig(c) && Possible(c, Start, run)
    ensures var h := Final(c, Start, run).hub;
            var o, a := OfferGoesTo(h, id), AnswerGoesTo(h, id, ident);
            && (o.Some? ==> o.value in h.handlers && h.handlers[o.value].Desk? && h.handlers[o.value].id == id)
            && (a.Some? ==> a.value in h.handlers && h.handlers[a.value].Phone? && h.handlers[a.value].id == id)
  {
    StartIsGood(c);
    EveryRunIsGood(c, Start, run);
  }

  /** When every handler has ended nothing is left behind: no socket, no phone, no count. */
  lemma NothingLeaks(c: Config, run: seq<Event>)
    requires ValidConfig(c) && Possible(c, Start, run)
    requires Final(c, Start, run).hub.handlers == map[]
    ensures var h := Final(c, Start, run).hub;
            h.desktops == map[] && h.phones == map[] && h.rooms == map[] && h.perDesktop == map[] && h.ipConns == map[]
  {
    StartIsGood(c);
    EveryRunIsGood(c, Start, run);
    var h := Final(c, Start, run).hub;
    assert forall p :: p !in h.phones;
    assert h.rooms == map[] by {
      assert h.phones.Keys == {};
    }
    forall ip ensures ip !in h.ipConns {
      assert IpOk(c, h.ipConns, h.handlers, ip);
      assert From(h.handlers, ip) == {};
    }
    forall id ensures id !in h.perDesktop {
      assert RoomOk(c, h.rooms, h.perDesktop, id);
      assert InRoom(h.rooms, id) == {};
    }
    assert forall id :: id !in h.desktops;
  }
}

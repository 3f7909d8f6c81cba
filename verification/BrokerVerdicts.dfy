/** What the broker answers, in every run (signaling/server.py: handle, _admit_ip_hello,
    _admit_desktop, _admit_phone): the exact condition of every verdict on a hello, over the
    history of admissions and the live sockets, and when a message finds its receiver. */
module BrokerVerdicts {
  import opened Prelude
  import opened OrderedDict
  import opened RateWindow
  import opened BrokerTables
  import opened BrokerRates
  import opened Broker

  // ----- counting a history -----------------------------------------------------------------------

  /** The places of the timestamps after `cutoff`. */
  ghost function After(log: seq<real>, cutoff: real): set<nat> {
    set i: nat | i < |log| && log[i] > cutoff
  }

  lemma {:induction false} PruneCounts(log: seq<real>, cutoff: real)
    ensures |Prune(log, cutoff)| == |After(log, cutoff)|
    decreases |log|
  {
    if log == [] {
      assert After(log, cutoff) == {};
    } else {
      PruneCounts(log[1..], cutoff);
      MovedSize(After(log[1..], cutoff));
      AfterFirst(log, cutoff);
    }
  }

  lemma AfterFirst(log: seq<real>, cutoff: real)
    requires log != []
    ensures 0 !in Moved(After(log[1..], cutoff))
    ensures After(log, cutoff) == Moved(After(log[1..], cutoff)) + if log[0] > cutoff then {0} else {}
  {
    var rest := After(log[1..], cutoff);
    forall i: nat | i > 0 ensures i in After(log, cutoff) <==> i in Moved(rest) {
      assert i in Moved(rest) <==> i - 1 in rest;
    }
  }

  ghost function Moved(s: set<nat>): set<nat> {
    set i | i in s :: i + 1
  }

  lemma {:induction false} MovedSize(s: set<nat>)
    ensures |Moved(s)| == |s|
    decreases |s|
  {
    if s == {} {
      assert Moved(s) == {};
    } else {
      var k :| k in s;
      MovedSize(s - {k});
      assert s == (s - {k}) + {k};
      assert Moved(s) == Moved(s - {k}) + {k + 1};
    }
  }

  // ----- verdicts -------------------------------------------------------------------------------------

  /** The address said as many hellos in the last window as it may. */
  ghost predicate Chatty(c: Config, s: State, ip: string, at: real) {
    |After(LogOf(s.logs.hellos, ip), at - c.helloWindow)| >= c.helloLimit
  }

  /** Why a desktop is turned away, in the order of the tests. */
  ghost predicate NoRoom(c: Config, s: State) {
    c.openMode && |s.hub.desktops| >= c.maxDesktops
  }

  ghost predicate TooFast(c: Config, s: State, at: real) {
    c.openMode && |After(s.logs.regs, at - c.regWindow)| >= c.regLimit
  }

  ghost predicate WrongToken(c: Config, hello: Hello) {
    !c.openMode && (c.token == "" || hello.token != Some(c.token))
  }

  ghost predicate DesktopPasses(c: Config, s: State, hello: Hello, at: real) {
    !NoRoom(c, s) && !TooFast(c, s, at) && !WrongToken(c, hello)
  }

  /** Why a phone is turned away. */
  ghost predicate RoomFull(c: Config, s: State, id: string) {
    |s.hub.phones| >= c.maxPhones || |InRoom(s.hub.rooms, id)| >= c.maxPhonesPerDesktop
  }

  ghost predicate DialsTooFast(c: Config, s: State, id: string, at: real) {
    |After(LogOf(s.logs.connects, id), at - c.rateWindow)| >= c.rateLimit
  }

  lemma HelloCounts(c: Config, s: State, ip: string, at: real)
    requires ValidConfig(c) && Good(c, s) && s.clock <= at && ip !in s.logs.forgotten
    ensures HelloAdmitted(c, s.rates, ip, at).1 <==> !Chatty(c, s, ip, at)
  {
    hide HelloAdmitted, Inv, Prune;
    TimePasses(c, s.rates, s.logs, s.clock, at);
    HelloRefusal(c, s.rates, s.logs, ip, at);
    PruneCounts(LogOf(s.logs.hellos, ip), at - c.helloWindow);
  }

  /** Admitting the hello itself touches neither of the other limiters. */
  lemma HelloAside(c: Config, r: Rates, ip: string, now: real)
    ensures var r' := HelloAdmitted(c, r, ip, now).0; r'.connects == r.connects && r'.regs == r.regs
  {
    hide Prune, HellosFitted;
  }

  lemma DesktopCounts(c: Config, s: State, r: Rates, hello: Hello, at: real)
    requires ValidConfig(c) && Good(c, s) && s.clock <= at && r.regs == s.rates.regs
    ensures var (_, v) := DesktopJudged(c, s.hub, r, hello, at);
            && (v == DesktopRefused(Busy) <==> NoRoom(c, s))
            && (v == DesktopRefused(RateLimited) <==> !NoRoom(c, s) && TooFast(c, s, at))
            && (v == DesktopRefused(Unauthorized) <==> WrongToken(c, hello))
            && (v == AlreadyRegistered <==> DesktopPasses(c, s, hello, at) && hello.id in s.hub.desktops)
            && (v == ProofWanted <==> DesktopPasses(c, s, hello, at) && hello.id !in s.hub.desktops)
            && (v.DesktopRefused? || v.AlreadyRegistered? || v.ProofWanted?)
  {
    hide Inv, Prune, After;
    TimePasses(c, s.rates, s.logs, s.clock, at);
    TracksStep(s.rates.regs, s.logs.regs, c.regWindow, c.regLimit, at, at);
    PruneCounts(s.logs.regs, at - c.regWindow);
  }

  lemma PhoneCounts(c: Config, s: State, r: Rates, hello: Hello, at: real)
    requires ValidConfig(c) && Good(c, s) && s.clock <= at && r.connects == s.rates.connects
    ensures var (_, v) := PhoneJudged(c, s.hub, r, hello, at);
            && (v == PhoneRefused(Busy) <==> RoomFull(c, s, hello.id))
            && (v == PhoneRefused(RateLimited) <==> !RoomFull(c, s, hello.id) && DialsTooFast(c, s, hello.id, at))
            && (v == PhoneIn <==> !RoomFull(c, s, hello.id) && !DialsTooFast(c, s, hello.id, at))
            && (v.PhoneRefused? || v.PhoneIn?)
  {
    hide Prune, After, PhoneAdmitted;
    TimePasses(c, s.rates, s.logs, s.clock, at);
    assert RoomOk(c, s.hub.rooms, s.hub.perDesktop, hello.id);
    PhoneRefusal(c, s.hub, s.rates.(regs := r.regs, hellos := r.hellos), s.logs, hello.id, at);
    PruneCounts(LogOf(s.logs.connects, hello.id), at - c.rateWindow);
  }

  /** The hello got as far as its role. */
  ghost predicate Heard(c: Config, s: State, ip: string, hello: Hello, at: real) {
    !Chatty(c, s, ip, at) && hello.id != ""
  }

  /** The exact condition of every verdict. */
  ghost predicate Deserved(c: Config, s: State, ip: string, hello: Hello, at: real, v: Verdict) {
    var heard := Heard(c, s, ip, hello, at);
    match v
    case TooManyHellos => Chatty(c, s, ip, at)
    case MissingId => !Chatty(c, s, ip, at) && hello.id == ""
    case BadRole => heard && hello.role.UnknownRole?
    case DesktopRefused(why) =>
      heard && hello.role.DesktopRole?
      && (match why
          case Busy => NoRoom(c, s)
          case RateLimited => !NoRoom(c, s) && TooFast(c, s, at)
          case Unauthorized => WrongToken(c, hello))
    case AlreadyRegistered => heard && hello.role.DesktopRole? && DesktopPasses(c, s, hello, at) && hello.id in s.hub.desktops
    case ProofWanted => heard && hello.role.DesktopRole? && DesktopPasses(c, s, hello, at) && hello.id !in s.hub.desktops
    case PhoneRefused(why) =>
      heard && hello.role.PhoneRole?
      && (match why
          case Busy => RoomFull(c, s, hello.id)
          case RateLimited => !RoomFull(c, s, hello.id) && DialsTooFast(c, s, hello.id, at)
          case Unauthorized => false)
    case PhoneIn => heard && hello.role.PhoneRole? && !RoomFull(c, s, hello.id) && !DialsTooFast(c, s, hello.id, at)
  }

  lemma JudgedTells(c: Config, s: State, ip: string, hello: Hello, at: real)
    requires ValidConfig(c) && Good(c, s) && s.clock <= at && ip !in s.logs.forgotten
    ensures Deserved(c, s, ip, hello, at, Judged(c, s.hub, s.rates, ip, hello, at).1)
  {
    hide HelloAdmitted, DesktopJudged, PhoneJudged, Good, Chatty, NoRoom, TooFast, WrongToken, DesktopPasses, RoomFull, DialsTooFast;
    var r := HelloAdmitted(c, s.rates, ip, at).0;
    HelloCounts(c, s, ip, at);
    HelloAside(c, s.rates, ip, at);
    if hello.role.DesktopRole? { DesktopCounts(c, s, r, hello, at); }
    if hello.role.PhoneRole? { PhoneCounts(c, s, r, hello, at); }
  }

  /** At most one verdict is deserved. */
  lemma DeservedOnce(c: Config, s: State, ip: string, hello: Hello, at: real, v: Verdict, w: Verdict)
    requires Deserved(c, s, ip, hello, at, v) && Deserved(c, s, ip, hello, at, w)
    ensures v == w
  {
    hide Chatty, RoomFull, DialsTooFast;
  }

  /** Every verdict on a hello, in every run, as long as no overflow has thrown the address out:
      a verdict is given if and only if its condition holds, and then the socket stands where
      that verdict puts it. */
  lemma {:induction false} HelloVerdict(c: Config, run: seq<Event>, ws: nat, hello: Hello, ident: string, at: real, v: Verdict)
    requires ValidConfig(c) && Possible(c, Start, run)
    requires var s := Final(c, Start, run);
             Enabled(s, Hellos(ws, hello, ident, at)) && s.hub.handlers[ws].ip !in s.logs.forgotten
    ensures var s := Final(c, Start, run);
            var ip, s' := s.hub.handlers[ws].ip, Next(c, s, Hellos(ws, hello, ident, at));
            && (Judged(c, s.hub, s.rates, ip, hello, at).1 == v <==> Deserved(c, s, ip, hello, at, v))
            && (Deserved(c, s, ip, hello, at, v) ==>
                  s'.hub.handlers[ws] == if v.ProofWanted? then Proving(ip, hello.id)
                                         else if v.PhoneIn? then Phone(ip, hello.id, ident)
                                         else Leaving(ip))
  {
    hide Good, Possible, Final, Deserved, Judged, LogsAfter;
    var s := Final(c, Start, run);
    var ip := s.hub.handlers[ws].ip;
    StartIsGood(c);
    EveryRunIsGood(c, Start, run);
    JudgedTells(c, s, ip, hello, at);
    if Deserved(c, s, ip, hello, at, v) {
      DeservedOnce(c, s, ip, hello, at, v, Judged(c, s.hub, s.rates, ip, hello, at).1);
    }
  }

  // ----- where every socket stands -------------------------------------------------------------

  /** The sockets of an address. */
  ghost function Live(hs: Handlers, ip: string): set<nat> {
    set ws | ws in hs && hs[ws].ip == ip
  }

  /** What a step does to the sockets `e.ws` and `other`. */
  ghost predicate Stands(c: Config, h: Hub, h': Hub, e: Event, other: nat)
    requires (!e.Connects? ==> e.ws in h.handlers) && (e.Proves? ==> h.handlers[e.ws].Proving?)
  {
    && (other != e.ws ==> (other in h'.handlers <==> other in h.handlers)
                          && (other in h.handlers ==> h'.handlers[other] == h.handlers[other]))
    && (match e
        case Connects(ws, ip) =>
          if |Live(h.handlers, ip)| < c.maxConnsPerIp
          then ws in h'.handlers && h'.handlers[ws] == Greeting(ip) else h' == h
        case Hellos(ws, _, _, _) => ws in h'.handlers && h'.handlers[ws].ip == h.handlers[ws].ip
        case Proves(ws, proven) =>
          var x := h.handlers[ws];
          ws in h'.handlers && h'.handlers[ws] == if proven then Desk(x.ip, x.id) else Leaving(x.ip)
        case Ends(ws) => ws !in h'.handlers)
  }

  /** A socket is let in, in every run, exactly when fewer than the cap of its address are live;
      and every other step moves the one socket it is about: a proven desktop into its relay
      loop, an unproven one out, an ended one away. */
  lemma {:induction false} SocketsStand(c: Config, run: seq<Event>, e: Event, other: nat)
    requires ValidConfig(c) && Possible(c, Start, run) && Enabled(Final(c, Start, run), e)
    ensures Stands(c, Final(c, Start, run).hub, Next(c, Final(c, Start, run), e).hub, e, other)
  {
    hide Good, Next, Enabled, Possible, Final;
    StartIsGood(c);
    EveryRunIsGood(c, Start, run);
    StepStands(c, Final(c, Start, run), e, other);
  }

  lemma StepStands(c: Config, s: State, e: Event, other: nat)
    requires Good(c, s) && Enabled(s, e)
    ensures Stands(c, s.hub, Next(c, s, e).hub, e, other)
  {
    hide RateInv, Judged, LogsAfter, Greeted, Closed, Registered, MovedTo, Connected, Stands;
    match e {
      case Connects(ws, ip) => ConnectStands(c, s.hub, ws, ip, other);
      case Hellos(ws, hello, ident, at) =>
        HelloStands(c, s.hub, e, Judged(c, s.hub, s.rates, s.hub.handlers[ws].ip, hello, at).1, other);
      case Proves(ws, _) => ProofStands(c, s.hub, e, other);
      case Ends(ws) => EndStands(c, s.hub, ws, other);
    }
  }

  lemma HelloStands(c: Config, h: Hub, e: Event, v: Verdict, other: nat)
    requires e.Hellos? && e.ws in h.handlers
    ensures Stands(c, h, Greeted(h, e.ws, h.handlers[e.ws].ip, e.hello, e.ident, v), e, other)
  {
    hide Greeted, Live;
    var x := GreetedTells(h, e.ws, h.handlers[e.ws].ip, e.hello, e.ident, v);
  }

  lemma ProofStands(c: Config, h: Hub, e: Event, other: nat)
    requires e.Proves? && e.ws in h.handlers && h.handlers[e.ws].Proving?
    ensures var x := h.handlers[e.ws];
            Stands(c, h, if e.proven then Registered(h, e.ws, x.ip, x.id) else MovedTo(h, e.ws, Leaving(x.ip)), e, other)
  {
    hide Registered, MovedTo, Live;
    ProvenTells(h, e.ws, h.handlers[e.ws].ip, h.handlers[e.ws].id);
  }

  lemma EndStands(c: Config, h: Hub, ws: nat, other: nat)
    requires ws in h.handlers
    ensures Stands(c, h, Closed(h, ws), Ends(ws), other)
  {
    hide Closed, Live;
    ClosedTells(h, ws);
  }

  lemma ConnectStands(c: Config, h: Hub, ws: nat, ip: string, other: nat)
    requires CountsIps(c, h.ipConns, h.handlers)
    ensures Stands(c, h, Connected(c, h, ws, ip), Connects(ws, ip), other)
  {
    assert IpOk(c, h.ipConns, h.handlers, ip);
    assert From(h.handlers, ip) == Live(h.handlers, ip);
  }

  lemma GreetedTells(h: Hub, ws: nat, ip: string, hello: Hello, ident: string, v: Verdict) returns (x: Handler)
    ensures var h' := Greeted(h, ws, ip, hello, ident, v);
            x.ip == ip && h'.handlers == h.handlers[ws := x] && h'.desktops == h.desktops
  {
    hide InProof, CountOf;
    x := Greeted(h, ws, ip, hello, ident, v).handlers[ws];
  }

  lemma ProvenTells(h: Hub, ws: nat, ip: string, id: string)
    ensures var h', out := Registered(h, ws, ip, id), MovedTo(h, ws, Leaving(ip));
            && h'.handlers == h.handlers[ws := Desk(ip, id)] && h'.desktops == h.desktops[id := ws]
            && out.handlers == h.handlers[ws := Leaving(ip)] && out.desktops == h.desktops
  {
  }

  lemma ClosedTells(h: Hub, ws: nat)
    requires ws in h.handlers
    ensures var x, h' := h.handlers[ws], Closed(h, ws);
            && h'.handlers == h.handlers - {ws}
            && h'.desktops == if x.Desk? && x.id in h.desktops && h.desktops[x.id] == ws then h.desktops - {x.id} else h.desktops
  {
    hide Decremented;
  }

  // ----- when a message is delivered ---------------------------------------------------------------

  lemma {:induction false} OneMore(c: Config, s: State, run: seq<Event>, e: Event)
    ensures Possible(c, s, run + [e]) <==> Possible(c, s, run) && Enabled(Final(c, s, run), e)
    ensures Possible(c, s, run + [e]) ==> Final(c, s, run + [e]) == Next(c, Final(c, s, run), e)
    decreases |run|
  {
    hide Next, Enabled;
    var more := run + [e];
    if run == [] {
      assert more == [e] && [e][1..] == [];
      assert Possible(c, s, [e]) <==> Enabled(s, e);
      if Enabled(s, e) { assert Final(c, s, [e]) == Final(c, Next(c, s, e), []); }
    } else {
      assert more[0] == run[0] && more[1..] == run[1..] + [e];
      if Enabled(s, run[0]) { OneMore(c, Next(c, s, run[0]), run[1..], e); }
    }
  }

  lemma {:induction false} PrefixPossible(c: Config, run: seq<Event>, i: nat)
    requires Possible(c, Start, run) && i <= |run|
    ensures Possible(c, Start, run[..i])
    decreases |run| - i
  {
    if i == |run| {
      assert run[..i] == run;
    } else {
      PrefixPossible(c, run, i + 1);
      assert run[..i + 1] == run[..i] + [run[i]];
      OneMore(c, Start, run[..i], run[i]);
    }
  }

  /** The state in which the `i`-th event happens. */
  ghost function Before(c: Config, run: seq<Event>, i: nat): State
    requires Possible(c, Start, run) && i <= |run|
  {
    PrefixPossible(c, run, i);
    Final(c, Start, run[..i])
  }

  /** The `i`-th event registers the socket under the id. */
  ghost predicate Registers(c: Config, run: seq<Event>, i: nat, ws: nat, id: string)
    requires Possible(c, Start, run)
  {
    i < |run| && run[i] == Proves(ws, true)
    && ws in Before(c, run, i).hub.handlers && Before(c, run, i).hub.handlers[ws] == Proving(Before(c, run, i).hub.handlers[ws].ip, id)
  }

  /** It did, and since then it has not ended and nobody else registered under the id. */
  ghost predicate HoldsSince(c: Config, run: seq<Event>, i: nat, ws: nat, id: string)
    requires Possible(c, Start, run)
  {
    Registers(c, run, i, ws, id) && forall j: nat :: i < j < |run| ==> Undisturbed(c, run, j, ws, id)
  }

  /** The `j`-th event neither ends the socket nor registers another under the id. */
  ghost predicate Undisturbed(c: Config, run: seq<Event>, j: nat, ws: nat, id: string)
    requires Possible(c, Start, run) && j < |run|
  {
    run[j] != Ends(ws) && forall other :: !Registers(c, run, j, other, id)
  }

  lemma SameRegisters(c: Config, run: seq<Event>, e: Event, i: nat, ws: nat, id: string)
    requires Possible(c, Start, run + [e]) && i < |run|
    ensures Possible(c, Start, run)
    ensures Registers(c, run + [e], i, ws, id) == Registers(c, run, i, ws, id)
  {
    hide Possible, Final;
    OneMore(c, Start, run, e);
    assert (run + [e])[..i] == run[..i];
  }

  /** Whether the last event is the registration. */
  lemma LastRegisters(c: Config, run: seq<Event>, e: Event, ws: nat, id: string)
    requires Possible(c, Start, run + [e])
    ensures Possible(c, Start, run)
    ensures Registers(c, run + [e], |run|, ws, id)
            <==> e == Proves(ws, true) && ws in Final(c, Start, run).hub.handlers && Final(c, Start, run).hub.handlers[ws].Proving?
                 && Final(c, Start, run).hub.handlers[ws].id == id
  {
    hide Possible, Final;
    OneMore(c, Start, run, e);
    assert (run + [e])[..|run|] == run;
  }

  lemma {:induction false} HoldsOn(c: Config, run: seq<Event>, e: Event, i: nat, ws: nat, id: string)
    requires Possible(c, Start, run + [e]) && i < |run|
    ensures Possible(c, Start, run)
    ensures HoldsSince(c, run + [e], i, ws, id)
            <==> HoldsSince(c, run, i, ws, id) && e != Ends(ws) && forall other :: !Registers(c, run + [e], |run|, other, id)
  {
    hide Possible, Registers;
    OneMore(c, Start, run, e);
    SameRegisters(c, run, e, i, ws, id);
    forall j: nat | j < |run| ensures Undisturbed(c, run + [e], j, ws, id) == Undisturbed(c, run, j, ws, id) {
      forall other ensures Registers(c, run + [e], j, other, id) == Registers(c, run, j, other, id) {
        SameRegisters(c, run, e, j, other, id);
      }
    }
    assert Undisturbed(c, run + [e], |run|, ws, id)
           <==> e != Ends(ws) && forall other :: !Registers(c, run + [e], |run|, other, id);
    hide Undisturbed;
    if HoldsSince(c, run + [e], i, ws, id) {
      forall j: nat | i < j < |run| ensures Undisturbed(c, run, j, ws, id) {
        assert Undisturbed(c, run + [e], j, ws, id);
      }
    }
  }

  ghost predicate Holds(c: Config, run: seq<Event>, ws: nat, id: string)
    requires Possible(c, Start, run)
  {
    exists i :: HoldsSince(c, run, i, ws, id)
  }

  lemma {:induction false} HoldsMore(c: Config, run: seq<Event>, e: Event, ws: nat, id: string)
    requires Possible(c, Start, run + [e])
    ensures Possible(c, Start, run)
    ensures Holds(c, run + [e], ws, id)
            <==> Registers(c, run + [e], |run|, ws, id)
                 || (Holds(c, run, ws, id) && e != Ends(ws) && forall other :: !Registers(c, run + [e], |run|, other, id))
  {
    hide Possible, Registers;
    OneMore(c, Start, run, e);
    forall i: nat | i < |run|
      ensures HoldsSince(c, run + [e], i, ws, id)
              <==> HoldsSince(c, run, i, ws, id) && e != Ends(ws) && forall other :: !Registers(c, run + [e], |run|, other, id)
    {
      HoldsOn(c, run, e, i, ws, id);
    }
    HoldsHere(c, run + [e], ws, id);
    hide HoldsSince;
    HoldsBefore(c, run + [e], ws, id);
    HoldsBefore(c, run, ws, id);
  }

  lemma HoldsHere(c: Config, run: seq<Event>, ws: nat, id: string)
    requires Possible(c, Start, run) && run != []
    ensures HoldsSince(c, run, |run| - 1, ws, id) <==> Registers(c, run, |run| - 1, ws, id)
  {
    hide Possible, Registers;
  }

  lemma HoldsBefore(c: Config, run: seq<Event>, ws: nat, id: string)
    requires Possible(c, Start, run)
    ensures Holds(c, run, ws, id) <==> exists i: nat :: i < |run| && HoldsSince(c, run, i, ws, id)
  {
    hide Possible;
    if i: nat :| HoldsSince(c, run, i, ws, id) {
      assert i < |run|;
    }
  }

  /** What an event does to the registered desktops. */
  lemma DesktopsNext(c: Config, s: State, e: Event, id: string)
    requires Good(c, s) && Enabled(s, e)
    ensures var to, to' := OfferGoesTo(s.hub, id), OfferGoesTo(Next(c, s, e).hub, id);
            to' == if e.Proves? && e.proven && s.hub.handlers[e.ws].id == id then Some(e.ws)
                   else if e.Ends? && to == Some(e.ws) then None else to
  {
    hide RateInv, Judged, LogsAfter, Greeted, Closed, Registered, MovedTo, Connected;
    match e {
      case Connects(ws, ip) => ConnectTells(c, s.hub, ws, ip);
      case Hellos(ws, hello, ident, at) =>
        var ip := s.hub.handlers[ws].ip;
        var x := GreetedTells(s.hub, ws, ip, hello, ident, Judged(c, s.hub, s.rates, ip, hello, at).1);
      case Proves(ws, _) => ProvenTells(s.hub, ws, s.hub.handlers[ws].ip, s.hub.handlers[ws].id);
      case Ends(ws) => ClosedTells(s.hub, ws);
    }
  }

  lemma ConnectTells(c: Config, h: Hub, ws: nat, ip: string)
    ensures Connected(c, h, ws, ip).desktops == h.desktops
  {
  }

  /** An offer for an id is delivered, in every run, exactly to the socket that registered last
      under that id, as long as that socket has not ended. */
  lemma {:induction false} OfferDeliveredIff(c: Config, run: seq<Event>, ws: nat, id: string)
    requires ValidConfig(c) && Possible(c, Start, run)
    ensures OfferGoesTo(Final(c, Start, run).hub, id) == Some(ws) <==> Holds(c, run, ws, id)
    decreases |run|
  {
    hide Good, Next, Holds, Registers, OfferGoesTo, Enabled;
    if run == [] {
      NothingHeld(c, ws, id);
    } else {
      var n := |run| - 1;
      var init, e := run[..n], run[n];
      assert run == init + [e];
      OneMore(c, Start, init, e);
      OfferDeliveredIff(c, init, ws, id);
      HoldsMore(c, init, e, ws, id);
      var s := Final(c, Start, init);
      StartIsGood(c);
      EveryRunIsGood(c, Start, init);
      DesktopsNext(c, s, e, id);
      forall other ensures Registers(c, init + [e], n, other, id)
        <==> e == Proves(other, true) && other in s.hub.handlers && s.hub.handlers[other].Proving? && s.hub.handlers[other].id == id
      {
        LastRegisters(c, init, e, other, id);
      }
      EnabledProves(s, e);
    }
  }

  lemma EnabledProves(s: State, e: Event)
    requires Enabled(s, e)
    ensures e.Proves? ==> e.ws in s.hub.handlers && s.hub.handlers[e.ws].Proving?
  {
  }

  lemma NothingHeld(c: Config, ws: nat, id: string)
    ensures Possible(c, Start, []) && OfferGoesTo(Final(c, Start, []).hub, id) == None && !Holds(c, [], ws, id)
  {
  }

  /** An answer for a phone is delivered, in every run, exactly to the live phone of that name
      that dialled the answering desktop's id. */
  lemma {:induction false} AnswerDeliveredIff(c: Config, run: seq<Event>, id: string, ident: string, ws: nat)
    requires ValidConfig(c) && Possible(c, Start, run)
    ensures var h := Final(c, Start, run).hub;
            AnswerGoesTo(h, id, ident) == Some(ws)
            <==> ws in h.handlers && h.handlers[ws].Phone? && h.handlers[ws].id == id && h.handlers[ws].ident == ident
  {
    hide RateInv, Possible, Final;
    StartIsGood(c);
    EveryRunIsGood(c, Start, run);
  }
}

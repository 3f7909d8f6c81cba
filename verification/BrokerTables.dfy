/** The connection tables of the signaling broker (signaling/server.py, class Broker).
    Each await-free stretch of a handler is one step; `handlers` is the set of live
    handlers and where each one waits. */
module BrokerTables {
  import opened Prelude

  datatype Config = Config(
    token: string, openMode: bool,
    maxPhones: nat, maxPhonesPerDesktop: nat, rateLimit: nat, rateWindow: real,
    maxDesktops: nat, regLimit: nat, regWindow: real,
    maxConnsPerIp: nat, helloLimit: nat, helloWindow: real)

  predicate ValidConfig(c: Config) {
    && c.maxPhones > 0 && c.maxPhonesPerDesktop > 0 && c.rateLimit > 0 && c.rateWindow > 0.0
    && c.maxDesktops > 0 && c.regLimit > 0 && c.regWindow > 0.0
    && c.maxConnsPerIp > 0 && c.helloLimit > 0 && c.helloWindow > 0.0
  }

  /** Where a live handler waits: for its hello, for its proof, in its relay loop, or (after
      a refusal) to send the error and leave. */
  datatype Handler =
    | Greeting(ip: string)
    | Proving(ip: string, id: string)
    | Desk(ip: string, id: string)
    | Phone(ip: string, id: string, ident: string)
    | Leaving(ip: string)

  // ----- the connection tables ------------------------------------------------------------

  datatype Hub = Hub(
    desktops: map<string, nat>, phones: map<string, nat>, rooms: map<string, string>,
    perDesktop: map<string, nat>, ipConns: map<string, nat>,
    handlers: Handlers, peak: nat)

  function CountOf(m: map<string, nat>, k: string): nat {
    if k in m then m[k] else 0
  }

  /** The decrement both counters share: a count that would reach zero is removed. */
  function Decremented(m: map<string, nat>, k: string): map<string, nat> {
    if CountOf(m, k) <= 1 then m - {k} else m[k := m[k] - 1]
  }

  type Handlers = map<nat, Handler>

  ghost function From(hs: Handlers, ip: string): set<nat> {
    set ws | ws in hs && hs[ws].ip == ip
  }

  ghost function InRoom(rooms: map<string, string>, id: string): set<string> {
    set p | p in rooms && rooms[p] == id
  }

  /** The handlers between admission and registration. */
  ghost function InProof(hs: Handlers): set<nat> {
    set ws | ws in hs && hs[ws].Proving?
  }

  ghost predicate IpOk(c: Config, ipConns: map<string, nat>, hs: Handlers, ip: string) {
    && CountOf(ipConns, ip) == |From(hs, ip)| <= c.maxConnsPerIp
    && (ip in ipConns ==> ipConns[ip] > 0)
  }

  /** Every per-address count is the number of live handlers of that address. */
  ghost predicate CountsIps(c: Config, ipConns: map<string, nat>, hs: Handlers) {
    forall ip :: IpOk(c, ipConns, hs, ip)
  }

  ghost predicate RoomOk(c: Config, rooms: map<string, string>, perDesktop: map<string, nat>, id: string) {
    && CountOf(perDesktop, id) == |InRoom(rooms, id)| <= c.maxPhonesPerDesktop
    && (id in perDesktop ==> perDesktop[id] > 0)
  }

  /** Every per-desktop count is the number of phones in that room; both caps hold. */
  ghost predicate CountsRooms(c: Config, phones: map<string, nat>, rooms: map<string, string>, perDesktop: map<string, nat>) {
    |phones| <= c.maxPhones && forall id :: RoomOk(c, rooms, perDesktop, id)
  }

  /** The phone tables have the same keys and list exactly the live phone handlers. */
  ghost predicate PhonesLive(phones: map<string, nat>, rooms: map<string, string>, hs: Handlers) {
    && phones.Keys == rooms.Keys
    && (forall p :: p in phones ==> phones[p] in hs && hs[phones[p]] == Phone(hs[phones[p]].ip, rooms[p], p))
    && (forall ws :: ws in hs && hs[ws].Phone? ==> hs[ws].ident in phones && phones[hs[ws].ident] == ws)
  }

  /** Every registered socket belongs to a live desktop handler of that id. */
  ghost predicate DesktopsLive(desktops: map<string, nat>, hs: Handlers) {
    forall id :: id in desktops ==> desktops[id] in hs && hs[desktops[id]] == Desk(hs[desktops[id]].ip, id)
  }

  /** In open mode, registered desktops and handlers in their proof together never exceed
      the cap less one plus the most that were ever in their proof at once. */
  ghost predicate CapsDesktops(c: Config, desktops: map<string, nat>, hs: Handlers, peak: nat) {
    && |InProof(hs)| <= peak
    && (c.openMode ==> |desktops| + |InProof(hs)| <= c.maxDesktops - 1 + peak)
  }

  ghost predicate Inv(c: Config, h: Hub) {
    && CountsIps(c, h.ipConns, h.handlers)
    && CountsRooms(c, h.phones, h.rooms, h.perDesktop)
    && PhonesLive(h.phones, h.rooms, h.handlers)
    && DesktopsLive(h.desktops, h.handlers)
    && CapsDesktops(c, h.desktops, h.handlers, h.peak)
  }

  // ----- the steps -----------------------------------------------------------------------

  /** A new socket: refused before its hello when its address holds too many already. */
  function Connected(c: Config, h: Hub, ws: nat, ip: string): Hub {
    if CountOf(h.ipConns, ip) >= c.maxConnsPerIp then h
    else h.(ipConns := h.ipConns[ip := CountOf(h.ipConns, ip) + 1], handlers := h.handlers[ws := Greeting(ip)])
  }

  function MovedTo(h: Hub, ws: nat, to: Handler): Hub {
    h.(handlers := h.handlers[ws := to])
  }

  ghost function ProofBegun(h: Hub, ws: nat, ip: string, id: string): Hub {
    var h' := MovedTo(h, ws, Proving(ip, id));
    h'.(peak := Max(h.peak, |InProof(h'.handlers)|))
  }

  function Registered(h: Hub, ws: nat, ip: string, id: string): Hub {
    MovedTo(h, ws, Desk(ip, id)).(desktops := h.desktops[id := ws])
  }

  function PhoneJoined(h: Hub, ws: nat, ip: string, id: string, ident: string): Hub {
    MovedTo(h, ws, Phone(ip, id, ident)).(
      phones := h.phones[ident := ws], rooms := h.rooms[ident := id],
      perDesktop := h.perDesktop[id := CountOf(h.perDesktop, id) + 1])
  }

  /** The `finally` block. */
  function Closed(h: Hub, ws: nat): Hub
    requires ws in h.handlers
  {
    var x := h.handlers[ws];
    var h' := h.(ipConns := Decremented(h.ipConns, x.ip), handlers := h.handlers - {ws});
    match x
    case Desk(_, id) =>
      if id in h.desktops && h.desktops[id] == ws then h'.(desktops := h.desktops - {id}) else h'
    case Phone(_, id, ident) =>
      h'.(phones := h.phones - {ident}, rooms := h.rooms - {ident}, perDesktop := Decremented(h.perDesktop, id))
    case _ => h'
  }

  // ----- conservation, table by table -----------------------------------------------------

  lemma FromSet(hs: Handlers, ws: nat, x: Handler, ip: string)
    ensures |From(hs[ws := x], ip)| == |From(hs, ip)| - (if ws in hs && hs[ws].ip == ip then 1 else 0)
                                       + (if x.ip == ip then 1 else 0)
  {
    var rest := From(hs, ip) - {ws};
    assert From(hs[ws := x], ip) == if x.ip == ip then rest + {ws} else rest;
    assert ws !in From(hs, ip) ==> rest == From(hs, ip);
  }

  lemma FromGone(hs: Handlers, ws: nat, ip: string)
    requires ws in hs
    ensures |From(hs - {ws}, ip)| == |From(hs, ip)| - (if hs[ws].ip == ip then 1 else 0)
  {
    var rest := From(hs, ip) - {ws};
    assert From(hs - {ws}, ip) == rest;
    assert ws !in From(hs, ip) ==> rest == From(hs, ip);
  }

  lemma ProofSet(hs: Handlers, ws: nat, x: Handler)
    ensures |InProof(hs[ws := x])| == |InProof(hs)| - (if ws in hs && hs[ws].Proving? then 1 else 0)
                                      + (if x.Proving? then 1 else 0)
  {
    var rest := InProof(hs) - {ws};
    assert InProof(hs[ws := x]) == if x.Proving? then rest + {ws} else rest;
    hide InProof;
    assert ws in InProof(hs) <==> ws in hs && hs[ws].Proving? by { InProofTells(hs, ws); }
    assert ws !in InProof(hs) ==> rest == InProof(hs);
  }

  lemma InProofTells(hs: Handlers, ws: nat)
    ensures ws in InProof(hs) <==> ws in hs && hs[ws].Proving?
  {
  }

  lemma ProofGone(hs: Handlers, ws: nat)
    requires ws in hs
    ensures |InProof(hs - {ws})| <= |InProof(hs)|
  {
    assert InProof(hs - {ws}) == InProof(hs) - {ws};
  }

  lemma IpCounted(c: Config, ipConns: map<string, nat>, hs: Handlers, ws: nat, x: Handler)
    requires CountsIps(c, ipConns, hs) && ws !in hs && CountOf(ipConns, x.ip) < c.maxConnsPerIp
    ensures CountsIps(c, ipConns[x.ip := CountOf(ipConns, x.ip) + 1], hs[ws := x])
  {
    var hs', ipConns' := hs[ws := x], ipConns[x.ip := CountOf(ipConns, x.ip) + 1];
    forall ip ensures IpOk(c, ipConns', hs', ip) {
      assert IpOk(c, ipConns, hs, ip);
      FromSet(hs, ws, x, ip);
    }
  }

  lemma IpKept(c: Config, ipConns: map<string, nat>, hs: Handlers, ws: nat, x: Handler)
    requires CountsIps(c, ipConns, hs) && ws in hs && hs[ws].ip == x.ip
    ensures CountsIps(c, ipConns, hs[ws := x])
  {
    var hs' := hs[ws := x];
    forall ip ensures IpOk(c, ipConns, hs', ip) {
      assert IpOk(c, ipConns, hs, ip);
      FromSet(hs, ws, x, ip);
    }
  }

  lemma IpReleased(c: Config, ipConns: map<string, nat>, hs: Handlers, ws: nat)
    requires CountsIps(c, ipConns, hs) && ws in hs
    ensures CountsIps(c, Decremented(ipConns, hs[ws].ip), hs - {ws})
  {
    var hs', ipConns' := hs - {ws}, Decremented(ipConns, hs[ws].ip);
    forall ip ensures IpOk(c, ipConns', hs', ip) {
      assert IpOk(c, ipConns, hs, ip);
      FromGone(hs, ws, ip);
    }
  }

  lemma InRoomJoined(rooms: map<string, string>, id: string, p: string, i: string)
    requires p !in rooms
    ensures |InRoom(rooms[p := id], i)| == |InRoom(rooms, i)| + (if i == id then 1 else 0)
  {
    assert InRoom(rooms[p := id], i) == if i == id then InRoom(rooms, i) + {p} else InRoom(rooms, i);
  }

  lemma RoomJoined(c: Config, phones: map<string, nat>, rooms: map<string, string>, perDesktop: map<string, nat>,
                   ws: nat, id: string, p: string)
    requires CountsRooms(c, phones, rooms, perDesktop) && p !in phones && p !in rooms
    requires |phones| < c.maxPhones && CountOf(perDesktop, id) < c.maxPhonesPerDesktop
    ensures CountsRooms(c, phones[p := ws], rooms[p := id], perDesktop[id := CountOf(perDesktop, id) + 1])
  {
    OneMoreKey(phones, p, ws);
    var rooms', perDesktop' := rooms[p := id], perDesktop[id := CountOf(perDesktop, id) + 1];
    forall i ensures RoomOk(c, rooms', perDesktop', i) {
      assert RoomOk(c, rooms, perDesktop, i);
      InRoomJoined(rooms, id, p, i);
    }
  }

  lemma RoomLeft(c: Config, phones: map<string, nat>, rooms: map<string, string>, perDesktop: map<string, nat>, p: string)
    requires CountsRooms(c, phones, rooms, perDesktop) && p in phones && p in rooms
    ensures CountOf(perDesktop, rooms[p]) > 0
    ensures CountsRooms(c, phones - {p}, rooms - {p}, Decremented(perDesktop, rooms[p]))
  {
    FewerKeys(phones - {p}, phones);
    var id := rooms[p];
    assert RoomOk(c, rooms, perDesktop, id) && p in InRoom(rooms, id);
    var rooms', perDesktop' := rooms - {p}, Decremented(perDesktop, id);
    forall i ensures RoomOk(c, rooms', perDesktop', i) {
      assert RoomOk(c, rooms, perDesktop, i);
      assert InRoom(rooms', i) == if i == id then InRoom(rooms, i) - {p} else InRoom(rooms, i);
    }
  }

  lemma OneMoreKey(m: map<string, nat>, k: string, v: nat)
    ensures |m[k := v]| == if k in m then |m| else |m| + 1
  {
    assert m[k := v].Keys == m.Keys + {k};
    assert |m.Keys| == |m| && |m[k := v].Keys| == |m[k := v]|;
  }

  lemma FewerKeys(a: map<string, nat>, b: map<string, nat>)
    requires a.Keys <= b.Keys
    ensures |a| <= |b|
  {
    assert b.Keys == a.Keys + (b.Keys - a.Keys);
    assert |a| == |a.Keys| && |b| == |b.Keys|;
  }

  lemma CapKept(c: Config, desktops: map<string, nat>, hs: Handlers, peak: nat, ws: nat, x: Handler)
    requires CapsDesktops(c, desktops, hs, peak) && !x.Proving?
    ensures CapsDesktops(c, desktops, hs[ws := x], peak)
  {
    ProofSet(hs, ws, x);
  }

  /** A handler that neither is nor becomes a phone leaves the phone tables true. */
  lemma PhonesUntouched(phones: map<string, nat>, rooms: map<string, string>, hs: Handlers, ws: nat, x: Handler)
    requires PhonesLive(phones, rooms, hs) && !x.Phone? && (ws in hs ==> !hs[ws].Phone?)
    ensures PhonesLive(phones, rooms, hs[ws := x])
  {
    var hs' := hs[ws := x];
    forall w | w in hs' && hs'[w].Phone? ensures hs'[w].ident in phones && phones[hs'[w].ident] == w {
      assert w != ws && w in hs && hs[w] == hs'[w];
    }
  }

  lemma DesksUntouched(desktops: map<string, nat>, hs: Handlers, ws: nat, x: Handler)
    requires DesktopsLive(desktops, hs) && (ws in hs ==> !hs[ws].Desk?)
    ensures DesktopsLive(desktops, hs[ws := x])
  {
  }

  lemma PhoneAdded(phones: map<string, nat>, rooms: map<string, string>, hs: Handlers, ws: nat, ip: string, id: string, p: string)
    requires PhonesLive(phones, rooms, hs) && p !in phones && (ws in hs ==> !hs[ws].Phone?)
    ensures PhonesLive(phones[p := ws], rooms[p := id], hs[ws := Phone(ip, id, p)])
  {
    var hs', phones' := hs[ws := Phone(ip, id, p)], phones[p := ws];
    forall w | w in hs' && hs'[w].Phone? ensures hs'[w].ident in phones' && phones'[hs'[w].ident] == w {
      if w != ws {
        assert w in hs && hs[w] == hs'[w] && hs[w].ident in phones;
      }
    }
    forall q | q in phones' ensures phones'[q] in hs' && hs'[phones'[q]] == Phone(hs'[phones'[q]].ip, rooms[p := id][q], q) {
      if q != p {
        assert q in phones && phones[q] in hs && hs[phones[q]].Phone?;
      }
    }
  }

  lemma PhoneGone(phones: map<string, nat>, rooms: map<string, string>, hs: Handlers, ws: nat)
    requires PhonesLive(phones, rooms, hs) && ws in hs && hs[ws].Phone?
    ensures PhonesLive(phones - {hs[ws].ident}, rooms - {hs[ws].ident}, hs - {ws})
  {
    var gone := {hs[ws].ident};
    var hs', phones' := hs - {ws}, phones - gone;
    forall w | w in hs' && hs'[w].Phone? ensures hs'[w].ident in phones' && phones'[hs'[w].ident] == w {
      assert w in hs && hs[w].ident in phones && phones[hs[w].ident] == w;
    }
    forall q | q in phones' ensures phones'[q] in hs' && hs'[phones'[q]] == Phone(hs'[phones'[q]].ip, (rooms - gone)[q], q) {
      assert q in phones && hs[phones[q]].ident == q;
    }
  }

  lemma OtherGone(phones: map<string, nat>, rooms: map<string, string>, hs: Handlers, ws: nat)
    requires PhonesLive(phones, rooms, hs) && ws in hs && !hs[ws].Phone?
    ensures PhonesLive(phones, rooms, hs - {ws})
  {
    var hs' := hs - {ws};
    forall w | w in hs' && hs'[w].Phone? ensures hs'[w].ident in phones && phones[hs'[w].ident] == w {
      assert w in hs && hs[w] == hs'[w];
    }
  }

  lemma DeskGone(desktops: map<string, nat>, hs: Handlers, ws: nat)
    requires DesktopsLive(desktops, hs) && ws in hs
    ensures var desktops' := if hs[ws].Desk? && hs[ws].id in desktops && desktops[hs[ws].id] == ws
                             then desktops - {hs[ws].id} else desktops;
            DesktopsLive(desktops', hs - {ws}) && |desktops'| <= |desktops|
  {
    if hs[ws].Desk? { FewerKeys(desktops - {hs[ws].id}, desktops); }
  }

  // ----- conservation, step by step -------------------------------------------------------

  lemma Connecting(c: Config, h: Hub, ws: nat, ip: string)
    requires Inv(c, h) && ws !in h.handlers
    ensures Inv(c, Connected(c, h, ws, ip))
  {
    if CountOf(h.ipConns, ip) < c.maxConnsPerIp {
      IpCounted(c, h.ipConns, h.handlers, ws, Greeting(ip));
      CapKept(c, h.desktops, h.handlers, h.peak, ws, Greeting(ip));
      PhonesUntouched(h.phones, h.rooms, h.handlers, ws, Greeting(ip));
      DesksUntouched(h.desktops, h.handlers, ws, Greeting(ip));
    }
  }

  /** A refused handler. */
  lemma Refusing(c: Config, h: Hub, ws: nat)
    requires Inv(c, h) && ws in h.handlers
    requires h.handlers[ws].Greeting? || h.handlers[ws].Proving?
    ensures Inv(c, MovedTo(h, ws, Leaving(h.handlers[ws].ip)))
  {
    var x := Leaving(h.handlers[ws].ip);
    IpKept(c, h.ipConns, h.handlers, ws, x);
    CapKept(c, h.desktops, h.handlers, h.peak, ws, x);
    PhonesUntouched(h.phones, h.rooms, h.handlers, ws, x);
    DesksUntouched(h.desktops, h.handlers, ws, x);
  }

  lemma BeginningProof(c: Config, h: Hub, ws: nat, ip: string, id: string)
    requires Inv(c, h) && ws in h.handlers && h.handlers[ws] == Greeting(ip)
    requires c.openMode ==> |h.desktops| < c.maxDesktops
    ensures Inv(c, ProofBegun(h, ws, ip, id))
  {
    IpKept(c, h.ipConns, h.handlers, ws, Proving(ip, id));
    ProofSet(h.handlers, ws, Proving(ip, id));
    PhonesUntouched(h.phones, h.rooms, h.handlers, ws, Proving(ip, id));
    DesksUntouched(h.desktops, h.handlers, ws, Proving(ip, id));
  }

  lemma Registering(c: Config, h: Hub, ws: nat, ip: string, id: string)
    requires Inv(c, h) && ws in h.handlers && h.handlers[ws] == Proving(ip, id)
    ensures Inv(c, Registered(h, ws, ip, id))
  {
    IpKept(c, h.ipConns, h.handlers, ws, Desk(ip, id));
    ProofSet(h.handlers, ws, Desk(ip, id));
    PhonesUntouched(h.phones, h.rooms, h.handlers, ws, Desk(ip, id));
    DesksUntouched(h.desktops, h.handlers, ws, Desk(ip, id));
    OneMoreKey(h.desktops, id, ws);
  }

  lemma Joining(c: Config, h: Hub, ws: nat, ip: string, id: string, ident: string)
    requires Inv(c, h) && ws in h.handlers && h.handlers[ws] == Greeting(ip)
    requires ident !in h.phones
    requires |h.phones| < c.maxPhones && CountOf(h.perDesktop, id) < c.maxPhonesPerDesktop
    ensures Inv(c, PhoneJoined(h, ws, ip, id, ident))
  {
    var x := Phone(ip, id, ident);
    IpKept(c, h.ipConns, h.handlers, ws, x);
    CapKept(c, h.desktops, h.handlers, h.peak, ws, x);
    RoomJoined(c, h.phones, h.rooms, h.perDesktop, ws, id, ident);
    PhoneAdded(h.phones, h.rooms, h.handlers, ws, ip, id, ident);
    DesksUntouched(h.desktops, h.handlers, ws, x);
  }

  lemma Closing(c: Config, h: Hub, ws: nat)
    requires Inv(c, h) && ws in h.handlers
    ensures Inv(c, Closed(h, ws))
    ensures h.handlers[ws].Phone? ==> CountOf(h.perDesktop, h.handlers[ws].id) > 0
  {
    if h.handlers[ws].Phone? {
      ClosingPhone(c, h, ws);
    } else {
      ClosingOther(c, h, ws);
    }
  }

  lemma {:induction false} ClosingPhone(c: Config, h: Hub, ws: nat)
    requires Inv(c, h) && ws in h.handlers && h.handlers[ws].Phone?
    ensures Inv(c, Closed(h, ws)) && CountOf(h.perDesktop, h.handlers[ws].id) > 0
  {
    var p := h.handlers[ws].ident;
    assert p in h.phones && h.phones[p] == ws && h.rooms[p] == h.handlers[ws].id;
    IpReleased(c, h.ipConns, h.handlers, ws);
    ProofGone(h.handlers, ws);
    PhoneGone(h.phones, h.rooms, h.handlers, ws);
    DeskGone(h.desktops, h.handlers, ws);
    RoomLeft(c, h.phones, h.rooms, h.perDesktop, p);
  }

  lemma ClosingOther(c: Config, h: Hub, ws: nat)
    requires Inv(c, h) && ws in h.handlers && !h.handlers[ws].Phone?
    ensures Inv(c, Closed(h, ws))
  {
    IpReleased(c, h.ipConns, h.handlers, ws);
    ProofGone(h.handlers, ws);
    OtherGone(h.phones, h.rooms, h.handlers, ws);
    DeskGone(h.desktops, h.handlers, ws);
  }
}

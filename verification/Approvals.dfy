/** The pending-approval rows of app/smartbrain_3000/approvals.py (ApprovalStore) and the
    two row tests of app/smartbrain_3000/agent.py (in_flight, unresolved). */
module Approvals {
  import opened Prelude

  datatype Status = Pending | Approved | Executed | Denied | Expired

  /** `chat` says that the row carries a conversation id.  Times are whole seconds. */
  datatype Row = Row(session: nat, turn: nat, chat: bool, created: nat,
                     status: Status, resolvedAt: Option<nat>, result: Option<int>)

  const LIST_LIMIT: nat := 200
  const CHAT_TTL: nat := 3600
  const SCHEDULED_TTL: nat := 30 * 86400
  const IN_FLIGHT_TTL: nat := 15 * 60

  // ----- one row ------------------------------------------------------------------------------------

  predicate Stale(r: Row, now: int) {
    now - r.created > if r.chat then CHAT_TTL else SCHEDULED_TTL
  }

  /** Claimed, and no result stored yet, for at most fifteen minutes. */
  predicate InFlight(r: Row, now: nat) {
    r.status.Executed? && r.result.None? && (r.resolvedAt.Some? ==> now - r.resolvedAt.value <= IN_FLIGHT_TTL)
  }

  predicate Unresolved(r: Row, now: nat) {
    r.status.Pending? || r.status.Approved? || InFlight(r, now)
  }

  predicate Edge(a: Status, b: Status) {
    match a
    case Pending => b.Approved? || b.Denied? || b.Expired?
    case Approved => b.Executed?
    case _ => false
  }

  /** `_cas`: None when the move is refused. */
  function Moved(r: Row, expected: Status, to: Status, now: nat): Option<Row> {
    if r.status != expected || Stale(r, now) then None
    else Some(r.(status := to, resolvedAt := Some(now)))
  }

  function Swept(r: Row, now: nat): Row {
    if r.status.Pending? && Stale(r, now) then r.(status := Expired, resolvedAt := Some(now)) else r
  }

  predicate Storable(r: Row) {
    r.status.Executed? && r.result.None?
  }

  function Stored(r: Row, result: int): Row {
    if Storable(r) then r.(result := Some(result)) else r
  }

  // ----- the store --------------------------------------------------------------------------------

  /** Newest first, at most `n`, of this session's pending rows among the first `k`. */
  function Offered(rows: seq<Row>, session: nat, k: nat, n: nat): (r: seq<nat>)
    requires k <= |rows|
    ensures forall i :: 0 <= i < |r| ==> r[i] < k && rows[r[i]].status.Pending? && rows[r[i]].session == session
    decreases k
  {
    if k == 0 || n == 0 then []
    else if !rows[k - 1].status.Pending? then Offered(rows, session, k - 1, n)
    else (if rows[k - 1].session == session then [k - 1] else []) + Offered(rows, session, k - 1, n - 1)
  }

  /** Oldest first, of this session's rows among the turn's first 200. */
  function OfTurn(rows: seq<Row>, session: nat, turn: nat, k: nat): (r: seq<nat>)
    requires k <= |rows|
    ensures forall i :: 0 <= i < |r| ==> r[i] < k && rows[r[i]].turn == turn && rows[r[i]].session == session
    decreases k
  {
    if k == 0 then []
    else
      OfTurn(rows, session, turn, k - 1)
      + (if rows[k - 1].turn == turn && rows[k - 1].session == session && CountTurn(rows, turn, k - 1) < LIST_LIMIT
         then [k - 1] else [])
  }

  function CountTurn(rows: seq<Row>, turn: nat, k: nat): (n: nat)
    requires k <= |rows|
    ensures n <= k
    decreases k
  {
    if k == 0 then 0 else CountTurn(rows, turn, k - 1) + if rows[k - 1].turn == turn then 1 else 0
  }

  lemma OfferedNext(rows: seq<Row>, session: nat, k: nat, n: nat)
    requires 0 < k <= |rows| && n > 0
    ensures Offered(rows, session, k, n)
            == if !rows[k - 1].status.Pending? then Offered(rows, session, k - 1, n)
               else (if rows[k - 1].session == session then [k - 1] else []) + Offered(rows, session, k - 1, n - 1)
  {
  }

  lemma NothingOffered(rows: seq<Row>, session: nat, k: nat, n: nat)
    requires k <= |rows| && (k == 0 || n == 0)
    ensures Offered(rows, session, k, n) == []
  {
  }

  /** Rows are named by their place in the table, which is also their age. */
  class ApprovalStore {
    var rows: seq<Row>
    const session: nat

    constructor (session: nat, rows: seq<Row>)
      ensures this.session == session && this.rows == rows
    {
      this.session, this.rows := session, rows;
    }

    method CreatePending(turn: nat, chat: bool, now: nat) returns (pid: nat)
      modifies this
      ensures pid == |old(rows)|
      ensures rows == old(rows) + [Row(session, turn, chat, now, Pending, None, None)]
    {
      pid := |rows|;
      rows := rows + [Row(session, turn, chat, now, Pending, None, None)];
    }

    method ListPending(now: nat) returns (pids: seq<nat>)
      modifies this
      ensures |rows| == |old(rows)| && forall i :: 0 <= i < |rows| ==> rows[i] == Swept(old(rows)[i], now)
      ensures pids == Offered(rows, session, |rows|, LIST_LIMIT)
    {
      hide Swept, Offered;
      Expire(now);
      pids := Newest();
    }

    /** The expiry sweep. */
    method Expire(now: nat)
      modifies this
      ensures |rows| == |old(rows)| && forall i :: 0 <= i < |rows| ==> rows[i] == Swept(old(rows)[i], now)
    {
      hide Swept;
      ghost var was := rows;
      for i := 0 to |rows|
        invariant |rows| == |was|
        invariant forall j :: 0 <= j < |rows| ==> rows[j] == if j < i then Swept(was[j], now) else was[j]
      {
        rows := rows[i := Swept(rows[i], now)];
      }
    }

    method Newest() returns (pids: seq<nat>)
      ensures pids == Offered(rows, session, |rows|, LIST_LIMIT)
    {
      hide Offered;
      pids := [];
      var k, left := |rows|, LIST_LIMIT;
      while k > 0 && left > 0
        invariant 0 <= k <= |rows| && 0 <= left
        invariant pids + Offered(rows, session, k, left) == Offered(rows, session, |rows|, LIST_LIMIT)
        decreases k
      {
        OfferedNext(rows, session, k, left);
        k := k - 1;
        if rows[k].status.Pending? {
          left := left - 1;
          if rows[k].session == session {
            pids := pids + [k];
          }
        }
      }
      NothingOffered(rows, session, k, left);
    }

    method Cas(pid: nat, expected: Status, to: Status, now: nat) returns (won: bool)
      modifies this
      ensures won == (pid < |old(rows)| && Moved(old(rows)[pid], expected, to, now).Some?)
      ensures rows == if won then old(rows)[pid := Moved(old(rows)[pid], expected, to, now).value] else old(rows)
    {
      if pid >= |rows| || rows[pid].status != expected || Stale(rows[pid], now) {
        return false;
      }
      rows := rows[pid := rows[pid].(status := to, resolvedAt := Some(now))];
      return true;
    }

    method Approve(pid: nat, now: nat) returns (won: bool)
      modifies this
      ensures won == (pid < |old(rows)| && old(rows)[pid].status.Pending? && !Stale(old(rows)[pid], now))
      ensures rows == if won then old(rows)[pid := old(rows)[pid].(status := Approved, resolvedAt := Some(now))] else old(rows)
    {
      won := Cas(pid, Pending, Approved, now);
    }

    method Deny(pid: nat, now: nat) returns (won: bool)
      modifies this
      ensures won == (pid < |old(rows)| && old(rows)[pid].status.Pending? && !Stale(old(rows)[pid], now))
      ensures rows == if won then old(rows)[pid := old(rows)[pid].(status := Denied, resolvedAt := Some(now))] else old(rows)
    {
      won := Cas(pid, Pending, Denied, now);
    }

    method Claim(pid: nat, now: nat) returns (won: bool)
      modifies this
      ensures won == (pid < |old(rows)| && old(rows)[pid].status.Approved? && !Stale(old(rows)[pid], now))
      ensures rows == if won then old(rows)[pid := old(rows)[pid].(status := Executed, resolvedAt := Some(now))] else old(rows)
    {
      won := Cas(pid, Approved, Executed, now);
    }

    method StoreResult(pid: nat, result: int)
      modifies this
      ensures rows == if pid < |old(rows)| && old(rows)[pid].status.Executed? && old(rows)[pid].result.None?
                      then old(rows)[pid := old(rows)[pid].(result := Some(result))] else old(rows)
    {
      if pid < |rows| && Storable(rows[pid]) {
        rows := rows[pid := rows[pid].(result := Some(result))];
      }
    }

    method ListForTurn(turn: nat) returns (pids: seq<nat>)
      ensures pids == OfTurn(rows, session, turn, |rows|)
    {
      pids := [];
      var found := 0;
      for k := 0 to |rows|
        invariant pids == OfTurn(rows, session, turn, k) && found == CountTurn(rows, turn, k)
      {
        if rows[k].turn == turn {
          if found < LIST_LIMIT && rows[k].session == session {
            pids := pids + [k];
          }
          found := found + 1;
        }
      }
    }
  }

  function Swepts(rows: seq<Row>, now: nat): (r: seq<Row>)
    ensures |r| == |rows| && forall i :: 0 <= i < |rows| ==> r[i] == Swept(rows[i], now)
  {
    seq(|rows|, i requires 0 <= i < |rows| => Swept(rows[i], now))
  }

  // ----- what the store promises ------------------------------------------------------------------

  /** Too old to approve: an hour in a chat, thirty days otherwise. */
  predicate TooOld(r: Row, now: int) {
    if r.chat then now > r.created + 3600 else now > r.created + 2592000
  }

  /** A move wins exactly on a row of the expected status that is not too old, and then changes
      the status and the time of its resolution and nothing else; the sweep expires exactly the
      pending rows that are too old. */
  lemma MoveTells(r: Row, expected: Status, to: Status, now: nat)
    ensures Moved(r, expected, to, now).Some? <==> r.status == expected && !TooOld(r, now)
    ensures Moved(r, expected, to, now).Some? ==>
              Moved(r, expected, to, now).value == Row(r.session, r.turn, r.chat, r.created, to, Some(now), r.result)
    ensures Swept(r, now) == if r.status == Pending && TooOld(r, now)
                             then Row(r.session, r.turn, r.chat, r.created, Expired, Some(now), r.result) else r
  {
  }

  /** A row no longer holds its turn up exactly when it was denied, has expired, has its result,
      or was claimed more than fifteen minutes ago. */
  lemma ResolvedIff(r: Row, now: nat)
    ensures !Unresolved(r, now) <==>
              || r.status == Denied || r.status == Expired
              || (r.status == Executed && (r.result.Some? || (r.resolvedAt.Some? && now > r.resolvedAt.value + 900)))
  {
  }

  /** The pending rows above a place. */
  ghost function Newer(rows: seq<Row>, k: nat, p: nat): set<nat> {
    set i: nat | p < i < k && i < |rows| && rows[i].status == Pending
  }

  ghost predicate Falling(picks: seq<nat>) {
    forall i, j :: 0 <= i < j < |picks| ==> picks[i] > picks[j]
  }

  /** The offered rows: newest first, this session's pending rows with fewer than `n` newer
      pending ones, whichever session those belong to. */
  lemma {:induction false} OfferedTells(rows: seq<Row>, session: nat, k: nat, n: nat)
    requires k <= |rows|
    ensures Falling(Offered(rows, session, k, n))
    ensures forall p: nat :: p in Offered(rows, session, k, n) <==> OfferedAt(rows, session, k, n, p)
    decreases k
  {
    if k > 0 && n > 0 {
      var pending := rows[k - 1].status == Pending;
      var left := if pending then n - 1 else n;
      var rest := Offered(rows, session, k - 1, left);
      OfferedTells(rows, session, k - 1, left);
      hide OfferedAt, Offered, Newer, Falling;
      OfferedNext(rows, session, k, n);
      FallingMore(rest, k - 1);
      forall p: nat ensures p in Offered(rows, session, k, n) <==> OfferedAt(rows, session, k, n, p) {
        OfferedAtNext(rows, session, k, n, p);
        InFront(rest, k - 1, p);
        assert p in rest <==> OfferedAt(rows, session, k - 1, left, p);
      }
      assert [] + rest == rest;
    } else {
      NothingOffered(rows, session, k, n);
    }
  }

  lemma OfferedAtNext(rows: seq<Row>, session: nat, k: nat, n: nat, p: nat)
    requires 0 < k <= |rows| && n > 0
    ensures var pending := rows[k - 1].status == Pending;
            OfferedAt(rows, session, k, n, p)
            <==> OfferedAt(rows, session, k - 1, if pending then n - 1 else n, p)
                 || (pending && rows[k - 1].session == session && p == k - 1)
  {
    if p < k - 1 {
      OneNewer(rows, k, p);
    } else if p == k - 1 {
      assert Newer(rows, k, p) == {};
    }
  }

  ghost predicate OfferedAt(rows: seq<Row>, session: nat, k: nat, n: nat, p: nat) {
    p < k && p < |rows| && rows[p].status == Pending && rows[p].session == session && |Newer(rows, k, p)| < n
  }

  lemma FallingMore(rest: seq<nat>, k: nat)
    requires Falling(rest) && forall i :: 0 <= i < |rest| ==> rest[i] < k
    ensures Falling([k] + rest)
  {
  }

  lemma InFront(rest: seq<nat>, k: nat, p: nat)
    ensures p in [k] + rest <==> p == k || p in rest
  {
  }

  lemma OneNewer(rows: seq<Row>, k: nat, p: nat)
    requires p + 1 < k <= |rows|
    ensures |Newer(rows, k, p)| == |Newer(rows, k - 1, p)| + if rows[k - 1].status == Pending then 1 else 0
  {
    var top: set<nat> := if rows[k - 1].status == Pending then {k - 1} else {};
    assert Newer(rows, k, p) == Newer(rows, k - 1, p) + top;
    assert k - 1 !in Newer(rows, k - 1, p);
  }

  /** The rows of the turn below a place. */
  ghost function Older(rows: seq<Row>, turn: nat, p: nat): set<nat> {
    set i: nat | i < p && i < |rows| && rows[i].turn == turn
  }

  lemma {:induction false} CountIsSize(rows: seq<Row>, turn: nat, k: nat)
    requires k <= |rows|
    ensures CountTurn(rows, turn, k) == |Older(rows, turn, k)|
    decreases k
  {
    if k == 0 {
      assert Older(rows, turn, 0) == {};
    } else {
      CountIsSize(rows, turn, k - 1);
      var top: set<nat> := if rows[k - 1].turn == turn then {k - 1} else {};
      assert Older(rows, turn, k) == Older(rows, turn, k - 1) + top;
      assert k - 1 !in Older(rows, turn, k - 1);
    }
  }

  /** The rows of a turn: oldest first, this session's with fewer than 200 older ones of the turn. */
  lemma {:induction false} TurnListTells(rows: seq<Row>, session: nat, turn: nat, k: nat)
    requires k <= |rows|
    ensures Rising(OfTurn(rows, session, turn, k))
    ensures forall p: nat :: p in OfTurn(rows, session, turn, k) <==> ListedAt(rows, session, turn, k, p)
    decreases k
  {
    if k > 0 {
      var before := OfTurn(rows, session, turn, k - 1);
      TurnListTells(rows, session, turn, k - 1);
      CountIsSize(rows, turn, k - 1);
      RisingMore(before, k - 1);
      var last := rows[k - 1].turn == turn && rows[k - 1].session == session && |Older(rows, turn, k - 1)| < 200;
      assert OfTurn(rows, session, turn, k) == if last then before + [k - 1] else before;
      forall p: nat ensures ListedAt(rows, session, turn, k, p) <==> ListedAt(rows, session, turn, k - 1, p) || (last && p == k - 1) {
      }
      hide ListedAt, OfTurn;
    }
  }

  ghost predicate ListedAt(rows: seq<Row>, session: nat, turn: nat, k: nat, p: nat) {
    p < k && p < |rows| && rows[p].turn == turn && rows[p].session == session && |Older(rows, turn, p)| < 200
  }

  /** The list and the button agree: with at most 200 pending rows, the rows offered are
      exactly this session's rows that an approval at that moment would win. */
  lemma ListAgreesWithButton(rows: seq<Row>, session: nat, now: nat, pid: nat)
    requires pid < |rows| && rows[pid].session == session
    requires CountPending(Swepts(rows, now), |rows|) <= LIST_LIMIT
    ensures pid in Offered(Swepts(rows, now), session, |rows|, LIST_LIMIT)
            <==> Moved(rows[pid], Pending, Approved, now).Some?
  {
    var swept := Swepts(rows, now);
    AllOffered(swept, session, |rows|, LIST_LIMIT, pid);
  }

  function CountPending(rows: seq<Row>, k: nat): nat
    requires k <= |rows|
    decreases k
  {
    if k == 0 then 0 else CountPending(rows, k - 1) + if rows[k - 1].status.Pending? then 1 else 0
  }

  lemma {:induction false} AllOffered(rows: seq<Row>, session: nat, k: nat, n: nat, pid: nat)
    requires k <= |rows| && CountPending(rows, k) <= n && pid < |rows|
    ensures pid in Offered(rows, session, k, n)
            <==> pid < k && rows[pid].status.Pending? && rows[pid].session == session
    decreases k
  {
    if k > 0 && n > 0 {
      AllOffered(rows, session, k - 1, if rows[k - 1].status.Pending? then n - 1 else n, pid);
    } else if k > 0 {
      NonePending(rows, k);
    }
  }

  lemma {:induction false} NonePending(rows: seq<Row>, k: nat)
    requires k <= |rows| && CountPending(rows, k) == 0
    ensures forall i :: 0 <= i < k ==> !rows[i].status.Pending?
    decreases k
  {
    if k > 0 { NonePending(rows, k - 1); }
  }

  /** Once resolved, a row stays resolved, whatever is done to it and however late. */
  lemma ResolvedStays(r: Row, now: nat, later: nat, to: Status, expected: Status, result: int)
    requires !Unresolved(r, now) && now <= later && Edge(expected, to)
    ensures !Unresolved(r, later) && Moved(r, expected, to, later).None?
    ensures !Unresolved(Swept(r, later), later) && !Unresolved(Stored(r, result), later)
  {
  }

  /** What the list of a turn holds: this session's rows of the turn that have fewer than 200
      of its rows before them. */
  lemma {:induction false} OfTurnTells(rows: seq<Row>, session: nat, turn: nat, k: nat, p: nat)
    requires k <= |rows| && p < |rows|
    ensures p in OfTurn(rows, session, turn, k)
            <==> p < k && rows[p].turn == turn && rows[p].session == session && CountTurn(rows, turn, p) < LIST_LIMIT
    decreases k
  {
    if k > 0 { OfTurnTells(rows, session, turn, k - 1, p); }
  }

  lemma {:induction false} CountGrows(rows: seq<Row>, turn: nat, a: nat, b: nat)
    requires a <= b <= |rows|
    ensures CountTurn(rows, turn, a) + (if a < b && rows[a].turn == turn then 1 else 0) <= CountTurn(rows, turn, b)
    decreases b
  {
    if a < b { CountGrows(rows, turn, a, b - 1); }
  }
}

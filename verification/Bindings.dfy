/** The broker's trust-on-first-use map (signaling/server.py, class _Bindings): bounded,
    fail-closed when full of live ids, and saved to a file. */
module Bindings {
  import opened Prelude
  import opened OrderedDict

  const TOUCH_PERSIST_SECS: real := 3600.0

  datatype Entry = Entry(pubkey: string, seen: real)

  /** What one record of the file can hold; an absent pubkey is "", an absent time 0. */
  datatype Stored = NotAnObject | Stored(pubkey: string, seen: real)
  datatype File = Missing | Unreadable | Holding(items: Dict<Stored>)

  // ----- specification ----------------------------------------------------------------------

  function SaveForm(d: Dict<Entry>): Dict<Stored> {
    Dict(d.order, map k | k in d.of :: Stored(d.of[k].pubkey, d.of[k].seen))
  }

  predicate Usable(k: string, v: Stored) {
    k != "" && v.Stored? && v.pubkey != ""
  }

  function LoadItems(order: seq<string>, of: map<string, Stored>): Dict<Entry>
    requires forall k :: k in order ==> k in of
    decreases |order|
  {
    if order == [] then Empty()
    else
      var k := order[|order| - 1];
      assert k in order;
      var before := LoadItems(order[..|order| - 1], of);
      if Usable(k, of[k]) then Put(before, k, Entry(of[k].pubkey, of[k].seen)) else before
  }

  function LastKeys(order: seq<string>, n: nat): seq<string> {
    if |order| <= n then order else order[|order| - n..]
  }

  /** A missing or unreadable file starts empty. */
  ghost function Loaded(f: File, max: nat): Dict<Entry>
    requires f.Holding? ==> Valid(f.items)
  {
    if !f.Holding? then Empty() else LoadItems(LastKeys(f.items.order, max), f.items.of)
  }

  predicate Stale(e: Entry, now: real, ttl: real) {
    now - e.seen > ttl
  }

  function StaleKeys(order: seq<string>, of: map<string, Entry>, now: real, ttl: real): seq<string>
    requires forall k :: k in order ==> k in of
  {
    if order == [] then []
    else
      assert order[0] in order;
      (if Stale(of[order[0]], now, ttl) then [order[0]] else []) + StaleKeys(order[1..], of, now, ttl)
  }

  function DropAll(d: Dict<Entry>, ks: seq<string>): Dict<Entry>
    decreases |ks|
  {
    if ks == [] then d else DropAll(Drop(d, ks[0]), ks[1..])
  }

  ghost function Evicted(d: Dict<Entry>, now: real, ttl: real): Dict<Entry>
    requires Valid(d)
  {
    DropAll(d, StaleKeys(d.order, d.of, now, ttl))
  }

  /** What `bind` leaves and answers. */
  ghost function Bound(d: Dict<Entry>, id: string, pubkey: string, now: real, max: nat, ttl: real): (Dict<Entry>, bool)
    requires Valid(d)
  {
    if id in d.of then (d, true)
    else
      var room := if |d.of| >= max then Evicted(d, now, ttl) else d;
      if |room.of| >= max then (room, false) else (Put(room, id, Entry(pubkey, now)), true)
  }

  ghost function Touched(d: Dict<Entry>, id: string, now: real): Dict<Entry> {
    if id in d.of then Put(d, id, d.of[id].(seen := now)) else d
  }

  // ----- the class -----------------------------------------------------------------------------

  class BindingMap {
    const persisted: bool
    const max: nat
    const ttl: real
    var entries: Dict<Entry>
    var disk: File

    constructor (persisted: bool, file: File, max: nat, ttl: real)
      requires max > 0 && ttl > 0.0
      requires file.Holding? ==> Valid(file.items)
      ensures this.persisted == persisted && this.max == max && this.ttl == ttl && disk == file
      ensures entries == if persisted then Loaded(file, max) else Empty()
      ensures Valid(entries) && |entries.of| <= max
    {
      this.persisted, this.max, this.ttl, disk := persisted, max, ttl, file;
      entries := Empty();
      new;
      if persisted {
        LoadedBounded(file, max);
        Load();
      }
    }

    method Load()
      requires disk.Holding? ==> Valid(disk.items)
      modifies this`entries
      ensures entries == if disk.Holding? then Loaded(disk, max) else old(entries)
    {
      match disk {
        case Holding(items) =>
          var recent := LastKeys(items.order, max);
          assert forall k :: k in recent ==> k in items.order;
          var loaded: Dict<Entry> := Empty();
          for i := 0 to |recent|
            invariant loaded == LoadItems(recent[..i], items.of)
          {
            assert recent[..i + 1][..i] == recent[..i];
            var k := recent[i];
            assert k in recent;
            var v := items.of[k];
            if Usable(k, v) {
              loaded := Put(loaded, k, Entry(v.pubkey, v.seen));
            }
          }
          assert recent[..|recent|] == recent;
          entries := loaded;
        case _ =>
      }
    }

    /** `writable` is whether the operating system lets the file be replaced. */
    method Save(writable: bool)
      modifies this`disk
      ensures disk == if persisted && writable then Holding(SaveForm(entries)) else old(disk)
    {
      if persisted && writable {
        disk := Holding(SaveForm(entries));
      }
    }

    method Touch(id: string, now: real, writable: bool)
      modifies this
      ensures entries == Touched(old(entries), id, now)
      ensures disk == if id in old(entries).of && now - old(entries).of[id].seen >= TOUCH_PERSIST_SECS
                         && persisted && writable
                      then Holding(SaveForm(entries)) else old(disk)
    {
      if id !in entries.of {
        return;
      }
      var e := entries.of[id];
      if now - e.seen >= TOUCH_PERSIST_SECS {
        entries := Put(entries, id, e.(seen := now));
        Save(writable);
      } else {
        entries := Put(entries, id, e.(seen := now));
      }
    }

    method Bind(id: string, pubkey: string, now: real, writable: bool) returns (ok: bool)
      requires id != "" && pubkey != ""
      requires Valid(entries)
      modifies this
      ensures (entries, ok) == Bound(old(entries), id, pubkey, now, max, ttl)
      ensures disk == if ok && id !in old(entries).of && persisted && writable
                      then Holding(SaveForm(entries)) else old(disk)
    {
      if id in entries.of {
        return true;
      }
      if |entries.of| >= max {
        EvictStale(now);
      }
      if |entries.of| >= max {
        return false;
      }
      entries := Put(entries, id, Entry(pubkey, now));
      Save(writable);
      return true;
    }

    method EvictStale(now: real)
      requires Valid(entries)
      modifies this`entries
      ensures entries == Evicted(old(entries), now, ttl)
    {
      var stale := StaleKeys(entries.order, entries.of, now, ttl);
      ghost var before := entries;
      for i := 0 to |stale|
        invariant DropAll(before, stale) == DropAll(entries, stale[i..])
      {
        assert stale[i..][0] == stale[i] && stale[i..][1..] == stale[i + 1..];
        entries := Drop(entries, stale[i]);
      }
    }
  }

  // ----- one operation ----------------------------------------------------------------------

  lemma {:induction false} StaleKeysTell(order: seq<string>, of: map<string, Entry>, now: real, ttl: real)
    requires forall k :: k in order ==> k in of
    ensures forall k :: k in StaleKeys(order, of, now, ttl) <==> k in order && Stale(of[k], now, ttl)
    decreases |order|
  {
    if order != [] {
      assert order[0] in order;
      StaleKeysTell(order[1..], of, now, ttl);
    }
  }

  lemma {:induction false} DropAllTells(d: Dict<Entry>, ks: seq<string>)
    requires Valid(d)
    ensures Valid(DropAll(d, ks))
    ensures DropAll(d, ks).of == map k | k in d.of && k !in ks :: d.of[k]
    decreases |ks|
  {
    if ks != [] {
      DropValid(d, ks[0]);
      DropAllTells(Drop(d, ks[0]), ks[1..]);
      assert forall k :: k in ks <==> k == ks[0] || k in ks[1..];
    }
  }

  /** Eviction drops exactly the stale ids. */
  lemma EvictedTells(d: Dict<Entry>, now: real, ttl: real)
    requires Valid(d)
    ensures Valid(Evicted(d, now, ttl))
    ensures Evicted(d, now, ttl).of == map k | k in d.of && !Stale(d.of[k], now, ttl) :: d.of[k]
  {
    StaleKeysTell(d.order, d.of, now, ttl);
    DropAllTells(d, StaleKeys(d.order, d.of, now, ttl));
  }

  /** Either something stale went, or nothing changed. */
  lemma EvictedSize(d: Dict<Entry>, now: real, ttl: real)
    requires Valid(d)
    ensures var live := forall k :: k in d.of ==> !Stale(d.of[k], now, ttl);
            && (live ==> Evicted(d, now, ttl) == d)
            && (!live ==> |Evicted(d, now, ttl).of| < |d.of|)
  {
    var ks := StaleKeys(d.order, d.of, now, ttl);
    assert ks == [] || ks[0] in ks;
    StaleKeysTell(d.order, d.of, now, ttl);
    if k :| k in d.of && Stale(d.of[k], now, ttl) {
      EvictedTells(d, now, ttl);
      var e := Evicted(d, now, ttl);
      assert e.of.Keys <= d.of.Keys - {k};
      SubsetSize(e.of.Keys, d.of.Keys - {k});
      assert |e.of| == |e.of.Keys| && |d.of| == |d.of.Keys|;
    } else {
      assert ks == [];
    }
  }

  ghost predicate Inv(d: Dict<Entry>, max: nat) {
    && Valid(d) && |d.of| <= max
    && forall k :: k in d.of ==> k != "" && d.of[k].pubkey != ""
  }

  /** Binding: the map keeps its bound, a refusal changes nothing and happens exactly when
      the id is new and every place is held by a live id, an id already there keeps its
      key, and only a stale id can lose its place. */
  lemma BindTells(d: Dict<Entry>, id: string, pubkey: string, now: real, max: nat, ttl: real)
    requires Inv(d, max) && max > 0 && id != "" && pubkey != ""
    ensures var (d', ok) := Bound(d, id, pubkey, now, max, ttl);
            && Inv(d', max)
            && (!ok ==> d' == d)
            && (!ok <==> id !in d.of && |d.of| == max && forall k :: k in d.of ==> !Stale(d.of[k], now, ttl))
            && (ok && id !in d.of ==> id in d'.of && d'.of[id] == Entry(pubkey, now))
            && (forall k :: k in d.of && (k == id || !Stale(d.of[k], now, ttl)) ==> k in d'.of && d'.of[k] == d.of[k])
  {
    hide Inv, Stale, Evicted;
    if id !in d.of {
      if |d.of| < max {
        BindsInto(d, d, id, pubkey, now, max, ttl);
      } else {
        SizeWithin(d, max);
        EvictedTells(d, now, ttl);
        EvictedSize(d, now, ttl);
        EvictedInv(d, max, now, ttl);
        if |Evicted(d, now, ttl).of| < max {
          BindsInto(d, Evicted(d, now, ttl), id, pubkey, now, max, ttl);
        }
      }
    }
  }

  lemma SizeWithin(d: Dict<Entry>, max: nat)
    requires Inv(d, max)
    ensures Valid(d) && |d.of| <= max
  {
  }

  lemma EvictedInv(d: Dict<Entry>, max: nat, now: real, ttl: real)
    requires Inv(d, max)
    ensures Inv(Evicted(d, now, ttl), max)
  {
    hide Evicted;
    EvictedTells(d, now, ttl);
    EvictedSize(d, now, ttl);
  }

  /** A new id goes into a map that has room and lost nothing live. */
  lemma BindsInto(d: Dict<Entry>, room: Dict<Entry>, id: string, pubkey: string, now: real, max: nat, ttl: real)
    requires Inv(room, max) && |room.of| < max && id !in room.of && id != "" && pubkey != ""
    requires forall k :: k in d.of && !Stale(d.of[k], now, ttl) ==> k in room.of && room.of[k] == d.of[k]
    ensures var d' := Put(room, id, Entry(pubkey, now));
            && Inv(d', max) && d'.of[id] == Entry(pubkey, now)
            && forall k :: k in d.of && !Stale(d.of[k], now, ttl) ==> k in d'.of && (k != id ==> d'.of[k] == d.of[k])
  {
    hide Stale;
    PutGrows(room, id, Entry(pubkey, now));
  }

  lemma PutGrows(d: Dict<Entry>, id: string, e: Entry)
    requires Valid(d) && id !in d.of
    ensures Valid(Put(d, id, e)) && |Put(d, id, e).of| == |d.of| + 1
  {
    PutValid(d, id, e);
    assert Put(d, id, e).of.Keys == d.of.Keys + {id};
    assert |d.of| == |d.of.Keys|;
  }

  // ----- a whole run ---------------------------------------------------------------------------

  datatype Event = TouchAt(id: string, at: real) | BindAt(id: string, pubkey: string, at: real)

  ghost predicate Ordered(now: real, run: seq<Event>)
    decreases |run|
  {
    run == [] || (&& now <= run[0].at && (run[0].BindAt? ==> run[0].id != "" && run[0].pubkey != "")
                  && Ordered(run[0].at, run[1..]))
  }

  ghost function After(d: Dict<Entry>, e: Event, max: nat, ttl: real): Dict<Entry>
    requires Valid(d)
  {
    match e
    case TouchAt(id, at) => Touched(d, id, at)
    case BindAt(id, key, at) => Bound(d, id, key, at, max, ttl).0
  }

  lemma AfterKeeps(d: Dict<Entry>, e: Event, max: nat, ttl: real)
    requires Inv(d, max) && max > 0 && (e.BindAt? ==> e.id != "" && e.pubkey != "")
    ensures Inv(After(d, e, max, ttl), max)
  {
    match e {
      case TouchAt(id, at) =>
        if id in d.of {
          PutValid(d, id, d.of[id].(seen := at));
          assert Touched(d, id, at).of.Keys == d.of.Keys;
          assert |Touched(d, id, at).of.Keys| == |Touched(d, id, at).of| && |d.of.Keys| == |d.of|;
        }
      case BindAt(id, key, at) => BindTells(d, id, key, at, max, ttl);
    }
  }

  ghost function Final(d: Dict<Entry>, run: seq<Event>, now: real, max: nat, ttl: real): (r: Dict<Entry>)
    requires Inv(d, max) && max > 0 && Ordered(now, run)
    ensures Inv(r, max)
    decreases |run|
  {
    if run == [] then d
    else
      AfterKeeps(d, run[0], max, ttl);
      Final(After(d, run[0], max, ttl), run[1..], run[0].at, max, ttl)
  }

  /** From `last` on, the id is touched at least once per ttl. */
  ghost predicate TouchedOften(id: string, last: real, run: seq<Event>, ttl: real)
    decreases |run|
  {
    run == [] ||
    (&& run[0].at - last <= ttl
     && TouchedOften(id, if run[0] == TouchAt(id, run[0].at) then run[0].at else last, run[1..], ttl))
  }

  /** Binding stability: whatever else is bound or touched in between, an id that is
      touched at least once per ttl keeps its first key to the end of the run. */
  lemma {:induction false} KeyIsStable(d: Dict<Entry>, id: string, run: seq<Event>, now: real, max: nat, ttl: real)
    requires Inv(d, max) && max > 0 && Ordered(now, run)
    requires id in d.of && TouchedOften(id, d.of[id].seen, run, ttl)
    ensures var end := Final(d, run, now, max, ttl);
            id in end.of && end.of[id].pubkey == d.of[id].pubkey
    decreases |run|
  {
    if run != [] {
      var e := run[0];
      AfterKeeps(d, e, max, ttl);
      match e {
        case TouchAt(_, _) =>
        case BindAt(other, key, at) =>
          BindTells(d, other, key, at, max, ttl);
          assert !Stale(d.of[id], at, ttl);
      }
      KeyIsStable(After(d, e, max, ttl), id, run[1..], e.at, max, ttl);
    }
  }

  // ----- the file -----------------------------------------------------------------------------

  lemma {:induction false} LoadItemsBounded(order: seq<string>, of: map<string, Stored>)
    requires forall k :: k in order ==> k in of
    ensures var d := LoadItems(order, of);
            && Valid(d) && |d.of| <= |order|
            && (forall k :: k in d.of <==> k in order && Usable(k, of[k]))
            && (forall k :: k in d.of ==> d.of[k] == Entry(of[k].pubkey, of[k].seen))
    decreases |order|
  {
    if order != [] {
      var n := |order| - 1;
      var before := LoadItems(order[..n], of);
      assert order[n] in order && order == order[..n] + [order[n]];
      LoadItemsBounded(order[..n], of);
      if Usable(order[n], of[order[n]]) {
        LoadOne(before, order[n], Entry(of[order[n]].pubkey, of[order[n]].seen));
      }
    }
  }

  lemma LoadOne(before: Dict<Entry>, k: string, e: Entry)
    requires Valid(before)
    ensures var d := Put(before, k, e); Valid(d) && |d.of| <= |before.of| + 1 && d.of == before.of[k := e]
  {
    PutValid(before, k, e);
    assert Put(before, k, e).of.Keys == before.of.Keys + {k};
  }

  /** Whatever the file holds, the map starts within its bound. */
  lemma LoadedBounded(f: File, max: nat)
    requires f.Holding? ==> Valid(f.items)
    ensures Inv(Loaded(f, max), max)
  {
    if f.Holding? {
      var recent := LastKeys(f.items.order, max);
      assert forall k :: k in recent ==> k in f.items.order;
      LoadItemsBounded(recent, f.items.of);
    }
  }

  /** What is loaded from a readable file: of the records at the last `max` places, exactly the
      usable ones, each with its key and its time. */
  lemma LoadedTells(f: File, max: nat, k: string)
    requires f.Holding? && Valid(f.items)
    ensures var order, of, d := f.items.order, f.items.of, Loaded(f, max);
            (k in d.of <==> && k != "" && (exists i :: Max(0, |order| - max) <= i < |order| && order[i] == k)
                            && k in of && of[k].Stored? && of[k].pubkey != "")
            && (k in d.of ==> d.of[k] == Entry(of[k].pubkey, of[k].seen))
  {
    hide LoadItems, LastKeys;
    var order := f.items.order;
    InLastKeys(order, max, k);
    LastKeysInside(order, max);
    LoadItemsBounded(LastKeys(order, max), f.items.of);
  }

  lemma LastKeysInside(order: seq<string>, max: nat)
    ensures forall x :: x in LastKeys(order, max) ==> x in order
  {
  }

  lemma InLastKeys(order: seq<string>, max: nat, k: string)
    ensures k in LastKeys(order, max) <==> exists i :: Max(0, |order| - max) <= i < |order| && order[i] == k
  {
    var recent := LastKeys(order, max);
    var from := |order| - |recent|;
    assert recent == order[from..];
    if i :| from <= i < |order| && order[i] == k {
      assert recent[i - from] == k;
    }
    if k in recent {
      var i :| 0 <= i < |recent| && recent[i] == k;
      assert order[from + i] == k;
    }
  }

  lemma {:induction false} LoadKeepsOrder(d: Dict<Entry>, n: nat)
    requires Valid(d) && n <= |d.order|
    requires forall k :: k in d.of ==> k != "" && d.of[k].pubkey != ""
    ensures (forall k :: k in d.order[..n] ==> k in SaveForm(d).of) && LoadItems(d.order[..n], SaveForm(d).of).order == d.order[..n]
    decreases n
  {
    assert forall k :: k in d.order[..n] ==> k in d.order;
    if n > 0 {
      LoadKeepsOrder(d, n - 1);
      var before := d.order[..n - 1];
      assert d.order[..n] == before + [d.order[n - 1]] && d.order[..n][..n - 1] == before;
      assert d.order[n - 1] in d.order && d.order[n - 1] !in before;
      LoadNext(before, d.order[n - 1], SaveForm(d).of);
    }
  }

  lemma LoadNext(before: seq<string>, k: string, of: map<string, Stored>)
    requires forall x :: x in before + [k] ==> x in of
    requires k in of && Usable(k, of[k]) && k !in before
    ensures (forall x :: x in before ==> x in of)
    ensures LoadItems(before + [k], of).order == LoadItems(before, of).order + [k]
  {
    assert forall x :: x in before ==> x in before + [k];
    LoadItemsBounded(before, of);
    assert (before + [k])[..|before|] == before;
  }

  lemma SavedIsValid(d: Dict<Entry>)
    requires Valid(d)
    ensures Valid(SaveForm(d))
  {
    var saved := SaveForm(d);
    assert forall k :: k in saved.of <==> k in d.of;
  }

  /** Saving and loading gives back the same map: same ids, keys, times and order. */
  lemma LoadOfSave(d: Dict<Entry>, max: nat)
    requires Inv(d, max)
    ensures Valid(SaveForm(d)) && Loaded(Holding(SaveForm(d)), max) == d
  {
    var saved := SaveForm(d);
    SavedIsValid(d);
    SizeIsOrder(d);
    assert LastKeys(saved.order, max) == d.order;
    LoadKeepsOrder(d, |d.order|);
    assert d.order[..|d.order|] == d.order;
    LoadedContents(d);
  }

  lemma LoadedContents(d: Dict<Entry>)
    requires Valid(d)
    requires forall k :: k in d.of ==> k != "" && d.of[k].pubkey != ""
    ensures forall k :: k in d.order ==> k in SaveForm(d).of
    ensures LoadItems(d.order, SaveForm(d).of).of == d.of
  {
    hide LoadItems, SaveForm, Usable, Valid;
    SavedEntries(d);
    LoadItemsBounded(d.order, SaveForm(d).of);
    var l := LoadItems(d.order, SaveForm(d).of).of;
    assert l.Keys == d.of.Keys;
    assert forall k :: k in l ==> l[k] == d.of[k];
  }

  lemma SavedEntries(d: Dict<Entry>)
    requires Valid(d)
    requires forall k :: k in d.of ==> k != "" && d.of[k].pubkey != ""
    ensures forall k :: k in d.order <==> k in d.of
    ensures forall k :: k in d.of ==> k in SaveForm(d).of && Usable(k, SaveForm(d).of[k])
    ensures forall k :: k in d.of ==> Entry(SaveForm(d).of[k].pubkey, SaveForm(d).of[k].seen) == d.of[k]
  {
  }
}

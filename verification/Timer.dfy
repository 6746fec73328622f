/** TimerManager: an ordered set of timers keyed on fields of the timers themselves. A
    timer is named by its address, which also breaks ties. Times are unsigned 64-bit. */
module Timers {
  import opened Common

  type Id = nat   // the address of a Timer

  const MODULUS: nat := 0x1_0000_0000_0000_0000

  function Add64(a: nat, b: nat): nat { (a + b) % MODULUS }

  function Sub64(a: nat, b: nat): nat { (a - b) % MODULUS }

  /** A timer is live while it has its callback. */
  datatype Timer = Timer(next: nat, us: nat, recurring: bool, dg: Option<nat>)

  /** All timers there are, and the ordered set of the registered ones. */
  datatype Manager = Manager(timers: map<Id, Timer>, index: seq<Id>, tickled: bool, previous: nat)

  // ----- the ordered set -----

  /** Comparator: by time, then by address. */
  predicate Less(next: nat, a: Id, next': nat, a': Id) {
    next < next' || (next == next' && a < a')
  }

  predicate Before(ts: map<Id, Timer>, a: Id, b: Id)
    requires a in ts && b in ts
  {
    Less(ts[a].next, a, ts[b].next, b)
  }

  ghost predicate Sorted(ts: map<Id, Timer>, idx: seq<Id>) {
    && (forall i :: 0 <= i < |idx| ==> idx[i] in ts)
    && (forall i, j :: 0 <= i < j < |idx| ==> Before(ts, idx[i], idx[j]))
  }

  /** lower_bound(): the first position whose timer is not before (next, a). */
  function Position(ts: map<Id, Timer>, idx: seq<Id>, next: nat, a: Id): (p: nat)
    requires forall i :: 0 <= i < |idx| ==> idx[i] in ts
    ensures p <= |idx|
  {
    if idx == [] || !Less(ts[idx[0]].next, idx[0], next, a) then 0 else 1 + Position(ts, idx[1..], next, a)
  }

  lemma {:induction false} PositionSplits(ts: map<Id, Timer>, idx: seq<Id>, next: nat, a: Id)
    requires Sorted(ts, idx)
    ensures var p := Position(ts, idx, next, a);
            && (forall i :: 0 <= i < p ==> Less(ts[idx[i]].next, idx[i], next, a))
            && (forall i :: p <= i < |idx| ==> !Less(ts[idx[i]].next, idx[i], next, a))
  {
    if idx != [] && Less(ts[idx[0]].next, idx[0], next, a) {
      PositionSplits(ts, idx[1..], next, a);
    }
  }

  function Insert(ts: map<Id, Timer>, idx: seq<Id>, id: Id): seq<Id>
    requires id in ts && forall i :: 0 <= i < |idx| ==> idx[i] in ts
  {
    var p := Position(ts, idx, ts[id].next, id);
    idx[..p] + [id] + idx[p..]
  }

  /** find() by key: an equivalent element, if there is one. */
  function Find(ts: map<Id, Timer>, idx: seq<Id>, id: Id): Option<nat>
    requires id in ts && forall i :: 0 <= i < |idx| ==> idx[i] in ts
  {
    var p := Position(ts, idx, ts[id].next, id);
    if p < |idx| && !Less(ts[id].next, id, ts[idx[p]].next, idx[p]) then Some(p) else None
  }

  function Without(idx: seq<Id>, p: Option<nat>): seq<Id> {
    if p.Some? && p.value < |idx| then idx[..p.value] + idx[p.value + 1..] else idx
  }

  /** In a sorted index every member is found, and nothing else is. */
  lemma FindIsMembership(ts: map<Id, Timer>, idx: seq<Id>, id: Id)
    requires Sorted(ts, idx) && id in ts
    ensures Find(ts, idx, id).Some? <==> id in idx
    ensures Find(ts, idx, id).Some? ==> Find(ts, idx, id).value < |idx| && idx[Find(ts, idx, id).value] == id
  {
    PositionSplits(ts, idx, ts[id].next, id);
  }

  lemma InsertMembers(idx: seq<Id>, p: nat, id: Id)
    requires p <= |idx|
    ensures forall x :: x in idx[..p] + [id] + idx[p..] <==> x == id || x in idx
  {
    assert idx == idx[..p] + idx[p..];
  }

  /** An element at place p keeps the order if it belongs between its neighbours. */
  lemma InsertOrdered(ts: map<Id, Timer>, idx: seq<Id>, p: nat, id: Id, r: seq<Id>)
    requires Sorted(ts, idx) && id in ts && p <= |idx| && r == idx[..p] + [id] + idx[p..]
    requires forall i :: 0 <= i < p ==> Before(ts, idx[i], id)
    requires forall i :: p <= i < |idx| ==> Before(ts, id, idx[i])
    ensures Sorted(ts, r)
  {
    forall i | 0 <= i < |r| ensures r[i] == if i < p then idx[i] else if i == p then id else idx[i - 1] {}
    forall i, j | 0 <= i < j < |r| ensures Before(ts, r[i], r[j]) {
      if i != p && j != p {
        assert Before(ts, idx[if i < p then i else i - 1], idx[if j < p then j else j - 1]);
      }
    }
  }

  lemma InsertSorted(ts: map<Id, Timer>, idx: seq<Id>, id: Id)
    requires Sorted(ts, idx) && id in ts && id !in idx
    ensures Sorted(ts, Insert(ts, idx, id))
    ensures forall x :: x in Insert(ts, idx, id) <==> x == id || x in idx
  {
    var p := Position(ts, idx, ts[id].next, id);
    PositionSplits(ts, idx, ts[id].next, id);
    forall i | p <= i < |idx| ensures Before(ts, id, idx[i]) { assert idx[i] != id; }
    InsertOrdered(ts, idx, p, id, Insert(ts, idx, id));
    InsertMembers(idx, p, id);
  }

  lemma WithoutMembers(idx: seq<Id>, p: nat, id: Id)
    requires p < |idx| && idx[p] == id && forall i, j :: 0 <= i < j < |idx| ==> idx[i] != idx[j]
    ensures forall x :: x in Without(idx, Some(p)) <==> x != id && x in idx
  {
    var r := Without(idx, Some(p));
    forall x ensures x in r <==> x != id && x in idx {
      if x in r { var i :| 0 <= i < |r| && r[i] == x; assert x == idx[if i < p then i else i + 1]; }
      if x != id && x in idx { var i :| 0 <= i < |idx| && idx[i] == x; assert x == r[if i < p then i else i - 1]; }
    }
  }

  lemma WithoutSorted(ts: map<Id, Timer>, idx: seq<Id>, id: Id)
    requires Sorted(ts, idx) && id in ts && id in idx
    ensures Sorted(ts, Without(idx, Find(ts, idx, id)))
    ensures forall x :: x in Without(idx, Find(ts, idx, id)) <==> x != id && x in idx
  {
    FindIsMembership(ts, idx, id);
    var p := Find(ts, idx, id).value;
    var r := Without(idx, Find(ts, idx, id));
    forall i, j | 0 <= i < j < |r| ensures Before(ts, r[i], r[j]) {
      assert r[i] == idx[if i < p then i else i + 1] && r[j] == idx[if j < p then j else j + 1];
    }
    forall i, j | 0 <= i < j < |idx| ensures idx[i] != idx[j] { assert Before(ts, idx[i], idx[j]); }
    WithoutMembers(idx, p, id);
  }

  /** A change of timers outside the index does not disturb it. */
  lemma SortedElsewhere(ts: map<Id, Timer>, ts': map<Id, Timer>, idx: seq<Id>)
    requires Sorted(ts, idx) && forall x :: x in idx ==> x in ts' && ts'[x].next == ts[x].next
    ensures Sorted(ts', idx)
  {
  }

  // ----- operations -----

  /** The index holds exactly the live timers, in order. */
  ghost predicate Valid(m: Manager) {
    && Sorted(m.timers, m.index)
    && forall id :: id in m.index <==> id in m.timers && m.timers[id].dg.Some?
  }

  /** Insert a timer whose key is already set; the first one to become the front since the
      last nextTimer() asks for the wake-up. */
  function Enter(m: Manager, ts: map<Id, Timer>, idx: seq<Id>, id: Id): Manager
    requires id in ts && forall i :: 0 <= i < |idx| ==> idx[i] in ts
  {
    var r := Insert(ts, idx, id);
    Manager(ts, r, m.tickled || r[0] == id, m.previous)
  }

  function Registered(m: Manager, id: Id, us: nat, recurring: bool, dg: nat, now: nat): Manager
    requires id !in m.timers && forall i :: 0 <= i < |m.index| ==> m.index[i] in m.timers
  {
    Enter(m, m.timers[id := Timer(Add64(now, us), us, recurring, Some(dg))], m.index, id)
  }

  function Cancelled(m: Manager, id: Id): Manager
    requires id in m.timers && forall i :: 0 <= i < |m.index| ==> m.index[i] in m.timers
  {
    if m.timers[id].dg == None then m
    else m.(timers := m.timers[id := m.timers[id].(dg := None)], index := Without(m.index, Find(m.timers, m.index, id)))
  }

  function Refreshed(m: Manager, id: Id, now: nat): Manager
    requires id in m.timers && forall i :: 0 <= i < |m.index| ==> m.index[i] in m.timers
  {
    if m.timers[id].dg == None then m
    else
      var ts := m.timers[id := m.timers[id].(next := Add64(now, m.timers[id].us))];
      m.(timers := ts, index := Insert(ts, Without(m.index, Find(m.timers, m.index, id)), id))
  }

  function Reset(m: Manager, id: Id, us: nat, fromNow: bool, now: nat): Manager
    requires id in m.timers && forall i :: 0 <= i < |m.index| ==> m.index[i] in m.timers
  {
    var t := m.timers[id];
    if t.dg == None || (us == t.us && !fromNow) then m
    else
      var start := if fromNow then now else Sub64(t.next, t.us);
      var ts := m.timers[id := t.(us := us, next := Add64(start, us))];
      Enter(m, ts, Without(m.index, Find(m.timers, m.index, id)), id)
  }

  /** detectClockRollover(): the subtraction may wrap. */
  predicate RolledOver(previous: nat, now: nat, threshold: nat) {
    now < previous && now < Sub64(previous, threshold)
  }

  /** How many timers at the front are due. */
  function DueCount(ts: map<Id, Timer>, idx: seq<Id>, now: nat): (k: nat)
    requires forall i :: 0 <= i < |idx| ==> idx[i] in ts
    ensures k <= |idx|
  {
    if idx == [] || ts[idx[0]].next > now then 0 else 1 + DueCount(ts, idx[1..], now)
  }

  /** Expire one timer that is out of the index: a recurring one goes back in with its next
      deadline, any other one loses its callback. */
  function ExpireOne(ts: map<Id, Timer>, idx: seq<Id>, id: Id, now: nat): (r: (map<Id, Timer>, seq<Id>))
    requires id in ts && forall i :: 0 <= i < |idx| ==> idx[i] in ts
  {
    if ts[id].recurring then
      var ts' := ts[id := ts[id].(next := Add64(now, ts[id].us))];
      (ts', Insert(ts', idx, id))
    else (ts[id := ts[id].(dg := None)], idx)
  }

  /** Expire several, in order. */
  function Expire(ts: map<Id, Timer>, idx: seq<Id>, ex: seq<Id>, now: nat): (r: (map<Id, Timer>, seq<Id>))
    requires (forall i :: 0 <= i < |idx| ==> idx[i] in ts) && (forall i :: 0 <= i < |ex| ==> ex[i] in ts)
    ensures r.0.Keys == ts.Keys && forall i :: 0 <= i < |r.1| ==> r.1[i] in r.0
    decreases |ex|
  {
    if ex == [] then (ts, idx)
    else
      var (t1, i1) := Expire(ts, idx, ex[..|ex| - 1], now);
      ExpireOne(t1, i1, ex[|ex| - 1], now)
  }

  function Callbacks(ts: map<Id, Timer>, ex: seq<Id>): (r: seq<Option<nat>>)
    requires forall i :: 0 <= i < |ex| ==> ex[i] in ts
    ensures |r| == |ex| && forall i :: 0 <= i < |ex| ==> r[i] == ts[ex[i]].dg
  {
    if ex == [] then [] else Callbacks(ts, ex[..|ex| - 1]) + [ts[ex[|ex| - 1]].dg]
  }

  /** How many timers a call of processTimers() expires. */
  function ExpiredCount(m: Manager, now: nat, threshold: nat): (k: nat)
    requires forall i :: 0 <= i < |m.index| ==> m.index[i] in m.timers
    ensures k <= |m.index|
  {
    if RolledOver(m.previous, now, threshold) then |m.index| else DueCount(m.timers, m.index, now)
  }

  function Processed(m: Manager, now: nat, threshold: nat): Manager
    requires forall i :: 0 <= i < |m.index| ==> m.index[i] in m.timers
  {
    if m.index == [] then m
    else
      var k := ExpiredCount(m, now, threshold);
      var (ts, idx) := Expire(m.timers, m.index[k..], m.index[..k], now);
      Manager(ts, idx, m.tickled, now)
  }

  // ----- every operation keeps the index -----

  lemma EnterValid(m: Manager, ts: map<Id, Timer>, idx: seq<Id>, id: Id)
    requires Sorted(ts, idx) && id in ts && id !in idx && ts[id].dg.Some?
    requires forall x :: x in ts && x != id ==> (x in idx <==> ts[x].dg.Some?)
    ensures Valid(Enter(m, ts, idx, id))
  {
    InsertSorted(ts, idx, id);
  }

  lemma RegisteredValid(m: Manager, id: Id, us: nat, recurring: bool, dg: nat, now: nat)
    requires Valid(m) && id !in m.timers
    ensures Valid(Registered(m, id, us, recurring, dg, now))
  {
    var ts := m.timers[id := Timer(Add64(now, us), us, recurring, Some(dg))];
    SortedElsewhere(m.timers, ts, m.index);
    EnterValid(m, ts, m.index, id);
  }

  lemma CancelledValid(m: Manager, id: Id)
    requires Valid(m) && id in m.timers
    ensures Valid(Cancelled(m, id))
    ensures m.timers[id].dg.Some? ==> Find(m.timers, m.index, id).Some?
  {
    if m.timers[id].dg.Some? {
      FindIsMembership(m.timers, m.index, id);
      WithoutSorted(m.timers, m.index, id);
      SortedElsewhere(m.timers, Cancelled(m, id).timers, Cancelled(m, id).index);
    }
  }

  lemma MovedValid(m: Manager, id: Id, t: Timer)
    requires Valid(m) && id in m.timers && m.timers[id].dg.Some? && t.dg.Some?
    ensures var ts := m.timers[id := t];
            var idx := Without(m.index, Find(m.timers, m.index, id));
            && Find(m.timers, m.index, id).Some?
            && (forall i :: 0 <= i < |idx| ==> idx[i] in ts) && Valid(m.(timers := ts, index := Insert(ts, idx, id)))
            && Sorted(ts, idx) && id !in idx && (forall x :: x in idx ==> x in m.index)
  {
    var ts := m.timers[id := t];
    FindIsMembership(m.timers, m.index, id);
    WithoutSorted(m.timers, m.index, id);
    SortedElsewhere(m.timers, ts, Without(m.index, Find(m.timers, m.index, id)));
    InsertSorted(ts, Without(m.index, Find(m.timers, m.index, id)), id);
  }

  lemma RefreshedValid(m: Manager, id: Id, now: nat)
    requires Valid(m) && id in m.timers
    ensures Valid(Refreshed(m, id, now))
    ensures m.timers[id].dg.Some? ==> Find(m.timers, m.index, id).Some?
  {
    if m.timers[id].dg.Some? { MovedValid(m, id, m.timers[id].(next := Add64(now, m.timers[id].us))); }
  }

  lemma ResetValid(m: Manager, id: Id, us: nat, fromNow: bool, now: nat)
    requires Valid(m) && id in m.timers
    ensures Valid(Reset(m, id, us, fromNow, now))
    ensures m.timers[id].dg.Some? ==> Find(m.timers, m.index, id).Some?
  {
    var t := m.timers[id];
    if t.dg.Some? {
      MovedValid(m, id, t.(us := us, next := Add64(if fromNow then now else Sub64(t.next, t.us), us)));
    }
  }

  /** What expiring a list does, timer by timer. */
  lemma {:induction false} ExpireValid(ts: map<Id, Timer>, idx: seq<Id>, ex: seq<Id>, now: nat)
    requires Sorted(ts, idx) && (forall i :: 0 <= i < |ex| ==> ex[i] in ts && ex[i] !in idx)
    requires forall i, j :: 0 <= i < j < |ex| ==> ex[i] != ex[j]
    ensures var (ts', idx') := Expire(ts, idx, ex, now);
            && Sorted(ts', idx')
            && (forall x :: x in idx' <==> x in idx || (x in ex && ts[x].recurring))
            && (forall x :: x in ts && x !in ex ==> ts'[x] == ts[x])
            && (forall x :: x in ex ==>
              ts'[x] == if ts[x].recurring then ts[x].(next := Add64(now, ts[x].us)) else ts[x].(dg := None))
    decreases |ex|
  {
    if ex != [] {
      var pre := ex[..|ex| - 1];
      var id := ex[|ex| - 1];
      ExpireValid(ts, idx, pre, now);
      var (t1, i1) := Expire(ts, idx, pre, now);
      assert ex == pre + [id];
      assert id !in pre && t1[id] == ts[id] && id !in i1;
      var t2 := if t1[id].recurring then t1[id := t1[id].(next := Add64(now, t1[id].us))]
        else t1[id := t1[id].(dg := None)];
      SortedElsewhere(t1, t2, i1);
      if t1[id].recurring { InsertSorted(t2, i1, id); }
    }
  }

  lemma {:induction false} DueCountSplits(ts: map<Id, Timer>, idx: seq<Id>, now: nat)
    requires Sorted(ts, idx)
    ensures var k := DueCount(ts, idx, now);
            (forall i :: 0 <= i < k ==> ts[idx[i]].next <= now) &&
              (forall i :: k <= i < |idx| ==> ts[idx[i]].next > now)
  {
    if idx != [] && ts[idx[0]].next <= now { DueCountSplits(ts, idx[1..], now); }
    if idx != [] && ts[idx[0]].next > now {
      forall i | 0 <= i < |idx| ensures ts[idx[i]].next > now { if i > 0 { assert Before(ts, idx[0], idx[i]); } }
    }
  }

  /** processTimers() without a clock rollover expires exactly the live timers whose
      deadline has come; with one it expires all. They leave in the order of their deadlines, and of their
      addresses among equal ones. */
  lemma ExpiredAreDue(m: Manager, now: nat, threshold: nat)
    requires Valid(m)
    ensures var ex := m.index[..ExpiredCount(m, now, threshold)];
            && (forall x :: x in ex <==> x in m.timers && m.timers[x].dg.Some?
                                         && (RolledOver(m.previous, now, threshold) || m.timers[x].next <= now))
            && (forall i, j :: 0 <= i < j < |ex| ==>
              || m.timers[ex[i]].next < m.timers[ex[j]].next
              || (m.timers[ex[i]].next == m.timers[ex[j]].next && ex[i] < ex[j]))
  {
    var k := ExpiredCount(m, now, threshold);
    forall i, j | 0 <= i < j < k ensures Before(m.timers, m.index[i], m.index[j]) {}
    DueCountSplits(m.timers, m.index, now);
    assert m.index == m.index[..k] + m.index[k..];
  }

  /** The index cut in two: each half is sorted and they share nothing. */
  lemma SplitApart(m: Manager, ex: seq<Id>, rest: seq<Id>)
    requires Valid(m) && |ex| + |rest| == |m.index| && ex == m.index[..|ex|] && rest == m.index[|ex|..]
    ensures m.index == ex + rest && Sorted(m.timers, rest)
    ensures forall i :: 0 <= i < |ex| ==> ex[i] in m.timers && ex[i] !in rest
    ensures forall i, j :: 0 <= i < j < |ex| ==> ex[i] != ex[j]
  {
    forall i | 0 <= i < |ex| ensures ex[i] !in rest {
      forall j | 0 <= j < |rest| ensures rest[j] != ex[i] { assert Before(m.timers, m.index[i], m.index[|ex| + j]); }
    }
    forall i, j | 0 <= i < j < |ex| ensures ex[i] != ex[j] { assert Before(m.timers, m.index[i], m.index[j]); }
  }

  lemma ProcessedValid(m: Manager, now: nat, threshold: nat)
    requires Valid(m)
    ensures Valid(Processed(m, now, threshold))
  {
    var k := ExpiredCount(m, now, threshold);
    var rest := m.index[k..];
    var ex := m.index[..k];
    SplitApart(m, ex, rest);
    ExpireValid(m.timers, rest, ex, now);
    if m.index != [] { ProcessedMembers(m, Processed(m, now, threshold), ex, rest); }
  }

  lemma ProcessedMembers(m: Manager, m': Manager, ex: seq<Id>, rest: seq<Id>)
    requires Valid(m) && m.index == ex + rest && Sorted(m'.timers, m'.index) && m'.timers.Keys == m.timers.Keys
    requires forall x :: x in ex ==> x !in rest
    requires forall x :: x in m'.index <==> x in rest || (x in ex && m.timers[x].recurring)
    requires forall x :: x in m.timers && x !in ex ==> m'.timers[x] == m.timers[x]
    requires forall x :: x in ex ==> (m'.timers[x].dg.Some? <==> m.timers[x].recurring && m.timers[x].dg.Some?)
    ensures Valid(m')
  {
  }

  // ----- the class -----

  class TimerManager {
    var timers: map<Id, Timer>
    var index: seq<Id>
    var tickled: bool
    var previous: nat
    const threshold: nat

    function State(): Manager
      reads this
    {
      Manager(timers, index, tickled, previous)
    }

    constructor (clockRolloverThreshold: nat)
      ensures State() == Manager(map[], [], false, 0) && Valid(State()) && threshold == clockRolloverThreshold
    {
      timers, index, tickled, previous := map[], [], false, 0;
      threshold := clockRolloverThreshold;
    }

    /** `id` is where the new timer was allocated; the result says whether the derived
        class is told that a timer came to the front. */
    method RegisterTimer(id: Id, us: nat, dg: nat, recurring: bool, now: nat) returns (atFront: bool)
      requires Valid(State()) && id !in timers
      modifies this
      ensures State() == Registered(old(State()), id, us, recurring, dg, now) && Valid(State())
      ensures timers == old(timers)[id := Timer((now + us) % MODULUS, us, recurring, Some(dg))]
      ensures atFront <==> tickled && !old(tickled)
    {
      RegisteredValid(State(), id, us, recurring, dg, now);
      timers := timers[id := Timer(Add64(now, us), us, recurring, Some(dg))];
      index := Insert(timers, index, id);
      atFront := index[0] == id && !tickled;
      if atFront { tickled := true; }
    }

    method Cancel(id: Id) returns (ok: bool)
      requires Valid(State()) && id in timers
      modifies this
      ensures State() == Cancelled(old(State()), id) && Valid(State())
      ensures ok <==> old(timers)[id].dg.Some?
      ensures timers == old(timers)[id := old(timers)[id].(dg := None)] && id !in index
    {
      CancelledValid(State(), id);
      if timers[id].dg == None { return false; }
      var it := Find(timers, index, id);
      assert it.Some?;
      timers := timers[id := timers[id].(dg := None)];
      index := Without(index, it);
      ok := true;
    }

    method Refresh(id: Id, now: nat) returns (ok: bool)
      requires Valid(State()) && id in timers
      modifies this
      ensures State() == Refreshed(old(State()), id, now) && Valid(State())
      ensures ok <==> old(timers)[id].dg.Some?
      ensures ok ==> timers == old(timers)[id := old(timers)[id].(next := Add64(now, old(timers)[id].us))]
    {
      hide Add64, Insert, Find, Without, Valid;
      if timers[id].dg == None { return false; }
      Rekey(id, timers[id].(next := Add64(now, timers[id].us)));
      ok := true;
    }

    /** Out of the index under the old deadline, back in under the new one. */
    method Rekey(id: Id, t: Timer)
      requires Valid(State()) && id in timers && timers[id].dg.Some? && t.dg.Some?
      modifies this`timers, this`index
      ensures Valid(State()) && timers == old(timers)[id := t] && index != []
      ensures var idx := Without(old(index), Find(old(timers), old(index), id));
              (forall i :: 0 <= i < |idx| ==> idx[i] in timers) && index == Insert(timers, idx, id)
    {
      MovedValid(State(), id, t);
      var it := Find(timers, index, id);
      assert it.Some?;
      index := Without(index, it);
      timers := timers[id := t];
      index := Insert(timers, index, id);
    }

    method ResetTimer(id: Id, us: nat, fromNow: bool, now: nat) returns (ok: bool, atFront: bool)
      requires Valid(State()) && id in timers
      modifies this
      ensures State() == Reset(old(State()), id, us, fromNow, now) && Valid(State())
      ensures ok <==> old(timers)[id].dg.Some?
      ensures ok && fromNow ==> timers == old(timers)[id := old(timers)[id].(us := us, next := Add64(now, us))]
      ensures atFront <==> tickled && !old(tickled)
    {
      hide Add64, Sub64, Insert, Find, Without;
      atFront := false;
      if timers[id].dg == None { return false, false; }
      if us == timers[id].us && !fromNow { return true, false; }
      var start := if fromNow then now else Sub64(timers[id].next, timers[id].us);
      Rekey(id, timers[id].(us := us, next := Add64(start, us)));
      atFront := index[0] == id && !tickled;
      if atFront { tickled := true; }
      ok := true;
    }

    /** How long until the next timer is due, all ones if there is none. */
    method NextTimer(now: nat) returns (r: nat)
      requires Valid(State())
      modifies this`tickled
      ensures !tickled
      ensures index == [] ==> r == MODULUS - 1
      ensures index != [] ==>
                && (forall id :: id in timers && timers[id].dg.Some? ==> now + r <= timers[id].next || r == 0)
                && (exists id :: id in timers && timers[id].dg.Some? && timers[id].next <= now + r)
                && (r == 0 <==> timers[index[0]].next <= now)
    {
      tickled := false;
      if index == [] { return MODULUS - 1; }
      var front := timers[index[0]].next;
      forall id | id in timers && timers[id].dg.Some? ensures front <= timers[id].next {
        var i :| 0 <= i < |index| && index[i] == id;
        if i > 0 { assert Before(timers, index[0], index[i]); }
      }
      assert index[0] in index;
      r := if now >= front then 0 else front - now;
    }

    /** The lookup with a dummy timer at address `sentinel`, then the step over the timers due
        right now: all that are due, whatever the address. */
    method FindExpired(now: nat, sentinel: Id) returns (it: nat)
      requires Valid(State())
      ensures it == DueCount(timers, index, now)
    {
      PositionSplits(timers, index, now, sentinel);
      it := Position(timers, index, now, sentinel);
      while it < |index| && timers[index[it]].next == now
        invariant it <= |index|
        invariant forall i :: 0 <= i < it ==> timers[index[i]].next <= now
        invariant forall i :: it <= i < |index| ==> timers[index[i]].next >= now
        decreases |index| - it
      {
        it := it + 1;
      }
      forall i | it <= i < |index| ensures timers[index[i]].next > now {
        if i > it { assert Before(timers, index[it], index[i]); }
      }
      StopsAtDue(timers, index, now, it);
    }

    method ProcessTimers(now: nat, sentinel: Id) returns (result: seq<Option<nat>>)
      requires Valid(State())
      modifies this
      ensures State() == Processed(old(State()), now, threshold) && Valid(State())
      ensures result == Callbacks(old(timers), old(index)[..ExpiredCount(old(State()), now, threshold)])
      ensures None !in result
    {
      result := [];
      ProcessedValid(State(), now, threshold);
      if index == [] { return; }
      var rollover := RolledOver(previous, now, threshold);
      previous := now;
      if !rollover && timers[index[0]].next > now {
        NothingDue(old(State()), now, threshold);
        return;
      }
      var it := |index|;
      if !rollover { it := FindExpired(now, sentinel); }
      assert index == index[..it] + index[it..];
      result := ExpireLoop(index[..it], index[it..], now);
    }

    /** The second half of processTimers(): collect the callbacks, re-register or retire. */
    method ExpireLoop(expired: seq<Id>, rest: seq<Id>, now: nat) returns (result: seq<Option<nat>>)
      requires Valid(State()) && index == expired + rest
      modifies this`timers, this`index
      ensures (timers, index) == Expire(old(timers), rest, expired, now)
      ensures result == Callbacks(old(timers), expired) && None !in result
    {
      result := [];
      ExpiredFacts(State(), expired, rest);
      index := rest;
      ghost var was := timers;
      var i := 0;
      while i < |expired|
        invariant i <= |expired|
        invariant (timers, index) == Expire(old(timers), rest, expired[..i], now)
        invariant forall j :: i <= j < |expired| ==> timers[expired[j]] == old(timers)[expired[j]]
        invariant result == Callbacks(old(timers), expired[..i]) && None !in result
      {
        assert expired[..i + 1][..i] == expired[..i] && expired[..i + 1][i] == expired[i];
        assert timers[expired[i]] == was[expired[i]];
        result := result + [timers[expired[i]].dg];
        RenewOrRetire(expired[i], now);
        i := i + 1;
      }
      assert expired[..i] == expired;
    }

    method RenewOrRetire(id: Id, now: nat)
      requires id in timers && forall i :: 0 <= i < |index| ==> index[i] in timers
      modifies this`timers, this`index
      ensures (timers, index) == ExpireOne(old(timers), old(index), id, now)
      ensures timers.Keys == old(timers).Keys && forall x :: x in timers && x != id ==> timers[x] == old(timers)[x]
    {
      if timers[id].recurring {
        timers := timers[id := timers[id].(next := Add64(now, timers[id].us))];
        index := Insert(timers, index, id);
      } else {
        timers := timers[id := timers[id].(dg := None)];
      }
    }
  }

  lemma ExpiredFacts(m: Manager, expired: seq<Id>, rest: seq<Id>)
    requires Valid(m) && m.index == expired + rest
    ensures forall j :: 0 <= j < |expired| ==> expired[j] in m.timers && m.timers[expired[j]].dg.Some?
    ensures forall i, j :: 0 <= i < j < |expired| ==> expired[i] != expired[j]
    ensures forall j :: 0 <= j < |rest| ==> rest[j] in m.timers
  {
    forall j | 0 <= j < |expired| ensures expired[j] in m.timers && m.timers[expired[j]].dg.Some? {
      assert m.index[j] == expired[j] && m.index[j] in m.index;
    }
    forall i, j | 0 <= i < j < |expired|
      ensures expired[i] != expired[j]
    {
      assert Before(m.timers, m.index[i], m.index[j]);
    }
    forall j | 0 <= j < |rest| ensures rest[j] in m.timers { assert m.index[|expired| + j] == rest[j]; }
  }

  lemma NothingDue(m: Manager, now: nat, threshold: nat)
    requires Valid(m) && m.index != [] && !RolledOver(m.previous, now, threshold) && m.timers[m.index[0]].next > now
    ensures ExpiredCount(m, now, threshold) == 0 && Processed(m, now, threshold) == m.(previous := now)
  {
    assert m.index[0..] == m.index && m.index[..0] == [];
  }

  /** Stepping over the timers due right now ends after the last due one, wherever among
      them the lookup landed. */
  lemma {:induction false} StopsAtDue(ts: map<Id, Timer>, idx: seq<Id>, now: nat, it: nat)
    requires Sorted(ts, idx) && it <= |idx|
    requires (forall i :: 0 <= i < it ==> ts[idx[i]].next <= now) &&
             (forall i :: it <= i < |idx| ==> ts[idx[i]].next > now)
    ensures it == DueCount(ts, idx, now)
  {
    if it > 0 { StopsAtDue(ts, idx[1..], now, it - 1); }
  }

  // ----- the rollover test -----

  /** The code takes a step back of the clock for a rollover if it is larger than the
      threshold, and also whenever the previous time is below the threshold. */
  lemma RolledOverExactly(previous: nat, now: nat, threshold: nat)
    requires previous < MODULUS && threshold < MODULUS
    ensures RolledOver(previous, now, threshold) <==>
            now < previous && (previous < threshold || previous - now > threshold)
  {
    if previous < threshold {
      assert (previous - threshold) % MODULUS == previous - threshold + MODULUS;
    } else {
      assert (previous - threshold) % MODULUS == previous - threshold;
    }
  }

  /** The documented rule: the clock went back by at least the threshold. */
  predicate ShouldRollOver(previous: nat, now: nat, threshold: nat) {
    now < previous && previous - now >= threshold
  }

  /** Code and documentation agree exactly when a step back of the clock starts from at
      least the threshold and is not equal to it. */
  lemma RolloverRuleDiffers(previous: nat, now: nat, threshold: nat)
    requires previous < MODULUS && threshold < MODULUS
    ensures (RolledOver(previous, now, threshold) <==> ShouldRollOver(previous, now, threshold)) <==>
            (now < previous ==> previous >= threshold && previous - now != threshold)
  {
    RolledOverExactly(previous, now, threshold);
  }

  /** With the default threshold: one microsecond of jitter soon after start expires
      everything, and a step back of exactly the threshold does not. */
  lemma RolloverExamples()
    ensures RolledOver(1000, 999, 5000000) && !ShouldRollOver(1000, 999, 5000000)
    ensures !RolledOver(6000000, 1000000, 5000000) && ShouldRollOver(6000000, 1000000, 5000000)
  {
    RolledOverExactly(1000, 999, 5000000);
    RolledOverExactly(6000000, 1000000, 5000000);
  }

  // ----- no missed wake-up -----

  datatype Op =
    | OpRegister(id: Id, us: nat, recurring: bool, dg: nat, now: nat)
    | OpCancel(id: Id)
    | OpRefresh(id: Id, now: nat)
    | OpReset(id: Id, us: nat, fromNow: bool, now: nat)
    | OpNextTimer(now: nat)
    | OpProcess(now: nat)

  /** `clock` is the latest time read. Auxiliary: `asked` says nextTimer() has been called,
      `front` is the deadline it saw first, if there was one. */
  datatype System = System(m: Manager, clock: nat, asked: bool, front: Option<nat>)

  predicate InIndex(m: Manager) { forall i :: 0 <= i < |m.index| ==> m.index[i] in m.timers }

  /** The clock does not go back and deadlines stay below 2^64. The clock is read before the
      lock is taken when a timer is registered or timers are processed, so it may be old there, older
      even than the time of an earlier processTimers(). */
  predicate Allowed(s: System, op: Op) {
    && InIndex(s.m)
    && match op
       case OpRegister(id, us, _, _, now) => id !in s.m.timers && now + us < MODULUS
       case OpCancel(id) => id in s.m.timers
       case OpRefresh(id, now) => id in s.m.timers && s.clock <= now && now + s.m.timers[id].us < MODULUS
       case OpReset(id, us, fromNow, now) =>
         id in s.m.timers && s.clock <= now && now + us < MODULUS
       case OpNextTimer(now) => s.clock <= now
       case OpProcess(now) => forall id :: id in s.m.timers ==> now + s.m.timers[id].us < MODULUS
  }

  function Max(a: nat, b: nat): nat { if a < b then b else a }

  function Do(s: System, op: Op, threshold: nat): System
    requires Allowed(s, op)
  {
    match op
    case OpRegister(id, us, recurring, dg, now) =>
      s.(m := Registered(s.m, id, us, recurring, dg, now), clock := Max(s.clock, now))
    case OpCancel(id) => s.(m := Cancelled(s.m, id))
    case OpRefresh(id, now) => s.(m := Refreshed(s.m, id, now), clock := now)
    case OpReset(id, us, fromNow, now) => s.(m := Reset(s.m, id, us, fromNow, now), clock := now)
    case OpNextTimer(now) =>
      System(s.m.(tickled := false), now, true, if s.m.index == [] then None else Some(s.m.timers[s.m.index[0]].next))
    case OpProcess(now) => s.(m := Processed(s.m, now, threshold), clock := Max(s.clock, now))
  }

  predicate StartedBy(t: Timer, clock: nat) {
    t.us <= t.next < MODULUS && t.next - t.us <= clock
  }

  /** Every live timer was started no later than now. */
  ghost predicate StartedInPast(s: System) {
    forall id :: id in s.m.timers && s.m.timers[id].dg.Some? ==> StartedBy(s.m.timers[id], s.clock)
  }

  lemma NoWrap(a: nat, b: nat)
    requires a + b < MODULUS
    ensures Add64(a, b) == a + b
  {
  }

  lemma NoBorrow(a: nat, b: nat)
    requires b <= a < MODULUS
    ensures Sub64(a, b) == a - b
  {
  }

  /** After nextTimer(): the wake-up has been asked for, or no live timer is due before the
      one that call saw first. */
  ghost predicate NoneMissed(s: System) {
    s.asked ==> s.m.tickled || forall id :: id in s.m.timers && s.m.timers[id].dg.Some? ==>
                  s.front.Some? && s.front.value <= s.m.timers[id].next
  }

  ghost predicate SystemInv(s: System) {
    Valid(s.m) && StartedInPast(s) && NoneMissed(s)
  }

  /** The front of the index is the earliest deadline. */
  lemma FrontIsEarliest(m: Manager, id: Id)
    requires Valid(m) && id in m.timers && m.timers[id].dg.Some?
    ensures m.index != [] && m.index[0] in m.timers && m.timers[m.index[0]].next <= m.timers[id].next
  {
    var i :| 0 <= i < |m.index| && m.index[i] == id;
    if i > 0 { assert Before(m.timers, m.index[0], m.index[i]); }
  }

  /** A timer entered anywhere but at the front is due no earlier than some other one. */
  lemma EnterMissesNone(s: System, s': System, ts: map<Id, Timer>, idx: seq<Id>, id: Id)
    requires NoneMissed(s) && s'.asked == s.asked && s'.front == s.front
    requires id in ts && (forall i :: 0 <= i < |idx| ==> idx[i] in ts)
    requires s'.m == Enter(s.m, ts, idx, id) && Valid(s'.m)
    requires forall x :: x in ts && x != id && ts[x].dg.Some? ==> x in s.m.timers && s.m.timers[x] == ts[x]
    ensures NoneMissed(s')
  {
    if s'.asked && !s'.m.tickled {
      forall x | x in ts && ts[x].dg.Some? ensures s'.front.Some? && s'.front.value <= ts[x].next {
        FrontIsEarliest(s'.m, x);
        assert s'.m.index[0] != id && s'.m.index[0] in s'.m.index;
      }
    }
  }

  lemma RegisterMissesNone(s: System, id: Id, us: nat, recurring: bool, dg: nat, now: nat, threshold: nat)
    requires SystemInv(s) && Allowed(s, OpRegister(id, us, recurring, dg, now))
    ensures SystemInv(Do(s, OpRegister(id, us, recurring, dg, now), threshold))
  {
    var s' := Do(s, OpRegister(id, us, recurring, dg, now), threshold);
    NoWrap(now, us);
    RegisteredValid(s.m, id, us, recurring, dg, now);
    EnterMissesNone(s, s', s'.m.timers, s.m.index, id);
  }

  /** With no wrap-around a reset timer starts from now, or from where it did. */
  lemma ResetMoves(m: Manager, id: Id, us: nat, fromNow: bool, now: nat, clock: nat) returns (t': Timer)
    requires Valid(m) && id in m.timers && m.timers[id].dg.Some? && !(us == m.timers[id].us && !fromNow)
    requires StartedBy(m.timers[id], clock) && clock <= now && now + us < MODULUS
    ensures StartedBy(t', now) && t'.dg.Some?
    ensures var ts := m.timers[id := t'];
            var idx := Without(m.index, Find(m.timers, m.index, id));
            && (forall i :: 0 <= i < |idx| ==> idx[i] in ts) && Reset(m, id, us, fromNow, now) == Enter(m, ts, idx, id)
  {
    var t := m.timers[id];
    var start := if fromNow then now else Sub64(t.next, t.us);
    NoBorrow(t.next, t.us);
    NoWrap(start, us);
    t' := t.(us := us, next := Add64(start, us));
    MovedValid(m, id, t');
  }

  lemma ResetMissesNone(s: System, id: Id, us: nat, fromNow: bool, now: nat, threshold: nat)
    requires SystemInv(s) && Allowed(s, OpReset(id, us, fromNow, now))
    ensures SystemInv(Do(s, OpReset(id, us, fromNow, now), threshold))
  {
    var s' := Do(s, OpReset(id, us, fromNow, now), threshold);
    var t := s.m.timers[id];
    ResetValid(s.m, id, us, fromNow, now);
    if t.dg.Some? && !(us == t.us && !fromNow) {
      assert StartedBy(t, s.clock);
      var t' := ResetMoves(s.m, id, us, fromNow, now, s.clock);
      EnterMissesNone(s, s', s.m.timers[id := t'], Without(s.m.index, Find(s.m.timers, s.m.index, id)), id);
    }
  }

  lemma RefreshMissesNone(s: System, id: Id, now: nat, threshold: nat)
    requires SystemInv(s) && Allowed(s, OpRefresh(id, now))
    ensures SystemInv(Do(s, OpRefresh(id, now), threshold))
  {
    var t := s.m.timers[id];
    RefreshedValid(s.m, id, now);
    if t.dg.Some? {
      assert StartedBy(t, s.clock);
      NoWrap(now, t.us);
      assert t.next <= now + t.us;
    }
  }

  /** No clock rollover is detected, or no recurring timer gets a deadline before the one that
      nextTimer() saw first. */
  predicate Steady(s: System, op: Op, threshold: nat) {
    op.OpProcess? && RolledOver(s.m.previous, op.now, threshold) && s.asked && !s.m.tickled ==>
      forall x :: x in s.m.timers && s.m.timers[x].dg.Some? && s.m.timers[x].recurring ==>
        s.front.Some? && s.front.value <= op.now + s.m.timers[x].us
  }

  /** What processTimers() leaves of the live timers. */
  lemma ProcessedLive(s: System, now: nat, threshold: nat, x: Id)
    requires SystemInv(s) && Allowed(s, OpProcess(now)) && x in s.m.timers
    ensures var t, t' := s.m.timers[x], Processed(s.m, now, threshold).timers[x];
            && x in Processed(s.m, now, threshold).timers
            && (t'.dg.Some? ==> t.dg.Some? && StartedBy(t', Max(s.clock, now)))
            && (t'.dg.Some? && !RolledOver(s.m.previous, now, threshold) ==> t.next <= t'.next)
            && (t.dg.Some? && RolledOver(s.m.previous, now, threshold) ==>
                  if t.recurring then t' == t.(next := now + t.us) else t'.dg == None)
  {
    ProcessedTimers(s.m, now, threshold);
    NoWrap(now, s.m.timers[x].us);
    if s.m.timers[x].dg.Some? {
      assert StartedBy(s.m.timers[x], s.clock);
      FrontIsEarliest(s.m, x);
    }
  }

  /** processTimers() keeps the promise exactly if it is steady. */
  lemma ProcessMissesNoneIff(s: System, now: nat, threshold: nat)
    requires SystemInv(s) && Allowed(s, OpProcess(now))
    ensures SystemInv(Do(s, OpProcess(now), threshold)) <==> Steady(s, OpProcess(now), threshold)
  {
    var s' := Do(s, OpProcess(now), threshold);
    ProcessedValid(s.m, now, threshold);
    ProcessedTimers(s.m, now, threshold);
    forall x | x in s.m.timers
      ensures var t, t' := s.m.timers[x], s'.m.timers[x];
              && (t'.dg.Some? ==> t.dg.Some? && StartedBy(t', s'.clock))
              && (t'.dg.Some? && !RolledOver(s.m.previous, now, threshold) ==> t.next <= t'.next)
              && (t.dg.Some? && RolledOver(s.m.previous, now, threshold) ==>
                    if t.recurring then t' == t.(next := now + t.us) else t'.dg == None)
    {
      ProcessedLive(s, now, threshold, x);
    }
  }

  /** A timer is untouched, retired, or moved to a deadline that starts now; without a rollover that
      happens only to one whose deadline has come, with one to all. */
  lemma ProcessedTimers(m: Manager, now: nat, threshold: nat)
    requires Valid(m)
    ensures var m' := Processed(m, now, threshold);
            && m'.timers.Keys == m.timers.Keys && m'.tickled == m.tickled
            && forall x :: x in m.timers ==>
                 if m.timers[x].dg.Some? && (RolledOver(m.previous, now, threshold) || m.timers[x].next <= now) then
                   if m.timers[x].recurring then m'.timers[x] == m.timers[x].(next := Add64(now, m.timers[x].us))
                   else m'.timers[x].dg == None
                 else m'.timers[x] == m.timers[x]
  {
    var k := ExpiredCount(m, now, threshold);
    var rest := m.index[k..];
    var ex := m.index[..k];
    ExpiredAreDue(m, now, threshold);
    SplitApart(m, ex, rest);
    ExpireValid(m.timers, rest, ex, now);
  }

  /** Every operation, with a clock that does not go back, keeps the promise exactly if it is steady. */
  lemma DoMissesNoneIff(s: System, op: Op, threshold: nat)
    requires SystemInv(s) && Allowed(s, op)
    ensures SystemInv(Do(s, op, threshold)) <==> Steady(s, op, threshold)
  {
    match op
    case OpRegister(id, us, recurring, dg, now) => RegisterMissesNone(s, id, us, recurring, dg, now, threshold);
    case OpCancel(id) => CancelledValid(s.m, id);
    case OpRefresh(id, now) => RefreshMissesNone(s, id, now, threshold);
    case OpReset(id, us, fromNow, now) => ResetMissesNone(s, id, us, fromNow, now, threshold);
    case OpNextTimer(now) =>
      forall id | id in s.m.timers && s.m.timers[id].dg.Some?
        ensures s.m.index != [] && s.m.timers[s.m.index[0]].next <= s.m.timers[id].next
      {
        FrontIsEarliest(s.m, id);
      }
    case OpProcess(now) => ProcessMissesNoneIff(s, now, threshold);
  }

  ghost predicate Follows(s: System, op: Op, s': System, threshold: nat) {
    Allowed(s, op) && s' == Do(s, op, threshold)
  }

  ghost predicate Step(s: System, s': System, threshold: nat) { exists op :: Follows(s, op, s', threshold) }

  ghost predicate IsRun(tr: seq<System>, threshold: nat) {
    && tr != [] && tr[0] == System(Manager(map[], [], false, 0), 0, false, None)
    && forall i :: 0 <= i < |tr| - 1 ==> Step(tr[i], tr[i + 1], threshold)
  }

  ghost predicate SteadyTo(tr: seq<System>, threshold: nat, n: nat) {
    forall i, op | 0 <= i < n && i + 1 < |tr| && Follows(tr[i], op, tr[i + 1], threshold) ::
      Steady(tr[i], op, threshold)
  }

  lemma {:induction false} SteadyHolds(tr: seq<System>, threshold: nat, i: nat)
    requires IsRun(tr, threshold) && i < |tr| && SteadyTo(tr, threshold, i)
    ensures SystemInv(tr[i])
  {
    if i > 0 {
      SteadyHolds(tr, threshold, i - 1);
      assert Step(tr[i - 1], tr[i - 1 + 1], threshold);
      var op :| Follows(tr[i - 1], op, tr[i - 1 + 1], threshold);
      DoMissesNoneIff(tr[i - 1], op, threshold);
    }
  }

  /** In a run the index agrees with the live timers and no wake-up is missed, ever, exactly if no
      processTimers() that takes an old reading of the clock for a rollover brings a deadline forward. */
  lemma NoWakeUpMissed(tr: seq<System>, threshold: nat)
    requires IsRun(tr, threshold)
    ensures (forall i :: 0 <= i < |tr| ==> SystemInv(tr[i])) <==> SteadyTo(tr, threshold, |tr|)
  {
    if SteadyTo(tr, threshold, |tr|) {
      forall i | 0 <= i < |tr| ensures SystemInv(tr[i]) { SteadyHolds(tr, threshold, i); }
    }
    if forall i :: 0 <= i < |tr| ==> SystemInv(tr[i]) {
      forall i, op | 0 <= i < |tr| && i + 1 < |tr| && Follows(tr[i], op, tr[i + 1], threshold)
        ensures Steady(tr[i], op, threshold)
      {
        DoMissesNoneIff(tr[i], op, threshold);
      }
    }
  }

  /** What a caller of processTimers() can see to: the reading is no older than the previous one, or
      older by no more than the threshold at a time when the clock has passed the threshold. */
  predicate Recent(s: System, op: Op, threshold: nat) {
    op.OpProcess? ==>
      s.m.previous <= op.now || (threshold <= s.m.previous && s.m.previous - op.now <= threshold)
  }

  lemma RecentIsSteady(s: System, op: Op, threshold: nat)
    requires Recent(s, op, threshold)
    ensures Steady(s, op, threshold)
  {
    if op.OpProcess? && op.now < s.m.previous {
      var d := s.m.previous - threshold;
      assert d % MODULUS <= d;
    }
  }

  /** With such readings no wake-up is missed. */
  lemma RecentMissesNone(tr: seq<System>, threshold: nat, i: nat)
    requires IsRun(tr, threshold) && i < |tr|
    requires forall k, op | 0 <= k < |tr| && k + 1 < |tr| && Follows(tr[k], op, tr[k + 1], threshold) ::
               Recent(tr[k], op, threshold)
    ensures SystemInv(tr[i])
  {
    forall k, op | 0 <= k < |tr| && k + 1 < |tr| && Follows(tr[k], op, tr[k + 1], threshold)
      ensures Steady(tr[k], op, threshold)
    {
      RecentIsSteady(tr[k], op, threshold);
    }
    NoWakeUpMissed(tr, threshold);
  }

  // ----- a wake-up that is missed -----

  /** A recurring timer with a period of 10, registered at 100; nextTimer() has seen it due at 110, and
      a processTimers() at 101 has found nothing to do. */
  function Waiting(): System {
    System(Manager(map[0 := Timer(110, 10, true, Some(0))], [0], false, 101), 101, true, Some(110))
  }

  lemma Extends(tr: seq<System>, op: Op, threshold: nat) returns (tr': seq<System>)
    requires IsRun(tr, threshold) && Allowed(tr[|tr| - 1], op)
    ensures IsRun(tr', threshold) && tr'[|tr'| - 1] == Do(tr[|tr| - 1], op, threshold)
    ensures |tr'| == |tr| + 1 && tr'[..|tr|] == tr
  {
    tr' := tr + [Do(tr[|tr| - 1], op, threshold)];
    assert Follows(tr[|tr| - 1], op, tr'[|tr|], threshold);
    forall i | 0 <= i < |tr'| - 1 ensures Step(tr'[i], tr'[i + 1], threshold) {
      if i < |tr| - 1 { assert Step(tr[i], tr[i + 1], threshold); }
    }
  }

  lemma WaitingIsReached() returns (tr: seq<System>)
    ensures IsRun(tr, 5000000) && tr[|tr| - 1] == Waiting()
  {
    tr := [System(Manager(map[], [], false, 0), 0, false, None)];
    tr := Extends(tr, OpRegister(0, 10, true, 0, 100), 5000000);
    NoWrap(100, 10);
    assert tr[|tr| - 1].m == Manager(map[0 := Timer(110, 10, true, Some(0))], [0], true, 0);
    tr := Extends(tr, OpNextTimer(100), 5000000);
    tr := Extends(tr, OpProcess(101), 5000000);
  }

  /** With the default threshold, within the first five seconds: processTimers() on another thread, which
      has read the clock at 90, comes last. The timer is expired and due again at 100, and nobody is
      told. */
  lemma WakeUpMissed() returns (tr: seq<System>)
    ensures IsRun(tr, 5000000) && !NoneMissed(tr[|tr| - 1])
  {
    tr := WaitingIsReached();
    tr := Extends(tr, OpProcess(90), 5000000);
    RolledOverExactly(101, 90, 5000000);
    NoWrap(90, 10);
    var m := Waiting().m;
    assert m.index[..1] == [0] && m.index[1..] == [];
    assert [0][..0] == [];
    assert 0 in tr[|tr| - 1].m.timers && tr[|tr| - 1].m.timers[0] == Timer(100, 10, true, Some(0));
  }
}

/** What the operations of a TimerManager do to its timers, whatever the index looks like, and what becomes
    of a timer over a whole run. */
module TimerRuns {
  import opened Common
  import opened Timers

  /** A call of processTimers() expires a timer: it is live, and due or the clock has rolled over. */
  predicate Expires(m: Manager, t: Timer, now: nat, threshold: nat) {
    t.dg.Some? && (RolledOver(m.previous, now, threshold) || t.next <= now)
  }

  /** A recurring timer is due again a period later, any other one has lost its callback. */
  function Expired(t: Timer, now: nat): Timer {
    if t.recurring then t.(next := (now + t.us) % MODULUS) else t.(dg := None)
  }

  /** The timers after an operation. A timer is due its period after it was started: when it was registered
      or refreshed, when it expired, or at a reset from now on; any other reset keeps its start. */
  ghost predicate Changes(m: Manager, op: Op, threshold: nat, m': Manager) {
    match op
    case OpRegister(id, us, recurring, dg, now) =>
      m'.timers == m.timers[id := Timer((now + us) % MODULUS, us, recurring, Some(dg))]
    case OpCancel(id) => id in m.timers && m'.timers == m.timers[id := m.timers[id].(dg := None)]
    case OpRefresh(id, now) =>
      id in m.timers && Sets(m, id, (now + m.timers[id].us) % MODULUS, m.timers[id].us, m')
    case OpReset(id, us, fromNow, now) =>
      && id in m.timers
      && Sets(m, id, (if fromNow then now + us else m.timers[id].next - m.timers[id].us + us) % MODULUS, us, m')
    case OpNextTimer(_) => m'.timers == m.timers
    case OpProcess(now) =>
      && m'.timers.Keys == m.timers.Keys
      && forall x :: x in m.timers ==>
        m'.timers[x] == if Expires(m, m.timers[x], now, threshold) then Expired(m.timers[x], now) else m.timers[x]
  }

  /** A live timer gets a new deadline and a new period, and nothing else changes. */
  predicate Sets(m: Manager, id: Id, next: nat, us: nat, m': Manager)
    requires id in m.timers
  {
    m'.timers == if m.timers[id].dg.Some? then m.timers[id := m.timers[id].(next := next, us := us)] else m.timers
  }

  ghost predicate Deadlines(m: Manager) { forall id :: id in m.timers ==> m.timers[id].next < MODULUS }

  lemma Restart(next: nat, was: nat, us: nat)
    ensures Add64(Sub64(next, was), us) == (next - was + us) % MODULUS
  {
    var d := next - was;
    assert d == d / MODULUS * MODULUS + d % MODULUS;
    Shift(d % MODULUS + us, d / MODULUS);
  }

  lemma {:induction false} Shift(a: int, k: int)
    ensures (a + k * MODULUS) % MODULUS == a % MODULUS
    decreases if k < 0 then -k else k
  {
    if k > 0 { Shift(a, k - 1); assert a + k * MODULUS == a + (k - 1) * MODULUS + MODULUS; }
    if k < 0 { Shift(a, k + 1); assert a + (k + 1) * MODULUS == a + k * MODULUS + MODULUS; }
  }

  lemma ProcessChanges(m: Manager, now: nat, threshold: nat)
    requires Valid(m)
    ensures Changes(m, OpProcess(now), threshold, Processed(m, now, threshold))
  {
    if m.index == [] {
      forall x | x in m.timers ensures m.timers[x].dg == None { assert x !in m.index; }
    } else {
      hide Expire, RolledOver;
      var k := ExpiredCount(m, now, threshold);
      ExpiredAreDue(m, now, threshold);
      SplitApart(m, m.index[..k], m.index[k..]);
      ExpireValid(m.timers, m.index[k..], m.index[..k], now);
      ExpiredChanges(m, m.index[..k], Processed(m, now, threshold), now, threshold);
    }
  }

  lemma ExpiredChanges(m: Manager, ex: seq<Id>, m': Manager, now: nat, threshold: nat)
    requires forall x :: x in ex ==> x in m.timers
    requires forall x :: x in m.timers ==> (x in ex <==> Expires(m, m.timers[x], now, threshold))
    requires m'.timers.Keys == m.timers.Keys && forall x :: x in m.timers && x !in ex ==> m'.timers[x] == m.timers[x]
    requires forall x :: x in ex ==> m'.timers[x] == Expired(m.timers[x], now)
    ensures Changes(m, OpProcess(now), threshold, m')
  {
    hide Expires, Expired;
  }

  lemma DoValid(s: System, op: Op, threshold: nat)
    requires Valid(s.m) && Allowed(s, op)
    ensures Valid(Do(s, op, threshold).m)
  {
    hide Valid;
    match op
    case OpRegister(id, us, recurring, dg, now) => RegisteredValid(s.m, id, us, recurring, dg, now);
    case OpCancel(id) => CancelledValid(s.m, id);
    case OpRefresh(id, now) => RefreshedValid(s.m, id, now);
    case OpReset(id, us, fromNow, now) => ResetValid(s.m, id, us, fromNow, now);
    case OpNextTimer(now) => Untickled(s.m);
    case OpProcess(now) => ProcessedValid(s.m, now, threshold);
  }

  lemma ResetChanges(m: Manager, id: Id, us: nat, fromNow: bool, now: nat)
    requires id in m.timers && InIndex(m) && m.timers[id].next < MODULUS
    ensures var next := (if fromNow then now + us else m.timers[id].next - m.timers[id].us + us) % MODULUS;
            Sets(m, id, next, us, Reset(m, id, us, fromNow, now))
  {
    hide Sub64, Insert, Without, Find;
    Restart(m.timers[id].next, m.timers[id].us, us);
  }

  lemma ChangesDeadlines(m: Manager, op: Op, threshold: nat, m': Manager)
    requires Deadlines(m) && Changes(m, op, threshold, m')
    ensures Deadlines(m')
  {
  }

  /** Every operation changes the timers it is about, in this way, and no others. */
  lemma DoChanges(s: System, op: Op, threshold: nat)
    requires Valid(s.m) && Deadlines(s.m) && Allowed(s, op)
    ensures Changes(s.m, op, threshold, Do(s, op, threshold).m)
    ensures Valid(Do(s, op, threshold).m) && Deadlines(Do(s, op, threshold).m)
  {
    hide Valid, Deadlines, Insert, Without, Find, Processed, Reset;
    DoValid(s, op, threshold);
    if op.OpReset? {
      DeadlineOf(s.m, op.id);
      ResetChanges(s.m, op.id, op.us, op.fromNow, op.now);
    } else if op.OpProcess? {
      ProcessChanges(s.m, op.now, threshold);
    }
    ChangesDeadlines(s.m, op, threshold, Do(s, op, threshold).m);
  }

  lemma DeadlineOf(m: Manager, id: Id)
    requires Deadlines(m) && id in m.timers
    ensures m.timers[id].next < MODULUS
  {
  }

  lemma Untickled(m: Manager)
    requires Valid(m)
    ensures Valid(m.(tickled := false))
  {
  }

  lemma FirstIsFront(m: Manager, id: Id)
    requires Valid(m) && id in m.timers && m.timers[id].dg.Some?
    ensures m.index != []
    ensures m.index[0] == id <==>
            forall x :: x in m.timers && m.timers[x].dg.Some? && x != id ==> Before(m.timers, id, x)
  {
    var p :| 0 <= p < |m.index| && m.index[p] == id;
    if p > 0 { assert Before(m.timers, m.index[0], m.index[p]) && m.index[0] in m.index; }
    forall x | p == 0 && x in m.timers && m.timers[x].dg.Some? && x != id ensures Before(m.timers, id, x) {
      var q :| 0 <= q < |m.index| && m.index[q] == x;
      assert Before(m.timers, m.index[0], m.index[q]);
    }
  }

  /** The derived class is told of an earlier deadline exactly when a timer is registered, or started anew by
      a reset, and comes before all others; only nextTimer() takes that back. */
  lemma AnnouncedIffFirst(s: System, op: Op, threshold: nat)
    requires Valid(s.m) && Allowed(s, op)
    ensures var m' := Do(s, op, threshold).m;
            m'.tickled <==>
              !op.OpNextTimer? && (s.m.tickled ||
                (&& (op.OpRegister? || (op.OpReset? && s.m.timers[op.id].dg.Some? &&
                                        (op.fromNow || op.us != s.m.timers[op.id].us)))
                 && forall x :: x in m'.timers && m'.timers[x].dg.Some? && x != op.id ==>
                      op.id in m'.timers && Before(m'.timers, op.id, x)))
  {
    hide Insert, Without, Find, Processed, Valid, Sub64, Add64;
    DoValid(s, op, threshold);
    var m' := Do(s, op, threshold).m;
    if op.OpRegister? || (op.OpReset? && s.m.timers[op.id].dg.Some?) { FirstIsFront(m', op.id); }
    if op.OpProcess? { assert m'.tickled == s.m.tickled by { KeepsTickled(s.m, op.now, threshold); } }
  }

  lemma KeepsTickled(m: Manager, now: nat, threshold: nat)
    requires InIndex(m)
    ensures Processed(m, now, threshold).tickled == m.tickled
    ensures Processed(m, now, threshold).previous == if m.index == [] then m.previous else now
  {
  }

  /** cancel() takes a live timer out of the index and leaves the others in their places. */
  lemma CancelRemoves(m: Manager, id: Id) returns (p: nat)
    requires Valid(m) && id in m.timers && m.timers[id].dg.Some?
    ensures var m' := Cancelled(m, id);
            && id !in m'.index && m'.timers == m.timers[id := m.timers[id].(dg := None)]
            && p <= |m'.index| && m.index == m'.index[..p] + [id] + m'.index[p..]
            && m'.tickled == m.tickled && m'.previous == m.previous
  {
    hide Sorted, Find;
    FindIsMembership(m.timers, m.index, id);
    WithoutSorted(m.timers, m.index, id);
    p := Find(m.timers, m.index, id).value;
    BackIn(m.index, p);
  }

  lemma BackIn(idx: seq<Id>, p: nat)
    requires p < |idx|
    ensures var r := idx[..p] + idx[p + 1..]; idx == r[..p] + [idx[p]] + r[p..]
  {
  }

  // ----- over runs -----

  lemma {:induction false} RunValid(tr: seq<System>, threshold: nat, i: nat)
    requires IsRun(tr, threshold) && i < |tr|
    ensures Valid(tr[i].m) && Deadlines(tr[i].m)
  {
    if i > 0 {
      RunValid(tr, threshold, i - 1);
      assert Step(tr[i - 1], tr[i - 1 + 1], threshold);
      var op :| Follows(tr[i - 1], op, tr[i], threshold);
      DoChanges(tr[i - 1], op, threshold);
    }
  }

  predicate Dead(m: Manager, id: Id) { id in m.timers && m.timers[id].dg == None }

  lemma StaysDead(s: System, op: Op, threshold: nat, id: Id)
    requires Valid(s.m) && Deadlines(s.m) && Allowed(s, op) && Dead(s.m, id)
    ensures Dead(Do(s, op, threshold).m, id)
  {
    hide Do, Valid;
    DoChanges(s, op, threshold);
  }

  lemma DeadIsOut(m: Manager, id: Id)
    requires Valid(m) && Dead(m, id)
    ensures id !in m.index
  {
  }

  /** A timer without its callback never gets one again. */
  lemma {:induction false} DeadForGood(tr: seq<System>, threshold: nat, i: nat, j: nat, id: Id)
    requires IsRun(tr, threshold) && i <= j < |tr| && Dead(tr[i].m, id)
    ensures Dead(tr[j].m, id) && id !in tr[j].m.index
  {
    hide Valid, Dead, Deadlines, Do, Allowed;
    if i < j {
      DeadForGood(tr, threshold, i, j - 1, id);
      RunValid(tr, threshold, j - 1);
      assert Step(tr[j - 1], tr[j - 1 + 1], threshold);
      var op :| Follows(tr[j - 1], op, tr[j], threshold);
      StaysDead(tr[j - 1], op, threshold, id);
    }
    RunValid(tr, threshold, j);
    DeadIsOut(tr[j].m, id);
  }

  /** The timers whose callbacks a processTimers() returns. */
  function ReturnedBy(m: Manager, now: nat, threshold: nat): seq<Id>
    requires InIndex(m)
  {
    m.index[..ExpiredCount(m, now, threshold)]
  }

  /** After cancel() a timer is never returned by a processTimers() again. */
  lemma CancelledForGood(tr: seq<System>, threshold: nat, i: nat, j: nat, id: Id, now: nat)
    requires IsRun(tr, threshold) && i < j < |tr| && Follows(tr[i], OpCancel(id), tr[i + 1], threshold)
    requires InIndex(tr[j].m)
    ensures Dead(tr[j].m, id) && id !in ReturnedBy(tr[j].m, now, threshold)
  {
    RunValid(tr, threshold, i);
    DoChanges(tr[i], OpCancel(id), threshold);
    DeadForGood(tr, threshold, i + 1, j, id);
  }

  /** A timer that does not recur is returned at most once. */
  lemma ReturnedOnce(tr: seq<System>, threshold: nat, i: nat, j: nat, id: Id, at: nat, now: nat)
    requires IsRun(tr, threshold) && i < j < |tr| && Follows(tr[i], OpProcess(at), tr[i + 1], threshold)
    requires id in ReturnedBy(tr[i].m, at, threshold) && !tr[i].m.timers[id].recurring
    requires InIndex(tr[j].m)
    ensures Dead(tr[j].m, id) && id !in ReturnedBy(tr[j].m, now, threshold)
  {
    RunValid(tr, threshold, i);
    ExpiredAreDue(tr[i].m, at, threshold);
    DoChanges(tr[i], OpProcess(at), threshold);
    assert Expires(tr[i].m, tr[i].m.timers[id], at, threshold);
    DeadForGood(tr, threshold, i + 1, j, id);
  }
}

/** The fiber synchronization objects, one critical section at a time.

    Every operation yields the new object, the waiter it schedules if any, and whether
    the calling fiber parked. The logs (arrivals, grants, ...) are auxiliary: they record
    the run and are never read. */
module FiberSync {
  import opened Common

  /** An entry of a wait list: the fiber and the scheduler it was running on. */
  datatype Waiter = Waiter(sched: Sid, fiber: Fid)

  // ----- FiberMutex -----

  datatype Mutex = Mutex(owner: Option<Fid>, waiters: seq<Waiter>)

  /** lock(), up to Scheduler::yieldTo(): true means the caller has to yield. */
  function Acquire(m: Mutex, w: Waiter): (Mutex, bool) {
    if m.owner == None then (m.(owner := Some(w.fiber)), false)
    else (m.(waiters := m.waiters + [w]), true)
  }

  /** unlockNoLock(): the first waiter becomes the owner at once. */
  function Release(m: Mutex): (Mutex, Option<Waiter>) {
    if m.waiters == [] then (m.(owner := None), None)
    else (Mutex(Some(m.waiters[0].fiber), m.waiters[1..]), Some(m.waiters[0]))
  }

  /** What a condition does with a waiter it lets go. */
  function Admit(m: Mutex, w: Waiter): (Mutex, Option<Waiter>) {
    if m.owner == None then (m.(owner := Some(w.fiber)), Some(w))
    else (m.(waiters := m.waiters + [w]), None)
  }

  /** Letting a whole list go: a free mutex goes to the first fiber, which alone is
      scheduled; everybody else queues behind those already waiting, in list order. */
  function AdmitAll(m: Mutex, ws: seq<Waiter>): (Mutex, Option<Waiter>) {
    if ws == [] then (m, None)
    else if m.owner == None then (Mutex(Some(ws[0].fiber), m.waiters + ws[1..]), Some(ws[0]))
    else (m.(waiters := m.waiters + ws), None)
  }

  /** The same, one waiter at a time. */
  lemma AdmitAllSnoc(m: Mutex, ws: seq<Waiter>, w: Waiter)
    ensures var (m1, k1) := AdmitAll(m, ws);
            var (m2, k2) := Admit(m1, w);
            AdmitAll(m, ws + [w]) == (m2, if k2.Some? then k2 else k1)
  {
    if ws == [] {
      assert ws + [w] == [w] && m.waiters + [w][1..] == m.waiters;
    } else {
      assert (ws + [w])[1..] == ws[1..] + [w];
      assert m.waiters + ws[1..] + [w] == m.waiters + (ws[1..] + [w]);
      assert m.waiters + ws + [w] == m.waiters + (ws + [w]);
    }
  }

  class FiberMutex {
    var owner: Option<Fid>
    var waiters: seq<Waiter>

    function State(): (m: Mutex)
      reads this
    {
      Mutex(owner, waiters)
    }

    constructor ()
      ensures State() == Mutex(None, [])
    {
      owner, waiters := None, [];
    }

    method Lock(me: Waiter) returns (parked: bool)
      requires owner != Some(me.fiber)
      modifies this
      ensures (State(), parked) == Acquire(old(State()), me)
    {
      if owner == None {
        owner := Some(me.fiber);
        return false;
      }
      waiters := waiters + [me];
      parked := true;
    }

    method UnlockNoLock() returns (scheduled: Option<Waiter>)
      modifies this
      ensures (State(), scheduled) == Release(old(State()))
    {
      owner, scheduled := None, None;
      if waiters != [] {
        var next := waiters[0];
        waiters := waiters[1..];
        owner := Some(next.fiber);
        scheduled := Some(next);
      }
    }

    method UnlockIfNotUnique(me: Fid) returns (unlocked: bool, scheduled: Option<Waiter>)
      requires owner == Some(me)
      modifies this
      ensures unlocked <==> old(waiters) != []
      ensures unlocked ==> (State(), scheduled) == Release(old(State()))
      ensures !unlocked ==> State() == old(State()) && scheduled == None
    {
      unlocked, scheduled := waiters != [], None;
      if unlocked { scheduled := UnlockNoLock(); }
    }
  }

  // ----- RecursiveFiberMutex -----

  datatype Recursive = Recursive(base: Mutex, depth: nat)

  /** Held exactly while the depth is positive, and waited for only while held. */
  predicate RecursiveOk(r: Recursive) {
    && (r.base.owner == None <==> r.depth == 0)
    && (r.base.owner == None ==> r.base.waiters == [])
  }

  /** lock(): the owner goes one level deeper, anybody else meets an ordinary mutex. */
  function Deepen(r: Recursive, me: Waiter): (Recursive, bool) {
    if r.base.owner == Some(me.fiber) then (r.(depth := r.depth + 1), false)
    else
      var (m, parked) := Acquire(r.base, me);
      (Recursive(m, if parked then r.depth else 1), parked)
  }

  /** unlock(): the last level releases; a new owner starts at depth one. */
  function Lift(r: Recursive): (Recursive, Option<Waiter>) {
    if r.depth > 1 then (r.(depth := r.depth - 1), None)
    else
      var (m, next) := Release(r.base);
      (Recursive(m, if next.Some? then 1 else 0), next)
  }

  lemma RecursiveKept(r: Recursive, me: Waiter)
    requires RecursiveOk(r)
    ensures RecursiveOk(Deepen(r, me).0) && RecursiveOk(Lift(r).0)
    ensures !Deepen(r, me).1 ==> Deepen(r, me).0.base.owner == Some(me.fiber)
  {
  }

  function DeepenBy(r: Recursive, me: Waiter, n: nat): Recursive {
    if n == 0 then r else Deepen(DeepenBy(r, me, n - 1), me).0
  }

  /** n more locks by the owner take n more unlocks, which schedule nobody, to come back. */
  lemma {:induction false} NestingBalances(r: Recursive, me: Waiter, n: nat)
    requires RecursiveOk(r) && r.base.owner == Some(me.fiber)
    ensures DeepenBy(r, me, n) == r.(depth := r.depth + n)
    ensures n > 0 ==> Lift(DeepenBy(r, me, n)) == (DeepenBy(r, me, n - 1), None)
  {
    if n > 0 { NestingBalances(r, me, n - 1); }
  }

  class RecursiveFiberMutex {
    var owner: Option<Fid>
    var waiters: seq<Waiter>
    var recursion: nat

    function State(): (r: Recursive)
      reads this
    {
      Recursive(Mutex(owner, waiters), recursion)
    }

    constructor ()
      ensures State() == Recursive(Mutex(None, []), 0)
    {
      owner, waiters, recursion := None, [], 0;
    }

    method Lock(me: Waiter) returns (parked: bool)
      requires RecursiveOk(State())
      modifies this
      ensures RecursiveOk(State()) && (State(), parked) == Deepen(old(State()), me)
    {
      if owner == Some(me.fiber) {
        recursion := recursion + 1;
        return false;
      }
      if owner == None {
        owner, recursion := Some(me.fiber), 1;
        return false;
      }
      waiters := waiters + [me];
      parked := true;
    }

    method Unlock(me: Fid) returns (scheduled: Option<Waiter>)
      requires RecursiveOk(State()) && owner == Some(me)
      modifies this
      ensures RecursiveOk(State()) && (State(), scheduled) == Lift(old(State()))
    {
      scheduled := None;
      recursion := recursion - 1;
      if recursion == 0 {
        owner := None;
        if waiters != [] {
          var next := waiters[0];
          waiters := waiters[1..];
          owner, recursion := Some(next.fiber), 1;
          scheduled := Some(next);
        }
      }
    }

    /** True when somebody waits, even if only one of several levels was given up. */
    method UnlockIfNotUnique(me: Fid) returns (unlocked: bool, scheduled: Option<Waiter>)
      requires RecursiveOk(State()) && owner == Some(me)
      modifies this
      ensures RecursiveOk(State()) && (unlocked <==> old(waiters) != [])
      ensures unlocked ==> (State(), scheduled) == Lift(old(State())) && (scheduled.Some? <==> old(recursion) == 1)
      ensures !unlocked ==> State() == old(State()) && scheduled == None
    {
      unlocked, scheduled := waiters != [], None;
      if unlocked { scheduled := Unlock(me); }
    }
  }

  class FiberCondition {
    const mutex: FiberMutex
    var waiters: seq<Waiter>

    constructor (m: FiberMutex)
      ensures mutex == m && waiters == []
    {
      mutex, waiters := m, [];
    }

    /** Enqueue and release in one critical section, then the caller yields. */
    method Wait(me: Waiter) returns (scheduled: Option<Waiter>)
      requires mutex.owner == Some(me.fiber)
      modifies this, mutex
      ensures waiters == old(waiters) + [me]
      ensures (mutex.State(), scheduled) == Release(old(mutex.State()))
    {
      waiters := waiters + [me];
      scheduled := mutex.UnlockNoLock();
    }

    /** signal(), first critical section: take the front waiter. */
    method Take() returns (next: Option<Waiter>)
      modifies this
      ensures old(waiters) == [] ==> next == None && waiters == []
      ensures old(waiters) != [] ==> next == Some(old(waiters)[0]) && waiters == old(waiters)[1..]
    {
      if waiters == [] { return None; }
      next := Some(waiters[0]);
      waiters := waiters[1..];
    }

    /** signal(), second critical section: hand it to the mutex. */
    method Deliver(next: Waiter) returns (scheduled: Option<Waiter>)
      requires mutex.owner != Some(next.fiber)
      modifies mutex
      ensures (mutex.State(), scheduled) == Admit(old(mutex.State()), next)
    {
      if mutex.owner == None {
        mutex.owner := Some(next.fiber);
        scheduled := Some(next);
      } else {
        mutex.waiters := mutex.waiters + [next];
        scheduled := None;
      }
    }

    method Broadcast() returns (scheduled: Option<Waiter>)
      requires forall w :: w in waiters ==> mutex.owner != Some(w.fiber)
      requires forall i, j :: 0 <= i < j < |waiters| ==> waiters[i].fiber != waiters[j].fiber
      modifies this, mutex
      ensures waiters == []
      ensures (mutex.State(), scheduled) == AdmitAll(old(mutex.State()), old(waiters))
    {
      scheduled := None;
      var i := 0;
      while i < |waiters|
        invariant i <= |waiters| && waiters == old(waiters)
        invariant (mutex.State(), scheduled) == AdmitAll(old(mutex.State()), waiters[..i])
        invariant mutex.owner == old(mutex.owner) || exists j :: 0 <= j < i && mutex.owner == Some(waiters[j].fiber)
      {
        assert waiters[..i + 1] == waiters[..i] + [waiters[i]];
        AdmitAllSnoc(old(mutex.State()), waiters[..i], waiters[i]);
        var more := Deliver(waiters[i]);
        if more.Some? { scheduled := more; }
        i := i + 1;
      }
      assert waiters[..i] == waiters;
      waiters := [];
    }
  }

  // ----- a mutex with its conditions, and its history -----

  /** A condition's list, with everything that ever entered and left it. */
  datatype Condition = Condition(list: seq<Waiter>, entered: seq<Fid>, left: seq<Fid>)

  /** A waiter taken by a signal() or set() that has not handed it on yet. */
  datatype Flight = Flight(carrier: Tid, w: Waiter)

  datatype Obj =
    | Monitor(
        mutex: Mutex,
        conds: seq<Condition>,
        flying: seq<Flight>,
        arrivals: seq<Fid>,      // order in which fibers asked for the mutex
        grants: seq<Fid>,        // order in which they got it
        left: seq<Fid>,          // order in which fibers left the conditions
        transferred: seq<Fid>,   // order in which they reached the mutex
        overlapped: bool,        // a signal() or broadcast() ran while another one was in flight
        recursive: bool,         // a RecursiveFiberMutex, which has no conditions
        depth: nat)              // m_recursion; of a FiberMutex, whether it is owned
    | Semaphore(initial: nat, available: nat, semWaiters: seq<Waiter>, notified: nat,
                semArrivals: seq<Fid>, granted: seq<Fid>)
    | Event(autoReset: bool, signalled: bool, evWaiters: seq<Waiter>, evFlying: seq<Flight>,
            evArrivals: seq<Fid>, released: seq<Fid>)

  datatype Op =
    | Lock | Unlock | UnlockIfNotUnique
    | CondWait(c: nat) | SignalTake(c: nat) | SignalDeliver(i: nat) | Broadcast(c: nat)
    | SemWait | SemNotify
    | EvWait | EvSet | EvDeliver(i: nat) | EvReset

  datatype Outcome = Outcome(obj: Obj, wakes: Option<Waiter>, parks: bool)

  /** Which operations client code may call: the caller's side of the assertions. */
  predicate Legal(x: Obj, t: Tid, me: Fid, op: Op) {
    match op
    case Lock => x.Monitor? && (x.recursive || x.mutex.owner != Some(me))
    case Unlock => x.Monitor? && x.mutex.owner == Some(me)
    case UnlockIfNotUnique => x.Monitor? && x.mutex.owner == Some(me)
    case CondWait(c) => x.Monitor? && c < |x.conds| && !x.recursive && x.mutex.owner == Some(me)
    case SignalTake(c) => x.Monitor? && c < |x.conds|
    case SignalDeliver(i) => x.Monitor? && i < |x.flying| && x.flying[i].carrier == t
    case Broadcast(c) => x.Monitor? && c < |x.conds|
    case SemWait => x.Semaphore?
    case SemNotify => x.Semaphore?
    case EvWait => x.Event?
    case EvSet => x.Event?
    case EvDeliver(i) =>
      x.Event? && i < |x.evFlying| && x.evFlying[i].carrier == t &&
      forall j :: 0 <= j < i ==> x.evFlying[j].carrier != t
    case EvReset => x.Event?
  }

  function Names(ws: seq<Waiter>): seq<Fid> {
    if ws == [] then [] else [ws[0].fiber] + Names(ws[1..])
  }

  function Woken(o: Option<Waiter>): seq<Fid> { if o.Some? then [o.value.fiber] else [] }

  function FlightNames(fs: seq<Flight>): seq<Fid> {
    if fs == [] then [] else [fs[0].w.fiber] + FlightNames(fs[1..])
  }

  function Flights(t: Tid, ws: seq<Waiter>): (r: seq<Flight>)
    ensures |r| == |ws| && forall i :: 0 <= i < |ws| ==> r[i] == Flight(t, ws[i])
  {
    seq(|ws|, i requires 0 <= i < |ws| => Flight(t, ws[i]))
  }

  /** A nested lock() is no arrival and no grant. */
  function DoLock(x: Obj, w: Waiter): Outcome
    requires x.Monitor?
  {
    var (r, parked) := Deepen(Recursive(x.mutex, x.depth), w);
    if x.mutex.owner == Some(w.fiber) then Outcome(x.(depth := r.depth), None, false)
    else
      Outcome(x.(mutex := r.base, depth := r.depth, arrivals := x.arrivals + [w.fiber],
                 grants := if parked then x.grants else x.grants + [w.fiber]), None, parked)
  }

  function DoUnlock(x: Obj): Outcome
    requires x.Monitor?
  {
    var (r, wakes) := Lift(Recursive(x.mutex, x.depth));
    Outcome(x.(mutex := r.base, depth := r.depth, grants := x.grants + Woken(wakes)), wakes, false)
  }

  /** A condition belongs to a FiberMutex, which has one level to give up. */
  function DoCondWait(x: Obj, w: Waiter, c: nat): Outcome
    requires x.Monitor? && c < |x.conds|
  {
    var out := DoUnlock(x.(depth := 1));
    var k := x.conds[c];
    var k' := k.(list := k.list + [w], entered := k.entered + [w.fiber]);
    Outcome(out.obj.(conds := x.conds[c := k']), out.wakes, true)
  }

  function DoSignalTake(x: Obj, t: Tid, c: nat): Outcome
    requires x.Monitor? && c < |x.conds|
  {
    var k := x.conds[c];
    if k.list == [] then Outcome(x, None, false)
    else
      Outcome(x.(conds := x.conds[c := k.(list := k.list[1..], left := k.left + [k.list[0].fiber])],
                 flying := x.flying + [Flight(t, k.list[0])],
                 left := x.left + [k.list[0].fiber],
                 overlapped := x.overlapped || x.flying != []), None, false)
  }

  function DoSignalDeliver(x: Obj, i: nat): Outcome
    requires x.Monitor? && i < |x.flying|
  {
    var w := x.flying[i].w;
    var (m, wakes) := Admit(x.mutex, w);
    Outcome(x.(mutex := m, flying := x.flying[..i] + x.flying[i + 1..],
               arrivals := x.arrivals + [w.fiber], grants := x.grants + Woken(wakes),
               depth := if wakes.Some? then 1 else x.depth,
               transferred := x.transferred + [w.fiber]), wakes, false)
  }

  function DoBroadcast(x: Obj, c: nat): Outcome
    requires x.Monitor? && c < |x.conds|
  {
    var k := x.conds[c];
    var (m, wakes) := AdmitAll(x.mutex, k.list);
    Outcome(x.(mutex := m, conds := x.conds[c := k.(list := [], left := k.left + Names(k.list))],
               arrivals := x.arrivals + Names(k.list), grants := x.grants + Woken(wakes),
               depth := if wakes.Some? then 1 else x.depth,
               left := x.left + Names(k.list), transferred := x.transferred + Names(k.list),
               overlapped := x.overlapped || x.flying != []), wakes, false)
  }

  function DoSemWait(x: Obj, w: Waiter): Outcome
    requires x.Semaphore?
  {
    if x.available > 0 then
      Outcome(x.(available := x.available - 1, semArrivals := x.semArrivals + [w.fiber],
                 granted := x.granted + [w.fiber]),
              None, false)
    else Outcome(x.(semWaiters := x.semWaiters + [w], semArrivals := x.semArrivals + [w.fiber]), None, true)
  }

  function DoSemNotify(x: Obj): Outcome
    requires x.Semaphore?
  {
    if x.semWaiters != [] then
      Outcome(x.(semWaiters := x.semWaiters[1..], notified := x.notified + 1,
                 granted := x.granted + [x.semWaiters[0].fiber]),
              Some(x.semWaiters[0]), false)
    else Outcome(x.(available := x.available + 1, notified := x.notified + 1), None, false)
  }

  function DoEvWait(x: Obj, w: Waiter): Outcome
    requires x.Event?
  {
    if x.signalled then Outcome(x.(signalled := !x.autoReset), None, false)
    else Outcome(x.(evWaiters := x.evWaiters + [w], evArrivals := x.evArrivals + [w.fiber]), None, true)
  }

  function DoEvSet(x: Obj, t: Tid): (r: Outcome)
    requires x.Event?
    ensures r.obj.Event?
  {
    if x.autoReset then
      if x.evWaiters == [] then Outcome(x.(signalled := true), None, false)
      else Outcome(x.(evWaiters := x.evWaiters[1..], evFlying := x.evFlying + [Flight(t, x.evWaiters[0])],
                      released := x.released + [x.evWaiters[0].fiber]), None, false)
    else
      Outcome(x.(signalled := true, evWaiters := [], evFlying := x.evFlying + Flights(t, x.evWaiters),
                 released := x.released + Names(x.evWaiters)), None, false)
  }

  function DoEvDeliver(x: Obj, i: nat): Outcome
    requires x.Event? && i < |x.evFlying|
  {
    Outcome(x.(evFlying := x.evFlying[..i] + x.evFlying[i + 1..]), Some(x.evFlying[i].w), false)
  }

  function Perform(x: Obj, t: Tid, w: Waiter, op: Op): Outcome
    requires Legal(x, t, w.fiber, op)
  {
    match op
    case Lock => DoLock(x, w)
    case Unlock => DoUnlock(x)
    case UnlockIfNotUnique => if x.mutex.waiters == [] then Outcome(x, None, false) else DoUnlock(x)
    case CondWait(c) => DoCondWait(x, w, c)
    case SignalTake(c) => DoSignalTake(x, t, c)
    case SignalDeliver(i) => DoSignalDeliver(x, i)
    case Broadcast(c) => DoBroadcast(x, c)
    case SemWait => DoSemWait(x, w)
    case SemNotify => DoSemNotify(x)
    case EvWait => DoEvWait(x, w)
    case EvSet => DoEvSet(x, t)
    case EvDeliver(i) => DoEvDeliver(x, i)
    case EvReset => Outcome(x.(signalled := false), None, false)
  }

  // ----- no fiber is lost or doubled -----

  function Occurs(ws: seq<Waiter>, w: Waiter): nat {
    if ws == [] then 0 else (if ws[0] == w then 1 else 0) + Occurs(ws[1..], w)
  }

  function Is(o: Option<Waiter>, w: Waiter): nat { if o == Some(w) then 1 else 0 }

  function OccursInFlight(fs: seq<Flight>, w: Waiter): nat {
    if fs == [] then 0 else (if fs[0].w == w then 1 else 0) + OccursInFlight(fs[1..], w)
  }

  function OccursInConds(cs: seq<Condition>, w: Waiter): nat {
    if cs == [] then 0 else Occurs(cs[0].list, w) + OccursInConds(cs[1..], w)
  }

  /** How often the object holds a waiter, over all its lists. */
  function Holds(x: Obj, w: Waiter): nat {
    match x
    case Monitor(m, conds, flying, _, _, _, _, _, _, _) =>
      Occurs(m.waiters, w) + OccursInConds(conds, w) + OccursInFlight(flying, w)
    case Semaphore(_, _, waiters, _, _, _) => Occurs(waiters, w)
    case Event(_, _, waiters, flying, _, _) => Occurs(waiters, w) + OccursInFlight(flying, w)
  }

  lemma {:induction false} OccursAppend(a: seq<Waiter>, b: seq<Waiter>, w: Waiter)
    ensures Occurs(a + b, w) == Occurs(a, w) + Occurs(b, w)
  {
    if a == [] { assert a + b == b; }
    else { assert (a + b)[1..] == a[1..] + b; OccursAppend(a[1..], b, w); }
  }

  lemma {:induction false} FlightAppend(a: seq<Flight>, b: seq<Flight>, w: Waiter)
    ensures OccursInFlight(a + b, w) == OccursInFlight(a, w) + OccursInFlight(b, w)
  {
    if a == [] { assert a + b == b; }
    else { assert (a + b)[1..] == a[1..] + b; FlightAppend(a[1..], b, w); }
  }

  lemma {:induction false} FlightRemove(fs: seq<Flight>, i: nat, w: Waiter)
    requires i < |fs|
    ensures OccursInFlight(fs[..i] + fs[i + 1..], w) + (if fs[i].w == w then 1 else 0) == OccursInFlight(fs, w)
  {
    assert fs == fs[..i] + ([fs[i]] + fs[i + 1..]);
    FlightAppend(fs[..i], fs[i + 1..], w);
    FlightAppend(fs[..i], [fs[i]] + fs[i + 1..], w);
    FlightAppend([fs[i]], fs[i + 1..], w);
  }

  lemma {:induction false} FlightsOccur(t: Tid, ws: seq<Waiter>, w: Waiter)
    ensures OccursInFlight(Flights(t, ws), w) == Occurs(ws, w)
  {
    if ws != [] {
      FlightsOccur(t, ws[1..], w);
      assert Flights(t, ws)[1..] == Flights(t, ws[1..]);
    }
  }

  lemma {:induction false} CondsUpdate(cs: seq<Condition>, c: nat, k: Condition, w: Waiter)
    requires c < |cs|
    ensures OccursInConds(cs[c := k], w) + Occurs(cs[c].list, w) == OccursInConds(cs, w) + Occurs(k.list, w)
  {
    if c == 0 { assert cs[c := k][1..] == cs[1..]; }
    else { assert cs[c := k][1..] == cs[1..][c - 1 := k]; CondsUpdate(cs[1..], c - 1, k, w); }
  }

  lemma ReleaseConserves(m: Mutex, w: Waiter)
    ensures Occurs(Release(m).0.waiters, w) + Is(Release(m).1, w) == Occurs(m.waiters, w)
  {
  }

  lemma AdmitConserves(m: Mutex, v: Waiter, w: Waiter)
    ensures Occurs(Admit(m, v).0.waiters, w) + Is(Admit(m, v).1, w) == Occurs(m.waiters, w) + Occurs([v], w)
  {
    OccursAppend(m.waiters, [v], w);
  }

  lemma AdmitAllConserves(m: Mutex, ws: seq<Waiter>, w: Waiter)
    ensures Occurs(AdmitAll(m, ws).0.waiters, w) + Is(AdmitAll(m, ws).1, w) == Occurs(m.waiters, w) + Occurs(ws, w)
  {
    if ws != [] {
      OccursAppend(m.waiters, ws[1..], w);
      OccursAppend(m.waiters, ws, w);
    }
  }

  lemma MonitorConserves(x: Obj, t: Tid, me: Waiter, op: Op, w: Waiter)
    requires Legal(x, t, me.fiber, op) && x.Monitor?
    ensures var out := Perform(x, t, me, op);
            Holds(out.obj, w) + Is(out.wakes, w) == Holds(x, w) + (if out.parks && w == me then 1 else 0)
  {
    match op
    case Lock => OccursAppend(x.mutex.waiters, [me], w);
    case Unlock => ReleaseConserves(x.mutex, w);
    case UnlockIfNotUnique => ReleaseConserves(x.mutex, w);
    case _ => ConditionConserves(x, t, me, op, w);
  }

  lemma ConditionConserves(x: Obj, t: Tid, me: Waiter, op: Op, w: Waiter)
    requires Legal(x, t, me.fiber, op) && x.Monitor?
    requires op.CondWait? || op.SignalTake? || op.SignalDeliver? || op.Broadcast?
    ensures var out := Perform(x, t, me, op);
            Holds(out.obj, w) + Is(out.wakes, w) == Holds(x, w) + (if out.parks && w == me then 1 else 0)
  {
    match op
    case CondWait(c) =>
      ReleaseConserves(x.mutex, w);
      OccursAppend(x.conds[c].list, [me], w);
      CondsUpdate(x.conds, c, Perform(x, t, me, op).obj.conds[c], w);
    case SignalTake(c) =>
      if x.conds[c].list != [] {
        FlightAppend(x.flying, [Flight(t, x.conds[c].list[0])], w);
        CondsUpdate(x.conds, c, Perform(x, t, me, op).obj.conds[c], w);
      }
    case SignalDeliver(i) => AdmitConserves(x.mutex, x.flying[i].w, w); FlightRemove(x.flying, i, w);
    case Broadcast(c) =>
      AdmitAllConserves(x.mutex, x.conds[c].list, w);
      CondsUpdate(x.conds, c, Perform(x, t, me, op).obj.conds[c], w);
  }

  /** Every operation passes each waiter on exactly once: what the object held, plus the
      caller if it parks, is what it still holds plus what it schedules. */
  lemma PerformConserves(x: Obj, t: Tid, me: Waiter, op: Op, w: Waiter)
    requires Legal(x, t, me.fiber, op)
    ensures var out := Perform(x, t, me, op);
            Holds(out.obj, w) + Is(out.wakes, w) == Holds(x, w) + (if out.parks && w == me then 1 else 0)
  {
    if x.Monitor? {
      MonitorConserves(x, t, me, op, w);
    } else {
      match op
      case SemWait => OccursAppend(x.semWaiters, [me], w);
      case SemNotify =>
      case EvWait => OccursAppend(x.evWaiters, [me], w);
      case EvSet =>
        if x.autoReset {
          if x.evWaiters != [] { FlightAppend(x.evFlying, [Flight(t, x.evWaiters[0])], w); }
        } else {
          FlightAppend(x.evFlying, Flights(t, x.evWaiters), w);
          FlightsOccur(t, x.evWaiters, w);
        }
      case EvDeliver(i) => FlightRemove(x.evFlying, i, w);
      case EvReset =>
    }
  }

  // ----- order and counting -----

  predicate CondOk(k: Condition) { k.entered == k.left + Names(k.list) }

  /** No owner, no waiters; the mutex has been granted in exactly the order it was asked
      for; each condition lets fibers go in the order they came; and they reach the mutex
      in the order they left, as long as no two signals overlap. */
  predicate MonitorOk(x: Obj)
    requires x.Monitor?
  {
    && RecursiveOk(Recursive(x.mutex, x.depth))
    && (if x.recursive then x.conds == [] && x.flying == [] else x.depth <= 1)
    && x.arrivals == x.grants + Names(x.mutex.waiters)
    && (x.mutex.owner.Some? ==> x.grants != [] && x.grants[|x.grants| - 1] == x.mutex.owner.value)
    && (forall c :: 0 <= c < |x.conds| ==> CondOk(x.conds[c]))
    && (!x.overlapped ==> |x.flying| <= 1 && x.left == x.transferred + FlightNames(x.flying))
  }

  /** Wait permits are conserved and given out in order; a free permit means nobody waits. */
  predicate SemaphoreOk(x: Obj)
    requires x.Semaphore?
  {
    && x.initial + x.notified == x.available + |x.granted|
    && (x.available > 0 ==> x.semWaiters == [])
    && x.semArrivals == x.granted + Names(x.semWaiters)
  }

  /** Nobody waits for a signalled event; waiters are released in order. */
  predicate EventOk(x: Obj)
    requires x.Event?
  {
    && (x.signalled ==> x.evWaiters == [])
    && x.evArrivals == x.released + Names(x.evWaiters)
  }

  predicate ObjOk(x: Obj) {
    match x
    case Monitor(_, _, _, _, _, _, _, _, _, _) => MonitorOk(x)
    case Semaphore(_, _, _, _, _, _) => SemaphoreOk(x)
    case Event(_, _, _, _, _, _) => EventOk(x)
  }

  /** As constructed. */
  predicate FreshObj(x: Obj) {
    match x
    case Monitor(m, conds, flying, arrivals, grants, left, transferred, overlapped, recursive, depth) =>
      && depth == 0 && (recursive ==> conds == [])
      && m == Mutex(None, []) && flying == [] && arrivals == [] && grants == [] && left == [] && transferred == []
      && !overlapped
      && forall c :: 0 <= c < |conds| ==> conds[c] == Condition([], [], [])
    case Semaphore(initial, available, waiters, notified, arrivals, granted) =>
      available == initial && waiters == [] && notified == 0 && arrivals == [] && granted == []
    case Event(_, signalled, waiters, flying, arrivals, released) =>
      !signalled && waiters == [] && flying == [] && arrivals == [] && released == []
  }

  lemma {:induction false} NamesAppend(a: seq<Waiter>, b: seq<Waiter>)
    ensures Names(a + b) == Names(a) + Names(b)
  {
    if a == [] { assert a + b == b; }
    else { assert (a + b)[1..] == a[1..] + b; NamesAppend(a[1..], b); }
  }

  lemma LockKeepsOk(x: Obj, w: Waiter)
    requires x.Monitor? && MonitorOk(x) && (x.recursive || x.mutex.owner != Some(w.fiber))
    ensures MonitorOk(DoLock(x, w).obj)
  {
    hide CondOk, FlightNames;
    NamesAppend(x.mutex.waiters, [w]);
    assert Names([w]) == [w.fiber];
    if x.mutex.owner.Some? && x.mutex.owner != Some(w.fiber) {
      assert x.arrivals + [w.fiber] == x.grants + (Names(x.mutex.waiters) + [w.fiber]);
    }
  }

  lemma UnlockKeepsOk(x: Obj)
    requires x.Monitor? && MonitorOk(x)
    ensures MonitorOk(DoUnlock(x).obj)
  {
    assert x.grants + [] == x.grants;
    if x.mutex.waiters != [] {
      var f := x.mutex.waiters[0].fiber;
      assert Names([x.mutex.waiters[0]]) == [f];
      assert x.grants + ([f] + Names(x.mutex.waiters[1..])) == x.grants + [f] + Names(x.mutex.waiters[1..]);
    }
  }

  lemma CondWaitKeepsOk(x: Obj, w: Waiter, c: nat)
    requires x.Monitor? && MonitorOk(x) && c < |x.conds| && x.mutex.owner.Some?
    ensures MonitorOk(DoCondWait(x, w, c).obj)
  {
    assert x.(depth := 1) == x;
    UnlockKeepsOk(x);
    assert CondOk(x.conds[c]);
    NamesAppend(x.conds[c].list, [w]);
  }

  lemma TakeKeepsOk(x: Obj, t: Tid, c: nat)
    requires x.Monitor? && MonitorOk(x) && c < |x.conds|
    ensures MonitorOk(DoSignalTake(x, t, c).obj)
  {
    assert CondOk(x.conds[c]);
    if x.conds[c].list != [] && x.flying == [] {
      assert FlightNames(DoSignalTake(x, t, c).obj.flying) == [x.conds[c].list[0].fiber];
    }
  }

  lemma DeliverKeepsOk(x: Obj, i: nat)
    requires x.Monitor? && MonitorOk(x) && i < |x.flying|
    ensures MonitorOk(DoSignalDeliver(x, i).obj)
  {
    var w := x.flying[i].w;
    var y := DoSignalDeliver(x, i);
    assert x.mutex.waiters + [w][1..] == x.mutex.waiters;
    AdmitAllNames(x.mutex, [w], x.arrivals, x.grants, y.obj.mutex, y.wakes);
    assert Names([w]) == [w.fiber];
    if !x.overlapped { assert FlightNames(x.flying) == [w.fiber]; }
  }

  lemma AdmitAllNames(m: Mutex, l: seq<Waiter>, arrivals: seq<Fid>, grants: seq<Fid>, m': Mutex, wakes: Option<Waiter>)
    requires arrivals == grants + Names(m.waiters) && (m.owner == None ==> m.waiters == [])
    requires m.owner.Some? ==> grants != [] && grants[|grants| - 1] == m.owner.value
    requires (m', wakes) == AdmitAll(m, l)
    ensures arrivals + Names(l) == grants + Woken(wakes) + Names(m'.waiters)
    ensures m'.owner == None ==> m'.waiters == []
    ensures m'.owner.Some? ==> var g := grants + Woken(wakes); g != [] && g[|g| - 1] == m'.owner.value
  {
    if l == [] {
      assert Names(l) == [] && Woken(wakes) == [];
      assert grants + [] == grants && arrivals + [] == arrivals;
    } else if m.owner == None {
      assert m' == Mutex(Some(l[0].fiber), l[1..]) && Woken(wakes) == [l[0].fiber];
      assert arrivals == grants;
      Behind(grants, [l[0].fiber], Names(l[1..]));
    } else {
      assert wakes == None && m'.waiters == m.waiters + l && grants + [] == grants;
      NamesAppend(m.waiters, l);
      Behind(grants, Names(m.waiters), Names(l));
    }
  }

  lemma Behind(a: seq<Fid>, b: seq<Fid>, c: seq<Fid>)
    ensures a + b + c == a + (b + c)
  {
  }

  lemma BroadcastKeepsOk(x: Obj, c: nat)
    requires x.Monitor? && MonitorOk(x) && c < |x.conds|
    ensures MonitorOk(DoBroadcast(x, c).obj)
  {
    assert CondOk(x.conds[c]);
    var y := DoBroadcast(x, c).obj;
    AdmitAllNames(x.mutex, x.conds[c].list, x.arrivals, x.grants, y.mutex, DoBroadcast(x, c).wakes);
    assert CondOk(y.conds[c]);
  }

  lemma SemaphoreKeepsOk(x: Obj, w: Waiter)
    requires x.Semaphore? && SemaphoreOk(x)
    ensures SemaphoreOk(DoSemWait(x, w).obj) && SemaphoreOk(DoSemNotify(x).obj)
  {
    NamesAppend(x.semWaiters, [w]);
  }

  lemma EventKeepsOk(x: Obj, t: Tid, w: Waiter)
    requires x.Event? && EventOk(x)
    ensures EventOk(DoEvWait(x, w).obj) && EventOk(DoEvSet(x, t).obj)
  {
    NamesAppend(x.evWaiters, [w]);
  }

  /** Every operation on every object keeps its order and its counts. */
  lemma PerformKeepsOk(x: Obj, t: Tid, me: Waiter, op: Op)
    requires Legal(x, t, me.fiber, op) && ObjOk(x)
    ensures ObjOk(Perform(x, t, me, op).obj)
  {
    match op
    case Lock => LockKeepsOk(x, me);
    case Unlock => UnlockKeepsOk(x);
    case UnlockIfNotUnique => UnlockKeepsOk(x);
    case CondWait(c) => CondWaitKeepsOk(x, me, c);
    case SignalTake(c) => TakeKeepsOk(x, t, c);
    case SignalDeliver(i) => DeliverKeepsOk(x, i);
    case Broadcast(c) => BroadcastKeepsOk(x, c);
    case SemWait => SemaphoreKeepsOk(x, me);
    case SemNotify => SemaphoreKeepsOk(x, me);
    case EvWait => EventKeepsOk(x, t, me);
    case EvSet => EventKeepsOk(x, t, me);
    case EvDeliver(_) =>
    case EvReset =>
  }

  // ----- what an operation does to its waiters and its owner -----

  lemma {:induction false} OccursAt(ws: seq<Waiter>, i: nat)
    requires i < |ws|
    ensures Occurs(ws, ws[i]) > 0
  {
    if i > 0 { OccursAt(ws[1..], i - 1); }
  }

  lemma {:induction false} CondsHold(cs: seq<Condition>, c: nat, w: Waiter)
    requires c < |cs|
    ensures OccursInConds(cs, w) >= Occurs(cs[c].list, w)
  {
    if c > 0 { CondsHold(cs[1..], c - 1, w); }
  }

  /** Only a fiber that was waiting is ever scheduled. */
  lemma WokenWasHeld(x: Obj, t: Tid, me: Waiter, op: Op)
    requires Legal(x, t, me.fiber, op) && Perform(x, t, me, op).wakes.Some?
    ensures Holds(x, Perform(x, t, me, op).wakes.value) > 0
  {
    match op
    case SignalDeliver(i) => FlightRemove(x.flying, i, x.flying[i].w);
    case EvDeliver(i) => FlightRemove(x.evFlying, i, x.evFlying[i].w);
    case Broadcast(c) =>
      if x.conds[c].list != [] {
        OccursAt(x.conds[c].list, 0);
        CondsHold(x.conds, c, x.conds[c].list[0]);
      }
    case _ =>
  }

  /** Nobody takes a mutex from its owner, whoever is woken by a mutex owns it, and a
      caller that does not wait is the only other one who can get it. */
  predicate OwnerRule(x: Obj, me: Waiter, y: Outcome)
    requires x.Monitor? && y.obj.Monitor?
  {
    && (x.mutex.owner.Some? && x.mutex.owner != Some(me.fiber) ==> y.obj.mutex.owner == x.mutex.owner)
    && (y.wakes.Some? ==> y.obj.mutex.owner == Some(y.wakes.value.fiber))
    && (y.obj.mutex.owner.Some? && y.obj.mutex.owner != x.mutex.owner && y.wakes == None ==>
          y.obj.mutex.owner == Some(me.fiber))
    && (y.parks && y.wakes == None ==> y.obj.mutex.owner != Some(me.fiber))
  }

  lemma OwnerMoves(x: Obj, t: Tid, me: Waiter, op: Op)
    requires Legal(x, t, me.fiber, op) && x.Monitor?
    ensures Perform(x, t, me, op).obj.Monitor? && OwnerRule(x, me, Perform(x, t, me, op))
  {
  }

  predicate Blocking(op: Op) { op.Lock? || op.CondWait? || op.SemWait? || op.EvWait? }

  // ----- the objects that are not built on a mutex -----

  class FiberSemaphore {
    var concurrency: nat
    var waiters: seq<Waiter>
    ghost var initial: nat
    ghost var notified: nat
    ghost var arrivals: seq<Fid>
    ghost var granted: seq<Fid>

    ghost function State(): Obj
      reads this
    {
      Semaphore(initial, concurrency, waiters, notified, arrivals, granted)
    }

    constructor (initialConcurrency: nat)
      ensures State() == Semaphore(initialConcurrency, initialConcurrency, [], 0, [], []) && ObjOk(State())
    {
      concurrency, waiters := initialConcurrency, [];
      initial, notified, arrivals, granted := initialConcurrency, 0, [], [];
    }

    method Wait(me: Waiter) returns (parked: bool)
      requires ObjOk(State())
      modifies this
      ensures ObjOk(State()) && State() == DoSemWait(old(State()), me).obj &&
              parked == DoSemWait(old(State()), me).parks
    {
      SemaphoreKeepsOk(State(), me);
      arrivals := arrivals + [me.fiber];
      if concurrency > 0 {
        concurrency, granted := concurrency - 1, granted + [me.fiber];
        return false;
      }
      waiters := waiters + [me];
      parked := true;
    }

    method Notify() returns (scheduled: Option<Waiter>)
      requires ObjOk(State())
      modifies this
      ensures ObjOk(State()) && State() == DoSemNotify(old(State())).obj && scheduled == DoSemNotify(old(State())).wakes
    {
      SemaphoreKeepsOk(State(), Waiter(0, 0));
      notified := notified + 1;
      if waiters != [] {
        var next := waiters[0];
        waiters, granted := waiters[1..], granted + [next.fiber];
        return Some(next);
      }
      concurrency := concurrency + 1;
      scheduled := None;
    }
  }

  class FiberEvent {
    const autoReset: bool
    var signalled: bool
    var waiters: seq<Waiter>
    ghost var arrivals: seq<Fid>
    ghost var released: seq<Fid>

    ghost function State(): Obj
      reads this
    {
      Event(autoReset, signalled, waiters, [], arrivals, released)
    }

    constructor (auto: bool)
      ensures State() == Event(auto, false, [], [], [], []) && ObjOk(State())
    {
      autoReset, signalled, waiters := auto, false, [];
      arrivals, released := [], [];
    }

    method Wait(me: Waiter) returns (parked: bool)
      requires ObjOk(State())
      modifies this
      ensures ObjOk(State()) && State() == DoEvWait(old(State()), me).obj && parked == DoEvWait(old(State()), me).parks
    {
      EventKeepsOk(State(), 0, me);
      if signalled {
        if autoReset { signalled := false; }
        return false;
      }
      waiters, arrivals := waiters + [me], arrivals + [me.fiber];
      parked := true;
    }

    /** All the waiters of a manual event, or the first of an automatic one, in order. */
    method Set() returns (scheduled: seq<Waiter>)
      requires ObjOk(State())
      modifies this
      ensures ObjOk(State()) &&
              DoEvSet(old(State()), 0).obj ==
                Event(autoReset, signalled, waiters, Flights(0, scheduled), arrivals, released)
    {
      EventKeepsOk(State(), 0, Waiter(0, 0));
      scheduled := [];
      if autoReset {
        if waiters == [] {
          signalled := true;
          return;
        }
        var runnable := waiters[0];
        waiters, released := waiters[1..], released + [runnable.fiber];
        scheduled := [runnable];
      } else {
        signalled := true;
        var runnables := waiters;
        waiters, released := [], released + Names(runnables);
        var i := 0;
        while i < |runnables|
          invariant 0 <= i <= |runnables| && scheduled == runnables[..i]
        {
          scheduled := scheduled + [runnables[i]];
          i := i + 1;
        }
      }
    }

    method Reset()
      requires ObjOk(State())
      modifies this
      ensures ObjOk(State()) && State() == old(State()).(signalled := false)
    {
      signalled := false;
    }
  }
}

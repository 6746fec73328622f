/** Synchronization objects against the calls made on them: who owns a mutex, who waits in which
    order, how many permits and signals are left, all computed from the calls alone. */
module SyncHistory {
  import opened Common
  import opened FiberSync

  /** A call of an operation by a fiber on a thread. */
  datatype Called = Called(t: Tid, me: Waiter, op: Op)

  predicate Does(x: Obj, k: Called, y: Obj) {
    Legal(x, k.t, k.me.fiber, k.op) && y == Perform(x, k.t, k.me, k.op).obj
  }

  /** An object from its construction on, and the calls that led from one state to the next. */
  ghost predicate IsHistory(xs: seq<Obj>, ks: seq<Called>) {
    && |xs| == |ks| + 1 && FreshObj(xs[0])
    && forall i :: 0 <= i < |ks| ==> Does(xs[i], ks[i], xs[i + 1])
  }

  lemma HistorySnoc(xs: seq<Obj>, ks: seq<Called>, k: Called, y: Obj)
    requires IsHistory(xs, ks) && Does(xs[|ks|], k, y)
    ensures IsHistory(xs + [y], ks + [k])
  {
    hide Does, FreshObj;
  }

  /** What stays as constructed. */
  predicate SameKind(x: Obj, y: Obj) {
    match x
    case Monitor(_, conds, _, _, _, _, _, _, recursive, _) =>
      y.Monitor? && |y.conds| == |conds| && y.recursive == recursive
    case Semaphore(initial, _, _, _, _, _) => y.Semaphore? && y.initial == initial
    case Event(autoReset, _, _, _, _, _) => y.Event? && y.autoReset == autoReset
  }

  lemma FreshOk(x: Obj)
    requires FreshObj(x)
    ensures ObjOk(x)
  {
  }

  lemma {:induction false} HistoryOk(xs: seq<Obj>, ks: seq<Called>, n: nat)
    requires IsHistory(xs, ks) && n <= |ks|
    ensures ObjOk(xs[n]) && SameKind(xs[0], xs[n])
  {
    hide ObjOk, Perform, Legal, FreshObj;
    if n == 0 {
      FreshOk(xs[0]);
    } else {
      HistoryOk(xs, ks, n - 1);
      var k := ks[n - 1];
      assert Does(xs[n - 1], k, xs[n - 1 + 1]);
      PerformKeepsOk(xs[n - 1], k.t, k.me, k.op);
      KindKept(xs[n - 1], k, xs[n]);
    }
  }

  lemma KindKept(x: Obj, k: Called, y: Obj)
    requires Does(x, k, y)
    ensures SameKind(x, y)
  {
  }

  /** The fibers that the first n calls name, in order. */
  ghost function Log(xs: seq<Obj>, ks: seq<Called>, n: nat, what: (Obj, Called) -> seq<Fid>): seq<Fid>
    requires IsHistory(xs, ks) && n <= |ks|
  {
    if n == 0 then [] else Log(xs, ks, n - 1, what) + what(xs[n - 1], ks[n - 1])
  }

  /** How often something happens in the first n calls. */
  ghost function HowOften(xs: seq<Obj>, ks: seq<Called>, n: nat, what: (Obj, Called) -> nat): nat
    requires IsHistory(xs, ks) && n <= |ks|
  {
    if n == 0 then 0 else HowOften(xs, ks, n - 1, what) + what(xs[n - 1], ks[n - 1])
  }

  // ----- a mutex -----

  /** Who asks for the mutex: a fiber that locks it without owning it, and one let go by a condition. */
  function Asks(x: Obj, k: Called): seq<Fid> {
    if !x.Monitor? then []
    else
      match k.op
      case Lock => if x.mutex.owner == Some(k.me.fiber) then [] else [k.me.fiber]
      case SignalDeliver(i) => if i < |x.flying| then [x.flying[i].w.fiber] else []
      case Broadcast(c) => if c < |x.conds| then Names(x.conds[c].list) else []
      case _ => []
  }

  /** Unlocks at all: unlockIfNotUnique() only if somebody waits. */
  predicate Unlocks(x: Obj, k: Called) {
    x.Monitor? && (k.op == Unlock || k.op.CondWait? || (k.op == UnlockIfNotUnique && x.mutex.waiters != []))
  }

  /** The owner gives up its last level. */
  function GivesUp(x: Obj, k: Called): nat { if Unlocks(x, k) && x.depth == 1 then 1 else 0 }

  /** The mutex after these fibers asked for it and so many owners gave it up. */
  predicate Serves(m: Mutex, asked: seq<Fid>, given: nat) {
    if given < |asked| then m.owner == Some(asked[given]) && Names(m.waiters) == asked[given + 1..]
    else given == |asked| && m.owner == None && m.waiters == []
  }

  lemma AdmitsServe(m: Mutex, l: seq<Waiter>, asked: seq<Fid>, given: nat)
    requires Serves(m, asked, given)
    ensures Serves(AdmitAll(m, l).0, asked + Names(l), given)
  {
    hide Names;
    if l == [] {
      NoNames();
      assert asked + Names(l) == asked;
    } else if given < |asked| {
      QueuedServes(m, l, asked, given);
    } else {
      NamesTail(l);
      assert (asked + Names(l))[given + 1..] == Names(l)[1..];
      assert AdmitAll(m, l).0 == Mutex(Some(l[0].fiber), l[1..]) by { assert m.waiters + l[1..] == l[1..]; }
    }
  }

  lemma QueuedServes(m: Mutex, l: seq<Waiter>, asked: seq<Fid>, given: nat)
    requires Serves(m, asked, given) && given < |asked|
    ensures Serves(Mutex(m.owner, m.waiters + l), asked + Names(l), given)
  {
    hide Names;
    NamesAppend(m.waiters, l);
    assert (asked + Names(l))[given + 1..] == asked[given + 1..] + Names(l);
  }

  lemma NoNames()
    ensures Names([]) == []
  {
  }

  lemma {:induction false} NamesTail(ws: seq<Waiter>)
    requires ws != []
    ensures Names(ws) != [] && Names(ws)[0] == ws[0].fiber && Names(ws)[1..] == Names(ws[1..])
  {
  }

  lemma ReleaseServes(m: Mutex, asked: seq<Fid>, given: nat)
    requires Serves(m, asked, given) && given < |asked|
    ensures Serves(Release(m).0, asked, given + 1)
  {
    if m.waiters != [] {
      NamesTail(m.waiters);
      assert asked[given + 1..][1..] == asked[given + 2..];
    }
  }

  /** Every call keeps the queue in step with the fibers that asked and the owners that gave up. */
  lemma CallServes(x: Obj, k: Called, y: Obj, asked: seq<Fid>, given: nat)
    requires Does(x, k, y) && x.Monitor? && MonitorOk(x) && Serves(x.mutex, asked, given)
    ensures y.Monitor? && Serves(y.mutex, asked + Asks(x, k), given + GivesUp(x, k))
  {
    hide AdmitAll, MonitorOk, Names;
    assert asked + [] == asked;
    DepthOk(x);
    if k.op == Lock && x.mutex.owner != Some(k.me.fiber) {
      AdmitIsAcquire(x.mutex, k.me);
      AdmitsServe(x.mutex, [k.me], asked, given);
    } else if k.op.SignalDeliver? {
      AdmitIsAcquire(x.mutex, x.flying[k.op.i].w);
      AdmitsServe(x.mutex, [x.flying[k.op.i].w], asked, given);
    } else if k.op.Broadcast? {
      AdmitsServe(x.mutex, x.conds[k.op.c].list, asked, given);
    } else if GivesUp(x, k) == 1 {
      ReleaseServes(x.mutex, asked, given);
    }
  }

  lemma DepthOk(x: Obj)
    requires x.Monitor? && MonitorOk(x)
    ensures x.mutex.owner == None <==> x.depth == 0
    ensures !x.recursive ==> x.depth <= 1
  {
  }

  lemma AdmitIsAcquire(m: Mutex, w: Waiter)
    ensures Names([w]) == [w.fiber] && AdmitAll(m, [w]).0 == Admit(m, w).0 == Acquire(m, w).0
  {
    assert m.waiters + [w][1..] == m.waiters;
    assert Names([w][1..]) == [];
  }

  /** A mutex belongs to the first fiber that asked for it and whose turn has not ended: the n-th to ask is the
      n-th to own it, and the others wait in the order in which they asked. */
  lemma {:induction false} MutexServesInOrder(xs: seq<Obj>, ks: seq<Called>, n: nat)
    requires IsHistory(xs, ks) && n <= |ks| && xs[0].Monitor?
    ensures xs[n].Monitor?
    ensures var asked, given := Log(xs, ks, n, Asks), HowOften(xs, ks, n, GivesUp);
            if given < |asked| then
              xs[n].mutex.owner == Some(asked[given]) && Names(xs[n].mutex.waiters) == asked[given + 1..]
            else given == |asked| && xs[n].mutex.owner == None && xs[n].mutex.waiters == []
  {
    hide Does, FreshObj, MonitorOk, Asks, GivesUp, Names;
    HistoryOk(xs, ks, n);
    if n == 0 {
      FreshMutex(xs[0]);
    } else {
      HistoryOk(xs, ks, n - 1);
      MutexServesInOrder(xs, ks, n - 1);
      assert Does(xs[n - 1], ks[n - 1], xs[n - 1 + 1]);
      CallServes(xs[n - 1], ks[n - 1], xs[n], Log(xs, ks, n - 1, Asks), HowOften(xs, ks, n - 1, GivesUp));
    }
  }

  lemma FreshMutex(x: Obj)
    requires FreshObj(x) && x.Monitor?
    ensures x.mutex == Mutex(None, []) && x.flying == [] && x.depth == 0
    ensures forall c :: 0 <= c < |x.conds| ==> x.conds[c].list == []
  {
  }

  // ----- levels of a mutex -----

  function Times(s: seq<Fid>, f: Fid): nat { if s == [] then 0 else (if s[0] == f then 1 else 0) + Times(s[1..], f) }

  lemma {:induction false} TimesAppend(a: seq<Fid>, b: seq<Fid>, f: Fid)
    ensures Times(a + b, f) == Times(a, f) + Times(b, f)
  {
    if a == [] { assert a + b == b; }
    else { assert (a + b)[1..] == a[1..] + b; TimesAppend(a[1..], b, f); }
  }

  /** The levels that a fiber holds or waits for. */
  function Levels(x: Obj, f: Fid): nat {
    if !x.Monitor? then 0
    else (if x.mutex.owner == Some(f) then x.depth else 0) + Times(Names(x.mutex.waiters), f)
  }

  /** The levels that a fiber asks for in a call: every lock() of its own, nested or not. */
  function Enters(f: Fid): (Obj, Called) -> nat {
    (x: Obj, k: Called) => if k.op == Lock then (if k.me.fiber == f then 1 else 0) else Times(Asks(x, k), f)
  }

  function Exits(f: Fid): (Obj, Called) -> nat {
    (x: Obj, k: Called) => if Unlocks(x, k) && k.me.fiber == f then 1 else 0
  }

  lemma AdmitsLevels(x: Obj, y: Obj, l: seq<Waiter>, f: Fid)
    requires x.Monitor? && y.Monitor? && MonitorOk(x) && y.mutex == AdmitAll(x.mutex, l).0
    requires y.depth == if x.mutex.owner == None && l != [] then 1 else x.depth
    ensures Levels(y, f) == Levels(x, f) + Times(Names(l), f)
  {
    NamesAppend(x.mutex.waiters, l);
    TimesAppend(Names(x.mutex.waiters), Names(l), f);
    if l != [] && x.mutex.owner == None {
      NamesTail(l);
      assert x.mutex.waiters + l[1..] == l[1..];
    }
  }

  lemma LiftLevels(x: Obj, y: Obj, me: Fid, f: Fid)
    requires x.Monitor? && y.Monitor? && MonitorOk(x) && x.mutex.owner == Some(me)
    requires Recursive(y.mutex, y.depth) == Lift(Recursive(x.mutex, x.depth)).0
    ensures Levels(x, f) == Levels(y, f) + if f == me then 1 else 0
  {
    if x.mutex.waiters != [] { NamesTail(x.mutex.waiters); }
  }

  lemma CallLevels(x: Obj, k: Called, y: Obj, f: Fid)
    requires Does(x, k, y) && x.Monitor? && MonitorOk(x)
    ensures y.Monitor? && Levels(x, f) + Enters(f)(x, k) == Levels(y, f) + Exits(f)(x, k)
  {
    hide AdmitAll, MonitorOk, Names, Levels;
    DepthOk(x);
    if k.op == Lock {
      if x.mutex.owner == Some(k.me.fiber) {
        DeeperLevels(x, y, k.me.fiber, f);
      } else {
        AdmitIsAcquire(x.mutex, k.me);
        AdmitsLevels(x, y, [k.me], f);
      }
    } else if k.op.SignalDeliver? || k.op.Broadcast? {
      LetGoLevels(x, k, y, f);
    } else if Unlocks(x, k) {
      LiftLevels(x, y, k.me.fiber, f);
    } else {
      SameLevels(x, y, f);
    }
  }

  lemma LetGoLevels(x: Obj, k: Called, y: Obj, f: Fid)
    requires Does(x, k, y) && x.Monitor? && MonitorOk(x) && (k.op.SignalDeliver? || k.op.Broadcast?)
    ensures y.Monitor? && Levels(y, f) == Levels(x, f) + Times(Asks(x, k), f)
  {
    hide AdmitAll, MonitorOk, Names, Levels;
    if k.op.Broadcast? {
      AdmitAllDepth(x.mutex, x.conds[k.op.c].list);
      AdmitsLevels(x, y, x.conds[k.op.c].list, f);
    } else {
      AdmitIsAcquire(x.mutex, x.flying[k.op.i].w);
      AdmitsLevels(x, y, [x.flying[k.op.i].w], f);
    }
  }

  lemma SameLevels(x: Obj, y: Obj, f: Fid)
    requires x.Monitor? && y.Monitor? && x.mutex == y.mutex && x.depth == y.depth
    ensures Levels(x, f) == Levels(y, f)
  {
  }

  lemma DeeperLevels(x: Obj, y: Obj, me: Fid, f: Fid)
    requires x.Monitor? && y.Monitor? && x.mutex == y.mutex && y.depth == x.depth + 1 && x.mutex.owner == Some(me)
    ensures Levels(y, f) == Levels(x, f) + if f == me then 1 else 0
  {
  }

  lemma AdmitAllDepth(m: Mutex, l: seq<Waiter>)
    ensures AdmitAll(m, l).1.Some? <==> m.owner == None && l != []
  {
  }

  /** Every lock() of a fiber, and every time a condition let it go, is matched by an unlock() or wait() of
      its own, or is a level it holds, or is what it waits for. */
  lemma {:induction false} LevelsBalance(xs: seq<Obj>, ks: seq<Called>, n: nat, f: Fid)
    requires IsHistory(xs, ks) && n <= |ks| && xs[0].Monitor?
    ensures xs[n].Monitor?
    ensures HowOften(xs, ks, n, Enters(f)) == HowOften(xs, ks, n, Exits(f))
              + (if xs[n].mutex.owner == Some(f) then xs[n].depth else 0) + Times(Names(xs[n].mutex.waiters), f)
  {
    hide Does, FreshObj, MonitorOk, Enters, Exits, Names;
    HistoryOk(xs, ks, n);
    if n == 0 {
      FreshMutex(xs[0]);
      NoNames();
    } else {
      HistoryOk(xs, ks, n - 1);
      LevelsBalance(xs, ks, n - 1, f);
      assert Does(xs[n - 1], ks[n - 1], xs[n - 1 + 1]);
      CallLevels(xs[n - 1], ks[n - 1], xs[n], f);
    }
  }

  // ----- a condition -----

  function Comes(c: nat): (Obj, Called) -> seq<Fid> {
    (x: Obj, k: Called) => if k.op == CondWait(c) then [k.me.fiber] else []
  }

  /** How many fibers a call takes off the list: one for a signal() that finds somebody, all
      for a broadcast(). */
  function Goes(c: nat): (Obj, Called) -> nat {
    (x: Obj, k: Called) =>
      if !x.Monitor? || c >= |x.conds| then 0
      else if k.op == SignalTake(c) then (if x.conds[c].list == [] then 0 else 1)
      else if k.op == Broadcast(c) then |x.conds[c].list| else 0
  }

  lemma {:induction false} NamesLength(ws: seq<Waiter>)
    ensures |Names(ws)| == |ws|
  {
    if ws != [] { NamesLength(ws[1..]); }
  }

  lemma CallCondition(x: Obj, k: Called, y: Obj, c: nat, came: seq<Fid>, gone: nat)
    requires Does(x, k, y) && x.Monitor? && c < |x.conds| && gone <= |came| && Names(x.conds[c].list) == came[gone..]
    ensures y.Monitor? && c < |y.conds| && gone + Goes(c)(x, k) <= |came + Comes(c)(x, k)|
    ensures Names(y.conds[c].list) == (came + Comes(c)(x, k))[gone + Goes(c)(x, k)..]
  {
    hide Names;
    var l := x.conds[c].list;
    NamesLength(l);
    assert came + [] == came;
    if k.op == CondWait(c) {
      NamesAppend(l, [k.me]);
      AdmitIsAcquire(x.mutex, k.me);
      assert (came + [k.me.fiber])[gone..] == came[gone..] + [k.me.fiber];
    } else if k.op == SignalTake(c) && l != [] {
      NamesTail(l);
      assert came[gone..][1..] == came[gone + 1..];
    } else if k.op == Broadcast(c) {
      NoNames();
      assert came[|came|..] == [];
    } else {
      assert y.conds[c] == x.conds[c];
    }
  }

  /** Those who have left a condition are as many as signals found somebody there plus what broadcasts found,
      and they are those who came first. */
  lemma {:induction false} ConditionServesInOrder(xs: seq<Obj>, ks: seq<Called>, n: nat, c: nat)
    requires IsHistory(xs, ks) && n <= |ks| && xs[0].Monitor? && c < |xs[0].conds|
    ensures xs[n].Monitor? && c < |xs[n].conds|
    ensures var came, gone := Log(xs, ks, n, Comes(c)), HowOften(xs, ks, n, Goes(c));
            gone <= |came| && Names(xs[n].conds[c].list) == came[gone..]
  {
    hide Does, FreshObj, Comes, Goes, Names;
    HistoryOk(xs, ks, n);
    if n == 0 {
      FreshMutex(xs[0]);
      NoNames();
    } else {
      ConditionServesInOrder(xs, ks, n - 1, c);
      assert Does(xs[n - 1], ks[n - 1], xs[n - 1 + 1]);
      CallCondition(xs[n - 1], ks[n - 1], xs[n], c, Log(xs, ks, n - 1, Comes(c)), HowOften(xs, ks, n - 1, Goes(c)));
    }
  }

  /** signal() takes the first waiter along, and the caller is the one to hand it to the mutex. */
  lemma SignalTakesFirst(x: Obj, t: Tid, me: Waiter, c: nat)
    requires Legal(x, t, me.fiber, SignalTake(c))
    ensures var out := Perform(x, t, me, SignalTake(c));
            var l := x.conds[c].list;
            && out.obj.Monitor? && c < |out.obj.conds| && out.wakes == None && !out.parks && out.obj.mutex == x.mutex
            && (l == [] ==> out.obj == x)
            && (l != [] ==> out.obj.conds[c].list == l[1..] && out.obj.flying == x.flying + [Flight(t, l[0])])
  {
  }

  /** A waiter taken by signal() gets a free mutex, or a place behind those who wait for it. */
  lemma SignalHandsOver(x: Obj, t: Tid, me: Waiter, i: nat)
    requires Legal(x, t, me.fiber, SignalDeliver(i))
    ensures var out := Perform(x, t, me, SignalDeliver(i));
            var w := x.flying[i].w;
            && out.obj.Monitor? && !out.parks && out.obj.flying == x.flying[..i] + x.flying[i + 1..]
            && (x.mutex.owner == None ==> out.obj.mutex.owner == Some(w.fiber) && out.wakes == Some(w))
            && (x.mutex.owner != None ==>
              out.obj.mutex == Mutex(x.mutex.owner, x.mutex.waiters + [w]) && out.wakes == None)
  {
  }

  /** unlock() of the last level: the first in line is the owner and is scheduled, or nobody is. */
  lemma UnlockHandsOn(x: Obj, t: Tid, me: Waiter)
    requires Legal(x, t, me.fiber, Unlock) && MonitorOk(x) && x.depth == 1
    ensures var out := Perform(x, t, me, Unlock);
            && out.obj.Monitor? && !out.parks
            && (x.mutex.waiters == [] ==> out.obj.mutex == Mutex(None, []) && out.obj.depth == 0 && out.wakes == None)
            && (x.mutex.waiters != [] ==>
              && out.obj.mutex == Mutex(Some(x.mutex.waiters[0].fiber), x.mutex.waiters[1..])
              && out.obj.depth == 1 && out.wakes == Some(x.mutex.waiters[0]))
  {
  }

  // ----- a semaphore -----

  function Waits(x: Obj, k: Called): seq<Fid> { if k.op == SemWait then [k.me.fiber] else [] }

  function Notifies(x: Obj, k: Called): nat { if k.op == SemNotify then 1 else 0 }

  /** The semaphore after these fibers waited and so many permits were given. */
  predicate Permits(x: Obj, came: seq<Fid>, permits: nat)
    requires x.Semaphore?
  {
    if permits < |came| then x.available == 0 && Names(x.semWaiters) == came[permits..]
    else x.available == permits - |came| && x.semWaiters == []
  }

  lemma CallPermits(x: Obj, k: Called, y: Obj, came: seq<Fid>, permits: nat)
    requires Does(x, k, y) && x.Semaphore? && Permits(x, came, permits)
    ensures y.Semaphore? && Permits(y, came + Waits(x, k), permits + Notifies(x, k))
  {
    NamesLength(x.semWaiters);
    assert came + [] == came;
    if k.op == SemWait {
      NamesAppend(x.semWaiters, [k.me]);
      if permits <= |came| { assert (came + [k.me.fiber])[permits..] == came[permits..] + [k.me.fiber]; }
    } else if x.semWaiters != [] {
      NamesTail(x.semWaiters);
      assert came[permits..][1..] == came[permits + 1..];
    }
  }

  /** Permits go to those who wait in the order in which they came: only the numbers of wait() and
      notify() calls count, not how they interleave. */
  lemma {:induction false} SemaphoreServesInOrder(xs: seq<Obj>, ks: seq<Called>, n: nat)
    requires IsHistory(xs, ks) && n <= |ks| && xs[0].Semaphore?
    ensures xs[n].Semaphore?
    ensures var came, permits := Log(xs, ks, n, Waits), xs[0].initial + HowOften(xs, ks, n, Notifies);
            if permits < |came| then xs[n].available == 0 && Names(xs[n].semWaiters) == came[permits..]
            else xs[n].available == permits - |came| && xs[n].semWaiters == []
  {
    hide Does, FreshObj, Names;
    HistoryOk(xs, ks, n);
    if n == 0 {
      FreshSemaphore(xs[0]);
    } else {
      SemaphoreServesInOrder(xs, ks, n - 1);
      assert Does(xs[n - 1], ks[n - 1], xs[n - 1 + 1]);
      CallPermits(xs[n - 1], ks[n - 1], xs[n], Log(xs, ks, n - 1, Waits),
                  xs[0].initial + HowOften(xs, ks, n - 1, Notifies));
    }
  }

  lemma FreshSemaphore(x: Obj)
    requires FreshObj(x) && x.Semaphore?
    ensures x.available == x.initial && x.semWaiters == []
  {
  }

  // ----- an event -----

  function EvWaits(x: Obj, k: Called): nat { if k.op == EvWait then 1 else 0 }

  function Sets(x: Obj, k: Called): nat { if k.op == EvSet then 1 else 0 }

  /** A set() that finds the event signalled, or a reset() that does. */
  function Wasted(x: Obj, k: Called): nat {
    if x.Event? && x.signalled && (k.op == EvSet || k.op == EvReset) then 1 else 0
  }

  function Signals(x: Obj): nat { if x.Event? && x.signalled then 1 else 0 }

  lemma CallEvent(x: Obj, k: Called, y: Obj)
    requires Does(x, k, y) && x.Event? && x.autoReset && EventOk(x)
    ensures y.Event? && EvWaits(x, k) + |x.evWaiters| + Signals(y) + Wasted(x, k) ==
                        Sets(x, k) + |y.evWaiters| + Signals(x)
  {
  }

  /** Every set() of an automatic event lets one wait() pass, or is still to be consumed, or was wasted by
      another set() or a reset(): what passes is never more than what was set. */
  lemma {:induction false} AutomaticPassesOncePerSet(xs: seq<Obj>, ks: seq<Called>, n: nat)
    requires IsHistory(xs, ks) && n <= |ks| && xs[0].Event? && xs[0].autoReset
    ensures xs[n].Event?
    ensures HowOften(xs, ks, n, EvWaits) + (if xs[n].signalled then 1 else 0) + HowOften(xs, ks, n, Wasted) ==
            HowOften(xs, ks, n, Sets) + |xs[n].evWaiters|
  {
    hide Does, FreshObj;
    HistoryOk(xs, ks, n);
    if n == 0 {
      FreshEvent(xs[0]);
    } else {
      AutomaticPassesOncePerSet(xs, ks, n - 1);
      HistoryOk(xs, ks, n - 1);
      assert Does(xs[n - 1], ks[n - 1], xs[n - 1 + 1]);
      CallEvent(xs[n - 1], ks[n - 1], xs[n]);
    }
  }

  lemma FreshEvent(x: Obj)
    requires FreshObj(x) && x.Event?
    ensures !x.signalled && x.evWaiters == []
  {
  }

  /** set() takes along the first waiter of an automatic event, all those of a manual one, in order; the caller
      is the one to schedule them. */
  lemma SetTakesAlong(x: Obj, t: Tid, me: Waiter)
    requires Legal(x, t, me.fiber, EvSet)
    ensures var out := Perform(x, t, me, EvSet);
            var n := if x.autoReset then Min(1, |x.evWaiters|) else |x.evWaiters|;
            && out.obj.Event? && out.wakes == None && !out.parks && out.obj.evWaiters == x.evWaiters[n..]
            && |out.obj.evFlying| == |x.evFlying| + n && out.obj.evFlying[..|x.evFlying|] == x.evFlying
            && (forall i :: 0 <= i < n ==> out.obj.evFlying[|x.evFlying| + i] == Flight(t, x.evWaiters[i]))
            && (out.obj.signalled <==> x.signalled || !x.autoReset || x.evWaiters == [])
  {
  }

  /** The last of all set() and reset() calls was a set(). */
  function SetLast(ks: seq<Called>): bool {
    if ks == [] then false
    else
      var last := ks[|ks| - 1].op;
      last == EvSet || (last != EvReset && SetLast(ks[..|ks| - 1]))
  }

  /** A manual event lets pass every wait() between a set() and the next reset(), and no other,
      and nobody is left waiting after a set(). */
  lemma {:induction false} ManualPassesBetween(xs: seq<Obj>, ks: seq<Called>, n: nat)
    requires IsHistory(xs, ks) && n <= |ks| && xs[0].Event? && !xs[0].autoReset
    ensures xs[n].Event? && (xs[n].signalled <==> SetLast(ks[..n])) && (xs[n].signalled ==> xs[n].evWaiters == [])
    ensures n < |ks| && ks[n].op == EvWait ==>
              (Perform(xs[n], ks[n].t, ks[n].me, EvWait).parks <==> !SetLast(ks[..n]))
  {
    HistoryOk(xs, ks, n);
    if n > 0 {
      ManualPassesBetween(xs, ks, n - 1);
      assert Does(xs[n - 1], ks[n - 1], xs[n - 1 + 1]);
      assert ks[..n][..n - 1] == ks[..n - 1];
    }
  }
}

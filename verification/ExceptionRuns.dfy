/** When a run loop throws exactly what its own task threw: always on one thread, and on no larger
    number. */
module ExceptionRuns {
  import opened Common
  import opened Scheduling
  import opened FiberEngine
  import opened EngineSafety
  import opened FiberSync
  import opened World
  import opened HijackedRuns
  import opened StopDiscipline
  import opened TaskExceptions
  import opened Witnesses

  /** A run loop about to look at the task that came back to it. */
  ghost predicate Looks(tr: seq<World>, i: nat, t: Tid, n: nat) {
    && IsRun(tr) && i < |tr| && CleanTo(tr, i) && |tr[i].e.threads| == n
    && t < |tr[i].e.threads| && tr[i].e.threads[t].pc.Landed?
  }

  /** It rethrows exactly if that task has ended with an exception. */
  predicate SeesItsOwn(e: Engine, t: Tid)
    requires t < |e.threads| && e.threads[t].pc.Landed?
  {
    Rethrows(e, t) <==> e.threads[t].pc.last == Except
  }

  ghost predicate AlwaysItsOwn(n: nat) {
    forall tr: seq<World>, i: nat, t: Tid :: Looks(tr, i, t, n) ==> SeesItsOwn(tr[i].e, t)
  }

  // ----- one thread -----

  /** A task that has just come back holds an exception exactly if it ended with one. */
  lemma JustLanded(e: Engine, t: Tid, e': Engine)
    requires Inv(e) && Exceptions(e) && Enabled(e, Arrive(t)) && e.threads[t].pc == ArriveOut && e' == DoArriveOut(e, t)
    requires Exceptions(e') && t < |e'.threads| && e'.threads[t].pc.Landed?
    ensures e'.threads[t].pc.y in e'.fibers && SeesItsOwn(e', t)
  {
    hide Lists, Accounts, Roots;
    var y := e'.threads[t].pc.y;
    ArriveForm(e, t);
    assert ThreadOk(e, t);
    if e'.threads[t].pc.last == Except { ComesBack(e, t, e', y); }
    assert ThrownOk(e', y);
  }

  /** A thread that is about to look does nothing else. */
  lemma LooksNext(e: Engine, ev: Move)
    requires Enabled(e, ev) && e.threads[ev.t].pc.Landed?
    ensures ev.Land? && |Apply(e, ev).threads| == |e.threads| && !Apply(e, ev).threads[ev.t].pc.Landed?
  {
  }

  lemma CallLandsNowhere(w: World, c: Tid, o: Oid, op: Op)
    requires WorldInv(w) && Can(w, Call(c, o, op))
    ensures c < |DoCall(w, c, o, op).e.threads| && !DoCall(w, c, o, op).e.threads[c].pc.Landed?
  {
    hide Inv;
    var out := Perform(w.objs[o], c, Self(w.e, c), op);
    CallerCalls(w, c, o, op);
    WakeUpKeepsInv(w, o, out.wakes);
  }

  lemma ThreadsStay(w: World, a: Act)
    requires WorldInv(w) && Can(w, a)
    ensures |Next(w, a).e.threads| == |w.e.threads|
  {
    match a
    case Run(ev) => ThreadsKept(w.e, ev);
    case Call(c, o, op) => CallEngine(w, c, o, op);
  }

  lemma AloneStep(w: World, a: Act, w': World)
    requires WorldInv(w) && Can(w, a) && w' == Next(w, a) && |w.e.threads| == 1 == |w'.e.threads|
    requires w'.e.threads[0].pc.Landed?
    ensures a == Run(Arrive(0)) && w.e.threads[0].pc == ArriveOut && w'.e == DoArriveOut(w.e, 0)
  {
    hide Inv;
    match a
    case Run(ev) =>
      LandsAnew(w.e, ev);
      if w.e.threads[0].pc.Landed? { LooksNext(w.e, ev); }
    case Call(c, o, op) => CallLandsNowhere(w, c, o, op);
  }

  lemma AloneSeesItsOwn(tr: seq<World>, i: nat, t: Tid)
    requires Looks(tr, i, t, 1)
    ensures SeesItsOwn(tr[i].e, t)
  {
    hide WorldInv, Exceptions, SeesItsOwn, Next, Can, WorldStarts;
    if i == 0 {
      StartsUnlanded(tr[0], t);
    } else {
      var w := tr[i - 1];
      RunHoldsInv(tr, i - 1);
      RunExceptions(tr, i - 1);
      RunExceptions(tr, i);
      assert WorldStep(tr[i - 1], tr[i - 1 + 1]);
      var a :| Follows(w, a, tr[i]);
      ThreadsStay(w, a);
      AloneStep(w, a, tr[i]);
      LandedAlone(w, tr[i]);
    }
  }

  lemma StartsUnlanded(w: World, t: Tid)
    requires WorldStarts(w) && t < |w.e.threads|
    ensures !w.e.threads[t].pc.Landed?
  {
    assert ThreadStarts(w.e, t);
  }

  lemma LandedAlone(w: World, w': World)
    requires WorldInv(w) && Exceptions(w.e) && Exceptions(w'.e) && Can(w, Run(Arrive(0))) && w'.e == DoArriveOut(w.e, 0)
    requires |w'.e.threads| == 1 && w.e.threads[0].pc == ArriveOut && w'.e.threads[0].pc.Landed?
    ensures SeesItsOwn(w'.e, 0)
  {
    hide Inv, Exceptions;
    JustLanded(w.e, 0, w'.e);
  }

  // ----- two threads or more -----

  /** n spawned threads with one scheduler. */
  function Spawned(t: Tid): Thread {
    Thread(0, 2 * t, 2 * t, 2 * t + 1, 2 * t, 2 * t, Loop, [], false, None, false, false, None, false)
  }

  function SpawnedFiber(f: Fid): Fiber {
    if f % 2 == 0 then NativeFiber(LoopOf(f / 2), f / 2) else NewFiber(IdleOf(f / 2))
  }

  function Workers(n: nat): World {
    World(Engine(map f: nat | f < 2 * n :: SpawnedFiber(f), seq(n, (t: nat) => Spawned(t)),
                 [Sched([], 0, false, 1, multiset{}, multiset{})]), [], map[])
  }

  lemma WorkersStart(n: nat)
    ensures WorldStarts(Workers(n)) && Unhijacked(Workers(n).e)
  {
    var e := Workers(n).e;
    forall t | 0 <= t < |e.threads| ensures ThreadStarts(e, t) {
      assert (2 * t) / 2 == t && (2 * t + 1) / 2 == t && (2 * t) % 2 == 0 && (2 * t + 1) % 2 == 1;
      assert 2 * t in e.fibers && 2 * t + 1 in e.fibers;
    }
    forall f | f in e.fibers ensures FiberStarts(e, f) { assert f / 2 < n; }
  }

  // Thread 1 schedules fiber f, thread 0 runs it.

  function Queue(e: Engine): seq<Item> { if e.scheds == [] then [] else e.scheds[0].queue }

  predicate Pool(e: Engine, f: Fid) {
    && 2 <= |e.threads| && f == 2 * |e.threads| && f + 1 !in e.fibers && |e.scheds| == 1 && e.scheds[0].batchSize == 1
  }

  /** A thread at its run loop. */
  predicate Ready(e: Engine, t: Tid, pc: Pc) {
    && t < |e.threads| && e.threads[t] == Spawned(t).(pc := pc, active := e.threads[t].active)
    && 2 * t in e.fibers && e.fibers[2 * t] == NativeFiber(LoopOf(t), t).(next := e.fibers[2 * t].next)
  }

  predicate Fresh(e: Engine, t: Tid) {
    Ready(e, t, Loop) && !e.threads[t].active && 2 * t + 1 in e.fibers && e.fibers[2 * t + 1] == NewFiber(IdleOf(t))
  }

  /** A thread in its idle function. */
  predicate AtIdle(e: Engine, t: Tid) {
    && t < |e.threads| && e.threads[t] == Spawned(t).(pc := Idle, current := 2 * t + 1, ctx := 2 * t + 1)
    && 2 * t in e.fibers && e.fibers[2 * t] == NativeFiber(LoopOf(t), t).(next := e.fibers[2 * t].next)
    && 2 * t + 1 in e.fibers
    && e.fibers[2 * t + 1] == NewFiber(IdleOf(t)).(state := Exec, outer := Some(2 * t), on := Some(t))
  }

  /** The fiber in a state and a place, ready to be resumed. */
  predicate Suspended(e: Engine, f: Fid, st: FiberState, p: Place) {
    && f in e.fibers && e.fibers[f].state == st && e.fibers[f].place == p && e.fibers[f].yielder == None
    && e.fibers[f].outer == None && e.fibers[f].stack && e.fibers[f].on == None && !e.fibers[f].thrown
    && !e.fibers[f].own
  }

  /** The fiber runs client code on the thread. */
  predicate OnThread(e: Engine, t: Tid, f: Fid) {
    && t < |e.threads|
    && e.threads[t] == Spawned(t).(pc := User, current := f, ctx := f, active := e.threads[t].active)
    && 2 * t in e.fibers
    && e.fibers[2 * t] == NativeFiber(LoopOf(t), t).(state := Hold, on := None, next := e.fibers[2 * t].next)
    && f in e.fibers && e.fibers[f].state == Exec && e.fibers[f].place == Held(t) && e.fibers[f].yielder == None
    && e.fibers[f].outer == None && e.fibers[f].stack && e.fibers[f].on == Some(t) && !e.fibers[f].thrown
    && e.fibers[f].terminateOuter == Some(2 * t) && !e.fibers[f].own
  }

  /** Thread u and its fibers are left alone. */
  predicate Beside(e: Engine, e': Engine, u: Tid) {
    && |e'.threads| == |e.threads| && (u < |e.threads| ==> e'.threads[u] == e.threads[u])
    && (2 * u in e.fibers ==> 2 * u in e'.fibers && e'.fibers[2 * u] == e.fibers[2 * u])
    && (2 * u + 1 in e.fibers ==> 2 * u + 1 in e'.fibers && e'.fibers[2 * u + 1] == e.fibers[2 * u + 1])
  }

  function Ticket(f: Fid): Item { Item(FiberTask(f), None) }

  lemma CallsIdle(e: Engine, f: Fid) returns (e1: Engine, e2: Engine)
    requires Pool(e, f) && Fresh(e, 1)
    ensures Enabled(e, CallIdle(1)) && e1 == Apply(e, CallIdle(1))
    ensures Enabled(e1, Switch(1)) && e2 == Apply(e1, Switch(1))
    ensures Pool(e2, f) && AtIdle(e2, 1) && Beside(e, e2, 0) && e2.scheds == e.scheds
    ensures f in e2.fibers <==> f in e.fibers
  {
    e1 := DoCallIdle(e, 1);
    e2 := DoSwitch(e1, 1);
  }

  lemma Schedules(e: Engine, f: Fid) returns (e1: Engine, e2: Engine)
    requires Pool(e, f) && AtIdle(e, 1) && f !in e.fibers && Queue(e) == []
    ensures Enabled(e, Create(1, f)) && e1 == Apply(e, Create(1, f))
    ensures Enabled(e1, Schedule(1, 0, f, None)) && e2 == Apply(e1, Schedule(1, 0, f, None))
    ensures Pool(e2, f) && AtIdle(e2, 1) && Beside(e, e2, 0) && Queue(e2) == [Ticket(f)]
    ensures Suspended(e2, f, Init, Queued(0))
  {
    e1 := e.(fibers := e.fibers[f := NewFiber(Loose)]);
    e2 := DoSchedule(e1, 0, f, None);
  }

  /** The thread has taken the fiber into its batch. */
  predicate InBatch(e: Engine, t: Tid, f: Fid) {
    && t < |e.threads| && e.threads[t] == Spawned(t).(batch := [Ticket(f)], active := true)
    && 2 * t in e.fibers && e.fibers[2 * t] == NativeFiber(LoopOf(t), t).(next := e.fibers[2 * t].next)
  }

  lemma Selects(e: Engine, t: Tid, f: Fid, st: FiberState, u: Tid) returns (e1: Engine)
    requires Pool(e, f) && Ready(e, t, Loop) && Queue(e) == [Ticket(f)] && Suspended(e, f, st, Queued(0))
    requires st in {Init, Hold} && t != u && u < |e.threads|
    ensures Enabled(e, Select(t, {})) && e1 == Apply(e, Select(t, {}))
    ensures Pool(e1, f) && InBatch(e1, t, f) && Queue(e1) == [] && Suspended(e1, f, st, Batched(t)) && Beside(e, e1, u)
  {
    TakesOne(Ticket(f), t);
    assert FibersOf([Ticket(f)]) == {f} by { assert Ticket(f) in [Ticket(f)]; }
    e1 := DoSelect(e, t, {});
  }

  lemma Pops(e: Engine, t: Tid, f: Fid, st: FiberState, u: Tid) returns (e1: Engine)
    requires Pool(e, f) && InBatch(e, t, f) && Suspended(e, f, st, Batched(t)) && st in {Init, Hold}
    requires t != u && u < |e.threads|
    ensures Enabled(e, Pop(t, f + 1)) && e1 == Apply(e, Pop(t, f + 1))
    ensures Pool(e1, f) && Ready(e1, t, Resume(f)) && Queue(e1) == Queue(e) && Suspended(e1, f, st, Held(t))
    ensures Beside(e, e1, u)
  {
    e1 := DoPop(e, t, f + 1);
  }

  /** The thread is about to switch to the fiber, or just has. */
  predicate Entering(e: Engine, t: Tid, f: Fid, pc: Pc, ctx: Fid) {
    && t < |e.threads|
    && e.threads[t] == Spawned(t).(pc := pc, current := f, ctx := ctx, active := e.threads[t].active)
    && 2 * t in e.fibers && e.fibers[2 * t] == NativeFiber(LoopOf(t), t).(next := e.fibers[2 * t].next)
    && f in e.fibers && e.fibers[f].state == Exec && e.fibers[f].place == Held(t)
    && e.fibers[f].yielder == Some(2 * t) && e.fibers[f].next == Hold
    && e.fibers[f].outer == None && e.fibers[f].stack && e.fibers[f].on == Some(t) && !e.fibers[f].thrown
    && e.fibers[f].terminateOuter == Some(2 * t) && !e.fibers[f].own
  }

  lemma Enters(e: Engine, t: Tid, f: Fid, st: FiberState, u: Tid) returns (e1: Engine)
    requires Pool(e, f) && Ready(e, t, Resume(f)) && Suspended(e, f, st, Held(t)) && st in {Init, Hold} && t != u
    requires u < |e.threads|
    ensures Enabled(e, Enter(t)) && e1 == Apply(e, Enter(t))
    ensures Pool(e1, f) && Entering(e1, t, f, SwitchIn(f), 2 * t) && Queue(e1) == Queue(e) && Beside(e, e1, u)
  {
    hide Apply, Enabled;
    EnterIs(e, t);
    e1 := DoEnter(e, t);
  }

  lemma Switches(e: Engine, t: Tid, f: Fid, u: Tid) returns (e1: Engine)
    requires Pool(e, f) && Entering(e, t, f, SwitchIn(f), 2 * t) && t != u && u < |e.threads|
    ensures Enabled(e, Switch(t)) && e1 == Apply(e, Switch(t))
    ensures Pool(e1, f) && Entering(e1, t, f, ArriveIn, f) && Queue(e1) == Queue(e) && Beside(e, e1, u)
  {
    hide Apply, Enabled;
    SwitchIs(e, t);
    e1 := DoSwitch(e, t);
  }

  lemma Arrives(e: Engine, t: Tid, f: Fid, u: Tid) returns (e1: Engine)
    requires Pool(e, f) && Entering(e, t, f, ArriveIn, f) && t != u && u < |e.threads|
    ensures Enabled(e, Arrive(t)) && e1 == Apply(e, Arrive(t))
    ensures Pool(e1, f) && OnThread(e1, t, f) && Queue(e1) == Queue(e) && Beside(e, e1, u)
  {
    hide Apply, Enabled;
    ArriveIs(e, t);
    e1 := DoArriveIn(e, t);
  }

  /** Thread t takes the fiber from the queue and runs it. */
  lemma Runs(tr: seq<World>, t: Tid, f: Fid, st: FiberState, u: Tid) returns (tr': seq<World>)
    requires IsRun(tr) && Pool(Last(tr), f) && Ready(Last(tr), t, Loop) && Queue(Last(tr)) == [Ticket(f)]
    requires Suspended(Last(tr), f, st, Queued(0)) && st in {Init, Hold} && t != u && u < |Last(tr).threads|
    ensures IsRun(tr') && tr'[0] == tr[0] && Pool(Last(tr'), f) && OnThread(Last(tr'), t, f) && Queue(Last(tr')) == []
    ensures Beside(Last(tr), Last(tr'), u)
  {
    hide Calm, Ready, Suspended, OnThread, Pool, Queue;
    tr' := TakenUp(tr, t, f, st, u);
    var e1 := Last(tr');
    tr' := Resumes(tr', t, f, st, u);
    assert Beside(Last(tr), e1, u);
  }

  lemma TakenUp(tr: seq<World>, t: Tid, f: Fid, st: FiberState, u: Tid) returns (tr': seq<World>)
    requires IsRun(tr) && Pool(Last(tr), f) && Ready(Last(tr), t, Loop) && Queue(Last(tr)) == [Ticket(f)]
    requires Suspended(Last(tr), f, st, Queued(0)) && st in {Init, Hold} && t != u && u < |Last(tr).threads|
    ensures IsRun(tr') && tr'[0] == tr[0] && Pool(Last(tr'), f) && Ready(Last(tr'), t, Resume(f))
    ensures Queue(Last(tr')) == [] && Suspended(Last(tr'), f, st, Held(t)) && Beside(Last(tr), Last(tr'), u)
  {
    hide Calm, Apply, Enabled, Ready, Suspended, InBatch, Pool, Queue;
    var e1 := Selects(Last(tr), t, f, st, u);
    tr' := Steps(tr, Select(t, {}), e1);
    var e2 := Pops(e1, t, f, st, u);
    tr' := Steps(tr', Pop(t, f + 1), e2);
  }

  lemma Resumes(tr: seq<World>, t: Tid, f: Fid, st: FiberState, u: Tid) returns (tr': seq<World>)
    requires IsRun(tr) && Pool(Last(tr), f) && Ready(Last(tr), t, Resume(f)) && Suspended(Last(tr), f, st, Held(t))
    requires st in {Init, Hold} && t != u && u < |Last(tr).threads|
    ensures IsRun(tr') && tr'[0] == tr[0] && Pool(Last(tr'), f) && OnThread(Last(tr'), t, f)
    ensures Queue(Last(tr')) == Queue(Last(tr)) && Beside(Last(tr), Last(tr'), u)
  {
    hide Calm, Apply, Enabled, Ready, Suspended, OnThread, Entering, Pool, Queue;
    var e1 := Enters(Last(tr), t, f, st, u);
    tr' := Steps(tr, Enter(t), e1);
    var e2 := Switches(e1, t, f, u);
    tr' := Steps(tr', Switch(t), e2);
    var e3 := Arrives(e2, t, f, u);
    tr' := Steps(tr', Arrive(t), e3);
  }

  lemma WorkersFresh(n: nat)
    requires n >= 2
    ensures Pool(Workers(n).e, 2 * n) && Fresh(Workers(n).e, 0) && Fresh(Workers(n).e, 1)
    ensures Queue(Workers(n).e) == [] && 2 * n !in Workers(n).e.fibers
  {
  }

  /** Fiber f runs on thread 0, with thread 1 in its idle function. */
  lemma Begins(n: nat) returns (tr: seq<World>)
    requires n >= 2
    ensures IsRun(tr) && tr[0] == Workers(n) && |Last(tr).threads| == n && Pool(Last(tr), 2 * n)
    ensures OnThread(Last(tr), 0, 2 * n) && AtIdle(Last(tr), 1) && Queue(Last(tr)) == []
  {
    hide Calm, Apply, Enabled, WorldStarts, OnThread, Suspended;
    var f := 2 * n;
    WorkersStart(n);
    WorkersFresh(n);
    var e1, e2 := CallsIdle(Workers(n).e, f);
    tr := Steps([Workers(n)], CallIdle(1), e1);
    tr := Steps(tr, Switch(1), e2);
    var e3, e4 := Schedules(e2, f);
    tr := Steps(tr, Create(1, f), e3);
    tr := Steps(tr, Schedule(1, 0, f, None), e4);
    tr := Runs(tr, 0, f, Init, 1);
  }

  lemma LeavesIdle(e: Engine, f: Fid) returns (e1: Engine, e2: Engine, e3: Engine)
    requires Pool(e, f) && AtIdle(e, 1) && OnThread(e, 0, f)
    ensures Enabled(e, YieldIdle(1, Hold)) && e1 == Apply(e, YieldIdle(1, Hold))
    ensures Enabled(e1, Switch(1)) && e2 == Apply(e1, Switch(1))
    ensures Enabled(e2, Arrive(1)) && e3 == Apply(e2, Arrive(1))
    ensures Pool(e3, f) && Ready(e3, 1, Loop) && OnThread(e3, 0, f) && Queue(e3) == Queue(e)
  {
    hide Apply, Enabled;
    YieldIdleIs(e, 1);
    e1 := DoYieldIdle(e, 1, Hold);
    SwitchIs(e1, 1);
    e2 := DoSwitch(e1, 1);
    ArriveIs(e2, 1);
    e3 := DoArriveBack(e2, 1);
  }

  lemma YieldIdleIs(e: Engine, t: Tid)
    requires t < |e.threads| && e.threads[t].pc == Idle
    ensures Enabled(e, YieldIdle(t, Hold)) && Apply(e, YieldIdle(t, Hold)) == DoYieldIdle(e, t, Hold)
  {
  }

  /** The fiber has given itself to the queue, or failed, and thread 0 is on its way to its run loop. */
  predicate Going(e: Engine, f: Fid, p: Place, next: FiberState, thrown: bool) {
    && Pool(e, f)
    && e.threads[0] == Spawned(0).(pc := SwitchOut(0), current := 0, ctx := f, active := e.threads[0].active)
    && 0 in e.fibers && e.fibers[0] == NativeFiber(LoopOf(0), 0).(yielder := Some(f), next := next)
    && f in e.fibers && e.fibers[f].state == Exec && e.fibers[f].place == p && e.fibers[f].yielder == None
    && e.fibers[f].outer == None && e.fibers[f].stack && e.fibers[f].on == Some(0) && e.fibers[f].thrown == thrown
    && !e.fibers[f].own
  }

  lemma YieldsAway(e: Engine, f: Fid) returns (e1: Engine, e2: Engine)
    requires Pool(e, f) && OnThread(e, 0, f) && Queue(e) == []
    ensures Enabled(e, SwitchTo(0, 0, None)) && e1 == Apply(e, SwitchTo(0, 0, None))
    ensures Enabled(e1, Leave(0)) && e2 == Apply(e1, Leave(0))
    ensures Going(e2, f, Queued(0), Hold, false) && Queue(e2) == [Ticket(f)] && Beside(e, e2, 1)
  {
    e1 := DoSwitchTo(e, 0, 0, None);
    e2 := DoLeave(e1, 0);
  }

  lemma FailsAway(e: Engine, f: Fid) returns (e1: Engine, e2: Engine)
    requires Pool(e, f) && OnThread(e, 0, f)
    ensures Enabled(e, Throw(0)) && e1 == Apply(e, Throw(0))
    ensures Enabled(e1, Exit(0, Except)) && e2 == Apply(e1, Exit(0, Except))
    ensures Going(e2, f, Held(0), Except, true) && Beside(e, e2, 1)
  {
    e1 := DoThrow(e, 0);
    e2 := DoExit(e1, 0, Except);
  }

  lemma Lands(e: Engine, f: Fid, p: Place, next: FiberState, thrown: bool) returns (e1: Engine, e2: Engine)
    requires Going(e, f, p, next, thrown)
    ensures Enabled(e, Switch(0)) && e1 == Apply(e, Switch(0))
    ensures Enabled(e1, Arrive(0)) && e2 == Apply(e1, Arrive(0))
    ensures Pool(e2, f) && Ready(e2, 0, Landed(f, next)) && Queue(e2) == Queue(e) && Beside(e, e2, 1)
    ensures f in e2.fibers && e2.fibers[f] == Left(e.fibers[f], next)
  {
    hide Apply, Enabled;
    SwitchIs(e, 0);
    e1 := DoSwitch(e, 0);
    ArriveIs(e1, 0);
    e2 := DoArriveOut(e1, 0);
  }

  /** The fiber has queued itself and come back; thread 1 is free to take it. */
  lemma Yielded(n: nat) returns (tr: seq<World>)
    requires n >= 2
    ensures IsRun(tr) && tr[0] == Workers(n) && |Last(tr).threads| == n && Pool(Last(tr), 2 * n)
    ensures Ready(Last(tr), 0, Landed(2 * n, Hold)) && Ready(Last(tr), 1, Loop)
    ensures Queue(Last(tr)) == [Ticket(2 * n)] && Suspended(Last(tr), 2 * n, Hold, Queued(0))
  {
    hide Calm, Apply, Enabled;
    var f := 2 * n;
    tr := Begins(n);
    var e1, e2, e3 := LeavesIdle(Last(tr), f);
    tr := Steps(tr, YieldIdle(1, Hold), e1);
    tr := Steps(tr, Switch(1), e2);
    tr := Steps(tr, Arrive(1), e3);
    var e4, e5 := YieldsAway(e3, f);
    tr := Steps(tr, SwitchTo(0, 0, None), e4);
    tr := Steps(tr, Leave(0), e5);
    var e6, e7 := Lands(e5, f, Queued(0), Hold, false);
    tr := Steps(tr, Switch(0), e6);
    tr := Steps(tr, Arrive(0), e7);
  }

  lemma Throws(e: Engine, f: Fid) returns (e1: Engine)
    requires Pool(e, f) && Ready(e, 0, Landed(f, Hold)) && OnThread(e, 1, f)
    ensures Enabled(e, Throw(1)) && e1 == Apply(e, Throw(1)) && |e1.threads| == |e.threads|
    ensures e1.threads[0].pc == Landed(f, Hold) && Rethrows(e1, 0)
    ensures e1.threads[1].pc == Failing && e1.threads[1].ctx == f
  {
    e1 := DoThrow(e, 1);
  }

  /** A run loop is about to throw for a task that only yielded: another thread has resumed the task
      since, and there it has failed. */
  lemma WrongLoopThrows(n: nat) returns (tr: seq<World>)
    requires n >= 2
    ensures tr != [] && Looks(tr, |tr| - 1, 0, n) && Last(tr).threads[0].pc.last == Hold && Rethrows(Last(tr), 0)
    ensures Last(tr).threads[1].pc == Failing && Last(tr).threads[1].ctx == Last(tr).threads[0].pc.y
  {
    hide Calm, Apply, Enabled, OnThread, Suspended;
    var f := 2 * n;
    tr := Yielded(n);
    tr := Runs(tr, 1, f, Hold, 0);
    var e1 := Throws(Last(tr), f);
    tr := Steps(tr, Throw(1), e1);
    WorkersStart(n);
    UnhijackedIsSafe(tr);
  }

  lemma Resets(e: Engine, f: Fid) returns (e1: Engine)
    requires Pool(e, f) && Ready(e, 0, Landed(f, Except)) && AtIdle(e, 1)
    requires f in e.fibers && e.fibers[f].place == Loose && e.fibers[f].state == Except
    ensures Enabled(e, ResetFiber(1, f)) && e1 == Apply(e, ResetFiber(1, f)) && |e1.threads| == |e.threads|
    ensures e1.threads[0].pc == Landed(f, Except) && !Rethrows(e1, 0)
  {
    e1 := e.(fibers := e.fibers[f := Reset(e.fibers[f], Loose)]);
  }

  /** A run loop is about to miss the exception of its task: client code on another thread has reset
      the fiber, which has ended. */
  lemma ExceptionIsLost(n: nat) returns (tr: seq<World>)
    requires n >= 2
    ensures tr != [] && Looks(tr, |tr| - 1, 0, n) && Last(tr).threads[0].pc.last == Except && !Rethrows(Last(tr), 0)
  {
    hide Calm, Apply, Enabled, SafeRun;
    var f := 2 * n;
    tr := FailsThere(n);
    var e1 := Resets(Last(tr), f);
    tr := Steps(tr, ResetFiber(1, f), e1);
    WorkersStart(n);
    UnhijackedIsSafe(tr);
  }

  /** The fiber has failed on thread 0 and come back; thread 1 is in its idle function. */
  lemma FailsThere(n: nat) returns (tr: seq<World>)
    requires n >= 2
    ensures IsRun(tr) && tr[0] == Workers(n) && |Last(tr).threads| == n && Pool(Last(tr), 2 * n)
    ensures Ready(Last(tr), 0, Landed(2 * n, Except)) && AtIdle(Last(tr), 1)
    ensures 2 * n in Last(tr).fibers
    ensures Last(tr).fibers[2 * n].place == Loose && Last(tr).fibers[2 * n].state == Except
  {
    hide Calm, Apply, Enabled, OnThread, Workers;
    var f := 2 * n;
    tr := Begins(n);
    var e1, e2 := FailsAway(Last(tr), f);
    tr := Steps(tr, Throw(0), e1);
    tr := Steps(tr, Exit(0, Except), e2);
    var e3, e4 := Lands(e2, f, Held(0), Except, true);
    tr := Steps(tr, Switch(0), e3);
    tr := Steps(tr, Arrive(0), e4);
  }

  /** Every run loop throws exactly what its own task threw if and only if there is one thread at most. */
  lemma ItsOwnIffAlone(n: nat)
    ensures AlwaysItsOwn(n) <==> n <= 1
  {
    if n == 1 {
      forall tr: seq<World>, i: nat, t: Tid | Looks(tr, i, t, 1) ensures SeesItsOwn(tr[i].e, t) {
        AloneSeesItsOwn(tr, i, t);
      }
    }
    if n >= 2 {
      var tr := WrongLoopThrows(n);
      assert !SeesItsOwn(tr[|tr| - 1].e, 0);
    }
  }
}

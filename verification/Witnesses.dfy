/** Concrete runs: what the machine can really get into. */
module Witnesses {
  import opened Common
  import opened Scheduling
  import opened FiberEngine
  import opened EngineSafety
  import opened FiberSync
  import opened World
  import opened StopCalls
  import opened HijackedRuns

  /** A hijacked thread: the fiber of its own stack runs client code, the run loop has not started. */
  function RootThread(t: Tid): Thread {
    Thread(t, 3 * t, 3 * t + 1, 3 * t + 2, 3 * t, 3 * t, User, [], false, None, false, false, None, true)
  }

  function Native(t: Tid): Fiber { NativeFiber(Held(t), t) }

  /** Two of them with a scheduler each, and one mutex. */
  function TwoThreads(): World {
    World(Engine(map[0 := Native(0), 1 := NewFiber(LoopOf(0)), 2 := NewFiber(IdleOf(0)),
                     3 := Native(1), 4 := NewFiber(LoopOf(1)), 5 := NewFiber(IdleOf(1))],
                 [RootThread(0), RootThread(1)],
                 [Sched([], 0, false, 1, multiset{}, multiset{}), Sched([], 0, false, 1, multiset{}, multiset{})]),
          [Monitor(Mutex(None, []), [], [], [], [], [], [], false, false, 0)], map[])
  }

  lemma TwoThreadsStart()
    ensures WorldStarts(TwoThreads())
  {
    hide ThreadStarts;
    EachThreadStarts(0);
    EachThreadStarts(1);
  }

  lemma EachThreadStarts(t: Tid)
    requires t < 2
    ensures ThreadStarts(TwoThreads().e, t)
  {
  }

  lemma TwoThreadsCalm()
    ensures Calm([TwoThreads()])
  {
  }

  /** A run with one more step. */
  lemma Extend(tr: seq<World>, a: Act) returns (tr': seq<World>)
    requires IsRun(tr) && Can(tr[|tr| - 1], a)
    ensures IsRun(tr') && |tr'| == |tr| + 1 && tr'[|tr|] == Next(tr[|tr| - 1], a) && tr'[..|tr|] == tr
  {
    var w' := Next(tr[|tr| - 1], a);
    tr' := tr + [w'];
    assert Follows(tr[|tr| - 1], a, w');
    forall k | 0 <= k < |tr'| - 1 ensures WorldStep(tr'[k], tr'[k + 1]) {
      if k < |tr| - 1 { assert WorldStep(tr[k], tr[k + 1]); }
    }
  }

  function Last(tr: seq<World>): Engine
    requires tr != []
  {
    tr[|tr| - 1].e
  }

  /** A clean run of the two threads in which the first has done nothing. */
  ghost predicate Calm(tr: seq<World>) {
    && tr != [] && CleanRun(tr) && |Last(tr).threads| == 2
    && Last(tr).threads[0] == RootThread(0) && Hijacked(Last(tr).threads[1])
  }

  /** A step of the second thread that does not end its run loop. */
  lemma StaysCalm(tr: seq<World>, ev: Move, tr': seq<World>)
    requires Calm(tr) && ev.t == 1 && !ev.End? && |tr'| == |tr| + 1 && tr'[..|tr|] == tr
    requires Follows(tr[|tr| - 1], Run(ev), tr'[|tr|])
    ensures Calm(tr')
  {
    hide Apply;
    var e := Last(tr);
    OtherThreadKept(e, ev, 0);
    RolesKeptByMove(e, ev, 1);
    NotEnding(e, ev);
    forall i, ev' | 0 <= i < |tr'| && i + 1 < |tr'| && Follows(tr'[i], Run(ev'), tr'[i + 1])
      ensures Clean(tr'[i].e, ev')
    {
      if i + 1 < |tr| { assert tr'[i] == tr[i] && tr'[i + 1] == tr[i + 1]; }
      else { assert tr'[i] == tr[|tr| - 1]; }
    }
  }

  lemma NotEnding(e: Engine, ev: Move)
    requires Enabled(e, ev) && !ev.End?
    ensures !e.threads[ev.t].pc.Ending?
  {
  }

  predicate Same(w: World, w': World) { w'.objs == w.objs && w'.pending == w.pending }

  /** A run with one more step of the engine, in which no fiber comes back to its task. */
  lemma Moves(tr: seq<World>, ev: Move) returns (tr': seq<World>)
    requires IsRun(tr) && !ev.Park? && !ev.Wake? && Enabled(tr[|tr| - 1].e, ev)
    requires ev.Arrive? ==> tr[|tr| - 1].e.threads[ev.t].pc != ArriveIn
    ensures IsRun(tr') && Same(tr[|tr| - 1], tr'[|tr'| - 1]) && tr'[|tr'| - 1].e == Apply(tr[|tr| - 1].e, ev)
    ensures Calm(tr) && ev.t == 1 && !ev.End? ==> Calm(tr')
  {
    hide Calm;
    tr' := Extend(tr, Run(ev));
    if Calm(tr) && ev.t == 1 && !ev.End? { StaysCalm(tr, ev, tr'); }
  }

  /** A run with one more step of the engine. */
  lemma Steps(tr: seq<World>, ev: Move, e': Engine) returns (tr': seq<World>)
    requires IsRun(tr) && Enabled(Last(tr), ev) && e' == Apply(Last(tr), ev) && !ev.Park? && !ev.Wake?
    ensures IsRun(tr') && Last(tr') == e' && |tr'| == |tr| + 1 && tr'[..|tr|] == tr
    ensures Calm(tr) && ev.t == 1 && !ev.End? ==> Calm(tr')
  {
    hide Calm;
    tr' := Extend(tr, Run(ev));
    if Calm(tr) && ev.t == 1 && !ev.End? { StaysCalm(tr, ev, tr'); }
  }

  // What some steps do, in terms of the functions that define them.

  lemma EnterIs(e: Engine, t: Tid)
    requires t < |e.threads| && e.threads[t].pc.Resume?
    ensures Enabled(e, Enter(t)) && Apply(e, Enter(t)) == DoEnter(e, t)
  {
  }

  lemma SwitchIs(e: Engine, t: Tid)
    requires t < |e.threads|
    requires e.threads[t].pc.SwitchIn? || e.threads[t].pc.SwitchOut? || e.threads[t].pc == SwitchBack
    ensures Enabled(e, Switch(t)) && Apply(e, Switch(t)) == DoSwitch(e, t)
  {
  }

  lemma ArriveIs(e: Engine, t: Tid)
    requires t < |e.threads| && e.threads[t].pc in {ArriveIn, ArriveOut, ArriveBack}
    ensures Enabled(e, Arrive(t))
    ensures Apply(e, Arrive(t)) ==
            match e.threads[t].pc
            case ArriveIn => DoArriveIn(e, t)
            case ArriveOut => DoArriveOut(e, t)
            case _ => DoArriveBack(e, t)
  {
  }

  // ----- the window between waiting and yielding -----

  /** The second thread is about to yield, with its native fiber at p. */
  predicate Leaves(e: Engine, p: Place, ask: bool) {
    && |e.threads| == 2 && |e.scheds| == 2
    && e.threads[0] == RootThread(0) && e.threads[1] == RootThread(1).(pc := Leaving, asks := ask)
    && 3 in e.fibers && e.fibers[3] == Native(1).(place := p)
    && 4 in e.fibers && e.fibers[4] == NewFiber(LoopOf(1)) && 5 in e.fibers && e.fibers[5] == NewFiber(IdleOf(1))
  }

  predicate Waiting(w: World) {
    && |w.objs| == 1 && w.objs[0].Monitor? && w.objs[0].mutex == Mutex(Some(0), [Waiter(1, 3)]) && w.objs[0].depth == 1
    && 3 in w.pending && w.pending[3] == Pending(0, 1)
  }

  /** The first thread takes the mutex; the second has to wait and is about to yield. */
  lemma BothLock(tr: seq<World>) returns (tr': seq<World>)
    requires IsRun(tr) && tr[|tr| - 1].(e := TwoThreads().e) == TwoThreads()
    requires tr[|tr| - 1].e.threads == TwoThreads().e.threads && tr[|tr| - 1].e.fibers == TwoThreads().e.fibers
    requires |tr[|tr| - 1].e.scheds| == 2
    ensures IsRun(tr') && |tr'| == |tr| + 2
    ensures Leaves(tr'[|tr'| - 1].e, Away(1, 0), false) && Waiting(tr'[|tr'| - 1])
    ensures tr'[|tr'| - 1].e.scheds == tr[|tr| - 1].e.scheds
  {
    hide IsRun;
    tr' := Extend(tr, Call(0, 0, Lock));
    tr' := Extend(tr', Call(1, 0, Lock));
  }

  /** A run in which a fiber is put back on the run queue while it is still executing on its
      thread: what the selection and the hand-off have to be right about does happen. */
  lemma WokenBeforeItYields() returns (tr: seq<World>)
    ensures IsRun(tr)
    ensures var e := tr[|tr| - 1].e;
            && |e.threads| == 2 && e.threads[1].ctx == 3 && e.threads[1].pc == Leaving
            && 3 in e.fibers && e.fibers[3].place == Queued(1) && e.fibers[3].state == Exec
  {
    TwoThreadsStart();
    tr := BothLock([TwoThreads()]);
    tr := FirstUnlocks(tr);
  }

  /** The first thread hands the mutex over before the second has yielded. */
  lemma FirstUnlocks(tr: seq<World>) returns (tr': seq<World>)
    requires IsRun(tr) && Leaves(tr[|tr| - 1].e, Away(1, 0), false) && Waiting(tr[|tr| - 1])
    ensures IsRun(tr')
    ensures var e := tr'[|tr'| - 1].e;
            && |e.threads| == 2 && e.threads[1].ctx == 3 && e.threads[1].pc == Leaving
            && 3 in e.fibers && e.fibers[3].place == Queued(1) && e.fibers[3].state == Exec
  {
    tr' := Extend(tr, Call(0, 0, Unlock));
  }

  // ----- a run loop that ends -----

  /** The second thread in or after its run loop: program counter, current and context; its native
      fiber suspended at p; its run fiber as given; its idle fiber in a state. */
  predicate InLoop(e: Engine, th: Thread, p: Place, run: Fiber, idle: Fiber) {
    && |e.threads| == 2 && |e.scheds| == 2 && e.threads[1] == th
    && 3 in e.fibers && e.fibers[3] == Native(1).(place := p, state := Hold, on := None)
    && 4 in e.fibers && e.fibers[4] == run && 5 in e.fibers && e.fibers[5] == idle
  }

  function LoopThread(pc: Pc, current: Fid, ctx: Fid, calling: Option<Fid>): Thread {
    Thread(1, 3, 4, 5, current, ctx, pc, [], false, None, false, false, calling, false)
  }

  /** m_callingFiber once the native fiber has left: set, unless it was stop() that left. */
  function Caller(ask: bool): Option<Fid> { if ask then None else Some(3) }

  /** The run fiber, told to return to a fiber. */
  function RunFiber(yielder: Option<Fid>, next: FiberState, to: Fid): Fiber {
    Fiber(Exec, yielder, next, None, Some(to), true, false, false, LoopOf(1), Some(1))
  }

  function IdleFiber(st: FiberState, outer: Option<Fid>, on: Option<Tid>): Fiber {
    Fiber(st, None, Init, outer, None, true, false, false, IdleOf(1), on)
  }

  predicate Entering(e: Engine, p: Place, ask: bool) {
    && |e.threads| == 2 && |e.scheds| == 2
    && e.threads[1] == LoopThread(ArriveOut, 4, 4, Caller(ask)).(outside := true)
    && 3 in e.fibers && e.fibers[3] == Native(1).(place := p)
    && 4 in e.fibers && e.fibers[4] == RunFiber(Some(3), Hold, 3)
    && 5 in e.fibers && e.fibers[5] == NewFiber(IdleOf(1))
  }

  /** Neither the run queues nor fiber 7 are touched. */
  predicate Aside(e: Engine, e': Engine) {
    && e'.scheds == e.scheds && (7 in e'.fibers <==> 7 in e.fibers) && (7 in e.fibers ==> e'.fibers[7] == e.fibers[7])
  }

  /** The same for two runs, and no object is touched. */
  predicate Onward(tr: seq<World>, tr': seq<World>)
    requires tr != [] && tr' != []
  {
    Same(tr[|tr| - 1], tr'[|tr'| - 1]) && Aside(tr[|tr| - 1].e, tr'[|tr'| - 1].e)
  }

  lemma LeaveThenSwitch(e: Engine, p: Place, ask: bool)
    requires Leaves(e, p, ask)
    ensures Enabled(e, Leave(1)) && Enabled(DoLeave(e, 1), Switch(1)) && Entering(DoSwitch(DoLeave(e, 1), 1), p, ask)
    ensures Aside(e, DoSwitch(DoLeave(e, 1), 1))
  {
  }

  /** It yields, and its run loop starts. */
  lemma Yields(tr: seq<World>, p: Place, ask: bool) returns (tr': seq<World>)
    requires IsRun(tr) && Leaves(tr[|tr| - 1].e, p, ask)
    ensures IsRun(tr') && Onward(tr, tr') && Entering(tr'[|tr'| - 1].e, p, ask) && (Calm(tr) ==> Calm(tr'))
  {
    hide Calm, DoLeave, DoSwitch;
    LeaveThenSwitch(tr[|tr| - 1].e, p, ask);
    tr' := Moves(tr, Leave(1));
    tr' := Moves(tr', Switch(1));
  }

  lemma LoopStarts(tr: seq<World>, p: Place, ask: bool) returns (tr': seq<World>)
    requires IsRun(tr) && Leaves(tr[|tr| - 1].e, p, ask)
    ensures IsRun(tr') && Onward(tr, tr') && (Calm(tr) ==> Calm(tr'))
    ensures InLoop(tr'[|tr'| - 1].e, LoopThread(Loop, 4, 4, Caller(ask)), p, RunFiber(None, Hold, 3),
                   IdleFiber(Init, None, None))
  {
    hide Calm;
    tr' := Yields(tr, p, ask);
    tr' := Moves(tr', Arrive(1));
  }

  lemma CallThenSwitch(e: Engine, p: Place, calling: Option<Fid>, to: Fid)
    requires InLoop(e, LoopThread(Loop, 4, 4, calling), p, RunFiber(None, Hold, to), IdleFiber(Init, None, None))
    ensures Enabled(e, CallIdle(1)) && Enabled(DoCallIdle(e, 1), Switch(1)) && Aside(e, DoSwitch(DoCallIdle(e, 1), 1))
    ensures InLoop(DoSwitch(DoCallIdle(e, 1), 1), LoopThread(Idle, 5, 5, calling), p, RunFiber(None, Hold, to),
                   IdleFiber(Exec, Some(4), Some(1)))
  {
  }

  lemma IdleStarts(tr: seq<World>, p: Place, calling: Option<Fid>, to: Fid) returns (tr': seq<World>)
    requires IsRun(tr)
    requires InLoop(tr[|tr| - 1].e, LoopThread(Loop, 4, 4, calling), p, RunFiber(None, Hold, to),
                    IdleFiber(Init, None, None))
    ensures IsRun(tr') && Onward(tr, tr')
    ensures InLoop(tr'[|tr'| - 1].e, LoopThread(Idle, 5, 5, calling), p, RunFiber(None, Hold, to),
                   IdleFiber(Exec, Some(4), Some(1)))
  {
    hide DoCallIdle, DoSwitch;
    CallThenSwitch(tr[|tr| - 1].e, p, calling, to);
    tr' := Moves(tr, CallIdle(1));
    tr' := Moves(tr', Switch(1));
  }

  /** The idle function is called and returns. */
  lemma Idles(tr: seq<World>, p: Place, calling: Option<Fid>, to: Fid) returns (tr': seq<World>)
    requires IsRun(tr)
    requires InLoop(tr[|tr| - 1].e, LoopThread(Loop, 4, 4, calling), p, RunFiber(None, Hold, to),
                    IdleFiber(Init, None, None))
    ensures IsRun(tr') && Onward(tr, tr')
    ensures InLoop(tr'[|tr'| - 1].e, LoopThread(SwitchBack, 5, 5, calling), p, RunFiber(Some(5), Term, to),
                   IdleFiber(Exec, Some(4), Some(1)))
  {
    tr' := IdleStarts(tr, p, calling, to);
    tr' := Moves(tr', YieldIdle(1, Term));
  }

  lemma SwitchThenArrive(e: Engine, p: Place, calling: Option<Fid>, to: Fid)
    requires InLoop(e, LoopThread(SwitchBack, 5, 5, calling), p, RunFiber(Some(5), Term, to),
                    IdleFiber(Exec, Some(4), Some(1)))
    ensures Enabled(e, Switch(1)) && Enabled(DoSwitch(e, 1), Arrive(1))
    ensures Apply(DoSwitch(e, 1), Arrive(1)) == DoArriveBack(DoSwitch(e, 1), 1)
    ensures Aside(e, DoArriveBack(DoSwitch(e, 1), 1))
    ensures InLoop(DoArriveBack(DoSwitch(e, 1), 1), LoopThread(Loop, 4, 4, calling), p, RunFiber(None, Term, to),
                   IdleFiber(Term, None, None))
  {
    hide Apply, Enabled;
    SwitchIs(e, 1);
    ArriveIs(DoSwitch(e, 1), 1);
  }

  lemma IdleEnds(tr: seq<World>, p: Place, calling: Option<Fid>, to: Fid) returns (tr': seq<World>)
    requires IsRun(tr)
    requires InLoop(tr[|tr| - 1].e, LoopThread(SwitchBack, 5, 5, calling), p, RunFiber(Some(5), Term, to),
                    IdleFiber(Exec, Some(4), Some(1)))
    ensures IsRun(tr') && Onward(tr, tr')
    ensures InLoop(tr'[|tr'| - 1].e, LoopThread(Loop, 4, 4, calling), p, RunFiber(None, Term, to),
                   IdleFiber(Term, None, None))
  {
    hide DoArriveBack, DoSwitch;
    SwitchThenArrive(tr[|tr| - 1].e, p, calling, to);
    tr' := Moves(tr, Switch(1));
    tr' := Moves(tr', Arrive(1));
  }

  /** The run loop finds that it has, and is over. */
  lemma Retires(tr: seq<World>, p: Place, calling: Option<Fid>, to: Fid) returns (tr': seq<World>)
    requires IsRun(tr)
    requires InLoop(tr[|tr| - 1].e, LoopThread(SwitchBack, 5, 5, calling), p, RunFiber(Some(5), Term, to),
                    IdleFiber(Exec, Some(4), Some(1)))
    ensures IsRun(tr') && Onward(tr, tr')
    ensures InLoop(tr'[|tr'| - 1].e, LoopThread(Ending(Term), 4, 4, None), p, RunFiber(None, Term, to),
                   IdleFiber(Term, None, None))
  {
    tr' := IdleEnds(tr, p, calling, to);
    tr' := Moves(tr', Retire(1));
  }

  /** Its fiber has returned to the native one, wherever that was. */
  predicate Back(e: Engine) {
    && |e.threads| == 2 && e.threads[1] == LoopThread(ArriveIn, 3, 3, None).(outside := true)
    && 3 in e.fibers && e.fibers[3] == Native(1).(yielder := Some(4), next := Term)
    && 4 in e.fibers && e.fibers[4] == RunFiber(None, Term, 3)
  }

  lemma EndThenSwitch(e: Engine, p: Place)
    requires InLoop(e, LoopThread(Ending(Term), 4, 4, None), p, RunFiber(None, Term, 3), IdleFiber(Term, None, None))
    ensures Enabled(e, End(1)) && Enabled(DoEnd(e, 1), Switch(1)) && Back(DoSwitch(DoEnd(e, 1), 1))
  {
  }

  lemma Returns(tr: seq<World>, p: Place) returns (tr': seq<World>)
    requires IsRun(tr)
    requires InLoop(tr[|tr| - 1].e, LoopThread(Ending(Term), 4, 4, None), p, RunFiber(None, Term, 3),
                    IdleFiber(Term, None, None))
    ensures IsRun(tr') && Same(tr[|tr| - 1], tr'[|tr'| - 1]) && Back(tr'[|tr'| - 1].e)
  {
    EndThenSwitch(tr[|tr| - 1].e, p);
    tr' := Moves(tr, End(1));
    tr' := Moves(tr', Switch(1));
  }

  lemma WholeLoop(tr: seq<World>, p: Place, ask: bool) returns (tr': seq<World>)
    requires IsRun(tr) && Leaves(tr[|tr| - 1].e, p, ask)
    ensures IsRun(tr') && Same(tr[|tr| - 1], tr'[|tr'| - 1]) && Back(tr'[|tr'| - 1].e)
  {
    tr' := LoopStarts(tr, p, ask);
    tr' := Idles(tr', p, Caller(ask), 3);
    tr' := Retires(tr', p, Caller(ask), 3);
    tr' := Returns(tr', p);
  }

  /** A run that begins with thread 1's scheduler being asked to stop. */
  lemma AskedToStop() returns (tr: seq<World>)
    ensures IsRun(tr) && tr[|tr| - 1] == DoRun(TwoThreads(), Stop(1, 1))
  {
    TwoThreadsStart();
    tr := Extend([TwoThreads()], Run(Stop(1, 1)));
  }

  /** lock() returns to a fiber that does not own the mutex. Thread 1's scheduler is asked to stop;
      its native fiber then blocks on a mutex; its run loop finds nothing to do and ends. */
  lemma LockReturnsWithoutMutex() returns (tr: seq<World>)
    ensures IsRun(tr) && !SafeRun(tr)
    ensures Back(tr[|tr| - 1].e) && Waiting(tr[|tr| - 1]) && !BackAsOwner(tr[|tr| - 1], 1)
  {
    tr := AskedToStop();
    tr := BothLock(tr);
    tr := WholeLoop(tr, Away(1, 0), false);
    NotSafe(tr[|tr| - 1]);
  }

  lemma NotSafe(w: World)
    requires Back(w.e) && Waiting(w)
    ensures !BackAsOwner(w, 1) && !Safe(w)
  {
  }

  /** stop() called by the native fiber itself comes back, with the run loop ended. */
  lemma StopReturns() returns (tr: seq<World>)
    ensures IsRun(tr)
    ensures var e := tr[|tr| - 1].e;
            && |e.threads| == 2 && e.threads[1].pc == User && e.threads[1].current == e.threads[1].ctx == 3
            && 4 in e.fibers && e.fibers[4].state == Term
  {
    hide Apply, Enabled;
    tr := Stops();
    tr := WholeLoop(tr, Awaits(1), true);
    ArriveIs(Last(tr), 1);
    tr := Steps(tr, Arrive(1), DoArriveIn(Last(tr), 1));
  }

  lemma Stops() returns (tr: seq<World>)
    ensures IsRun(tr) && Leaves(tr[|tr| - 1].e, Awaits(1), true)
  {
    hide Apply, Enabled, Calm, TwoThreads;
    tr := AskedToStop();
    var e1 := NativeAsks(Last(tr));
    tr := Steps(tr, Await(1, true), e1);
  }

  lemma NativeAsks(e: Engine) returns (e1: Engine)
    requires e == DoRun(TwoThreads(), Stop(1, 1)).e
    ensures Enabled(e, Await(1, true)) && e1 == Apply(e, Await(1, true)) && Leaves(e1, Awaits(1), true)
  {
    e1 := DoAwait(e, 1, true);
  }

  // ----- stop() called by a task while the native fiber is in stop() -----

  const Functor := Item(DgTask(0), None)

  /** The second thread with a task: its native fiber in stop(), its run fiber and fiber 7 as given, its
      run queue. */
  predicate WithTask(e: Engine, th: Thread, run: Fiber, task: Option<Fiber>, q: seq<Item>) {
    && InLoop(e, th, Awaits(1), run, IdleFiber(Init, None, None))
    && e.scheds[1].queue == q && e.scheds[1].batchSize == 1
    && (if task.Some? then 7 in e.fibers && e.fibers[7] == task.value else 7 !in e.fibers)
  }

  function TaskThread(pc: Pc, current: Fid, ctx: Fid): Thread {
    LoopThread(pc, current, ctx, None).(active := true, spare := Some(7), functor := true)
  }

  /** Fiber 7, made for the functor, on the thread. */
  function TaskFiber(yielder: Option<Fid>, next: FiberState, p: Place): Fiber {
    Fiber(Exec, yielder, next, None, Some(4), true, false, true, p, Some(1))
  }

  /** It is suspended. */
  function TaskAway(next: FiberState): Fiber { TaskFiber(None, next, Awaits(1)).(state := Hold, on := None) }

  lemma TakesOne(it: Item, t: Tid)
    requires it.thread == None
    ensures Take([it], t, {}, 1) == [it] && Rest([it], t, {}, 1) == []
  {
    assert [it][1..] == [];
  }

  lemma TakesFunctor(e: Engine) returns (e1: Engine, e2: Engine)
    requires WithTask(e, LoopThread(Loop, 4, 4, None), RunFiber(None, Hold, 3), None, [Functor])
    ensures Enabled(e, Select(1, {})) && e1 == Apply(e, Select(1, {}))
    ensures Enabled(e1, Pop(1, 7)) && e2 == Apply(e1, Pop(1, 7))
    ensures WithTask(e2, TaskThread(Resume(7), 4, 4), RunFiber(None, Hold, 3),
                     Some(NewFiber(Held(1)).(own := true)), [])
  {
    TakesOne(Functor, 1);
    assert FibersOf([Functor]) == {};
    e1 := DoSelect(e, 1, {});
    assert e1.fibers == e.fibers;
    e2 := DoPop(e1, 1, 7);
  }

  lemma EntersTask(e: Engine) returns (e1: Engine, e2: Engine, e3: Engine)
    requires WithTask(e, TaskThread(Resume(7), 4, 4), RunFiber(None, Hold, 3),
                      Some(NewFiber(Held(1)).(own := true)), [])
    ensures Enabled(e, Enter(1)) && e1 == Apply(e, Enter(1))
    ensures Enabled(e1, Switch(1)) && e2 == Apply(e1, Switch(1))
    ensures Enabled(e2, Arrive(1)) && e3 == Apply(e2, Arrive(1))
    ensures WithTask(e3, TaskThread(User, 7, 7), RunFiber(None, Hold, 3).(state := Hold, on := None),
                     Some(TaskFiber(None, Hold, Held(1))), [])
  {
    hide Apply, Enabled;
    EnterIs(e, 1);
    e1 := DoEnter(e, 1);
    SwitchIs(e1, 1);
    e2 := DoSwitch(e1, 1);
    ArriveIs(e2, 1);
    e3 := DoArriveIn(e2, 1);
  }

  lemma TaskStops(e: Engine) returns (e1: Engine, e2: Engine)
    requires WithTask(e, TaskThread(User, 7, 7), RunFiber(None, Hold, 3).(state := Hold, on := None),
                      Some(TaskFiber(None, Hold, Held(1))), [])
    ensures Enabled(e, Await(1, true)) && e1 == Apply(e, Await(1, true))
    ensures Enabled(e1, Leave(1)) && e2 == Apply(e1, Leave(1))
    ensures WithTask(e2, TaskThread(SwitchOut(4), 4, 7), RunFiber(Some(7), Hold, 7),
                     Some(TaskFiber(None, Hold, Awaits(1))), [])
  {
    e1 := DoAwait(e, 1, true);
    e2 := DoLeave(e1, 1);
  }

  lemma TaskLeaves(e: Engine) returns (e1: Engine, e2: Engine)
    requires WithTask(e, TaskThread(SwitchOut(4), 4, 7), RunFiber(Some(7), Hold, 7),
                      Some(TaskFiber(None, Hold, Awaits(1))), [])
    ensures Enabled(e, Switch(1)) && e1 == Apply(e, Switch(1))
    ensures Enabled(e1, Arrive(1)) && e2 == Apply(e1, Arrive(1))
    ensures WithTask(e2, TaskThread(Landed(7, Hold), 4, 4), RunFiber(None, Hold, 7), Some(TaskAway(Hold)), [])
  {
    hide Apply, Enabled;
    SwitchIs(e, 1);
    e1 := DoSwitch(e, 1);
    ArriveIs(e1, 1);
    e2 := DoArriveOut(e1, 1);
  }

  lemma LoopForgets(e: Engine) returns (e1: Engine, e2: Engine, e3: Engine)
    requires WithTask(e, TaskThread(Landed(7, Hold), 4, 4), RunFiber(None, Hold, 7), Some(TaskAway(Hold)), [])
    ensures Enabled(e, Land(1)) && e1 == Apply(e, Land(1))
    ensures Enabled(e1, Judge(1)) && e2 == Apply(e1, Judge(1))
    ensures Enabled(e2, Select(1, {})) && e3 == Apply(e2, Select(1, {}))
    ensures WithTask(e3, LoopThread(Loop, 4, 4, None), RunFiber(None, Hold, 7), Some(TaskAway(Hold)), [])
  {
    e1 := DoLand(e, 1);
    e2 := DoJudge(e1, 1);
    assert Take([], 1, {}, 1) == [] && Rest([], 1, {}, 1) == [] && FibersOf([]) == {};
    e3 := DoSelect(e2, 1, {});
    assert e3.fibers == e2.fibers;
  }

  /** The run loop has returned to the task. */
  predicate Usurped(e: Engine) {
    && |e.threads| == 2 && e.threads[1] == LoopThread(User, 7, 7, None).(outside := true)
    && 3 in e.fibers && e.fibers[3].place == Awaits(1) && e.fibers[3].state == Hold
    && 4 in e.fibers && e.fibers[4].state == Term
    && 7 in e.fibers && e.fibers[7] == TaskFiber(None, Term, Held(1))
  }

  lemma EndsInTask(e: Engine) returns (e1: Engine, e2: Engine, e3: Engine)
    requires InLoop(e, LoopThread(Ending(Term), 4, 4, None), Awaits(1), RunFiber(None, Term, 7),
                    IdleFiber(Term, None, None))
    requires 7 in e.fibers && e.fibers[7] == TaskAway(Hold)
    ensures Enabled(e, End(1)) && e1 == Apply(e, End(1)) && EndAsserts(e, 1)
    ensures Enabled(e1, Switch(1)) && e2 == Apply(e1, Switch(1))
    ensures Enabled(e2, Arrive(1)) && e3 == Apply(e2, Arrive(1)) && Usurped(e3)
  {
    hide Apply, Enabled;
    EndIs(e, 1);
    e1 := DoEnd(e, 1);
    SwitchIs(e1, 1);
    e2 := DoSwitch(e1, 1);
    ArriveIs(e2, 1);
    e3 := DoArriveIn(e2, 1);
  }

  lemma EndIs(e: Engine, t: Tid)
    requires t < |e.threads| && e.threads[t].pc.Ending?
    ensures Enabled(e, End(t)) && Apply(e, End(t)) == DoEnd(e, t)
  {
  }

  lemma NativeStops(e: Engine) returns (e1: Engine, e2: Engine)
    requires e == TwoThreads().e
    ensures Enabled(e, ScheduleDg(1, 1, 0, None)) && e1 == Apply(e, ScheduleDg(1, 1, 0, None))
    ensures Enabled(e1, Await(1, true)) && e2 == Apply(e1, Await(1, true))
    ensures Leaves(e2, Awaits(1), true) && e2.scheds[1].queue == [Functor] && e2.scheds[1].batchSize == 1
    ensures 7 !in e2.fibers
  {
    e1 := Push(e, 1, Functor);
    e2 := DoAwait(e1, 1, true);
  }

  /** The native fiber schedules a functor and calls stop(); its run loop has started. */
  lemma LoopWithTask() returns (tr: seq<World>)
    ensures IsRun(tr) && Calm(tr)
    ensures WithTask(Last(tr), LoopThread(Loop, 4, 4, None), RunFiber(None, Hold, 3), None, [Functor])
  {
    hide Apply, Enabled, WorldStarts, TwoThreads, Calm;
    TwoThreadsStart();
    TwoThreadsCalm();
    var e1, e2 := NativeStops(TwoThreads().e);
    tr := Steps([TwoThreads()], ScheduleDg(1, 1, 0, None), e1);
    tr := Steps(tr, Await(1, true), e2);
    tr := LoopStarts(tr, Awaits(1), true);
  }

  /** The functor runs. */
  lemma TaskRuns() returns (tr: seq<World>)
    ensures IsRun(tr) && Calm(tr)
    ensures WithTask(Last(tr), TaskThread(User, 7, 7), RunFiber(None, Hold, 3).(state := Hold, on := None),
                     Some(TaskFiber(None, Hold, Held(1))), [])
  {
    hide Apply, Enabled, WithTask, Calm;
    tr := LoopWithTask();
    var e1, e2 := TakesFunctor(Last(tr));
    tr := Steps(tr, Select(1, {}), e1);
    tr := Steps(tr, Pop(1, 7), e2);
    var e3, e4, e5 := EntersTask(e2);
    tr := Steps(tr, Enter(1), e3);
    tr := Steps(tr, Switch(1), e4);
    tr := Steps(tr, Arrive(1), e5);
  }

  lemma TaskDispatches(e: Engine) returns (e1: Engine)
    requires WithTask(e, TaskThread(User, 7, 7), RunFiber(None, Hold, 3).(state := Hold, on := None),
                      Some(TaskFiber(None, Hold, Held(1))), [])
    ensures Enabled(e, Await(1, false)) && e1 == Apply(e, Await(1, false)) && Stranded(e1, 1, 7)
  {
    e1 := DoAwait(e, 1, false);
  }

  /** A clean run in which the functor has called dispatch(). It never comes back from it. */
  lemma DispatchByTask() returns (tr: seq<World>)
    ensures IsRun(tr) && CleanRun(tr) && Stranded(Last(tr), 1, 7)
  {
    hide Apply, Enabled, WithTask;
    tr := TaskRuns();
    var e1 := TaskDispatches(Last(tr));
    tr := Steps(tr, Await(1, false), e1);
  }

  /** However such a run goes on, as long as it is clean. */
  lemma DispatchNeverReturns(tr: seq<World>, more: seq<World>, k: nat)
    requires IsRun(tr) && CleanRun(tr) && Stranded(Last(tr), 1, 7)
    requires IsRun(more) && CleanRun(more) && tr <= more && |tr| - 1 <= k < |more|
    ensures Stranded(more[k].e, 1, 7)
  {
    hide Stranded;
    assert more[|tr| - 1] == tr[|tr| - 1];
    NeverReturns(more, |tr| - 1, k, 1, 7);
  }

  /** It calls stop(), and the run loop goes on without it. */
  lemma TaskCallsStop() returns (tr: seq<World>)
    ensures IsRun(tr)
    ensures WithTask(Last(tr), LoopThread(Loop, 4, 4, None), RunFiber(None, Hold, 7), Some(TaskAway(Hold)), [])
  {
    hide Apply, Enabled, WithTask;
    tr := TaskRuns();
    var e1, e2 := TaskStops(Last(tr));
    tr := Steps(tr, Await(1, true), e1);
    tr := Steps(tr, Leave(1), e2);
    var e3, e4 := TaskLeaves(e2);
    tr := Steps(tr, Switch(1), e3);
    tr := Steps(tr, Arrive(1), e4);
    var e5, e6, e7 := LoopForgets(e4);
    tr := Steps(tr, Land(1), e5);
    tr := Steps(tr, Judge(1), e6);
    tr := Steps(tr, Select(1, {}), e7);
  }

  /** The run loop has come to its end. */
  lemma LoopIsOver() returns (tr: seq<World>)
    ensures IsRun(tr) && 7 in Last(tr).fibers && Last(tr).fibers[7] == TaskAway(Hold)
    ensures InLoop(Last(tr), LoopThread(Ending(Term), 4, 4, None), Awaits(1), RunFiber(None, Term, 7),
                   IdleFiber(Term, None, None))
  {
    hide Apply, Enabled, Calm, IsRun;
    tr := TaskCallsStop();
    tr := Idles(tr, Awaits(1), None, 7);
    tr := Retires(tr, Awaits(1), None, 7);
  }

  /** The run loop ends into a task that has called stop() while the native fiber was in stop(). The
      native fiber stays suspended, and there is nowhere for the task to go when it ends. */
  lemma StopByTask() returns (tr: seq<World>)
    ensures IsRun(tr) && !SafeRun(tr) && Usurped(Last(tr)) && !AssertsHold(Last(tr), 1)
  {
    hide Apply, Enabled, Calm, SafeRun;
    tr := LoopIsOver();
    var e1, e2, e3 := EndsInTask(Last(tr));
    tr := Steps(tr, End(1), e1);
    tr := Steps(tr, Switch(1), e2);
    tr := Steps(tr, Arrive(1), e3);
    assert !AssertsHold(e3, 1);
    FailsIsUnsafe(tr, 1);
  }

  // ----- stop() called by a task on a spawned thread -----

  /** A hijacked thread and a spawned one with one scheduler. */
  function SpawnedThread(pc: Pc, current: Fid, ctx: Fid): Thread {
    Thread(0, 3, 3, 4, current, ctx, pc, [], false, None, false, false, None, false)
  }

  function Hybrid(): World {
    World(Engine(map[0 := Native(0), 1 := NewFiber(LoopOf(0)), 2 := NewFiber(IdleOf(0)),
                     3 := NativeFiber(LoopOf(1), 1), 4 := NewFiber(IdleOf(1))],
                 [RootThread(0), SpawnedThread(Loop, 3, 3)], [Sched([], 0, false, 1, multiset{}, multiset{})]),
          [], map[])
  }

  lemma HybridStarts()
    ensures WorldStarts(Hybrid())
  {
    hide ThreadStarts;
    EachHybridStarts(0);
    EachHybridStarts(1);
  }

  lemma EachHybridStarts(t: Tid)
    requires t < 2
    ensures ThreadStarts(Hybrid().e, t)
  {
  }

  /** The native fiber is in stop(); the spawned thread, its run fiber, fiber 7 and the queue as given. */
  predicate InHybrid(e: Engine, th: Thread, run: Fiber, task: Option<Fiber>, q: seq<Item>) {
    && |e.threads| == 2 && |e.scheds| == 1 && e.scheds[0].queue == q && e.scheds[0].batchSize == 1
    && e.threads[0] == RootThread(0).(pc := Leaving, asks := true) && e.threads[1] == th
    && 0 in e.fibers && e.fibers[0] == Native(0).(place := Awaits(0))
    && 3 in e.fibers && e.fibers[3] == run
    && (if task.Some? then 7 in e.fibers && e.fibers[7] == task.value else 7 !in e.fibers)
  }

  function Worker(pc: Pc, current: Fid, ctx: Fid): Thread {
    SpawnedThread(pc, current, ctx).(active := true, spare := Some(7), functor := true)
  }

  function WorkerTask(yielder: Option<Fid>): Fiber {
    Fiber(Exec, yielder, Hold, None, Some(3), true, false, true, Held(1), Some(1))
  }

  lemma RootStops(e: Engine) returns (e1: Engine, e2: Engine)
    requires e == Hybrid().e
    ensures Enabled(e, ScheduleDg(0, 0, 0, None)) && e1 == Apply(e, ScheduleDg(0, 0, 0, None))
    ensures Enabled(e1, Await(0, true)) && e2 == Apply(e1, Await(0, true))
    ensures InHybrid(e2, SpawnedThread(Loop, 3, 3), NativeFiber(LoopOf(1), 1), None, [Functor])
  {
    e1 := Push(e, 0, Functor);
    e2 := DoAwait(e1, 0, true);
  }

  lemma WorkerTakes(e: Engine) returns (e1: Engine, e2: Engine)
    requires InHybrid(e, SpawnedThread(Loop, 3, 3), NativeFiber(LoopOf(1), 1), None, [Functor])
    ensures Enabled(e, Select(1, {})) && e1 == Apply(e, Select(1, {}))
    ensures Enabled(e1, Pop(1, 7)) && e2 == Apply(e1, Pop(1, 7))
    ensures InHybrid(e2, Worker(Resume(7), 3, 3), NativeFiber(LoopOf(1), 1),
                     Some(NewFiber(Held(1)).(own := true)), [])
  {
    TakesOne(Functor, 1);
    assert FibersOf([Functor]) == {};
    e1 := DoSelect(e, 1, {});
    assert e1.fibers == e.fibers;
    e2 := DoPop(e1, 1, 7);
  }

  lemma WorkerEnters(e: Engine) returns (e1: Engine, e2: Engine, e3: Engine)
    requires InHybrid(e, Worker(Resume(7), 3, 3), NativeFiber(LoopOf(1), 1),
                      Some(NewFiber(Held(1)).(own := true)), [])
    ensures Enabled(e, Enter(1)) && e1 == Apply(e, Enter(1))
    ensures Enabled(e1, Switch(1)) && e2 == Apply(e1, Switch(1))
    ensures Enabled(e2, Arrive(1)) && e3 == Apply(e2, Arrive(1))
    ensures InHybrid(e3, Worker(User, 7, 7), NativeFiber(LoopOf(1), 1).(state := Hold, on := None),
                     Some(WorkerTask(None)), [])
  {
    hide Apply, Enabled;
    EnterIs(e, 1);
    e1 := DoEnter(e, 1);
    SwitchIs(e1, 1);
    e2 := DoSwitch(e1, 1);
    ArriveIs(e2, 1);
    e3 := DoArriveIn(e2, 1);
  }

  lemma WorkerStops(e: Engine) returns (e1: Engine)
    requires InHybrid(e, Worker(User, 7, 7), NativeFiber(LoopOf(1), 1).(state := Hold, on := None),
                      Some(WorkerTask(None)), [])
    ensures Enabled(e, Await(1, true)) && e1 == Apply(e, Await(1, true))
    ensures |e1.threads| == 2 && e1.threads[1] == Worker(Leaving, 7, 7).(asks := true)
  {
    assert Hijacked(e.threads[0]) && e.threads[0].calling == None;
    e1 := DoAwait(e, 1, true);
  }

  lemma FailsIsUnsafe(tr: seq<World>, t: Tid)
    requires tr != [] && t < |Last(tr).threads| && !AssertsHold(Last(tr), t)
    ensures !SafeRun(tr)
  {
    assert !Safe(tr[|tr| - 1]);
  }

  lemma WorkerBegins() returns (tr: seq<World>)
    ensures IsRun(tr)
    ensures InHybrid(Last(tr), Worker(Resume(7), 3, 3), NativeFiber(LoopOf(1), 1),
                     Some(NewFiber(Held(1)).(own := true)), [])
  {
    hide Apply, Enabled, InHybrid, WorldStarts, Hybrid, Calm;
    HybridStarts();
    var e1, e2 := RootStops(Hybrid().e);
    tr := Steps([Hybrid()], ScheduleDg(0, 0, 0, None), e1);
    tr := Steps(tr, Await(0, true), e2);
    var e3, e4 := WorkerTakes(e2);
    tr := Steps(tr, Select(1, {}), e3);
    tr := Steps(tr, Pop(1, 7), e4);
  }

  lemma WorkerRuns() returns (tr: seq<World>)
    ensures IsRun(tr)
    ensures InHybrid(Last(tr), Worker(User, 7, 7), NativeFiber(LoopOf(1), 1).(state := Hold, on := None),
                     Some(WorkerTask(None)), [])
  {
    hide Apply, Enabled, InHybrid, Calm;
    tr := WorkerBegins();
    var e5, e6, e7 := WorkerEnters(Last(tr));
    tr := Steps(tr, Enter(1), e5);
    tr := Steps(tr, Switch(1), e6);
    tr := Steps(tr, Arrive(1), e7);
  }

  /** While the native fiber is in stop(), a functor on a spawned thread calls stop() too, and is about to
      fail the assertion that it is on the root thread. */
  lemma StopOnSpawnedThread() returns (tr: seq<World>)
    ensures IsRun(tr) && !SafeRun(tr) && |Last(tr).threads| == 2 && !Hijacked(Last(tr).threads[1])
    ensures Last(tr).threads[1].asks && !AssertsHold(Last(tr), 1)
  {
    hide Apply, Enabled, InHybrid, Calm, SafeRun;
    tr := WorkerRuns();
    var e1 := WorkerStops(Last(tr));
    tr := Steps(tr, Await(1, true), e1);
    FailsIsUnsafe(tr, 1);
  }
}

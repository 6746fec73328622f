/** Fibers, threads and run queues as one step machine.

    A step is one critical section, one compare-and-swap, or a stretch of code that
    touches only what its own thread holds. A context switch is its own step, so
    other threads can act between the moment a fiber gives itself away and the moment
    it has really left its stack.

    The fields marked auxiliary are never read by the modelled code: `place` says who
    may resume a fiber next, `on` which thread it occupies, `issued` and `started`
    keep the history of a queue. */
module FiberEngine {
  import opened Common
  import opened Scheduling

  datatype FiberState = Init | Hold | Exec | Except | Term

  datatype Place =
    | Loose                     // in the hands of client code, not scheduled
    | Queued(s: Sid)            // in a run queue
    | Batched(t: Tid)           // taken by a thread, not started yet
    | Held(t: Tid)              // being resumed by, or running on, a thread
    | Away(s: Sid, o: Oid)      // handed to a synchronization object
    | Awaits(t: Tid)            // handed to nobody, until the run loop of its thread ends
    | LoopOf(t: Tid)            // the fiber of a thread's run loop
    | IdleOf(t: Tid)            // the idle fiber of a thread
    | SpareOf(t: Tid)           // kept by a run loop for its next functor
    | Spent                     // made by a run loop for functors, and done with one

  datatype Fiber = Fiber(
    state: FiberState,
    yielder: Option<Fid>,
    next: FiberState,            // the state the yielder is to be given
    outer: Option<Fid>,
    terminateOuter: Option<Fid>,
    stack: bool,                 // false for the fiber of a thread's original stack
    thrown: bool,                // m_exception is set
    own: bool,                   // auxiliary: made by a run loop, not by client code
    place: Place,                // auxiliary
    on: Option<Tid>)             // auxiliary

  datatype Pc =
    | Loop                // run loop, between two tasks
    | Resume(f: Fid)      // popped f, about to call f->yieldTo()
    | SwitchIn(f: Fid)    // in f->yieldTo(), about to switch the context
    | ArriveIn            // on the fiber's stack, yielder not handled yet
    | User                // client code
    | Failing             // the task threw, entryPoint() has kept the exception
    | Leaving             // the fiber gave itself away, about to yield to the run loop
    | SwitchOut(to: Fid)  // about to switch the context back
    | ArriveOut           // on the run loop's stack, yielder not handled yet
    | Landed(y: Fid, last: FiberState)  // y was given its new state, about to look for its exception
    | Judging             // a functor is over or suspended, about to look at its fiber
    | SwitchIdle          // in idleFiber->call(), about to switch
    | Idle                // the idle function
    | SwitchBack          // in Fiber::yield() or the end of the idle fiber
    | ArriveBack          // back in call(), yielder not handled yet
    | Throwing            // the task ended with an exception
    | Ending(last: FiberState)  // run() of a hijacked thread is over, about to leave its fiber
    | Dead                // run() of a spawned thread is over

  datatype Thread = Thread(
    sched: Sid,
    native: Fid,         // the fiber of the thread's original stack
    run: Fid,            // the scheduler's fiber on this thread: the native one, unless hijacked
    idle: Fid,
    current: Fid,        // Fiber::t_fiber, what Fiber::getThis() answers
    ctx: Fid,            // whose stack the processor is on
    pc: Pc,
    batch: seq<Item>,
    active: bool,
    spare: Option<Fid>,  // dgFiber
    functor: bool,       // the task at hand is a functor
    asks: bool,          // stop() leaves for the run loop and wants to be told when it ends
    calling: Option<Fid>, // m_callingFiber of the scheduler whose root thread this is
    outside: bool)       // auxiliary: a hijacked thread outside its run loop

  datatype Sched = Sched(
    queue: seq<Item>,
    active: int,
    stopping: bool,
    batchSize: nat,
    issued: multiset<Item>,    // auxiliary
    started: multiset<Item>)   // auxiliary

  datatype Engine = Engine(fibers: map<Fid, Fiber>, threads: seq<Thread>, scheds: seq<Sched>)

  /** The thread was there before the scheduler and goes on when the run loop ends. */
  predicate Hijacked(th: Thread) { th.native != th.run }

  /** A fiber with its own stack, not run yet. */
  function NewFiber(place: Place): Fiber {
    Fiber(Init, None, Init, None, None, true, false, false, place, None)
  }

  /** The fiber of a thread's original stack, running there. */
  function NativeFiber(place: Place, t: Tid): Fiber {
    Fiber(Exec, None, Init, None, None, false, false, false, place, Some(t))
  }

  function FibersOf(q: seq<Item>): set<Fid> {
    set it | it in q && it.task.FiberTask? :: it.task.f
  }

  /** Moves the auxiliary place of a group of fibers. */
  function Moved(fibers: map<Fid, Fiber>, group: set<Fid>, p: Place): map<Fid, Fiber> {
    map f | f in fibers :: if f in group then fibers[f].(place := p) else fibers[f]
  }

  /** The last fiber of the m_outer chain that starts at f. */
  function Outermost(fibers: map<Fid, Fiber>, f: Fid, limit: nat): Fid
    decreases limit
  {
    if limit == 0 || f !in fibers || fibers[f].outer == None then f
    else Outermost(fibers, fibers[f].outer.value, limit - 1)
  }

  // ----- steps -----

  datatype Move =
    | Create(t: Tid, n: Fid)
    | ResetFiber(t: Tid, f: Fid)
    | Schedule(t: Tid, s: Sid, f: Fid, bound: Option<Tid>)
    | ScheduleDg(t: Tid, s: Sid, dg: nat, bound: Option<Tid>)
    | SwitchTo(t: Tid, s: Sid, bound: Option<Tid>)
    | Park(t: Tid, o: Oid)
    | Wake(t: Tid, s: Sid, f: Fid)
    | Await(t: Tid, ask: bool)
    | Leave(t: Tid)
    | Throw(t: Tid)
    | Exit(t: Tid, last: FiberState)
    | Switch(t: Tid)
    | Arrive(t: Tid)
    | Land(t: Tid)
    | Judge(t: Tid)
    | Select(t: Tid, busy: set<Fid>)
    | Pop(t: Tid, n: Fid)
    | Enter(t: Tid)
    | CallIdle(t: Tid)
    | YieldIdle(t: Tid, last: FiberState)
    | Requeue(t: Tid)
    | Retire(t: Tid)
    | End(t: Tid)
    | Stop(t: Tid, s: Sid)

  /** Client code, or the idle function, is running on the thread. */
  predicate Awake(th: Thread) { th.pc == User || th.pc == Idle }

  predicate IsExecuting(e: Engine, it: Item) {
    it.task.FiberTask? && it.task.f in e.fibers && e.fibers[it.task.f].state == Exec
  }

  /** stop() goes to the run loop: m_callingFiber is the fiber itself, on the root thread, or empty. */
  predicate StopYields(e: Engine, t: Tid)
    requires t < |e.threads|
  {
    var th := e.threads[t];
    if Hijacked(th) then th.calling == None || th.calling == Some(th.current)
    else exists r :: 0 <= r < |e.threads| && e.threads[r].sched == th.sched && Hijacked(e.threads[r])
                     && e.threads[r].calling == None
  }

  /** When a step may be taken. Only program counters and the data the code tests
      appear here, apart from two duties of client code: it schedules or resets only
      fibers it still holds, and wakes only fibers that were given to it, once, on the scheduler
      they came with. */
  ghost predicate Enabled(e: Engine, ev: Move) {
    && ev.t < |e.threads|
    && var th := e.threads[ev.t];
    match ev
    case Create(_, n) => Awake(th) && n !in e.fibers
    case ResetFiber(_, f) =>
      Awake(th) && f in e.fibers && e.fibers[f].place == Loose && e.fibers[f].state in {Init, Term, Except}
    case Schedule(_, s, f, _) =>
      && Awake(th) && s < |e.scheds| && f in e.fibers
      && e.fibers[f].place == Loose && e.fibers[f].state in {Init, Term}
    case ScheduleDg(_, s, _, _) => Awake(th) && s < |e.scheds|
    case SwitchTo(_, s, _) => th.pc == User && s < |e.scheds|
    case Park(_, _) => th.pc == User
    case Wake(_, s, f) =>
      Awake(th) && s < |e.scheds| && f in e.fibers && e.fibers[f].place.Away? && e.fibers[f].place.s == s
    case Await(t, ask) => th.pc == User && if ask then StopYields(e, t) else Hijacked(th)
    case Leave(_) => th.pc == Leaving
    case Throw(_) => th.pc == User && th.current in e.fibers && e.fibers[th.current].stack
    case Exit(_, last) =>
      && th.current in e.fibers && e.fibers[th.current].stack
      && ((th.pc == User && last == Term) || (th.pc == Failing && last == Except))
    case Switch(_) => th.pc.SwitchIn? || th.pc.SwitchOut? || th.pc == SwitchIdle || th.pc == SwitchBack
    case Arrive(_) => th.pc == ArriveIn || th.pc == ArriveOut || th.pc == ArriveBack
    case Land(_) => th.pc.Landed?
    case Judge(_) => th.pc == Judging
    case Select(_, busy) =>
      // every fiber of the queue that is executing right now was seen executing;
      // a fiber seen executing earlier in the scan may have stopped since
      && th.pc == Loop && th.batch == [] && th.sched < |e.scheds|
      && forall it :: it in e.scheds[th.sched].queue && IsExecuting(e, it) ==> it.task.f in busy
    case Pop(_, n) => th.pc == Loop && th.batch != [] && th.sched < |e.scheds| && n !in e.fibers
    case Enter(_) => th.pc.Resume?
    case CallIdle(_) =>
      th.pc == Loop && th.batch == [] && !th.active && th.idle in e.fibers && e.fibers[th.idle].state != Term
    case YieldIdle(_, last) => th.pc == Idle && last in {Hold, Term}
    case Requeue(_) => th.pc == Throwing && th.sched < |e.scheds|
    case Retire(_) =>
      th.pc == Loop && th.batch == [] && !th.active && th.idle in e.fibers && e.fibers[th.idle].state == Term
    case End(_) => th.pc.Ending?
    case Stop(_, s) => Awake(th) && s < |e.scheds|
  }

  function SetThread(e: Engine, t: Tid, th: Thread): (r: Engine)
    requires t < |e.threads|
  {
    e.(threads := e.threads[t := th])
  }

  /** The tail of schedule(): push one item. */
  function Push(e: Engine, s: Sid, it: Item): Engine
    requires s < |e.scheds|
  {
    e.(scheds := e.scheds[s := e.scheds[s].(queue := e.scheds[s].queue + [it],
                                            issued := e.scheds[s].issued + multiset{it})])
  }

  /** f->yieldTo(callerOnTerminate, target) up to the context switch, by the fiber `current`. */
  function YieldToWrites(fibers: map<Fid, Fiber>, current: Fid, f: Fid, t: Tid,
                         callerOnTerminate: bool, target: FiberState): map<Fid, Fiber>
  {
    var top := Outermost(fibers, f, |fibers|);
    var fs := if callerOnTerminate && top in fibers
              then fibers[top := fibers[top].(terminateOuter := Some(current))] else fibers;
    if f in fs then fs[f := fs[f].(state := Exec, yielder := Some(current), next := target, on := Some(t))] else fs
  }

  /** A fiber that has left the processor in this state. */
  function Left(fb: Fiber, next: FiberState): Fiber {
    fb.(state := next, on := None,
        place := if next !in {Term, Except} || !fb.place.Held? then fb.place else if fb.own then Spent else Loose)
  }

  /** What every fiber does first when it gets the processor back: give the fiber that
      ran before it the state it left behind. */
  function HandOff(fibers: map<Fid, Fiber>, f: Fid): map<Fid, Fiber> {
    if f in fibers && fibers[f].yielder.Some? && fibers[f].yielder.value in fibers then
      var y := fibers[f].yielder.value;
      var fs := fibers[y := Left(fibers[y], fibers[f].next)];
      fs[f := fs[f].(yielder := None)]
    else fibers
  }

  function DoSchedule(e: Engine, s: Sid, f: Fid, bound: Option<Tid>): Engine
    requires s < |e.scheds| && f in e.fibers
  {
    Push(e.(fibers := e.fibers[f := e.fibers[f].(place := Queued(s))]), s, Item(FiberTask(f), bound))
  }

  /** schedule(Fiber::getThis(), thread), about to call Scheduler::yieldTo(). */
  function DoSwitchTo(e: Engine, t: Tid, s: Sid, bound: Option<Tid>): Engine
    requires t < |e.threads| && s < |e.scheds|
  {
    var me := e.threads[t].current;
    if me in e.fibers then SetThread(DoSchedule(e, s, me, bound), t, e.threads[t].(pc := Leaving)) else e
  }

  /** The running fiber has put itself on a wait list, about to call Scheduler::yieldTo(). */
  function DoPark(e: Engine, t: Tid, o: Oid): Engine
    requires t < |e.threads|
  {
    var th := e.threads[t];
    if th.current in e.fibers then
      SetThread(e, t, th.(pc := Leaving))
        .(fibers := e.fibers[th.current := e.fibers[th.current].(place := Away(th.sched, o))])
    else e
  }

  /** stop() or dispatch(): the running fiber leaves its thread to the run loop and is given to
      nobody. Only m_callingFiber is looked at, so any fiber may get here. */
  function DoAwait(e: Engine, t: Tid, ask: bool): Engine
    requires t < |e.threads|
  {
    var th := e.threads[t];
    if th.current in e.fibers then
      SetThread(e, t, th.(pc := Leaving, asks := ask))
        .(fibers := e.fibers[th.current := e.fibers[th.current].(place := Awaits(t))])
    else e
  }

  /** run() starts with a new idle fiber. */
  function FreshIdle(fibers: map<Fid, Fiber>, th: Thread, t: Tid): map<Fid, Fiber> {
    if th.idle in fibers then fibers[th.idle := NewFiber(IdleOf(t))] else fibers
  }

  /** Scheduler::yieldTo() up to the switch. The run fiber of a hijacked thread may not have
      started, or may have ended; then it is reset, and unless stop() does it the fiber that leaves
      becomes m_callingFiber. */
  function DoLeave(e: Engine, t: Tid): Engine
    requires t < |e.threads|
  {
    var th := e.threads[t];
    var over := th.run in e.fibers && e.fibers[th.run].state != Hold;
    var first := !th.asks && Hijacked(th) && over && e.fibers[th.run].state in {Init, Term};
    SetThread(e, t, th.(current := th.run, pc := SwitchOut(th.run), asks := false,
                        calling := if first then Some(th.current) else th.calling))
      .(fibers := YieldToWrites(if over then FreshIdle(e.fibers, th, t) else e.fibers,
                                th.current, th.run, t, th.asks || first, Hold))
  }

  /** entryPoint() catches what the functor threw. */
  function DoThrow(e: Engine, t: Tid): Engine
    requires t < |e.threads| && e.threads[t].current in e.fibers
  {
    var th := e.threads[t];
    SetThread(e, t, th.(pc := Failing))
      .(fibers := e.fibers[th.current := e.fibers[th.current].(thrown := true)])
  }

  /** Fiber::exitPoint() up to the switch. */
  function DoExit(e: Engine, t: Tid, last: FiberState): Engine
    requires t < |e.threads| && e.threads[t].current in e.fibers
  {
    var th := e.threads[t];
    var me := e.fibers[th.current];
    if me.terminateOuter.Some? && me.outer == None then
      SetThread(e, t, th.(current := me.terminateOuter.value, pc := SwitchOut(me.terminateOuter.value)))
        .(fibers := YieldToWrites(e.fibers, th.current, me.terminateOuter.value, t, false, last))
    else e
  }

  /** exitPoint() of a hijacked run fiber: resume the fiber that it is to return to, wherever
      that fiber is. */
  function DoEnd(e: Engine, t: Tid): Engine
    requires t < |e.threads| && e.threads[t].pc.Ending?
  {
    var th := e.threads[t];
    if EndsTo(e, t).Some? then
      var c := EndsTo(e, t).value;
      var fs := YieldToWrites(e.fibers, th.current, c, t, false, th.pc.last);
      SetThread(e, t, th.(current := c, pc := SwitchIn(c), outside := true))
        .(fibers := if c in fs then fs[c := fs[c].(place := Held(t))] else fs)
    else e
  }

  function EndsTo(e: Engine, t: Tid): Option<Fid>
    requires t < |e.threads|
  {
    var f := e.threads[t].current;
    if f in e.fibers && e.fibers[f].outer == None then e.fibers[f].terminateOuter else None
  }

  function DoSwitch(e: Engine, t: Tid): Engine
    requires t < |e.threads|
  {
    var th := e.threads[t];
    SetThread(e, t,
      match th.pc
      case SwitchIn(f) => th.(ctx := f, pc := ArriveIn)
      case SwitchOut(to) => th.(ctx := to, pc := ArriveOut)
      case SwitchIdle => th.(ctx := th.idle, pc := Idle)
      case _ =>
        th.(ctx := if th.ctx in e.fibers && e.fibers[th.ctx].outer.Some? then e.fibers[th.ctx].outer.value else th.ctx,
            pc := ArriveBack))
  }

  function DoArriveIn(e: Engine, t: Tid): Engine
    requires t < |e.threads|
  {
    var th := e.threads[t];
    SetThread(e, t, th.(current := th.ctx, pc := User)).(fibers := HandOff(e.fibers, th.ctx))
  }

  function DoArriveOut(e: Engine, t: Tid): Engine
    requires t < |e.threads|
  {
    var th := e.threads[t];
    var back := th.ctx in e.fibers && e.fibers[th.ctx].yielder.Some? && !th.outside;
    SetThread(e, t, th.(current := th.ctx, outside := false,
                        pc := if back then Landed(e.fibers[th.ctx].yielder.value, e.fibers[th.ctx].next) else Loop))
      .(fibers := HandOff(e.fibers, th.ctx))
  }

  /** The fiber that came back to the run loop holds an exception. */
  predicate Rethrows(e: Engine, t: Tid)
    requires t < |e.threads|
  {
    e.threads[t].pc.Landed? && e.threads[t].pc.y in e.fibers && e.fibers[e.threads[t].pc.y].thrown
  }

  /** The end of yieldTo() in the run loop: rethrow what the fiber that came back has thrown. By
      now another thread may have resumed that fiber. */
  function DoLand(e: Engine, t: Tid): Engine
    requires t < |e.threads| && e.threads[t].pc.Landed?
  {
    var th := e.threads[t];
    SetThread(e, t, th.(pc := if Rethrows(e, t) then Throwing else if th.functor then Judging else Loop))
  }

  /** Fiber::reset(). */
  function Reset(fb: Fiber, place: Place): Fiber { fb.(state := Init, thrown := false, place := place) }

  /** After a functor: its fiber is kept for the next one if it has ended, on whatever thread. */
  function DoJudge(e: Engine, t: Tid): Engine
    requires t < |e.threads|
  {
    var th := e.threads[t].(pc := Loop, functor := false);
    if th.spare.Some? && th.spare.value in e.fibers && e.fibers[th.spare.value].state == Term then
      SetThread(e, t, th)
        .(fibers := e.fibers[th.spare.value := Reset(e.fibers[th.spare.value], SpareOf(t))])
    else SetThread(e, t, th.(spare := None))
  }

  /** run() returns or throws and lets go of the fiber it kept. */
  function Drop(e: Engine, t: Tid): Engine
    requires t < |e.threads|
  {
    var f := e.threads[t].spare;
    SetThread(e, t, e.threads[t].(spare := None, functor := false))
      .(fibers := if f.Some? && f.value in e.fibers && e.fibers[f.value].place == SpareOf(t)
                  then e.fibers[f.value := e.fibers[f.value].(place := Spent)] else e.fibers)
  }

  function DoArriveBack(e: Engine, t: Tid): Engine
    requires t < |e.threads|
  {
    var th := e.threads[t];
    var fs := HandOff(e.fibers, th.ctx);
    SetThread(e, t, th.(current := th.ctx, pc := Loop))
      .(fibers := if th.idle in fs then fs[th.idle := fs[th.idle].(outer := None)] else fs)
  }

  /** One pass over the queue. */
  function DoSelect(e: Engine, t: Tid, busy: set<Fid>): Engine
    requires t < |e.threads| && e.threads[t].sched < |e.scheds|
  {
    var th := e.threads[t];
    var sc := e.scheds[th.sched];
    var batch := Take(sc.queue, t, busy, sc.batchSize);
    Engine(Moved(e.fibers, FibersOf(batch), Batched(t)),
           e.threads[t := th.(batch := batch, active := batch != [])],
           e.scheds[th.sched := sc.(queue := Rest(sc.queue, t, busy, sc.batchSize),
                                    active := sc.active - (if th.active then 1 else 0) +
                                      (if batch != [] then 1 else 0))])
  }

  function Started(e: Engine, s: Sid, it: Item): Engine
    requires s < |e.scheds|
  {
    e.(scheds := e.scheds[s := e.scheds[s].(started := e.scheds[s].started + multiset{it})])
  }

  /** The fiber for the next functor: the one that was kept, or a new one named n. */
  function FunctorFiber(e: Engine, t: Tid, n: Fid): Fid
    requires t < |e.threads|
  {
    if e.threads[t].spare.Some? then e.threads[t].spare.value else n
  }

  /** Take the next task from the back of the batch; n names the fiber made for a functor. */
  function DoPop(e: Engine, t: Tid, n: Fid): Engine
    requires t < |e.threads| && e.threads[t].batch != [] && e.threads[t].sched < |e.scheds|
  {
    var th := e.threads[t];
    var it := th.batch[|th.batch| - 1];
    var th1 := th.(batch := th.batch[..|th.batch| - 1]);
    var e1 := Started(e, th.sched, it);
    if it.task.DgTask? then
      var f := FunctorFiber(e, t, n);
      SetThread(e1, t, th1.(pc := Resume(f), spare := Some(f), functor := true))
        .(fibers := e.fibers[f := if f in e.fibers then Reset(e.fibers[f], Held(t))
                                  else NewFiber(Held(t)).(own := true)])
    else if it.task.f !in e.fibers then
      SetThread(e1, t, th1)
    else if e.fibers[it.task.f].state != Term then
      SetThread(e1, t, th1.(pc := Resume(it.task.f)))
        .(fibers := e.fibers[it.task.f := e.fibers[it.task.f].(place := Held(t))])
    else
      SetThread(e1, t, th1).(fibers := e.fibers[it.task.f := e.fibers[it.task.f].(place := Loose)])
  }

  function DoEnter(e: Engine, t: Tid): Engine
    requires t < |e.threads| && e.threads[t].pc.Resume?
  {
    var th := e.threads[t];
    SetThread(e, t, th.(current := th.pc.f, pc := SwitchIn(th.pc.f)))
      .(fibers := YieldToWrites(e.fibers, th.current, th.pc.f, t, true, Hold))
  }

  /** idleFiber->call() up to the switch. */
  function DoCallIdle(e: Engine, t: Tid): Engine
    requires t < |e.threads| && e.threads[t].idle in e.fibers
  {
    var th := e.threads[t];
    SetThread(e, t, th.(current := th.idle, pc := SwitchIdle))
      .(fibers := e.fibers[th.idle := e.fibers[th.idle].(outer := Some(th.current), state := Exec, on := Some(t))])
  }

  /** Fiber::yield(), or the end of the idle function, up to the switch. */
  function DoYieldIdle(e: Engine, t: Tid, last: FiberState): Engine
    requires t < |e.threads|
  {
    var th := e.threads[t];
    var o := if th.current in e.fibers then e.fibers[th.current].outer else None;
    SetThread(e, t, th.(pc := SwitchBack))
      .(fibers := if o.Some? && o.value in e.fibers
                  then e.fibers[o.value := e.fibers[o.value].(yielder := Some(th.current), next := last)]
                  else e.fibers)
  }

  /** Where run() leads when it returns or throws. */
  function AfterRun(th: Thread, last: FiberState): Pc { if Hijacked(th) then Ending(last) else Dead }

  function DoRetire(e: Engine, t: Tid): Engine
    requires t < |e.threads|
  {
    SetThread(Drop(e, t), t, Drop(e, t).threads[t].(pc := AfterRun(e.threads[t], Term), calling := None))
  }

  /** The exception path of the run loop: un-executed items go back, the thread ends. */
  function DoRequeue(e: Engine, t: Tid): Engine
    requires t < |e.threads| && e.threads[t].sched < |e.scheds|
  {
    var th := Drop(e, t).threads[t];
    var sc := e.scheds[th.sched];
    Engine(Moved(Drop(e, t).fibers, FibersOf(th.batch), Queued(th.sched)),
           e.threads[t := th.(batch := [], active := false, pc := AfterRun(th, Except))],
           e.scheds[th.sched := sc.(queue := sc.queue + th.batch, active := sc.active - 1)])
  }

  function Apply(e: Engine, ev: Move): Engine
    requires Enabled(e, ev)
  {
    match ev
    case Create(_, n) => e.(fibers := e.fibers[n := NewFiber(Loose)])
    case ResetFiber(_, f) => e.(fibers := e.fibers[f := Reset(e.fibers[f], Loose)])
    case Schedule(_, s, f, bound) => DoSchedule(e, s, f, bound)
    case ScheduleDg(_, s, dg, bound) => Push(e, s, Item(DgTask(dg), bound))
    case SwitchTo(t, s, bound) => DoSwitchTo(e, t, s, bound)
    case Park(t, o) => DoPark(e, t, o)
    case Wake(_, s, f) => DoSchedule(e, s, f, None)
    case Await(t, ask) => DoAwait(e, t, ask)
    case Leave(t) => DoLeave(e, t)
    case Throw(t) => DoThrow(e, t)
    case Exit(t, last) => DoExit(e, t, last)
    case Switch(t) => DoSwitch(e, t)
    case Arrive(t) =>
      if e.threads[t].pc == ArriveIn then DoArriveIn(e, t)
      else if e.threads[t].pc == ArriveOut then DoArriveOut(e, t)
      else DoArriveBack(e, t)
    case Land(t) => DoLand(e, t)
    case Judge(t) => DoJudge(e, t)
    case Select(t, busy) => DoSelect(e, t, busy)
    case Pop(t, n) => DoPop(e, t, n)
    case Enter(t) => DoEnter(e, t)
    case CallIdle(t) => DoCallIdle(e, t)
    case YieldIdle(t, last) => DoYieldIdle(e, t, last)
    case Requeue(t) => DoRequeue(e, t)
    case Retire(t) => DoRetire(e, t)
    case End(t) => DoEnd(e, t)
    case Stop(_, s) => e.(scheds := e.scheds[s := e.scheds[s].(stopping := true)])
  }

  // ----- what the code asserts -----

  predicate Resumable(e: Engine, f: Fid) {
    f in e.fibers && e.fibers[f].state in {Init, Hold}
  }

  /** What exitPoint() and yieldTo() assert when a hijacked run fiber ends. */
  predicate EndAsserts(e: Engine, t: Tid)
    requires t < |e.threads|
  {
    var c := EndsTo(e, t);                                          // fiber.cpp:347-349, 254
    c.Some? && c.value != e.threads[t].current && Resumable(e, c.value)
  }

  /** The running fiber is the one its thread is on, and has somewhere to go when it ends. */
  predicate CanReturn(e: Engine, t: Tid)
    requires t < |e.threads|
  {
    var th := e.threads[t];                                         // fiber.cpp:254, 347-349
    && th.current == th.ctx && th.current in e.fibers && e.fibers[th.current].state == Exec
    && (e.fibers[th.current].stack ==>
          && e.fibers[th.current].outer == None && e.fibers[th.current].terminateOuter.Some?
          && e.fibers[th.current].terminateOuter.value != th.current
          && Resumable(e, e.fibers[th.current].terminateOuter.value))
  }

  /** The fiber about to get the processor will have somewhere to go when it ends, once the one
      before it has been given its new state. */
  predicate WillReturn(e: Engine, f: Fid) {
    && f in e.fibers
    && (e.fibers[f].stack && e.fibers[f].terminateOuter.Some? && e.fibers[f].terminateOuter == e.fibers[f].yielder ==>
          e.fibers[f].next in {Init, Hold})                         // fiber.cpp:254, 347-349
  }

  /** What reset() asserts. */
  predicate CanReset(e: Engine, t: Tid, f: Fid)
    requires t < |e.threads|
  {
    f in e.fibers && f != e.threads[t].current && e.fibers[f].stack && e.fibers[f].state in {Init, Term, Except}
  }                                                                 // fiber.cpp:160-161

  /** The MORDOR_ASSERTs that the thread meets next; those met when a hijacked run loop ends are
      in EndAsserts, and are met by the step that ends it. */
  predicate AssertsHold(e: Engine, t: Tid)
    requires t < |e.threads|
  {
    var th := e.threads[t];
    match th.pc
    case Resume(f) => Resumable(e, f)                               // fiber.cpp:254
    case Leaving =>                                                 // fiber.cpp:160-161, 254
      && th.run in e.fibers && th.run != th.current && (th.asks ==> Hijacked(th))   // scheduler.cpp:230
      && (e.fibers[th.run].state == Hold || (e.fibers[th.run].stack && e.fibers[th.run].state in {Init, Term, Except}))
    case User => CanReturn(e, t)
    case Failing => CanReturn(e, t)
    case Judging =>
      && th.spare.Some? && th.spare.value in e.fibers
      && (e.fibers[th.spare.value].state == Term ==> CanReset(e, t, th.spare.value))
    case Loop =>                                                    // fiber.cpp:187-191, 207, 293
      && th.current == th.ctx == th.run && th.run in e.fibers && e.fibers[th.run].state == Exec
      && th.idle in e.fibers && th.idle != th.current && e.fibers[th.idle].outer == None
      && (e.fibers[th.idle].state == Term || Resumable(e, th.idle))
      && (th.spare.Some? ==> CanReset(e, t, th.spare.value))
    case Idle =>                                                    // fiber.cpp:229-230
      th.current == th.ctx && th.current in e.fibers && e.fibers[th.current].state == Exec
      && e.fibers[th.current].outer.Some?
    case ArriveBack =>                                              // fiber.cpp:197-207
      && th.ctx == th.run && th.run in e.fibers && e.fibers[th.run].state == Exec
      && e.fibers[th.run].yielder == Some(th.idle)
    case SwitchIn(f) => WillReturn(e, f)
    case ArriveIn =>                                                // fiber.cpp:293, 315
      th.ctx in e.fibers && e.fibers[th.ctx].state == Exec && WillReturn(e, th.ctx)
    case ArriveOut => th.ctx in e.fibers && e.fibers[th.ctx].state == Exec   // fiber.cpp:293, 315
    case _ => true
  }
}

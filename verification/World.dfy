/** Fibers, threads, run queues and synchronization objects together: every
    interleaving of any number of threads, schedulers and objects. */
module World {
  import opened Common
  import opened Scheduling
  import opened FiberEngine
  import opened EngineSafety
  import opened FiberSync

  /** Auxiliary: the object a fiber parked on and the scheduler it ran on, until it runs again. */
  datatype Pending = Pending(o: Oid, s: Sid)

  datatype World = World(e: Engine, objs: seq<Obj>, pending: map<Fid, Pending>)

  datatype Act =
    | Run(ev: Move)                     // a step of the fiber engine
    | Call(t: Tid, o: Oid, op: Op)      // one critical section of an object

  /** Nothing here reads an auxiliary field except the client's duty, inside Enabled, to
      schedule only fibers it still holds. Parking and waking happen through the objects alone. */
  ghost predicate Can(w: World, a: Act) {
    match a
    case Run(ev) => !ev.Park? && !ev.Wake? && Enabled(w.e, ev)
    case Call(t, o, op) =>
      && t < |w.e.threads| && o < |w.objs|
      && (w.e.threads[t].pc == User || (w.e.threads[t].pc == Idle && !Blocking(op)))
      && Legal(w.objs[o], t, w.e.threads[t].current, op)
  }

  /** Scheduler::getThis() and Fiber::getThis() on a thread. */
  function Self(e: Engine, t: Tid): Waiter
    requires t < |e.threads|
  {
    Waiter(e.threads[t].sched, e.threads[t].current)
  }

  function WakeUp(e: Engine, x: Option<Waiter>): Engine {
    if x.Some? && x.value.sched < |e.scheds| && x.value.fiber in e.fibers
    then DoSchedule(e, x.value.sched, x.value.fiber, None) else e
  }

  /** A call that had this outcome: schedule whom it wakes, then park the caller if it is to wait. */
  function After(w: World, t: Tid, o: Oid, out: Outcome): World
    requires t < |w.e.threads| && o < |w.objs|
  {
    var me := Self(w.e, t);
    var e1 := WakeUp(w.e, out.wakes);
    World(if out.parks && t < |e1.threads| then DoPark(e1, t, o) else e1,
          w.objs[o := out.obj],
          if out.parks then w.pending[me.fiber := Pending(o, me.sched)] else w.pending)
  }

  function DoCall(w: World, t: Tid, o: Oid, op: Op): World
    requires t < |w.e.threads| && o < |w.objs| && Legal(w.objs[o], t, w.e.threads[t].current, op)
  {
    After(w, t, o, Perform(w.objs[o], t, Self(w.e, t), op))
  }

  function DoRun(w: World, ev: Move): World
    requires Enabled(w.e, ev)
  {
    w.(e := Apply(w.e, ev),
       pending := if ev.Arrive? && w.e.threads[ev.t].pc == ArriveIn then w.pending - {w.e.threads[ev.t].ctx}
                  else w.pending)
  }

  function Next(w: World, a: Act): World
    requires Can(w, a)
  {
    match a
    case Run(ev) => DoRun(w, ev)
    case Call(t, o, op) => DoCall(w, t, o, op)
  }

  // ----- invariant -----

  predicate PlacedAt(e: Engine, x: Waiter, o: Oid) {
    x.fiber in e.fibers && e.fibers[x.fiber].place == Away(x.sched, o)
  }

  /** An object holds exactly the fibers that were given to it, each once. */
  ghost predicate Linked(w: World, o: Oid)
    requires o < |w.objs|
  {
    forall x :: Holds(w.objs[o], x) == if PlacedAt(w.e, x, o) then 1 else 0
  }

  /** The owner of a mutex is not waiting in it. */
  predicate OwnerOk(w: World, o: Oid)
    requires o < |w.objs|
  {
    w.objs[o].Monitor? && w.objs[o].mutex.owner.Some? ==>
      var f := w.objs[o].mutex.owner.value;
      f in w.e.fibers && !(w.e.fibers[f].place.Away? && w.e.fibers[f].place.o == o)
  }

  /** A fiber stays with the scheduler it parked on until it runs again. */
  predicate Homed(e: Engine, f: Fid, s: Sid)
    requires f in e.fibers
  {
    match e.fibers[f].place
    case Away(r, _) => r == s
    case Queued(r) => r == s
    case Batched(t) => t < |e.threads| && e.threads[t].sched == s
    case Held(t) =>
      t < |e.threads| && e.threads[t].sched == s
      && (e.threads[t].pc.Resume? || e.threads[t].pc.SwitchIn? || e.threads[t].pc == ArriveIn)
    case _ => false
  }

  /** A fiber that parked on a mutex or a condition is still waiting there or owns the mutex. */
  predicate PendingOk(w: World, f: Fid)
    requires f in w.pending
  {
    var p := w.pending[f];
    && f in w.e.fibers && p.o < |w.objs| && Homed(w.e, f, p.s) && w.e.fibers[f].state in {Hold, Exec}
    && (w.e.fibers[f].place.Away? ==> w.e.fibers[f].place.o == p.o)
    && (w.objs[p.o].Monitor? ==> w.e.fibers[f].place.Away? || w.objs[p.o].mutex.owner == Some(f))
  }

  ghost predicate WorldInv(w: World) {
    && Inv(w.e)
    && (forall o :: 0 <= o < |w.objs| ==> ObjOk(w.objs[o]) && Linked(w, o) && OwnerOk(w, o))
    && (forall f :: f in w.pending ==> PendingOk(w, f))
    && (forall f :: f in w.e.fibers && w.e.fibers[f].place.Away? ==> w.e.fibers[f].place.o < |w.objs|)
  }

  // ----- engine steps -----

  /** Engine steps neither give fibers to objects nor take them away. */
  lemma RunKeepsAway(e: Engine, ev: Move, f: Fid)
    requires Inv(e) && Enabled(e, ev) && Clean(e, ev) && !ev.Park? && !ev.Wake?
    ensures f in e.fibers ==> f in Apply(e, ev).fibers
    ensures f in Apply(e, ev).fibers && Apply(e, ev).fibers[f].place.Away? ==>
              f in e.fibers && e.fibers[f].place == Apply(e, ev).fibers[f].place
    ensures f in e.fibers && e.fibers[f].place.Away? ==> Apply(e, ev).fibers[f].place == e.fibers[f].place
  {
    if Internal(ev) {
      InternalKeepsMembers(e, ev, f);
    } else {
      RunLoopKeepsAway(e, ev, f);
    }
  }

  lemma SelectMoves(e: Engine, t: Tid, busy: set<Fid>, f: Fid)
    requires Inv(e) && Enabled(e, Select(t, busy))
    ensures f in e.fibers <==> f in DoSelect(e, t, busy).fibers
    ensures f in e.fibers ==>
              || DoSelect(e, t, busy).fibers[f] == e.fibers[f]
              || (e.fibers[f].place == Queued(e.threads[t].sched)
                  && DoSelect(e, t, busy).fibers[f] == e.fibers[f].(place := Batched(t)))
  {
    var q := e.scheds[e.threads[t].sched].queue;
    var k := e.scheds[e.threads[t].sched].batchSize;
    TakenAreEligible(q, t, busy, k);
    if it: Item :| it in Take(q, t, busy, k) && it.task == FiberTask(f) { InQueue(e, e.threads[t].sched, it); }
  }

  lemma RequeueMoves(e: Engine, t: Tid, f: Fid)
    requires Inv(e) && Enabled(e, Requeue(t))
    ensures f in e.fibers <==> f in DoRequeue(e, t).fibers
    ensures f in e.fibers ==>
              || DoRequeue(e, t).fibers[f] == e.fibers[f]
              || (e.fibers[f].place == Batched(t)
                  && DoRequeue(e, t).fibers[f] == e.fibers[f].(place := Queued(e.threads[t].sched)))
              || (e.fibers[f].place == SpareOf(t) && DoRequeue(e, t).fibers[f] == e.fibers[f].(place := Spent))
  {
    hide Lists, Accounts, Roots, ThreadOk, FiberOk;
    assert ThreadOk(e, t) && (f in e.fibers ==> FiberOk(e, f));
    if it: Item :| it in e.threads[t].batch && it.task == FiberTask(f) { InBatch(e, t, it); }
  }

  lemma PopFiberMoves(e: Engine, t: Tid, n: Fid, it: Item, f: Fid)
    requires Shape(e) && Lists(e) && Enabled(e, Pop(t, n)) && it == e.threads[t].batch[|e.threads[t].batch| - 1]
    requires it.task.FiberTask?
    ensures f in e.fibers <==> f in DoPop(e, t, n).fibers
    ensures f in e.fibers ==>
              || DoPop(e, t, n).fibers[f] == e.fibers[f]
              || (e.fibers[f].place == Batched(t) && e.fibers[f].state == Term
                  && DoPop(e, t, n).fibers[f] == e.fibers[f].(place := Loose))
              || (e.fibers[f].place == Batched(t) && DoPop(e, t, n).threads[t].pc == Resume(f)
                  && DoPop(e, t, n).fibers[f] == e.fibers[f].(place := Held(t)))
  {
    InBatch(e, t, it);
  }

  lemma PopMoves(e: Engine, t: Tid, n: Fid, f: Fid)
    requires Shape(e) && Lists(e) && Enabled(e, Pop(t, n))
    ensures f in e.fibers ==> f in DoPop(e, t, n).fibers
    ensures f in DoPop(e, t, n).fibers && f !in e.fibers ==>
              DoPop(e, t, n).fibers[f] == NewFiber(Held(t)).(own := true)
    ensures f in e.fibers ==>
              || DoPop(e, t, n).fibers[f] == e.fibers[f]
              || (e.fibers[f].place == Batched(t) && e.fibers[f].state == Term
                  && DoPop(e, t, n).fibers[f] == e.fibers[f].(place := Loose))
              || (e.fibers[f].place == Batched(t) && DoPop(e, t, n).threads[t].pc == Resume(f)
                  && DoPop(e, t, n).fibers[f] == e.fibers[f].(place := Held(t)))
              || (e.fibers[f].place == SpareOf(t) && DoPop(e, t, n).fibers[f] == Reset(e.fibers[f], Held(t)))
  {
    var it := e.threads[t].batch[|e.threads[t].batch| - 1];
    if it.task.FiberTask? { PopFiberMoves(e, t, n, it, f); }
    else { FunctorForm(e, t, n, DoPop(e, t, n), FunctorFiber(e, t, n)); }
  }

  /** Only the fiber that was waiting for the end of the run loop moves. */
  lemma EndMoves(e: Engine, t: Tid, f: Fid)
    requires Inv(e) && Enabled(e, End(t)) && Awaited(e, t)
    ensures f in e.fibers <==> f in DoEnd(e, t).fibers
    ensures f in e.fibers && f != e.threads[t].native ==> DoEnd(e, t).fibers[f] == e.fibers[f]
    ensures e.threads[t].native in DoEnd(e, t).fibers && DoEnd(e, t).fibers[e.threads[t].native].place == Held(t)
    ensures |DoEnd(e, t).threads| == |e.threads| && DoEnd(e, t).threads[t].sched == e.threads[t].sched
    ensures forall u :: 0 <= u < |e.threads| && u != t ==> DoEnd(e, t).threads[u] == e.threads[u]
  {
    var th := e.threads[t];
    EndForm(e, t, DoEnd(e, t), th.native,
            e.fibers[th.native].(state := Exec, yielder := Some(th.run), next := th.pc.last, on := Some(t),
              place := Held(t)));
  }

  lemma OwnKeepsAway(e: Engine, ev: Move, f: Fid)
    requires Shape(e) && Enabled(e, ev) && (ev.SwitchTo? || ev.Await?)
    ensures f in e.fibers <==> f in Apply(e, ev).fibers
    ensures f in Apply(e, ev).fibers && Apply(e, ev).fibers[f].place.Away? ==>
              e.fibers[f].place == Apply(e, ev).fibers[f].place
    ensures f in e.fibers && e.fibers[f].place.Away? ==> Apply(e, ev).fibers[f].place == e.fibers[f].place
  {
    assert ThreadOk(e, ev.t);
  }

  lemma RunLoopKeepsAway(e: Engine, ev: Move, f: Fid)
    requires Inv(e) && Enabled(e, ev) && Clean(e, ev) && !ev.Park? && !ev.Wake? && !Internal(ev)
    ensures f in e.fibers ==> f in Apply(e, ev).fibers
    ensures f in Apply(e, ev).fibers && Apply(e, ev).fibers[f].place.Away? ==>
              f in e.fibers && e.fibers[f].place == Apply(e, ev).fibers[f].place
    ensures f in e.fibers && e.fibers[f].place.Away? ==> Apply(e, ev).fibers[f].place == e.fibers[f].place
  {
    match ev
    case SwitchTo(_, _, _) => OwnKeepsAway(e, ev, f);
    case Await(_, _) => OwnKeepsAway(e, ev, f);
    case End(t) => EndMoves(e, t, f);
    case Select(t, busy) => SelectMoves(e, t, busy, f);
    case Requeue(t) => RequeueMoves(e, t, f);
    case Pop(t, n) => PopMoves(e, t, n, f);
    case _ =>
  }

  lemma InternalThreads(e: Engine, ev: Move, u: Tid)
    requires Enabled(e, ev) && Internal(ev) && u < |e.threads|
    ensures |Apply(e, ev).threads| == |e.threads| && Apply(e, ev).threads[u].sched == e.threads[u].sched
    ensures u != ev.t ==> Apply(e, ev).threads[u] == e.threads[u]
  {
    hide Apply, Enabled;
    StepThreads(e, ev);
  }

  /** A fiber that takes part in a hand-off keeps its right state unless it is the one that left. */
  lemma HandOffState(e: Engine, t: Tid, f: Fid)
    requires Inv(e) && Enabled(e, Arrive(t)) && f in e.fibers && e.fibers[f].state in {Hold, Exec}
    requires !e.fibers[f].place.LoopOf? && !e.fibers[f].place.IdleOf?
    requires e.fibers[f].place.Held? ==> e.threads[t].pc == ArriveIn || e.fibers[f].place.t != t
    ensures f in HandOff(e.fibers, e.threads[t].ctx) && HandOff(e.fibers, e.threads[t].ctx)[f].state in {Hold, Exec}
  {
    HandOffKeeps(e.fibers, e.threads[t].ctx, f);
    assert ThreadOk(e, t);
  }

  lemma ArriveSuspended(e: Engine, t: Tid, f: Fid, s: Sid)
    requires Inv(e) && Enabled(e, Arrive(t)) && f in e.fibers && Homed(e, f, s) && e.fibers[f].state in {Hold, Exec}
    ensures f in Apply(e, Arrive(t)).fibers && Apply(e, Arrive(t)).fibers[f].state in {Hold, Exec}
  {
    hide Inv, HandOff;
    HandOffState(e, t, f);
  }

  lemma StaysSuspended(e: Engine, ev: Move, f: Fid, s: Sid)
    requires Inv(e) && Enabled(e, ev) && Internal(ev) && f in e.fibers
    requires Homed(e, f, s) && e.fibers[f].state in {Hold, Exec}
    ensures f in Apply(e, ev).fibers && Apply(e, ev).fibers[f].state in {Hold, Exec}
  {
    if ev.Arrive? {
      ArriveSuspended(e, ev.t, f, s);
    } else if e.fibers[f].state == Exec {
      ExecStaysInternal(e, ev, f);
    } else {
      HoldStays(e, ev, f);
    }
  }

  lemma HoldStays(e: Engine, ev: Move, f: Fid)
    requires Shape(e) && Enabled(e, ev) && Internal(ev) && !ev.Arrive? && f in e.fibers && e.fibers[f].state == Hold
    requires !e.fibers[f].place.IdleOf?
    ensures f in Apply(e, ev).fibers && Apply(e, ev).fibers[f].state in {Hold, Exec}
  {
    hide FiberOk, HijackOk, SpareOk, PcOk, DoLeave;
    if ev.Leave? { LeaveForm(e, ev.t, Apply(e, ev)); assert ThreadOk(e, ev.t); }
    else { InternalKeepsMembers(e, ev, f); }
  }

  lemma HomedHeld(e: Engine, ev: Move, f: Fid, s: Sid)
    requires Inv(e) && Enabled(e, ev) && Internal(ev) && f in e.fibers
    requires e.fibers[f].place == Held(ev.t) && Homed(e, f, s)
    requires !(ev.Arrive? && e.threads[ev.t].pc == ArriveIn)
    ensures f in Apply(e, ev).fibers && Homed(Apply(e, ev), f, s)
  {
    InternalKeepsMembers(e, ev, f);
    InternalThreads(e, ev, ev.t);
    if ev.Enter? {
      YieldToKeeps(e.fibers, e.threads[ev.t].current, e.threads[ev.t].pc.f, ev.t, true, Hold, f);
    }
  }

  lemma HomedElsewhere(e: Engine, ev: Move, f: Fid, s: Sid)
    requires Inv(e) && Enabled(e, ev) && Internal(ev) && f in e.fibers
    requires e.fibers[f].place.Held? && e.fibers[f].place.t != ev.t && Homed(e, f, s)
    ensures f in Apply(e, ev).fibers && Homed(Apply(e, ev), f, s)
  {
    InternalThreads(e, ev, e.fibers[f].place.t);
    if ev.Arrive? { ArriveKeepsOthers(e, ev.t, f); } else { InternalKeepsMembers(e, ev, f); }
  }

  lemma HomedAtRest(e: Engine, ev: Move, f: Fid, s: Sid)
    requires Inv(e) && Enabled(e, ev) && Internal(ev) && f in e.fibers
    requires !e.fibers[f].place.Held? && Homed(e, f, s)
    ensures f in Apply(e, ev).fibers && Homed(Apply(e, ev), f, s)
  {
    InternalKeepsMembers(e, ev, f);
    if e.fibers[f].place.Batched? { InternalThreads(e, ev, e.fibers[f].place.t); }
  }

  /** A parked fiber keeps its scheduler through every engine step until it runs again. */
  lemma HomedInternal(e: Engine, ev: Move, f: Fid, s: Sid)
    requires Inv(e) && Enabled(e, ev) && Internal(ev) && f in e.fibers
    requires Homed(e, f, s) && e.fibers[f].state in {Hold, Exec}
    requires !(ev.Arrive? && e.threads[ev.t].pc == ArriveIn && e.threads[ev.t].ctx == f)
    ensures f in Apply(e, ev).fibers && Homed(Apply(e, ev), f, s)
  {
    var p := e.fibers[f].place;
    assert FiberOk(e, f);
    if p.Held? && p.t == ev.t {
      assert HeldBy(e, p.t, f);
      HomedHeld(e, ev, f, s);
    } else if p.Held? {
      HomedElsewhere(e, ev, f, s);
    } else {
      HomedAtRest(e, ev, f, s);
    }
  }

  /** The fiber a thread hands off is its own. */
  lemma NotForeignYielder(e: Engine, t: Tid, f: Fid)
    requires Inv(e) && t < |e.threads| && e.threads[t].pc in {ArriveIn, ArriveOut, ArriveBack} && f in e.fibers
    requires e.fibers[f].place.Held? && e.fibers[f].place.t != t
    ensures f in HandOff(e.fibers, e.threads[t].ctx) &&
            HandOff(e.fibers, e.threads[t].ctx)[f].place == e.fibers[f].place
  {
    assert ThreadOk(e, t);
  }

  lemma ArriveKeepsOthers(e: Engine, t: Tid, f: Fid)
    requires Inv(e) && Enabled(e, Arrive(t)) && f in e.fibers && e.fibers[f].place.Held? && e.fibers[f].place.t != t
    ensures f in Apply(e, Arrive(t)).fibers && Apply(e, Arrive(t)).fibers[f].place == e.fibers[f].place
  {
    NotForeignYielder(e, t, f);
  }

  lemma HomedSelect(e: Engine, t: Tid, busy: set<Fid>, f: Fid, s: Sid)
    requires Inv(e) && Enabled(e, Select(t, busy)) && f in e.fibers && Homed(e, f, s)
    ensures f in DoSelect(e, t, busy).fibers && Homed(DoSelect(e, t, busy), f, s)
    ensures DoSelect(e, t, busy).fibers[f].state == e.fibers[f].state
  {
    hide Inv, Take, Rest, Moved, FibersOf;
    SelectMoves(e, t, busy, f);
  }

  lemma HomedRequeue(e: Engine, t: Tid, f: Fid, s: Sid)
    requires Inv(e) && Enabled(e, Requeue(t)) && f in e.fibers && Homed(e, f, s)
    ensures f in DoRequeue(e, t).fibers && Homed(DoRequeue(e, t), f, s)
    ensures DoRequeue(e, t).fibers[f].state == e.fibers[f].state
  {
    RequeueMoves(e, t, f);
  }

  lemma HomedPop(e: Engine, t: Tid, n: Fid, f: Fid, s: Sid)
    requires Inv(e) && Enabled(e, Pop(t, n)) && f in e.fibers && Homed(e, f, s) && e.fibers[f].state != Term
    ensures f in DoPop(e, t, n).fibers && Homed(DoPop(e, t, n), f, s)
    ensures DoPop(e, t, n).fibers[f].state == e.fibers[f].state
  {
    PopMoves(e, t, n, f);
    HomedPopped(e, DoPop(e, t, n), t, f, s);
  }

  lemma HomedPopped(e: Engine, e': Engine, t: Tid, f: Fid, s: Sid)
    requires t < |e.threads| == |e'.threads| && f in e.fibers && f in e'.fibers && Homed(e, f, s)
    requires e'.threads[t].sched == e.threads[t].sched && e.threads[t].pc == Loop
    requires forall u :: 0 <= u < |e.threads| && u != t ==> e'.threads[u] == e.threads[u]
    requires e'.fibers[f] == e.fibers[f] ||
             (e.fibers[f].place == Batched(t) && e'.threads[t].pc == Resume(f)
              && e'.fibers[f] == e.fibers[f].(place := Held(t)))
    ensures Homed(e', f, s)
  {
  }

  lemma HomedQueueStep(e: Engine, ev: Move, f: Fid, s: Sid)
    requires Inv(e) && Enabled(e, ev) && (ev.Select? || ev.Requeue? || ev.Pop?) && f in e.fibers
    requires Homed(e, f, s) && e.fibers[f].state in {Hold, Exec}
    ensures f in Apply(e, ev).fibers && Homed(Apply(e, ev), f, s) && Apply(e, ev).fibers[f].state in {Hold, Exec}
  {
    match ev
    case Select(t, busy) => HomedSelect(e, t, busy, f, s);
    case Requeue(t) => HomedRequeue(e, t, f, s);
    case Pop(t, n) => HomedPop(e, t, n, f, s);
  }

  lemma HomedOwnStep(e: Engine, ev: Move, f: Fid, s: Sid)
    requires Shape(e) && Enabled(e, ev) && (ev.SwitchTo? || ev.Await?) && f in e.fibers && Homed(e, f, s)
    ensures f in Apply(e, ev).fibers && Homed(Apply(e, ev), f, s) && Apply(e, ev).fibers[f].state == e.fibers[f].state
  {
    assert ThreadOk(e, ev.t) && FiberOk(e, f);
  }

  lemma HomedClientStep(e: Engine, ev: Move, f: Fid, s: Sid)
    requires Inv(e) && Enabled(e, ev) && Clean(e, ev) && !Internal(ev) && !ev.Park? && !ev.Wake? && f in e.fibers
    requires !(ev.Select? || ev.Requeue? || ev.Pop?)
    requires Homed(e, f, s) && e.fibers[f].state in {Hold, Exec}
    ensures f in Apply(e, ev).fibers && Homed(Apply(e, ev), f, s) && Apply(e, ev).fibers[f].state in {Hold, Exec}
  {
    if ev.SwitchTo? || ev.Await? { HomedOwnStep(e, ev, f, s); }
    if ev.End? { HomedEnd(e, ev.t, f, s, DoEnd(e, ev.t)); }
  }

  lemma HomedEnd(e: Engine, t: Tid, f: Fid, s: Sid, e': Engine)
    requires Enabled(e, End(t)) && e' == DoEnd(e, t) && f in e.fibers && Homed(e, f, s)
    requires Inv(e) && Awaited(e, t)
    ensures f in e'.fibers && Homed(e', f, s) && e'.fibers[f].state == e.fibers[f].state
  {
    hide DoEnd, Inv;
    EndMoves(e, t, f);
  }

  // ----- every step keeps the invariant -----

  lemma RunPending(w: World, ev: Move, f: Fid)
    requires WorldInv(w) && Can(w, Run(ev)) && Clean(w.e, ev) && f in DoRun(w, ev).pending
    ensures PendingOk(DoRun(w, ev), f)
  {
    var s := w.pending[f].s;
    assert PendingOk(w, f);
    RunKeepsAway(w.e, ev, f);
    if Internal(ev) {
      HomedInternal(w.e, ev, f, s);
      StaysSuspended(w.e, ev, f, s);
    } else if ev.Select? || ev.Requeue? || ev.Pop? {
      HomedQueueStep(w.e, ev, f, s);
    } else {
      HomedClientStep(w.e, ev, f, s);
    }
  }

  lemma RunObj(w: World, w': World, o: Oid)
    requires WorldInv(w) && o < |w.objs| && w'.objs == w.objs
    requires forall f :: f in w.e.fibers ==> f in w'.e.fibers
    requires forall f :: f in w'.e.fibers && w'.e.fibers[f].place.Away? ==>
                           f in w.e.fibers && w.e.fibers[f].place == w'.e.fibers[f].place
    requires forall f :: f in w.e.fibers && w.e.fibers[f].place.Away? ==> w'.e.fibers[f].place == w.e.fibers[f].place
    ensures ObjOk(w'.objs[o]) && Linked(w', o) && OwnerOk(w', o)
  {
    assert ObjOk(w.objs[o]) && Linked(w, o) && OwnerOk(w, o);
    forall x ensures Holds(w'.objs[o], x) == if PlacedAt(w'.e, x, o) then 1 else 0 {
      assert PlacedAt(w'.e, x, o) <==> PlacedAt(w.e, x, o);
    }
  }

  lemma RunKeepsInv(w: World, ev: Move)
    requires WorldInv(w) && Can(w, Run(ev)) && Clean(w.e, ev)
    ensures WorldInv(DoRun(w, ev))
  {
    var w' := DoRun(w, ev);
    StepKeepsInv(w.e, ev);
    forall f
      ensures f in w.e.fibers ==> f in w'.e.fibers
      ensures f in w'.e.fibers && w'.e.fibers[f].place.Away? ==>
              f in w.e.fibers && w.e.fibers[f].place == w'.e.fibers[f].place
      ensures f in w.e.fibers && w.e.fibers[f].place.Away? ==> w'.e.fibers[f].place == w.e.fibers[f].place
    {
      RunKeepsAway(w.e, ev, f);
    }
    forall o | 0 <= o < |w.objs| ensures ObjOk(w'.objs[o]) && Linked(w', o) && OwnerOk(w', o) { RunObj(w, w', o); }
    forall f | f in w'.pending ensures PendingOk(w', f) { RunPending(w, ev, f); }
  }

  /** The caller runs client code, so it waits nowhere. */
  lemma CallerIsAwake(w: World, t: Tid, o: Oid, op: Op)
    requires WorldInv(w) && Can(w, Call(t, o, op))
    ensures var f := w.e.threads[t].current;
            f in w.e.fibers && !w.e.fibers[f].place.Away? && !w.e.fibers[f].place.Queued? && f !in w.pending
  {
    var f := w.e.threads[t].current;
    assert ThreadOk(w.e, t);
    if f in w.pending { assert PendingOk(w, f); }
  }

  /** Whoever an operation schedules was waiting in that object. */
  lemma WokenIsPlaced(w: World, t: Tid, o: Oid, op: Op)
    requires WorldInv(w) && Can(w, Call(t, o, op)) && Perform(w.objs[o], t, Self(w.e, t), op).wakes.Some?
    ensures PlacedAt(w.e, Perform(w.objs[o], t, Self(w.e, t), op).wakes.value, o)
  {
    WokenWasHeld(w.objs[o], t, Self(w.e, t), op);
    assert Linked(w, o);
  }

  function PlaceAfter(p: Place, me: Waiter, o: Oid, out: Outcome, f: Fid): Place {
    if out.parks && f == me.fiber then Away(me.sched, o)
    else if out.wakes.Some? && f == out.wakes.value.fiber then Queued(out.wakes.value.sched)
    else p
  }

  /** What a call does: it replaces the object, moves the woken fiber and the caller, and
      nothing else. */
  ghost predicate Effect(w: World, w': World, t: Tid, o: Oid, out: Outcome) {
    && t < |w.e.threads| && o < |w.objs|
    && var me := Self(w.e, t);
    && w'.objs == w.objs[o := out.obj]
    && w'.pending == (if out.parks then w.pending[me.fiber := Pending(o, me.sched)] else w.pending)
    && w'.e.fibers.Keys == w.e.fibers.Keys
    && (forall f :: f in w.e.fibers ==>
          w'.e.fibers[f] == w.e.fibers[f].(place := PlaceAfter(w.e.fibers[f].place, me, o, out, f)))
    && |w'.e.threads| == |w.e.threads|
    && (forall u :: 0 <= u < |w'.e.threads| ==> w'.e.threads[u].sched == w.e.threads[u].sched)
    && (forall u :: 0 <= u < |w'.e.threads| && u != t ==> w'.e.threads[u] == w.e.threads[u])
    // the caller is awake, the woken fiber was waiting here
    && me.fiber in w.e.fibers && w.e.fibers[me.fiber].place == LocalPlace(w.e, t) && w.e.threads[t].pc in {User, Idle}
    && me.fiber !in w.pending && me.sched < |w.e.scheds|
    && (out.parks ==> w.e.fibers[me.fiber].state == Exec)
    && (out.wakes.Some? ==> PlacedAt(w.e, out.wakes.value, o))
  }

  function LocalPlace(e: Engine, t: Tid): Place
    requires t < |e.threads|
  {
    if e.threads[t].pc == User then Held(t) else IdleOf(t)
  }

  lemma WakeUpKeepsThreads(e: Engine, o: Oid, x: Option<Waiter>)
    requires Shape(e) && (x.Some? ==> PlacedAt(e, x.value, o))
    ensures WakeUp(e, x).threads == e.threads && WakeUp(e, x).fibers == AfterWake(e.fibers, x)
  {
    if x.Some? { assert FiberOk(e, x.value.fiber); }
  }

  lemma PlacedHere(e: Engine, x: Waiter, o: Oid)
    requires Shape(e) && PlacedAt(e, x, o)
    ensures x.sched < |e.scheds|
  {
    assert FiberOk(e, x.fiber);
  }

  lemma WakeUpKeepsInv(w: World, o: Oid, x: Option<Waiter>)
    requires WorldInv(w) && (x.Some? ==> PlacedAt(w.e, x.value, o))
    ensures Inv(WakeUp(w.e, x)) && WakeUp(w.e, x).threads == w.e.threads
    ensures WakeUp(w.e, x).fibers ==
            if x.Some? then w.e.fibers[x.value.fiber := w.e.fibers[x.value.fiber].(place := Queued(x.value.sched))]
            else w.e.fibers
  {
    hide Shape, Lists, Accounts, Roots;
    if x.Some? {
      PlacedHere(w.e, x.value, o);
      ScheduleKeepsCore(w.e, x.value.sched, x.value.fiber, None);
      RootsFrame(w.e, WakeUp(w.e, x));
    }
  }

  lemma CallerCalls(w: World, t: Tid, o: Oid, op: Op)
    requires WorldInv(w) && Can(w, Call(t, o, op))
    ensures Calling(w, t, o, Perform(w.objs[o], t, Self(w.e, t), op))
  {
    CallerIsAwake(w, t, o, op);
    assert ThreadOk(w.e, t);
    var out := Perform(w.objs[o], t, Self(w.e, t), op);
    if out.wakes.Some? { WokenIsPlaced(w, t, o, op); }
    if out.parks { ParksMeansBlocking(w.objs[o], t, Self(w.e, t), op); }
  }

  lemma ParkKeepsInv(e: Engine, t: Tid, o: Oid)
    requires Inv(e) && Enabled(e, Park(t, o))
    ensures Inv(DoPark(e, t, o))
  {
    StepKeepsInv(e, Park(t, o));
  }

  lemma CallKeepsEngine(w: World, t: Tid, o: Oid, out: Outcome)
    requires WorldInv(w) && Calling(w, t, o, out)
    ensures var e1 := WakeUp(w.e, out.wakes); Inv(e1) && (out.parks ==> Inv(DoPark(e1, t, o)))
  {
    WakeUpKeepsInv(w, o, out.wakes);
    if out.parks { ParkKeepsInv(WakeUp(w.e, out.wakes), t, o); }
  }

  lemma AfterEffect(w: World, t: Tid, o: Oid, out: Outcome)
    requires WorldInv(w) && Calling(w, t, o, out)
    ensures Effect(w, After(w, t, o, out), t, o, out)
  {
    WakeUpKeepsThreads(w.e, o, out.wakes);
    if out.parks {
      ParkedEffect(w, After(w, t, o, out), t, o, out);
    } else {
      UnparkedEffect(w, After(w, t, o, out), t, o, out);
    }
  }

  lemma CallEngine(w: World, t: Tid, o: Oid, op: Op)
    requires WorldInv(w) && Can(w, Call(t, o, op))
    ensures Inv(DoCall(w, t, o, op).e)
    ensures Effect(w, DoCall(w, t, o, op), t, o, Perform(w.objs[o], t, Self(w.e, t), op))
  {
    var out := Perform(w.objs[o], t, Self(w.e, t), op);
    CallerCalls(w, t, o, op);
    CallKeepsEngine(w, t, o, out);
    AfterEffect(w, t, o, out);
  }

  /** The situation in which client code makes a call. */
  ghost predicate Calling(w: World, t: Tid, o: Oid, out: Outcome) {
    && t < |w.e.threads| && o < |w.objs| && ThreadOk(w.e, t)
    && w.e.threads[t].current in w.e.fibers && w.e.threads[t].current !in w.pending
    && w.e.threads[t].pc in {User, Idle} && (out.parks ==> w.e.threads[t].pc == User)
    && (out.wakes.Some? ==> PlacedAt(w.e, out.wakes.value, o))
  }

  function AfterWake(fs: map<Fid, Fiber>, x: Option<Waiter>): map<Fid, Fiber> {
    if x.Some? && x.value.fiber in fs then fs[x.value.fiber := fs[x.value.fiber].(place := Queued(x.value.sched))]
    else fs
  }

  lemma CallerAwake(w: World, t: Tid, o: Oid, out: Outcome)
    requires Calling(w, t, o, out)
    ensures w.e.threads[t].sched < |w.e.scheds| && w.e.fibers[w.e.threads[t].current].place == LocalPlace(w.e, t)
    ensures out.parks ==> w.e.fibers[w.e.threads[t].current].state == Exec
  {
  }

  lemma UnparkedEffect(w: World, w': World, t: Tid, o: Oid, out: Outcome)
    requires Calling(w, t, o, out) && !out.parks
    requires w'.objs == w.objs[o := out.obj] && w'.pending == w.pending
    requires w'.e.threads == w.e.threads && w'.e.fibers == AfterWake(w.e.fibers, out.wakes)
    ensures Effect(w, w', t, o, out)
  {
    hide ThreadOk;
    CallerAwake(w, t, o, out);
  }

  lemma ParkedEffect(w: World, w': World, t: Tid, o: Oid, out: Outcome)
    requires Calling(w, t, o, out) && out.parks
    requires w'.objs == w.objs[o := out.obj]
    requires var me := Self(w.e, t);
             && w'.pending == w.pending[me.fiber := Pending(o, me.sched)]
             && w'.e.threads == w.e.threads[t := w.e.threads[t].(pc := Leaving)]
             && w'.e.fibers ==
                AfterWake(w.e.fibers, out.wakes)[me.fiber := w.e.fibers[me.fiber].(place := Away(me.sched, o))]
    ensures Effect(w, w', t, o, out)
  {
    hide ThreadOk;
    CallerAwake(w, t, o, out);
  }

  lemma ParksMeansBlocking(x: Obj, t: Tid, me: Waiter, op: Op)
    requires Legal(x, t, me.fiber, op) && Perform(x, t, me, op).parks
    ensures Blocking(op)
  {
  }

  /** The object passes every waiter on exactly once. */
  ghost predicate Conserves(x: Obj, me: Waiter, out: Outcome) {
    forall v :: Holds(out.obj, v) + Is(out.wakes, v) == Holds(x, v) + (if out.parks && v == me then 1 else 0)
  }

  lemma EffectLinks(w: World, w': World, t: Tid, o: Oid, out: Outcome, p: Oid)
    requires Effect(w, w', t, o, out) && p < |w.objs| && Linked(w, p) && Conserves(w.objs[o], Self(w.e, t), out)
    ensures Linked(w', p)
  {
    hide Holds, Effect;
    assert |w'.objs| == |w.objs| by { EffectObjects(w, w', t, o, out); }
    forall x ensures Holds(w'.objs[p], x) == if PlacedAt(w'.e, x, p) then 1 else 0 {
      assert Holds(w.objs[p], x) == if PlacedAt(w.e, x, p) then 1 else 0;
      EffectLink(w, w', t, o, out, p, x);
    }
  }

  lemma EffectObjects(w: World, w': World, t: Tid, o: Oid, out: Outcome)
    requires Effect(w, w', t, o, out)
    ensures |w'.objs| == |w.objs|
  {
  }

  lemma EffectLink(w: World, w': World, t: Tid, o: Oid, out: Outcome, p: Oid, x: Waiter)
    requires Effect(w, w', t, o, out) && p < |w.objs| == |w'.objs| && Conserves(w.objs[o], Self(w.e, t), out)
    requires Holds(w.objs[p], x) == if PlacedAt(w.e, x, p) then 1 else 0
    ensures Holds(w'.objs[p], x) == if PlacedAt(w'.e, x, p) then 1 else 0
  {
    hide Holds;
    assert x.fiber in w.e.fibers ==>
             w'.e.fibers[x.fiber].place == PlaceAfter(w.e.fibers[x.fiber].place, Self(w.e, t), o, out, x.fiber);
    if p == o {
      assert Holds(out.obj, x) + Is(out.wakes, x) ==
        Holds(w.objs[o], x) + (if out.parks && x == Self(w.e, t) then 1 else 0);
    }
  }

  lemma EffectOwner(w: World, w': World, t: Tid, o: Oid, out: Outcome, p: Oid)
    requires Effect(w, w', t, o, out) && p < |w.objs| && OwnerOk(w, p)
    requires w.objs[o].Monitor? <==> out.obj.Monitor?
    requires w.objs[o].Monitor? ==> OwnerRule(w.objs[o], Self(w.e, t), out)
    ensures OwnerOk(w', p)
  {
  }

  lemma EffectPending(w: World, w': World, t: Tid, o: Oid, out: Outcome, f: Fid)
    requires Effect(w, w', t, o, out) && f in w'.pending && (f in w.pending ==> PendingOk(w, f))
    requires w.objs[o].Monitor? <==> out.obj.Monitor?
    requires w.objs[o].Monitor? ==> OwnerRule(w.objs[o], Self(w.e, t), out)
    ensures PendingOk(w', f)
  {
    assert f in w.e.fibers;
    assert w'.e.fibers[f].place == PlaceAfter(w.e.fibers[f].place, Self(w.e, t), o, out, f);
  }

  lemma CallKeepsInv(w: World, t: Tid, o: Oid, op: Op)
    requires WorldInv(w) && Can(w, Call(t, o, op))
    ensures WorldInv(DoCall(w, t, o, op))
  {
    var w' := DoCall(w, t, o, op);
    var me := Self(w.e, t);
    var out := Perform(w.objs[o], t, me, op);
    CallEngine(w, t, o, op);
    PerformKeepsOk(w.objs[o], t, me, op);
    PerformRules(w.objs[o], t, me, op);
    EffectKeepsInv(w, w', t, o, out);
  }

  lemma PerformRules(x: Obj, t: Tid, me: Waiter, op: Op)
    requires Legal(x, t, me.fiber, op)
    ensures Conserves(x, me, Perform(x, t, me, op))
    ensures x.Monitor? <==> Perform(x, t, me, op).obj.Monitor?
    ensures x.Monitor? ==> OwnerRule(x, me, Perform(x, t, me, op))
  {
    forall v
      ensures Holds(Perform(x, t, me, op).obj, v) + Is(Perform(x, t, me, op).wakes, v) ==
              Holds(x, v) + (if Perform(x, t, me, op).parks && v == me then 1 else 0)
    {
      PerformConserves(x, t, me, op, v);
    }
    if x.Monitor? { OwnerMoves(x, t, me, op); }
  }

  lemma EffectObj(w: World, w': World, t: Tid, o: Oid, out: Outcome, p: Oid)
    requires WorldInv(w) && Effect(w, w', t, o, out) && ObjOk(out.obj) && p < |w.objs|
    requires Conserves(w.objs[o], Self(w.e, t), out)
    requires w.objs[o].Monitor? <==> out.obj.Monitor?
    requires w.objs[o].Monitor? ==> OwnerRule(w.objs[o], Self(w.e, t), out)
    ensures p < |w'.objs| && ObjOk(w'.objs[p]) && Linked(w', p) && OwnerOk(w', p)
  {
    assert ObjOk(w.objs[p]) && Linked(w, p) && OwnerOk(w, p);
    EffectLinks(w, w', t, o, out, p);
    EffectOwner(w, w', t, o, out, p);
  }

  lemma EffectKeepsInv(w: World, w': World, t: Tid, o: Oid, out: Outcome)
    requires WorldInv(w) && Effect(w, w', t, o, out) && Inv(w'.e) && ObjOk(out.obj)
    requires Conserves(w.objs[o], Self(w.e, t), out)
    requires w.objs[o].Monitor? <==> out.obj.Monitor?
    requires w.objs[o].Monitor? ==> OwnerRule(w.objs[o], Self(w.e, t), out)
    ensures WorldInv(w')
  {
    forall p | 0 <= p < |w'.objs| ensures ObjOk(w'.objs[p]) && Linked(w', p) && OwnerOk(w', p) {
      EffectObj(w, w', t, o, out, p);
    }
    forall f | f in w'.pending ensures PendingOk(w', f) { EffectPendingOk(w, w', t, o, out, f); }
    forall f | f in w'.e.fibers && w'.e.fibers[f].place.Away? ensures w'.e.fibers[f].place.o < |w'.objs| {
      EffectAway(w, w', t, o, out, f);
    }
  }

  lemma EffectPendingOk(w: World, w': World, t: Tid, o: Oid, out: Outcome, f: Fid)
    requires WorldInv(w) && Effect(w, w', t, o, out) && f in w'.pending
    requires w.objs[o].Monitor? <==> out.obj.Monitor?
    requires w.objs[o].Monitor? ==> OwnerRule(w.objs[o], Self(w.e, t), out)
    ensures PendingOk(w', f)
  {
    if f in w.pending { assert PendingOk(w, f); }
    EffectPending(w, w', t, o, out, f);
  }

  lemma EffectAway(w: World, w': World, t: Tid, o: Oid, out: Outcome, f: Fid)
    requires WorldInv(w) && Effect(w, w', t, o, out) && f in w'.e.fibers && w'.e.fibers[f].place.Away?
    ensures w'.e.fibers[f].place.o < |w'.objs|
  {
    assert f in w.e.fibers;
  }

  predicate CleanAct(w: World, a: Act) { a.Run? ==> Clean(w.e, a.ev) }

  /** Every step of every thread keeps the invariant, except the end of a run loop that nobody awaits and
      a stop() that yields on a spawned thread. */
  lemma NextKeepsInv(w: World, a: Act)
    requires WorldInv(w) && Can(w, a) && CleanAct(w, a)
    ensures WorldInv(Next(w, a))
  {
    match a
    case Run(ev) => RunKeepsInv(w, ev);
    case Call(t, o, op) => CallKeepsInv(w, t, o, op);
  }

  // ----- runs -----

  ghost predicate WorldStarts(w: World) {
    Starts(w.e) && w.pending == map[] && forall o :: 0 <= o < |w.objs| ==> FreshObj(w.objs[o])
  }

  ghost predicate Follows(w: World, a: Act, w': World) { Can(w, a) && w' == Next(w, a) }

  ghost predicate WorldStep(w: World, w': World) { exists a :: Follows(w, a, w') }

  /** Any number of steps of any threads, in any order. */
  ghost predicate IsRun(tr: seq<World>) {
    && tr != [] && WorldStarts(tr[0])
    && forall i :: 0 <= i < |tr| - 1 ==> WorldStep(tr[i], tr[i + 1])
  }

  /** A run together with the steps that were taken. */
  ghost predicate IsRunOf(tr: seq<World>, acts: seq<Act>) {
    && |tr| == |acts| + 1 && WorldStarts(tr[0])
    && forall i :: 0 <= i < |acts| ==> Follows(tr[i], acts[i], tr[i + 1])
  }

  lemma RunOfIsRun(tr: seq<World>, acts: seq<Act>)
    requires IsRunOf(tr, acts)
    ensures IsRun(tr)
  {
    forall i | 0 <= i < |tr| - 1 ensures WorldStep(tr[i], tr[i + 1]) { assert Follows(tr[i], acts[i], tr[i + 1]); }
  }

  /** In the first n steps every hijacked run loop that ends returns to the native fiber of its
      thread, and that one waits for just this: stop() or dispatch() has suspended it, and it is in
      no object, no run queue, no batch and on no thread. And stop() never yields on a spawned thread. */
  ghost predicate CleanTo(tr: seq<World>, n: nat) {
    forall i, ev | 0 <= i < n && i + 1 < |tr| && Follows(tr[i], Run(ev), tr[i + 1]) :: Clean(tr[i].e, ev)
  }

  ghost predicate CleanRun(tr: seq<World>) { CleanTo(tr, |tr|) }

  lemma CleanSnoc(tr: seq<World>, n: nat)
    requires CleanTo(tr, n) && n + 1 < |tr|
    requires forall ev | Follows(tr[n], Run(ev), tr[n + 1]) :: Clean(tr[n].e, ev)
    ensures CleanTo(tr, n + 1)
  {
    forall i, ev | 0 <= i < n + 1 && i + 1 < |tr| && Follows(tr[i], Run(ev), tr[i + 1])
      ensures Clean(tr[i].e, ev)
    {
      if i == n { assert Follows(tr[n], Run(ev), tr[n + 1]); }
    }
  }

  lemma {:induction false} EmptyConds(cs: seq<Condition>, x: Waiter)
    requires forall c :: 0 <= c < |cs| ==> cs[c] == Condition([], [], [])
    ensures OccursInConds(cs, x) == 0
  {
    if cs != [] { EmptyConds(cs[1..], x); }
  }

  lemma StartHoldsInv(w: World)
    requires WorldStarts(w)
    ensures WorldInv(w)
  {
    StartsInv(w.e);
    forall f | f in w.e.fibers ensures !w.e.fibers[f].place.Away? { assert FiberStarts(w.e, f); }
    forall o | 0 <= o < |w.objs| ensures ObjOk(w.objs[o]) && Linked(w, o) && OwnerOk(w, o) {
      assert FreshObj(w.objs[o]);
      forall x ensures Holds(w.objs[o], x) == 0 && !PlacedAt(w.e, x, o) {
        if w.objs[o].Monitor? { EmptyConds(w.objs[o].conds, x); }
      }
    }
  }

  lemma {:induction false} RunHoldsInv(tr: seq<World>, i: nat)
    requires IsRun(tr) && i < |tr| && CleanTo(tr, i)
    ensures WorldInv(tr[i])
  {
    if i == 0 {
      StartHoldsInv(tr[0]);
    } else {
      RunHoldsInv(tr, i - 1);
      assert WorldStep(tr[i - 1], tr[i - 1 + 1]);
      var a :| Follows(tr[i - 1], a, tr[i]);
      assert a.Run? ==> Follows(tr[i - 1], Run(a.ev), tr[i - 1 + 1]);
      NextKeepsInv(tr[i - 1], a);
    }
  }

  // ----- main results -----

  // A fiber is once in one object, or once in one run queue, or once in one batch, and
  // nowhere else; one that is being resumed or is running is in none of them.

  predicate OnceInObject(w: World, x: Waiter, o: Oid)
    requires x.fiber in w.e.fibers && o < |w.objs|
  {
    var p := w.e.fibers[x.fiber].place;
    Holds(w.objs[o], x) == (if p == Away(x.sched, o) then 1 else 0) && (p.Away? ==> p.o < |w.objs|)
  }

  predicate OnceInQueue(e: Engine, f: Fid, s: Sid)
    requires f in e.fibers && s < |e.scheds|
  {
    Count(e.scheds[s].queue, f) == if e.fibers[f].place == Queued(s) then 1 else 0
  }

  predicate OnceInBatch(e: Engine, f: Fid, t: Tid)
    requires f in e.fibers && t < |e.threads|
  {
    Count(e.threads[t].batch, f) == if e.fibers[f].place == Batched(t) then 1 else 0
  }

  /** A fiber that comes back from a parked lock(), or from a condition, owns the mutex and is on
      the scheduler it left. */
  predicate BackAsOwner(w: World, t: Tid)
    requires t < |w.e.threads|
  {
    var f := w.e.threads[t].ctx;
    w.e.threads[t].pc == ArriveIn && f in w.pending ==>
      var p := w.pending[f];
      && p.o < |w.objs| && w.e.threads[t].sched == p.s
      && (w.objs[p.o].Monitor? ==> w.objs[p.o].mutex.owner == Some(f))
  }

  /** No fiber is ever on two threads or resumed while it is on one, and no assertion of
      the fiber code fails. */
  lemma NoFiberRunsTwice(tr: seq<World>, i: nat, t: Tid, u: Tid)
    requires IsRun(tr) && i < |tr| && CleanTo(tr, i) && t < |tr[i].e.threads| && u < |tr[i].e.threads|
    ensures AssertsHold(tr[i].e, t) && OneStack(tr[i].e, t, u)
  {
    RunHoldsInv(tr, i);
    InvAsserts(tr[i].e, t);
    InvOneStack(tr[i].e, t, u);
  }

  /** A fiber leaves the executing state only in a step that its successor takes on the
      same thread, and no thread is on its stack any more. */
  lemma ReleasedBySuccessor(tr: seq<World>, i: nat, f: Fid, u: Tid) returns (t: Tid)
    requires IsRun(tr) && i + 1 < |tr| && CleanTo(tr, i) && u < |tr[i].e.threads|
    requires f in tr[i].e.fibers && tr[i].e.fibers[f].state == Exec
    requires f in tr[i + 1].e.fibers ==> tr[i + 1].e.fibers[f].state != Exec
    ensures t < |tr[i].e.threads| && tr[i].e.threads[t].pc in {ArriveIn, ArriveOut, ArriveBack}
    ensures tr[i].e.threads[t].ctx in tr[i].e.fibers && tr[i].e.fibers[tr[i].e.threads[t].ctx].yielder == Some(f)
    ensures tr[i].e.threads[u].ctx != f
  {
    RunHoldsInv(tr, i);
    assert WorldStep(tr[i], tr[i + 1]);
    var a :| Follows(tr[i], a, tr[i + 1]);
    match a
    case Run(ev) =>
      t := ev.t;
      OnlySuccessorReleases(tr[i].e, ev, f, u);
    case Call(c, o, op) =>
      CallEngine(tr[i], c, o, op);
      assert false;
  }

  lemma WaitsInOnePlace(tr: seq<World>, i: nat, x: Waiter, o: Oid, s: Sid, t: Tid)
    requires IsRun(tr) && i < |tr| && CleanTo(tr, i) && x.fiber in tr[i].e.fibers
    ensures o < |tr[i].objs| ==> OnceInObject(tr[i], x, o)
    ensures s < |tr[i].e.scheds| ==> OnceInQueue(tr[i].e, x.fiber, s)
    ensures t < |tr[i].e.threads| ==> OnceInBatch(tr[i].e, x.fiber, t)
  {
    RunHoldsInv(tr, i);
    if o < |tr[i].objs| {
      assert Linked(tr[i], o);
      assert Holds(tr[i].objs[o], x) == if PlacedAt(tr[i].e, x, o) then 1 else 0;
    }
    if s < |tr[i].e.scheds| { assert QueueOk(tr[i].e, s); }
    if t < |tr[i].e.threads| { assert BatchOk(tr[i].e, t); }
  }

  lemma ParkedFiberReturnsAsOwner(tr: seq<World>, i: nat, t: Tid)
    requires IsRun(tr) && i < |tr| && CleanTo(tr, i) && t < |tr[i].e.threads|
    ensures BackAsOwner(tr[i], t)
  {
    RunHoldsInv(tr, i);
    assert ThreadOk(tr[i].e, t);
    if tr[i].e.threads[t].ctx in tr[i].pending { assert PendingOk(tr[i], tr[i].e.threads[t].ctx); }
  }

  lemma StepObject(w: World, a: Act, o: Oid)
    requires Can(w, a)
    ensures |Next(w, a).objs| == |w.objs|
    ensures o < |w.objs| && ObjOk(w.objs[o]) ==> ObjOk(Next(w, a).objs[o])
  {
    if a.Call? && a.o == o && ObjOk(w.objs[o]) { PerformKeepsOk(w.objs[o], a.t, Self(w.e, a.t), a.op); }
  }

  lemma FreshIsOk(x: Obj)
    requires FreshObj(x)
    ensures ObjOk(x)
  {
  }

  /** Every object keeps its order and its counts through every run: a free mutex has no
      waiters and is granted in arrival order, permits are conserved, a signalled event
      has no waiters. */
  lemma {:induction false} ObjectsKeepOrder(tr: seq<World>, i: nat, o: Oid)
    requires IsRun(tr) && i < |tr| && o < |tr[i].objs|
    ensures ObjOk(tr[i].objs[o])
  {
    hide ObjOk, Perform, Legal;
    if i == 0 {
      FreshIsOk(tr[0].objs[o]);
    } else {
      assert WorldStep(tr[i - 1], tr[i - 1 + 1]);
      var a :| Follows(tr[i - 1], a, tr[i]);
      StepObject(tr[i - 1], a, o);
      ObjectsKeepOrder(tr, i - 1, o);
    }
  }

  /** The assertions inside signal() and broadcast(): a fiber let go by a condition neither
      owns the mutex nor already waits for it. */
  lemma LetGoIsNotWaiting(tr: seq<World>, i: nat, o: Oid, x: Waiter)
    requires IsRun(tr) && i < |tr| && CleanTo(tr, i) && o < |tr[i].objs| && tr[i].objs[o].Monitor?
    requires OccursInFlight(tr[i].objs[o].flying, x) > 0 || OccursInConds(tr[i].objs[o].conds, x) > 0
    ensures tr[i].objs[o].mutex.owner != Some(x.fiber) && Occurs(tr[i].objs[o].mutex.waiters, x) == 0
  {
    RunHoldsInv(tr, i);
    assert Linked(tr[i], o) && OwnerOk(tr[i], o);
    assert Holds(tr[i].objs[o], x) == if PlacedAt(tr[i].e, x, o) then 1 else 0;
  }

  /** When a scheduler answers that it has stopped, all it was given has been started and
      none of its threads is at work. */
  lemma StoppedMeansFinished(tr: seq<World>, i: nat, s: Sid, t: Tid, it: Item)
    requires IsRun(tr) && i < |tr| && CleanTo(tr, i) && s < |tr[i].e.scheds|
    requires tr[i].e.scheds[s].stopping && tr[i].e.scheds[s].queue == [] && tr[i].e.scheds[s].active == 0
    ensures tr[i].e.scheds[s].issued[it] == tr[i].e.scheds[s].started[it]
    ensures t < |tr[i].e.threads| && tr[i].e.threads[t].sched == s ==>
              tr[i].e.threads[t].batch == [] && (InTask(tr[i].e.threads[t].pc) ==> tr[i].e.threads[t].outside)
  {
    RunHoldsInv(tr, i);
    InvStopped(tr[i].e, s, t, it);
  }

  lemma CallConserves(w: World, t: Tid, o: Oid, op: Op, s: Sid, it: Item)
    requires Can(w, Call(t, o, op)) && s < |w.e.scheds| && Conserved(w.e, s, it)
    ensures s < |DoCall(w, t, o, op).e.scheds| && Conserved(DoCall(w, t, o, op).e, s, it)
  {
    var out := Perform(w.objs[o], t, Self(w.e, t), op);
    var e1 := WakeUp(w.e, out.wakes);
    if e1 != w.e {
      var x := out.wakes.value;
      PushConserves(w.e, w.e.(fibers := w.e.fibers[x.fiber := w.e.fibers[x.fiber].(place := Queued(x.sched))]),
                    x.sched, Item(FiberTask(x.fiber), None), s, it);
    }
    if out.parks { InBatchesSame(e1.threads, DoPark(e1, t, o).threads, s, it); }
  }

  /** Nothing scheduled is lost or started twice in any run, also when a task throws. */
  lemma {:induction false} NothingLost(tr: seq<World>, i: nat, s: Sid, it: Item)
    requires IsRun(tr) && i < |tr| && s < |tr[0].e.scheds|
    ensures s < |tr[i].e.scheds| && Conserved(tr[i].e, s, it)
  {
    if i == 0 {
      StartHoldsInv(tr[0]);
      assert SchedOk(tr[0].e, s);
    } else {
      NothingLost(tr, i - 1, s, it);
      assert WorldStep(tr[i - 1], tr[i - 1 + 1]);
      var a :| Follows(tr[i - 1], a, tr[i]);
      match a
      case Run(ev) => StepConserves(tr[i - 1].e, ev, s, it);
      case Call(t, o, op) => CallConserves(tr[i - 1], t, o, op, s, it);
    }
  }

  /** The counter of active threads is the number of threads that have work. */
  lemma CountsActiveThreads(tr: seq<World>, i: nat, s: Sid)
    requires IsRun(tr) && i < |tr| && CleanTo(tr, i) && s < |tr[i].e.scheds|
    ensures tr[i].e.scheds[s].active == ActiveThreads(tr[i].e.threads, s)
  {
    RunHoldsInv(tr, i);
    assert SchedOk(tr[i].e, s);
  }
}

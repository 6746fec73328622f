/** Who is told when the run loop of a hijacked thread ends.

    stop() yields to the run loop whenever m_callingFiber is empty or is the calling fiber, and each
    time the run fiber is told to return to the caller. m_callingFiber is empty while the native fiber
    itself is in a stop() that started the loop, so another fiber's stop() can take its place. */
module StopCalls {
  import opened Common
  import opened Scheduling
  import opened FiberEngine
  import opened EngineSafety
  import opened FiberSync
  import opened World

  // ----- what the steps leave alone -----

  predicate LoopFiber(e: Engine, t: Tid, f: Fid) {
    f in e.fibers && (e.fibers[f].place == LoopOf(t) || e.fibers[f].place == IdleOf(t))
  }

  lemma LeaveSpares(e: Engine, u: Tid, t: Tid, f: Fid)
    requires Inv(e) && Enabled(e, Leave(u)) && u != t && LoopFiber(e, t, f)
    ensures f in DoLeave(e, u).fibers && DoLeave(e, u).fibers[f] == e.fibers[f]
  {
    hide DoLeave, Lists, Accounts, Roots, ThreadOk, FiberOk;
    LoopFibers(e, u);
    LeaveForm(e, u, DoLeave(e, u));
  }

  lemma ExitSpares(e: Engine, u: Tid, last: FiberState, t: Tid, f: Fid)
    requires Inv(e) && Enabled(e, Exit(u, last)) && u != t && LoopFiber(e, t, f)
    ensures f in DoExit(e, u, last).fibers && DoExit(e, u, last).fibers[f] == e.fibers[f]
  {
    hide DoExit, Lists, Accounts, Roots, ThreadOk, FiberOk;
    var th := e.threads[u];
    LoopFibers(e, u);
    ExitForm(e, u, last, DoExit(e, u, last),
      e.fibers[th.run].(state := Exec, yielder := Some(th.current), next := last, on := Some(u)));
  }

  lemma EnterSpares(e: Engine, u: Tid, t: Tid, f: Fid)
    requires Inv(e) && Enabled(e, Enter(u)) && LoopFiber(e, t, f)
    ensures f in DoEnter(e, u).fibers && DoEnter(e, u).fibers[f] == e.fibers[f]
  {
    hide DoEnter, Lists, Accounts, Roots, ThreadOk, FiberOk;
    EnterForm(e, u, e.threads[u].pc.f, DoEnter(e, u));
  }

  lemma ArriveSpares(e: Engine, u: Tid, t: Tid, f: Fid)
    requires Inv(e) && Enabled(e, Arrive(u)) && u != t && LoopFiber(e, t, f)
    ensures f in Apply(e, Arrive(u)).fibers && Apply(e, Arrive(u)).fibers[f] == e.fibers[f]
  {
    assert ThreadOk(e, u);
    HandOffSpares(e, u, t, f);
  }

  /** A thread that takes over a fiber touches only fibers that it runs. */
  lemma HandOffOwn(e: Engine, u: Tid)
    requires Inv(e) && Enabled(e, Arrive(u))
    ensures var f := e.threads[u].ctx;
            && f in e.fibers && e.fibers[f].on == Some(u) && e.fibers[f].yielder.Some?
            && e.fibers[f].yielder.value in e.fibers && e.fibers[e.fibers[f].yielder.value].on == Some(u)
  {
    assert ThreadOk(e, u);
  }

  lemma LoopFiberElsewhere(e: Engine, u: Tid, t: Tid, f: Fid)
    requires Inv(e) && u < |e.threads| && u != t && LoopFiber(e, t, f)
    ensures e.fibers[f].on != Some(u)
  {
    if e.fibers[f].on == Some(u) { LocalIsNotForeign(e, u, f); }
  }

  lemma HandOffSpares(e: Engine, u: Tid, t: Tid, f: Fid)
    requires Inv(e) && Enabled(e, Arrive(u)) && u != t && LoopFiber(e, t, f)
    ensures f in HandOff(e.fibers, e.threads[u].ctx) && HandOff(e.fibers, e.threads[u].ctx)[f] == e.fibers[f]
  {
    HandOffOwn(e, u);
    LoopFiberElsewhere(e, u, t, f);
  }

  lemma IdleSpares(e: Engine, ev: Move, t: Tid, f: Fid)
    requires Inv(e) && Enabled(e, ev) && ev.t != t && LoopFiber(e, t, f)
    requires ev.CallIdle? || ev.YieldIdle? || ev.Switch? || ev.Throw?
    ensures f in Apply(e, ev).fibers && Apply(e, ev).fibers[f] == e.fibers[f]
  {
    hide FiberOk;
    assert ThreadOk(e, ev.t);
  }

  /** So does what a run loop does with the fiber for its functors, on any thread. */
  lemma FunctorSpares(e: Engine, ev: Move, f: Fid)
    requires Shape(e) && Enabled(e, ev) && (ev.Retire? || ev.Land? || ev.Judge?)
    requires f in e.fibers && !AtRest(e.fibers[f].place)
    ensures f in Apply(e, ev).fibers && Apply(e, ev).fibers[f] == e.fibers[f]
  {
    hide FiberOk, PcOk, HijackOk;
    assert ThreadOk(e, ev.t);
    if e.threads[ev.t].spare.Some? { SpareAtRest(e, ev.t); }
  }

  /** Another thread's steps leave the fibers of a run loop alone. */
  lemma InternalSpares(e: Engine, ev: Move, t: Tid, f: Fid)
    requires Inv(e) && Enabled(e, ev) && Internal(ev) && ev.t != t && LoopFiber(e, t, f)
    ensures f in Apply(e, ev).fibers && Apply(e, ev).fibers[f] == e.fibers[f]
  {
    hide Lists, Accounts, Roots, Enabled;
    match ev
    case Leave(u) => LeaveSpares(e, u, t, f);
    case Exit(u, last) => ExitSpares(e, u, last, t, f);
    case Enter(u) => EnterSpares(e, u, t, f);
    case Arrive(u) => ArriveSpares(e, u, t, f);
    case Retire(_) => FunctorSpares(e, ev, f);
    case Land(_) => FunctorSpares(e, ev, f);
    case Judge(_) => FunctorSpares(e, ev, f);
    case _ => IdleSpares(e, ev, t, f);
  }

  /** So do the steps that move fibers between lists, whoever takes them. */
  lemma ListsSpare(e: Engine, ev: Move, f: Fid)
    requires Inv(e) && Enabled(e, ev) && (ev.Select? || ev.Requeue? || ev.Pop?)
    requires f in e.fibers && !e.fibers[f].place.Queued? && !e.fibers[f].place.Batched? && !AtRest(e.fibers[f].place)
    ensures f in Apply(e, ev).fibers && Apply(e, ev).fibers[f] == e.fibers[f]
  {
    match ev
    case Select(u, busy) => SelectMoves(e, u, busy, f);
    case Requeue(u) => RequeueMoves(e, u, f);
    case Pop(u, n) => PopMoves(e, u, n, f);
  }

  lemma OwnSpares(e: Engine, ev: Move, f: Fid)
    requires Shape(e) && Enabled(e, ev) && (ev.SwitchTo? || ev.Park? || ev.Await?)
    requires f in e.fibers && (e.fibers[f].place.LoopOf? || e.fibers[f].place.IdleOf? || e.fibers[f].place.Awaits?)
    ensures f in Apply(e, ev).fibers && Apply(e, ev).fibers[f] == e.fibers[f]
  {
    assert ThreadOk(e, ev.t);
  }

  lemma ClientSpares(e: Engine, ev: Move, f: Fid)
    requires Inv(e) && Enabled(e, ev) && Clean(e, ev) && !Internal(ev) && !ev.Select? && !ev.Requeue? && !ev.Pop?
    requires f in e.fibers &&
             (e.fibers[f].place.LoopOf? || e.fibers[f].place.IdleOf? || (e.fibers[f].place.Awaits? && !ev.End?))
    ensures f in Apply(e, ev).fibers && Apply(e, ev).fibers[f] == e.fibers[f]
  {
    if ev.SwitchTo? || ev.Park? || ev.Await? { OwnSpares(e, ev, f); }
    else if ev.End? { EndSpares(e, ev.t, f); }
    else { HandsSpare(e, ev, f); }
  }

  lemma EndSpares(e: Engine, t: Tid, f: Fid)
    requires Inv(e) && Enabled(e, End(t)) && Awaited(e, t) && f in e.fibers && !e.fibers[f].place.Awaits?
    ensures f in Apply(e, End(t)).fibers && Apply(e, End(t)).fibers[f] == e.fibers[f]
  {
    hide Inv, DoEnd;
    EndMoves(e, t, f);
  }

  lemma HandsSpare(e: Engine, ev: Move, f: Fid)
    requires Enabled(e, ev) && (ev.Create? || ev.ResetFiber? || ev.Schedule? || ev.ScheduleDg? || ev.Wake? || ev.Stop?)
    requires f in e.fibers && e.fibers[f].place != Loose && !e.fibers[f].place.Away?
    ensures f in Apply(e, ev).fibers && Apply(e, ev).fibers[f] == e.fibers[f]
  {
  }

  lemma Spared(e: Engine, ev: Move, t: Tid, f: Fid)
    requires Inv(e) && Enabled(e, ev) && Clean(e, ev) && LoopFiber(e, t, f) && (ev.t != t || !Internal(ev))
    ensures f in Apply(e, ev).fibers && Apply(e, ev).fibers[f] == e.fibers[f]
  {
    if Internal(ev) { InternalSpares(e, ev, t, f); }
    else if ev.Select? || ev.Requeue? || ev.Pop? { ListsSpare(e, ev, f); }
    else { ClientSpares(e, ev, f); }
  }

  lemma OtherThreadKept(e: Engine, ev: Move, t: Tid)
    requires Enabled(e, ev) && t < |e.threads| && ev.t != t
    ensures |Apply(e, ev).threads| == |e.threads| && Apply(e, ev).threads[t] == e.threads[t]
  {
    hide Apply, Enabled;
    StepThreads(e, ev);
  }

  /** The fibers of the run loop of a thread. */
  lemma LoopFibers(e: Engine, t: Tid)
    requires Inv(e) && t < |e.threads|
    ensures LoopFiber(e, t, e.threads[t].run) && LoopFiber(e, t, e.threads[t].idle) &&
            e.threads[t].run != e.threads[t].idle
  {
    assert ThreadOk(e, t);
  }

  lemma SchedKept(e: Engine, ev: Move, t: Tid)
    requires Enabled(e, ev) && t < |e.threads|
    ensures |Apply(e, ev).threads| == |e.threads| && Apply(e, ev).threads[t].sched == e.threads[t].sched
  {
    hide Apply, Enabled;
    StepThreads(e, ev);
  }

  /** A fiber suspended in stop() or dispatch() stays there, unless a run loop ends and returns to it. */
  lemma AwaitsKept(e: Engine, ev: Move, f: Fid)
    requires Inv(e) && Enabled(e, ev) && Clean(e, ev) && f in e.fibers && e.fibers[f].place.Awaits?
    requires ev.End? ==> f != e.threads[ev.t].native
    ensures f in Apply(e, ev).fibers && Apply(e, ev).fibers[f].place == e.fibers[f].place
  {
    if Internal(ev) { InternalKeepsMembers(e, ev, f); }
    else if ev.Select? || ev.Requeue? || ev.Pop? { ListsSpare(e, ev, f); }
    else if ev.End? { EndMoves(e, ev.t, f); }
    else { ClientSpares(e, ev, f); }
  }

  // ----- claims -----

  /** The run fiber of the thread returns, or is about to be told to return, to another fiber
      than the native one. */
  predicate Claimed(e: Engine, t: Tid)
    requires t < |e.threads|
  {
    var th := e.threads[t];
    && Hijacked(th)
    && if th.asks then th.current != th.native
       else th.run in e.fibers && e.fibers[th.run].terminateOuter.Some?
            && e.fibers[th.run].terminateOuter.value != th.native
  }

  /** A run fiber that has started returns to somebody, and whoever has claimed it is suspended
      in stop(). */
  predicate ClaimOk(e: Engine, t: Tid)
    requires t < |e.threads|
  {
    var th := e.threads[t];
    Hijacked(th) ==>
      && th.run in e.fibers && (e.fibers[th.run].terminateOuter == None ==> e.fibers[th.run].state == Init)
      && (Claimed(e, t) ==> !th.outside)
      && (Claimed(e, t) && !th.asks ==>
            var c := e.fibers[th.run].terminateOuter.value;
            c in e.fibers && e.fibers[c].place == Awaits(t))
  }

  lemma ClaimOfOther(e: Engine, ev: Move, t: Tid)
    requires Inv(e) && Enabled(e, ev) && Clean(e, ev) && t < |e.threads| && ev.t != t && ClaimOk(e, t)
    ensures t < |Apply(e, ev).threads| && ClaimOk(Apply(e, ev), t) && (Claimed(Apply(e, ev), t) <==> Claimed(e, t))
  {
    hide Apply, Enabled, Inv, Clean;
    LoopFibers(e, t);
    OtherThreadKept(e, ev, t);
    Spared(e, ev, t, e.threads[t].run);
    if Claimed(e, t) && !e.threads[t].asks { ClaimantStays(e, ev, t); }
  }

  lemma ClaimantStays(e: Engine, ev: Move, t: Tid)
    requires Inv(e) && Enabled(e, ev) && Clean(e, ev) && t < |e.threads| && ClaimOk(e, t) && Claimed(e, t)
    requires !e.threads[t].asks
    ensures var c := e.fibers[e.threads[t].run].terminateOuter.value;
            c in Apply(e, ev).fibers && Apply(e, ev).fibers[c].place == Awaits(t)
  {
    var c := e.fibers[e.threads[t].run].terminateOuter.value;
    assert ev.End? ==> c != e.threads[ev.t].native;
    AwaitsKept(e, ev, c);
  }

  /** What a step of the thread itself outside the fiber code does to its record. */
  lemma OwnAsks(e: Engine, ev: Move)
    requires Enabled(e, ev) && !Internal(ev)
    ensures |Apply(e, ev).threads| == |e.threads| && AsksOk(e, ev, e.threads[ev.t], Apply(e, ev).threads[ev.t])
  {
    hide Apply, Enabled, AsksOk;
    StepThreads(e, ev);
    if ev.Select? || ev.Requeue? || ev.Pop? { ListStepAsks(e, ev); }
    else if ev.SwitchTo? || ev.Park? || ev.Await? || ev.End? { GivingAsks(e, ev); }
    else { ClientThreads(e, ev); assert AsksOk(e, ev, e.threads[ev.t], e.threads[ev.t]) by { SameAsks(e, ev); } }
  }

  lemma SameAsks(e: Engine, ev: Move)
    requires ev.t < |e.threads| && !ev.Await?
    ensures AsksOk(e, ev, e.threads[ev.t], e.threads[ev.t])
  {
  }

  lemma GivingAsks(e: Engine, ev: Move)
    requires Enabled(e, ev) && (ev.SwitchTo? || ev.Park? || ev.Await? || ev.End?)
    ensures ev.t < |Apply(e, ev).threads| && AsksOk(e, ev, e.threads[ev.t], Apply(e, ev).threads[ev.t])
  {
    hide YieldToWrites, StopYields;
  }

  predicate AsksOk(e: Engine, ev: Move, th: Thread, th': Thread) {
    && SameRoles(th, th')
    && (ev.Await? && th.current in e.fibers ==>
          th'.asks == ev.ask && th'.current == th.current && th'.outside == th.outside)
    && (ev.End? ==> th'.asks == th.asks)
    && (!ev.Await? && !ev.End? ==>
          th'.asks == th.asks && th'.current == th.current && th'.outside == th.outside)
  }

  lemma ListStepAsks(e: Engine, ev: Move)
    requires Enabled(e, ev) && (ev.Select? || ev.Requeue? || ev.Pop?)
    ensures ev.t < |Apply(e, ev).threads| && AsksOk(e, ev, e.threads[ev.t], Apply(e, ev).threads[ev.t])
  {
    hide Take, Rest, Moved, FibersOf, NewFiber, Reset, FunctorFiber;
  }

  lemma ClaimOfOwn(e: Engine, ev: Move)
    requires Inv(e) && Enabled(e, ev) && Clean(e, ev) && !Internal(ev) && ClaimOk(e, ev.t)
    ensures ev.t < |Apply(e, ev).threads| && ClaimOk(Apply(e, ev), ev.t)
    ensures Claimed(Apply(e, ev), ev.t) <==>
            if ev == Await(ev.t, true) then e.threads[ev.t].current != e.threads[ev.t].native else Claimed(e, ev.t)
  {
    hide Apply, Inv, FiberOk;
    var t := ev.t;
    LoopFibers(e, t);
    OwnThreadFacts(e, t);
    OwnAsks(e, ev);
    Spared(e, ev, t, e.threads[t].run);
    if Claimed(e, t) && !e.threads[t].asks { ClaimantStays(e, ev, t); }
  }

  /** Only a thread about to leave asks; outside its run loop it is with its native fiber. */
  lemma OwnThreadFacts(e: Engine, t: Tid)
    requires Inv(e) && t < |e.threads|
    ensures var th := e.threads[t];
            && (th.asks ==> th.pc == Leaving && Hijacked(th))
            && (th.pc in {User, Leaving} ==> th.current in e.fibers)
            && (th.pc in {User, Leaving} && th.outside ==> th.current == th.native)
            && (th.pc.Ending? ==> !th.outside)
            && th.run in e.fibers
            && (Hijacked(th) && e.fibers[th.run].state == Init ==> th.outside && th.pc in {User, Leaving})
            && (th.outside && th.pc == User ==> !e.fibers[th.current].stack)
  {
    assert ThreadOk(e, t) && FiberOk(e, e.threads[t].run);
  }

  lemma ClaimOfLeave(e: Engine, t: Tid, e': Engine)
    requires Inv(e) && Enabled(e, Leave(t)) && ClaimOk(e, t) && e' == DoLeave(e, t)
    ensures t < |e'.threads| && ClaimOk(e', t) && (Claimed(e', t) <==> Claimed(e, t))
  {
    hide Lists, Accounts, Roots, FiberOk, ThreadOk, DoLeave;
    OwnThreadFacts(e, t);
    LeaveForm(e, t, e');
    if Hijacked(e.threads[t]) { LeavingPlace(e, t, e'); }
  }

  lemma LeavingPlace(e: Engine, t: Tid, e': Engine)
    requires Inv(e) && Enabled(e, Leave(t)) && e' == DoLeave(e, t)
    ensures var th := e.threads[t];
            && th.run in e.fibers
            && (th.asks ==> th.current in e'.fibers && e'.fibers[th.current].place == Awaits(t))
            && (e.fibers[th.run].state in {Init, Term, Except} ==> th.outside)
            && (forall c :: c in e.fibers && e.fibers[c].place == Awaits(t) ==>
                  c in e'.fibers && e'.fibers[c].place == Awaits(t))
  {
    assert ThreadOk(e, t);
    forall c | c in e.fibers && e.fibers[c].place == Awaits(t)
      ensures c in e'.fibers && e'.fibers[c].place == Awaits(t)
    {
      LeaveKeepsMembers(e, t, c);
    }
  }

  /** Where the run fiber of the thread returns to is not touched. */
  predicate OuterSame(e: Engine, e': Engine, t: Tid)
    requires t < |e.threads|
  {
    var r := e.threads[t].run;
    && |e'.threads| == |e.threads| && SameRoles(e.threads[t], e'.threads[t])
    && e'.threads[t].asks == e.threads[t].asks && (e'.threads[t].outside ==> e.threads[t].outside)
    && r in e.fibers && r in e'.fibers && e'.fibers[r].terminateOuter == e.fibers[r].terminateOuter
  }

  lemma InternalOuter(e: Engine, ev: Move)
    requires Inv(e) && Enabled(e, ev) && Internal(ev) && !ev.Leave?
    ensures OuterSame(e, Apply(e, ev), ev.t)
  {
    hide Inv, OuterSame, DoExit, DoEnter;
    var t := ev.t;
    LoopFibers(e, t);
    match ev
    case Exit(_, last) => OuterOfExit(e, t, last);
    case Enter(_) => OuterOfEnter(e, t);
    case Arrive(_) => OuterOfArrive(e, t);
    case Judge(_) => OuterOfFunctor(e, ev);
    case Land(_) => OuterOfFunctor(e, ev);
    case Retire(_) => OuterOfFunctor(e, ev);
    case _ => OuterOfRest(e, ev);
  }

  lemma OuterOfFunctor(e: Engine, ev: Move)
    requires Inv(e) && Enabled(e, ev) && (ev.Judge? || ev.Land? || ev.Retire?)
    ensures OuterSame(e, Apply(e, ev), ev.t)
  {
    hide ThreadOk, FiberOk, Lists, Accounts, Roots;
    LoopFibers(e, ev.t);
    FunctorSpares(e, ev, e.threads[ev.t].run);
  }

  lemma OuterOfExit(e: Engine, t: Tid, last: FiberState)
    requires Inv(e) && Enabled(e, Exit(t, last))
    ensures OuterSame(e, DoExit(e, t, last), t)
  {
    var th := e.threads[t];
    LoopFibers(e, t);
    ExitForm(e, t, last, DoExit(e, t, last),
      e.fibers[th.run].(state := Exec, yielder := Some(th.current), next := last, on := Some(t)));
  }

  lemma OuterOfEnter(e: Engine, t: Tid)
    requires Inv(e) && Enabled(e, Enter(t))
    ensures OuterSame(e, DoEnter(e, t), t)
  {
    LoopFibers(e, t);
    EnterSpares(e, t, t, e.threads[t].run);
  }

  lemma OuterOfArrive(e: Engine, t: Tid)
    requires Inv(e) && Enabled(e, Arrive(t))
    ensures OuterSame(e, Apply(e, Arrive(t)), t)
  {
    hide HandOff, ThreadOk, FiberOk, Lists, Accounts, Roots;
    LoopFibers(e, t);
    HandOffOuter(e.fibers, e.threads[t].ctx, e.threads[t].run);
  }

  lemma HandOffOuter(fs: map<Fid, Fiber>, f: Fid, g: Fid)
    requires g in fs
    ensures g in HandOff(fs, f) && HandOff(fs, f)[g].terminateOuter == fs[g].terminateOuter
  {
  }

  lemma OuterOfRest(e: Engine, ev: Move)
    requires Enabled(e, ev) && (ev.Throw? || ev.Switch? || ev.CallIdle? || ev.YieldIdle?)
    requires e.threads[ev.t].run in e.fibers
    ensures OuterSame(e, Apply(e, ev), ev.t)
  {
  }

  lemma ClaimOfInternal(e: Engine, ev: Move)
    requires Inv(e) && Enabled(e, ev) && Clean(e, ev) && Internal(ev) && ClaimOk(e, ev.t)
    ensures ev.t < |Apply(e, ev).threads| && ClaimOk(Apply(e, ev), ev.t)
    ensures Claimed(Apply(e, ev), ev.t) <==> Claimed(e, ev.t)
  {
    var t := ev.t;
    if ev.Leave? {
      ClaimOfLeave(e, t, Apply(e, ev));
    } else {
      InternalClaim(e, ev, Apply(e, ev));
    }
  }

  lemma InternalClaim(e: Engine, ev: Move, e': Engine)
    requires Inv(e) && Enabled(e, ev) && Clean(e, ev) && Internal(ev) && !ev.Leave? && ClaimOk(e, ev.t)
    requires e' == Apply(e, ev)
    ensures ev.t < |e'.threads| && ClaimOk(e', ev.t) && (Claimed(e', ev.t) <==> Claimed(e, ev.t))
  {
    hide Apply, Inv, FiberOk;
    var t := ev.t;
    OwnThreadFacts(e, t);
    InternalOuter(e, ev);
    if Claimed(e, t) { ClaimantStays(e, ev, t); }
  }

  /** Nothing but a stop() on the thread changes who is told. */
  lemma ClaimStep(e: Engine, ev: Move, t: Tid)
    requires Inv(e) && Enabled(e, ev) && Clean(e, ev) && t < |e.threads| && ClaimOk(e, t)
    ensures t < |Apply(e, ev).threads| && ClaimOk(Apply(e, ev), t)
    ensures Claimed(Apply(e, ev), t) <==>
            if ev == Await(t, true) then e.threads[t].current != e.threads[t].native else Claimed(e, t)
  {
    hide Apply, Enabled, Inv, ClaimOk, Claimed, Clean;
    if ev.t != t { ClaimOfOther(e, ev, t); }
    else if Internal(ev) { ClaimOfInternal(e, ev); }
    else { ClaimOfOwn(e, ev); }
  }

  // ----- runs -----

  /** Step j of the run is a stop() on the thread that goes to the run loop. */
  ghost predicate Stops(tr: seq<World>, j: nat, t: Tid) {
    j + 1 < |tr| && t < |tr[j].e.threads| && Follows(tr[j], Run(Await(t, true)), tr[j + 1])
  }

  /** Of the first i steps, the last stop() on the thread that went to the run loop was not the native
      fiber's. */
  ghost predicate Overtaken(tr: seq<World>, i: nat, t: Tid) {
    exists j | 0 <= j < i :: Stops(tr, j, t) && tr[j].e.threads[t].current != tr[j].e.threads[t].native
                             && forall k :: j < k < i ==> !Stops(tr, k, t)
  }

  lemma OvertakenSnoc(tr: seq<World>, i: nat, t: Tid)
    ensures Overtaken(tr, i + 1, t) <==>
            if Stops(tr, i, t) then tr[i].e.threads[t].current != tr[i].e.threads[t].native else Overtaken(tr, i, t)
  {
    hide Follows;
    if Overtaken(tr, i + 1, t) {
      var j :| 0 <= j < i + 1 && Stops(tr, j, t) && tr[j].e.threads[t].current != tr[j].e.threads[t].native
               && forall k :: j < k < i + 1 ==> !Stops(tr, k, t);
      assert j < i ==> !Stops(tr, i, t);
    }
    if Stops(tr, i, t) && tr[i].e.threads[t].current != tr[i].e.threads[t].native { assert Overtaken(tr, i + 1, t); }
    if !Stops(tr, i, t) && Overtaken(tr, i, t) {
      var j :| 0 <= j < i && Stops(tr, j, t) && tr[j].e.threads[t].current != tr[j].e.threads[t].native
               && forall k :: j < k < i ==> !Stops(tr, k, t);
      assert forall k :: j < k < i + 1 ==> !Stops(tr, k, t);
    }
  }

  lemma StartClaims(w: World, t: Tid)
    requires WorldStarts(w) && t < |w.e.threads|
    ensures ClaimOk(w.e, t) && !Claimed(w.e, t)
  {
    assert ThreadStarts(w.e, t);
  }

  /** A call is a wake-up and then a park, as the engine sees it. */
  lemma ClaimOfCall(w: World, c: Tid, o: Oid, op: Op, t: Tid)
    requires WorldInv(w) && Can(w, Call(c, o, op)) && t < |w.e.threads| && ClaimOk(w.e, t)
    ensures t < |DoCall(w, c, o, op).e.threads| && ClaimOk(DoCall(w, c, o, op).e, t)
    ensures Claimed(DoCall(w, c, o, op).e, t) <==> Claimed(w.e, t)
  {
    hide ClaimOk, Claimed, WorldInv, DoPark, WakeUp, Perform, Legal, ThreadOk;
    var out := Perform(w.objs[o], c, Self(w.e, c), op);
    CallerCalls(w, c, o, op);
    ClaimOfWake(w, c, o, out, t);
    if out.parks { ClaimOfPark(WakeUp(w.e, out.wakes), c, o, t); }
  }

  lemma ClaimOfWake(w: World, c: Tid, o: Oid, out: Outcome, t: Tid)
    requires WorldInv(w) && Calling(w, c, o, out) && t < |w.e.threads| && ClaimOk(w.e, t)
    ensures var e1 := WakeUp(w.e, out.wakes);
            && Inv(e1) && e1.threads == w.e.threads && ClaimOk(e1, t) && (Claimed(e1, t) <==> Claimed(w.e, t))
  {
    hide ClaimOk, Claimed, Lists, Accounts, Roots, ThreadOk;
    WakeUpKeepsInv(w, o, out.wakes);
    if out.wakes.Some? {
      assert FiberOk(w.e, out.wakes.value.fiber);
      ClaimStep(w.e, Wake(c, out.wakes.value.sched, out.wakes.value.fiber), t);
    }
  }

  lemma ClaimOfPark(e: Engine, c: Tid, o: Oid, t: Tid)
    requires Inv(e) && Enabled(e, Park(c, o)) && t < |e.threads| && ClaimOk(e, t)
    ensures t < |DoPark(e, c, o).threads| && ClaimOk(DoPark(e, c, o), t)
    ensures Claimed(DoPark(e, c, o), t) <==> Claimed(e, t)
  {
    hide ClaimOk, Claimed, Inv;
    ClaimStep(e, Park(c, o), t);
  }

  lemma ClaimOfNext(w: World, a: Act, t: Tid)
    requires WorldInv(w) && Can(w, a) && CleanAct(w, a) && t < |w.e.threads| && ClaimOk(w.e, t)
    ensures t < |Next(w, a).e.threads| && ClaimOk(Next(w, a).e, t)
    ensures Claimed(Next(w, a).e, t) <==>
            if a == Run(Await(t, true)) then w.e.threads[t].current != w.e.threads[t].native else Claimed(w.e, t)
  {
    hide ClaimOk, Claimed, Apply, Enabled, Inv, Perform, Legal;
    match a
    case Run(ev) => ClaimStep(w.e, ev, t);
    case Call(c, o, op) => ClaimOfCall(w, c, o, op, t);
  }

  lemma ThreadsOfNext(w: World, a: Act)
    requires WorldInv(w) && Can(w, a) && CleanAct(w, a)
    ensures |Next(w, a).e.threads| == |w.e.threads|
  {
    match a
    case Run(ev) => ThreadsKept(w.e, ev);
    case Call(c, o, op) => CallEngine(w, c, o, op);
  }

  /** The run fiber of a hijacked thread returns to another fiber than the native one exactly if the
      last stop() that went to the run loop there was another fiber's. */
  lemma {:induction false} ClaimedIffOvertaken(tr: seq<World>, i: nat, t: Tid)
    requires IsRun(tr) && i < |tr| && CleanTo(tr, i) && t < |tr[i].e.threads|
    ensures ClaimOk(tr[i].e, t) && (Claimed(tr[i].e, t) <==> Overtaken(tr, i, t))
  {
    hide ClaimOk, Claimed, Clean, Next, Can, WorldInv;
    if i == 0 {
      StartClaims(tr[0], t);
    } else {
      var w := tr[i - 1];
      RunHoldsInv(tr, i - 1);
      assert WorldStep(tr[i - 1], tr[i - 1 + 1]);
      var a :| Follows(w, a, tr[i]) && (Stops(tr, i - 1, t) ==> a == Run(Await(t, true)));
      assert CleanAct(w, a) by { if a.Run? { assert Follows(tr[i - 1], Run(a.ev), tr[i - 1 + 1]); } }
      ThreadsOfNext(w, a);
      assert a == Run(Await(t, true)) ==> Stops(tr, i - 1, t);
      ClaimedIffOvertaken(tr, i - 1, t);
      ClaimOfNext(w, a, t);
      OvertakenSnoc(tr, i - 1, t);
    }
  }

  // ----- a fiber that nobody resumes -----

  /** Another fiber than the native one of the thread is suspended in stop() or dispatch() there. */
  predicate Stranded(e: Engine, t: Tid, f: Fid) {
    t < |e.threads| && f != e.threads[t].native && f in e.fibers && e.fibers[f].place == Awaits(t)
  }

  lemma StrandedMove(e: Engine, ev: Move, t: Tid, f: Fid)
    requires Inv(e) && Enabled(e, ev) && Clean(e, ev) && Stranded(e, t, f)
    ensures Stranded(Apply(e, ev), t, f)
  {
    hide Apply, Inv;
    NativeKept(e, ev, t);
    assert ev.End? ==> f != e.threads[ev.t].native;
    AwaitsKept(e, ev, f);
  }

  lemma StrandedNext(w: World, a: Act, t: Tid, f: Fid)
    requires WorldInv(w) && Can(w, a) && CleanAct(w, a) && Stranded(w.e, t, f)
    ensures Stranded(Next(w, a).e, t, f)
  {
    hide Apply, Enabled, Inv, Perform, Legal;
    match a
    case Run(ev) => StrandedMove(w.e, ev, t, f);
    case Call(c, o, op) => StrandedCall(w, c, o, op, t, f);
  }

  lemma StrandedCall(w: World, c: Tid, o: Oid, op: Op, t: Tid, f: Fid)
    requires WorldInv(w) && Can(w, Call(c, o, op)) && Stranded(w.e, t, f)
    ensures Stranded(DoCall(w, c, o, op).e, t, f)
  {
    hide Inv, Perform, Legal;
    var out := Perform(w.objs[o], c, Self(w.e, c), op);
    CallerCalls(w, c, o, op);
    WakeUpKeepsInv(w, o, out.wakes);
    if out.parks { ParkerIsHeld(w, c, o, out); }
  }

  lemma ParkerIsHeld(w: World, c: Tid, o: Oid, out: Outcome)
    requires Calling(w, c, o, out) && out.parks
    ensures w.e.fibers[w.e.threads[c].current].place == Held(c)
  {
  }

  /** stop() or dispatch(), once it has suspended another fiber than the native one, never returns as
      long as the run is clean. */
  lemma {:induction false} NeverReturns(tr: seq<World>, i: nat, k: nat, t: Tid, f: Fid)
    requires IsRun(tr) && i <= k < |tr| && CleanTo(tr, k) && Stranded(tr[i].e, t, f)
    ensures Stranded(tr[k].e, t, f)
  {
    hide Stranded, Next, Can, Clean, WorldInv;
    if i < k {
      NeverReturns(tr, i, k - 1, t, f);
      RunHoldsInv(tr, k - 1);
      assert WorldStep(tr[k - 1], tr[k - 1 + 1]);
      var a :| Follows(tr[k - 1], a, tr[k]);
      assert CleanAct(tr[k - 1], a) by { if a.Run? { assert Follows(tr[k - 1], Run(a.ev), tr[k - 1 + 1]); } }
      StrandedNext(tr[k - 1], a, t, f);
    }
  }

  /** A run loop that ends returns to the native fiber and to no other that is suspended there. */
  lemma ReturnsToNative(e: Engine, t: Tid, f: Fid)
    requires Inv(e) && Enabled(e, End(t)) && Clean(e, End(t)) && f in e.fibers && e.fibers[f].place == Awaits(t)
    ensures EndsTo(e, t) == Some(f) <==> f == e.threads[t].native
  {
    hide Lists, Accounts, Roots, ThreadOk, FiberOk;
    EndFacts(e, t, e.threads[t].native);
  }

  predicate Suspended(e: Engine, t: Tid, f: Fid) { f in e.fibers && e.fibers[f].place == Awaits(t) }

  lemma SuspendedMove(e: Engine, ev: Move, t: Tid, f: Fid)
    requires Inv(e) && Enabled(e, ev) && Clean(e, ev) && t < |e.threads| && Suspended(e, t, f)
    ensures !Suspended(Apply(e, ev), t, f) ==> ev == End(t) && f == e.threads[t].native
  {
    hide Apply, Inv;
    if !(ev.End? && f == e.threads[ev.t].native) { AwaitsKept(e, ev, f); }
  }

  lemma EndResumes(e: Engine, t: Tid)
    requires Inv(e) && Enabled(e, End(t)) && Awaited(e, t)
    ensures !Suspended(Apply(e, End(t)), t, e.threads[t].native)
  {
    hide DoEnd, Inv;
    EndMoves(e, t, e.threads[t].native);
  }

  lemma SuspendedCall(w: World, c: Tid, o: Oid, op: Op, t: Tid, f: Fid)
    requires WorldInv(w) && Can(w, Call(c, o, op)) && Suspended(w.e, t, f)
    ensures Suspended(DoCall(w, c, o, op).e, t, f)
  {
    hide Inv, Perform, Legal;
    var out := Perform(w.objs[o], c, Self(w.e, c), op);
    CallerCalls(w, c, o, op);
    WakeUpKeepsInv(w, o, out.wakes);
    if out.parks { ParkerIsHeld(w, c, o, out); }
  }

  lemma SuspendedNext(w: World, a: Act, t: Tid, f: Fid)
    requires WorldInv(w) && Can(w, a) && CleanAct(w, a) && t < |w.e.threads| && Suspended(w.e, t, f)
    ensures !Suspended(Next(w, a).e, t, f) ==> a == Run(End(t)) && f == w.e.threads[t].native
  {
    hide Apply, Enabled, Inv, Perform, Legal, Suspended;
    match a
    case Run(ev) => SuspendedMove(w.e, ev, t, f);
    case Call(c, o, op) => SuspendedCall(w, c, o, op, t, f);
  }

  lemma NativeResumed(w: World, t: Tid)
    requires WorldInv(w) && Can(w, Run(End(t))) && Clean(w.e, End(t))
    ensures !Suspended(Next(w, Run(End(t))).e, t, w.e.threads[t].native)
  {
    hide Apply, Inv, Suspended;
    EndResumes(w.e, t);
  }

  /** In clean runs a fiber comes back from stop() or dispatch() exactly when the run loop of the thread
      ends, and only if it is the native fiber. */
  lemma ComesBackIff(tr: seq<World>, k: nat, t: Tid, f: Fid)
    requires IsRun(tr) && k + 1 < |tr| && CleanTo(tr, k + 1) && t < |tr[k].e.threads| && Suspended(tr[k].e, t, f)
    ensures !Suspended(tr[k + 1].e, t, f) <==>
            Follows(tr[k], Run(End(t)), tr[k + 1]) && f == tr[k].e.threads[t].native
  {
    hide Suspended, Next, Can, Clean, WorldInv;
    RunHoldsInv(tr, k);
    assert WorldStep(tr[k], tr[k + 1]);
    var a :| Follows(tr[k], a, tr[k + 1]);
    assert CleanAct(tr[k], a) by { if a.Run? { assert Follows(tr[k], Run(a.ev), tr[k + 1]); } }
    SuspendedNext(tr[k], a, t, f);
    if Follows(tr[k], Run(End(t)), tr[k + 1]) && f == tr[k].e.threads[t].native {
      assert Clean(tr[k].e, End(t));
      NativeResumed(tr[k], t);
    }
  }
}

/** What client code has to do so that every run loop ends safely: stop a hijacking scheduler only
    from the fiber that its thread goes on with, and let that fiber wait for nothing else
    until then. */
module StopDiscipline {
  import opened Common
  import opened Scheduling
  import opened FiberEngine
  import opened EngineSafety
  import opened FiberSync
  import opened World
  import opened StopCalls
  import opened HijackedRuns

  /** The scheduler of the thread has been asked to stop. */
  predicate Asked(e: Engine, t: Tid)
    requires t < |e.threads|
  {
    e.threads[t].sched < |e.scheds| && e.scheds[e.threads[t].sched].stopping
  }

  /** While a hijacking scheduler is asked to stop and its run loop is alive, the native fiber
      is suspended in stop() or dispatch(), or is running on its own thread. */
  predicate Settled(e: Engine, t: Tid)
    requires t < |e.threads|
  {
    var th := e.threads[t];
    Hijacked(th) && !th.outside && Asked(e, t) && th.native in e.fibers ==>
      e.fibers[th.native].place in {Awaits(t), Held(t)}
  }

  /** The idle function returns only when its scheduler has been asked to stop, an exception of
      a task reaches a hijacked run loop only while the native fiber awaits the end of that loop, and
      only the native fiber calls stop() unless m_callingFiber is set, so that the call returns at once:
      a task stops a scheduler after the native fiber has left through dispatch() or yield(). */
  predicate Polite(e: Engine, ev: Move)
    requires ev.t < |e.threads|
  {
    && (ev.YieldIdle? && ev.last == Term ==> Asked(e, ev.t))
    && (ev.Land? && Hijacked(e.threads[ev.t]) && Rethrows(e, ev.t) ==> InStop(e, ev.t))
    && (ev.Await? && ev.ask ==> e.threads[ev.t].current == e.threads[ev.t].native)
  }

  // ----- why the run loop ends -----

  predicate IdleOver(e: Engine, t: Tid)
    requires t < |e.threads|
  {
    var th := e.threads[t];
    || (th.idle in e.fibers && e.fibers[th.idle].state == Term)
    || (th.pc in {SwitchBack, ArriveBack} && th.run in e.fibers && e.fibers[th.run].next == Term)
    || th.pc == Ending(Term)
  }

  predicate TaskThrew(e: Engine, t: Tid)
    requires t < |e.threads|
  {
    e.threads[t].pc == Throwing || e.threads[t].pc == Ending(Except)
  }

  /** Only an idle function that ended on request, or a task that threw while it was harmless, has
      put a hijacked thread on its way out. */
  predicate ReasonOk(e: Engine, t: Tid)
    requires t < |e.threads|
  {
    Hijacked(e.threads[t]) ==> (IdleOver(e, t) ==> Asked(e, t)) && (TaskThrew(e, t) ==> InStop(e, t))
  }

  /** With that, a run loop that ends is awaited. */
  lemma EndIsAwaited(e: Engine, t: Tid)
    requires Inv(e) && t < |e.threads| && e.threads[t].pc.Ending? && ReasonOk(e, t) && Settled(e, t)
    ensures InStop(e, t)
  {
    assert ThreadOk(e, t) && FiberOk(e, e.threads[t].native);
  }

  // ----- every step keeps the reasons -----

  lemma InStopKept(e: Engine, ev: Move, t: Tid)
    requires Inv(e) && Enabled(e, ev) && Clean(e, ev) && InStop(e, t) && ev != End(t)
    ensures InStop(Apply(e, ev), t)
  {
    var f := e.threads[t].native;
    NativeKept(e, ev, t);
    assert ev.End? ==> f != e.threads[ev.t].native;
    AwaitsKept(e, ev, f);
  }

  lemma StoppingKept(e: Engine, ev: Move, s: Sid)
    requires Enabled(e, ev) && s < |e.scheds| && e.scheds[s].stopping
    ensures s < |Apply(e, ev).scheds| && Apply(e, ev).scheds[s].stopping
  {
  }

  lemma AskedKept(e: Engine, ev: Move, t: Tid)
    requires Enabled(e, ev) && t < |e.threads| && Asked(e, t)
    ensures t < |Apply(e, ev).threads| && Asked(Apply(e, ev), t)
  {
    SchedKept(e, ev, t);
    StoppingKept(e, ev, e.threads[t].sched);
  }

  lemma ReasonOfOther(e: Engine, ev: Move, t: Tid)
    requires Inv(e) && Enabled(e, ev) && Clean(e, ev) && t < |e.threads| && ev.t != t && ReasonOk(e, t)
    ensures t < |Apply(e, ev).threads| && ReasonOk(Apply(e, ev), t)
  {
    var th := e.threads[t];
    assert ThreadOk(e, t);
    OtherThreadKept(e, ev, t);
    Spared(e, ev, t, th.run);
    Spared(e, ev, t, th.idle);
    if Hijacked(th) {
      if IdleOver(e, t) { AskedKept(e, ev, t); }
      if TaskThrew(e, t) { InStopKept(e, ev, t); }
    }
  }

  /** Such a step ends nothing; only the requeueing after an exception leads out of the loop. */
  lemma OwnThread(e: Engine, ev: Move)
    requires Enabled(e, ev) && !Internal(ev)
    ensures |Apply(e, ev).threads| == |e.threads| && SameRoles(e.threads[ev.t], Apply(e, ev).threads[ev.t])
    ensures PcStep(ev, e.threads[ev.t].pc, Apply(e, ev).threads[ev.t].pc)
  {
    hide Apply, Enabled, PcStep;
    StepThreads(e, ev);
    if ev.Select? || ev.Requeue? || ev.Pop? { ListPc(e, ev); }
    else if ev.SwitchTo? || ev.Park? || ev.Await? || ev.End? { GivingPc(e, ev); }
    else { ClientThreads(e, ev); SamePc(ev, e.threads[ev.t].pc); }
  }

  /** What a step outside the fiber code does to the program counter of its thread. */
  predicate PcStep(ev: Move, pc: Pc, pc': Pc) {
    || pc' == pc
    || (ev.Requeue? && pc == Throwing && (pc' == Ending(Except) || pc' == Dead))
    || pc' == Leaving || pc'.Resume? || pc'.SwitchIn?
  }

  lemma SamePc(ev: Move, pc: Pc)
    ensures PcStep(ev, pc, pc)
  {
  }

  lemma ListPc(e: Engine, ev: Move)
    requires Enabled(e, ev) && (ev.Select? || ev.Requeue? || ev.Pop?)
    ensures ev.t < |Apply(e, ev).threads| && PcStep(ev, e.threads[ev.t].pc, Apply(e, ev).threads[ev.t].pc)
  {
    hide Take, Rest, Moved, FibersOf, NewFiber, Reset, FunctorFiber;
  }

  lemma GivingPc(e: Engine, ev: Move)
    requires Enabled(e, ev) && (ev.SwitchTo? || ev.Park? || ev.Await? || ev.End?)
    ensures ev.t < |Apply(e, ev).threads| && PcStep(ev, e.threads[ev.t].pc, Apply(e, ev).threads[ev.t].pc)
  {
    hide YieldToWrites, StopYields, EndsTo;
  }

  predicate KeepsGoing(pc: Pc, pc': Pc) {
    pc' == pc || (pc == Throwing && (pc' == Ending(Except) || pc' == Dead)) || pc' == Leaving || pc'.Resume? ||
      pc'.SwitchIn?
  }

  lemma ReasonFrame(e: Engine, e': Engine, t: Tid)
    requires t < |e.threads| && t < |e'.threads| && ReasonOk(e, t) && SameRoles(e.threads[t], e'.threads[t])
    requires KeepsGoing(e.threads[t].pc, e'.threads[t].pc)
    requires e.threads[t].run in e.fibers && e.threads[t].run in e'.fibers &&
             e'.fibers[e.threads[t].run] == e.fibers[e.threads[t].run]
    requires e.threads[t].idle in e.fibers && e.threads[t].idle in e'.fibers &&
             e'.fibers[e.threads[t].idle] == e.fibers[e.threads[t].idle]
    requires Asked(e, t) ==> Asked(e', t)
    requires InStop(e, t) && !e'.threads[t].pc.SwitchIn? ==> InStop(e', t)
    ensures ReasonOk(e', t)
  {
    assert IdleOver(e', t) ==> IdleOver(e, t);
    assert TaskThrew(e', t) ==> TaskThrew(e, t);
  }

  /** A step of the thread itself that is not inside the fiber code. */
  lemma ReasonOfOwn(e: Engine, ev: Move)
    requires Inv(e) && Enabled(e, ev) && Clean(e, ev) && !Internal(ev) && ReasonOk(e, ev.t)
    ensures ev.t < |Apply(e, ev).threads| && ReasonOk(Apply(e, ev), ev.t)
  {
    hide Inv, Apply, ReasonOk;
    var t := ev.t;
    LoopFibers(e, t);
    Spared(e, ev, t, e.threads[t].run);
    Spared(e, ev, t, e.threads[t].idle);
    OwnThread(e, ev);
    if Asked(e, t) { AskedKept(e, ev, t); }
    if InStop(e, t) && !ev.End? { InStopKept(e, ev, t); }
    if ev.End? { EndSwitches(e, t); }
    ReasonFrame(e, Apply(e, ev), t);
  }

  lemma EndSwitches(e: Engine, t: Tid)
    requires Inv(e) && Enabled(e, End(t)) && Awaited(e, t)
    ensures t < |Apply(e, End(t)).threads| && Apply(e, End(t)).threads[t].pc.SwitchIn?
  {
    hide DoEnd, Lists, Accounts, Roots, ThreadOk, FiberOk;
    var th := e.threads[t];
    EndForm(e, t, DoEnd(e, t), th.native,
            e.fibers[th.native].(state := Exec, yielder := Some(th.run), next := th.pc.last, on := Some(t),
              place := Held(t)));
  }

  lemma ReasonLeave(e: Engine, t: Tid)
    requires Inv(e) && Enabled(e, Leave(t)) && ReasonOk(e, t)
    ensures ReasonOk(DoLeave(e, t), t)
  {
    hide FiberOk, PcOk, YieldToWrites, SchedOk;
    assert ThreadOk(e, t);
    LeaveForm(e, t, DoLeave(e, t));
  }

  lemma ReasonExit(e: Engine, t: Tid, last: FiberState)
    requires Inv(e) && Enabled(e, Exit(t, last)) && ReasonOk(e, t)
    ensures ReasonOk(DoExit(e, t, last), t)
  {
    hide Lists, Accounts, Roots, ThreadOk, FiberOk, DoExit, ReasonOk;
    var th := e.threads[t];
    LoopFibers(e, t);
    ExitForm(e, t, last, DoExit(e, t, last),
      e.fibers[th.run].(state := Exec, yielder := Some(th.current), next := last, on := Some(t)));
    ReasonThrows(e, DoExit(e, t, last), t);
  }

  lemma ReasonThrow(e: Engine, t: Tid)
    requires Inv(e) && Enabled(e, Throw(t)) && ReasonOk(e, t)
    ensures ReasonOk(DoThrow(e, t), t)
  {
    assert ThreadOk(e, t);
    ReasonThrows(e, DoThrow(e, t), t);
  }

  lemma ReasonLand(e: Engine, t: Tid)
    requires Enabled(e, Land(t)) && Polite(e, Land(t)) && ReasonOk(e, t) && e.threads[t].idle in e.fibers
    ensures ReasonOk(DoLand(e, t), t)
  {
    assert InStop(e, t) ==> InStop(DoLand(e, t), t);
    ReasonThrows(e, DoLand(e, t), t);
  }

  lemma ReasonJudge(e: Engine, t: Tid)
    requires Inv(e) && Enabled(e, Judge(t)) && ReasonOk(e, t)
    ensures ReasonOk(DoJudge(e, t), t)
  {
    LoopFibers(e, t);
    FunctorSpares(e, Judge(t), e.threads[t].idle);
    JudgeForm(e, t);
    ReasonJudged(e, DoJudge(e, t), t);
  }

  lemma JudgeForm(e: Engine, t: Tid)
    requires t < |e.threads|
    ensures var th := e.threads[t];
            var e' := DoJudge(e, t);
            && |e'.threads| == |e.threads| && e'.scheds == e.scheds && e'.threads[t].pc == Loop
            && e'.threads[t].sched == th.sched && SameRoles(th, e'.threads[t])
  {
  }

  lemma ReasonJudged(e: Engine, e': Engine, t: Tid)
    requires t < |e.threads| == |e'.threads| && ReasonOk(e, t) && SameRoles(e.threads[t], e'.threads[t])
    requires e'.scheds == e.scheds && e'.threads[t].pc == Loop && e'.threads[t].sched == e.threads[t].sched
    requires e.threads[t].idle in e'.fibers && e.threads[t].idle in e.fibers
    requires e'.fibers[e.threads[t].idle] == e.fibers[e.threads[t].idle]
    ensures ReasonOk(e', t)
  {
    ReasonThrows(e, e', t);
  }

  /** Nothing happens to the idle fiber, and an exception is on its way only if it is harmless. */
  lemma ReasonThrows(e: Engine, e': Engine, t: Tid)
    requires t < |e.threads| && t < |e'.threads| && ReasonOk(e, t) && SameRoles(e.threads[t], e'.threads[t])
    requires e.threads[t].idle in e'.fibers && e.threads[t].idle in e.fibers
    requires e'.fibers[e.threads[t].idle].state == e.fibers[e.threads[t].idle].state
    requires e'.threads[t].pc !in {SwitchBack, ArriveBack} && !e'.threads[t].pc.Ending?
    requires Asked(e, t) ==> Asked(e', t)
    requires Hijacked(e.threads[t]) && TaskThrew(e', t) ==> InStop(e', t)
    ensures ReasonOk(e', t)
  {
    assert IdleOver(e', t) ==> IdleOver(e, t);
  }

  lemma ReasonEnter(e: Engine, t: Tid)
    requires Inv(e) && Enabled(e, Enter(t)) && ReasonOk(e, t)
    ensures ReasonOk(DoEnter(e, t), t)
  {
    LoopFibers(e, t);
    EnterSpares(e, t, t, e.threads[t].idle);
    ReasonEntered(e, DoEnter(e, t), t);
  }

  lemma ReasonEntered(e: Engine, e': Engine, t: Tid)
    requires t < |e.threads| && ReasonOk(e, t) && e'.scheds == e.scheds && e.threads[t].pc.Resume?
    requires e'.threads ==
             e.threads[t := e.threads[t].(current := e.threads[t].pc.f, pc := SwitchIn(e.threads[t].pc.f))]
    requires e.threads[t].idle in e'.fibers && e.threads[t].idle in e.fibers
    requires e'.fibers[e.threads[t].idle] == e.fibers[e.threads[t].idle]
    ensures ReasonOk(e', t)
  {
    ReasonThrows(e, e', t);
  }

  lemma ReasonSwitch(e: Engine, t: Tid)
    requires Enabled(e, Switch(t)) && ReasonOk(e, t)
    ensures ReasonOk(DoSwitch(e, t), t)
  {
    var e' := DoSwitch(e, t);
    assert IdleOver(e', t) ==> IdleOver(e, t);
    assert !TaskThrew(e', t);
  }

  lemma ArriveInSpares(e: Engine, t: Tid)
    requires Shape(e) && Enabled(e, Arrive(t)) && e.threads[t].pc in {ArriveIn, ArriveOut}
    ensures var idle := e.threads[t].idle;
            && idle in e.fibers && idle in HandOff(e.fibers, e.threads[t].ctx)
            && HandOff(e.fibers, e.threads[t].ctx)[idle].state == e.fibers[idle].state
    ensures e.threads[t].pc == ArriveOut ==> e.threads[t].ctx == e.threads[t].run && e.threads[t].run in e.fibers
  {
    assert ThreadOk(e, t);
  }

  lemma ReasonArriveIn(e: Engine, t: Tid)
    requires Inv(e) && Enabled(e, Arrive(t)) && e.threads[t].pc == ArriveIn && ReasonOk(e, t)
    ensures ReasonOk(DoArriveIn(e, t), t)
  {
    ArriveInSpares(e, t);
    ReasonThrows(e, DoArriveIn(e, t), t);
  }

  lemma ReasonArriveOut(e: Engine, t: Tid)
    requires Inv(e) && Enabled(e, Arrive(t)) && e.threads[t].pc == ArriveOut && ReasonOk(e, t)
    ensures ReasonOk(DoArriveOut(e, t), t)
  {
    ArriveInSpares(e, t);
    ReasonThrows(e, DoArriveOut(e, t), t);
  }

  lemma ReasonArriveBack(e: Engine, t: Tid)
    requires Inv(e) && Enabled(e, Arrive(t)) && e.threads[t].pc == ArriveBack && ReasonOk(e, t)
    ensures ReasonOk(DoArriveBack(e, t), t)
  {
    assert ThreadOk(e, t);
  }

  lemma ReasonCallIdle(e: Engine, t: Tid)
    requires Enabled(e, CallIdle(t)) && ReasonOk(e, t)
    ensures ReasonOk(DoCallIdle(e, t), t)
  {
    assert !IdleOver(DoCallIdle(e, t), t) && !TaskThrew(DoCallIdle(e, t), t);
  }

  lemma ReasonYieldIdle(e: Engine, t: Tid, last: FiberState, e': Engine)
    requires Enabled(e, YieldIdle(t, last)) && Polite(e, YieldIdle(t, last)) && ReasonOk(e, t) &&
             e' == DoYieldIdle(e, t, last)
    requires e.threads[t].idle in e.fibers && e.threads[t].run in e.fibers && e.threads[t].run != e.threads[t].idle
    requires e.threads[t].current in e.fibers && e.fibers[e.threads[t].current].outer == Some(e.threads[t].run)
    ensures ReasonOk(e', t)
  {
    assert e'.fibers[e.threads[t].run].next == last && e'.fibers[e.threads[t].idle] == e.fibers[e.threads[t].idle];
    assert IdleOver(e', t) ==> IdleOver(e, t) || Asked(e, t);
    assert !TaskThrew(e', t);
  }

  lemma ReasonRetire(e: Engine, t: Tid)
    requires Inv(e) && Enabled(e, Retire(t)) && ReasonOk(e, t)
    ensures ReasonOk(DoRetire(e, t), t)
  {
    assert IdleOver(e, t) && !TaskThrew(DoRetire(e, t), t);
  }

  lemma IdleReturnsToLoop(e: Engine, t: Tid)
    requires Inv(e) && t < |e.threads| && e.threads[t].pc == Idle
    ensures e.threads[t].current in e.fibers && e.fibers[e.threads[t].current].outer == Some(e.threads[t].run)
    ensures e.threads[t].current == e.threads[t].idle
  {
    assert ThreadOk(e, t);
  }

  lemma ReasonOfInternal(e: Engine, ev: Move)
    requires Inv(e) && Enabled(e, ev) && Internal(ev) && Polite(e, ev) && ReasonOk(e, ev.t)
    ensures ev.t < |Apply(e, ev).threads| && ReasonOk(Apply(e, ev), ev.t)
  {
    hide Inv, ReasonOk, DoLeave, DoThrow, DoExit, DoLand, DoJudge, DoSwitch, DoEnter, DoCallIdle, DoYieldIdle, DoRetire,
         DoArriveIn, DoArriveOut, DoArriveBack;
    StepThreads(e, ev);
    match ev
    case Leave(t) => ReasonLeave(e, t);
    case Throw(t) => ReasonThrow(e, t);
    case Exit(t, last) => ReasonExit(e, t, last);
    case Land(t) => LoopFibers(e, t); ReasonLand(e, t);
    case Judge(t) => ReasonJudge(e, t);
    case Enter(t) => ReasonEnter(e, t);
    case Switch(t) => ReasonSwitch(e, t);
    case Arrive(t) =>
      if e.threads[t].pc == ArriveIn { ReasonArriveIn(e, t); }
      else if e.threads[t].pc == ArriveOut { ReasonArriveOut(e, t); }
      else { ReasonArriveBack(e, t); }
    case CallIdle(t) => ReasonCallIdle(e, t);
    case YieldIdle(t, last) =>
      LoopFibers(e, t);
      IdleReturnsToLoop(e, t);
      ReasonYieldIdle(e, t, last, DoYieldIdle(e, t, last));
    case Retire(t) => ReasonRetire(e, t);
  }

  lemma ReasonKept(e: Engine, ev: Move, t: Tid)
    requires Inv(e) && Enabled(e, ev) && Clean(e, ev) && Polite(e, ev) && t < |e.threads| && ReasonOk(e, t)
    ensures t < |Apply(e, ev).threads| && ReasonOk(Apply(e, ev), t)
  {
    if ev.t != t { ReasonOfOther(e, ev, t); }
    else if Internal(ev) { ReasonOfInternal(e, ev); }
    else { ReasonOfOwn(e, ev); }
  }

  // ----- runs -----

  /** A run in which client code keeps to these rules. */
  ghost predicate Disciplined(tr: seq<World>) {
    && (forall i, t :: 0 <= i < |tr| && 0 <= t < |tr[i].e.threads| ==> Settled(tr[i].e, t))
    && (forall i, ev | 0 <= i < |tr| - 1 && Follows(tr[i], Run(ev), tr[i + 1]) :: Polite(tr[i].e, ev))
  }

  lemma StartReason(w: World, t: Tid)
    requires WorldStarts(w) && t < |w.e.threads|
    ensures ReasonOk(w.e, t)
  {
    assert ThreadStarts(w.e, t);
  }

  /** A call is a wake-up and then a park, as the engine sees it. */
  lemma ReasonOfCall(w: World, c: Tid, o: Oid, op: Op, t: Tid)
    requires WorldInv(w) && Can(w, Call(c, o, op)) && t < |w.e.threads| && ReasonOk(w.e, t)
    ensures t < |DoCall(w, c, o, op).e.threads| && ReasonOk(DoCall(w, c, o, op).e, t)
  {
    var out := Perform(w.objs[o], c, Self(w.e, c), op);
    var e1 := WakeUp(w.e, out.wakes);
    CallerCalls(w, c, o, op);
    WakeUpKeepsInv(w, o, out.wakes);
    if out.wakes.Some? {
      assert FiberOk(w.e, out.wakes.value.fiber);
      ReasonKept(w.e, Wake(c, out.wakes.value.sched, out.wakes.value.fiber), t);
    }
    if out.parks { ReasonKept(e1, Park(c, o), t); }
  }

  lemma {:induction false} DisciplineHolds(tr: seq<World>, i: nat)
    requires IsRun(tr) && Disciplined(tr) && i < |tr|
    ensures CleanTo(tr, i) && WorldInv(tr[i])
    ensures forall t :: 0 <= t < |tr[i].e.threads| ==> ReasonOk(tr[i].e, t)
  {
    if i == 0 {
      StartHoldsInv(tr[0]);
      forall t | 0 <= t < |tr[0].e.threads| ensures ReasonOk(tr[0].e, t) { StartReason(tr[0], t); }
    } else {
      DisciplineHolds(tr, i - 1);
      EndsClean(tr, i - 1);
      var w, w' := tr[i - 1], tr[i];
      RunHoldsInv(tr, i);
      assert WorldStep(tr[i - 1], tr[i - 1 + 1]);
      var a :| Follows(w, a, w');
      match a
      case Run(ev) =>
        assert Follows(tr[i - 1], Run(ev), tr[i - 1 + 1]);
        assert Clean(w.e, ev);
        forall t | 0 <= t < |w'.e.threads| ensures ReasonOk(w'.e, t) {
          SchedKept(w.e, ev, ev.t);
          ReasonKept(w.e, ev, t);
        }
      case Call(c, o, op) =>
        CallEngine(w, c, o, op);
        forall t | 0 <= t < |w'.e.threads| ensures ReasonOk(w'.e, t) { ReasonOfCall(w, c, o, op, t); }
    }
  }

  lemma EndsClean(tr: seq<World>, i: nat)
    requires IsRun(tr) && Disciplined(tr) && i + 1 < |tr| && CleanTo(tr, i) && WorldInv(tr[i])
    requires forall t :: 0 <= t < |tr[i].e.threads| ==> ReasonOk(tr[i].e, t)
    ensures CleanTo(tr, i + 1)
  {
    hide Apply, Inv;
    forall ev | Follows(tr[i], Run(ev), tr[i + 1]) ensures Clean(tr[i].e, ev) {
      if ev.End? {
        assert Settled(tr[i].e, ev.t) && ReasonOk(tr[i].e, ev.t);
        EndIsAwaited(tr[i].e, ev.t);
        NotOvertaken(tr, i, ev.t);
      }
      if ev.Await? && ev.ask { NativeIsOnRoot(tr[i].e, ev.t); }
      CleanIffUndisturbed(tr, i, ev);
    }
    CleanSnoc(tr, i);
  }

  lemma NotOvertaken(tr: seq<World>, i: nat, t: Tid)
    requires Disciplined(tr) && i < |tr|
    ensures !Overtaken(tr, i, t)
  {
    hide Follows;
    forall j | 0 <= j < i && Stops(tr, j, t)
      ensures tr[j].e.threads[t].current == tr[j].e.threads[t].native
    {
      assert Polite(tr[j].e, Await(t, true));
    }
  }

  lemma NativeIsOnRoot(e: Engine, t: Tid)
    requires Inv(e) && t < |e.threads| && e.threads[t].pc == User && e.threads[t].current == e.threads[t].native
    ensures Hijacked(e.threads[t])
  {
    assert ThreadOk(e, t);
  }

  /** Keeping to the rules is enough: such a run is safe throughout. */
  lemma DisciplinedIsSafe(tr: seq<World>)
    requires IsRun(tr) && Disciplined(tr)
    ensures CleanRun(tr) && SafeRun(tr)
  {
    DisciplineHolds(tr, |tr| - 1);
    SafeIffClean(tr);
  }
}

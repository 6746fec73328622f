/** Which run loop an exception ends.

    An exception that leaves a task is rethrown in the run loop the task comes back to. yieldTo()
    looks for it only after the fiber has been given its new state, and by then another thread may
    have resumed the fiber. */
module TaskExceptions {
  import opened Common
  import opened Scheduling
  import opened FiberEngine
  import opened EngineSafety
  import opened FiberSync
  import opened World
  import opened StopCalls
  import opened StopDiscipline

  /** A task of the thread has thrown and is on its way out. */
  predicate Fails(e: Engine, t: Tid) {
    && t < |e.threads|
    && var th := e.threads[t];
    th.pc == Failing ||
      ((th.pc.SwitchOut? || th.pc == ArriveOut) && th.run in e.fibers && e.fibers[th.run].next == Except)
  }

  /** What matters about a fiber here: it ended with an exception, is on a thread, or neither. */
  datatype Kind = Broken | With(t: Tid) | Other

  function KindOf(fb: Fiber): Kind {
    if AtRest(fb.place) && fb.state == Except then Broken
    else if fb.place.Held? then With(fb.place.t) else Other
  }

  /** The fiber has ended with an exception and has not been used again, or is about to end so. */
  predicate Failed(e: Engine, f: Fid)
    requires f in e.fibers
  {
    var k := KindOf(e.fibers[f]);
    k == Broken || (k.With? && Fails(e, k.t))
  }

  /** Exactly such a fiber holds an exception. */
  predicate ThrownOk(e: Engine, f: Fid)
    requires f in e.fibers
  {
    e.fibers[f].thrown <==> Failed(e, f)
  }

  ghost predicate Thrown(e: Engine) { forall f :: f in e.fibers ==> ThrownOk(e, f) }

  // ----- every step keeps this -----

  predicate Keeps(e: Engine, e': Engine, f: Fid) {
    && f in e.fibers && f in e'.fibers
    && e'.fibers[f].thrown == e.fibers[f].thrown && KindOf(e'.fibers[f]) == KindOf(e.fibers[f])
    && e'.fibers[f].own == e.fibers[f].own
  }

  /** A run loop's own fiber that has ended with an exception. */
  predicate Wreck(e: Engine, f: Fid) { f in e.fibers && e.fibers[f].own && KindOf(e.fibers[f]) == Broken }

  /** A step of thread t leaves the fiber what it was, or comes out right by itself. */
  predicate Settles(e: Engine, e': Engine, t: Tid, f: Fid)
    requires f in e'.fibers
  {
    || (Keeps(e, e', f) && (KindOf(e.fibers[f]) == With(t) ==> (Fails(e, t) <==> Fails(e', t))))
    || (ThrownOk(e', f) && !Wreck(e, f) && (f in e.fibers ==> e'.fibers[f].own == e.fibers[f].own))
  }

  lemma LeaveSettles(e: Engine, t: Tid, e': Engine, f: Fid)
    requires Shape(e) && Thrown(e) && Enabled(e, Leave(t)) && e' == DoLeave(e, t) && f in e'.fibers
    ensures Settles(e, e', t, f)
  {
    hide DoLeave, FiberOk, ThreadOk;
    LeaveForm(e, t, e');
    IdleNotOwn(e, t);
    LoopPlaces(e, t);
    assert ThrownOk(e, e.threads[t].idle);
  }

  lemma LoopPlaces(e: Engine, t: Tid)
    requires Shape(e) && t < |e.threads|
    ensures e.threads[t].run in e.fibers && e.fibers[e.threads[t].run].place == LoopOf(t)
    ensures e.threads[t].idle in e.fibers && e.fibers[e.threads[t].idle].place == IdleOf(t)
  {
    assert ThreadOk(e, t);
  }

  lemma IdleNotOwn(e: Engine, t: Tid)
    requires Shape(e) && t < |e.threads|
    ensures e.threads[t].idle in e.fibers && !e.fibers[e.threads[t].idle].own
  {
    assert ThreadOk(e, t) && FiberOk(e, e.threads[t].idle);
  }

  lemma ThrowSettles(e: Engine, t: Tid, e': Engine, f: Fid)
    requires Shape(e) && Thrown(e) && Enabled(e, Throw(t)) && e' == DoThrow(e, t) && f in e'.fibers
    ensures Settles(e, e', t, f)
  {
    assert ThreadOk(e, t) && FiberOk(e, f);
  }

  /** A step in which one fiber changes, and nothing that matters about it. */
  lemma OneSettles(e: Engine, e': Engine, t: Tid, g: Fid, fb: Fiber, f: Fid)
    requires g in e.fibers && e'.fibers == e.fibers[g := fb] && f in e'.fibers && (Fails(e, t) <==> Fails(e', t))
    requires fb.thrown == e.fibers[g].thrown && fb.own == e.fibers[g].own && KindOf(fb) == KindOf(e.fibers[g])
    ensures Settles(e, e', t, f)
  {
  }

  lemma ExitSettles(e: Engine, t: Tid, last: FiberState, e': Engine, f: Fid)
    requires Shape(e) && Enabled(e, Exit(t, last)) && e' == DoExit(e, t, last) && f in e'.fibers
    ensures Settles(e, e', t, f)
  {
    hide FiberOk, DoExit, Settles;
    var th := e.threads[t];
    assert ThreadOk(e, t);
    var fb := e.fibers[th.run].(state := Exec, yielder := Some(th.current), next := last, on := Some(t));
    ExitForm(e, t, last, e', fb);
    OneSettles(e, e', t, th.run, fb, f);
  }

  lemma EnterSettles(e: Engine, t: Tid, e': Engine, f: Fid)
    requires Shape(e) && Enabled(e, Enter(t)) && e' == DoEnter(e, t) && f in e'.fibers
    ensures Settles(e, e', t, f)
  {
    hide FiberOk, ThreadOk, DoEnter, Settles;
    var g := e.threads[t].pc.f;
    EnterForm(e, t, g, e');
    OneSettles(e, e', t, g, e'.fibers[g], f);
  }

  /** The fiber that comes back is given the state it failed with, or it did not fail. */
  lemma HeldHere(e: Engine, t: Tid, f: Fid)
    requires Shape(e) && t < |e.threads| && f in e.fibers && e.fibers[f].place == Held(t)
    ensures HeldBy(e, t, f)
  {
    assert FiberOk(e, f);
  }

  lemma LeftSettles(e: Engine, t: Tid, fs: map<Fid, Fiber>, f: Fid)
    requires Shape(e) && Enabled(e, Arrive(t)) && fs == HandOff(e.fibers, e.threads[t].ctx) && f in fs
    ensures f in e.fibers && fs[f].thrown == e.fibers[f].thrown && fs[f].own == e.fibers[f].own
    ensures KindOf(fs[f]) == KindOf(e.fibers[f]) ||
            (KindOf(e.fibers[f]) == With(t) && KindOf(fs[f]) == if Fails(e, t) then Broken else Other)
    ensures KindOf(fs[f]) == With(t) ==> !Fails(e, t)
  {
    hide FiberOk, HandOff;
    ArriveForm(e, t);
    assert ThreadOk(e, t);
    if f in e.fibers && e.fibers[f].place == Held(t) { HeldHere(e, t, f); }
  }

  lemma ArriveSettles(e: Engine, t: Tid, e': Engine, f: Fid)
    requires Shape(e) && Thrown(e) && Enabled(e, Arrive(t)) && e' == Apply(e, Arrive(t)) && f in e'.fibers
    ensures Settles(e, e', t, f)
  {
    var fs := HandOff(e.fibers, e.threads[t].ctx);
    assert ThreadOk(e, t);
    LeftSettles(e, t, fs, f);
    ArriveIdleKept(e, t, e', f);
    assert ThrownOk(e, f);
  }

  lemma ArriveIdleKept(e: Engine, t: Tid, e': Engine, f: Fid)
    requires Shape(e) && Enabled(e, Arrive(t)) && e' == Apply(e, Arrive(t)) && f in e'.fibers
    ensures var fs := HandOff(e.fibers, e.threads[t].ctx);
            && f in fs && e'.fibers[f].thrown == fs[f].thrown && e'.fibers[f].own == fs[f].own
            && KindOf(e'.fibers[f]) == KindOf(fs[f])
    ensures t < |e'.threads| && !Fails(e', t)
  {
    hide ThreadOk, FiberOk, HandOff;
    assert ThreadOk(e, t);
  }

  lemma JudgeSettles(e: Engine, t: Tid, e': Engine, f: Fid)
    requires Shape(e) && Thrown(e) && Enabled(e, Judge(t)) && e' == DoJudge(e, t) && f in e'.fibers
    ensures Settles(e, e', t, f)
  {
    hide FiberOk, HijackOk, PcOk;
    assert ThreadOk(e, t);
    JudgingSpare(e, t);
    var g := e.threads[t].spare.value;
    assert FiberOk(e, g) && ThrownOk(e, g);
    SpareAtRest(e, t);
  }

  lemma RetireSettles(e: Engine, t: Tid, e': Engine, f: Fid)
    requires Shape(e) && Enabled(e, Retire(t)) && e' == DoRetire(e, t) && f in e'.fibers
    ensures Settles(e, e', t, f)
  {
    assert FiberOk(e, f);
  }

  lemma LandSettles(e: Engine, t: Tid, e': Engine, f: Fid)
    requires Enabled(e, Land(t)) && e' == DoLand(e, t) && f in e'.fibers
    ensures Settles(e, e', t, f)
  {
  }

  lemma SwitchSettles(e: Engine, t: Tid, e': Engine, f: Fid)
    requires Enabled(e, Switch(t)) && e' == DoSwitch(e, t) && f in e'.fibers
    ensures Settles(e, e', t, f)
  {
  }

  lemma CallIdleSettles(e: Engine, t: Tid, e': Engine, f: Fid)
    requires Shape(e) && Enabled(e, CallIdle(t)) && e' == DoCallIdle(e, t) && f in e'.fibers
    ensures Settles(e, e', t, f)
  {
    assert ThreadOk(e, t);
  }

  lemma YieldIdleSettles(e: Engine, t: Tid, last: FiberState, e': Engine, f: Fid)
    requires Enabled(e, YieldIdle(t, last)) && e' == DoYieldIdle(e, t, last) && f in e'.fibers
    ensures Settles(e, e', t, f)
  {
  }

  lemma SelectSettles(e: Engine, t: Tid, busy: set<Fid>, e': Engine, f: Fid)
    requires Inv(e) && Enabled(e, Select(t, busy)) && e' == DoSelect(e, t, busy) && f in e'.fibers
    ensures Settles(e, e', t, f)
  {
    hide Inv;
    SelectMoves(e, t, busy, f);
  }

  lemma RequeuePc(e: Engine, t: Tid)
    requires Enabled(e, Requeue(t))
    ensures |DoRequeue(e, t).threads| == |e.threads| && !Fails(e, t) && !Fails(DoRequeue(e, t), t)
  {
  }

  lemma RequeueSettles(e: Engine, t: Tid, e': Engine, f: Fid)
    requires Inv(e) && Enabled(e, Requeue(t)) && e' == DoRequeue(e, t) && f in e'.fibers
    ensures Settles(e, e', t, f)
  {
    hide DoRequeue, Fails, ThreadOk, Lists, Accounts, Roots;
    RequeueMoves(e, t, f);
    RequeuePc(e, t);
    assert FiberOk(e, f);
  }

  lemma PopPc(e: Engine, t: Tid, n: Fid)
    requires Enabled(e, Pop(t, n))
    ensures |DoPop(e, t, n).threads| == |e.threads| && !Fails(e, t) && !Fails(DoPop(e, t, n), t)
  {
  }

  lemma PopSettles(e: Engine, t: Tid, n: Fid, e': Engine, f: Fid)
    requires Inv(e) && Thrown(e) && Enabled(e, Pop(t, n)) && e' == DoPop(e, t, n) && f in e'.fibers
    ensures Settles(e, e', t, f)
  {
    hide DoPop, ThreadOk, Fails, Lists, Accounts, Roots;
    assert Lists(e);
    PopMoves(e, t, n, f);
    PopPc(e, t, n);
    if f in e.fibers { assert ThrownOk(e, f) && FiberOk(e, f); }
  }

  /** The running fiber gives itself to somebody. */
  predicate Gives(e: Engine, e': Engine, t: Tid, me: Fid, p: Place) {
    && t < |e.threads| == |e'.threads| && e.threads[t].pc == User && e'.threads[t].pc == Leaving
    && me in e.fibers && e.fibers[me].place == Held(t) && e'.fibers == e.fibers[me := e.fibers[me].(place := p)]
    && !p.Held? && !AtRest(p)
  }

  lemma GivesForm(e: Engine, ev: Move) returns (p: Place)
    requires Shape(e) && Enabled(e, ev) && (ev.SwitchTo? || ev.Park? || ev.Await?)
    ensures Gives(e, Apply(e, ev), ev.t, e.threads[ev.t].current, p)
  {
    assert ThreadOk(e, ev.t);
    p := if ev.SwitchTo? then Queued(ev.s) else if ev.Park? then Away(e.threads[ev.t].sched, ev.o) else Awaits(ev.t);
  }

  lemma GivenSettles(e: Engine, e': Engine, t: Tid, me: Fid, p: Place, f: Fid)
    requires Thrown(e) && Gives(e, e', t, me, p) && f in e'.fibers
    ensures Settles(e, e', t, f)
  {
    assert ThrownOk(e, me);
  }

  lemma EndSettles(e: Engine, e': Engine, t: Tid, c: Fid, fb: Fiber, f: Fid)
    requires Thrown(e) && c in e.fibers && e.fibers[c].place.Awaits? && f in e'.fibers && t < |e.threads|
    requires e.threads[t].pc.Ending? && t < |e'.threads| && e'.threads[t].pc == SwitchIn(c)
    requires e'.fibers == e.fibers[c := fb] && fb.place == Held(t) && fb.thrown == e.fibers[c].thrown
    requires fb.own == e.fibers[c].own
    ensures Settles(e, e', t, f)
  {
    assert ThrownOk(e, c);
  }

  lemma EndsSettle(e: Engine, t: Tid, e': Engine, f: Fid)
    requires Inv(e) && Thrown(e) && t < |e.threads| && e.threads[t].pc.Ending? && Awaited(e, t)
    requires e' == DoEnd(e, t) && f in e'.fibers
    ensures Settles(e, e', t, f)
  {
    hide Settles, Thrown, Lists, Accounts, Roots, ThreadOk, FiberOk, DoEnd;
    var th := e.threads[t];
    var fb := e.fibers[th.native].(state := Exec, yielder := Some(th.run), next := th.pc.last, on := Some(t),
                                   place := Held(t));
    EndForm(e, t, e', th.native, fb);
    EndSettles(e, e', t, th.native, fb, f);
  }

  lemma ClientSettles(e: Engine, ev: Move, e': Engine, f: Fid)
    requires Inv(e) && Enabled(e, ev) && e' == Apply(e, ev) && f in e'.fibers
    requires ev.Create? || ev.ResetFiber? || ev.Schedule? || ev.ScheduleDg? || ev.Wake? || ev.Stop?
    ensures Settles(e, e', ev.t, f)
  {
    hide Settles;
    if ev.Create? || ev.ResetFiber? { MadeSettles(e, ev, e', f); } else { QueuedSettles(e, ev, e', f); }
  }

  lemma MadeSettles(e: Engine, ev: Move, e': Engine, f: Fid)
    requires Inv(e) && Enabled(e, ev) && e' == Apply(e, ev) && f in e'.fibers && (ev.Create? || ev.ResetFiber?)
    ensures Settles(e, e', ev.t, f)
  {
    hide Lists, Accounts, Roots, ThreadOk;
    assert f in e.fibers ==> FiberOk(e, f);
  }

  lemma QueuedSettles(e: Engine, ev: Move, e': Engine, f: Fid)
    requires Enabled(e, ev) && e' == Apply(e, ev) && f in e'.fibers
    requires ev.Schedule? || ev.ScheduleDg? || ev.Wake? || ev.Stop?
    ensures Settles(e, e', ev.t, f)
  {
  }

  lemma InternalSettles(e: Engine, ev: Move, e': Engine, f: Fid)
    requires Shape(e) && Thrown(e) && Enabled(e, ev) && Internal(ev) && e' == Apply(e, ev) && f in e'.fibers
    ensures Settles(e, e', ev.t, f)
  {
    hide Settles, Shape, Thrown, DoLeave, DoThrow, DoExit, DoEnter, DoJudge, DoRetire, DoLand, DoSwitch, DoCallIdle,
         DoYieldIdle, DoArriveIn, DoArriveOut, DoArriveBack;
    match ev
    case Leave(t) => LeaveSettles(e, t, e', f);
    case Throw(t) => ThrowSettles(e, t, e', f);
    case Exit(t, last) => ExitSettles(e, t, last, e', f);
    case Arrive(t) => ArriveSettles(e, t, e', f);
    case Enter(t) => EnterSettles(e, t, e', f);
    case Judge(t) => JudgeSettles(e, t, e', f);
    case Retire(t) => RetireSettles(e, t, e', f);
    case Land(t) => LandSettles(e, t, e', f);
    case Switch(t) => SwitchSettles(e, t, e', f);
    case CallIdle(t) => CallIdleSettles(e, t, e', f);
    case YieldIdle(t, last) => YieldIdleSettles(e, t, last, e', f);
  }

  lemma OtherSettles(e: Engine, ev: Move, e': Engine, f: Fid)
    requires Inv(e) && Thrown(e) && Enabled(e, ev) && Clean(e, ev) && !Internal(ev) && e' == Apply(e, ev)
    requires f in e'.fibers && !(ev.SwitchTo? || ev.Park? || ev.Await?)
    ensures Settles(e, e', ev.t, f)
  {
    hide Settles, Inv, Thrown;
    match ev
    case Select(t, busy) => SelectSettles(e, t, busy, e', f);
    case Requeue(t) => RequeueSettles(e, t, e', f);
    case Pop(t, n) => PopSettles(e, t, n, e', f);
    case End(t) => EndsSettle(e, t, e', f);
    case _ => ClientSettles(e, ev, e', f);
  }

  lemma StepSettles(e: Engine, ev: Move, e': Engine, f: Fid)
    requires Inv(e) && Thrown(e) && Enabled(e, ev) && Clean(e, ev) && e' == Apply(e, ev) && f in e'.fibers
    ensures Settles(e, e', ev.t, f)
  {
    hide Apply, Enabled, Settles, Shape, Lists, Accounts, Roots, Thrown, Gives;
    if Internal(ev) {
      InternalSettles(e, ev, e', f);
    } else if ev.SwitchTo? || ev.Park? || ev.Await? {
      var p := GivesForm(e, ev);
      GivenSettles(e, e', ev.t, e.threads[ev.t].current, p, f);
    } else {
      OtherSettles(e, ev, e', f);
    }
  }

  lemma FailsElsewhere(e: Engine, ev: Move, u: Tid)
    requires Inv(e) && Enabled(e, ev) && Clean(e, ev) && u != ev.t && u < |e.threads|
    ensures Fails(Apply(e, ev), u) <==> Fails(e, u)
  {
    OtherThreadKept(e, ev, u);
    LoopFibers(e, u);
    Spared(e, ev, u, e.threads[u].run);
  }

  lemma ThrownStep(e: Engine, ev: Move, f: Fid)
    requires Inv(e) && Thrown(e) && Enabled(e, ev) && Clean(e, ev) && f in Apply(e, ev).fibers
    ensures ThrownOk(Apply(e, ev), f)
    ensures f in e.fibers ==> Apply(e, ev).fibers[f].own == e.fibers[f].own
    ensures Wreck(e, f) ==> Wreck(Apply(e, ev), f)
  {
    hide Apply, Enabled, Fails;
    var e' := Apply(e, ev);
    StepSettles(e, ev, e', f);
    if Keeps(e, e', f) {
      assert ThrownOk(e, f) && FiberOk(e, f);
      var p := e.fibers[f].place;
      if p.Held? && p.t != ev.t { FailsElsewhere(e, ev, p.t); }
    }
  }

  lemma ThrownKept(e: Engine, ev: Move)
    requires Inv(e) && Thrown(e) && Enabled(e, ev) && Clean(e, ev)
    ensures Thrown(Apply(e, ev))
  {
    hide Apply, Enabled, Inv, ThrownOk;
    forall f | f in Apply(e, ev).fibers ensures ThrownOk(Apply(e, ev), f) { ThrownStep(e, ev, f); }
  }

  /** A run loop's own fiber that came back with an exception still has it. */
  predicate LandedOk(e: Engine, t: Tid)
    requires t < |e.threads|
  {
    var pc := e.threads[t].pc;
    pc.Landed? && pc.last == Except && pc.y in e.fibers && e.fibers[pc.y].own ==> Wreck(e, pc.y)
  }

  lemma ComesBack(e: Engine, t: Tid, e': Engine, y: Fid)
    requires Shape(e) && Thrown(e) && Enabled(e, Arrive(t)) && e.threads[t].pc == ArriveOut && e' == DoArriveOut(e, t)
    requires t < |e'.threads| && e'.threads[t].pc == Landed(y, Except)
    ensures y in e'.fibers && KindOf(e'.fibers[y]) == Broken
  {
    ArriveForm(e, t);
    assert ThreadOk(e, t);
    LeftSettles(e, t, HandOff(e.fibers, e.threads[t].ctx), y);
  }

  lemma InternalLands(e: Engine, ev: Move)
    requires Enabled(e, ev) && Internal(ev)
    ensures |Apply(e, ev).threads| == |e.threads|
    ensures Apply(e, ev).threads[ev.t].pc.Landed? ==>
              || Apply(e, ev).threads[ev.t].pc == e.threads[ev.t].pc
              || (ev.Arrive? && e.threads[ev.t].pc == ArriveOut)
  {
    hide Apply;
    StepThreads(e, ev);
    if ev.Arrive? || ev.Land? || ev.Judge? || ev.Retire? { LoopLands(e, ev); }
    else if ev.Leave? || ev.Throw? || ev.Exit? || ev.Enter? { LeaveLandsNot(e, ev); }
    else { IdleLandsNot(e, ev); }
  }

  lemma LoopLands(e: Engine, ev: Move)
    requires Enabled(e, ev) && (ev.Arrive? || ev.Land? || ev.Judge? || ev.Retire?) && ev.t < |Apply(e, ev).threads|
    ensures Apply(e, ev).threads[ev.t].pc.Landed? ==> ev.Arrive? && e.threads[ev.t].pc == ArriveOut
  {
    hide HandOff, Reset, Rethrows;
  }

  lemma LeaveLandsNot(e: Engine, ev: Move)
    requires Enabled(e, ev) && (ev.Leave? || ev.Throw? || ev.Exit? || ev.Enter?) && ev.t < |Apply(e, ev).threads|
    ensures !Apply(e, ev).threads[ev.t].pc.Landed?
  {
    hide YieldToWrites, FreshIdle;
  }

  lemma IdleLandsNot(e: Engine, ev: Move)
    requires Enabled(e, ev) && (ev.CallIdle? || ev.YieldIdle? || ev.Switch?) && ev.t < |Apply(e, ev).threads|
    ensures !Apply(e, ev).threads[ev.t].pc.Landed?
  {
  }

  lemma LandsAnew(e: Engine, ev: Move)
    requires Enabled(e, ev)
    ensures |Apply(e, ev).threads| == |e.threads|
    ensures Apply(e, ev).threads[ev.t].pc.Landed? ==>
              || Apply(e, ev).threads[ev.t].pc == e.threads[ev.t].pc
              || (ev.Arrive? && e.threads[ev.t].pc == ArriveOut)
  {
    if Internal(ev) { InternalLands(e, ev); } else { OwnThread(e, ev); }
  }

  lemma LandedKept(e: Engine, ev: Move, u: Tid)
    requires Inv(e) && Thrown(e) && Enabled(e, ev) && Clean(e, ev) && u < |e.threads| && LandedOk(e, u)
    ensures u < |Apply(e, ev).threads| && LandedOk(Apply(e, ev), u)
  {
    var e' := Apply(e, ev);
    if u != ev.t { OtherThreadKept(e, ev, u); } else { LandsAnew(e, ev); }
    LandedStays(e, ev, u);
  }

  lemma LandedStays(e: Engine, ev: Move, u: Tid)
    requires Inv(e) && Thrown(e) && Enabled(e, ev) && Clean(e, ev)
    requires u < |e.threads| == |Apply(e, ev).threads| && LandedOk(e, u)
    requires Apply(e, ev).threads[u].pc.Landed? ==>
               || Apply(e, ev).threads[u].pc == e.threads[u].pc
               || (ev == Arrive(u) && e.threads[u].pc == ArriveOut)
    ensures LandedOk(Apply(e, ev), u)
  {
    var e' := Apply(e, ev);
    var pc := e'.threads[u].pc;
    assert ThreadOk(e, u);
    if pc.Landed? && pc.last == Except && pc.y in e'.fibers {
      if pc == e.threads[u].pc { ThrownStep(e, ev, pc.y); } else { ComesBack(e, u, e', pc.y); }
    }
  }

  ghost predicate Exceptions(e: Engine) {
    Thrown(e) && forall t :: 0 <= t < |e.threads| ==> LandedOk(e, t)
  }

  lemma ExceptionsKept(e: Engine, ev: Move)
    requires Inv(e) && Exceptions(e) && Enabled(e, ev) && Clean(e, ev)
    ensures Exceptions(Apply(e, ev))
  {
    hide Apply, Enabled, Inv, Thrown, LandedOk;
    ThrownKept(e, ev);
    ThreadsKept(e, ev);
    forall t | 0 <= t < |Apply(e, ev).threads| ensures LandedOk(Apply(e, ev), t) {
      assert LandedOk(e, t);
      LandedKept(e, ev, t);
    }
  }

  // ----- runs -----

  lemma StartExceptions(w: World)
    requires WorldStarts(w)
    ensures Exceptions(w.e)
  {
    forall t | 0 <= t < |w.e.threads| ensures LandedOk(w.e, t) && !Fails(w.e, t) { assert ThreadStarts(w.e, t); }
    forall f | f in w.e.fibers ensures ThrownOk(w.e, f) {
      assert FiberStarts(w.e, f);
      var p := w.e.fibers[f].place;
      if p != Loose { assert ThreadStarts(w.e, p.t); }
    }
  }

  lemma ExceptionsOfWake(e: Engine, c: Tid, s: Sid, f: Fid)
    requires Inv(e) && Exceptions(e) && Enabled(e, Wake(c, s, f))
    ensures Exceptions(DoSchedule(e, s, f, None))
  {
    hide Exceptions;
    ExceptionsKept(e, Wake(c, s, f));
  }

  lemma ExceptionsOfPark(e: Engine, t: Tid, o: Oid)
    requires Inv(e) && Exceptions(e) && Enabled(e, Park(t, o))
    ensures Exceptions(DoPark(e, t, o))
  {
    hide Exceptions;
    ExceptionsKept(e, Park(t, o));
  }

  /** A call is a wake-up and then a park, as the engine sees it. */
  lemma ExceptionsOfCall(w: World, c: Tid, o: Oid, out: Outcome)
    requires WorldInv(w) && Calling(w, c, o, out) && Exceptions(w.e)
    ensures Exceptions(After(w, c, o, out).e)
  {
    hide Exceptions, Apply, Lists, Accounts, Roots, FiberOk, PcOk, Linked;
    var e1 := WakeUp(w.e, out.wakes);
    WakeUpKeepsInv(w, o, out.wakes);
    if out.wakes.Some? {
      assert FiberOk(w.e, out.wakes.value.fiber);
      ExceptionsOfWake(w.e, c, out.wakes.value.sched, out.wakes.value.fiber);
    }
    if out.parks { ExceptionsOfPark(e1, c, o); }
  }

  lemma {:induction false} RunExceptions(tr: seq<World>, i: nat)
    requires IsRun(tr) && i < |tr| && CleanTo(tr, i)
    ensures Exceptions(tr[i].e)
  {
    hide Exceptions, WorldInv, Apply, Enabled, Perform, Legal, Clean, WorldStarts;
    if i == 0 {
      StartExceptions(tr[0]);
    } else {
      RunExceptions(tr, i - 1);
      RunHoldsInv(tr, i - 1);
      assert WorldStep(tr[i - 1], tr[i - 1 + 1]);
      var a :| Follows(tr[i - 1], a, tr[i]);
      match a
      case Run(ev) =>
        assert Follows(tr[i - 1], Run(ev), tr[i - 1 + 1]);
        ExceptionsKept(tr[i - 1].e, ev);
      case Call(c, o, op) =>
        CallerCalls(tr[i - 1], c, o, op);
        ExceptionsOfCall(tr[i - 1], c, o, Perform(tr[i - 1].objs[o], c, Self(tr[i - 1].e, c), op));
    }
  }

  /** A run loop rethrows exactly if the fiber that came back to it has failed by the time it
      looks: there and then, or since then on another thread. */
  lemma RethrowsIffFailed(tr: seq<World>, i: nat, t: Tid)
    requires IsRun(tr) && i < |tr| && CleanTo(tr, i) && t < |tr[i].e.threads| && tr[i].e.threads[t].pc.Landed?
    ensures tr[i].e.threads[t].pc.y in tr[i].e.fibers
    ensures Rethrows(tr[i].e, t) <==> Failed(tr[i].e, tr[i].e.threads[t].pc.y)
    ensures !Fails(tr[i].e, t)
  {
    RunExceptions(tr, i);
    RunHoldsInv(tr, i);
    assert ThreadOk(tr[i].e, t) && ThrownOk(tr[i].e, tr[i].e.threads[t].pc.y);
  }

  /** What a functor throws always reaches the run loop it ended on. */
  lemma FunctorExceptionArrives(tr: seq<World>, i: nat, t: Tid)
    requires IsRun(tr) && i < |tr| && CleanTo(tr, i) && t < |tr[i].e.threads|
    requires var pc := tr[i].e.threads[t].pc;
             pc.Landed? && pc.last == Except && pc.y in tr[i].e.fibers && tr[i].e.fibers[pc.y].own
    ensures Rethrows(tr[i].e, t)
  {
    RunExceptions(tr, i);
    assert LandedOk(tr[i].e, t) && ThrownOk(tr[i].e, tr[i].e.threads[t].pc.y);
  }
}

/** The end of a run loop on a hijacked thread.

    run() of a hijacked thread is the functor of a fiber, and when it returns or throws that
    fiber resumes the one that first left the thread to it, or last called stop(), wherever that one
    is by then.
    This is right while that fiber is the native one of the thread and is suspended in stop() or
    dispatch(), and wrong whenever it is another, or waits for anything else. */
module HijackedRuns {
  import opened Common
  import opened Scheduling
  import opened FiberEngine
  import opened EngineSafety
  import opened FiberSync
  import opened World
  import opened StopCalls

  // ----- exactly the clean runs are safe -----

  /** A hijacked thread whose run loop is over is back with its own fiber. */
  predicate BackHome(e: Engine, t: Tid)
    requires t < |e.threads|
  {
    var th := e.threads[t];
    th.outside && (th.pc.SwitchIn? || th.pc == ArriveIn || th.pc == User) ==> th.current == th.native
  }

  ghost predicate Safe(w: World) {
    && (forall t :: 0 <= t < |w.e.threads| ==> AssertsHold(w.e, t))
    && (forall t, u :: 0 <= t < |w.e.threads| && 0 <= u < |w.e.threads| ==> OneStack(w.e, t, u))
    && (forall x: Waiter, o :: x.fiber in w.e.fibers && 0 <= o < |w.objs| ==> OnceInObject(w, x, o))
    && (forall f, s :: f in w.e.fibers && 0 <= s < |w.e.scheds| ==> OnceInQueue(w.e, f, s))
    && (forall f, t :: f in w.e.fibers && 0 <= t < |w.e.threads| ==> OnceInBatch(w.e, f, t))
    && (forall t :: 0 <= t < |w.e.threads| ==> BackAsOwner(w, t) && BackHome(w.e, t))
  }

  /** No assertion fails when the run loop ends, and nobody returns from a stop() or dispatch() that
      waits for another one. */
  predicate EndsWell(e: Engine, t: Tid)
    requires t < |e.threads|
  {
    && EndAsserts(e, t)
    && var p := e.fibers[EndsTo(e, t).value].place;
       p.Awaits? ==> p.t == t
  }

  /** Every state is safe, and every run loop that ends, ends well. */
  ghost predicate SafeRun(tr: seq<World>) {
    && (forall i :: 0 <= i < |tr| ==> Safe(tr[i]))
    && (forall i, t | 0 <= i < |tr| - 1 && Follows(tr[i], Run(End(t)), tr[i + 1]) :: EndsWell(tr[i].e, t))
  }

  /** The native fiber of a thread whose run loop is over, if it does not await that, is on a
      list, is about to be resumed by another thread, or is still executing. */
  lemma Elsewhere(e: Engine, t: Tid, c: Fid)
    requires Inv(e) && t < |e.threads| && e.threads[t].pc.Ending? && c == e.threads[t].native
    requires c in e.fibers && e.fibers[c].place != Awaits(t) && EndsTo(e, t) == Some(c) && Hijacked(e.threads[t])
    ensures EndsWell(e, t) ==>
              var p := e.fibers[c].place;
              || p.Queued? || p.Batched? || p.Away?
              || (p.Held? && p.t < |e.threads| && p.t != t && e.threads[p.t].pc == Resume(c))
  {
    hide Inv;
    NativePlace(e, t, c);
    if EndsWell(e, t) && e.fibers[c].place.Held? { NativeHeld(e, t, c); }
  }

  /** A native fiber is nobody's run fiber but its own thread's, and never at rest. */
  lemma NativePlace(e: Engine, t: Tid, c: Fid)
    requires Inv(e) && t < |e.threads| && Hijacked(e.threads[t]) && c == e.threads[t].native
    ensures c in e.fibers
    ensures var p := e.fibers[c].place; p.Queued? || p.Batched? || p.Away? || p.Held? || p.Awaits?
  {
    hide Shape, Lists, Accounts;
    assert !e.fibers[c].stack;
    StacklessPlace(e, c);
  }

  /** A fiber without a stack of its own may only be the run fiber of a spawned thread. */
  lemma StacklessPlace(e: Engine, c: Fid)
    requires Shape(e) && c in e.fibers && !e.fibers[c].stack
    ensures var p := e.fibers[c].place;
            || p.Queued? || p.Batched? || p.Away? || p.Held? || p.Awaits?
            || (p.LoopOf? && p.t < |e.threads| && c == e.threads[p.t].run && !Hijacked(e.threads[p.t]))
  {
    hide PcOk, SpareOk;
    assert FiberOk(e, c);
    var p := e.fibers[c].place;
    if p.LoopOf? || p.IdleOf? { assert ThreadOk(e, p.t); }
  }

  lemma NativeHeld(e: Engine, t: Tid, c: Fid)
    requires Inv(e) && t < |e.threads| && e.threads[t].pc.Ending? && c in e.fibers && e.fibers[c].place.Held?
    requires e.fibers[c].state in {Init, Hold}
    ensures var p := e.fibers[c].place; p.t < |e.threads| && p.t != t && e.threads[p.t].pc == Resume(c)
  {
    hide Lists, Accounts, Roots;
    assert FiberOk(e, c);
    assert ThreadOk(e, e.fibers[c].place.t);
  }

  /** What the end of a run loop writes, whoever it returns to. */
  lemma EndTakes(e: Engine, t: Tid, c: Fid, e': Engine)
    requires Enabled(e, End(t)) && EndsTo(e, t) == Some(c) && c in e.fibers && e' == DoEnd(e, t)
    ensures c in e'.fibers && e'.fibers[c].place == Held(t) && e'.fibers[c].state == Exec
    ensures e'.scheds == e.scheds && |e'.threads| == |e.threads| && e'.threads[t].batch == e.threads[t].batch
    ensures forall u :: 0 <= u < |e.threads| && u != t ==> e'.threads[u] == e.threads[u]
    ensures e'.threads[t].pc == SwitchIn(c) && e'.threads[t].current == c && e'.threads[t].outside
    ensures e'.threads[t].native == e.threads[t].native
    ensures e'.fibers[c].yielder == Some(e.threads[t].current) && e'.fibers[c].next == e.threads[t].pc.last
    ensures e'.fibers[c].stack == e.fibers[c].stack && e'.fibers[c].terminateOuter == e.fibers[c].terminateOuter
  {
  }

  /** A fiber on a list and on a thread at once. */
  lemma QueuedTwice(e: Engine, e': Engine, c: Fid, t: Tid)
    requires Lists(e) && e'.scheds == e.scheds && t < |e.threads| == |e'.threads|
    requires forall u :: 0 <= u < |e.threads| ==> e'.threads[u].batch == e.threads[u].batch
    requires c in e.fibers && c in e'.fibers && e'.fibers[c].place == Held(t)
    ensures var p := e.fibers[c].place;
            && (p.Queued? && p.s < |e.scheds| ==> !OnceInQueue(e', c, p.s))
            && (p.Batched? && p.t < |e.threads| ==> !OnceInBatch(e', c, p.t))
  {
    var p := e.fibers[c].place;
    if p.Queued? && p.s < |e.scheds| { assert QueueOk(e, p.s) && Count(e.scheds[p.s].queue, c) == 1; }
    if p.Batched? && p.t < |e.threads| { assert BatchOk(e, p.t) && Count(e.threads[p.t].batch, c) == 1; }
  }

  lemma ReturnsTo(e: Engine, t: Tid)
    requires Inv(e) && t < |e.threads| && e.threads[t].pc.Ending? && ClaimOk(e, t)
    ensures e.threads[t].run in e.fibers && Hijacked(e.threads[t]) && !e.threads[t].asks
    ensures EndsTo(e, t) == e.fibers[e.threads[t].run].terminateOuter
    ensures EndsTo(e, t).Some? && (Claimed(e, t) <==> EndsTo(e, t).value != e.threads[t].native)
    ensures Awaited(e, t) <==> InStop(e, t) && !Claimed(e, t)
  {
    assert ThreadOk(e, t) && FiberOk(e, e.threads[t].run);
  }

  /** A run loop that returns to another fiber than the native one: the thread is not given back, and
      if that fiber has a stack of its own there is nowhere for it to go when it ends. */
  lemma ClaimedIsUnsafe(w: World, t: Tid, w': World)
    requires WorldInv(w) && Follows(w, Run(End(t)), w') && ClaimOk(w.e, t) && Claimed(w.e, t)
    ensures !Safe(w')
    ensures EndsTo(w.e, t).Some? && EndsTo(w.e, t).value in w.e.fibers
    ensures w.e.fibers[EndsTo(w.e, t).value].stack ==> t < |w'.e.threads| && !AssertsHold(w'.e, t)
  {
    hide Inv, DoEnd, EndsTo;
    ReturnsTo(w.e, t);
    var c := EndsTo(w.e, t).value;
    EndTakes(w.e, t, c, w'.e);
    ClaimantReturns(w.e, t, c);
    assert !BackHome(w'.e, t);
  }

  lemma ClaimantReturns(e: Engine, t: Tid, c: Fid)
    requires Inv(e) && t < |e.threads| && e.threads[t].pc.Ending? && c in e.fibers && e.fibers[c].place == Awaits(t)
    ensures e.threads[t].current == e.threads[t].run && e.threads[t].pc.last in {Term, Except} && !e.threads[t].asks
    ensures e.fibers[c].stack ==> e.fibers[c].terminateOuter == Some(e.threads[t].run)
  {
    assert ThreadOk(e, t) && FiberOk(e, c);
  }

  lemma UnawaitedIsUnsafe(w: World, t: Tid, w': World)
    requires WorldInv(w) && Follows(w, Run(End(t)), w') && ClaimOk(w.e, t)
    requires !Awaited(w.e, t) && EndsWell(w.e, t)
    ensures !Safe(w')
  {
    hide ClaimOk, Claimed, Inv, Linked, OwnerOk, ObjOk, PendingOk, Safe, Apply;
    ReturnsTo(w.e, t);
    if Claimed(w.e, t) { ClaimedIsUnsafe(w, t, w'); } else { ElsewhereIsUnsafe(w, t, w'); }
  }

  lemma ElsewhereIsUnsafe(w: World, t: Tid, w': World)
    requires WorldInv(w) && Follows(w, Run(End(t)), w') && EndsTo(w.e, t) == Some(w.e.threads[t].native)
    requires !InStop(w.e, t) && EndsWell(w.e, t) && Hijacked(w.e.threads[t])
    ensures !Safe(w')
  {
    hide Occupies, HeldBy, ThreadOk, DoEnd, EndsWell, EndsTo, Accounts, Roots, PendingOk, OwnerOk, ObjOk;
    var c := w.e.threads[t].native;
    NativePlace(w.e, t, c);
    var p := w.e.fibers[c].place;
    Elsewhere(w.e, t, c);
    EndTakes(w.e, t, c, w'.e);
    assert FiberOk(w.e, c);
    match p
    case Queued(s) => QueuedTwice(w.e, w'.e, c, t);
    case Batched(u) => QueuedTwice(w.e, w'.e, c, t);
    case Away(s, o) => AwayTwice(w, w', c, s, o, t);
    case Held(u) => ResumedElsewhere(w.e, w'.e, c, u);
  }

  lemma AwayTwice(w: World, w': World, c: Fid, s: Sid, o: Oid, t: Tid)
    requires o < |w.objs| && Linked(w, o) && w'.objs == w.objs && c in w.e.fibers && c in w'.e.fibers
    requires w.e.fibers[c].place == Away(s, o) && w'.e.fibers[c].place == Held(t)
    ensures !OnceInObject(w', Waiter(s, c), o)
  {
    assert PlacedAt(w.e, Waiter(s, c), o);
  }

  lemma ResumedElsewhere(e: Engine, e': Engine, c: Fid, u: Tid)
    requires u < |e.threads| == |e'.threads| && e'.threads[u] == e.threads[u] && e.threads[u].pc == Resume(c)
    requires c in e'.fibers && e'.fibers[c].state == Exec
    ensures !AssertsHold(e', u)
  {
  }

  /** stop() that yields on a spawned thread fails the assertion that it is on the root thread. */
  lemma StopElsewhereIsUnsafe(w: World, t: Tid, w': World)
    requires WorldInv(w) && Follows(w, Run(Await(t, true)), w') && !Hijacked(w.e.threads[t])
    ensures t < |w'.e.threads| && !AssertsHold(w'.e, t) && !Safe(w')
  {
    hide FiberOk, Lists, Accounts, Roots, HijackOk, SpareOk;
    assert ThreadOk(w.e, t);
  }

  lemma SafeStepIsClean(w: World, ev: Move, w': World)
    requires WorldInv(w) && Follows(w, Run(ev), w') && ClaimOk(w.e, ev.t) && Safe(w')
    requires ev.End? ==> EndsWell(w.e, ev.t)
    ensures Clean(w.e, ev)
  {
    hide WorldInv, Safe, ClaimOk, Apply;
    if ev.End? && !Awaited(w.e, ev.t) { UnawaitedIsUnsafe(w, ev.t, w'); }
    if ev.Await? && ev.ask && !Hijacked(w.e.threads[ev.t]) { StopElsewhereIsUnsafe(w, ev.t, w'); }
  }

  lemma InvBackHome(e: Engine, t: Tid)
    requires Inv(e) && t < |e.threads|
    ensures BackHome(e, t)
  {
    assert ThreadOk(e, t);
  }

  lemma CleanIsSafe(tr: seq<World>, i: nat)
    requires IsRun(tr) && i < |tr| && CleanTo(tr, i)
    ensures Safe(tr[i])
  {
    var w := tr[i];
    forall t | 0 <= t < |w.e.threads| ensures AssertsHold(w.e, t) && BackAsOwner(w, t) && BackHome(w.e, t) {
      NoFiberRunsTwice(tr, i, t, t);
      RunHoldsInv(tr, i);
      InvBackHome(w.e, t);
      ParkedFiberReturnsAsOwner(tr, i, t);
    }
    forall t, u | 0 <= t < |w.e.threads| && 0 <= u < |w.e.threads| ensures OneStack(w.e, t, u) {
      NoFiberRunsTwice(tr, i, t, u);
    }
    forall x: Waiter, o | x.fiber in w.e.fibers && 0 <= o < |w.objs| ensures OnceInObject(w, x, o) {
      WaitsInOnePlace(tr, i, x, o, 0, 0);
    }
    forall f, s | f in w.e.fibers && 0 <= s < |w.e.scheds| ensures OnceInQueue(w.e, f, s) {
      WaitsInOnePlace(tr, i, Waiter(0, f), 0, s, 0);
    }
    forall f, t | f in w.e.fibers && 0 <= t < |w.e.threads| ensures OnceInBatch(w.e, f, t) {
      WaitsInOnePlace(tr, i, Waiter(0, f), 0, 0, t);
    }
  }

  lemma {:induction false} SafeIsClean(tr: seq<World>, n: nat)
    requires IsRun(tr) && SafeRun(tr)
    ensures CleanTo(tr, n)
  {
    if n > 0 {
      SafeIsClean(tr, n - 1);
      var i := n - 1;
      if i + 1 < |tr| {
        RunHoldsInv(tr, i);
        var w, w' := tr[i], tr[i + 1];
        forall ev | Follows(w, Run(ev), w') ensures Clean(w.e, ev) {
          assert Safe(w');
          assert ev.End? ==> Follows(tr[i], Run(End(ev.t)), tr[i + 1]);
          ClaimedIffOvertaken(tr, i, ev.t);
          SafeStepIsClean(w, ev, w');
        }
        CleanSnoc(tr, i);
      }
    }
  }

  lemma AwaitedAsserts(e: Engine, t: Tid)
    requires Inv(e) && Enabled(e, End(t)) && Awaited(e, t)
    ensures EndsWell(e, t)
  {
    hide Lists, Accounts, Roots, FiberOk, ThreadOk;
    var c := e.threads[t].native;
    EndFacts(e, t, c);
  }

  /** A run is safe throughout exactly if every hijacked run loop that ends in it returns to the native
      fiber, which waits for that and for nothing else, and stop() yields on root threads only. */
  lemma SafeIffClean(tr: seq<World>)
    requires IsRun(tr)
    ensures SafeRun(tr) <==> CleanRun(tr)
  {
    if SafeRun(tr) { SafeIsClean(tr, |tr|); }
    if CleanRun(tr) {
      forall i | 0 <= i < |tr| ensures Safe(tr[i]) { CleanIsSafe(tr, i); }
      forall i, t | 0 <= i < |tr| - 1 && Follows(tr[i], Run(End(t)), tr[i + 1]) ensures EndsWell(tr[i].e, t) {
        RunHoldsInv(tr, i);
        assert Clean(tr[i].e, End(t));
        AwaitedAsserts(tr[i].e, t);
      }
    }
  }

  // ----- what client code can see of it -----

  /** What the step asks of the callers of stop(), dispatch() and everything that blocks: at the end of a
      run loop the native fiber is in stop() or dispatch() and no other fiber's stop() was the last,
      and stop() yields only on root threads. */
  ghost predicate Undisturbed(tr: seq<World>, i: nat, ev: Move) {
    && i < |tr| && ev.t < |tr[i].e.threads|
    && (ev.End? ==> InStop(tr[i].e, ev.t) && !Overtaken(tr, i, ev.t))
    && (ev.Await? && ev.ask ==> Hijacked(tr[i].e.threads[ev.t]))
  }

  ghost predicate UndisturbedTo(tr: seq<World>, n: nat) {
    forall i, ev | 0 <= i < n && i + 1 < |tr| && Follows(tr[i], Run(ev), tr[i + 1]) :: Undisturbed(tr, i, ev)
  }

  lemma CleanIffUndisturbed(tr: seq<World>, i: nat, ev: Move)
    requires IsRun(tr) && i + 1 < |tr| && CleanTo(tr, i) && Follows(tr[i], Run(ev), tr[i + 1])
    ensures Clean(tr[i].e, ev) <==> Undisturbed(tr, i, ev)
  {
    hide WorldInv, IsRun, Claimed, ClaimOk, Overtaken, Awaited, InStop, Next;
    RunHoldsInv(tr, i);
    ClaimedIffOvertaken(tr, i, ev.t);
    if ev.End? { EndOfWorld(tr[i], ev.t); }
  }

  lemma EndOfWorld(w: World, t: Tid)
    requires WorldInv(w) && t < |w.e.threads| && w.e.threads[t].pc.Ending? && ClaimOk(w.e, t)
    ensures Awaited(w.e, t) <==> InStop(w.e, t) && !Claimed(w.e, t)
  {
    ReturnsTo(w.e, t);
  }

  lemma {:induction false} UndisturbedIsClean(tr: seq<World>, n: nat)
    requires IsRun(tr)
    ensures UndisturbedTo(tr, n) <==> CleanTo(tr, n)
  {
    hide Clean, Undisturbed, Follows;
    if n > 0 {
      UndisturbedIsClean(tr, n - 1);
      if CleanTo(tr, n - 1) && n < |tr| {
        forall ev | Follows(tr[n - 1], Run(ev), tr[n - 1 + 1])
          ensures Clean(tr[n - 1].e, ev) <==> Undisturbed(tr, n - 1, ev)
        {
          CleanIffUndisturbed(tr, n - 1, ev);
        }
      }
    }
  }

  /** A run is safe throughout exactly if, whenever a hijacked run loop ends, the native fiber is suspended
      in stop() or dispatch() and was the last to call stop() there, and stop() never yields on a
      spawned thread. */
  lemma SafeIffUndisturbed(tr: seq<World>)
    requires IsRun(tr)
    ensures SafeRun(tr) <==> UndisturbedTo(tr, |tr|)
  {
    SafeIffClean(tr);
    UndisturbedIsClean(tr, |tr|);
  }

  // ----- schedulers that hijack no thread -----

  ghost predicate Unhijacked(e: Engine) { forall t :: 0 <= t < |e.threads| ==> !Hijacked(e.threads[t]) }

  lemma RolesKeptByMove(e: Engine, ev: Move, t: Tid)
    requires Enabled(e, ev) && t < |e.threads|
    ensures t < |Apply(e, ev).threads| && SameRoles(e.threads[t], Apply(e, ev).threads[t])
  {
    hide Apply, Enabled;
    StepThreads(e, ev);
  }

  lemma UnhijackedStep(w: World, a: Act)
    requires WorldInv(w) && Can(w, a) && Unhijacked(w.e)
    ensures CleanAct(w, a) && Unhijacked(Next(w, a).e)
  {
    hide Inv, Apply;
    match a
    case Run(ev) => UnhijackedMove(w.e, ev);
    case Call(c, o, op) => CallRoles(w, c, o, op);
  }

  lemma CallRoles(w: World, c: Tid, o: Oid, op: Op)
    requires WorldInv(w) && Can(w, Call(c, o, op)) && Unhijacked(w.e)
    ensures Unhijacked(DoCall(w, c, o, op).e)
  {
    hide Inv;
    var out := Perform(w.objs[o], c, Self(w.e, c), op);
    CallerCalls(w, c, o, op);
    WakeUpKeepsInv(w, o, out.wakes);
  }

  lemma UnhijackedMove(e: Engine, ev: Move)
    requires Inv(e) && Enabled(e, ev) && Unhijacked(e)
    ensures Clean(e, ev) && Unhijacked(Apply(e, ev))
  {
    hide Apply, Lists, Accounts, Roots;
    assert ThreadOk(e, ev.t);
    forall t | 0 <= t < |Apply(e, ev).threads| ensures !Hijacked(Apply(e, ev).threads[t]) {
      ThreadsKept(e, ev);
      RolesKeptByMove(e, ev, t);
    }
  }

  lemma {:induction false} UnhijackedIsClean(tr: seq<World>, i: nat)
    requires IsRun(tr) && i < |tr| && Unhijacked(tr[0].e)
    ensures CleanTo(tr, i) && Unhijacked(tr[i].e)
  {
    hide Next, Can, Clean, Unhijacked, WorldInv, WorldStarts;
    if i > 0 {
      UnhijackedIsClean(tr, i - 1);
      RunHoldsInv(tr, i - 1);
      assert WorldStep(tr[i - 1], tr[i - 1 + 1]);
      var a :| Follows(tr[i - 1], a, tr[i]);
      UnhijackedStep(tr[i - 1], a);
      forall ev | Follows(tr[i - 1], Run(ev), tr[i - 1 + 1]) ensures Clean(tr[i - 1].e, ev) {
        UnhijackedStep(tr[i - 1], Run(ev));
      }
      CleanSnoc(tr, i - 1);
    }
  }

  /** Without hijacked threads every run is safe. */
  lemma UnhijackedIsSafe(tr: seq<World>)
    requires IsRun(tr) && Unhijacked(tr[0].e)
    ensures CleanRun(tr) && SafeRun(tr)
  {
    UnhijackedIsClean(tr, |tr| - 1);
    assert CleanTo(tr, |tr|);
    SafeIffClean(tr);
  }
}

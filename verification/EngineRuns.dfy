/** Runs of the engine with any clients that schedule a parked fiber once: a fiber may park with whoever
    wakes it later, a single future, a fork-join helper or an object of the client's own, not only
    with the synchronization objects. Clients that schedule it several times are in WaitThreads. */
module EngineRuns {
  import opened Common
  import opened FiberEngine
  import opened EngineSafety

  ghost predicate Follows(e: Engine, ev: Move, e': Engine) { Enabled(e, ev) && e' == Apply(e, ev) }

  ghost predicate Leads(e: Engine, e': Engine) { exists ev :: Follows(e, ev, e') }

  ghost predicate IsRun(es: seq<Engine>) {
    && es != [] && Starts(es[0])
    && forall i :: 0 <= i < |es| - 1 ==> Leads(es[i], es[i + 1])
  }

  /** In the first n steps every hijacked run loop that ends is awaited, and stop() yields only on
      root threads. */
  ghost predicate CleanTo(es: seq<Engine>, n: nat) {
    forall i, ev | 0 <= i < n && i + 1 < |es| && Follows(es[i], ev, es[i + 1]) :: Clean(es[i], ev)
  }

  lemma {:induction false} RunHoldsInv(es: seq<Engine>, i: nat)
    requires IsRun(es) && i < |es| && CleanTo(es, i)
    ensures Inv(es[i])
  {
    if i == 0 {
      StartsInv(es[0]);
    } else {
      RunHoldsInv(es, i - 1);
      assert Leads(es[i - 1], es[i - 1 + 1]);
      var ev :| Follows(es[i - 1], ev, es[i]);
      assert Follows(es[i - 1], ev, es[i - 1 + 1]);
      StepKeepsInv(es[i - 1], ev);
    }
  }

  /** Whoever parks and wakes fibers, once each time, none is ever on two threads and no assertion of the fiber
      code fails. */
  lemma NoFiberRunsTwice(es: seq<Engine>, i: nat, t: Tid, u: Tid)
    requires IsRun(es) && i < |es| && CleanTo(es, i) && t < |es[i].threads| && u < |es[i].threads|
    ensures AssertsHold(es[i], t) && OneStack(es[i], t, u)
  {
    RunHoldsInv(es, i);
    InvAsserts(es[i], t);
    InvOneStack(es[i], t, u);
  }

  /** And a fiber leaves the executing state only in a step of its successor. */
  lemma ReleasedBySuccessor(es: seq<Engine>, i: nat, f: Fid, u: Tid) returns (t: Tid)
    requires IsRun(es) && i + 1 < |es| && CleanTo(es, i) && u < |es[i].threads|
    requires f in es[i].fibers && es[i].fibers[f].state == Exec
    requires f in es[i + 1].fibers ==> es[i + 1].fibers[f].state != Exec
    ensures t < |es[i].threads| && es[i].threads[t].pc in {ArriveIn, ArriveOut, ArriveBack}
    ensures es[i].threads[t].ctx in es[i].fibers && es[i].fibers[es[i].threads[t].ctx].yielder == Some(f)
    ensures es[i].threads[u].ctx != f
  {
    RunHoldsInv(es, i);
    assert Leads(es[i], es[i + 1]);
    var ev :| Follows(es[i], ev, es[i + 1]);
    t := ev.t;
    OnlySuccessorReleases(es[i], ev, f, u);
  }
}

/** The synchronization objects in runs of all threads: each one goes through a history of its own, of the calls
    made on it. */
module ObjectRuns {
  import opened Common
  import opened FiberEngine
  import opened EngineSafety
  import opened FiberSync
  import opened SyncHistory
  import opened World

  predicate On(a: Act, o: Oid) { a.Call? && a.o == o }

  /** The calls on an object in the first n steps, each by the fiber that ran on its thread. */
  ghost function CallsOn(tr: seq<World>, acts: seq<Act>, n: nat, o: Oid): seq<Called>
    requires IsRunOf(tr, acts) && n <= |acts|
  {
    if n == 0 then []
    else
      assert Follows(tr[n - 1], acts[n - 1], tr[n - 1 + 1]);
      CallsOn(tr, acts, n - 1, o) +
      if On(acts[n - 1], o) then [Called(acts[n - 1].t, Self(tr[n - 1].e, acts[n - 1].t), acts[n - 1].op)] else []
  }

  /** The states it was in, before the first of these calls and after each of them. */
  ghost function StatesOf(tr: seq<World>, acts: seq<Act>, n: nat, o: Oid): seq<Obj>
    requires IsRunOf(tr, acts) && n <= |acts|
  {
    if n == 0 then (if o < |tr[0].objs| then [tr[0].objs[o]] else [])
    else
      StatesOf(tr, acts, n - 1, o) + if On(acts[n - 1], o) && o < |tr[n].objs| then [tr[n].objs[o]] else []
  }

  lemma StepObject(w: World, a: Act, w': World, o: Oid)
    requires Follows(w, a, w') && o < |w.objs|
    ensures |w'.objs| == |w.objs|
    ensures On(a, o) ==> a.t < |w.e.threads| && Does(w.objs[o], Called(a.t, Self(w.e, a.t), a.op), w'.objs[o])
    ensures !On(a, o) ==> w'.objs[o] == w.objs[o]
  {
    hide Perform, Legal, Apply;
  }

  /** In every run each object goes through a history of exactly the calls made on it. */
  lemma {:induction false} ObjectHistory(tr: seq<World>, acts: seq<Act>, n: nat, o: Oid)
    requires IsRunOf(tr, acts) && n <= |acts| && o < |tr[0].objs|
    ensures |tr[n].objs| == |tr[0].objs| && IsHistory(StatesOf(tr, acts, n, o), CallsOn(tr, acts, n, o))
    ensures StatesOf(tr, acts, n, o)[0] == tr[0].objs[o]
    ensures StatesOf(tr, acts, n, o)[|CallsOn(tr, acts, n, o)|] == tr[n].objs[o]
  {
    hide Follows, Does, FreshObj, Self;
    if n > 0 {
      ObjectHistory(tr, acts, n - 1, o);
      var a := acts[n - 1];
      assert Follows(tr[n - 1], a, tr[n - 1 + 1]);
      StepObject(tr[n - 1], a, tr[n], o);
      var xs, ks := StatesOf(tr, acts, n - 1, o), CallsOn(tr, acts, n - 1, o);
      if On(a, o) { HistorySnoc(xs, ks, Called(a.t, Self(tr[n - 1].e, a.t), a.op), tr[n].objs[o]); }
    }
  }

  /** In every run a mutex is owned in the order in which it was asked for. */
  lemma MutexInOrder(tr: seq<World>, acts: seq<Act>, n: nat, o: Oid)
    requires IsRunOf(tr, acts) && n <= |acts| && o < |tr[0].objs| && tr[0].objs[o].Monitor?
    ensures o < |tr[n].objs| && tr[n].objs[o].Monitor?
    ensures var xs, ks := StatesOf(tr, acts, n, o), CallsOn(tr, acts, n, o);
            && IsHistory(xs, ks)
            && Serves(tr[n].objs[o].mutex, Log(xs, ks, |ks|, Asks), HowOften(xs, ks, |ks|, GivesUp))
  {
    hide Log, HowOften, IsHistory, IsRunOf, StatesOf, CallsOn;
    ObjectHistory(tr, acts, n, o);
    MutexServesInOrder(StatesOf(tr, acts, n, o), CallsOn(tr, acts, n, o), |CallsOn(tr, acts, n, o)|);
  }

  /** In every run as many fibers have left a condition as signals found somebody there, plus all those whom
      broadcasts found, and they left in the order in which they came. */
  lemma NoSignalLost(tr: seq<World>, acts: seq<Act>, n: nat, o: Oid, c: nat)
    requires IsRunOf(tr, acts) && n <= |acts| && o < |tr[0].objs|
    requires tr[0].objs[o].Monitor? && c < |tr[0].objs[o].conds|
    ensures o < |tr[n].objs| && tr[n].objs[o].Monitor? && c < |tr[n].objs[o].conds|
    ensures var xs, ks := StatesOf(tr, acts, n, o), CallsOn(tr, acts, n, o);
            && IsHistory(xs, ks)
            && var came, gone := Log(xs, ks, |ks|, Comes(c)), HowOften(xs, ks, |ks|, Goes(c));
               gone <= |came| && Names(tr[n].objs[o].conds[c].list) == came[gone..]
  {
    hide Log, HowOften, IsHistory, IsRunOf, StatesOf, CallsOn;
    ObjectHistory(tr, acts, n, o);
    ConditionServesInOrder(StatesOf(tr, acts, n, o), CallsOn(tr, acts, n, o), |CallsOn(tr, acts, n, o)|, c);
  }

  /** In every run the permits of a semaphore go to those who wait in the order in which they came. */
  lemma PermitsInOrder(tr: seq<World>, acts: seq<Act>, n: nat, o: Oid)
    requires IsRunOf(tr, acts) && n <= |acts| && o < |tr[0].objs| && tr[0].objs[o].Semaphore?
    ensures o < |tr[n].objs| && tr[n].objs[o].Semaphore?
    ensures var xs, ks := StatesOf(tr, acts, n, o), CallsOn(tr, acts, n, o);
            && IsHistory(xs, ks)
            && Permits(tr[n].objs[o], Log(xs, ks, |ks|, Waits),
                       tr[0].objs[o].initial + HowOften(xs, ks, |ks|, Notifies))
  {
    hide Log, HowOften, IsHistory, IsRunOf, StatesOf, CallsOn;
    ObjectHistory(tr, acts, n, o);
    SemaphoreServesInOrder(StatesOf(tr, acts, n, o), CallsOn(tr, acts, n, o), |CallsOn(tr, acts, n, o)|);
  }

  /** In every run an automatic event lets pass no more waits than it was set, and loses only the sets that found
      it signalled or were reset; a manual one is signalled exactly if it was set and not reset since. */
  lemma EventsInRuns(tr: seq<World>, acts: seq<Act>, n: nat, o: Oid)
    requires IsRunOf(tr, acts) && n <= |acts| && o < |tr[0].objs| && tr[0].objs[o].Event?
    ensures o < |tr[n].objs| && tr[n].objs[o].Event?
    ensures var x, xs, ks := tr[n].objs[o], StatesOf(tr, acts, n, o), CallsOn(tr, acts, n, o);
            && IsHistory(xs, ks)
            && (tr[0].objs[o].autoReset ==>
              HowOften(xs, ks, |ks|, EvWaits) + (if x.signalled then 1 else 0) + HowOften(xs, ks, |ks|, Wasted) ==
              HowOften(xs, ks, |ks|, Sets) + |x.evWaiters|)
            && (!tr[0].objs[o].autoReset ==>
              (x.signalled <==> SetLast(ks)) && (x.signalled ==> x.evWaiters == []))
  {
    hide HowOften, IsHistory, SetLast, StatesOf, CallsOn;
    ObjectHistory(tr, acts, n, o);
    var xs, ks := StatesOf(tr, acts, n, o), CallsOn(tr, acts, n, o);
    if tr[0].objs[o].autoReset {
      AutomaticPassesOncePerSet(xs, ks, |ks|);
    } else {
      ManualPassesBetween(xs, ks, |ks|);
      assert ks[..|ks|] == ks;
    }
  }

  /** In every clean run a fiber that unlocks its last level is not the owner any more: the first
      in line is, or nobody. */
  lemma UnlockReleases(tr: seq<World>, n: nat, t: Tid, o: Oid)
    requires IsRun(tr) && n + 1 < |tr| && CleanTo(tr, n) && Follows(tr[n], Call(t, o, Unlock), tr[n + 1])
    requires tr[n].objs[o].depth == 1
    ensures o < |tr[n + 1].objs| && tr[n + 1].objs[o].Monitor?
    ensures tr[n + 1].objs[o].mutex.owner != Some(tr[n].e.threads[t].current)
    ensures var ws := tr[n].objs[o].mutex.waiters;
            tr[n + 1].objs[o].mutex.owner == if ws == [] then None else Some(ws[0].fiber)
  {
    hide Perform, MonitorOk;
    RunHoldsInv(tr, n);
    var x := tr[n].objs[o];
    assert ObjOk(x);
    StepObject(tr[n], Call(t, o, Unlock), tr[n + 1], o);
    UnlockHandsOn(x, t, Self(tr[n].e, t));
    if x.mutex.waiters != [] {
      var first := x.mutex.waiters[0];
      OccursAt(x.mutex.waiters, 0);
      assert Linked(tr[n], o) && OwnerOk(tr[n], o);
      assert Holds(x, first) > 0;
      assert PlacedAt(tr[n].e, first, o);
    }
  }
}

/** What is queued and started, against what was asked for: the run queues of every run compared
    with the calls made in it, task and thread included. */
module ScheduledItems {
  import opened Common
  import opened Scheduling
  import opened FiberEngine
  import opened EngineSafety
  import opened FiberSync
  import opened World

  /** A task for a scheduler. */
  datatype Ask = Ask(s: Sid, it: Item)

  /** The fiber that a call lets go on is queued on the scheduler it waited on, for any thread. */
  function WokenBy(w: World, t: Tid, o: Oid, op: Op): Option<Ask>
    requires t < |w.e.threads| && o < |w.objs| && Legal(w.objs[o], t, w.e.threads[t].current, op)
  {
    var x := Perform(w.objs[o], t, Waiter(w.e.threads[t].sched, w.e.threads[t].current), op).wakes;
    if x.Some? && x.value.sched < |w.e.scheds| && x.value.fiber in w.e.fibers
    then Some(Ask(x.value.sched, Item(FiberTask(x.value.fiber), None))) else None
  }

  /** What an engine step asks for: schedule(fiber, thread), schedule(functor, thread), switchTo(thread) by the
      fiber that runs, or, of any thread, that a parked fiber goes on. */
  function AskedBy(e: Engine, ev: Move): Option<Ask> {
    match ev
    case Schedule(_, s, f, bound) => Some(Ask(s, Item(FiberTask(f), bound)))
    case ScheduleDg(_, s, dg, bound) => Some(Ask(s, Item(DgTask(dg), bound)))
    case Wake(_, s, f) => Some(Ask(s, Item(FiberTask(f), None)))
    case SwitchTo(t, s, bound) =>
      if t < |e.threads| && e.threads[t].current in e.fibers
      then Some(Ask(s, Item(FiberTask(e.threads[t].current), bound))) else None
    case _ => None
  }

  ghost function Asked(w: World, a: Act): Option<Ask>
    requires Can(w, a)
  {
    match a case Run(ev) => AskedBy(w.e, ev) case Call(t, o, op) => WokenBy(w, t, o, op)
  }

  function For(x: Option<Ask>, s: Sid): seq<Item> { if x.Some? && x.value.s == s then [x.value.it] else [] }

  /** A step that takes tasks out of a queue, or puts a batch back into it. */
  predicate TakesFrom(w: World, a: Act, s: Sid) {
    a.Run? && (a.ev.Select? || a.ev.Requeue?) && a.ev.t < |w.e.threads| && w.e.threads[a.ev.t].sched == s
  }

  /** What a step asks for, and nothing else, is appended to the queue and to its history. */
  predicate Appends(x: Sched, x': Sched, items: seq<Item>) {
    x'.queue == x.queue + items && x'.issued == x.issued + multiset(items)
  }

  lemma PushAppends(e: Engine, e': Engine, r: Sid, it: Item, s: Sid)
    requires s < |e.scheds| && r < |e.scheds| && e'.scheds == Push(e, r, it).scheds
    ensures s < |e'.scheds| && Appends(e.scheds[s], e'.scheds[s], For(Some(Ask(r, it)), s))
    ensures e'.scheds[s].started == e.scheds[s].started
  {
  }

  lemma CallAppends(w: World, t: Tid, o: Oid, op: Op, s: Sid)
    requires Can(w, Call(t, o, op)) && s < |w.e.scheds|
    ensures var w' := Next(w, Call(t, o, op));
            && s < |w'.e.scheds| && Appends(w.e.scheds[s], w'.e.scheds[s], For(WokenBy(w, t, o, op), s))
            && w'.e.scheds[s].started == w.e.scheds[s].started
  {
    hide Perform, Legal;
    var x := WokenBy(w, t, o, op);
    var w' := Next(w, Call(t, o, op));
    if x.Some? { PushAppends(w.e, w'.e, x.value.s, x.value.it, s); }
    else { assert w'.e.scheds == w.e.scheds; }
  }

  predicate Schedules(ev: Move) { ev.Schedule? || ev.ScheduleDg? || ev.SwitchTo? || ev.Wake? }

  lemma MoveAppends(e: Engine, ev: Move, s: Sid)
    requires Enabled(e, ev) && Schedules(ev) && s < |e.scheds|
    ensures s < |Apply(e, ev).scheds| && Appends(e.scheds[s], Apply(e, ev).scheds[s], For(AskedBy(e, ev), s))
    ensures Apply(e, ev).scheds[s].started == e.scheds[s].started
  {
    var x := AskedBy(e, ev);
    if x.Some? { PushAppends(e, Apply(e, ev), x.value.s, x.value.it, s); }
  }

  lemma SelectSched(e: Engine, t: Tid, busy: set<Fid>, s: Sid)
    requires Enabled(e, Select(t, busy)) && s < |e.scheds|
    ensures s < |DoSelect(e, t, busy).scheds| && DoSelect(e, t, busy).scheds[s].issued == e.scheds[s].issued
    ensures DoSelect(e, t, busy).scheds[s].started == e.scheds[s].started
    ensures e.threads[t].sched != s ==> DoSelect(e, t, busy).scheds[s] == e.scheds[s]
  {
  }

  lemma RequeueSched(e: Engine, t: Tid, s: Sid)
    requires Enabled(e, Requeue(t)) && s < |e.scheds|
    ensures s < |DoRequeue(e, t).scheds| && DoRequeue(e, t).scheds[s].issued == e.scheds[s].issued
    ensures DoRequeue(e, t).scheds[s].started == e.scheds[s].started
    ensures e.threads[t].sched != s ==> DoRequeue(e, t).scheds[s] == e.scheds[s]
  {
  }

  lemma PopSched(e: Engine, t: Tid, n: Fid, s: Sid)
    requires Enabled(e, Pop(t, n)) && s < |e.scheds|
    ensures s < |DoPop(e, t, n).scheds| && DoPop(e, t, n).scheds[s].issued == e.scheds[s].issued
    ensures DoPop(e, t, n).scheds[s].queue == e.scheds[s].queue
  {
    hide DoPop;
    PopForm(e, t, n, e.threads[t].batch[|e.threads[t].batch| - 1], DoPop(e, t, n));
  }

  /** A step that schedules nothing: only a pass of a run loop, or one that fails, changes a queue,
      and only the start of a task is recorded as one. */
  lemma MoveKeeps(e: Engine, ev: Move, s: Sid)
    requires Enabled(e, ev) && !Schedules(ev) && s < |e.scheds|
    ensures ev.t < |e.threads| && s < |Apply(e, ev).scheds| && Apply(e, ev).scheds[s].issued == e.scheds[s].issued
    ensures ev.Pop? || Apply(e, ev).scheds[s].started == e.scheds[s].started
    ensures ((ev.Select? || ev.Requeue?) && e.threads[ev.t].sched == s) ||
            Apply(e, ev).scheds[s].queue == e.scheds[s].queue
  {
    hide DoSelect, DoPop, DoRequeue;
    match ev
    case Select(t, busy) => SelectSched(e, t, busy, s);
    case Requeue(t) => RequeueSched(e, t, s);
    case Pop(t, n) => PopSched(e, t, n, s);
    case _ => QuietLists(e, ev, s);
  }

  /** Every step appends exactly what it asks for, task and thread, at the end of the queue
      it names, and to no other; only a pass of a run loop, or one that fails, changes a queue otherwise. */
  lemma QueuedAsAsked(w: World, a: Act, s: Sid)
    requires Can(w, a) && s < |w.e.scheds|
    ensures s < |Next(w, a).e.scheds|
    ensures Next(w, a).e.scheds[s].issued == w.e.scheds[s].issued + multiset(For(Asked(w, a), s))
    ensures !TakesFrom(w, a, s) ==> Next(w, a).e.scheds[s].queue == w.e.scheds[s].queue + For(Asked(w, a), s)
    ensures (a.Run? && a.ev.Pop?) || Next(w, a).e.scheds[s].started == w.e.scheds[s].started
  {
    hide Apply, Enabled, DoCall;
    match a
    case Call(t, o, op) => CallAppends(w, t, o, op, s);
    case Run(ev) => if Schedules(ev) { MoveAppends(w.e, ev, s); } else { MoveKeeps(w.e, ev, s); }
  }

  /** A pass of a run loop takes, in order and at most as many as a batch holds, the tasks of a first part of
      the queue that are for this thread and not executing; it stops before the end only if the batch is full. */
  lemma PassTakes(w: World, t: Tid, busy: set<Fid>) returns (cut: nat)
    requires Can(w, Run(Select(t, busy)))
    ensures var w' := Next(w, Run(Select(t, busy)));
            var s := w.e.threads[t].sched;
            var q := w.e.scheds[s].queue;
            && s < |w'.e.scheds| && t < |w'.e.threads| && cut <= |q|
            && w'.e.threads[t].batch == EligibleOf(q[..cut], t, busy)
            && w'.e.scheds[s].queue == IneligibleOf(q[..cut], t, busy) + q[cut..]
            && |w'.e.threads[t].batch| <= w.e.scheds[s].batchSize
            && (|w'.e.threads[t].batch| < w.e.scheds[s].batchSize ==> cut == |q|)
            && (w'.e.threads[t].active <==> w'.e.threads[t].batch != [])
  {
    var sc := w.e.scheds[w.e.threads[t].sched];
    TakenAreEligible(sc.queue, t, busy, sc.batchSize);
    cut := RestKeepsOrder(sc.queue, t, busy, sc.batchSize);
  }

  /** When a task throws, the rest of the batch goes to the end of the queue, in order. */
  lemma FailedPassPutsBack(w: World, t: Tid)
    requires Can(w, Run(Requeue(t)))
    ensures var w' := Next(w, Run(Requeue(t)));
            var s := w.e.threads[t].sched;
            && s < |w'.e.scheds| && t < |w'.e.threads| && w'.e.threads[t].batch == [] && !w'.e.threads[t].active
            && w'.e.scheds[s].queue == w.e.scheds[s].queue + w.e.threads[t].batch
  {
    assert Drop(w.e, t).threads[t].batch == w.e.threads[t].batch;
  }

  /** In clean runs nothing is left out: whoever is to go on, and whoever switches, is a fiber
      of the engine and is queued. */
  lemma NobodyLeftOut(tr: seq<World>, n: nat, a: Act)
    requires IsRun(tr) && n < |tr| && CleanTo(tr, n) && Can(tr[n], a)
    ensures a.Run? && Schedules(a.ev) ==> Asked(tr[n], a).Some?
    ensures a.Call? ==>
              var x := Perform(tr[n].objs[a.o], a.t, Self(tr[n].e, a.t), a.op).wakes;
              x.Some? ==> Asked(tr[n], a) == Some(Ask(x.value.sched, Item(FiberTask(x.value.fiber), None)))
  {
    hide Perform, Legal;
    RunHoldsInv(tr, n);
    match a
    case Run(ev) => if ev.SwitchTo? { assert ThreadOk(tr[n].e, ev.t); }
    case Call(t, o, op) =>
      var x := Perform(tr[n].objs[o], t, Self(tr[n].e, t), op).wakes;
      if x.Some? {
        WokenIsPlaced(tr[n], t, o, op);
        PlacedHere(tr[n].e, x.value, o);
      }
  }

  // ----- over runs -----

  /** What the first n steps asked of a scheduler, in order. */
  ghost function AllAsked(tr: seq<World>, acts: seq<Act>, n: nat, s: Sid): seq<Item>
    requires IsRunOf(tr, acts) && n <= |acts|
  {
    if n == 0 then []
    else
      assert Follows(tr[n - 1], acts[n - 1], tr[n - 1 + 1]);
      AllAsked(tr, acts, n - 1, s) + For(Asked(tr[n - 1], acts[n - 1]), s)
  }

  /** Every task that was asked for, with its thread, is queued, or taken by a thread, or started:
      as often as it was asked for, and nothing else is. */
  lemma {:induction false} AskedAreServed(tr: seq<World>, acts: seq<Act>, n: nat, s: Sid, it: Item)
    requires IsRunOf(tr, acts) && n <= |acts| && s < |tr[0].e.scheds|
    ensures s < |tr[n].e.scheds| && tr[n].e.scheds[s].issued == multiset(AllAsked(tr, acts, n, s))
    ensures multiset(AllAsked(tr, acts, n, s))[it] ==
            multiset(tr[n].e.scheds[s].queue)[it] + InBatches(tr[n].e.threads, s, it) + tr[n].e.scheds[s].started[it]
  {
    IssuedAsAsked(tr, acts, n, s);
    RunOfIsRun(tr, acts);
    NothingLost(tr, n, s, it);
  }

  lemma {:induction false} IssuedAsAsked(tr: seq<World>, acts: seq<Act>, n: nat, s: Sid)
    requires IsRunOf(tr, acts) && n <= |acts| && s < |tr[0].e.scheds|
    ensures s < |tr[n].e.scheds| && tr[n].e.scheds[s].issued == multiset(AllAsked(tr, acts, n, s))
  {
    hide Can, Next, WorldStarts, Asked, For;
    if n == 0 {
      NothingIssued(tr[0], s);
    } else {
      IssuedAsAsked(tr, acts, n - 1, s);
      assert Follows(tr[n - 1], acts[n - 1], tr[n - 1 + 1]);
      QueuedAsAsked(tr[n - 1], acts[n - 1], s);
    }
  }

  lemma NothingIssued(w: World, s: Sid)
    requires WorldStarts(w) && s < |w.e.scheds|
    ensures w.e.scheds[s].issued == multiset{}
  {
  }

  // ----- which thread starts a task -----

  /** What a thread has taken is for any thread, or for this one. */
  predicate TakenForMe(e: Engine) {
    forall t, it :: 0 <= t < |e.threads| && it in e.threads[t].batch ==> it.thread == None || it.thread == Some(t)
  }

  lemma StepKeepsTaken(e: Engine, ev: Move)
    requires Enabled(e, ev) && TakenForMe(e)
    ensures TakenForMe(Apply(e, ev))
  {
    hide DoSelect, DoPop, DoRequeue;
    match ev
    case Select(t, busy) => SelectTaken(e, t, busy);
    case Pop(t, n) => PopForm(e, t, n, e.threads[t].batch[|e.threads[t].batch| - 1], DoPop(e, t, n));
    case Requeue(t) => RequeueTaken(e, t);
    case Schedule(_, _, _, _) =>
    case ScheduleDg(_, _, _, _) =>
    case SwitchTo(_, _, _) =>
    case Wake(_, _, _) =>
    case _ => QuietTaken(e, ev);
  }

  lemma QuietTaken(e: Engine, ev: Move)
    requires Enabled(e, ev) && TakenForMe(e)
    requires !ev.Schedule? && !ev.ScheduleDg? && !ev.SwitchTo? && !ev.Wake? && !ev.Select? && !ev.Pop? && !ev.Requeue?
    ensures TakenForMe(Apply(e, ev))
  {
    hide Apply;
    QuietBatches(e, ev);
  }

  lemma QuietBatches(e: Engine, ev: Move)
    requires Enabled(e, ev)
    requires !ev.Schedule? && !ev.ScheduleDg? && !ev.SwitchTo? && !ev.Wake? && !ev.Select? && !ev.Pop? && !ev.Requeue?
    ensures |Apply(e, ev).threads| == |e.threads|
    ensures forall u :: 0 <= u < |e.threads| ==> Apply(e, ev).threads[u].batch == e.threads[u].batch
  {
    if Internal(ev) { InternalQuiet(e, ev); }
  }

  lemma SelectTaken(e: Engine, t: Tid, busy: set<Fid>)
    requires Enabled(e, Select(t, busy)) && TakenForMe(e)
    ensures TakenForMe(DoSelect(e, t, busy))
  {
    var sc := e.scheds[e.threads[t].sched];
    TakenAreEligible(sc.queue, t, busy, sc.batchSize);
  }

  lemma RequeueTaken(e: Engine, t: Tid)
    requires Enabled(e, Requeue(t)) && TakenForMe(e)
    ensures TakenForMe(DoRequeue(e, t))
  {
  }

  lemma {:induction false} RunTakes(tr: seq<World>, acts: seq<Act>, n: nat)
    requires IsRunOf(tr, acts) && n <= |acts|
    ensures TakenForMe(tr[n].e)
  {
    hide Apply, Enabled, Perform, Legal, Starts, TakenForMe;
    if n == 0 {
      StartsTaken(tr[0].e);
    } else {
      RunTakes(tr, acts, n - 1);
      assert Follows(tr[n - 1], acts[n - 1], tr[n - 1 + 1]);
      match acts[n - 1]
      case Run(ev) => StepKeepsTaken(tr[n - 1].e, ev);
      case Call(t, o, op) => CallTaken(tr[n - 1], t, o, op);
    }
  }

  lemma StartsTaken(e: Engine)
    requires Starts(e)
    ensures TakenForMe(e)
  {
    forall t | 0 <= t < |e.threads| ensures e.threads[t].batch == [] { assert ThreadStarts(e, t); }
  }

  lemma CallTaken(w: World, t: Tid, o: Oid, op: Op)
    requires Can(w, Call(t, o, op)) && TakenForMe(w.e)
    ensures TakenForMe(DoCall(w, t, o, op).e)
  {
    hide Perform, Legal;
    assert forall u :: 0 <= u < |w.e.threads| ==> DoCall(w, t, o, op).e.threads[u].batch == w.e.threads[u].batch;
  }

  /** A task is started only by the thread it was given, if it was given one: in every run a task
      joins those started only in the step in which a thread of that scheduler takes the last one of its
      batch, and that thread goes on to resume it. */
  lemma StartedByItsThread(tr: seq<World>, acts: seq<Act>, n: nat, s: Sid, it: Item)
    requires IsRunOf(tr, acts) && n < |acts| && s < |tr[n].e.scheds| && s < |tr[n + 1].e.scheds|
    requires tr[n + 1].e.scheds[s].started[it] != tr[n].e.scheds[s].started[it]
    ensures acts[n].Run? && acts[n].ev.Pop? && acts[n].ev.t < |tr[n].e.threads|
    ensures var t := acts[n].ev.t;
            var batch := tr[n].e.threads[t].batch;
            && tr[n].e.threads[t].sched == s && batch != [] && it == batch[|batch| - 1]
            && (it.thread == None || it.thread == Some(t))
            && tr[n + 1].e.scheds[s].started == tr[n].e.scheds[s].started + multiset{it}
            && t < |tr[n + 1].e.threads| && tr[n + 1].e.threads[t].batch == batch[..|batch| - 1]
            && Resumes(tr[n].e, tr[n + 1].e, t, it)
  {
    RunTakes(tr, acts, n);
    assert Follows(tr[n], acts[n], tr[n + 1]);
    QueuedAsAsked(tr[n], acts[n], s);
    var t := acts[n].ev.t;
    PopStarts(tr[n].e, t, acts[n].ev.n, s);
  }

  /** The thread is about to resume the fiber of the task it took, unless that one has ended; for a functor
      it is a new fiber, or the one the thread has kept. */
  predicate Resumes(e: Engine, e': Engine, t: Tid, it: Item)
    requires t < |e.threads| && t < |e'.threads|
  {
    match it.task
    case FiberTask(f) => f in e.fibers && e.fibers[f].state != Term ==> e'.threads[t].pc == Resume(f)
    case DgTask(_) =>
      && e'.threads[t].pc.Resume? && e'.threads[t].spare == Some(e'.threads[t].pc.f)
      && (e.threads[t].spare.Some? ==> e'.threads[t].spare == e.threads[t].spare)
      && e'.threads[t].pc.f in e'.fibers && e'.fibers[e'.threads[t].pc.f].state == Init
  }

  lemma PopStarts(e: Engine, t: Tid, n: Fid, s: Sid)
    requires Enabled(e, Pop(t, n)) && s < |e.scheds|
    ensures var it := e.threads[t].batch[|e.threads[t].batch| - 1];
            var e' := DoPop(e, t, n);
            && s < |e'.scheds| && t < |e'.threads|
            && e'.scheds[s].started ==
               e.scheds[s].started + (if e.threads[t].sched == s then multiset{it} else multiset{})
            && e'.threads[t].batch == e.threads[t].batch[..|e.threads[t].batch| - 1]
            && Resumes(e, e', t, it)
  {
  }

  /** After a functor its fiber is kept for the next one exactly if it has ended, and then is as good as new;
      otherwise the thread forgets it. */
  lemma KeptIffEnded(w: World, t: Tid)
    requires Can(w, Run(Judge(t))) && w.e.threads[t].spare.Some? && w.e.threads[t].spare.value in w.e.fibers
    ensures var f := w.e.threads[t].spare.value;
            var e' := Next(w, Run(Judge(t))).e;
            && t < |e'.threads| && f in e'.fibers && e'.threads[t].pc == Loop
            && e'.threads[t].spare == (if w.e.fibers[f].state == Term then Some(f) else None)
            && (if w.e.fibers[f].state == Term then e'.fibers[f].state == Init && !e'.fibers[f].thrown
                else e'.fibers[f] == w.e.fibers[f])
  {
  }

  // ----- stop() -----

  /** A scheduler is told to stop by a step, or was to begin with. */
  lemma StepStops(w: World, a: Act, s: Sid)
    requires Can(w, a) && s < |w.e.scheds|
    ensures s < |Next(w, a).e.scheds|
    ensures Next(w, a).e.scheds[s].stopping <==> w.e.scheds[s].stopping || (a.Run? && a.ev.Stop? && a.ev.s == s)
    ensures Next(w, a).e.scheds[s].batchSize == w.e.scheds[s].batchSize
  {
    hide Perform, Legal;
    match a
    case Call(t, o, op) =>
    case Run(ev) => MoveStops(w.e, ev, s);
  }

  lemma MoveStops(e: Engine, ev: Move, s: Sid)
    requires Enabled(e, ev) && s < |e.scheds|
    ensures s < |Apply(e, ev).scheds|
    ensures Apply(e, ev).scheds[s].stopping <==> e.scheds[s].stopping || (ev.Stop? && ev.s == s)
    ensures Apply(e, ev).scheds[s].batchSize == e.scheds[s].batchSize
  {
    if Internal(ev) { InternalQuiet(e, ev); }
    else if ev.Pop? {
      var batch := e.threads[ev.t].batch;
      PopForm(e, ev.t, ev.n, batch[|batch| - 1], DoPop(e, ev.t, ev.n));
    }
  }

  predicate StopAsked(acts: seq<Act>, n: nat, s: Sid)
    requires n <= |acts|
  {
    exists k :: 0 <= k < n && acts[k].Run? && acts[k].ev.Stop? && acts[k].ev.s == s
  }

  /** In every run a scheduler is stopping exactly if it was to begin with or a thread has called stop(),
      and nothing takes that back. */
  lemma {:induction false} StoppingIffAsked(tr: seq<World>, acts: seq<Act>, n: nat, s: Sid)
    requires IsRunOf(tr, acts) && n <= |acts| && s < |tr[0].e.scheds|
    ensures s < |tr[n].e.scheds|
    ensures tr[n].e.scheds[s].stopping <==> tr[0].e.scheds[s].stopping || StopAsked(acts, n, s)
  {
    hide Can, Next, WorldStarts;
    if n > 0 {
      StoppingIffAsked(tr, acts, n - 1, s);
      assert Follows(tr[n - 1], acts[n - 1], tr[n - 1 + 1]);
      StepStops(tr[n - 1], acts[n - 1], s);
    }
  }
}

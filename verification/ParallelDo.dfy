/** parallel_do(): one fiber per functor, a counter of finished ones, an optional semaphore,
    and a caller that yields until the last one schedules it. */
module ParallelDo {
  import opened Common
  import opened Tally
  import FiberSync

  type Exn = nat

  /** Where a worker is; every value stands before one atomic step. */
  datatype Pc =
    | Unborn     // not yet scheduled
    | Start      // before the semaphore
    | Waiting    // on the semaphore's list
    | Woken      // taken off the list by notify(), about to run
    | Body       // in the functor
    | Notify     // functor left, permit not yet given back
    | Tick       // before the increment of `completed`
    | Last       // saw the total, about to schedule the caller
    | Gone

  datatype Caller = Forking | Parked | Returned(result: Option<Exn>)

  datatype Do = Do(
    jobs: seq<Pc>,
    sem: Option<FiberSync.Obj>,
    completed: nat,
    errors: seq<Option<Exn>>,
    forked: nat,
    scheduled: nat,                        // how often the caller was scheduled
    caller: Caller,
    outcome: seq<Option<Option<Exn>>>)     // auxiliary: how each functor ended

  datatype Step =
    | Fork | Enter(i: nat) | Continue(i: nat) | Finish(i: nat, thrown: Option<Exn>)
    | Release(i: nat) | Count(i: nat) | Rouse(i: nat) | Yield | Resume

  function At(d: Do, i: nat): Pc { if i < |d.jobs| then d.jobs[i] else Unborn }

  predicate Can(d: Do, st: Step) {
    match st
    case Fork => d.caller == Forking && d.forked < |d.jobs|
    case Enter(i) => At(d, i) == Start
    case Continue(i) => At(d, i) == Woken
    case Finish(i, _) => At(d, i) == Body && i < |d.errors| && i < |d.outcome|
    case Release(i) => At(d, i) == Notify
    case Count(i) => At(d, i) == Tick
    case Rouse(i) => At(d, i) == Last
    case Yield => d.caller == Forking && d.forked == |d.jobs|
    case Resume => d.caller == Parked && d.scheduled > 0
  }

  function Me(i: nat): FiberSync.Waiter { FiberSync.Waiter(0, i) }

  /** The exception of the lowest slot that has one. */
  function First(errors: seq<Option<Exn>>): Option<Exn> {
    if errors == [] then None else if errors[0].Some? then errors[0] else First(errors[1..])
  }

  function Move(d: Do, i: nat, pc: Pc): Do
    requires i < |d.jobs|
  {
    d.(jobs := d.jobs[i := pc])
  }

  function DoEnter(d: Do, i: nat): Do
    requires At(d, i) == Start
  {
    if d.sem.Some? && d.sem.value.Semaphore? then
      var out := FiberSync.DoSemWait(d.sem.value, Me(i));
      Move(d, i, if out.parks then Waiting else Body).(sem := Some(out.obj))
    else Move(d, i, Body)
  }

  function DoRelease(d: Do, i: nat): Do
    requires At(d, i) == Notify
  {
    if d.sem.Some? && d.sem.value.Semaphore? then
      var out := FiberSync.DoSemNotify(d.sem.value);
      var d1 := Move(d, i, Tick).(sem := Some(out.obj));
      if out.wakes.Some? && out.wakes.value.fiber < |d.jobs| then Move(d1, out.wakes.value.fiber, Woken) else d1
    else Move(d, i, Tick)
  }

  function Next(d: Do, st: Step): Do
    requires Can(d, st)
  {
    match st
    case Fork => Move(d, d.forked, Start).(forked := d.forked + 1)
    case Enter(i) => DoEnter(d, i)
    case Continue(i) => Move(d, i, Body)
    case Finish(i, x) =>
      Move(d, i, Notify).(errors := if x.Some? then d.errors[i := x] else d.errors, outcome := d.outcome[i := Some(x)])
    case Release(i) => DoRelease(d, i)
    case Count(i) =>
      Move(d, i, if d.completed + 1 == |d.jobs| then Last else Gone).(completed := d.completed + 1)
    case Rouse(i) => Move(d, i, Gone).(scheduled := d.scheduled + 1)
    case Yield => d.(caller := Parked)
    case Resume => d.(caller := Returned(First(d.errors)))
  }

  // ----- invariant -----

  function Finished(pc: Pc): nat { if pc == Last || pc == Gone then 1 else 0 }
  function AtLast(pc: Pc): nat { if pc == Last then 1 else 0 }
  function Holding(pc: Pc): nat { if pc == Woken || pc == Body || pc == Notify then 1 else 0 }
  function InBody(pc: Pc): nat { if pc == Body then 1 else 0 }

  predicate Listed(jobs: seq<Pc>, x: FiberSync.Waiter) {
    x.sched == 0 && x.fiber < |jobs| && jobs[x.fiber] == Waiting
  }

  /** The semaphore's list is exactly the waiting workers, and its missing permits are the holders. */
  ghost predicate SemOk(x: FiberSync.Obj, jobs: seq<Pc>) {
    && x.Semaphore? && FiberSync.SemaphoreOk(x) && x.initial > 0
    && |x.granted| == x.notified + Sum(jobs, Holding)
    && forall w :: FiberSync.Occurs(x.semWaiters, w) == if Listed(jobs, w) then 1 else 0
  }

  predicate JobOk(d: Do, i: nat)
    requires i < |d.jobs| == |d.errors| == |d.outcome|
  {
    && (d.jobs[i] == Unborn <==> i >= d.forked)
    && (d.outcome[i].Some? <==> d.jobs[i] in {Notify, Tick, Last, Gone})
    && d.errors[i] == (if d.outcome[i].Some? then d.outcome[i].value else None)
    && (d.sem == None ==> d.jobs[i] != Waiting)
  }

  predicate Counts(d: Do) {
    && d.completed == Sum(d.jobs, Finished)
    && d.scheduled + Sum(d.jobs, AtLast) == if d.completed == |d.jobs| then 1 else 0
  }

  ghost predicate Inv(d: Do) {
    && |d.jobs| == |d.errors| == |d.outcome| && d.forked <= |d.jobs|
    && (forall i :: 0 <= i < |d.jobs| ==> JobOk(d, i))
    && Counts(d)
    && (d.caller != Forking ==> d.forked == |d.jobs|)
    && (d.caller.Returned? ==> d.scheduled == 1 && d.caller.result == First(d.errors))
    && (d.sem.Some? ==> SemOk(d.sem.value, d.jobs))
  }

  /** FiberSemaphore(parallelism): the int becomes a size_t. */
  function Permits(parallelism: int): nat
    requires -0x8000_0000 <= parallelism < 0x8000_0000
  {
    if parallelism >= 0 then parallelism else parallelism + 0x1_0000_0000_0000_0000
  }

  /** What parallel_do() sets up when there is a scheduler and more than one functor. */
  ghost predicate Starts(d: Do, n: nat, parallelism: int)
    requires -0x8000_0000 <= parallelism < 0x8000_0000
  {
    && n > 1 && parallelism != 0
    && d.jobs == seq(n, _ => Unborn) && d.errors == seq(n, _ => None) && d.outcome == seq(n, _ => None)
    && d.sem == (if parallelism == -1 then None
                 else Some(FiberSync.Semaphore(Permits(parallelism), Permits(parallelism), [], 0, [], [])))
    && d.completed == 0 && d.forked == 0 && d.scheduled == 0 && d.caller == Forking
  }

  lemma StartsInv(d: Do, n: nat, parallelism: int)
    requires -0x8000_0000 <= parallelism < 0x8000_0000 && Starts(d, n, parallelism)
    ensures Inv(d)
  {
    SumZero(d.jobs, Finished);
    SumZero(d.jobs, AtLast);
    SumZero(d.jobs, Holding);
  }

  // ----- every step keeps the invariant -----

  lemma Moved(d: Do, i: nat, pc: Pc)
    requires i < |d.jobs|
    ensures Sum(d.jobs[i := pc], Finished) + Finished(d.jobs[i]) == Sum(d.jobs, Finished) + Finished(pc)
    ensures Sum(d.jobs[i := pc], AtLast) + AtLast(d.jobs[i]) == Sum(d.jobs, AtLast) + AtLast(pc)
    ensures Sum(d.jobs[i := pc], Holding) + Holding(d.jobs[i]) == Sum(d.jobs, Holding) + Holding(pc)
  {
    SumUpdate(d.jobs, i, pc, Finished);
    SumUpdate(d.jobs, i, pc, AtLast);
    SumUpdate(d.jobs, i, pc, Holding);
  }

  /** A step that leaves the semaphore alone and keeps the number of holders. */
  lemma SemKept(x: FiberSync.Obj, jobs: seq<Pc>, i: nat, pc: Pc)
    requires i < |jobs| && SemOk(x, jobs) && jobs[i] != Waiting && pc != Waiting && Holding(jobs[i]) == Holding(pc)
    ensures SemOk(x, jobs[i := pc])
  {
    SumUpdate(jobs, i, pc, Holding);
    forall w ensures FiberSync.Occurs(x.semWaiters, w) == if Listed(jobs[i := pc], w) then 1 else 0 {
      assert FiberSync.Occurs(x.semWaiters, w) == if Listed(jobs, w) then 1 else 0;
    }
  }

  lemma SemEntered(x: FiberSync.Obj, jobs: seq<Pc>, i: nat, pc: Pc)
    requires i < |jobs| && SemOk(x, jobs) && jobs[i] == Start
    requires pc == if FiberSync.DoSemWait(x, Me(i)).parks then Waiting else Body
    ensures SemOk(FiberSync.DoSemWait(x, Me(i)).obj, jobs[i := pc])
  {
    SumUpdate(jobs, i, pc, Holding);
    FiberSync.SemaphoreKeepsOk(x, Me(i));
    var y := FiberSync.DoSemWait(x, Me(i)).obj;
    forall w ensures FiberSync.Occurs(y.semWaiters, w) == if Listed(jobs[i := pc], w) then 1 else 0 {
      assert FiberSync.Occurs(x.semWaiters, w) == if Listed(jobs, w) then 1 else 0;
      FiberSync.OccursAppend(x.semWaiters, [Me(i)], w);
    }
  }

  /** Giving a permit back: either it is free again or the oldest waiter has it. */
  lemma SemReleased(x: FiberSync.Obj, jobs: seq<Pc>, i: nat)
    requires i < |jobs| && SemOk(x, jobs) && jobs[i] == Notify
    ensures x.semWaiters == [] ==> SemOk(FiberSync.DoSemNotify(x).obj, jobs[i := Tick])
    ensures x.semWaiters != [] ==>
      && Listed(jobs, x.semWaiters[0])
      && SemOk(FiberSync.DoSemNotify(x).obj, jobs[i := Tick][x.semWaiters[0].fiber := Woken])
  {
    SumUpdate(jobs, i, Tick, Holding);
    FiberSync.SemaphoreKeepsOk(x, Me(i));
    var y := FiberSync.DoSemNotify(x).obj;
    if x.semWaiters == [] {
      forall w ensures FiberSync.Occurs(y.semWaiters, w) == if Listed(jobs[i := Tick], w) then 1 else 0 {
        assert FiberSync.Occurs(x.semWaiters, w) == if Listed(jobs, w) then 1 else 0;
      }
    } else {
      var h := x.semWaiters[0];
      assert FiberSync.Occurs(x.semWaiters, h) == if Listed(jobs, h) then 1 else 0;
      SumUpdate(jobs[i := Tick], h.fiber, Woken, Holding);
      forall w
        ensures FiberSync.Occurs(y.semWaiters, w) == if Listed(jobs[i := Tick][h.fiber := Woken], w) then 1 else 0
      {
        assert FiberSync.Occurs(x.semWaiters, w) == if Listed(jobs, w) then 1 else 0;
      }
    }
  }

  lemma EnterKeepsInv(d: Do, i: nat)
    requires Inv(d) && At(d, i) == Start
    ensures Inv(DoEnter(d, i))
  {
    var d' := DoEnter(d, i);
    Moved(d, i, d'.jobs[i]);
    if d.sem.Some? { SemEntered(d.sem.value, d.jobs, i, d'.jobs[i]); }
    forall j | 0 <= j < |d.jobs| ensures JobOk(d', j) { assert JobOk(d, j); }
  }

  lemma ReleaseKeepsInv(d: Do, i: nat)
    requires Inv(d) && At(d, i) == Notify
    ensures Inv(DoRelease(d, i))
  {
    var d' := DoRelease(d, i);
    Moved(d, i, Tick);
    if d.sem.Some? {
      SemReleased(d.sem.value, d.jobs, i);
      if d.sem.value.semWaiters != [] { Moved(Move(d, i, Tick), d.sem.value.semWaiters[0].fiber, Woken); }
    }
    forall j | 0 <= j < |d.jobs| ensures JobOk(d', j) { assert JobOk(d, j); }
  }

  lemma NextKeepsInv(d: Do, st: Step)
    requires Inv(d) && Can(d, st)
    ensures Inv(Next(d, st))
  {
    var d' := Next(d, st);
    match st
    case Enter(i) => EnterKeepsInv(d, i);
    case Release(i) => ReleaseKeepsInv(d, i);
    case Yield => forall j | 0 <= j < |d.jobs| ensures JobOk(d', j) { assert JobOk(d, j); }
    case Resume => forall j | 0 <= j < |d.jobs| ensures JobOk(d', j) { assert JobOk(d, j); }
    case Fork => ForkKeepsInv(d);
    case Continue(i) => ContinueKeepsInv(d, i);
    case Finish(i, x) => FinishKeepsInv(d, i, x);
    case Count(i) => CountKeepsInv(d, i);
    case Rouse(i) => RouseKeepsInv(d, i);
  }

  /** A step of one worker that leaves the semaphore alone: the accounts are settled by the caller. */
  lemma MoveKeepsInv(d: Do, d': Do, i: nat)
    requires Inv(d) && i < |d.jobs| && Counts(d')
    requires |d'.jobs| == |d.jobs| && d'.jobs == d.jobs[i := d'.jobs[i]] && d'.sem == d.sem
    requires d.jobs[i] != Waiting && d'.jobs[i] != Waiting && Holding(d.jobs[i]) == Holding(d'.jobs[i])
    requires d'.caller == d.caller && !d.caller.Returned?
    requires |d'.errors| == |d'.outcome| == |d.jobs| && (d'.forked == d.forked || d'.forked == d.forked + 1 == i + 1)
    requires forall j :: 0 <= j < |d.jobs| && j != i ==> d'.errors[j] == d.errors[j] && d'.outcome[j] == d.outcome[j]
    requires JobOk(d', i)
    ensures Inv(d')
  {
    if d.sem.Some? { SemKept(d.sem.value, d.jobs, i, d'.jobs[i]); }
    forall j | 0 <= j < |d.jobs| ensures JobOk(d', j) { assert JobOk(d, j); }
  }

  lemma ForkKeepsInv(d: Do)
    requires Inv(d) && Can(d, Fork)
    ensures Inv(Next(d, Fork))
  {
    assert JobOk(d, d.forked);
    Moved(d, d.forked, Start);
    MoveKeepsInv(d, Next(d, Fork), d.forked);
  }

  lemma ContinueKeepsInv(d: Do, i: nat)
    requires Inv(d) && Can(d, Continue(i))
    ensures Inv(Next(d, Continue(i)))
  {
    BusyMeansWaited(d, i);
    assert JobOk(d, i);
    Moved(d, i, Body);
    MoveKeepsInv(d, Next(d, Continue(i)), i);
  }

  lemma FinishKeepsInv(d: Do, i: nat, x: Option<Exn>)
    requires Inv(d) && Can(d, Finish(i, x))
    ensures Inv(Next(d, Finish(i, x)))
  {
    BusyMeansWaited(d, i);
    assert JobOk(d, i);
    Moved(d, i, Notify);
    MoveKeepsInv(d, Next(d, Finish(i, x)), i);
  }

  lemma CountKeepsInv(d: Do, i: nat)
    requires Inv(d) && Can(d, Count(i))
    ensures Inv(Next(d, Count(i)))
  {
    BusyMeansWaited(d, i);
    assert JobOk(d, i);
    var d' := Next(d, Count(i));
    Moved(d, i, d'.jobs[i]);
    SumFull(d'.jobs, Finished);
    MoveKeepsInv(d, d', i);
  }

  lemma RouseKeepsInv(d: Do, i: nat)
    requires Inv(d) && Can(d, Rouse(i))
    ensures Inv(Next(d, Rouse(i)))
  {
    BusyMeansWaited(d, i);
    assert JobOk(d, i);
    Moved(d, i, Gone);
    MoveKeepsInv(d, Next(d, Rouse(i)), i);
  }

  /** As long as one worker has a step to take, the caller has not been scheduled. */
  lemma BusyMeansWaited(d: Do, i: nat)
    requires Inv(d) && i < |d.jobs| && d.jobs[i] != Gone
    ensures d.scheduled == 0 && !d.caller.Returned?
  {
    SumFull(d.jobs, Finished);
    if d.completed == |d.jobs| {
      assert Finished(d.jobs[i]) == 1;
      SumZero(d.jobs, AtLast);
      assert AtLast(d.jobs[i]) == 1;
    }
  }

  // ----- runs -----

  predicate Follows(d: Do, st: Step, d': Do) { Can(d, st) && d' == Next(d, st) }

  ghost predicate Leads(d: Do, d': Do) { exists st :: Follows(d, st, d') }

  ghost predicate IsRun(ds: seq<Do>, n: nat, parallelism: int) {
    && -0x8000_0000 <= parallelism < 0x8000_0000
    && ds != [] && Starts(ds[0], n, parallelism)
    && forall i :: 0 < i < |ds| ==> Leads(ds[i - 1], ds[i])
  }

  lemma LeadsInv(d: Do, d': Do)
    requires Inv(d) && Leads(d, d')
    ensures Inv(d') && |d'.jobs| == |d.jobs| && (d'.sem.Some? <==> d.sem.Some?)
    ensures d'.sem.Some? ==>
            d'.sem.value.Semaphore? && d.sem.value.Semaphore? && d'.sem.value.initial == d.sem.value.initial
  {
    var st :| Follows(d, st, d');
    NextKeepsInv(d, st);
  }

  lemma {:induction false} RunHoldsInv(ds: seq<Do>, n: nat, parallelism: int, i: nat)
    requires IsRun(ds, n, parallelism) && i < |ds|
    ensures Inv(ds[i]) && |ds[i].jobs| == n
    ensures ds[i].sem.Some? <==> parallelism != -1
    ensures ds[i].sem.Some? ==> ds[i].sem.value.Semaphore? && ds[i].sem.value.initial == Permits(parallelism)
  {
    if i == 0 {
      StartsInv(ds[0], n, parallelism);
    } else {
      RunHoldsInv(ds, n, parallelism, i - 1);
      LeadsInv(ds[i - 1], ds[i]);
    }
  }

  /** How many functors can be in their bodies at once: all without a limit, else as many as asked
      for. A negative number other than -1 becomes a size_t close to 2^64. */
  function Limit(n: nat, parallelism: int): int {
    if parallelism == -1 then n
    else Min(n, if parallelism > 0 then parallelism else parallelism + 0x1_0000_0000_0000_0000)
  }

  /** No more functors than that are ever in their bodies: for a positive parallelism, no more than it says. */
  lemma AtMostParallelism(ds: seq<Do>, n: nat, parallelism: int, i: nat)
    requires IsRun(ds, n, parallelism) && i < |ds|
    ensures Sum(ds[i].jobs, InBody) <= Limit(n, parallelism)
    ensures parallelism > 0 ==> Sum(ds[i].jobs, InBody) <= parallelism
  {
    RunHoldsInv(ds, n, parallelism, i);
    SumBelow(ds[i].jobs, InBody, Holding);
    SumFull(ds[i].jobs, InBody);
  }

  lemma Extend(ds: seq<Do>, n: nat, parallelism: int, st: Step) returns (ds': seq<Do>)
    requires IsRun(ds, n, parallelism) && Can(ds[|ds| - 1], st)
    ensures IsRun(ds', n, parallelism) && |ds'| == |ds| + 1 && ds'[|ds|] == Next(ds[|ds| - 1], st)
  {
    ds' := ds + [Next(ds[|ds| - 1], st)];
    assert Follows(ds[|ds| - 1], st, ds'[|ds|]);
    forall i | 0 < i < |ds'| ensures Leads(ds'[i - 1], ds'[i]) {
      if i < |ds| { assert Leads(ds[i - 1], ds[i]); }
    }
  }

  /** The first k functors are in their bodies and the others have not been scheduled yet. */
  predicate Running(d: Do, n: nat, k: nat, parallelism: int) {
    && k <= n == |d.jobs| && d.caller == Forking && d.forked == k
    && (forall i :: 0 <= i < n ==> d.jobs[i] == if i < k then Body else Unborn)
    && (d.sem == None <==> parallelism == -1)
    && (d.sem.Some? ==> d.sem.value.Semaphore? && Limit(n, parallelism) - k <= d.sem.value.available)
  }

  lemma {:induction false} RunningReached(n: nat, k: nat, parallelism: int) returns (ds: seq<Do>)
    requires n > 1 && parallelism != 0 && -0x8000_0000 <= parallelism < 0x8000_0000 && k <= Limit(n, parallelism)
    ensures IsRun(ds, n, parallelism) && Running(ds[|ds| - 1], n, k, parallelism)
  {
    if k == 0 {
      var p := Permits(parallelism);
      ds := [Do(seq(n, _ => Unborn), if parallelism == -1 then None else Some(FiberSync.Semaphore(p, p, [], 0, [], [])),
                0, seq(n, _ => None), 0, 0, Forking, seq(n, _ => None))];
    } else {
      ds := RunningReached(n, k - 1, parallelism);
      ds := Extend(ds, n, parallelism, Fork);
      ds := Extend(ds, n, parallelism, Enter(k - 1));
    }
  }

  lemma {:induction false} FirstInBody(jobs: seq<Pc>, k: nat)
    requires k <= |jobs| && forall i :: 0 <= i < |jobs| ==> jobs[i] == if i < k then Body else Unborn
    ensures Sum(jobs, InBody) == k
  {
    if jobs != [] {
      assert forall i :: 0 <= i < |jobs| - 1 ==> jobs[1..][i] == jobs[i + 1];
      FirstInBody(jobs[1..], if k > 0 then k - 1 else 0);
    }
  }

  /** And the bound is exact: some run has that many functors in their bodies at once. */
  lemma ParallelismReached(n: nat, parallelism: int) returns (ds: seq<Do>)
    requires n > 1 && parallelism != 0 && -0x8000_0000 <= parallelism < 0x8000_0000
    ensures IsRun(ds, n, parallelism) && Sum(ds[|ds| - 1].jobs, InBody) == Limit(n, parallelism)
    ensures parallelism > 0 ==> Sum(ds[|ds| - 1].jobs, InBody) == Min(n, parallelism)
  {
    ds := RunningReached(n, Limit(n, parallelism), parallelism);
    FirstInBody(ds[|ds| - 1].jobs, Limit(n, parallelism));
  }

  /** Once the caller is scheduled every functor has ended and no worker has a step left that
      could touch the semaphore, the counter or the exceptions; it is scheduled only once. */
  lemma CallerIsLast(ds: seq<Do>, n: nat, parallelism: int, i: nat, w: nat)
    requires IsRun(ds, n, parallelism) && i < |ds| && w < n
    ensures ds[i].scheduled <= 1 && |ds[i].jobs| == |ds[i].outcome| == n
    ensures ds[i].scheduled == 1 ==> ds[i].jobs[w] == Gone && ds[i].outcome[w].Some?
  {
    RunHoldsInv(ds, n, parallelism, i);
    assert JobOk(ds[i], w);
    if ds[i].jobs[w] != Gone { BusyMeansWaited(ds[i], w); }
  }

  /** The exception passed on is the one of the first functor, by position, that threw. */
  lemma ReturnsFirstException(ds: seq<Do>, n: nat, parallelism: int, i: nat, w: nat)
    requires IsRun(ds, n, parallelism) && i < |ds| && ds[i].caller.Returned? && w < n
    ensures |ds[i].outcome| == n && ds[i].outcome[w].Some?
    ensures (forall j :: 0 <= j < w ==> ds[i].outcome[j] == Some(None)) && ds[i].outcome[w].value.Some? ==>
              ds[i].caller.result == ds[i].outcome[w].value
    ensures (forall j :: 0 <= j < n ==> ds[i].outcome[j] == Some(None)) ==> ds[i].caller.result == None
  {
    RunHoldsInv(ds, n, parallelism, i);
    var d := ds[i];
    CallerIsLast(ds, n, parallelism, i, w);
    forall j | 0 <= j < n ensures d.outcome[j].Some? && d.errors[j] == d.outcome[j].value {
      CallerIsLast(ds, n, parallelism, i, j);
      assert JobOk(d, j);
    }
    FirstIsLowest(d.errors, w);
  }

  /** The loop over the slots after the caller is back. */
  method PassOn(exceptions: seq<Option<Exn>>) returns (r: Option<Exn>)
    ensures r == First(exceptions)
  {
    var i := 0;
    while i < |exceptions|
      invariant 0 <= i <= |exceptions|
      invariant First(exceptions) == First(exceptions[i..])
    {
      if exceptions[i].Some? { return exceptions[i]; }
      assert exceptions[i..][1..] == exceptions[i + 1..];
      i := i + 1;
    }
    return None;
  }

  lemma {:induction false} FirstIsLowest(errors: seq<Option<Exn>>, w: nat)
    requires w < |errors|
    ensures (forall j :: 0 <= j < w ==> errors[j] == None) && errors[w].Some? ==> First(errors) == errors[w]
    ensures (forall j :: 0 <= j < |errors| ==> errors[j] == None) ==> First(errors) == None
  {
    if |errors| > 1 {
      FirstIsLowest(errors[1..], if w > 0 then w - 1 else 0);
    }
  }

  // ----- every run ends with the caller returning -----

  /** No deadlock: until the caller returns, somebody can take a step. */
  lemma SomebodyCanStep(d: Do) returns (st: Step)
    requires Inv(d) && |d.jobs| > 0 && !d.caller.Returned?
    ensures Can(d, st)
  {
    if d.caller == Forking {
      st := if d.forked < |d.jobs| then Fork else Yield;
    } else if d.scheduled > 0 {
      st := Resume;
    } else {
      var i := SomeWorker(d);
      assert JobOk(d, i);
      match d.jobs[i]
      case Start => st := Enter(i);
      case Woken => st := Continue(i);
      case Body => st := Finish(i, None);
      case Notify => st := Release(i);
      case Tick => st := Count(i);
      case Last => st := Rouse(i);
    }
  }

  /** If nobody holds a permit then nobody waits for one. */
  lemma NobodyWaits(d: Do)
    requires Inv(d) && Sum(d.jobs, Holding) == 0
    ensures forall j :: 0 <= j < |d.jobs| ==> d.jobs[j] != Waiting
  {
    forall j | 0 <= j < |d.jobs| ensures d.jobs[j] != Waiting {
      assert JobOk(d, j);
      if d.sem.Some? {
        assert FiberSync.Occurs(d.sem.value.semWaiters, Me(j)) == if Listed(d.jobs, Me(j)) then 1 else 0;
      }
    }
  }

  lemma SomeWorker(d: Do) returns (i: nat)
    requires Inv(d) && |d.jobs| > 0 && d.caller == Parked && d.scheduled == 0
    ensures i < |d.jobs| && d.jobs[i] !in {Unborn, Waiting, Gone}
  {
    if j :| 0 <= j < |d.jobs| && d.jobs[j] !in {Waiting, Gone} {
      assert JobOk(d, j);
      return j;
    }
    SumZero(d.jobs, Holding);
    NobodyWaits(d);
    SumFull(d.jobs, Finished);
    SumZero(d.jobs, AtLast);
    assert false;
  }

  function Left(pc: Pc): nat {
    match pc
    case Unborn => 8 case Start => 7 case Waiting => 6 case Woken => 5 case Body => 4
    case Notify => 3 case Tick => 2 case Last => 1 case Gone => 0
  }

  function CallerLeft(c: Caller): nat {
    match c case Forking => 2 case Parked => 1 case Returned(_) => 0
  }

  function Remaining(d: Do): nat { Sum(d.jobs, Left) + CallerLeft(d.caller) }

  lemma Advances(jobs: seq<Pc>, i: nat, pc: Pc)
    requires i < |jobs| && Left(pc) < Left(jobs[i])
    ensures Sum(jobs[i := pc], Left) < Sum(jobs, Left)
  {
    SumUpdate(jobs, i, pc, Left);
  }

  lemma ReleaseRunsOut(d: Do, i: nat)
    requires Inv(d) && At(d, i) == Notify
    ensures Sum(DoRelease(d, i).jobs, Left) < Sum(d.jobs, Left)
  {
    Advances(d.jobs, i, Tick);
    if d.sem.Some? && d.sem.value.semWaiters != [] {
      SemReleased(d.sem.value, d.jobs, i);
      Advances(d.jobs[i := Tick], d.sem.value.semWaiters[0].fiber, Woken);
    }
  }

  lemma StepsRunOut(d: Do, st: Step)
    requires Inv(d) && Can(d, st)
    ensures Remaining(Next(d, st)) < Remaining(d)
  {
    match st
    case Fork => assert JobOk(d, d.forked); Advances(d.jobs, d.forked, Start);
    case Enter(i) => Advances(d.jobs, i, DoEnter(d, i).jobs[i]);
    case Continue(i) => Advances(d.jobs, i, Body);
    case Finish(i, _) => Advances(d.jobs, i, Notify);
    case Count(i) => Advances(d.jobs, i, if d.completed + 1 == |d.jobs| then Last else Gone);
    case Rouse(i) => Advances(d.jobs, i, Gone);
    case Release(i) => ReleaseRunsOut(d, i);
    case Yield =>
    case Resume =>
  }

  lemma {:induction false} RunIsShort(ds: seq<Do>, n: nat, parallelism: int, i: nat)
    requires IsRun(ds, n, parallelism) && i < |ds|
    ensures Remaining(ds[i]) + i <= 8 * n + 2
  {
    if i == 0 {
      StartRemaining(ds[0], n, parallelism);
    } else {
      RunIsShort(ds, n, parallelism, i - 1);
      RunHoldsInv(ds, n, parallelism, i - 1);
      LeadsDown(ds[i - 1], ds[i]);
    }
  }

  lemma LeadsDown(d: Do, d': Do)
    requires Inv(d) && Leads(d, d')
    ensures Inv(d') && Remaining(d') < Remaining(d)
  {
    var st :| Follows(d, st, d');
    NextKeepsInv(d, st);
    StepsRunOut(d, st);
  }

  lemma StartRemaining(d: Do, n: nat, parallelism: int)
    requires -0x8000_0000 <= parallelism < 0x8000_0000 && Starts(d, n, parallelism)
    ensures Remaining(d) == 8 * n + 2
  {
    SumOfUnborn(n);
  }

  lemma {:induction false} SumOfUnborn(n: nat)
    ensures Sum(seq(n, _ => Unborn), Left) == 8 * n
  {
    if n > 0 {
      SumOfUnborn(n - 1);
      assert seq(n, _ => Unborn)[1..] == seq(n - 1, _ => Unborn);
    }
  }

  ghost predicate Stuck(d: Do) { forall st :: !Can(d, st) }

  /** Whatever the order of steps, parallel_do() returns: no run is longer than 8n + 2 steps, and
      a run that cannot be continued is one whose caller has returned. */
  lemma AlwaysReturns(ds: seq<Do>, n: nat, parallelism: int)
    requires IsRun(ds, n, parallelism)
    ensures |ds| <= 8 * n + 3
    ensures Stuck(ds[|ds| - 1]) ==> ds[|ds| - 1].caller.Returned?
  {
    var last := |ds| - 1;
    RunIsShort(ds, n, parallelism, last);
    RunHoldsInv(ds, n, parallelism, last);
    if !ds[last].caller.Returned? {
      var st := SomebodyCanStep(ds[last]);
    }
  }
}

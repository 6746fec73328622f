/** parallel_foreach(): a fixed number of workers share one iterator under a mutex. */
module ParallelForeach {
  import opened Common
  import opened Tally

  /** An exception: the element whose functor threw it, and what it says. */
  datatype Exn = Exn(from: nat, what: nat)

  datatype Pc =
    | Unborn
    | Looping                          // before the critical section that takes an element
    | Running(k: nat)                  // in the functor, on element k
    | Failing(failed: nat, exn: Exn)   // the functor threw, not yet recorded
    | Leaving                          // before the decrement of `count`
    | Last                             // brought it to zero, about to schedule the caller
    | Gone

  datatype Caller = Forking | Parked | Returned(result: Option<Exn>)

  datatype Each = Each(
    size: nat,                 // end - begin at the start
    begin: nat,
    exception: Option<Exn>,
    count: int,
    workers: seq<Pc>,
    forked: nat,
    scheduled: nat,
    caller: Caller,
    // auxiliary: which worker got which element, in order; how elements ended; exceptions in the order recorded
    handed: seq<(nat, nat)>,
    finished: set<nat>,
    failed: set<nat>,
    recorded: seq<Exn>)

  datatype Step =
    | Fork | Take(i: nat) | Finish(i: nat) | Throw(i: nat, what: nat) | Record(i: nat)
    | Leave(i: nat) | Rouse(i: nat) | Yield | Resume

  function At(d: Each, i: nat): Pc { if i < |d.workers| then d.workers[i] else Unborn }

  predicate Can(d: Each, st: Step) {
    match st
    case Fork => d.caller == Forking && d.forked < |d.workers|
    case Take(i) => At(d, i) == Looping
    case Finish(i) => At(d, i).Running?
    case Throw(i, _) => At(d, i).Running?
    case Record(i) => At(d, i).Failing?
    case Leave(i) => At(d, i) == Leaving
    case Rouse(i) => At(d, i) == Last
    case Yield => d.caller == Forking && d.forked == |d.workers|
    case Resume => d.caller == Parked && d.scheduled > 0
  }

  function Move(d: Each, i: nat, pc: Pc): Each
    requires i < |d.workers|
  {
    d.(workers := d.workers[i := pc])
  }

  function DoTake(d: Each, i: nat): Each
    requires i < |d.workers|
  {
    if d.begin == d.size || d.exception.Some? then Move(d, i, Leaving)
    else Move(d, i, Running(d.begin)).(begin := d.begin + 1, handed := d.handed + [(i, d.begin)])
  }

  function Next(d: Each, st: Step): Each
    requires Can(d, st)
  {
    match st
    case Fork => Move(d, d.forked, Looping).(forked := d.forked + 1)
    case Take(i) => DoTake(d, i)
    case Finish(i) => Move(d, i, Looping).(finished := d.finished + {d.workers[i].k})
    case Throw(i, what) => Move(d, i, Failing(d.workers[i].k, Exn(d.workers[i].k, what)))
    case Record(i) =>
      Move(d, i, Leaving).(exception := Some(d.workers[i].exn), failed := d.failed + {d.workers[i].failed},
                           recorded := d.recorded + [d.workers[i].exn])
    case Leave(i) => Move(d, i, if d.count - 1 == 0 then Last else Gone).(count := d.count - 1)
    case Rouse(i) => Move(d, i, Gone).(scheduled := d.scheduled + 1)
    case Yield => d.(caller := Parked)
    case Resume => d.(caller := Returned(d.exception))
  }

  // ----- invariant -----

  function Out(pc: Pc): nat { if pc == Last || pc == Gone then 1 else 0 }
  function AtLast(pc: Pc): nat { if pc == Last then 1 else 0 }
  function Has(pc: Pc, k: nat): nat { if pc == Running(k) || (pc.Failing? && pc.failed == k) then 1 else 0 }
  function Done(pc: Pc): nat { if pc in {Leaving, Last, Gone} then 1 else 0 }

  predicate Counts(d: Each) {
    && d.count + Sum(d.workers, Out) == |d.workers|
    && d.scheduled + Sum(d.workers, AtLast) == if d.count == 0 && |d.workers| > 0 then 1 else 0
  }

  /** Every element handed out is with one worker, or finished, or failed: exactly one of these. */
  predicate ElementOk(d: Each, k: nat) {
    Sum(d.workers, pc => Has(pc, k)) + (if k in d.finished then 1 else 0) + (if k in d.failed then 1 else 0)
      == if k < d.begin then 1 else 0
  }

  predicate WorkerOk(d: Each, i: nat)
    requires i < |d.workers|
  {
    && (d.workers[i] == Unborn <==> i >= d.forked)
    && (Done(d.workers[i]) == 1 ==> d.begin == d.size || d.exception.Some?)
    && (d.workers[i].Failing? ==> d.workers[i].exn.from == d.workers[i].failed)
  }

  predicate HandedOk(d: Each) {
    |d.handed| == d.begin <= d.size &&
    forall k :: 0 <= k < d.begin ==> d.handed[k].1 == k && d.handed[k].0 < |d.workers|
  }

  predicate ErrorOk(d: Each) {
    && d.exception == (if d.recorded == [] then None else Some(d.recorded[|d.recorded| - 1]))
    && (d.recorded == [] <==> d.failed == {})
    && (forall j :: 0 <= j < |d.recorded| ==> d.recorded[j].from in d.failed)
    && (forall i, j :: 0 <= i < j < |d.recorded| ==> d.recorded[i].from != d.recorded[j].from)
  }

  ghost predicate Inv(d: Each) {
    && d.forked <= |d.workers| && Counts(d) && HandedOk(d) && ErrorOk(d)
    && (forall i :: 0 <= i < |d.workers| ==> WorkerOk(d, i))
    && (forall k: nat :: ElementOk(d, k))
    && (d.caller != Forking ==> d.forked == |d.workers|)
    && (d.caller.Returned? ==> d.scheduled == 1 && d.caller.result == d.exception)
  }

  /** What parallel_foreach() sets up for `parallelism` workers; -1 stands for four. A parallelism
      of 1 runs in the caller and is not a run of this machine. */
  ghost predicate Starts(d: Each, size: nat, parallelism: int) {
    && parallelism != 1
    && var workers := if parallelism == -1 then 4 else if parallelism < 0 then 0 else parallelism;
       d == Each(size, 0, None, workers, seq(workers, _ => Unborn), 0, 0, Forking, [], {}, {}, [])
  }

  lemma StartsInv(d: Each, size: nat, parallelism: int)
    requires Starts(d, size, parallelism)
    ensures Inv(d)
  {
    SumZero(d.workers, Out);
    SumZero(d.workers, AtLast);
    forall k: nat ensures ElementOk(d, k) { SumZero(d.workers, pc => Has(pc, k)); }
  }

  lemma BusyMeansWaited(d: Each, i: nat)
    requires Inv(d) && i < |d.workers| && d.workers[i] != Gone
    ensures d.scheduled == 0 && !d.caller.Returned?
  {
    SumFull(d.workers, Out);
    if d.count == 0 {
      assert Out(d.workers[i]) == 1;
      SumZero(d.workers, AtLast);
      assert AtLast(d.workers[i]) == 1;
    }
  }

  /** A step of one worker moves at most one element. */
  lemma ElementsMove(d: Each, d': Each, i: nat, pc: Pc)
    requires i < |d.workers| && d'.workers == d.workers[i := pc] && forall k: nat :: ElementOk(d, k)
    requires forall k: nat ::
      Has(pc, k) + (if k in d'.finished then 1 else 0) + (if k in d'.failed then 1 else 0) +
        (if k < d.begin then 1 else 0)
        == Has(d.workers[i], k) + (if k in d.finished then 1 else 0) + (if k in d.failed then 1 else 0) +
          (if k < d'.begin then 1 else 0)
    ensures forall k: nat :: ElementOk(d', k)
  {
    forall k: nat ensures ElementOk(d', k) {
      assert ElementOk(d, k);
      SumUpdate(d.workers, i, pc, pc => Has(pc, k));
    }
  }

  /** An element in the hands of a worker has neither finished nor failed. */
  lemma InHand(d: Each, i: nat, k: nat)
    requires i < |d.workers| && ElementOk(d, k) && Has(d.workers[i], k) == 1
    ensures k !in d.finished && k !in d.failed && k < d.begin
  {
    SumZero(d.workers, pc => Has(pc, k));
    assert (pc => Has(pc, k))(d.workers[i]) == 1;
  }

  lemma ForkKeepsInv(d: Each)
    requires Inv(d) && Can(d, Fork)
    ensures Inv(Next(d, Fork))
  {
    var d' := Next(d, Fork);
    assert WorkerOk(d, d.forked);
    SumUpdate(d.workers, d.forked, Looping, Out);
    SumUpdate(d.workers, d.forked, Looping, AtLast);
    ElementsMove(d, d', d.forked, Looping);
    forall j | 0 <= j < |d.workers| ensures WorkerOk(d', j) { assert WorkerOk(d, j); }
  }

  /** Steps that leave the completion counter alone. */
  lemma WorkKeepsInv(d: Each, d': Each, i: nat, pc: Pc)
    requires Inv(d) && i < |d.workers| && !d.caller.Returned?
    requires d'.workers == d.workers[i := pc] && Out(pc) == Out(d.workers[i]) == 0 && pc != Unborn &&
             d.workers[i] != Unborn
    requires d'.forked == d.forked && d'.count == d.count && d'.scheduled == d.scheduled && d'.caller == d.caller &&
             d'.size == d.size
    requires HandedOk(d') && ErrorOk(d') && (forall k: nat :: ElementOk(d', k))
    requires (d.begin == d.size ==> d'.begin == d'.size) && (d.exception.Some? ==> d'.exception.Some?)
    requires pc == Leaving ==> d'.begin == d'.size || d'.exception.Some?
    requires pc.Failing? ==> pc.exn.from == pc.failed
    ensures Inv(d')
  {
    SumUpdate(d.workers, i, pc, Out);
    SumUpdate(d.workers, i, pc, AtLast);
    forall j | 0 <= j < |d.workers| ensures WorkerOk(d', j) { assert WorkerOk(d, j); }
  }

  lemma TakeKeepsInv(d: Each, i: nat)
    requires Inv(d) && Can(d, Take(i))
    ensures Inv(DoTake(d, i))
  {
    BusyMeansWaited(d, i);
    var d' := DoTake(d, i);
    ElementsMove(d, d', i, d'.workers[i]);
    WorkKeepsInv(d, d', i, d'.workers[i]);
  }

  lemma FinishKeepsInv(d: Each, i: nat)
    requires Inv(d) && Can(d, Finish(i))
    ensures Inv(Next(d, Finish(i)))
  {
    BusyMeansWaited(d, i);
    InHand(d, i, d.workers[i].k);
    ElementsMove(d, Next(d, Finish(i)), i, Looping);
    WorkKeepsInv(d, Next(d, Finish(i)), i, Looping);
  }

  lemma ThrowKeepsInv(d: Each, i: nat, what: nat)
    requires Inv(d) && Can(d, Throw(i, what))
    ensures Inv(Next(d, Throw(i, what)))
  {
    BusyMeansWaited(d, i);
    var pc := Failing(d.workers[i].k, Exn(d.workers[i].k, what));
    ElementsMove(d, Next(d, Throw(i, what)), i, pc);
    WorkKeepsInv(d, Next(d, Throw(i, what)), i, pc);
  }

  lemma RecordKeepsInv(d: Each, i: nat)
    requires Inv(d) && Can(d, Record(i))
    ensures Inv(Next(d, Record(i)))
  {
    BusyMeansWaited(d, i);
    var d' := Next(d, Record(i));
    InHand(d, i, d.workers[i].failed);
    ElementsMove(d, d', i, Leaving);
    assert WorkerOk(d, i) && d.workers[i].failed in d'.failed;
    WorkKeepsInv(d, d', i, Leaving);
  }

  lemma LeaveKeepsInv(d: Each, i: nat)
    requires Inv(d) && Can(d, Leave(i))
    ensures Inv(Next(d, Leave(i)))
  {
    BusyMeansWaited(d, i);
    var d' := Next(d, Leave(i));
    SumUpdate(d.workers, i, d'.workers[i], Out);
    SumUpdate(d.workers, i, d'.workers[i], AtLast);
    SumFull(d'.workers, Out);
    ElementsMove(d, d', i, d'.workers[i]);
    forall j | 0 <= j < |d.workers| ensures WorkerOk(d', j) { assert WorkerOk(d, j); }
  }

  lemma RouseKeepsInv(d: Each, i: nat)
    requires Inv(d) && Can(d, Rouse(i))
    ensures Inv(Next(d, Rouse(i)))
  {
    BusyMeansWaited(d, i);
    var d' := Next(d, Rouse(i));
    SumUpdate(d.workers, i, Gone, Out);
    SumUpdate(d.workers, i, Gone, AtLast);
    ElementsMove(d, d', i, Gone);
    forall j | 0 <= j < |d.workers| ensures WorkerOk(d', j) { assert WorkerOk(d, j); }
  }

  lemma CallerKeepsInv(d: Each, d': Each)
    requires Inv(d) && ((Can(d, Yield) && d' == Next(d, Yield)) || (Can(d, Resume) && d' == Next(d, Resume)))
    ensures Inv(d')
  {
    forall j | 0 <= j < |d.workers| ensures WorkerOk(d', j) { assert WorkerOk(d, j); }
    forall k: nat ensures ElementOk(d', k) { assert ElementOk(d, k); }
  }

  lemma NextKeepsInv(d: Each, st: Step)
    requires Inv(d) && Can(d, st)
    ensures Inv(Next(d, st))
  {
    match st
    case Fork => ForkKeepsInv(d);
    case Take(i) => TakeKeepsInv(d, i);
    case Finish(i) => FinishKeepsInv(d, i);
    case Throw(i, what) => ThrowKeepsInv(d, i, what);
    case Record(i) => RecordKeepsInv(d, i);
    case Leave(i) => LeaveKeepsInv(d, i);
    case Rouse(i) => RouseKeepsInv(d, i);
    case Yield => CallerKeepsInv(d, Next(d, st));
    case Resume => CallerKeepsInv(d, Next(d, st));
  }

  // ----- runs -----

  predicate Follows(d: Each, st: Step, d': Each) { Can(d, st) && d' == Next(d, st) }

  ghost predicate Leads(d: Each, d': Each) { exists st :: Follows(d, st, d') }

  ghost predicate IsRun(ds: seq<Each>, size: nat, parallelism: int) {
    && ds != [] && Starts(ds[0], size, parallelism)
    && forall i :: 0 < i < |ds| ==> Leads(ds[i - 1], ds[i])
  }

  lemma LeadsInv(d: Each, d': Each)
    requires Inv(d) && Leads(d, d')
    ensures Inv(d') && d'.size == d.size && |d'.workers| == |d.workers|
  {
    var st :| Follows(d, st, d');
    NextKeepsInv(d, st);
  }

  lemma {:induction false} RunHoldsInv(ds: seq<Each>, size: nat, parallelism: int, i: nat)
    requires IsRun(ds, size, parallelism) && i < |ds|
    ensures Inv(ds[i]) && ds[i].size == size && |ds[i].workers| == |ds[0].workers|
  {
    if i == 0 {
      StartsInv(ds[0], size, parallelism);
    } else {
      RunHoldsInv(ds, size, parallelism, i - 1);
      LeadsInv(ds[i - 1], ds[i]);
    }
  }

  /** Elements are handed out in iteration order, each to one worker and only once. */
  lemma HandsOutInOrder(ds: seq<Each>, size: nat, parallelism: int, i: nat)
    requires IsRun(ds, size, parallelism) && i < |ds|
    ensures |ds[i].handed| == ds[i].begin <= size
    ensures forall k :: 0 <= k < |ds[i].handed| ==> ds[i].handed[k].1 == k
    ensures forall k :: k in ds[i].finished + ds[i].failed ==> k < |ds[i].handed|
    ensures ds[i].finished !! ds[i].failed
  {
    RunHoldsInv(ds, size, parallelism, i);
    forall k: nat
      ensures k in ds[i].finished + ds[i].failed ==> k < ds[i].begin && !(k in ds[i].finished && k in ds[i].failed)
    {
      assert ElementOk(ds[i], k);
    }
  }

  /** After an exception is recorded no further element is handed out. */
  lemma {:induction false} NoneAfterException(ds: seq<Each>, size: nat, parallelism: int, i: nat, j: nat)
    requires IsRun(ds, size, parallelism) && i <= j < |ds| && ds[i].exception.Some?
    ensures ds[j].exception.Some? && ds[j].handed == ds[i].handed
  {
    if i < j {
      NoneAfterException(ds, size, parallelism, i, j - 1);
      var st :| Follows(ds[j - 1], st, ds[j]);
    }
  }

  /** The caller is scheduled at most once, and only when every worker has left. Then every element
      handed out has ended; all of them were handed out unless an exception was recorded; and the
      exception passed on is the last one recorded. */
  lemma CallerIsLast(ds: seq<Each>, size: nat, parallelism: int, i: nat)
    requires IsRun(ds, size, parallelism) && i < |ds|
    ensures ds[i].scheduled <= 1
    ensures ds[i].scheduled == 1 ==> forall w :: 0 <= w < |ds[i].workers| ==> ds[i].workers[w] == Gone
    ensures ds[i].scheduled == 1 ==> forall k: nat :: k < ds[i].begin <==> k in ds[i].finished + ds[i].failed
    ensures ds[i].scheduled == 1 && ds[i].recorded == [] ==> forall k: nat :: k < size <==> k in ds[i].finished
    ensures ds[i].caller.Returned? ==> ds[i].scheduled == 1
    ensures ds[i].caller.Returned? ==>
              ds[i].caller.result == if ds[i].recorded == [] then None else Some(ds[i].recorded[|ds[i].recorded| - 1])
  {
    RunHoldsInv(ds, size, parallelism, i);
    var d := ds[i];
    if d.scheduled == 1 {
      forall w | 0 <= w < |d.workers| ensures d.workers[w] == Gone {
        if d.workers[w] != Gone { BusyMeansWaited(d, w); }
      }
      forall k: nat ensures k < d.begin <==> k in d.finished + d.failed {
        assert ElementOk(d, k);
        SumZero(d.workers, pc => Has(pc, k));
      }
      assert WorkerOk(d, 0);
      if d.recorded == [] {
        assert d.failed == {} && d.begin == size;
        assert d.finished + d.failed == d.finished;
      }
    }
  }

  // ----- with at least one worker every run ends with the caller returning -----

  lemma SomebodyCanStep(d: Each) returns (st: Step)
    requires Inv(d) && |d.workers| > 0 && !d.caller.Returned?
    ensures Can(d, st)
  {
    if d.caller == Forking {
      st := if d.forked < |d.workers| then Fork else Yield;
    } else if d.scheduled > 0 {
      st := Resume;
    } else {
      SumFull(d.workers, Out);
      SumZero(d.workers, AtLast);
      var i :| 0 <= i < |d.workers| && d.workers[i] != Gone;
      assert WorkerOk(d, i);
      match d.workers[i]
      case Looping => st := Take(i);
      case Running(_) => st := Finish(i);
      case Failing(_, _) => st := Record(i);
      case Leaving => st := Leave(i);
      case Last => st := Rouse(i);
    }
  }

  function Left(pc: Pc): nat {
    match pc
    case Unborn => 4 case Looping => 3 case Running(_) => 5 case Failing(_, _) => 4
    case Leaving => 2 case Last => 1 case Gone => 0
  }

  function CallerLeft(c: Caller): nat {
    match c case Forking => 2 case Parked => 1 case Returned(_) => 0
  }

  function Remaining(d: Each): int { 3 * (d.size - d.begin) + Sum(d.workers, Left) + CallerLeft(d.caller) }

  lemma StepsRunOut(d: Each, st: Step)
    requires Inv(d) && Can(d, st)
    ensures Remaining(Next(d, st)) < Remaining(d)
  {
    var d' := Next(d, st);
    match st
    case Fork => assert WorkerOk(d, d.forked); SumUpdate(d.workers, d.forked, Looping, Left);
    case Take(i) => SumUpdate(d.workers, i, d'.workers[i], Left);
    case Finish(i) => SumUpdate(d.workers, i, Looping, Left);
    case Throw(i, what) => SumUpdate(d.workers, i, d'.workers[i], Left);
    case Record(i) => SumUpdate(d.workers, i, Leaving, Left);
    case Leave(i) => SumUpdate(d.workers, i, d'.workers[i], Left);
    case Rouse(i) => SumUpdate(d.workers, i, Gone, Left);
    case Yield =>
    case Resume =>
  }

  lemma {:induction false} RunIsShort(ds: seq<Each>, size: nat, parallelism: int, i: nat)
    requires IsRun(ds, size, parallelism) && i < |ds|
    ensures 0 <= Remaining(ds[i]) && Remaining(ds[i]) + i <= 3 * size + 4 * |ds[0].workers| + 2
  {
    RunHoldsInv(ds, size, parallelism, i);
    if i == 0 {
      SumOfUnborn(|ds[0].workers|);
    } else {
      RunIsShort(ds, size, parallelism, i - 1);
      RunHoldsInv(ds, size, parallelism, i - 1);
      var st :| Follows(ds[i - 1], st, ds[i]);
      StepsRunOut(ds[i - 1], st);
    }
  }

  lemma {:induction false} SumOfUnborn(n: nat)
    ensures Sum(seq(n, _ => Unborn), Left) == 4 * n
  {
    if n > 0 {
      SumOfUnborn(n - 1);
      assert seq(n, _ => Unborn)[1..] == seq(n - 1, _ => Unborn);
    }
  }

  ghost predicate Stuck(d: Each) { forall st :: !Can(d, st) }

  /** Every run is finite, and the caller of a finished run has returned exactly if it asked for at
      least one worker: a parallelism of zero, or below -1, leaves it suspended for good. */
  lemma ReturnsIffWorkers(ds: seq<Each>, size: nat, parallelism: int)
    requires IsRun(ds, size, parallelism)
    ensures |ds| <= 3 * size + 4 * |ds[0].workers| + 3
    ensures Stuck(ds[|ds| - 1]) ==> (ds[|ds| - 1].caller.Returned? <==> parallelism == -1 || parallelism > 0)
  {
    var last := |ds| - 1;
    RunIsShort(ds, size, parallelism, last);
    RunHoldsInv(ds, size, parallelism, last);
    if !ds[last].caller.Returned? && |ds[last].workers| > 0 {
      var st := SomebodyCanStep(ds[last]);
    }
  }

  /** Asked for no workers, the caller yields, and nothing can happen any more. */
  lemma NoWorkersNoReturn(size: nat) returns (ds: seq<Each>)
    ensures IsRun(ds, size, 0) && Stuck(ds[|ds| - 1]) && !ds[|ds| - 1].caller.Returned?
  {
    var d0 := Each(size, 0, None, 0, [], 0, 0, Forking, [], {}, {}, []);
    ds := [d0, Next(d0, Yield)];
    assert Follows(ds[0], Yield, ds[1]);
  }

  // ----- the first exception or the last -----

  /** The caller gets the first exception exactly if it was the only one. */
  lemma FirstIffOnly(ds: seq<Each>, size: nat, parallelism: int, i: nat)
    requires IsRun(ds, size, parallelism) && i < |ds| && ds[i].caller.Returned? && ds[i].recorded != []
    ensures ds[i].caller.result == Some(ds[i].recorded[0]) <==> |ds[i].recorded| == 1
  {
    RunHoldsInv(ds, size, parallelism, i);
  }

  /** A state in which the caller has an exception. */
  ghost predicate Rethrown(ds: seq<Each>, size: nat, parallelism: int, i: nat) {
    IsRun(ds, size, parallelism) && i < |ds| && ds[i].caller.Returned? && ds[i].recorded != []
  }

  ghost predicate AlwaysFirst(size: nat, parallelism: int) {
    forall ds: seq<Each>, i: nat :: Rethrown(ds, size, parallelism, i) ==>
      ds[i].caller.result == Some(ds[i].recorded[0])
  }

  /** One element fails once. */
  lemma OneFailure(ds: seq<Each>, size: nat, parallelism: int, i: nat)
    requires IsRun(ds, size, parallelism) && i < |ds| && size <= 1
    ensures |ds[i].recorded| <= 1
  {
    RunHoldsInv(ds, size, parallelism, i);
    HandsOutInOrder(ds, size, parallelism, i);
    assert |ds[i].recorded| > 1 ==> ds[i].recorded[0].from != ds[i].recorded[1].from;
    forall j | 0 <= j < |ds[i].recorded| ensures ds[i].recorded[j].from == 0 {
      assert ds[i].recorded[j].from in ds[i].finished + ds[i].failed;
    }
  }

  lemma Extend(ds: seq<Each>, size: nat, parallelism: int, st: Step) returns (ds': seq<Each>)
    requires IsRun(ds, size, parallelism) && Can(ds[|ds| - 1], st)
    ensures IsRun(ds', size, parallelism) && |ds'| == |ds| + 1 && ds'[|ds|] == Next(ds[|ds| - 1], st)
  {
    ds' := ds + [Next(ds[|ds| - 1], st)];
    assert Follows(ds[|ds| - 1], st, ds'[|ds|]);
    forall i | 0 < i < |ds'| ensures Leads(ds'[i - 1], ds'[i]) {
      if i < |ds| { assert Leads(ds[i - 1], ds[i]); }
    }
  }

  /** Any run with workers can be carried on until the caller has returned; what was recorded stays. */
  lemma {:induction false} CarriedOn(ds: seq<Each>, size: nat, parallelism: int) returns (ds': seq<Each>)
    requires IsRun(ds, size, parallelism) && (parallelism == -1 || parallelism > 0)
    ensures IsRun(ds', size, parallelism) && ds'[|ds'| - 1].caller.Returned?
    ensures ds[|ds| - 1].recorded <= ds'[|ds'| - 1].recorded
    decreases 3 * size + 4 * |ds[0].workers| + 3 - |ds|
  {
    var last := ds[|ds| - 1];
    ReturnsIffWorkers(ds, size, parallelism);
    RunHoldsInv(ds, size, parallelism, |ds| - 1);
    if last.caller.Returned? {
      ds' := ds;
    } else {
      var st := SomebodyCanStep(last);
      var more := Extend(ds, size, parallelism, st);
      RunHoldsInv(more, size, parallelism, |more| - 1);
      RunHoldsInv(more, size, parallelism, 0);
      ReturnsIffWorkers(more, size, parallelism);
      ds' := CarriedOn(more, size, parallelism);
    }
  }

  // ----- how many functors run at once -----

  function InFunctor(pc: Pc): nat { if pc.Running? then 1 else 0 }

  /** As many as asked for, four by default, none for any other negative number; never more than elements. */
  function Limit(size: nat, parallelism: int): int {
    Min(size, if parallelism == -1 then 4 else if parallelism < 0 then 0 else parallelism)
  }

  lemma {:induction false} HasOne(ws: seq<Pc>, i: nat, k: nat)
    requires i < |ws| && ws[i] == Running(k)
    ensures Sum(ws, pc => Has(pc, k)) >= 1
  {
    if i > 0 { HasOne(ws[1..], i - 1, k); }
  }

  lemma {:induction false} HasTwo(ws: seq<Pc>, i: nat, j: nat, k: nat)
    requires i < j < |ws| && ws[i] == ws[j] == Running(k)
    ensures Sum(ws, pc => Has(pc, k)) >= 2
  {
    if i > 0 { HasTwo(ws[1..], i - 1, j - 1, k); } else { HasOne(ws[1..], j - 1, k); }
  }

  function Below(n: nat): (s: set<nat>)
    ensures |s| == n && forall k: nat :: k in s <==> k < n
  {
    if n == 0 then {} else Below(n - 1) + {n - 1}
  }

  lemma {:induction false} RunningAreFew(ws: seq<Pc>, taken: set<nat>)
    requires forall i :: 0 <= i < |ws| && ws[i].Running? ==> ws[i].k in taken
    requires forall i, j :: 0 <= i < j < |ws| && ws[i].Running? && ws[j].Running? ==> ws[i].k != ws[j].k
    ensures Sum(ws, InFunctor) <= |taken|
  {
    if ws != [] {
      var rest := if ws[0].Running? then taken - {ws[0].k} else taken;
      assert forall i :: 0 <= i < |ws| - 1 ==> ws[1..][i] == ws[i + 1];
      RunningAreFew(ws[1..], rest);
    }
  }

  lemma AtMostElements(d: Each)
    requires Inv(d)
    ensures Sum(d.workers, InFunctor) <= d.begin
  {
    var taken := Below(d.begin);
    forall i | 0 <= i < |d.workers| && d.workers[i].Running? ensures d.workers[i].k in taken {
      assert ElementOk(d, d.workers[i].k);
      HasOne(d.workers, i, d.workers[i].k);
    }
    forall i, j | 0 <= i < j < |d.workers| && d.workers[i].Running? && d.workers[j].Running?
      ensures d.workers[i].k != d.workers[j].k
    {
      assert ElementOk(d, d.workers[i].k);
      if d.workers[i].k == d.workers[j].k { HasTwo(d.workers, i, j, d.workers[i].k); }
    }
    RunningAreFew(d.workers, taken);
  }

  /** No more functors run at once than were asked for. */
  lemma AtMostParallelism(ds: seq<Each>, size: nat, parallelism: int, i: nat)
    requires IsRun(ds, size, parallelism) && i < |ds|
    ensures Sum(ds[i].workers, InFunctor) <= Limit(size, parallelism)
    ensures parallelism > 0 ==> Sum(ds[i].workers, InFunctor) <= parallelism
  {
    RunHoldsInv(ds, size, parallelism, i);
    AtMostElements(ds[i]);
    SumFull(ds[i].workers, InFunctor);
  }

  /** The first k workers run their functors on the first k elements. */
  predicate Busy(d: Each, size: nat, k: nat) {
    && k <= |d.workers| && d.size == size && d.begin == k && d.exception == None
    && d.caller == Forking && d.forked == k
    && forall i :: 0 <= i < |d.workers| ==> d.workers[i] == if i < k then Running(i) else Unborn
  }

  lemma {:induction false} BusyReached(size: nat, k: nat, parallelism: int) returns (ds: seq<Each>)
    requires parallelism != 1 && k <= Limit(size, parallelism)
    ensures IsRun(ds, size, parallelism) && Busy(ds[|ds| - 1], size, k)
    ensures Limit(size, parallelism) <= |ds[|ds| - 1].workers|
  {
    if k == 0 {
      var n := if parallelism == -1 then 4 else if parallelism < 0 then 0 else parallelism;
      ds := [Each(size, 0, None, n, seq(n, _ => Unborn), 0, 0, Forking, [], {}, {}, [])];
    } else {
      ds := BusyReached(size, k - 1, parallelism);
      ds := Extend(ds, size, parallelism, Fork);
      ds := Extend(ds, size, parallelism, Take(k - 1));
    }
  }

  lemma {:induction false} FirstBusy(ws: seq<Pc>, k: nat)
    requires k <= |ws|
    requires forall i :: 0 <= i < |ws| ==> (ws[i].Running? <==> i < k)
    ensures Sum(ws, InFunctor) == k
  {
    if ws != [] {
      assert forall i :: 0 <= i < |ws| - 1 ==> ws[1..][i] == ws[i + 1];
      FirstBusy(ws[1..], if k > 0 then k - 1 else 0);
    }
  }

  /** And the bound is exact: some run has that many at once. */
  lemma ParallelismReached(size: nat, parallelism: int) returns (ds: seq<Each>)
    requires parallelism != 1
    ensures IsRun(ds, size, parallelism) && Sum(ds[|ds| - 1].workers, InFunctor) == Limit(size, parallelism)
    ensures parallelism > 0 ==> Sum(ds[|ds| - 1].workers, InFunctor) == Min(size, parallelism)
  {
    ds := BusyReached(size, Limit(size, parallelism), parallelism);
    FirstBusy(ds[|ds| - 1].workers, Limit(size, parallelism));
  }

  lemma BothRun(size: nat, parallelism: int) returns (ds: seq<Each>)
    requires size >= 2 && (parallelism == -1 || parallelism >= 2)
    ensures IsRun(ds, size, parallelism)
    ensures var d := ds[|ds| - 1];
            |d.workers| >= 2 && d.workers[0] == Running(0) && d.workers[1] == Running(1) && d.recorded == []
  {
    var n := if parallelism == -1 then 4 else parallelism;
    ds := [Each(size, 0, None, n, seq(n, _ => Unborn), 0, 0, Forking, [], {}, {}, [])];
    ds := Extend(ds, size, parallelism, Fork);
    ds := Extend(ds, size, parallelism, Fork);
    ds := Extend(ds, size, parallelism, Take(0));
    ds := Extend(ds, size, parallelism, Take(1));
  }

  /** Two functors are in flight and both throw: the caller gets the second exception. */
  lemma SecondReplacesFirst(size: nat, parallelism: int) returns (ds: seq<Each>)
    requires size >= 2 && (parallelism == -1 || parallelism >= 2)
    ensures ds != [] && Rethrown(ds, size, parallelism, |ds| - 1)
    ensures ds[|ds| - 1].caller.result != Some(ds[|ds| - 1].recorded[0])
  {
    ds := BothRun(size, parallelism);
    ds := Extend(ds, size, parallelism, Throw(0, 0));
    ds := Extend(ds, size, parallelism, Throw(1, 0));
    ds := Extend(ds, size, parallelism, Record(0));
    ds := Extend(ds, size, parallelism, Record(1));
    assert |ds[|ds| - 1].recorded| == 2;
    ds := CarriedOn(ds, size, parallelism);
    FirstIffOnly(ds, size, parallelism, |ds| - 1);
  }

  /** The caller gets the first exception in every run exactly if there is at most one element, or no
      run comes back. With one worker the elements run in the caller, in order. */
  lemma FirstIffSequential(size: nat, parallelism: int)
    requires parallelism != 1
    ensures AlwaysFirst(size, parallelism) <==> size <= 1 || (parallelism != -1 && parallelism <= 0)
  {
    if size <= 1 || (parallelism != -1 && parallelism <= 0) {
      forall ds: seq<Each>, i: nat | Rethrown(ds, size, parallelism, i)
        ensures ds[i].caller.result == Some(ds[i].recorded[0])
      {
        FirstIffOnly(ds, size, parallelism, i);
        if size <= 1 { OneFailure(ds, size, parallelism, i); } else { NoWorkers(ds, size, parallelism, i); }
      }
    } else {
      var ds := SecondReplacesFirst(size, parallelism);
      assert Rethrown(ds, size, parallelism, |ds| - 1);
    }
  }

  /** Without workers the caller does not return. */
  lemma NoWorkers(ds: seq<Each>, size: nat, parallelism: int, i: nat)
    requires IsRun(ds, size, parallelism) && i < |ds| && parallelism != -1 && parallelism <= 0
    ensures !ds[i].caller.Returned?
  {
    RunHoldsInv(ds, size, parallelism, i);
  }
}

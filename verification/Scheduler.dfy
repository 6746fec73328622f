/** The shared run queue of a Scheduler: what one pass of the run loop takes
    out of it, and the bookkeeping around it. */
module Scheduling {
  import opened Common

  /** What can be queued: a fiber, or a functor that the run loop wraps in a fiber. */
  datatype Task = FiberTask(f: Fid) | DgTask(dg: nat)

  /** One entry of the queue; `thread` is the thread it is bound to, if any. */
  datatype Item = Item(task: Task, thread: Option<Tid>)

  predicate Mine(it: Item, me: Tid) {
    it.thread == None || it.thread == Some(me)
  }

  predicate Executing(it: Item, busy: set<Fid>) {
    it.task.FiberTask? && it.task.f in busy
  }

  predicate Eligible(it: Item, me: Tid, busy: set<Fid>) {
    Mine(it, me) && !Executing(it, busy)
  }

  // ----- reference: what a pass may take and must leave -----

  function EligibleOf(q: seq<Item>, me: Tid, busy: set<Fid>): seq<Item> {
    if q == [] then []
    else (if Eligible(q[0], me, busy) then [q[0]] else []) + EligibleOf(q[1..], me, busy)
  }

  function IneligibleOf(q: seq<Item>, me: Tid, busy: set<Fid>): seq<Item> {
    if q == [] then []
    else (if Eligible(q[0], me, busy) then [] else [q[0]]) + IneligibleOf(q[1..], me, busy)
  }

  // ----- the pass itself -----

  /** The items a pass takes when it may take `k`. */
  function Take(q: seq<Item>, me: Tid, busy: set<Fid>, k: nat): seq<Item> {
    if q == [] || k == 0 then []
    else if Eligible(q[0], me, busy) then [q[0]] + Take(q[1..], me, busy, k - 1)
    else Take(q[1..], me, busy, k)
  }

  /** The queue it leaves behind. */
  function Rest(q: seq<Item>, me: Tid, busy: set<Fid>, k: nat): seq<Item> {
    if q == [] || k == 0 then q
    else if Eligible(q[0], me, busy) then Rest(q[1..], me, busy, k - 1)
    else [q[0]] + Rest(q[1..], me, busy, k)
  }

  /** A pass takes the first min(k, n) eligible items in queue order. */
  lemma {:induction false} TakeIsFirstEligible(q: seq<Item>, me: Tid, busy: set<Fid>, k: nat)
    ensures Take(q, me, busy, k) == EligibleOf(q, me, busy)[..Min(k, |EligibleOf(q, me, busy)|)]
  {
    if q != [] && k != 0 {
      TakeIsFirstEligible(q[1..], me, busy, if Eligible(q[0], me, busy) then k - 1 else k);
    }
  }

  /** What it leaves is the scanned part without its eligible items, followed by
      the untouched part: nothing else is removed and nothing is reordered. */
  lemma {:induction false} RestKeepsOrder(q: seq<Item>, me: Tid, busy: set<Fid>, k: nat) returns (cut: nat)
    ensures cut <= |q|
    ensures Take(q, me, busy, k) == EligibleOf(q[..cut], me, busy)
    ensures Rest(q, me, busy, k) == IneligibleOf(q[..cut], me, busy) + q[cut..]
    ensures |Take(q, me, busy, k)| < k ==> cut == |q|
  {
    if q == [] || k == 0 {
      cut := 0;
    } else {
      var c := RestKeepsOrder(q[1..], me, busy, if Eligible(q[0], me, busy) then k - 1 else k);
      cut := c + 1;
      assert q[..cut][1..] == q[1..][..c] && q[cut..] == q[1..][c..];
    }
  }

  /** Together they are the old queue. */
  lemma {:induction false} TakeAndRestPartition(q: seq<Item>, me: Tid, busy: set<Fid>, k: nat)
    ensures multiset(Take(q, me, busy, k)) + multiset(Rest(q, me, busy, k)) == multiset(q)
  {
    if q != [] && k != 0 {
      TakeAndRestPartition(q[1..], me, busy, if Eligible(q[0], me, busy) then k - 1 else k);
      assert q == [q[0]] + q[1..];
    }
  }

  /** A thread takes only what is for any thread, or for itself, and no fiber it saw executing; and it
      leaves nothing of that kind while its batch is not full. */
  lemma {:induction false} TakenAreEligible(q: seq<Item>, me: Tid, busy: set<Fid>, k: nat)
    ensures forall it :: it in Take(q, me, busy, k) ==>
              && it in q && (it.thread == None || it.thread == Some(me))
              && !(it.task.FiberTask? && it.task.f in busy)
    ensures |Take(q, me, busy, k)| <= k
    ensures |Take(q, me, busy, k)| < k ==>
              forall it :: it in Rest(q, me, busy, k) ==>
                (it.thread != None && it.thread != Some(me)) || (it.task.FiberTask? && it.task.f in busy)
  {
    if q != [] && k != 0 {
      TakenAreEligible(q[1..], me, busy, if Eligible(q[0], me, busy) then k - 1 else k);
    }
  }

  lemma {:induction false} EligibleOfSnoc(q: seq<Item>, it: Item, me: Tid, busy: set<Fid>)
    ensures EligibleOf(q + [it], me, busy) == EligibleOf(q, me, busy) + (if Eligible(it, me, busy) then [it] else [])
  {
    if q != [] {
      assert (q + [it])[1..] == q[1..] + [it];
      EligibleOfSnoc(q[1..], it, me, busy);
    }
  }

  lemma {:induction false} IneligibleOfSnoc(q: seq<Item>, it: Item, me: Tid, busy: set<Fid>)
    ensures IneligibleOf(q + [it], me, busy) ==
            IneligibleOf(q, me, busy) + (if Eligible(it, me, busy) then [] else [it])
  {
    if q != [] {
      assert (q + [it])[1..] == q[1..] + [it];
      IneligibleOfSnoc(q[1..], it, me, busy);
    }
  }

  lemma {:induction false} IneligibleAreNot(q: seq<Item>, me: Tid, busy: set<Fid>)
    ensures forall it :: it in IneligibleOf(q, me, busy) ==> it in q && !Eligible(it, me, busy)
  {
    if q != [] { IneligibleAreNot(q[1..], me, busy); }
  }

  lemma ScanStep(q: seq<Item>, i: nat, me: Tid, busy: set<Fid>)
    requires i < |q|
    ensures EligibleOf(q[..i + 1], me, busy) ==
            EligibleOf(q[..i], me, busy) + (if Eligible(q[i], me, busy) then [q[i]] else [])
    ensures IneligibleOf(q[..i + 1], me, busy) ==
            IneligibleOf(q[..i], me, busy) + (if Eligible(q[i], me, busy) then [] else [q[i]])
  {
    assert q[..i + 1] == q[..i] + [q[i]];
    EligibleOfSnoc(q[..i], q[i], me, busy);
    IneligibleOfSnoc(q[..i], q[i], me, busy);
  }

  /** A scan that stopped at `cut` with its batch full, or at the end, computed Take and Rest. */
  lemma {:induction false} ScanIsTake(q: seq<Item>, cut: nat, me: Tid, busy: set<Fid>, k: nat)
    requires cut <= |q|
    requires |EligibleOf(q[..cut], me, busy)| <= k
    requires cut == |q| || |EligibleOf(q[..cut], me, busy)| == k
    ensures Take(q, me, busy, k) == EligibleOf(q[..cut], me, busy)
    ensures Rest(q, me, busy, k) == IneligibleOf(q[..cut], me, busy) + q[cut..]
  {
    if k == 0 {
      NothingEligible(q[..cut], me, busy);
      assert q == q[..cut] + q[cut..];
    } else if cut == 0 {
      assert q[..cut] == [] && q == [];
    } else {
      Peel(q, cut, me, busy);
      ScanIsTake(q[1..], cut - 1, me, busy, if Eligible(q[0], me, busy) then k - 1 else k);
    }
  }

  lemma Peel(q: seq<Item>, cut: nat, me: Tid, busy: set<Fid>)
    requires 0 < cut <= |q|
    ensures q[cut..] == q[1..][cut - 1..]
    ensures EligibleOf(q[..cut], me, busy) ==
            (if Eligible(q[0], me, busy) then [q[0]] else []) + EligibleOf(q[1..][..cut - 1], me, busy)
    ensures IneligibleOf(q[..cut], me, busy) ==
            (if Eligible(q[0], me, busy) then [] else [q[0]]) + IneligibleOf(q[1..][..cut - 1], me, busy)
  {
    assert q[..cut][0] == q[0] && q[..cut][1..] == q[1..][..cut - 1];
  }

  lemma {:induction false} NothingEligible(q: seq<Item>, me: Tid, busy: set<Fid>)
    requires EligibleOf(q, me, busy) == []
    ensures IneligibleOf(q, me, busy) == q
  {
    if q != [] { NothingEligible(q[1..], me, busy); }
  }

  // ----- the order in which tasks start -----

  function Backwards(s: seq<Item>): (r: seq<Item>)
    ensures |r| == |s| && forall i :: 0 <= i < |s| ==> r[i] == s[|s| - 1 - i]
  {
    if s == [] then [] else [s[|s| - 1]] + Backwards(s[..|s| - 1])
  }

  /** How one thread starts what is queued when nothing is added: pass by pass, every batch
      from its back. */
  function StartOrder(q: seq<Item>, me: Tid, k: nat): seq<Item>
    decreases |q|
  {
    var batch := Take(q, me, {}, k);
    if batch == [] || |Rest(q, me, {}, k)| >= |q| then []
    else Backwards(batch) + StartOrder(Rest(q, me, {}, k), me, k)
  }

  lemma {:induction false} AllEligible(q: seq<Item>, me: Tid, k: nat)
    requires forall i :: 0 <= i < |q| ==> Mine(q[i], me)
    ensures Take(q, me, {}, k) == q[..Min(k, |q|)] && Rest(q, me, {}, k) == q[Min(k, |q|)..]
  {
    if q != [] && k != 0 { AllEligible(q[1..], me, k - 1); }
  }

  /** Tasks start in the order they were scheduled exactly if they are taken one at a time, or
      there are fewer than two. */
  lemma {:induction false} FifoIff(q: seq<Item>, me: Tid, k: nat)
    requires k > 0 && forall i :: 0 <= i < |q| ==> Mine(q[i], me)
    requires forall i, j :: 0 <= i < j < |q| ==> q[i] != q[j]
    ensures StartOrder(q, me, k) == q <==> k == 1 || |q| < 2
    decreases |q|
  {
    AllEligible(q, me, k);
    if q != [] {
      var n := Min(k, |q|);
      var first := Backwards(q[..n]);
      assert StartOrder(q, me, k) == first + StartOrder(q[n..], me, k);
      if n == 1 {
        assert first == [q[0]] && q == first + q[1..];
        FifoIff(q[1..], me, k);
        assert (first + StartOrder(q[1..], me, k))[1..] == StartOrder(q[1..], me, k);
      } else {
        assert (first + StartOrder(q[n..], me, k))[0] == q[n - 1];
      }
    }
  }

  /** Two tasks taken in one batch start the wrong way round. */
  lemma PairStartsReversed(a: Item, b: Item, me: Tid)
    requires a != b && Mine(a, me) && Mine(b, me)
    ensures StartOrder([a, b], me, 2) == [b, a]
  {
    AllEligible([a, b], me, 2);
    assert [a, b][..2] == [a, b] && [a, b][2..] == [];
    assert [a, b][..1] == [a] && [a][..0] == [];
    assert Backwards([a, b]) == [b, a];
  }

  lemma {:induction false} BackwardsSame(s: seq<Item>)
    ensures multiset(Backwards(s)) == multiset(s)
  {
    if s != [] {
      BackwardsSame(s[..|s| - 1]);
      assert s == s[..|s| - 1] + [s[|s| - 1]];
    }
  }

  /** A batch stopped before its first `left` tasks. */
  lemma {:induction false} StoppedIsPrefix(batch: seq<Item>, left: nat)
    requires left <= |batch|
    ensures Backwards(batch[left..]) <= Backwards(batch)
  {
    if left < |batch| {
      var tail, init := batch[left..], batch[..|batch| - 1];
      StoppedIsPrefix(init, left);
      assert tail[..|tail| - 1] == init[left..] && tail[|tail| - 1] == batch[|batch| - 1];
      assert Backwards(tail) == [batch[|batch| - 1]] + Backwards(init[left..]);
    }
  }

  lemma StoppedConserves(batch: seq<Item>, left: nat)
    requires left <= |batch|
    ensures multiset(Backwards(batch[left..])) + multiset(batch[..left]) == multiset(batch)
  {
    BackwardsSame(batch[left..]);
    assert batch == batch[..left] + batch[left..];
  }

  /** Tasks started from the back of a batch, what is left of it, and what was not taken. */
  lemma PassConserves(queued: seq<Item>, me: Tid, busy: set<Fid>, k: nat, left: nat)
    requires left <= |Take(queued, me, busy, k)|
    ensures var batch, rest := Take(queued, me, busy, k), Rest(queued, me, busy, k);
            && multiset(Backwards(batch[left..])) + multiset(rest + batch[..left]) == multiset(queued)
            && rest + batch[..0] == rest
  {
    hide Take, Rest, Backwards;
    TakeAndRestPartition(queued, me, busy, k);
    StoppedConserves(Take(queued, me, busy, k), left);
  }

  /** The queue and counters of one scheduler. `threadCount` counts the spawned
      threads and the hijacked one; it is fixed. */
  class Scheduler {
    var fibers: seq<Item>
    var activeThreadCount: nat
    var stopping: bool
    const batchSize: nat
    const threadCount: nat

    constructor (threads: nat, batch: nat)
      ensures fibers == [] && activeThreadCount == 0 && stopping
      ensures threadCount == threads && batchSize == batch
    {
      fibers, activeThreadCount, stopping := [], 0, true;
      threadCount, batchSize := threads, batch;
    }

    /** Queue one item; the result says whether the queue was empty before. */
    method ScheduleNoLock(it: Item) returns (tickleMe: bool)
      modifies this`fibers
      ensures fibers == old(fibers) + [it]
      ensures tickleMe <==> old(fibers) == []
    {
      tickleMe := fibers == [];
      fibers := fibers + [it];
    }

    /** Queue a range in order; only the first item can find the queue empty. */
    method ScheduleRange(items: seq<Item>) returns (tickleMe: bool)
      modifies this`fibers
      ensures fibers == old(fibers) + items
      ensures tickleMe <==> old(fibers) == [] && items != []
    {
      tickleMe := false;
      var i := 0;
      while i < |items|
        invariant i <= |items|
        invariant fibers == old(fibers) + items[..i]
        invariant tickleMe <==> old(fibers) == [] && i > 0
      {
        var was := ScheduleNoLock(items[i]);
        tickleMe := was || tickleMe;
        i := i + 1;
        assert items[..i] == items[..i - 1] + [items[i - 1]];
      }
    }

    /** One pass of the run loop over the queue by thread `me`. `busy` are the fibers
        it saw executing; `wasActive` is the thread's own flag before the pass. */
    method SelectBatch(me: Tid, busy: set<Fid>, wasActive: bool)
      returns (batch: seq<Item>, isActive: bool, tickleMe: bool, dontIdle: bool)
      requires wasActive ==> activeThreadCount > 0 && batchSize > 0  // only a pass that took something sets it
      modifies this`fibers, this`activeThreadCount
      ensures batch == Take(old(fibers), me, busy, batchSize)
      ensures fibers == Rest(old(fibers), me, busy, batchSize)
      ensures isActive <==> batch != []
      ensures activeThreadCount == old(activeThreadCount) - (if wasActive then 1 else 0) + (if isActive then 1 else 0)
      // work left for somebody else is announced, unless every thread is already busy
      ensures forall it :: it in fibers && !(Mine(it, me) && Executing(it, busy)) ==>
                             tickleMe || activeThreadCount == threadCount
      // a thread that took nothing goes idle only when there is nothing queued at all
      ensures batchSize > 0 && batch == [] ==> (dontIdle <==> fibers != [])
    {
      batch, isActive, tickleMe, dontIdle := [], wasActive, false, false;
      var done: seq<Item> := [];  // entries already passed over
      var todo := fibers;
      ghost var i := 0;
      ghost var q := fibers;
      while todo != []
        invariant i <= |q| && todo == q[i..]
        invariant batch == EligibleOf(q[..i], me, busy) && |batch| <= batchSize
        invariant done == IneligibleOf(q[..i], me, busy)
        invariant isActive <==> wasActive || batch != []
        invariant activeThreadCount == old(activeThreadCount) + (if isActive && !wasActive then 1 else 0)
        invariant !tickleMe ==> forall it :: it in done ==> Mine(it, me)
        invariant dontIdle <==> done != []
        decreases |todo|
      {
        if (tickleMe || activeThreadCount == threadCount) && |batch| == batchSize { break; }
        var it := todo[0];
        if it.thread != None && it.thread != Some(me) {
          tickleMe, dontIdle := true, true;
          done := done + [it];
        } else if it.task.FiberTask? && it.task.f in busy {
          dontIdle := true;
          done := done + [it];
        } else if |batch| == batchSize {
          tickleMe := true;
          break;
        } else {
          batch := batch + [it];
          if !isActive {
            activeThreadCount := activeThreadCount + 1;
            isActive := true;
          }
        }
        todo := todo[1..];
        ScanStep(q, i, me, busy);
        i := i + 1;
      }
      fibers := done + todo;
      ScanIsTake(q, i, me, busy, batchSize);
      IneligibleAreNot(q[..i], me, busy);
      if batch == [] && isActive {
        activeThreadCount := activeThreadCount - 1;
        isActive := false;
      }
    }

    /** The inner loop: the tasks of a batch in the order they are started. */
    method RunBatch(batch: seq<Item>) returns (started: seq<Item>)
      ensures started == Backwards(batch)
    {
      started := [];
      var left := batch;
      while left != []
        invariant |left| <= |batch| && left == batch[..|left|]
        invariant |started| == |batch| - |left|
        invariant forall i :: 0 <= i < |started| ==> started[i] == batch[|batch| - 1 - i]
        decreases |left|
      {
        started := started + [left[|left| - 1]];
        left := left[..|left| - 1];
      }
    }

    /** The exception path: what is left of the batch goes back to the queue. */
    method RequeueBatch(batch: seq<Item>)
      requires activeThreadCount > 0
      modifies this`fibers, this`activeThreadCount
      ensures fibers == old(fibers) + batch
      ensures activeThreadCount == old(activeThreadCount) - 1
    {
      fibers := fibers + batch;
      activeThreadCount := activeThreadCount - 1;
    }

    /** One pass from the queue to the end of the batch. Task number `failing` throws, if the batch
        reaches that far: then the rest of the batch is queued behind everything else, still in
        order, and the thread no longer counts as active. Either way every task is started or
        queued. */
    method Pass(me: Tid, busy: set<Fid>, wasActive: bool, failing: nat)
      returns (started: seq<Item>, threw: bool)
      requires wasActive ==> activeThreadCount > 0 && batchSize > 0
      modifies this`fibers, this`activeThreadCount
      ensures multiset(started) + multiset(fibers) == multiset(old(fibers))
      ensures threw <==> failing < |Take(old(fibers), me, busy, batchSize)|
      ensures started <= Backwards(Take(old(fibers), me, busy, batchSize))
      ensures |started| == if threw then failing + 1 else |Take(old(fibers), me, busy, batchSize)|
      ensures |started| <= |Take(old(fibers), me, busy, batchSize)|
      ensures fibers == Rest(old(fibers), me, busy, batchSize)
                        + Take(old(fibers), me, busy, batchSize)[..|Take(old(fibers), me, busy, batchSize)| - |started|]
      ensures threw ==> activeThreadCount == old(activeThreadCount) - (if wasActive then 1 else 0)
    {
      hide Take, Rest, Backwards;
      ghost var queued := fibers;
      var batch, isActive, tickleMe, dontIdle := SelectBatch(me, busy, wasActive);
      threw := failing < |batch|;
      var left := if threw then |batch| - failing - 1 else 0;
      StoppedIsPrefix(batch, left);
      PassConserves(queued, me, busy, batchSize, left);
      started := RunBatch(batch[left..]);
      if threw {
        RequeueBatch(batch[..left]);
      }
    }
  }
}

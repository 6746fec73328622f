/** waitAll() and waitAny() on a scheduler with several threads.

    Every signaller that finds the waiting fiber schedules it, so it can be in the run queue several
    times. A run loop skips entries of a fiber that is executing, but takes them while the fiber is
    suspended, and calls yieldTo() later. The machine of Futures is run here by n run loops of
    one scheduler. Their other tasks, and the size of their batches, are left open. */
module WaitThreads {
  import opened Common
  import opened Tally
  import Futures

  /** A run loop, as far as the entries of the fiber go; `left` of them are still in its batch. */
  datatype Loop =
    | Scan(left: nat)     // going through the run queue
    | Batch(left: nat)    // between two tasks of its batch
    | Resume(left: nat)   // popped an entry, about to call yieldTo() on the fiber
    | Host(left: nat)     // the fiber runs on this thread
    | Parting(left: nat)  // the fiber has yielded, the run loop has yet to give it its new state

  /** `queue` is how often the fiber is in the run queue; `exec` says its state is EXEC, otherwise HOLD. */
  datatype State = State(s: Futures.State, queue: nat, loops: seq<Loop>, exec: bool)

  datatype Move =
    | Signal(i: nat)
    | Take(t: Tid)
    | Pop(t: Tid)
    | Enter(t: Tid)
    | Wait(t: Tid)
    | Leave(t: Tid)
    | Land(t: Tid)

  /** The fiber is in Scheduler::yieldTo(), or about to call it. */
  predicate Yields(w: Futures.Waiter) { w.pc == Futures.FirstYield || w.pc == Futures.Yielding }

  /** When a step may be taken. A resumed fiber is in a yield and uses up an entry: EnterFindsYield shows
      that this is no restriction; that it is not executing is what yieldTo() asserts. */
  predicate Can(x: State, m: Move) {
    match m
    case Signal(i) => Futures.SignalCan(x.s, i)
    case Take(t) => t < |x.loops| && x.loops[t].Scan? && x.queue > 0 && !x.exec
    case Pop(t) => t < |x.loops| && (x.loops[t].Scan? || x.loops[t].Batch?) && x.loops[t].left > 0
    case Enter(t) => t < |x.loops| && x.loops[t].Resume? && !x.exec && Yields(x.s.w) && Futures.WaiterCan(x.s)
    case Wait(t) => t < |x.loops| && x.loops[t].Host? && !Yields(x.s.w) && Futures.WaiterCan(x.s)
    case Leave(t) => t < |x.loops| && x.loops[t].Host? && Yields(x.s.w)
    case Land(t) => t < |x.loops| && x.loops[t].Parting?
  }

  function Do(x: State, m: Move): State
    requires Can(x, m)
  {
    match m
    case Signal(i) =>
      x.(s := Futures.SignalStep(x.s, i),
         queue := if x.s.futs[i].sig == Futures.Won(true) then x.queue + 1 else x.queue)
    case Take(t) => x.(queue := x.queue - 1, loops := x.loops[t := Scan(x.loops[t].left + 1)])
    case Pop(t) => x.(loops := x.loops[t := Resume(x.loops[t].left - 1)])
    case Enter(t) => x.(s := Futures.WaiterStep(x.s), loops := x.loops[t := Host(x.loops[t].left)], exec := true)
    case Wait(_) => x.(s := Futures.WaiterStep(x.s))
    case Leave(t) => x.(loops := x.loops[t := Parting(x.loops[t].left)])
    case Land(t) =>
      x.(loops := x.loops[t := if x.loops[t].left == 0 then Scan(0) else Batch(x.loops[t].left)], exec := false)
  }

  /** The assertion of yieldTo(): a fiber about to be resumed is not executing. */
  ghost predicate Safe(x: State) { forall t :: 0 <= t < |x.loops| && x.loops[t].Resume? ==> !x.exec }

  /** The fiber has just called waitAll() or waitAny() on one of the threads. */
  ghost predicate Starts(x: State) {
    Futures.Starts(x.s) && x.queue == 0 && x.exec && exists h: Tid :: OnlyHost(x.loops, h)
  }

  predicate OnlyHost(loops: seq<Loop>, h: Tid) {
    && h < |loops| && loops[h] == Host(0)
    && forall t :: 0 <= t < |loops| && t != h ==> loops[t] == Scan(0)
  }

  ghost predicate Follows(x: State, m: Move, x': State) { Can(x, m) && x' == Do(x, m) }

  ghost predicate Step(x: State, x': State) { exists m :: Follows(x, m, x') }

  ghost predicate IsRun(tr: seq<State>) {
    tr != [] && Starts(tr[0]) && forall k :: 0 <= k < |tr| - 1 ==> Step(tr[k], tr[k + 1])
  }

  // ----- the handshake is the one of Futures -----

  /** Seen without the threads, a run is a run of the handshake. */
  lemma {:induction false} Projection(tr: seq<State>, k: nat) returns (us: seq<Futures.State>)
    requires IsRun(tr) && k < |tr|
    ensures Futures.IsRun(us) && us[|us| - 1] == tr[k].s
  {
    if k == 0 {
      us := [tr[0].s];
    } else {
      us := Projection(tr, k - 1);
      assert Step(tr[k - 1], tr[k - 1 + 1]);
      var m :| Follows(tr[k - 1], m, tr[k]);
      if m.Signal? || m.Enter? || m.Wait? { us := Extended(us, tr[k].s); }
    }
  }

  lemma Extended(us: seq<Futures.State>, s': Futures.State) returns (us': seq<Futures.State>)
    requires Futures.IsRun(us) && Futures.Step(us[|us| - 1], s')
    ensures Futures.IsRun(us') && us'[|us'| - 1] == s'
  {
    us' := us + [s'];
    forall k | 0 <= k < |us'| - 1 ensures Futures.Step(us'[k], us'[k + 1]) {
      if k < |us| - 1 { assert Futures.Step(us[k], us[k + 1]); }
    }
  }

  lemma HandshakeHolds(tr: seq<State>, k: nat)
    requires IsRun(tr) && k < |tr|
    ensures Futures.Inv(tr[k].s)
  {
    var us := Projection(tr, k);
    Futures.RunHoldsInv(us, |us| - 1);
  }

  // ----- entries and threads -----

  /** Entries that a run loop has taken. */
  const Held: Loop -> nat := (l: Loop) => l.left + (if l.Resume? then 1 else 0)

  const Hosts: Loop -> nat := (l: Loop) => if l.Host? || l.Parting? then 1 else 0

  /** Every entry is in the queue or with a run loop, and the fiber is on one thread exactly if it
      is executing; a suspended one is in a yield. */
  ghost predicate Inv(x: State) {
    && x.s.tokens == x.queue + Sum(x.loops, Held)
    && Sum(x.loops, Hosts) == (if x.exec then 1 else 0)
    && (!x.exec ==> Yields(x.s.w))
    && (forall t :: 0 <= t < |x.loops| && x.loops[t].Parting? ==> Yields(x.s.w))
    && (forall t :: 0 <= t < |x.loops| && x.loops[t].Batch? ==> x.loops[t].left > 0)
  }

  lemma StartHolds(x: State)
    requires Starts(x)
    ensures Inv(x)
  {
    var h: Tid :| OnlyHost(x.loops, h);
    SumZero(x.loops, Held);
    SumZero(x.loops[h := Scan(0)], Hosts);
    SumUpdate(x.loops, h, Scan(0), Hosts);
  }

  /** If one thread has the fiber, no other has. */
  lemma OneHost(x: State, t: Tid, u: Tid)
    requires Inv(x) && t < |x.loops| && u < |x.loops| && t != u && Hosts(x.loops[t]) == 1
    ensures Hosts(x.loops[u]) == 0 && x.exec
  {
    SumUpdate(x.loops, t, Scan(0), Hosts);
    SumZero(x.loops[t := Scan(0)], Hosts);
    assert x.loops[t := Scan(0)][u] == x.loops[u];
  }

  lemma NobodyHosts(x: State, t: Tid)
    requires Inv(x) && t < |x.loops| && !x.exec
    ensures Hosts(x.loops[t]) == 0
  {
    SumZero(x.loops, Hosts);
  }

  lemma LoopStep(x: State, m: Move)
    requires Inv(x) && Can(x, m) && !m.Signal? && !m.Wait?
    ensures Inv(Do(x, m))
  {
    var x' := Do(x, m);
    SumUpdate(x.loops, m.t, x'.loops[m.t], Held);
    SumUpdate(x.loops, m.t, x'.loops[m.t], Hosts);
    forall u | 0 <= u < |x'.loops| && x'.loops[u].Parting? ensures Yields(x'.s.w) {
      if u != m.t { assert x'.loops[u] == x.loops[u]; NotParting(x, m, u); }
    }
  }

  lemma NotParting(x: State, m: Move, u: Tid)
    requires Inv(x) && Can(x, m) && !m.Signal? && !m.Wait? && u < |x.loops| && u != m.t && x.loops[u].Parting?
    ensures Yields(Do(x, m).s.w)
  {
    OneHost(x, u, m.t);
  }

  lemma WaitStep(x: State, m: Move)
    requires Inv(x) && Can(x, m) && m.Wait?
    ensures Inv(Do(x, m))
  {
    forall u | 0 <= u < |x.loops| ensures !x.loops[u].Parting? { if u != m.t { OneHost(x, m.t, u); } }
    SumZero(x.loops, Hosts);
  }

  lemma StepHolds(x: State, m: Move)
    requires Inv(x) && Can(x, m)
    ensures Inv(Do(x, m)) && |Do(x, m).loops| == |x.loops| && |Do(x, m).s.futs| == |x.s.futs|
    ensures Do(x, m).s.w.mode == x.s.w.mode
  {
    if m.Wait? { WaitStep(x, m); } else if !m.Signal? { LoopStep(x, m); }
  }

  lemma {:induction false} RunHolds(tr: seq<State>, k: nat)
    requires IsRun(tr) && k < |tr|
    ensures Inv(tr[k]) && Futures.Inv(tr[k].s)
    ensures |tr[k].loops| == |tr[0].loops| && |tr[k].s.futs| == |tr[0].s.futs| && tr[k].s.w.mode == tr[0].s.w.mode
  {
    HandshakeHolds(tr, k);
    if k == 0 {
      StartHolds(tr[0]);
    } else {
      RunHolds(tr, k - 1);
      assert Step(tr[k - 1], tr[k - 1 + 1]);
      var m :| Follows(tr[k - 1], m, tr[k]);
      StepHolds(tr[k - 1], m);
    }
  }

  lemma SomeHeld(x: State, t: Tid)
    requires t < |x.loops| && Held(x.loops[t]) > 0
    ensures Sum(x.loops, Held) >= Held(x.loops[t])
  {
    SumUpdate(x.loops, t, Scan(0), Held);
  }

  /** The guard of Enter asks for no more than the assertion. */
  lemma EnterFindsYield(tr: seq<State>, k: nat, t: Tid)
    requires IsRun(tr) && k < |tr| && t < |tr[k].loops| && tr[k].loops[t].Resume? && !tr[k].exec
    ensures Can(tr[k], Enter(t))
  {
    RunHolds(tr, k);
    SomeHeld(tr[k], t);
  }

  /** When the wait is over the fiber is in no run queue and in no batch, and it is on one thread. */
  lemma WaitOver(tr: seq<State>, k: nat, t: Tid)
    requires IsRun(tr) && k < |tr| && tr[k].s.w.pc == Futures.Finished && t < |tr[k].loops|
    ensures tr[k].queue == 0 && Held(tr[k].loops[t]) == 0 && tr[k].exec
    ensures tr[k].s.w.mode == Futures.All ==>
              forall i :: 0 <= i < |tr[k].s.futs| ==> tr[k].s.futs[i].word.signalled
  {
    RunHolds(tr, k);
    Futures.DeliveredAreCounted(tr[k].s);
    SumZero(tr[k].loops, Held);
    var us := Projection(tr, k);
    if tr[k].s.w.mode == Futures.All {
      forall i | 0 <= i < |tr[k].s.futs| ensures tr[k].s.futs[i].word.signalled {
        Futures.WaitAllSignalled(us, |us| - 1, i);
      }
    }
  }

  /** A wait whose futures are all signalled goes on until it is over, unless the assertion fails. */
  lemma GoesOn(tr: seq<State>, k: nat) returns (m: Move)
    requires IsRun(tr) && k < |tr| && tr[k].s.w.pc != Futures.Finished && Safe(tr[k])
    requires forall i :: 0 <= i < |tr[k].s.futs| ==> tr[k].s.futs[i].sig == Futures.Done
    ensures Can(tr[k], m)
  {
    var x := tr[k];
    RunHolds(tr, k);
    var us := Projection(tr, k);
    Futures.NoLostWakeup(us, |us| - 1);
    if x.exec {
      SumZero(x.loops, Hosts);
      var t :| 0 <= t < |x.loops| && Hosts(x.loops[t]) != 0;
      m := if x.loops[t].Parting? then Land(t) else if Yields(x.s.w) then Leave(t) else Wait(t);
    } else {
      m := SuspendedGoesOn(x);
    }
  }

  lemma SuspendedGoesOn(x: State) returns (m: Move)
    requires Inv(x) && Futures.WaiterCan(x.s) && !x.exec && |x.loops| > 0
    ensures Can(x, m)
  {
    SumZero(x.loops, Held);
    if t :| 0 <= t < |x.loops| && Held(x.loops[t]) != 0 {
      NobodyHosts(x, t);
      m := if x.loops[t].Resume? then Enter(t) else Pop(t);
    } else {
      NobodyHosts(x, 0);
      m := Take(0);
    }
  }

  // ----- when the assertion holds -----

  /** On one thread the run loop has no entry in hand while the fiber runs. */
  lemma AloneIsSafe(x: State)
    requires Inv(x) && |x.loops| == 1
    ensures Safe(x)
  {
    forall t | 0 <= t < |x.loops| && x.loops[t].Resume? ensures !x.exec {
      if x.exec { SumZero(x.loops, Hosts); }
    }
  }

  /** With one future there is at most one entry, and whoever has it resumes a suspended fiber. */
  ghost predicate OneEntry(x: State) { Sum(x.loops, Held) > 0 ==> !x.exec }

  lemma OneToken(s: Futures.State)
    requires Futures.Inv(s) && |s.futs| == 1
    ensures s.tokens <= 1
  {
    assert s.delivered[1..] == [] && s.delivered == [s.delivered[0]];
    assert Futures.Cnt(s.delivered) == Futures.Mark(s.delivered[0]) + Futures.Cnt(s.delivered[1..]);
  }

  lemma OneEntryStep(x: State, m: Move)
    requires Inv(x) && Futures.Inv(x.s) && Can(x, m) && |x.s.futs| == 1 && OneEntry(x)
    ensures OneEntry(Do(x, m))
  {
    var x' := Do(x, m);
    OneToken(x.s);
    if !m.Signal? && !m.Wait? {
      SumUpdate(x.loops, m.t, x'.loops[m.t], Held);
      SomeHeldOrNone(x, m.t);
    }
  }

  lemma SomeHeldOrNone(x: State, t: Tid)
    requires t < |x.loops|
    ensures Sum(x.loops, Held) >= Held(x.loops[t])
  {
    if Held(x.loops[t]) > 0 { SomeHeld(x, t); }
  }

  lemma {:induction false} OneFutureHolds(tr: seq<State>, k: nat)
    requires IsRun(tr) && k < |tr| && |tr[0].s.futs| == 1
    ensures OneEntry(tr[k])
  {
    if k == 0 {
      StartHolds(tr[0]);
    } else {
      OneFutureHolds(tr, k - 1);
      RunHolds(tr, k - 1);
      assert Step(tr[k - 1], tr[k - 1 + 1]);
      var m :| Follows(tr[k - 1], m, tr[k]);
      OneEntryStep(tr[k - 1], m);
    }
  }

  lemma OneFutureIsSafe(tr: seq<State>, k: nat)
    requires IsRun(tr) && k < |tr| && |tr[0].s.futs| == 1
    ensures Safe(tr[k])
  {
    OneFutureHolds(tr, k);
    forall t | 0 <= t < |tr[k].loops| && tr[k].loops[t].Resume? ensures !tr[k].exec { SomeHeld(tr[k], t); }
  }

  // ----- two futures and two threads -----

  const FRESH := Futures.Future(Futures.Word(false, false), false, Futures.NotYet)
  const WAITED := Futures.Future(Futures.Word(true, false), true, Futures.NotYet)

  /** The fiber has registered with the first k of m futures. */
  function Registering(mode: Futures.Mode, m: nat, k: nat): Futures.State {
    Futures.State(
      seq(m, i => if i < k then WAITED else FRESH), 0, seq(m, _ => false),
      Futures.Waiter(mode, if k < m then Futures.Start(k) else if mode == Futures.All then Futures.Loop else
                       Futures.FirstYield,
                     if mode == Futures.All then 1 + k else 1, None, 0, seq(m, i => i < k), seq(m, _ => false), None))
  }

  function Begun(mode: Futures.Mode, m: nat, n: nat, k: nat): State
    requires n > 0
  {
    State(Registering(mode, m, k), 0, seq(n, _ => Scan(0))[0 := Host(0)], true)
  }

  function Last(tr: seq<State>): State
    requires tr != []
  {
    tr[|tr| - 1]
  }

  /** A run with one more step. */
  lemma Extend(tr: seq<State>, m: Move) returns (tr': seq<State>)
    requires IsRun(tr) && Can(Last(tr), m)
    ensures IsRun(tr') && tr'[0] == tr[0] && Last(tr') == Do(Last(tr), m)
  {
    var x' := Do(Last(tr), m);
    tr' := tr + [x'];
    assert Follows(Last(tr), m, x');
    forall k | 0 <= k < |tr'| - 1 ensures Step(tr'[k], tr'[k + 1]) {
      if k < |tr| - 1 { assert Step(tr[k], tr[k + 1]); }
    }
  }

  lemma RegistersOne(mode: Futures.Mode, m: nat, k: nat)
    requires k < m
    ensures Futures.WaiterCan(Registering(mode, m, k))
    ensures var s1 := Futures.WaiterStep(Registering(mode, m, k));
            && Futures.WaiterCan(s1) && s1.w.pc == Futures.Cas(k)
            && Futures.WaiterStep(s1) == Registering(mode, m, k + 1)
  {
    var s := Registering(mode, m, k);
    var s1 := Futures.WaiterStep(s);
    var s2 := Futures.WaiterStep(s1);
    assert s2.futs == Registering(mode, m, k + 1).futs;
    assert s2.w.counted == Registering(mode, m, k + 1).w.counted;
  }

  lemma {:induction false} Registers(mode: Futures.Mode, m: nat, n: nat, k: nat) returns (tr: seq<State>)
    requires m > 0 && n > 0 && k <= m
    ensures IsRun(tr) && tr[0] == Begun(mode, m, n, 0) && Last(tr) == Begun(mode, m, n, k)
  {
    if k == 0 {
      var x := Begun(mode, m, n, 0);
      assert OnlyHost(x.loops, 0);
      tr := [x];
    } else {
      tr := Registers(mode, m, n, k - 1);
      RegistersOne(mode, m, k - 1);
      tr := Extend(tr, Wait(0));
      tr := Extend(tr, Wait(0));
    }
  }

  /** The fiber waits with m futures and is suspended; `queue` of them have scheduled it. */
  predicate Suspended(x: State, m: nat, n: nat, queue: nat) {
    && Futures.Shaped(x.s) && |x.s.futs| == m && |x.loops| == n && x.queue == queue && x.s.tokens == queue && !x.exec
    && Yields(x.s.w) && forall t :: 0 <= t < n ==> x.loops[t] == Scan(0)
  }

  lemma Suspends(mode: Futures.Mode, m: nat, n: nat) returns (tr: seq<State>)
    requires m > 0 && n > 0
    ensures IsRun(tr) && tr[0] == Begun(mode, m, n, 0) && Suspended(Last(tr), m, n, 0)
    ensures forall i :: 0 <= i < m ==> Last(tr).s.futs[i] == WAITED
  {
    tr := Registers(mode, m, n, m);
    if mode == Futures.All { tr := Extend(tr, Wait(0)); }
    tr := Extend(tr, Leave(0));
    tr := Extend(tr, Land(0));
  }

  /** The signaller of future i schedules the fiber. */
  lemma Delivers(tr: seq<State>, m: nat, n: nat, queue: nat, i: nat) returns (tr': seq<State>)
    requires IsRun(tr) && Suspended(Last(tr), m, n, queue) && i < m && Last(tr).s.futs[i] == WAITED
    ensures IsRun(tr') && tr'[0] == tr[0] && Suspended(Last(tr'), m, n, queue + 1)
    ensures forall j :: 0 <= j < m && j != i ==> Last(tr').s.futs[j] == Last(tr).s.futs[j]
  {
    tr' := Extend(tr, Signal(i));
    tr' := Extend(tr', Signal(i));
    tr' := Extend(tr', Signal(i));
  }

  /** Two threads take one entry each. */
  lemma BothTake(tr: seq<State>, m: nat, n: nat) returns (tr': seq<State>)
    requires IsRun(tr) && Suspended(Last(tr), m, n, 2) && n >= 2
    ensures IsRun(tr') && tr'[0] == tr[0]
    ensures var x := Last(tr');
            && |x.loops| == n && x.loops[0] == Resume(0) && x.loops[1] == Resume(0) && !x.exec && Yields(x.s.w)
            && Futures.Shaped(x.s) && x.s.tokens == 2
  {
    tr' := Extend(tr, Take(0));
    tr' := Extend(tr', Take(1));
    tr' := Extend(tr', Pop(0));
    tr' := Extend(tr', Pop(1));
  }

  /** Two futures are signalled, two threads take the fiber from the run queue, and the second one is
      about to resume it while it runs on the first. */
  lemma ResumedTwice(mode: Futures.Mode, m: nat, n: nat) returns (tr: seq<State>)
    requires m >= 2 && n >= 2
    ensures IsRun(tr) && tr[0].s.w.mode == mode && |tr[0].s.futs| == m && |tr[0].loops| == n
    ensures var x := Last(tr); |x.loops| == n && x.loops[0].Host? && x.loops[1].Resume? && x.exec && !Safe(x)
  {
    tr := Suspends(mode, m, n);
    tr := Delivers(tr, m, n, 0, 0);
    tr := Delivers(tr, m, n, 1, 1);
    tr := BothTake(tr, m, n);
    tr := Extend(tr, Enter(0));
  }

  // ----- exactly when -----

  /** The run is a wait of this kind on m futures, on a scheduler with n threads, and has a state k. */
  ghost predicate WaitOn(tr: seq<State>, mode: Futures.Mode, m: nat, n: nat, k: nat) {
    IsRun(tr) && tr[0].s.w.mode == mode && |tr[0].s.futs| == m && |tr[0].loops| == n && k < |tr|
  }

  ghost predicate AlwaysSafe(mode: Futures.Mode, m: nat, n: nat) {
    forall tr: seq<State>, k: nat :: WaitOn(tr, mode, m, n, k) ==> Safe(tr[k])
  }

  /** No run of the wait resumes an executing fiber exactly if there is one future or one thread. */
  lemma SafeIffOne(mode: Futures.Mode, m: nat, n: nat)
    requires m > 0 && n > 0
    ensures AlwaysSafe(mode, m, n) <==> m == 1 || n == 1
  {
    if m == 1 || n == 1 {
      forall tr: seq<State>, k: nat | WaitOn(tr, mode, m, n, k) ensures Safe(tr[k]) {
        if m == 1 { OneFutureIsSafe(tr, k); } else { RunHolds(tr, k); AloneIsSafe(tr[k]); }
      }
    } else {
      var tr := ResumedTwice(mode, m, n);
      assert WaitOn(tr, mode, m, n, |tr| - 1) && !Safe(Last(tr));
    }
  }
}

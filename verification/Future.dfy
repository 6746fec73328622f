/** Future<Void>: the single-word handshake between a waiting fiber and its signallers,
    and waitAll / waitAny over any number of futures, at the granularity of one read, one
    compare-and-swap or one schedule() per step. One fiber waits; each future is
    signalled at most once. */
module Futures {
  import opened Common
  import opened Tally

  /** m_fiber: the waiting fiber (there is one candidate) and the signalled bit. */
  datatype Word = Word(waiter: bool, signalled: bool)

  datatype Signaller =
    | NotYet                   // signal() not called
    | Trying(saw: Word)        // read m_fiber, about to compare-and-swap
    | Won(hadWaiter: bool)     // set the bit, about to look at what was there
    | Done

  datatype Future = Future(word: Word, scheduler: bool, sig: Signaller)

  datatype Mode = All | Any

  datatype Pc =
    | Start(i: nat)                              // startWait(): about to set m_scheduler
    | Cas(i: nat)                                // startWait(): about to compare-and-swap
    | FirstYield                                 // waitAny with every future pending
    | Cancel(it: nat, index: nat)                // cancelWait(): about to read m_fiber
    | CancelCas(it: nat, index: nat, saw: Word)  // cancelWait(): about to compare-and-swap
    | Clear(it: nat, index: nat)                 // cancelWait(): about to clear m_scheduler
    | Loop                                       // about to test --yieldsNeeded
    | Yielding                                   // in Scheduler::yieldTo()
    | Finished

  /** The waiting fiber. `need` is yieldsNeeded, `resumed` how often it came back from a
      yield. Auxiliary: `counted` are the futures whose signal is to be waited for, `seen`
      those it found signalled, `hit` the one that ended the start loop of waitAny. */
  datatype Waiter = Waiter(mode: Mode, pc: Pc, need: int, result: Option<nat>, resumed: nat,
                           counted: seq<bool>, seen: seq<bool>, hit: Option<nat>)

  /** `tokens` is how often the fiber is in the run queue; `delivered`, auxiliary, the
      futures whose signaller has scheduled it. */
  datatype State = State(futs: seq<Future>, tokens: nat, delivered: seq<bool>, w: Waiter)

  predicate Shaped(s: State) {
    |s.w.counted| == |s.w.seen| == |s.delivered| == |s.futs| && |s.futs| > 0
  }

  // ----- steps of the waiting fiber -----

  function AfterStart(w: Waiter, n: nat, i: nat): Pc {
    if i + 1 < n then Start(i + 1) else if w.mode == All then Loop else FirstYield
  }

  /** startWait() installed the fiber. */
  function Registered(w: Waiter, n: nat, i: nat): Waiter
    requires i < |w.counted|
  {
    w.(counted := w.counted[i := true], need := if w.mode == All then w.need + 1 else w.need, pc := AfterStart(w, n, i))
  }

  /** startWait() found future i signalled. */
  function FoundAtStart(w: Waiter, n: nat, i: nat): Waiter
    requires i < |w.seen|
  {
    if w.mode == All then w.(seen := w.seen[i := true], pc := AfterStart(w, n, i))
    else if i == 0 then w.(seen := w.seen[0 := true], result := Some(0), hit := Some(0), pc := Finished)
    else w.(seen := w.seen[i := true], result := Some(i), hit := Some(i), need := 1, pc := Cancel(i - 1, i))
  }

  function NextCancel(it: nat, index: nat): Pc {
    if it == 0 then Loop else Cancel(it - 1, if index > 0 then index - 1 else 0)
  }

  /** cancelWait() found future `it` signalled. */
  function FoundAtCancel(w: Waiter, it: nat, index: nat): Waiter
    requires it < |w.seen|
  {
    w.(result := Some(if it == 0 then 0 else index), need := w.need + 1,
       seen := w.seen[it := true], pc := NextCancel(it, index))
  }

  predicate WaiterCan(s: State) {
    && Shaped(s)
    && match s.w.pc
       case Start(i) => i < |s.futs|
       case Cas(i) => i < |s.futs|
       case FirstYield => s.tokens > 0
       case Cancel(it, _) => it < |s.futs|
       case CancelCas(it, _, _) => it < |s.futs|
       case Clear(it, _) => it < |s.futs|
       case Loop => true
       case Yielding => s.tokens > 0
       case Finished => false
  }

  function WaiterStep(s: State): State
    requires WaiterCan(s)
  {
    var n := |s.futs|;
    match s.w.pc
    case Start(i) => s.(futs := s.futs[i := s.futs[i].(scheduler := true)], w := s.w.(pc := Cas(i)))
    case Cas(i) =>
      if s.futs[i].word == Word(false, false)
      then s.(futs := s.futs[i := s.futs[i].(word := Word(true, false))], w := Registered(s.w, n, i))
      else s.(w := FoundAtStart(s.w, n, i))
    case FirstYield =>
      s.(tokens := s.tokens - 1, w := s.w.(resumed := s.w.resumed + 1, need := 0, pc := Cancel(n - 1, n - 1)))
    case Cancel(it, index) =>
      if s.futs[it].word.signalled then s.(w := FoundAtCancel(s.w, it, index))
      else s.(w := s.w.(pc := CancelCas(it, index, s.futs[it].word)))
    case CancelCas(it, index, saw) =>
      if s.futs[it].word == saw then
        s.(futs := s.futs[it := s.futs[it].(word := Word(false, false))],
           w := s.w.(counted := s.w.counted[it := false], pc := Clear(it, index)))
      else if s.futs[it].word.signalled then s.(w := FoundAtCancel(s.w, it, index))
      else s.(w := s.w.(pc := Clear(it, index)))
    case Clear(it, index) =>
      s.(futs := s.futs[it := s.futs[it].(scheduler := false)], w := s.w.(pc := NextCancel(it, index)))
    case Loop => s.(w := s.w.(need := s.w.need - 1, pc := if s.w.need - 1 == 0 then Finished else Yielding))
    case Yielding => s.(tokens := s.tokens - 1, w := s.w.(resumed := s.w.resumed + 1, pc := Loop))
  }

  // ----- steps of the signaller of future i -----

  predicate SignalCan(s: State, i: nat) {
    Shaped(s) && i < |s.futs| && s.futs[i].sig != Done
  }

  /** What a step of signal() does to its future. */
  function Signalled(f: Future): Future {
    match f.sig
    case NotYet => f.(sig := Trying(f.word))
    case Trying(saw) =>
      if f.word == saw then f.(word := Word(saw.waiter, true), sig := Won(saw.waiter)) else f.(sig := Trying(f.word))
    case _ => f.(sig := Done)
  }

  /** If somebody was waiting, the last step schedules the fiber. */
  function SignalStep(s: State, i: nat): State
    requires SignalCan(s, i)
  {
    var wakes := s.futs[i].sig == Won(true);
    s.(futs := s.futs[i := Signalled(s.futs[i])],
       tokens := if wakes then s.tokens + 1 else s.tokens,
       delivered := if wakes then s.delivered[i := true] else s.delivered)
  }

  ghost predicate Step(s: State, s': State) {
    || (WaiterCan(s) && s' == WaiterStep(s))
    || exists i :: SignalCan(s, i) && s' == SignalStep(s, i)
  }

  /** Fresh futures; waitAll or waitAny has just been called. */
  predicate Starts(s: State) {
    && Shaped(s)
    && (forall i :: 0 <= i < |s.futs| ==> s.futs[i] == Future(Word(false, false), false, NotYet))
    && (forall i :: 0 <= i < |s.futs| ==> !s.w.counted[i] && !s.w.seen[i] && !s.delivered[i])
    && s.tokens == 0 && s.w.pc == Start(0) && s.w.need == 1 && s.w.result == None && s.w.resumed == 0 && s.w.hit == None
  }

  // ----- counting -----

  const Mark: bool -> nat := (b: bool) => if b then 1 else 0

  function Cnt(b: seq<bool>): nat { Sum(b, Mark) }

  lemma {:induction false} CntLe(a: seq<bool>, b: seq<bool>)
    requires |a| == |b| && forall i :: 0 <= i < |a| && a[i] ==> b[i]
    ensures Cnt(a) <= Cnt(b)
    ensures Cnt(a) == Cnt(b) ==> a == b
  {
    if a != [] {
      CntLe(a[1..], b[1..]);
      assert a == [a[0]] + a[1..] && b == [b[0]] + b[1..];
    }
  }

  /** The smallest marked position in [lo, hi). */
  function First(b: seq<bool>, lo: nat, hi: nat): Option<nat>
    requires lo <= hi <= |b|
    decreases hi - lo
  {
    if lo == hi then None else if b[lo] then Some(lo) else First(b, lo + 1, hi)
  }

  lemma {:induction false} FirstIs(b: seq<bool>, lo: nat, hi: nat)
    requires lo <= hi <= |b|
    ensures First(b, lo, hi) == None ==> forall i :: lo <= i < hi ==> !b[i]
    ensures First(b, lo, hi).Some? ==>
              var r := First(b, lo, hi).value; lo <= r < hi && b[r] && forall i :: lo <= i < r ==> !b[i]
    decreases hi - lo
  {
    if lo < hi { FirstIs(b, lo + 1, hi); }
  }

  lemma {:induction false} FirstSame(a: seq<bool>, b: seq<bool>, lo: nat, hi: nat)
    requires lo <= hi <= |a| && |a| == |b| && forall i :: lo <= i < hi ==> a[i] == b[i]
    ensures First(a, lo, hi) == First(b, lo, hi)
    decreases hi - lo
  {
    if lo < hi { FirstSame(a, b, lo + 1, hi); }
  }

  // ----- invariant -----

  /** startWait() on future i has run. */
  predicate Started(w: Waiter, i: nat) {
    match w.pc
    case Start(j) => i < j
    case Cas(j) => i < j
    case _ => w.hit.Some? ==> i <= w.hit.value
  }

  /** cancelWait() on future i has done its compare-and-swap. */
  predicate Resolved(w: Waiter, i: nat) {
    w.mode == Any &&
    match w.pc
    case Cancel(it, _) => i > it
    case CancelCas(it, _, _) => i > it
    case Clear(it, _) => i >= it
    case Loop => true
    case Yielding => true
    case Finished => true
    case _ => false
  }

  /** One future: a registered fiber is waited for, its scheduler is known, and exactly
      one of "still pending", "signaller about to schedule", "scheduled" holds for it. */
  predicate FutureOk(w: Waiter, f: Future, delivered: bool, i: nat)
    requires i < |w.counted| == |w.seen|
  {
    && (f.word.signalled <==> f.sig.Won? || f.sig == Done)
    && (f.word.waiter <==> w.counted[i])
    && (f.sig.Won? ==> f.sig.hadWaiter == f.word.waiter)
    && (delivered <==> f.sig == Done && f.word.waiter)
    && (w.counted[i] ==> Started(w, i) && f.scheduler)
    && (w.seen[i] ==> Started(w, i) && f.word.signalled)
    && (!Started(w, i) && f.scheduler ==> w.pc == Cas(i))
    && (Started(w, i) && !w.counted[i] ==> w.seen[i] || Resolved(w, i))
    && (Resolved(w, i) && w.counted[i] ==> w.seen[i])
    && (Resolved(w, i) && Started(w, i) && !w.counted[i] && !w.seen[i] && f.scheduler ==> w.pc.Clear? && w.pc.it == i)
    && (w.mode == Any && w.seen[i] ==> Resolved(w, i) || w.hit == Some(i))
    && (w.pc == Cas(i) ==> f.scheduler)
    && (w.pc.CancelCas? && w.pc.it == i ==> f.word.waiter)
  }

  /** The early-break path reports one more than the position it found. */
  function Shifted(first: Option<nat>, hit: nat): Option<nat> {
    if first == None then Some(hit) else Some(first.value + 1)
  }

  /** In the cancel loop: positions after `it` are dealt with. */
  predicate CancelOk(w: Waiter, n: nat, it: nat, index: nat)
    requires |w.counted| == |w.seen| == n
  {
    && w.mode == Any && it < n
    && w.need - 1 + w.resumed == Cnt(w.counted[it + 1..])
    && (w.hit == None ==> w.resumed == 1 && index == it && w.result == First(w.seen, it + 1, n))
    && (w.hit.Some? ==> w.resumed == 0 && index == it + 1 && it < w.hit.value < n && w.seen[w.hit.value]
                        && w.result == Shifted(First(w.seen, it + 1, w.hit.value), w.hit.value))
  }

  predicate ResultOk(w: Waiter, n: nat)
    requires |w.counted| == |w.seen| == n
  {
    && (w.mode == All ==> w.hit == None)
    && (w.mode == Any && w.hit == None ==> w.result == First(w.seen, 0, n) && w.resumed >= 1)
    && (w.mode == Any && w.hit.Some? ==>
          && w.hit.value < n && w.seen[w.hit.value]
          && (if w.hit.value == 0 || w.seen[0] then w.result == Some(0)
              else w.result == Shifted(First(w.seen, 1, w.hit.value), w.hit.value)))
  }

  predicate WaiterOk(w: Waiter, n: nat)
    requires |w.counted| == |w.seen| == n
  {
    match w.pc
    case Start(i) => i < n && w.hit == None && w.result == None && w.resumed == 0 &&
      (w.mode == All ==> w.need == 1 + Cnt(w.counted))
    case Cas(i) => i < n && w.hit == None && w.result == None && w.resumed == 0 &&
      (w.mode == All ==> w.need == 1 + Cnt(w.counted))
    case FirstYield => w.mode == Any && w.hit == None && w.result == None && w.resumed == 0
    case Cancel(it, index) => CancelOk(w, n, it, index)
    case CancelCas(it, index, saw) => CancelOk(w, n, it, index) && saw == Word(true, false)
    case Clear(it, index) => CancelOk(w, n, it, index) && !w.counted[it] && !w.seen[it]
    case Loop => w.need - 1 + w.resumed == Cnt(w.counted) && w.need >= 1 && ResultOk(w, n)
    case Yielding => w.need + w.resumed == Cnt(w.counted) && w.need >= 1 && ResultOk(w, n)
    case Finished => w.resumed == Cnt(w.counted) && ResultOk(w, n)
  }

  ghost predicate Inv(s: State) {
    && Shaped(s) && WaiterOk(s.w, |s.futs|)
    && s.tokens + s.w.resumed == Cnt(s.delivered)
    && forall i :: 0 <= i < |s.futs| ==> FutureOk(s.w, s.futs[i], s.delivered[i], i)
  }

  lemma StartsInv(s: State)
    requires Starts(s)
    ensures Inv(s)
  {
    SumZero(s.w.counted, Mark);
    SumZero(s.delivered, Mark);
  }

  lemma SignalKeepsInv(s: State, i: nat)
    requires Inv(s) && SignalCan(s, i)
    ensures Inv(SignalStep(s, i))
  {
    hide WaiterOk;
    var s' := SignalStep(s, i);
    SumUpdate(s.delivered, i, true, Mark);
    forall j | 0 <= j < |s.futs| ensures FutureOk(s'.w, s'.futs[j], s'.delivered[j], j) {
      assert FutureOk(s.w, s.futs[j], s.delivered[j], j);
    }
    assert FutureOk(s.w, s.futs[i], s.delivered[i], i);
  }

  lemma StartKeepsInv(s: State)
    requires Inv(s) && WaiterCan(s) && s.w.pc.Start?
    ensures Inv(WaiterStep(s))
  {
    var s' := WaiterStep(s);
    forall j | 0 <= j < |s.futs| ensures FutureOk(s'.w, s'.futs[j], s'.delivered[j], j) {
      assert FutureOk(s.w, s.futs[j], s.delivered[j], j);
    }
  }

  lemma CasKeepsFuture(s: State, j: nat)
    requires Inv(s) && WaiterCan(s) && s.w.pc.Cas? && j < |s.futs|
    ensures var s' := WaiterStep(s); FutureOk(s'.w, s'.futs[j], s'.delivered[j], j)
  {
    assert FutureOk(s.w, s.futs[j], s.delivered[j], j);
    assert FutureOk(s.w, s.futs[s.w.pc.i], s.delivered[s.w.pc.i], s.w.pc.i);
  }

  lemma CasKeepsWaiter(s: State)
    requires Inv(s) && WaiterCan(s) && s.w.pc.Cas?
    ensures WaiterOk(WaiterStep(s).w, |s.futs|)
  {
    var i := s.w.pc.i;
    assert FutureOk(s.w, s.futs[i], s.delivered[i], i);
    SumUpdate(s.w.counted, i, true, Mark);
    forall k | i <= k < |s.futs| ensures !s.w.counted[k] { assert FutureOk(s.w, s.futs[k], s.delivered[k], k); }
    SumZero(s.w.counted[i..], Mark);
    if s.w.mode == Any && i == 0 { SumZero(s.w.counted, Mark); }
  }

  lemma CasKeepsInv(s: State)
    requires Inv(s) && WaiterCan(s) && s.w.pc.Cas?
    ensures Inv(WaiterStep(s))
  {
    CasKeepsWaiter(s);
    forall j | 0 <= j < |s.futs|
      ensures var s' := WaiterStep(s); FutureOk(s'.w, s'.futs[j], s'.delivered[j], j)
    {
      CasKeepsFuture(s, j);
    }
  }

  /** Everything scheduled was waited for, so a fiber that has come back once has a
      signalled future among those it counted. */
  lemma DeliveredAreCounted(s: State)
    requires Inv(s)
    ensures Cnt(s.delivered) <= Cnt(s.w.counted)
    ensures Cnt(s.delivered) == Cnt(s.w.counted) ==> s.delivered == s.w.counted
  {
    forall i | 0 <= i < |s.futs| && s.delivered[i] ensures s.w.counted[i] {
      assert FutureOk(s.w, s.futs[i], s.delivered[i], i);
    }
    CntLe(s.delivered, s.w.counted);
  }

  lemma FirstYieldKeepsInv(s: State)
    requires Inv(s) && WaiterCan(s) && s.w.pc == FirstYield
    ensures Inv(WaiterStep(s))
  {
    var s' := WaiterStep(s);
    forall j | 0 <= j < |s.futs| ensures FutureOk(s'.w, s'.futs[j], s'.delivered[j], j) {
      assert FutureOk(s.w, s.futs[j], s.delivered[j], j);
    }
  }

  lemma FoundKeepsWaiter(w: Waiter, n: nat, it: nat, index: nat)
    requires |w.counted| == |w.seen| == n && CancelOk(w, n, it, index) && w.counted[it]
    ensures WaiterOk(FoundAtCancel(w, it, index), n)
  {
    var w' := FoundAtCancel(w, it, index);
    assert w.counted[it..][1..] == w.counted[it + 1..];
    assert w.counted[0..] == w.counted;
    assert First(w'.seen, it, n) == Some(it);
    if w.hit.Some? { assert First(w'.seen, it, w.hit.value) == Some(it); }
  }

  lemma FoundKeepsInv(s: State, it: nat, index: nat)
    requires Inv(s) && it < |s.futs| && CancelOk(s.w, |s.futs|, it, index) && s.futs[it].word == Word(true, true)
    requires s.w.pc == Cancel(it, index) || (s.w.pc.CancelCas? && s.w.pc.it == it)
    ensures Inv(s.(w := FoundAtCancel(s.w, it, index)))
  {
    var s' := s.(w := FoundAtCancel(s.w, it, index));
    assert FutureOk(s.w, s.futs[it], s.delivered[it], it);
    FoundKeepsWaiter(s.w, |s.futs|, it, index);
    forall j | 0 <= j < |s.futs| ensures FutureOk(s'.w, s'.futs[j], s'.delivered[j], j) {
      assert FutureOk(s.w, s.futs[j], s.delivered[j], j);
    }
  }

  lemma CancelKeepsInv(s: State)
    requires Inv(s) && WaiterCan(s) && s.w.pc.Cancel?
    ensures Inv(WaiterStep(s))
  {
    var it := s.w.pc.it;
    var s' := WaiterStep(s);
    assert FutureOk(s.w, s.futs[it], s.delivered[it], it);
    if s.futs[it].word.signalled {
      FoundKeepsInv(s, it, s.w.pc.index);
    } else {
      forall j | 0 <= j < |s.futs| ensures FutureOk(s'.w, s'.futs[j], s'.delivered[j], j) {
        assert FutureOk(s.w, s.futs[j], s.delivered[j], j);
      }
    }
  }

  lemma CancelCasKeepsInv(s: State)
    requires Inv(s) && WaiterCan(s) && s.w.pc.CancelCas?
    ensures Inv(WaiterStep(s))
  {
    var it := s.w.pc.it;
    var s' := WaiterStep(s);
    assert FutureOk(s.w, s.futs[it], s.delivered[it], it);
    if s.futs[it].word.signalled {
      FoundKeepsInv(s, it, s.w.pc.index);
    } else {
      assert s'.w.counted[it + 1..] == s.w.counted[it + 1..];
      forall j | 0 <= j < |s.futs| ensures FutureOk(s'.w, s'.futs[j], s'.delivered[j], j) {
        assert FutureOk(s.w, s.futs[j], s.delivered[j], j);
      }
    }
  }

  lemma ClearKeepsWaiter(s: State)
    requires Inv(s) && WaiterCan(s) && s.w.pc.Clear?
    ensures WaiterOk(WaiterStep(s).w, |s.futs|)
  {
    var it := s.w.pc.it;
    var w := s.w;
    assert FutureOk(w, s.futs[it], s.delivered[it], it);
    assert !w.seen[it];
    assert w.counted[it..][1..] == w.counted[it + 1..];
    assert First(w.seen, it, |s.futs|) == First(w.seen, it + 1, |s.futs|);
    if it == 0 {
      assert w.counted[0..] == w.counted;
      DeliveredAreCounted(s);
    }
  }

  lemma ClearKeepsInv(s: State)
    requires Inv(s) && WaiterCan(s) && s.w.pc.Clear?
    ensures Inv(WaiterStep(s))
  {
    var s' := WaiterStep(s);
    ClearKeepsWaiter(s);
    forall j | 0 <= j < |s.futs| ensures FutureOk(s'.w, s'.futs[j], s'.delivered[j], j) {
      assert FutureOk(s.w, s.futs[j], s.delivered[j], j);
    }
  }

  lemma LoopKeepsInv(s: State)
    requires Inv(s) && WaiterCan(s) && (s.w.pc == Loop || s.w.pc == Yielding)
    ensures Inv(WaiterStep(s))
  {
    var s' := WaiterStep(s);
    forall j | 0 <= j < |s.futs| ensures FutureOk(s'.w, s'.futs[j], s'.delivered[j], j) {
      assert FutureOk(s.w, s.futs[j], s.delivered[j], j);
    }
  }

  /** Every step of the waiter and of every signaller, in any order, keeps the invariant. */
  lemma StepKeepsInv(s: State, s': State)
    requires Inv(s) && Step(s, s')
    ensures Inv(s')
  {
    if WaiterCan(s) && s' == WaiterStep(s) {
      match s.w.pc
      case Start(_) => StartKeepsInv(s);
      case Cas(_) => CasKeepsInv(s);
      case FirstYield => FirstYieldKeepsInv(s);
      case Cancel(_, _) => CancelKeepsInv(s);
      case CancelCas(_, _, _) => CancelCasKeepsInv(s);
      case Clear(_, _) => ClearKeepsInv(s);
      case _ => LoopKeepsInv(s);
    } else {
      var i :| SignalCan(s, i) && s' == SignalStep(s, i);
      SignalKeepsInv(s, i);
    }
  }

  // ----- runs -----

  ghost predicate IsRun(tr: seq<State>) {
    tr != [] && Starts(tr[0]) && forall k :: 0 <= k < |tr| - 1 ==> Step(tr[k], tr[k + 1])
  }

  lemma {:induction false} RunHoldsInv(tr: seq<State>, k: nat)
    requires IsRun(tr) && k < |tr|
    ensures Inv(tr[k])
  {
    if k == 0 {
      StartsInv(tr[0]);
    } else {
      RunHoldsInv(tr, k - 1);
      assert Step(tr[k - 1], tr[k - 1 + 1]);
      StepKeepsInv(tr[k - 1], tr[k]);
    }
  }

  /** A signaller that finds a waiter finds its scheduler too, and startWait() never meets
      a future that already has one: the assertions of signal() and startWait(). */
  lemma HandshakeAsserts(tr: seq<State>, k: nat, i: nat)
    requires IsRun(tr) && k < |tr| && i < |tr[k].futs|
    ensures tr[k].futs[i].sig == Won(true) ==> tr[k].futs[i].scheduler && tr[k].futs[i].word == Word(true, true)
    ensures tr[k].w.pc == Start(i) ==> !tr[k].futs[i].scheduler
    ensures tr[k].w.pc == Cas(i) ==> !tr[k].futs[i].word.waiter
    ensures tr[k].w.pc == Loop ==> tr[k].w.need >= 1
  {
    RunHoldsInv(tr, k);
    assert FutureOk(tr[k].w, tr[k].futs[i], tr[k].delivered[i], i);
  }

  /** When the wait is over, the fiber has yielded exactly as often as it was scheduled, it
      is in no run queue, and no signaller, now or later, will schedule it for this wait:
      each future it registered with has delivered, each other one no longer knows it. */
  lemma NoStrayWakeup(tr: seq<State>, k: nat, i: nat)
    requires IsRun(tr) && k < |tr| && tr[k].w.pc == Finished && i < |tr[k].futs|
    ensures Shaped(tr[k])
    ensures tr[k].tokens == 0 && tr[k].w.resumed == Cnt(tr[k].delivered)
    ensures tr[k].futs[i].word.waiter ==> tr[k].futs[i].sig == Done
    ensures tr[k].w.counted[i] <==> tr[k].delivered[i]
  {
    RunHoldsInv(tr, k);
    DeliveredAreCounted(tr[k]);
    assert FutureOk(tr[k].w, tr[k].futs[i], tr[k].delivered[i], i);
  }

  /** waitAll() returns only when every future is signalled. With a single future this is
      Future::wait(): it yields at most once, and exactly if the signaller schedules it. */
  lemma WaitAllSignalled(tr: seq<State>, k: nat, i: nat)
    requires IsRun(tr) && k < |tr| && tr[k].w.mode == All && tr[k].w.pc == Finished && i < |tr[k].futs|
    ensures Shaped(tr[k])
    ensures tr[k].futs[i].word.signalled
    ensures |tr[k].futs| == 1 ==> tr[k].w.resumed == if tr[k].delivered[0] then 1 else 0
  {
    NoStrayWakeup(tr, k, i);
    RunHoldsInv(tr, k);
    assert FutureOk(tr[k].w, tr[k].futs[i], tr[k].delivered[i], i);
    if |tr[k].futs| == 1 {
      var d := tr[k].delivered;
      assert d[1..] == [] && Cnt(d) == Mark(d[0]) + Cnt(d[1..]);
    }
  }

  /** waitAny() after it had to register with every future: the result is the smallest
      position it found signalled, and the futures not found signalled know neither the
      fiber nor its scheduler. */
  lemma WaitAnyAllPending(tr: seq<State>, k: nat, i: nat)
    requires IsRun(tr) && k < |tr| && tr[k].w.mode == Any && tr[k].w.pc == Finished && tr[k].w.hit == None
    requires i < |tr[k].futs|
    ensures Shaped(tr[k])
    ensures tr[k].w.result.Some? && tr[k].w.result.value < |tr[k].futs| &&
            tr[k].futs[tr[k].w.result.value].word.signalled
    ensures tr[k].w.seen[tr[k].w.result.value] && (tr[k].w.seen[i] ==> tr[k].w.result.value <= i)
    ensures !tr[k].w.seen[i] ==> !tr[k].futs[i].word.waiter && !tr[k].futs[i].scheduler
  {
    RunHoldsInv(tr, k);
    var s := tr[k];
    FirstIs(s.w.seen, 0, |s.futs|);
    forall j | 0 <= j < |s.futs|
      ensures s.w.counted[j] ==> s.w.seen[j]
    {
      assert FutureOk(s.w, s.futs[j], s.delivered[j], j);
    }
    assert FutureOk(s.w, s.futs[i], s.delivered[i], i);
    if s.w.result == None { SumZero(s.w.counted, Mark); }
    assert FutureOk(s.w, s.futs[s.w.result.value], s.delivered[s.w.result.value], s.w.result.value);
  }

  /** No wake-up is lost: while the wait is not over, some signaller has a step to take, or the
      fiber has, which means that a fiber in a yield has been scheduled. */
  lemma NoLostWakeup(tr: seq<State>, k: nat)
    requires IsRun(tr) && k < |tr| && tr[k].w.pc != Finished
    requires forall i :: 0 <= i < |tr[k].futs| ==> tr[k].futs[i].sig == Done
    ensures WaiterCan(tr[k])
  {
    RunHoldsInv(tr, k);
    var s := tr[k];
    forall i | 0 <= i < |s.futs|
      ensures s.w.counted[i] == s.delivered[i]
    {
      assert FutureOk(s.w, s.futs[i], s.delivered[i], i);
    }
    assert s.delivered == s.w.counted;
    if s.w.pc == FirstYield {
      assert FutureOk(s.w, s.futs[0], s.delivered[0], 0);
      SumZero(s.w.counted, Mark);
    }
  }

  /** The formula of the result when startWait() found future j signalled: the position returned
      was found signalled exactly when j is first, or future 0 was found signalled, or no
      future between was, or the one after the lowest of those was too. */
  lemma WaitAnyEarlyIndex(tr: seq<State>, k: nat)
    requires IsRun(tr) && k < |tr| && tr[k].w.mode == Any && tr[k].w.pc == Finished && tr[k].w.hit.Some?
    ensures Shaped(tr[k])
    ensures var w := tr[k].w;
            var j := w.hit.value;
            && j < |w.seen| && w.result.Some? && w.result.value < |w.seen|
            && (w.seen[w.result.value] <==>
                  j == 0 || w.seen[0] || First(w.seen, 1, j) == None ||
                  (First(w.seen, 1, j).value + 1 < |w.seen| && w.seen[First(w.seen, 1, j).value + 1]))
  {
    RunHoldsInv(tr, k);
    var w := tr[k].w;
    if w.hit.value > 0 { FirstIs(w.seen, 1, w.hit.value); }
  }
}

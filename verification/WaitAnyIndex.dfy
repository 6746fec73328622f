/** When the position that waitAny() returns can be trusted. */
module WaitAnyIndex {
  import opened Common
  import opened Futures

  /** A waitAny() on n futures has returned. */
  ghost predicate Returned(tr: seq<State>, n: nat) {
    IsRun(tr) && tr[|tr| - 1].w.mode == Any && tr[|tr| - 1].w.pc == Finished && |tr[|tr| - 1].futs| == n
  }

  /** The position it returned is one of a signalled future. */
  predicate Right(s: State) {
    s.w.result.Some? && s.w.result.value < |s.futs| && s.futs[s.w.result.value].word.signalled
  }

  ghost predicate AlwaysRight(n: nat) { forall tr :: Returned(tr, n) ==> Right(tr[|tr| - 1]) }

  /** With at most three futures there is no room for the mistake: the position after one found
      signalled between the first and the hit is the hit. */
  lemma FewAreRight(tr: seq<State>, n: nat)
    requires Returned(tr, n) && n <= 3
    ensures Right(tr[|tr| - 1])
  {
    var k := |tr| - 1;
    var s := tr[k];
    RunHoldsInv(tr, k);
    if s.w.hit == None {
      WaitAnyAllPending(tr, k, 0);
    } else {
      WaitAnyEarlyIndex(tr, k);
      if s.w.hit.value > 0 { FirstIs(s.w.seen, 1, s.w.hit.value); }
      var r := s.w.result.value;
      assert s.w.seen[r];
      assert FutureOk(s.w, s.futs[r], s.delivered[r], r);
    }
  }

  // ----- four or more futures -----

  const FRESH := Future(Word(false, false), false, NotYet)

  /** The same state with m more futures behind that nothing has happened to. */
  function Pad(s: State, m: nat): State {
    State(s.futs + seq(m, _ => FRESH), s.tokens, s.delivered + seq(m, _ => false),
          s.w.(counted := s.w.counted + seq(m, _ => false), seen := s.w.seen + seq(m, _ => false)))
  }

  /** A state of waitAny() on four futures that will not reach the end of the list. */
  predicate Early(s: State) {
    && Shaped(s) && |s.futs| == 4 && s.w.mode == Any
    && s.w.pc != FirstYield && (s.w.pc == Cas(3) ==> s.futs[3].word.signalled)
  }

  lemma UpdateFront<T>(a: seq<T>, b: seq<T>, i: nat, x: T)
    requires i < |a|
    ensures (a + b)[i := x] == a[i := x] + b
  {
  }

  lemma PadFutures(s: State, m: nat, i: nat, f: Future)
    requires Shaped(s) && i < |s.futs|
    ensures Pad(s, m).futs[i] == s.futs[i] && Pad(s, m).futs[i := f] == s.futs[i := f] + seq(m, _ => FRESH)
  {
    UpdateFront(s.futs, seq(m, _ => FRESH), i, f);
  }

  lemma PadWaiter(s: State, m: nat)
    requires Early(s) && WaiterCan(s)
    ensures WaiterCan(Pad(s, m)) && WaiterStep(Pad(s, m)) == Pad(WaiterStep(s), m)
  {
    var no := seq(m, _ => false);
    match s.w.pc
    case Start(i) => PadFutures(s, m, i, s.futs[i].(scheduler := true));
    case Cas(i) =>
      PadFutures(s, m, i, s.futs[i].(word := Word(true, false)));
      UpdateFront(s.w.counted, no, i, true);
      UpdateFront(s.w.seen, no, i, true);
    case Cancel(it, _) => PadFutures(s, m, it, s.futs[it]); UpdateFront(s.w.seen, no, it, true);
    case CancelCas(it, _, _) =>
      PadFutures(s, m, it, s.futs[it].(word := Word(false, false)));
      UpdateFront(s.w.counted, no, it, false);
      UpdateFront(s.w.seen, no, it, true);
    case Clear(it, _) => PadFutures(s, m, it, s.futs[it].(scheduler := false));
    case _ =>
  }

  lemma PadSignal(s: State, i: nat, m: nat)
    requires SignalCan(s, i)
    ensures SignalCan(Pad(s, m), i) && SignalStep(Pad(s, m), i) == Pad(SignalStep(s, i), m)
  {
    PadFutures(s, m, i, Signalled(s.futs[i]));
    UpdateFront(s.delivered, seq(m, _ => false), i, true);
  }

  /** A run with one more step: of the waiter for None, of the signaller of i for Some(i). */
  lemma Extend(tr: seq<State>, s: State, act: Option<nat>, m: nat) returns (tr': seq<State>, s': State)
    requires IsRun(tr) && tr[|tr| - 1] == Pad(s, m)
    requires act == None ==> Early(s) && WaiterCan(s)
    requires act.Some? ==> SignalCan(s, act.value)
    ensures s' == if act == None then WaiterStep(s) else SignalStep(s, act.value)
    ensures IsRun(tr') && tr'[|tr'| - 1] == Pad(s', m)
  {
    s' := if act == None then WaiterStep(s) else SignalStep(s, act.value);
    if act == None { PadWaiter(s, m); } else { PadSignal(s, act.value, m); }
    var p, p' := Pad(s, m), Pad(s', m);
    tr' := tr + [p'];
    assert Step(p, p') by { if act.Some? { assert SignalCan(p, act.value); } }
    forall k | 0 <= k < |tr'| - 1 ensures Step(tr'[k], tr'[k + 1]) {
      if k < |tr| - 1 { assert Step(tr[k], tr[k + 1]); }
    }
  }

  // The four futures that matter, at the stages of the run.

  const START := State([FRESH, FRESH, FRESH, FRESH], 0, [false, false, false, false],
                       Waiter(Any, Start(0), 1, None, 0, [false, false, false, false], [false, false, false, false],
                         None))

  /** Futures 0 and 1 registered. */
  const BEGUN := State([Future(Word(true, false), true, NotYet), Future(Word(true, false), true, NotYet), FRESH, FRESH],
                       0, [false, false, false, false],
                       Waiter(Any, Start(2), 1, None, 0, [true, true, false, false], [false, false, false, false],
                         None))

  /** Future 1 has delivered, 2 is registered. */
  const DELIVERED := State([Future(Word(true, false), true, NotYet), Future(Word(true, true), true, Done),
                            Future(Word(true, false), true, NotYet), FRESH],
                           1, [false, true, false, false],
                           Waiter(Any, Start(3), 1, None, 0, [true, true, true, false], [false, false, false, false],
                             None))

  /** Future 3 has been found signalled: the cancel loop starts. */
  const BROKEN := State([Future(Word(true, false), true, NotYet), Future(Word(true, true), true, Done),
                         Future(Word(true, false), true, NotYet), Future(Word(false, true), true, Done)],
                        1, [false, true, false, false],
                        Waiter(Any, Cancel(2, 3), 1, Some(3), 0, [true, true, true, false],
                          [false, false, false, true], Some(3)))

  /** Future 2 is cancelled, 1 found signalled: the position named is the one after it. */
  const NAMED := State([Future(Word(true, false), true, NotYet), Future(Word(true, true), true, Done),
                        FRESH, Future(Word(false, true), true, Done)],
                       1, [false, true, false, false],
                       Waiter(Any, Cancel(0, 1), 2, Some(2), 0, [true, true, false, false],
                         [false, true, false, true], Some(3)))

  lemma Begins(m: nat) returns (tr: seq<State>)
    ensures IsRun(tr) && tr[|tr| - 1] == Pad(BEGUN, m)
  {
    tr := [Pad(START, m)];
    var s := START;
    tr, s := Extend(tr, s, None, m);
    tr, s := Extend(tr, s, None, m);
    tr, s := Extend(tr, s, None, m);
    tr, s := Extend(tr, s, None, m);
  }

  lemma Delivers(m: nat) returns (tr: seq<State>)
    ensures IsRun(tr) && tr[|tr| - 1] == Pad(DELIVERED, m)
  {
    tr := Begins(m);
    var s := BEGUN;
    tr, s := Extend(tr, s, Some(1), m);
    tr, s := Extend(tr, s, Some(1), m);
    tr, s := Extend(tr, s, Some(1), m);
    tr, s := Extend(tr, s, None, m);
    tr, s := Extend(tr, s, None, m);
  }

  lemma Breaks(m: nat) returns (tr: seq<State>)
    ensures IsRun(tr) && tr[|tr| - 1] == Pad(BROKEN, m)
  {
    tr := Delivers(m);
    var s := DELIVERED;
    tr, s := Extend(tr, s, Some(3), m);
    tr, s := Extend(tr, s, Some(3), m);
    tr, s := Extend(tr, s, Some(3), m);
    tr, s := Extend(tr, s, None, m);
    tr, s := Extend(tr, s, None, m);
  }

  lemma Names(m: nat) returns (tr: seq<State>)
    ensures IsRun(tr) && tr[|tr| - 1] == Pad(NAMED, m)
  {
    tr := Breaks(m);
    var s := BROKEN;
    tr, s := Extend(tr, s, None, m);
    tr, s := Extend(tr, s, None, m);
    tr, s := Extend(tr, s, None, m);
    tr, s := Extend(tr, s, None, m);
  }

  /** Four futures or more; 1 is signalled while waitAny registers, 3 before it gets there.
      waitAny returns 2, which nobody has signalled. */
  lemma WaitAnyMisreports(n: nat) returns (tr: seq<State>)
    requires n >= 4
    ensures Returned(tr, n) && tr[|tr| - 1].w.result == Some(2) && !tr[|tr| - 1].futs[2].word.signalled
  {
    var m := n - 4;
    tr := Names(m);
    var s := NAMED;
    tr, s := Extend(tr, s, None, m);
    tr, s := Extend(tr, s, None, m);
    tr, s := Extend(tr, s, None, m);
    tr, s := Extend(tr, s, None, m);
    tr, s := Extend(tr, s, None, m);
    tr, s := Extend(tr, s, None, m);
  }

  /** The position returned is always that of a signalled future exactly for up to three futures. */
  lemma RightIffFew(n: nat)
    requires n > 0
    ensures AlwaysRight(n) <==> n <= 3
  {
    if n <= 3 {
      forall tr | Returned(tr, n) ensures Right(tr[|tr| - 1]) { FewAreRight(tr, n); }
    } else {
      var tr := WaitAnyMisreports(n);
      assert Returned(tr, n) && !Right(tr[|tr| - 1]);
    }
  }
}

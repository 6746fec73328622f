/** What every step of the fiber engine keeps. */
module EngineSafety {
  import opened Common
  import opened Scheduling
  import opened Tally
  import opened FiberEngine

  // ----- threads and fibers -----

  predicate Runs(e: Engine, t: Tid, f: Fid) {
    f in e.fibers && e.fibers[f].state == Exec && e.fibers[f].on == Some(t)
  }

  /** The fiber has been given to a queue, to a synchronization object, or to nobody. */
  predicate Given(p: Place, t: Tid) { p.Queued? || p.Away? || p == Awaits(t) }

  /** Where a fiber that dies on this thread will go. */
  predicate ReturnsHere(e: Engine, t: Tid, f: Fid)
    requires t < |e.threads| && f in e.fibers
  {
    e.fibers[f].stack ==> e.fibers[f].terminateOuter == Some(e.threads[t].run)
  }

  /** A fiber that is on its way out but still marked as executing. */
  predicate Departing(e: Engine, t: Tid, f: Fid, next: FiberState) {
    && Runs(e, t, f) && e.fibers[f].yielder == None
    && (next == Hold ==> Given(e.fibers[f].place, t))
    && (next != Hold ==> next in {Term, Except} && e.fibers[f].place == Held(t) && e.fibers[f].stack)
  }

  predicate RunLoopSuspended(e: Engine, t: Tid)
    requires t < |e.threads| && e.threads[t].run in e.fibers
  {
    var r := e.fibers[e.threads[t].run];
    if e.threads[t].outside then r.state in {Init, Term, Except} else r.state == Hold
  }

  /** A fiber that the run loop resumes, or the native fiber to which an ended run loop returns. */
  predicate Coming(e: Engine, t: Tid, f: Fid)
    requires t < |e.threads| && f in e.fibers
  {
    && e.fibers[f].place == Held(t) && ReturnsHere(e, t, f) && e.fibers[f].yielder == Some(e.threads[t].run)
    && if e.threads[t].outside then
         f == e.threads[t].native && !e.fibers[f].stack && e.fibers[f].next in {Term, Except}
       else e.fibers[f].next == Hold
  }

  /** The run fiber of a hijacked thread has its own stack; m_callingFiber is the native fiber, if any. */
  predicate HijackOk(e: Engine, t: Tid)
    requires t < |e.threads| && e.threads[t].run in e.fibers
  {
    var th := e.threads[t];
    && (Hijacked(th) ==> e.fibers[th.run].stack) && (th.calling.Some? ==> th.calling.value == th.native)
    && (th.outside ==> Hijacked(th))
    && (th.asks ==> th.pc == Leaving && Hijacked(th) && th.ctx in e.fibers && e.fibers[th.ctx].place == Awaits(t))
  }

  /** Client code runs on the thread. */
  predicate InClient(e: Engine, t: Tid)
    requires t < |e.threads| && e.threads[t].run in e.fibers
  {
    var th := e.threads[t];
    && RunLoopSuspended(e, t) && th.ctx == th.current
    && Runs(e, t, th.ctx) && e.fibers[th.ctx].place == Held(t)
    && (if th.outside then th.ctx == th.native && !e.fibers[th.ctx].stack else ReturnsHere(e, t, th.ctx))
    && e.fibers[th.ctx].yielder == None
  }

  predicate PcOk(e: Engine, t: Tid)
    requires t < |e.threads| && e.threads[t].run in e.fibers && e.threads[t].idle in e.fibers
  {
    var th := e.threads[t];
    var run := e.fibers[th.run];
    var idle := e.fibers[th.idle];
    match th.pc
    case Loop => Runs(e, t, th.run) && run.yielder == None && th.ctx == th.current == th.run
    case Throwing => Runs(e, t, th.run) && run.yielder == None && th.ctx == th.current == th.run
    case Landed(y, _) => Runs(e, t, th.run) && run.yielder == None && th.ctx == th.current == th.run && y in e.fibers
    case Judging => Runs(e, t, th.run) && run.yielder == None && th.ctx == th.current == th.run && th.functor
    case Dead => Runs(e, t, th.run) && run.yielder == None && th.ctx == th.current == th.run
    case Resume(f) =>
      && Runs(e, t, th.run) && run.yielder == None && th.ctx == th.current == th.run
      && f in e.fibers && e.fibers[f].place == Held(t) && e.fibers[f].state in {Init, Hold}
    case Ending(last) =>
      && Runs(e, t, th.run) && run.yielder == None && th.ctx == th.current == th.run
      && Hijacked(th) && last in {Term, Except}
    case SwitchIn(f) =>
      && Runs(e, t, th.run) && run.yielder == None && th.ctx == th.run && th.current == f
      && Runs(e, t, f) && Coming(e, t, f)
    case ArriveIn =>
      && Runs(e, t, th.run) && run.yielder == None && th.ctx == th.current
      && Runs(e, t, th.ctx) && Coming(e, t, th.ctx)
    case User => InClient(e, t)
    case Failing => InClient(e, t) && !th.outside && e.fibers[th.ctx].stack
    case Leaving =>
      && RunLoopSuspended(e, t) && th.ctx == th.current
      && Runs(e, t, th.ctx) && Given(e.fibers[th.ctx].place, t)
      && e.fibers[th.ctx].yielder == None && (th.outside ==> th.ctx == th.native)
    case SwitchOut(to) =>
      && to == th.run && th.current == th.run && Runs(e, t, th.run)
      && run.yielder == Some(th.ctx) && Departing(e, t, th.ctx, run.next) && (th.outside ==> run.next == Hold)
    case ArriveOut =>
      && th.ctx == th.current == th.run && Runs(e, t, th.run)
      && run.yielder.Some? && Departing(e, t, run.yielder.value, run.next) && (th.outside ==> run.next == Hold)
    case SwitchIdle =>
      && Runs(e, t, th.run) && run.yielder == None && Runs(e, t, th.idle) && idle.outer == Some(th.run)
      && idle.yielder == None && th.ctx == th.run && th.current == th.idle
    case Idle =>
      && Runs(e, t, th.run) && run.yielder == None && Runs(e, t, th.idle) && idle.outer == Some(th.run)
      && idle.yielder == None && th.ctx == th.current == th.idle
    case SwitchBack =>
      && Runs(e, t, th.run) && run.yielder == Some(th.idle) && Runs(e, t, th.idle) && idle.outer == Some(th.run)
      && run.next in {Hold, Term} && idle.yielder == None && th.ctx == th.current == th.idle
    case ArriveBack =>
      && Runs(e, t, th.run) && run.yielder == Some(th.idle) && Runs(e, t, th.idle) && idle.outer == Some(th.run)
      && run.next in {Hold, Term} && idle.yielder == None && th.ctx == th.run && th.current == th.idle
  }

  predicate InIdle(pc: Pc) { pc == SwitchIdle || pc == Idle || pc == SwitchBack || pc == ArriveBack }

  /** The thread is working on a task. */
  predicate InTask(pc: Pc) { !InIdle(pc) && pc != Loop && pc != Dead && !pc.Ending? }

  /** The thread keeps the fiber for its next functor. */
  predicate SparedBy(th: Thread, f: Fid) { th.spare == Some(f) && !th.functor }

  /** The fiber a run loop runs functors in is its own; between functors it lies ready. */
  predicate SpareOk(e: Engine, t: Tid)
    requires t < |e.threads|
  {
    var th := e.threads[t];
    && (th.functor ==> th.spare.Some? && InTask(th.pc) && !th.outside)
    && (th.spare.Some? ==>
          && th.spare.value in e.fibers && e.fibers[th.spare.value].own
          && (!th.functor ==> e.fibers[th.spare.value].place == SpareOf(t)))
  }

  predicate ThreadOk(e: Engine, t: Tid)
    requires t < |e.threads|
  {
    var th := e.threads[t];
    && th.sched < |e.scheds|
    && th.run in e.fibers && e.fibers[th.run].place == LoopOf(t)
    && th.idle in e.fibers && e.fibers[th.idle].place == IdleOf(t) && e.fibers[th.idle].stack
    && (!InIdle(th.pc) ==> e.fibers[th.idle].state in {Init, Hold, Term})
    && (th.outside ==> th.pc in {User, Leaving, ArriveOut, ArriveIn} || th.pc.SwitchOut? || th.pc.SwitchIn?)
    && HijackOk(e, t) && SpareOk(e, t) && PcOk(e, t)
  }

  /** The fibers that occupy a thread. */
  predicate Occupies(e: Engine, t: Tid, f: Fid)
    requires t < |e.threads|
  {
    var th := e.threads[t];
    match th.pc
    case SwitchIn(g) => f == th.run || f == g
    case ArriveIn => f == th.run || f == th.ctx
    case User => f == th.ctx
    case Failing => f == th.ctx
    case Leaving => f == th.ctx
    case SwitchOut(_) => f == th.run || f == th.ctx
    case ArriveOut => f == th.run || (th.run in e.fibers && e.fibers[th.run].yielder == Some(f))
    case SwitchIdle => f == th.run || f == th.idle
    case Idle => f == th.run || f == th.idle
    case SwitchBack => f == th.run || f == th.idle
    case ArriveBack => f == th.run || f == th.idle
    case _ => f == th.run
  }

  predicate HeldBy(e: Engine, t: Tid, f: Fid)
    requires t < |e.threads|
  {
    var th := e.threads[t];
    match th.pc
    case Resume(g) => f == g
    case SwitchIn(g) => f == g
    case ArriveIn => f == th.ctx
    case User => f == th.ctx
    case Failing => f == th.ctx
    case SwitchOut(_) => f == th.ctx
    case ArriveOut => th.run in e.fibers && e.fibers[th.run].yielder == Some(f)
    case _ => false
  }

  predicate FiberOk(e: Engine, f: Fid)
    requires f in e.fibers
  {
    var fb := e.fibers[f];
    && (fb.state == Exec <==> fb.on.Some?)
    && (fb.on.Some? ==> fb.on.value < |e.threads| && Occupies(e, fb.on.value, f))
    && (fb.state != Exec ==> fb.yielder == None && fb.outer == None)
    && (fb.outer.Some? ==> fb.place.IdleOf?)
    && (fb.state in {Init, Term, Except} ==> fb.stack)
    && (fb.own ==> fb.stack && (fb.state == Term ==> fb.place == Spent))
    && match fb.place
       case Loose => fb.state in {Init, Term, Except} && !fb.own
       case Queued(s) => s < |e.scheds| && fb.state in {Init, Hold, Term, Exec}
       case Batched(t) => t < |e.threads| && fb.state in {Init, Hold, Term}
       case Held(t) => t < |e.threads| && HeldBy(e, t, f)
       case Away(s, _) => s < |e.scheds| && fb.state in {Hold, Exec}
       case Awaits(t) =>
         && t < |e.threads| && fb.state in {Hold, Exec} && (fb.on.Some? ==> fb.on.value == t)
         && (fb.stack ==> fb.terminateOuter == Some(e.threads[t].run))
       case LoopOf(t) => t < |e.threads| && e.threads[t].run == f && !fb.own
       case IdleOf(t) => t < |e.threads| && e.threads[t].idle == f && !fb.own
       case SpareOf(t) => t < |e.threads| && SparedBy(e.threads[t], f) && fb.own && fb.state == Init
       case Spent => fb.own && fb.state in {Init, Term, Except}
  }

  /** Threads and fibers agree. */
  ghost predicate Shape(e: Engine) {
    && (forall t :: 0 <= t < |e.threads| ==> ThreadOk(e, t))
    && (forall f :: f in e.fibers ==> FiberOk(e, f))
  }

  // ----- queues and batches -----

  function Count(q: seq<Item>, f: Fid): nat {
    if q == [] then 0 else (if q[0].task == FiberTask(f) then 1 else 0) + Count(q[1..], f)
  }

  /** A fiber is in a queue exactly once if that is its place, and not at all otherwise. */
  ghost predicate QueueOk(e: Engine, s: Sid)
    requires s < |e.scheds|
  {
    forall f :: Count(e.scheds[s].queue, f) == if f in e.fibers && e.fibers[f].place == Queued(s) then 1 else 0
  }

  ghost predicate BatchOk(e: Engine, t: Tid)
    requires t < |e.threads|
  {
    && (forall f :: Count(e.threads[t].batch, f) == if f in e.fibers && e.fibers[f].place == Batched(t) then 1 else 0)
    && (forall it :: it in e.threads[t].batch ==> Mine(it, t))
  }

  ghost predicate Lists(e: Engine) {
    && (forall s :: 0 <= s < |e.scheds| ==> QueueOk(e, s))
    && (forall t :: 0 <= t < |e.threads| ==> BatchOk(e, t))
  }

  lemma {:induction false} CountAppend(a: seq<Item>, b: seq<Item>, f: Fid)
    ensures Count(a + b, f) == Count(a, f) + Count(b, f)
  {
    if a == [] {
      assert a + b == b;
    } else {
      assert (a + b)[1..] == a[1..] + b;
      CountAppend(a[1..], b, f);
    }
  }

  lemma {:induction false} CountIsMembership(q: seq<Item>, f: Fid)
    ensures Count(q, f) > 0 <==> f in FibersOf(q)
  {
    if q != [] {
      CountIsMembership(q[1..], f);
      assert q == [q[0]] + q[1..];
      assert f in FibersOf(q) <==> q[0].task == FiberTask(f) || f in FibersOf(q[1..]) by {
        if it: Item :| it in q && it.task.FiberTask? && it.task.f == f { assert it == q[0] || it in q[1..]; }
        if it: Item :| it in q[1..] && it.task.FiberTask? && it.task.f == f { assert it in q; }
        if q[0].task == FiberTask(f) { assert q[0] in q; }
      }
    } else {
      assert FibersOf(q) == {};
    }
  }

  lemma {:induction false} CountPartition(q: seq<Item>, me: Tid, busy: set<Fid>, k: nat, f: Fid)
    ensures Count(Take(q, me, busy, k), f) + Count(Rest(q, me, busy, k), f) == Count(q, f)
  {
    if q != [] && k != 0 {
      CountPartition(q[1..], me, busy, if Eligible(q[0], me, busy) then k - 1 else k, f);
    }
  }

  // ----- framing: a step of one thread leaves the others alone -----

  /** Another thread may, at most, turn a waiting fiber into a queued one. */
  predicate Kept(a: Fiber, b: Fiber) {
    a == b || (a.place.Away? && b == a.(place := Queued(a.place.s)))
  }

  /** The fiber belongs to thread t. */
  predicate Local(fb: Fiber, t: Tid) {
    fb.on == Some(t) || fb.place in {Held(t), LoopOf(t), IdleOf(t), SpareOf(t)}
  }

  predicate Foreign(fb: Fiber, t: Tid) {
    || (fb.on.Some? && fb.on.value != t) || (fb.place.Held? && fb.place.t != t)
    || (fb.place.LoopOf? && fb.place.t != t) || (fb.place.IdleOf? && fb.place.t != t)
    || (fb.place.SpareOf? && fb.place.t != t)
  }

  lemma ThreadFrame(e: Engine, e': Engine, u: Tid)
    requires u < |e.threads| && u < |e'.threads| && e'.threads[u] == e.threads[u]
    requires |e'.scheds| == |e.scheds| && ThreadOk(e, u)
    requires forall f :: f in e.fibers && Local(e.fibers[f], u) ==> f in e'.fibers && Kept(e.fibers[f], e'.fibers[f])
    requires forall f :: f in e.fibers ==> f in e'.fibers && e'.fibers[f].own == e.fibers[f].own
    ensures ThreadOk(e', u)
  {
    var th := e.threads[u];
    assert Local(e.fibers[th.run], u) && Local(e.fibers[th.idle], u);
    assert e'.fibers[th.run] == e.fibers[th.run] && e'.fibers[th.idle] == e.fibers[th.idle];
  }

  predicate SameRoles(a: Thread, b: Thread) { a.native == b.native && a.run == b.run && a.idle == b.idle }

  lemma FiberFrame(e: Engine, e': Engine, t: Tid, f: Fid)
    requires Shape(e) && t < |e.threads| == |e'.threads| && |e'.scheds| == |e.scheds|
    requires forall u :: 0 <= u < |e.threads| && u != t ==> e'.threads[u] == e.threads[u]
    requires SameRoles(e.threads[t], e'.threads[t])
    requires forall g :: g in e.fibers && Foreign(e.fibers[g], t) ==> g in e'.fibers && Kept(e.fibers[g], e'.fibers[g])
    requires f in e.fibers && f in e'.fibers && Kept(e.fibers[f], e'.fibers[f]) && !Local(e.fibers[f], t)
    ensures FiberOk(e', f)
  {
    var fb := e.fibers[f];
    assert FiberOk(e, f);
    if fb.on.Some? {
      var u := fb.on.value;
      assert ThreadOk(e, u);
      var run := e.threads[u].run;
      assert e.fibers[run].place == LoopOf(u);
      assert Occupies(e', u, f);
    }
    if fb.place.Held? {
      var u := fb.place.t;
      assert ThreadOk(e, u);
      assert e.fibers[e.threads[u].run].place == LoopOf(u);
      assert HeldBy(e', u, f);
    }
  }

  /** An untouched fiber of thread t itself. */
  lemma LocalFrame(e: Engine, e': Engine, t: Tid, f: Fid)
    requires t < |e.threads| == |e'.threads| && |e'.scheds| == |e.scheds|
    requires SameRoles(e.threads[t], e'.threads[t])
    requires f in e.fibers && f in e'.fibers && Kept(e.fibers[f], e'.fibers[f]) && Local(e.fibers[f], t)
    requires FiberOk(e, f) && (e.fibers[f].on.Some? ==> e.fibers[f].on.value == t) && !Foreign(e.fibers[f], t)
    requires e.fibers[f].on == Some(t) ==> Occupies(e', t, f)
    requires e.fibers[f].place == Held(t) ==> HeldBy(e', t, f)
    requires e.fibers[f].place == SpareOf(t) ==> SparedBy(e'.threads[t], f)
    ensures FiberOk(e', f)
  {
  }

  /** A fiber on a thread is on no other: its place, if it is another thread's, would put it there. */
  lemma LocalIsNotForeign(e: Engine, t: Tid, f: Fid)
    requires Shape(e) && t < |e.threads| && f in e.fibers && Local(e.fibers[f], t)
    ensures !Foreign(e.fibers[f], t)
  {
    var fb := e.fibers[f];
    assert FiberOk(e, f) && ThreadOk(e, t);
    if fb.on.Some? { assert ThreadOk(e, fb.on.value); }
    if fb.place.Held? { assert ThreadOk(e, fb.place.t); }
  }

  lemma Untouched(e: Engine, e': Engine, t: Tid, f: Fid)
    requires Shape(e) && t < |e.threads| == |e'.threads| && |e'.scheds| == |e.scheds|
    requires SameRoles(e.threads[t], e'.threads[t])
    requires forall u :: 0 <= u < |e.threads| && u != t ==> e'.threads[u] == e.threads[u]
    requires forall g :: g in e.fibers && Foreign(e.fibers[g], t) ==> g in e'.fibers && Kept(e.fibers[g], e'.fibers[g])
    requires f in e.fibers && f in e'.fibers && Kept(e.fibers[f], e'.fibers[f])
    requires Occupies(e, t, f) ==> Occupies(e', t, f)
    requires HeldBy(e, t, f) ==> HeldBy(e', t, f)
    requires SparedBy(e.threads[t], f) ==> SparedBy(e'.threads[t], f)
    ensures FiberOk(e', f)
  {
    assert FiberOk(e, f);
    if Local(e.fibers[f], t) {
      LocalIsNotForeign(e, t, f);
      LocalFrame(e, e', t, f);
    } else {
      FiberFrame(e, e', t, f);
    }
  }

  /** A step of thread t that touches only the fibers of D keeps the shape when t and
      the fibers it touches come out right and its other fibers keep their role. */
  lemma Frame(e: Engine, e': Engine, t: Tid, D: set<Fid>)
    requires Shape(e) && t < |e.threads| == |e'.threads| && |e'.scheds| == |e.scheds|
    requires SameRoles(e.threads[t], e'.threads[t])
    requires forall u :: 0 <= u < |e.threads| && u != t ==> e'.threads[u] == e.threads[u]
    requires forall f :: f in e.fibers ==> f in e'.fibers && (f in D || Kept(e.fibers[f], e'.fibers[f]))
    requires forall f :: f in e'.fibers && f !in e.fibers ==> f in D
    requires forall f :: f in D && f in e.fibers ==> !Foreign(e.fibers[f], t)
    requires ThreadOk(e', t)
    requires forall f :: f in D && f in e'.fibers ==> FiberOk(e', f)
    requires forall f :: f in e.fibers && f !in D && Occupies(e, t, f) ==> Occupies(e', t, f)
    requires forall f :: f in e.fibers && f !in D && HeldBy(e, t, f) ==> HeldBy(e', t, f)
    requires forall f :: f in e.fibers && f !in D && SparedBy(e.threads[t], f) ==> SparedBy(e'.threads[t], f)
    requires forall f :: f in D && f in e.fibers ==> e'.fibers[f].own == e.fibers[f].own
    ensures Shape(e')
  {
    hide ThreadOk;
    forall u | 0 <= u < |e'.threads| ensures ThreadOk(e', u) {
      if u != t { ThreadFrame(e, e', u); }
    }
    forall f | f in e'.fibers ensures FiberOk(e', f) {
      if f !in D { Untouched(e, e', t, f); }
    }
  }

  lemma YieldToEffect(fs: map<Fid, Fiber>, current: Fid, f: Fid, t: Tid, caller: bool, target: FiberState)
    requires f in fs && fs[f].outer == None
    ensures YieldToWrites(fs, current, f, t, caller, target) ==
            fs[f := fs[f].(state := Exec, yielder := Some(current), next := target, on := Some(t),
                           terminateOuter := if caller then Some(current) else fs[f].terminateOuter)]
  {
    assert Outermost(fs, f, |fs|) == f;
  }

  /** The common case: one fiber changes. */
  lemma FrameOne(e: Engine, e': Engine, t: Tid, f: Fid, fb: Fiber)
    requires Shape(e) && t < |e.threads| && (f in e.fibers ==> !Foreign(e.fibers[f], t))
    requires |e'.threads| == |e.threads| && |e'.scheds| == |e.scheds|
    requires SameRoles(e.threads[t], e'.threads[t])
    requires forall u :: 0 <= u < |e.threads| && u != t ==> e'.threads[u] == e.threads[u]
    requires e'.fibers == e.fibers[f := fb]
    requires ThreadOk(e', t) && FiberOk(e', f)
    requires forall g :: g in e.fibers && g != f && Occupies(e, t, g) ==> Occupies(e', t, g)
    requires forall g :: g in e.fibers && g != f && HeldBy(e, t, g) ==> HeldBy(e', t, g)
    requires forall g :: g in e.fibers && g != f && SparedBy(e.threads[t], g) ==> SparedBy(e'.threads[t], g)
    requires f in e.fibers ==> fb.own == e.fibers[f].own
    ensures Shape(e')
  {
    Frame(e, e', t, {f});
  }

  /** Two fibers of the thread change. */
  lemma FrameTwo(e: Engine, e': Engine, t: Tid, f: Fid, g: Fid)
    requires Shape(e) && t < |e.threads| && f in e.fibers && g in e.fibers
    requires !Foreign(e.fibers[f], t) && !Foreign(e.fibers[g], t)
    requires |e'.threads| == |e.threads| && |e'.scheds| == |e.scheds|
    requires SameRoles(e.threads[t], e'.threads[t])
    requires forall u :: 0 <= u < |e.threads| && u != t ==> e'.threads[u] == e.threads[u]
    requires f in e'.fibers && g in e'.fibers && e'.fibers == e.fibers[f := e'.fibers[f]][g := e'.fibers[g]]
    requires ThreadOk(e', t) && FiberOk(e', f) && FiberOk(e', g)
    requires e'.fibers[f].own == e.fibers[f].own && e'.fibers[g].own == e.fibers[g].own
    requires forall h :: h in e.fibers && h != f && h != g && Occupies(e, t, h) ==> Occupies(e', t, h)
    requires forall h :: h in e.fibers && h != f && h != g && HeldBy(e, t, h) ==> HeldBy(e', t, h)
    requires e'.threads[t].spare == e.threads[t].spare && e'.threads[t].functor == e.threads[t].functor
    ensures Shape(e')
  {
    hide ThreadOk, FiberOk, Occupies, HeldBy;
    Frame(e, e', t, {f, g});
  }

  lemma ShapeLeaveLoop(e: Engine, t: Tid, e': Engine)
    requires Shape(e) && Enabled(e, Leave(t)) && e' == DoLeave(e, t)
    requires e.threads[t].run in e.fibers && e.fibers[e.threads[t].run].state == Hold
    ensures Shape(e')
  {
    hide FiberOk, DoLeave;
    var th := e.threads[t];
    assert ThreadOk(e, t) && FiberOk(e, th.run);
    LeaveForm(e, t, e');
    LoopFibersLocal(e, t);
    LeaveLoopFiber(e, t, e');
    FrameOne(e, e', t, th.run, e'.fibers[th.run]);
  }

  lemma LeaveLoopFiber(e: Engine, t: Tid, e': Engine)
    requires t < |e.threads| && ThreadOk(e, t) && e.threads[t].pc == Leaving && FiberOk(e, e.threads[t].run)
    requires var th := e.threads[t];
             && |e'.threads| == |e.threads| && e'.threads[t] == th.(current := th.run, pc := SwitchOut(th.run),
                  asks := false, calling := e'.threads[t].calling)
             && e'.scheds == e.scheds && th.run in e'.fibers
             && e'.fibers[th.run] == e.fibers[th.run].(state := Exec, yielder := Some(th.current), next := Hold,
                  on := Some(t), terminateOuter := e'.fibers[th.run].terminateOuter)
    ensures FiberOk(e', e.threads[t].run)
  {
  }

  /** The native fiber has left; the run fiber starts anew with a new idle fiber. */
  predicate LeftFresh(e: Engine, t: Tid, e': Engine, out: Option<Fid>)
    requires t < |e.threads|
  {
    var th := e.threads[t];
    && th.run in e.fibers && th.idle in e.fibers && th.run != th.idle && e'.scheds == e.scheds
    && t < |e'.threads|
    && e'.threads == e.threads[t := th.(current := th.run, pc := SwitchOut(th.run), asks := false,
                                        calling := e'.threads[t].calling)]
    && (e'.threads[t].calling == th.calling || (th.outside && e'.threads[t].calling == Some(th.current)))
    && e'.fibers ==
         e.fibers[th.idle := NewFiber(IdleOf(t))]
                 [th.run := e.fibers[th.run].(state := Exec, yielder := Some(th.current), next := Hold, on := Some(t),
                                              terminateOuter := out)]
    && (out == Some(th.current) || (e.fibers[th.run].state == Except && out == e.fibers[th.run].terminateOuter))
  }

  lemma LeaveFreshThread(e: Engine, t: Tid, e': Engine, out: Option<Fid>)
    requires t < |e.threads| && ThreadOk(e, t) && e.threads[t].pc == Leaving && LeftFresh(e, t, e', out)
    requires e.fibers[e.threads[t].run].state != Hold
    ensures ThreadOk(e', t)
  {
  }

  lemma LeaveFreshFibers(e: Engine, t: Tid, e': Engine, out: Option<Fid>)
    requires t < |e.threads| && ThreadOk(e, t) && e.threads[t].pc == Leaving && LeftFresh(e, t, e', out)
    requires FiberOk(e, e.threads[t].run) && FiberOk(e, e.threads[t].idle) && e.fibers[e.threads[t].run].state != Hold
    ensures FiberOk(e', e.threads[t].run) && FiberOk(e', e.threads[t].idle)
    ensures !e.fibers[e.threads[t].run].own && !e.fibers[e.threads[t].idle].own
  {
  }

  lemma ShapeLeaveFresh(e: Engine, t: Tid, e': Engine)
    requires Shape(e) && Enabled(e, Leave(t)) && e' == DoLeave(e, t)
    requires e.threads[t].run in e.fibers && e.fibers[e.threads[t].run].state != Hold
    ensures Shape(e')
  {
    hide FiberOk, DoLeave;
    var th := e.threads[t];
    assert ThreadOk(e, t) && FiberOk(e, th.run) && FiberOk(e, th.idle);
    LeaveForm(e, t, e');
    var out := e'.fibers[th.run].terminateOuter;
    LeaveFreshThread(e, t, e', out);
    LeaveFreshFibers(e, t, e', out);
    LoopFibersLocal(e, t);
    FrameTwo(e, e', t, th.idle, th.run);
  }

  lemma LoopFibersLocal(e: Engine, t: Tid)
    requires Shape(e) && t < |e.threads|
    ensures e.threads[t].run in e.fibers && !Foreign(e.fibers[e.threads[t].run], t)
    ensures e.threads[t].idle in e.fibers && !Foreign(e.fibers[e.threads[t].idle], t)
  {
    assert ThreadOk(e, t);
    LocalIsNotForeign(e, t, e.threads[t].run);
    LocalIsNotForeign(e, t, e.threads[t].idle);
  }

  lemma ShapeLeave(e: Engine, t: Tid)
    requires Shape(e) && Enabled(e, Leave(t))
    ensures Shape(DoLeave(e, t))
  {
    assert ThreadOk(e, t);
    if e.fibers[e.threads[t].run].state == Hold { ShapeLeaveLoop(e, t, DoLeave(e, t)); }
    else { ShapeLeaveFresh(e, t, DoLeave(e, t)); }
  }

  /** What leaving for the run loop writes. */
  lemma LeaveForm(e: Engine, t: Tid, e': Engine)
    requires Shape(e) && Enabled(e, Leave(t)) && e' == DoLeave(e, t)
    ensures e.threads[t].run in e.fibers && e.threads[t].idle in e.fibers && e.threads[t].run != e.threads[t].idle
    ensures var th := e.threads[t];
            var run := e.fibers[th.run];
            var out := if th.asks || run.state in {Init, Term} then Some(th.current) else run.terminateOuter;
            var run' := run.(state := Exec, yielder := Some(th.current), next := Hold, on := Some(t),
              terminateOuter := out);
            var fs := if run.state != Hold then e.fibers[th.idle := NewFiber(IdleOf(t))] else e.fibers;
            e'.fibers == fs[th.run := run']
    ensures e'.threads ==
            e.threads[t := e.threads[t].(current := e.threads[t].run, pc := SwitchOut(e.threads[t].run), asks := false,
                                         calling := e'.threads[t].calling)]
    ensures e'.threads[t].calling == e.threads[t].calling || (e.threads[t].outside && !e.threads[t].asks &&
              e'.threads[t].calling == Some(e.threads[t].current))
    ensures e'.scheds == e.scheds
  {
    var th := e.threads[t];
    assert ThreadOk(e, t) && FiberOk(e, th.run);
    var over := e.fibers[th.run].state != Hold;
    var fs := if over then FreshIdle(e.fibers, th, t) else e.fibers;
    var caller := th.asks || (over && e.fibers[th.run].state in {Init, Term});
    YieldToEffect(fs, th.current, th.run, t, caller, Hold);
  }

  lemma EnterForm(e: Engine, t: Tid, f: Fid, e': Engine)
    requires Shape(e) && Enabled(e, Enter(t)) && e.threads[t].pc == Resume(f) && e' == DoEnter(e, t)
    ensures f in e.fibers && e.fibers[f].on == None && e.fibers[f].place == Held(t)
    ensures e'.fibers == e.fibers[f := e.fibers[f].(state := Exec, yielder := Some(e.threads[t].run), next := Hold,
                                                    on := Some(t), terminateOuter := Some(e.threads[t].run))]
    ensures e'.threads == e.threads[t := e.threads[t].(current := f, pc := SwitchIn(f))] && e'.scheds == e.scheds
  {
    assert ThreadOk(e, t) && FiberOk(e, f);
    YieldToEffect(e.fibers, e.threads[t].current, f, t, true, Hold);
  }

  lemma EnterThread(e: Engine, t: Tid, f: Fid, e': Engine)
    requires Shape(e) && t < |e.threads| && e.threads[t].pc == Resume(f)
    requires f in e.fibers && e.fibers[f].place == Held(t)
    requires e'.fibers == e.fibers[f := e.fibers[f].(state := Exec, yielder := Some(e.threads[t].run), next := Hold,
                                                     on := Some(t), terminateOuter := Some(e.threads[t].run))]
    requires e'.threads == e.threads[t := e.threads[t].(current := f, pc := SwitchIn(f))] && e'.scheds == e.scheds
    ensures ThreadOk(e', t) && FiberOk(e', f)
  {
    assert ThreadOk(e, t) && FiberOk(e, f);
  }

  lemma ShapeEnter(e: Engine, t: Tid)
    requires Shape(e) && Enabled(e, Enter(t))
    ensures Shape(DoEnter(e, t))
  {
    hide ThreadOk, FiberOk, DoEnter;
    var f := e.threads[t].pc.f;
    var e' := DoEnter(e, t);
    EnterForm(e, t, f, e');
    EnterThread(e, t, f, e');
    FrameOne(e, e', t, f, e'.fibers[f]);
  }

  /** A fiber started by the run loop returns to it when it ends. */
  lemma ExitForm(e: Engine, t: Tid, last: FiberState, e': Engine, fb: Fiber)
    requires Shape(e) && Enabled(e, Exit(t, last)) && e' == DoExit(e, t, last) && e.threads[t].run in e.fibers
    requires fb == e.fibers[e.threads[t].run].(state := Exec, yielder := Some(e.threads[t].current), next := last,
             on := Some(t))
    ensures e'.threads == e.threads[t := e.threads[t].(current := e.threads[t].run, pc := SwitchOut(e.threads[t].run))]
    ensures e'.fibers == e.fibers[e.threads[t].run := fb] && e'.scheds == e.scheds
  {
    var th := e.threads[t];
    assert ThreadOk(e, t) && FiberOk(e, th.run) && FiberOk(e, th.current);
    YieldToEffect(e.fibers, th.current, th.run, t, false, last);
  }

  lemma ExitThread(e: Engine, t: Tid, last: FiberState, e': Engine, fb: Fiber)
    requires t < |e.threads| && ThreadOk(e, t) && FiberOk(e, e.threads[t].run) && Enabled(e, Exit(t, last))
    requires fb == e.fibers[e.threads[t].run].(state := Exec, yielder := Some(e.threads[t].current), next := last,
             on := Some(t))
    requires e'.threads == e.threads[t := e.threads[t].(current := e.threads[t].run, pc := SwitchOut(e.threads[t].run))]
    requires e'.fibers == e.fibers[e.threads[t].run := fb] && e'.scheds == e.scheds
    ensures ThreadOk(e', t) && FiberOk(e', e.threads[t].run)
  {
  }

  lemma ShapeExit(e: Engine, t: Tid, last: FiberState)
    requires Shape(e) && Enabled(e, Exit(t, last))
    ensures Shape(DoExit(e, t, last))
  {
    hide FiberOk, DoExit;
    var th := e.threads[t];
    assert ThreadOk(e, t) && FiberOk(e, th.run);
    var e' := DoExit(e, t, last);
    var fb := e.fibers[th.run].(state := Exec, yielder := Some(th.current), next := last, on := Some(t));
    ExitForm(e, t, last, e', fb);
    ExitThread(e, t, last, e', fb);
    LoopFibersLocal(e, t);
    FrameOne(e, e', t, th.run, fb);
  }

  lemma ShapeThrow(e: Engine, t: Tid)
    requires Shape(e) && Enabled(e, Throw(t))
    ensures Shape(DoThrow(e, t))
  {
    hide ThreadOk, FiberOk, Occupies, HeldBy;
    var th := e.threads[t];
    assert ThreadOk(e, t);
    InClientOk(e, t);
    ThrownThread(e, t, DoThrow(e, t));
    FrameOne(e, DoThrow(e, t), t, th.current, e.fibers[th.current].(thrown := true));
  }

  lemma ThrownThread(e: Engine, t: Tid, e': Engine)
    requires Enabled(e, Throw(t)) && ThreadOk(e, t) && FiberOk(e, e.threads[t].current) && e' == DoThrow(e, t)
    ensures ThreadOk(e', t) && FiberOk(e', e.threads[t].current)
    ensures forall g :: (Occupies(e, t, g) ==> Occupies(e', t, g)) && (HeldBy(e, t, g) ==> HeldBy(e', t, g))
  {
  }

  /** The fibers of a thread keep their roles. */
  predicate RolesKept(e: Engine, e': Engine, t: Tid, f: Fid)
    requires t < |e.threads| && t < |e'.threads|
  {
    && (Occupies(e, t, f) ==> Occupies(e', t, f)) && (HeldBy(e, t, f) ==> HeldBy(e', t, f))
    && (SparedBy(e.threads[t], f) ==> SparedBy(e'.threads[t], f))
  }

  /** A step of a thread that touches no fiber. */
  lemma FrameNone(e: Engine, e': Engine, t: Tid)
    requires Shape(e) && t < |e.threads| == |e'.threads| && |e'.scheds| == |e.scheds|
    requires SameRoles(e.threads[t], e'.threads[t]) && e'.fibers == e.fibers
    requires forall u :: 0 <= u < |e.threads| && u != t ==> e'.threads[u] == e.threads[u]
    requires ThreadOk(e', t) && forall f :: f in e.fibers ==> RolesKept(e, e', t, f)
    ensures Shape(e')
  {
    hide ThreadOk, FiberOk, Occupies, HeldBy, SparedBy;
    forall f | f in e.fibers ensures RolesKept(e, e', t, f) { }
    Frame(e, e', t, {});
  }

  lemma SwitchKeepsRoles(e: Engine, t: Tid, f: Fid)
    requires Enabled(e, Switch(t)) && ThreadOk(e, t)
    ensures RolesKept(e, DoSwitch(e, t), t, f)
  {
  }

  lemma SwitchInThread(e: Engine, t: Tid)
    requires Enabled(e, Switch(t)) && ThreadOk(e, t) && e.threads[t].pc.SwitchIn?
    ensures ThreadOk(DoSwitch(e, t), t)
  {
  }

  lemma SwitchOutThread(e: Engine, t: Tid)
    requires Enabled(e, Switch(t)) && ThreadOk(e, t) && e.threads[t].pc.SwitchOut?
    ensures ThreadOk(DoSwitch(e, t), t)
  {
  }

  lemma SwitchIdleThread(e: Engine, t: Tid)
    requires Enabled(e, Switch(t)) && ThreadOk(e, t) && e.threads[t].pc in {SwitchIdle, SwitchBack}
    ensures ThreadOk(DoSwitch(e, t), t)
  {
    if e.threads[t].pc == SwitchIdle { ToIdleThread(e, t); }
  }

  lemma ToIdleThread(e: Engine, t: Tid)
    requires Enabled(e, Switch(t)) && ThreadOk(e, t) && e.threads[t].pc == SwitchIdle
    ensures ThreadOk(DoSwitch(e, t), t)
  {
  }

  lemma ShapeSwitch(e: Engine, t: Tid)
    requires Shape(e) && Enabled(e, Switch(t))
    ensures Shape(DoSwitch(e, t))
  {
    hide ThreadOk, FiberOk, RolesKept;
    assert ThreadOk(e, t);
    if e.threads[t].pc.SwitchIn? { SwitchInThread(e, t); }
    else if e.threads[t].pc.SwitchOut? { SwitchOutThread(e, t); }
    else { SwitchIdleThread(e, t); }
    forall f | f in e.fibers ensures RolesKept(e, DoSwitch(e, t), t, f) { SwitchKeepsRoles(e, t, f); }
    FrameNone(e, DoSwitch(e, t), t);
  }

  lemma HandOffForm(fs: map<Fid, Fiber>, f: Fid, y: Fid)
    requires f in fs && y in fs && f != y && fs[f].yielder == Some(y)
    ensures HandOff(fs, f) == fs[y := Left(fs[y], fs[f].next)][f := fs[f].(yielder := None)]
  {
  }

  /** What a thread writes when it takes over a fiber. */
  lemma ArriveForm(e: Engine, t: Tid)
    requires Shape(e) && Enabled(e, Arrive(t))
    ensures e.threads[t].ctx in e.fibers
    ensures var f := e.threads[t].ctx;
            var y := e.fibers[f].yielder;
            && y.Some? && y.value in e.fibers && y.value != f
            && !Foreign(e.fibers[f], t) && !Foreign(e.fibers[y.value], t)
            && HandOff(e.fibers, f) ==
                 e.fibers[y.value := Left(e.fibers[y.value], e.fibers[f].next)][f := e.fibers[f].(yielder := None)]
  {
    assert ThreadOk(e, t);
    var f := e.threads[t].ctx;
    var y := e.fibers[f].yielder.value;
    HandOffForm(e.fibers, f, y);
    LocalIsNotForeign(e, t, f);
    LocalIsNotForeign(e, t, y);
  }

  /** The fiber on the thread now runs; the run loop is suspended or over. */
  predicate ArrivedIn(e: Engine, t: Tid, e': Engine)
    requires t < |e.threads|
  {
    var th := e.threads[t];
    && th.run in e.fibers && th.ctx in e.fibers
    && e'.threads == e.threads[t := th.(current := th.ctx, pc := User)] && e'.scheds == e.scheds
    && e'.fibers == e.fibers[th.run := Left(e.fibers[th.run], e.fibers[th.ctx].next)]
                            [th.ctx := e.fibers[th.ctx].(yielder := None)]
  }

  lemma ArriveInThread(e: Engine, t: Tid, e': Engine)
    requires t < |e.threads| && ThreadOk(e, t) && e.threads[t].pc == ArriveIn && ArrivedIn(e, t, e')
    ensures ThreadOk(e', t)
  {
  }

  lemma ArriveInFibers(e: Engine, t: Tid, e': Engine)
    requires t < |e.threads| && ThreadOk(e, t) && e.threads[t].pc == ArriveIn && ArrivedIn(e, t, e')
    requires FiberOk(e, e.threads[t].run) && FiberOk(e, e.threads[t].ctx)
    ensures FiberOk(e', e.threads[t].run) && FiberOk(e', e.threads[t].ctx)
  {
  }

  lemma ShapeArriveIn(e: Engine, t: Tid)
    requires Shape(e) && Enabled(e, Arrive(t)) && e.threads[t].pc == ArriveIn
    ensures Shape(DoArriveIn(e, t))
  {
    hide FiberOk;
    var th := e.threads[t];
    assert ThreadOk(e, t) && FiberOk(e, th.run) && FiberOk(e, th.ctx);
    ArriveForm(e, t);
    ArriveInThread(e, t, DoArriveIn(e, t));
    ArriveInFibers(e, t, DoArriveIn(e, t));
    FrameTwo(e, DoArriveIn(e, t), t, th.run, th.ctx);
  }

  /** The run loop is back, or begins; y has left. */
  predicate ArrivedOut(e: Engine, t: Tid, e': Engine, y: Fid)
    requires t < |e.threads|
  {
    var th := e.threads[t];
    && th.run in e.fibers && y in e.fibers && e.fibers[th.run].yielder == Some(y)
    && e'.threads ==
         e.threads[t := th.(current := th.run, outside := false,
                            pc := if th.outside then Loop else Landed(y, e.fibers[th.run].next))]
    && e'.scheds == e.scheds
    && e'.fibers == e.fibers[y := Left(e.fibers[y], e.fibers[th.run].next)]
                            [th.run := e.fibers[th.run].(yielder := None)]
  }

  lemma ArriveOutThread(e: Engine, t: Tid, e': Engine, y: Fid)
    requires t < |e.threads| && ThreadOk(e, t) && e.threads[t].pc == ArriveOut && ArrivedOut(e, t, e', y)
    ensures ThreadOk(e', t)
  {
  }

  lemma ArriveOutFibers(e: Engine, t: Tid, e': Engine, y: Fid)
    requires Shape(e) && t < |e.threads| && e.threads[t].pc == ArriveOut && ArrivedOut(e, t, e', y)
    ensures FiberOk(e', e.threads[t].run) && FiberOk(e', y)
  {
    assert ThreadOk(e, t) && FiberOk(e, y) && FiberOk(e, e.threads[t].run);
  }

  lemma ShapeArriveOut(e: Engine, t: Tid)
    requires Shape(e) && Enabled(e, Arrive(t)) && e.threads[t].pc == ArriveOut
    ensures Shape(DoArriveOut(e, t))
  {
    var th := e.threads[t];
    assert ThreadOk(e, t);
    var y := e.fibers[th.run].yielder.value;
    ArriveForm(e, t);
    ArriveOutThread(e, t, DoArriveOut(e, t), y);
    ArriveOutFibers(e, t, DoArriveOut(e, t), y);
    FrameTwo(e, DoArriveOut(e, t), t, y, th.run);
  }

  lemma ArriveBackThread(e: Engine, t: Tid, e': Engine)
    requires Shape(e) && Enabled(e, Arrive(t)) && e.threads[t].pc == ArriveBack
    requires var th := e.threads[t];
             && th.run in e.fibers && th.idle in e.fibers
             && e'.threads == e.threads[t := th.(current := th.run, pc := Loop)] && e'.scheds == e.scheds
             && e'.fibers == e.fibers[th.idle := Left(e.fibers[th.idle], e.fibers[th.run].next).(outer := None)]
                                     [th.run := e.fibers[th.run].(yielder := None)]
    ensures ThreadOk(e', t) && FiberOk(e', e.threads[t].run) && FiberOk(e', e.threads[t].idle)
  {
    assert ThreadOk(e, t) && FiberOk(e, e.threads[t].run) && FiberOk(e, e.threads[t].idle);
  }

  lemma ShapeArriveBack(e: Engine, t: Tid)
    requires Shape(e) && Enabled(e, Arrive(t)) && e.threads[t].pc == ArriveBack
    ensures Shape(DoArriveBack(e, t))
  {
    hide FiberOk;
    var th := e.threads[t];
    assert ThreadOk(e, t);
    ArriveForm(e, t);
    ArriveBackThread(e, t, DoArriveBack(e, t));
    FrameTwo(e, DoArriveBack(e, t), t, th.idle, th.run);
  }

  // ----- client steps -----

  /** No thread owns the fiber. */
  predicate Unowned(fb: Fiber) {
    fb.on == None && !fb.place.Held? && !fb.place.LoopOf? && !fb.place.IdleOf? && !fb.place.SpareOf?
  }

  /** A step that moves no thread and changes one fiber. */
  lemma FrameFiber(e: Engine, e': Engine, f: Fid, fb: Fiber)
    requires Shape(e) && e'.threads == e.threads && |e'.scheds| == |e.scheds|
    requires e'.fibers == e.fibers[f := fb]
    requires f in e.fibers ==> Kept(e.fibers[f], fb) || Unowned(e.fibers[f])
    requires f in e.fibers ==> fb.own == e.fibers[f].own
    requires f !in e.fibers || Unowned(e.fibers[f]) ==> FiberOk(e', f)
    ensures Shape(e')
  {
    forall u | 0 <= u < |e.threads| ensures ThreadOk(e', u) {
      assert ThreadOk(e, u);
      ThreadFrame(e, e', u);
    }
    forall g | g in e'.fibers ensures FiberOk(e', g) {
      if g in e.fibers && (g != f || Kept(e.fibers[f], fb)) { KeptOk(e, e', g); }
    }
  }

  lemma KeptOk(e: Engine, e': Engine, g: Fid)
    requires Shape(e) && e'.threads == e.threads && |e'.scheds| == |e.scheds|
    requires g in e.fibers && g in e'.fibers && Kept(e.fibers[g], e'.fibers[g])
    requires forall h :: h in e.fibers && e.fibers[h].place.LoopOf? ==> h in e'.fibers && e'.fibers[h] == e.fibers[h]
    ensures FiberOk(e', g)
  {
    assert FiberOk(e, g);
    if e.fibers[g].on.Some? {
      assert ThreadOk(e, e.fibers[g].on.value);
      assert Occupies(e', e.fibers[g].on.value, g);
    }
    if e.fibers[g].place.Held? {
      assert ThreadOk(e, e.fibers[g].place.t);
    }
  }

  lemma ShapeCreate(e: Engine, t: Tid, n: Fid)
    requires Shape(e) && Enabled(e, Create(t, n))
    ensures Shape(Apply(e, Create(t, n)))
  {
    FrameFiber(e, Apply(e, Create(t, n)), n, NewFiber(Loose));
  }

  lemma ShapeReset(e: Engine, t: Tid, f: Fid)
    requires Shape(e) && Enabled(e, ResetFiber(t, f))
    ensures Shape(Apply(e, ResetFiber(t, f)))
  {
    assert FiberOk(e, f);
    FrameFiber(e, Apply(e, ResetFiber(t, f)), f, Reset(e.fibers[f], Loose));
  }

  lemma ShapeSchedule(e: Engine, s: Sid, f: Fid, bound: Option<Tid>)
    requires Shape(e) && s < |e.scheds| && f in e.fibers
    requires (e.fibers[f].place == Loose && e.fibers[f].state in {Init, Term}) ||
             (e.fibers[f].place.Away? && e.fibers[f].place.s == s)
    ensures Shape(DoSchedule(e, s, f, bound))
  {
    assert FiberOk(e, f);
    FrameFiber(e, DoSchedule(e, s, f, bound), f, e.fibers[f].(place := Queued(s)));
  }

  lemma ShapePark(e: Engine, t: Tid, o: Oid)
    requires Shape(e) && Enabled(e, Park(t, o))
    ensures Shape(DoPark(e, t, o))
  {
    hide FiberOk;
    var th := e.threads[t];
    assert ThreadOk(e, t);
    InClientOk(e, t);
    GivenOk(e, DoPark(e, t, o), t, Away(th.sched, o));
    FrameOne(e, DoPark(e, t, o), t, th.current, e.fibers[th.current].(place := Away(th.sched, o)));
  }

  lemma ShapeAwait(e: Engine, t: Tid, ask: bool)
    requires Shape(e) && Enabled(e, Await(t, ask)) && Clean(e, Await(t, ask))
    ensures Shape(DoAwait(e, t, ask))
  {
    hide FiberOk, ThreadOk, Occupies;
    var th := e.threads[t];
    assert ThreadOk(e, t);
    InClientOk(e, t);
    AwaitingOk(e, DoAwait(e, t, ask), t, ask);
    FrameOne(e, DoAwait(e, t, ask), t, th.current, e.fibers[th.current].(place := Awaits(t)));
  }

  lemma ShapeSwitchTo(e: Engine, t: Tid, s: Sid, bound: Option<Tid>)
    requires Shape(e) && Enabled(e, SwitchTo(t, s, bound))
    ensures Shape(DoSwitchTo(e, t, s, bound))
  {
    hide FiberOk, ThreadOk;
    var th := e.threads[t];
    assert ThreadOk(e, t);
    InClientOk(e, t);
    GivenOk(e, DoSwitchTo(e, t, s, bound), t, Queued(s));
    FrameOne(e, DoSwitchTo(e, t, s, bound), t, th.current, e.fibers[th.current].(place := Queued(s)));
  }

  lemma InClientOk(e: Engine, t: Tid)
    requires Shape(e) && t < |e.threads| && e.threads[t].pc == User
    ensures var f := e.threads[t].current;
            f in e.fibers && f == e.threads[t].ctx && FiberOk(e, f) && !Foreign(e.fibers[f], t)
  {
    assert ThreadOk(e, t);
    LocalIsNotForeign(e, t, e.threads[t].current);
  }

  /** The running fiber gives itself away. */
  lemma GivenOk(e: Engine, e': Engine, t: Tid, p: Place)
    requires t < |e.threads| == |e'.threads| && |e'.scheds| == |e.scheds| && ThreadOk(e, t) && e.threads[t].pc == User
    requires e.threads[t].current in e.fibers && FiberOk(e, e.threads[t].current)
    requires e'.threads[t] == e.threads[t].(pc := Leaving)
    requires e'.fibers == e.fibers[e.threads[t].current := e.fibers[e.threads[t].current].(place := p)]
    requires (p.Queued? || p.Away?) && p.s < |e.scheds|
    ensures ThreadOk(e', t) && FiberOk(e', e.threads[t].current)
  {
  }

  /** It leaves for the run loop from stop() or dispatch(). */
  lemma AwaitingOk(e: Engine, e': Engine, t: Tid, ask: bool)
    requires t < |e.threads| == |e'.threads| && |e'.scheds| == |e.scheds| && ThreadOk(e, t) && e.threads[t].pc == User
    requires e.threads[t].current in e.fibers && FiberOk(e, e.threads[t].current) && Hijacked(e.threads[t])
    requires e'.threads[t] == e.threads[t].(pc := Leaving, asks := ask)
    requires e'.fibers == e.fibers[e.threads[t].current := e.fibers[e.threads[t].current].(place := Awaits(t))]
    ensures ThreadOk(e', t) && FiberOk(e', e.threads[t].current)
    ensures forall g :: Occupies(e, t, g) ==> Occupies(e', t, g)
  {
  }

  lemma ShapeCallIdle(e: Engine, t: Tid)
    requires Shape(e) && Enabled(e, CallIdle(t))
    ensures Shape(DoCallIdle(e, t))
  {
    var th := e.threads[t];
    assert ThreadOk(e, t) && FiberOk(e, th.idle);
    FrameOne(e, DoCallIdle(e, t), t, th.idle, DoCallIdle(e, t).fibers[th.idle]);
  }

  lemma ShapeYieldIdle(e: Engine, t: Tid, last: FiberState)
    requires Shape(e) && Enabled(e, YieldIdle(t, last))
    ensures Shape(DoYieldIdle(e, t, last))
  {
    hide ThreadOk, FiberOk, Occupies, HeldBy, DoYieldIdle;
    var th := e.threads[t];
    var e' := DoYieldIdle(e, t, last);
    assert ThreadOk(e, t);
    LoopFibersLocal(e, t);
    assert FiberOk(e, th.run);
    IdledThread(e, t, last, e');
    FrameOne(e, e', t, th.run, e'.fibers[th.run]);
  }

  lemma IdledThread(e: Engine, t: Tid, last: FiberState, e': Engine)
    requires Enabled(e, YieldIdle(t, last)) && ThreadOk(e, t) && e' == DoYieldIdle(e, t, last)
    requires FiberOk(e, e.threads[t].run)
    ensures |e'.threads| == |e.threads| && e'.scheds == e.scheds && ThreadOk(e', t)
    ensures SameRoles(e.threads[t], e'.threads[t]) && e'.threads == e.threads[t := e.threads[t].(pc := SwitchBack)]
    ensures e.threads[t].run in e'.fibers && FiberOk(e', e.threads[t].run)
    ensures e'.fibers == e.fibers[e.threads[t].run := e'.fibers[e.threads[t].run]]
    ensures e'.fibers[e.threads[t].run].own == e.fibers[e.threads[t].run].own
    ensures forall g :: (Occupies(e, t, g) ==> Occupies(e', t, g)) && (HeldBy(e, t, g) ==> HeldBy(e', t, g))
  {
  }

  // ----- run loop steps -----

  predicate BetweenTasks(pc: Pc) { pc == Loop || pc == Throwing || pc == Dead || pc.Ending? }

  /** A run loop step that moves a group of fibers between queue and batch. */
  lemma LoopFrame(e: Engine, e': Engine, t: Tid, D: set<Fid>)
    requires Shape(e) && t < |e.threads| == |e'.threads| && |e'.scheds| == |e.scheds|
    requires BetweenTasks(e.threads[t].pc) && BetweenTasks(e'.threads[t].pc)
    requires e'.threads[t].pc.Ending? ==> Hijacked(e.threads[t]) && e'.threads[t].pc.last in {Term, Except}
    requires e'.threads[t] ==
             e.threads[t].(pc := e'.threads[t].pc, batch := e'.threads[t].batch, active := e'.threads[t].active,
                           calling := e'.threads[t].calling)
    requires e'.threads[t].calling.Some? ==> e'.threads[t].calling == e.threads[t].calling
    requires forall u :: 0 <= u < |e.threads| && u != t ==> e'.threads[u] == e.threads[u]
    requires e.threads[t].functor ==> e'.threads[t].pc == e.threads[t].pc
    requires e'.fibers.Keys == e.fibers.Keys && forall f :: f in e.fibers ==> f in D || e'.fibers[f] == e.fibers[f]
    requires forall f :: f in D ==>
             f in e.fibers && (e.fibers[f].place.Queued? || e.fibers[f].place.Batched?) && e.fibers[f].on == None
    requires forall f :: f in D ==> FiberOk(e', f) && e'.fibers[f].own == e.fibers[f].own
    ensures Shape(e')
  {
    hide FiberOk, ThreadOk;
    assert ThreadOk(e, t);
    LoopThread(e, e', t);
    Frame(e, e', t, D);
  }

  lemma LoopThread(e: Engine, e': Engine, t: Tid)
    requires t < |e.threads| == |e'.threads| && |e'.scheds| == |e.scheds| && ThreadOk(e, t)
    requires BetweenTasks(e.threads[t].pc) && BetweenTasks(e'.threads[t].pc)
    requires e'.threads[t].pc.Ending? ==> Hijacked(e.threads[t]) && e'.threads[t].pc.last in {Term, Except}
    requires e'.threads[t] ==
             e.threads[t].(pc := e'.threads[t].pc, batch := e'.threads[t].batch, active := e'.threads[t].active,
                           calling := e'.threads[t].calling)
    requires e'.threads[t].calling.Some? ==> e'.threads[t].calling == e.threads[t].calling
    requires e.threads[t].functor ==> e'.threads[t].pc == e.threads[t].pc
    requires forall f :: f in e.fibers ==> f in e'.fibers && e'.fibers[f].own == e.fibers[f].own
    requires forall f :: f in e.fibers && !e.fibers[f].place.Queued? && !e.fibers[f].place.Batched? ==>
             e'.fibers[f] == e.fibers[f]
    ensures ThreadOk(e', t)
  {
  }

  lemma ShapeLand(e: Engine, t: Tid)
    requires Shape(e) && Enabled(e, Land(t))
    ensures Shape(DoLand(e, t))
  {
    hide FiberOk, Local, Foreign;
    assert ThreadOk(e, t);
    Frame(e, DoLand(e, t), t, {});
  }

  /** A functor's fiber that has ended is nobody's, whoever it ended on. */
  lemma ShapeJudge(e: Engine, t: Tid)
    requires Shape(e) && Enabled(e, Judge(t))
    ensures Shape(DoJudge(e, t))
  {
    hide ThreadOk, FiberOk, Occupies, HeldBy, DoJudge;
    assert ThreadOk(e, t);
    JudgingSpare(e, t);
    var f := e.threads[t].spare.value;
    assert FiberOk(e, f);
    JudgedThread(e, t, DoJudge(e, t), f);
    if e.fibers[f].state == Term { FrameOne(e, DoJudge(e, t), t, f, Reset(e.fibers[f], SpareOf(t))); }
    else { Frame(e, DoJudge(e, t), t, {}); }
  }

  lemma JudgingSpare(e: Engine, t: Tid)
    requires t < |e.threads| && ThreadOk(e, t) && e.threads[t].pc == Judging
    ensures e.threads[t].spare.Some? && e.threads[t].spare.value in e.fibers && e.threads[t].functor
  {
  }

  lemma JudgedThread(e: Engine, t: Tid, e': Engine, f: Fid)
    requires t < |e.threads| && ThreadOk(e, t) && e.threads[t].pc == Judging && e' == DoJudge(e, t)
    requires e.threads[t].spare == Some(f) && f in e.fibers && FiberOk(e, f)
    ensures |e'.threads| == |e.threads| && e'.scheds == e.scheds && ThreadOk(e', t)
    ensures SameRoles(e.threads[t], e'.threads[t])
    ensures forall u :: 0 <= u < |e.threads| && u != t ==> e'.threads[u] == e.threads[u]
    ensures if e.fibers[f].state == Term then
              e'.fibers == e.fibers[f := Reset(e.fibers[f], SpareOf(t))] && FiberOk(e', f) && !Foreign(e.fibers[f], t)
            else e'.fibers == e.fibers
    ensures forall g :: (Occupies(e, t, g) ==> Occupies(e', t, g)) && (HeldBy(e, t, g) ==> HeldBy(e', t, g))
  {
  }

  lemma ShapeRetire(e: Engine, t: Tid)
    requires Shape(e) && Enabled(e, Retire(t))
    ensures Shape(DoRetire(e, t))
  {
    ShapeDrop(e, t);
    LoopFrame(Drop(e, t), DoRetire(e, t), t, {});
  }

  /** The fiber a functor is given: a new one, or the one its run loop kept. */
  lemma FunctorForm(e: Engine, t: Tid, n: Fid, e': Engine, f: Fid)
    requires Shape(e) && Enabled(e, Pop(t, n)) && e.threads[t].batch[|e.threads[t].batch| - 1].task.DgTask?
    requires e' == DoPop(e, t, n) && f == FunctorFiber(e, t, n)
    ensures f in e.fibers ==> e.fibers[f].place == SpareOf(t) && e.fibers[f].on == None && e.fibers[f].own
    ensures e'.fibers == e.fibers[f := e'.fibers[f]] && e'.fibers[f].place == Held(t) && e'.fibers[f].own
    ensures e'.fibers[f] == if f in e.fibers then Reset(e.fibers[f], Held(t)) else NewFiber(Held(t)).(own := true)
    ensures e'.threads[t] ==
            e.threads[t].(batch := e'.threads[t].batch, pc := Resume(f), spare := Some(f), functor := true)
  {
    assert ThreadOk(e, t);
    if f in e.fibers { assert FiberOk(e, f); }
  }

  lemma FunctorOk(e: Engine, t: Tid, e': Engine, f: Fid)
    requires t < |e.threads| == |e'.threads| && ThreadOk(e, t) && e.threads[t].pc == Loop && |e'.scheds| == |e.scheds|
    requires e'.threads[t] ==
             e.threads[t].(batch := e'.threads[t].batch, pc := Resume(f), spare := Some(f), functor := true)
    requires f in e.fibers ==> e.fibers[f].place == SpareOf(t) && FiberOk(e, f)
    requires f in e'.fibers && e'.fibers == e.fibers[f := e'.fibers[f]]
    requires e'.fibers[f] == if f in e.fibers then Reset(e.fibers[f], Held(t)) else NewFiber(Held(t)).(own := true)
    ensures ThreadOk(e', t) && FiberOk(e', f)
  {
  }

  lemma ShapePopDg(e: Engine, t: Tid, n: Fid)
    requires Shape(e) && Lists(e) && Enabled(e, Pop(t, n)) && e.threads[t].batch[|e.threads[t].batch| - 1].task.DgTask?
    ensures Shape(DoPop(e, t, n))
  {
    hide FiberOk, Lists, DoPop;
    var f := FunctorFiber(e, t, n);
    var e' := DoPop(e, t, n);
    FunctorForm(e, t, n, e', f);
    PopForm(e, t, n, e.threads[t].batch[|e.threads[t].batch| - 1], e');
    assert ThreadOk(e, t) && (f in e.fibers ==> FiberOk(e, f));
    FunctorOk(e, t, e', f);
    FrameOne(e, e', t, f, e'.fibers[f]);
  }

  lemma ShapePopFiber(e: Engine, t: Tid, f: Fid, e': Engine)
    requires Shape(e) && t < |e.threads| == |e'.threads| && |e'.scheds| == |e.scheds| && e.threads[t].pc == Loop
    requires f in e.fibers && e.fibers[f].place == Batched(t)
    requires var th := e.threads[t];
             var left := e'.threads[t].batch;
             if e.fibers[f].state != Term then
               && e'.threads == e.threads[t := th.(batch := left, pc := Resume(f))]
               && e'.fibers == e.fibers[f := e.fibers[f].(place := Held(t))]
             else
               && e'.threads == e.threads[t := th.(batch := left)]
               && e'.fibers == e.fibers[f := e.fibers[f].(place := Loose)]
    ensures Shape(e')
  {
    assert ThreadOk(e, t) && FiberOk(e, f);
    FrameOne(e, e', t, f, e'.fibers[f]);
  }

  lemma ShapePop(e: Engine, t: Tid, n: Fid)
    requires Shape(e) && Lists(e) && Enabled(e, Pop(t, n))
    ensures Shape(DoPop(e, t, n))
  {
    var th := e.threads[t];
    var it := th.batch[|th.batch| - 1];
    var e' := DoPop(e, t, n);
    if it.task.DgTask? {
      ShapePopDg(e, t, n);
    } else {
      InBatch(e, t, it);
      ShapePopFiber(e, t, it.task.f, e');
    }
  }

  lemma InBatch(e: Engine, t: Tid, it: Item)
    requires Lists(e) && t < |e.threads| && it in e.threads[t].batch && it.task.FiberTask?
    ensures it.task.f in e.fibers && e.fibers[it.task.f].place == Batched(t)
  {
    assert BatchOk(e, t);
    CountIsMembership(e.threads[t].batch, it.task.f);
    assert Count(e.threads[t].batch, it.task.f) > 0;
  }

  lemma InQueue(e: Engine, s: Sid, it: Item)
    requires Lists(e) && s < |e.scheds| && it in e.scheds[s].queue && it.task.FiberTask?
    ensures it.task.f in e.fibers && e.fibers[it.task.f].place == Queued(s)
  {
    assert QueueOk(e, s);
    CountIsMembership(e.scheds[s].queue, it.task.f);
    assert Count(e.scheds[s].queue, it.task.f) > 0;
  }

  lemma SelectedOk(e: Engine, t: Tid, busy: set<Fid>, e': Engine, batch: seq<Item>, f: Fid)
    requires Shape(e) && Lists(e) && Enabled(e, Select(t, busy)) && e' == DoSelect(e, t, busy)
    requires batch == e'.threads[t].batch && f in FibersOf(batch)
    ensures f in e.fibers && e.fibers[f].place.Queued? && e.fibers[f].on == None
    ensures FiberOk(e', f) && e'.fibers[f].own == e.fibers[f].own
  {
    var sc := e.scheds[e.threads[t].sched];
    TakenAreEligible(sc.queue, t, busy, sc.batchSize);
    var it :| it in batch && it.task == FiberTask(f);
    InQueue(e, e.threads[t].sched, it);
    assert FiberOk(e, f) && ThreadOk(e, t);
  }

  lemma ShapeSelect(e: Engine, t: Tid, busy: set<Fid>)
    requires Shape(e) && Lists(e) && Enabled(e, Select(t, busy))
    ensures Shape(DoSelect(e, t, busy))
  {
    var e' := DoSelect(e, t, busy);
    var batch := e'.threads[t].batch;
    forall f | f in FibersOf(batch)
      ensures f in e.fibers && e.fibers[f].place.Queued? && e.fibers[f].on == None
      ensures FiberOk(e', f) && e'.fibers[f].own == e.fibers[f].own
    {
      SelectedOk(e, t, busy, e', batch, f);
    }
    LoopFrame(e, e', t, FibersOf(batch));
  }

  /** A run loop on its way out lets go of its fiber. */
  lemma DropThread(e: Engine, t: Tid)
    requires t < |e.threads| && ThreadOk(e, t) && BetweenTasks(e.threads[t].pc)
    ensures ThreadOk(Drop(e, t), t)
    ensures e.threads[t].spare.Some? ==> e.threads[t].spare.value in e.fibers
  {
  }

  lemma DropRoles(e: Engine, t: Tid, g: Fid)
    requires Shape(e) && t < |e.threads| && BetweenTasks(e.threads[t].pc) && g in e.fibers
    requires e.threads[t].spare == Some(g) ==> e.fibers[g].place != SpareOf(t)
    ensures RolesKept(e, Drop(e, t), t, g)
  {
    assert ThreadOk(e, t) && FiberOk(e, g);
  }

  lemma ShapeDrop(e: Engine, t: Tid)
    requires Shape(e) && t < |e.threads| && BetweenTasks(e.threads[t].pc)
    ensures Shape(Drop(e, t))
  {
    hide ThreadOk, Occupies, HeldBy;
    var f := e.threads[t].spare;
    assert ThreadOk(e, t);
    DropThread(e, t);
    forall g | g in e.fibers && !(f == Some(g) && e.fibers[g].place == SpareOf(t))
      ensures RolesKept(e, Drop(e, t), t, g)
    {
      DropRoles(e, t, g);
    }
    if f.Some? && e.fibers[f.value].place == SpareOf(t) {
      assert FiberOk(e, f.value);
      FrameOne(e, Drop(e, t), t, f.value, e.fibers[f.value].(place := Spent));
    } else {
      FrameNone(e, Drop(e, t), t);
    }
  }

  lemma InBatchFiber(e: Engine, t: Tid, f: Fid)
    requires Shape(e) && Lists(e) && t < |e.threads| && f in FibersOf(e.threads[t].batch)
    ensures f in e.fibers && e.fibers[f].place == Batched(t) && e.fibers[f].on == None && FiberOk(e, f)
  {
    hide ThreadOk;
    var it :| it in e.threads[t].batch && it.task == FiberTask(f);
    InBatch(e, t, it);
    assert FiberOk(e, f);
  }

  lemma RequeuedOk(e: Engine, t: Tid, e': Engine, f: Fid)
    requires Enabled(e, Requeue(t)) && Shape(e) && Lists(e) && e' == DoRequeue(e, t) &&
             f in FibersOf(e.threads[t].batch)
    ensures var e1 := Drop(e, t);
            && f in e1.fibers && e1.fibers[f].place.Batched? && e1.fibers[f].on == None
            && FiberOk(e', f) && e'.fibers[f].own == e1.fibers[f].own
  {
    hide ThreadOk, Lists;
    InBatchFiber(e, t, f);
  }

  lemma ShapeRequeue(e: Engine, t: Tid)
    requires Shape(e) && Lists(e) && Enabled(e, Requeue(t))
    ensures Shape(DoRequeue(e, t))
  {
    var e1, e' := Drop(e, t), DoRequeue(e, t);
    var batch := e.threads[t].batch;
    ShapeDrop(e, t);
    forall f | f in FibersOf(batch)
      ensures f in e1.fibers && e1.fibers[f].place.Batched? && e1.fibers[f].on == None
      ensures FiberOk(e', f) && e'.fibers[f].own == e1.fibers[f].own
    {
      RequeuedOk(e, t, e', f);
    }
    LoopFrame(e1, e', t, FibersOf(batch));
  }

  // ----- queues and batches, step by step -----

  function Listed(e: Engine, f: Fid): Option<Place> {
    if f in e.fibers && (e.fibers[f].place.Queued? || e.fibers[f].place.Batched?) then Some(e.fibers[f].place) else None
  }

  lemma ListsSame(e: Engine, e': Engine)
    requires Lists(e) && |e'.scheds| == |e.scheds| && |e'.threads| == |e.threads|
    requires forall s :: 0 <= s < |e.scheds| ==> e'.scheds[s].queue == e.scheds[s].queue
    requires forall t :: 0 <= t < |e.threads| ==> e'.threads[t].batch == e.threads[t].batch
    requires forall f :: Listed(e', f) == Listed(e, f)
    ensures Lists(e')
  {
    forall s | 0 <= s < |e.scheds| ensures QueueOk(e', s) {
      assert QueueOk(e, s);
      forall f
        ensures Count(e'.scheds[s].queue, f) == if f in e'.fibers && e'.fibers[f].place == Queued(s) then 1 else 0
      {
        assert Listed(e', f) == Listed(e, f);
      }
    }
    forall t | 0 <= t < |e.threads| ensures BatchOk(e', t) {
      assert BatchOk(e, t);
      forall f
        ensures Count(e'.threads[t].batch, f) == if f in e'.fibers && e'.fibers[f].place == Batched(t) then 1 else 0
      {
        assert Listed(e', f) == Listed(e, f);
      }
    }
  }

  lemma ListsPush(e: Engine, e': Engine, s: Sid, it: Item)
    requires Lists(e) && s < |e.scheds| == |e'.scheds| && |e'.threads| == |e.threads|
    requires e'.scheds[s].queue == e.scheds[s].queue + [it]
    requires forall r :: 0 <= r < |e.scheds| && r != s ==> e'.scheds[r].queue == e.scheds[r].queue
    requires forall t :: 0 <= t < |e.threads| ==> e'.threads[t].batch == e.threads[t].batch
    requires forall f :: it.task != FiberTask(f) ==> Listed(e', f) == Listed(e, f)
    requires it.task.FiberTask? ==> Listed(e, it.task.f) == None && Listed(e', it.task.f) == Some(Queued(s))
    ensures Lists(e')
  {
    forall r | 0 <= r < |e.scheds| ensures QueueOk(e', r) {
      assert QueueOk(e, r);
      forall f
        ensures Count(e'.scheds[r].queue, f) == if f in e'.fibers && e'.fibers[f].place == Queued(r) then 1 else 0
      {
        CountAppend(e.scheds[s].queue, [it], f);
        assert it.task != FiberTask(f) ==> Listed(e', f) == Listed(e, f);
        assert Count(e.scheds[r].queue, f) == if Listed(e, f) == Some(Queued(r)) then 1 else 0;
      }
    }
    forall t | 0 <= t < |e.threads| ensures BatchOk(e', t) {
      assert BatchOk(e, t);
      forall f
        ensures Count(e'.threads[t].batch, f) == if f in e'.fibers && e'.fibers[f].place == Batched(t) then 1 else 0
      {
        assert it.task != FiberTask(f) ==> Listed(e', f) == Listed(e, f);
        assert Count(e.threads[t].batch, f) == if Listed(e, f) == Some(Batched(t)) then 1 else 0;
      }
    }
  }

  lemma ListsSelect(e: Engine, t: Tid, busy: set<Fid>)
    requires Shape(e) && Lists(e) && Enabled(e, Select(t, busy))
    ensures Lists(DoSelect(e, t, busy))
  {
    var th := e.threads[t];
    var sc := e.scheds[th.sched];
    var batch := Take(sc.queue, t, busy, sc.batchSize);
    var e' := DoSelect(e, t, busy);
    TakenAreEligible(sc.queue, t, busy, sc.batchSize);
    assert QueueOk(e, th.sched) && BatchOk(e, t);
    forall f
      ensures Listed(e', f) == if Count(batch, f) > 0 then Some(Batched(t)) else Listed(e, f)
      ensures Count(batch, f) > 0 ==> Listed(e, f) == Some(Queued(th.sched))
      ensures Count(batch, f) <= 1
      ensures Listed(e, f) != Some(Batched(t))
      ensures Count(batch, f) + Count(e'.scheds[th.sched].queue, f) == Count(sc.queue, f)
    {
      CountIsMembership(batch, f);
      CountPartition(sc.queue, t, busy, sc.batchSize, f);
      assert Count(sc.queue, f) == if Listed(e, f) == Some(Queued(th.sched)) then 1 else 0;
      assert Count(th.batch, f) == 0;
    }
    ListsMoved(e, e', t, th.sched);
  }

  /** What moving items between one queue and one batch has to show. */
  lemma ListsMoved(e: Engine, e': Engine, t: Tid, s: Sid)
    requires Lists(e) && s < |e.scheds| == |e'.scheds| && t < |e.threads| == |e'.threads|
    requires forall r :: 0 <= r < |e.scheds| && r != s ==> e'.scheds[r].queue == e.scheds[r].queue
    requires forall u :: 0 <= u < |e.threads| && u != t ==> e'.threads[u].batch == e.threads[u].batch
    requires forall f ::
               || Listed(e', f) == Listed(e, f)
               || (Listed(e', f) in {Some(Batched(t)), Some(Queued(s)), None}
                   && Listed(e, f) in {Some(Batched(t)), Some(Queued(s))})
    requires forall f :: Count(e'.scheds[s].queue, f) == if Listed(e', f) == Some(Queued(s)) then 1 else 0
    requires forall f :: Count(e'.threads[t].batch, f) == if Listed(e', f) == Some(Batched(t)) then 1 else 0
    requires forall it :: it in e'.threads[t].batch ==> Mine(it, t)
    ensures Lists(e')
  {
    forall r | 0 <= r < |e.scheds| ensures QueueOk(e', r) {
      assert QueueOk(e, r);
      forall f
        ensures Count(e'.scheds[r].queue, f) == if f in e'.fibers && e'.fibers[f].place == Queued(r) then 1 else 0
      {
        assert Listed(e', f) == Listed(e, f) || r == s ||
          (Listed(e', f) != Some(Queued(r)) && Listed(e, f) != Some(Queued(r)));
        assert Count(e.scheds[r].queue, f) == if Listed(e, f) == Some(Queued(r)) then 1 else 0;
      }
    }
    forall u | 0 <= u < |e.threads| ensures BatchOk(e', u) {
      assert BatchOk(e, u);
      forall f
        ensures Count(e'.threads[u].batch, f) == if f in e'.fibers && e'.fibers[f].place == Batched(u) then 1 else 0
      {
        assert Listed(e', f) == Listed(e, f) || u == t ||
          (Listed(e', f) != Some(Batched(u)) && Listed(e, f) != Some(Batched(u)));
        assert Count(e.threads[u].batch, f) == if Listed(e, f) == Some(Batched(u)) then 1 else 0;
      }
    }
  }

  lemma ListsRequeue(e: Engine, t: Tid)
    requires Shape(e) && Lists(e) && Enabled(e, Requeue(t))
    ensures Lists(DoRequeue(e, t))
  {
    var th := e.threads[t];
    var sc := e.scheds[th.sched];
    var e' := DoRequeue(e, t);
    assert QueueOk(e, th.sched) && BatchOk(e, t);
    forall f
      ensures Listed(e', f) == if Listed(e, f) == Some(Batched(t)) then Some(Queued(th.sched)) else Listed(e, f)
      ensures Count(e'.scheds[th.sched].queue, f) == Count(sc.queue, f) + Count(th.batch, f)
      ensures Count(sc.queue, f) == if Listed(e, f) == Some(Queued(th.sched)) then 1 else 0
      ensures Count(th.batch, f) == if Listed(e, f) == Some(Batched(t)) then 1 else 0
    {
      CountIsMembership(th.batch, f);
      CountAppend(sc.queue, th.batch, f);
    }
    ListsMoved(e, e', t, th.sched);
  }

  lemma FunctorListed(e: Engine, t: Tid, n: Fid)
    requires Shape(e) && Enabled(e, Pop(t, n)) && e.threads[t].batch[|e.threads[t].batch| - 1].task.DgTask?
    ensures forall f :: Listed(DoPop(e, t, n), f) == Listed(e, f)
  {
    hide ThreadOk, FiberOk, DoPop;
    FunctorForm(e, t, n, DoPop(e, t, n), FunctorFiber(e, t, n));
  }

  /** A popped item leaves the lists; nothing else does. */
  lemma PopListed(e: Engine, t: Tid, n: Fid, it: Item)
    requires Shape(e) && Lists(e) && Enabled(e, Pop(t, n)) && it == e.threads[t].batch[|e.threads[t].batch| - 1]
    ensures forall f :: Listed(DoPop(e, t, n), f) == if it.task == FiberTask(f) then None else Listed(e, f)
    ensures it.task.FiberTask? ==> Listed(e, it.task.f) == Some(Batched(t))
  {
    if it.task.FiberTask? { InBatch(e, t, it); } else { FunctorListed(e, t, n); }
  }

  lemma ListsPop(e: Engine, t: Tid, n: Fid)
    requires Shape(e) && Lists(e) && Enabled(e, Pop(t, n))
    ensures Lists(DoPop(e, t, n))
  {
    hide FiberOk;
    var th := e.threads[t];
    var it := th.batch[|th.batch| - 1];
    var rest := th.batch[..|th.batch| - 1];
    var e' := DoPop(e, t, n);
    assert th.batch == rest + [it] && e'.threads[t].batch == rest;
    PopListed(e, t, n, it);
    assert BatchOk(e, t) && QueueOk(e, th.sched);
    ListsPopped(e, e', t, it);
  }

  lemma ListsPopped(e: Engine, e': Engine, t: Tid, it: Item)
    requires Lists(e) && t < |e.threads| == |e'.threads| && |e'.scheds| == |e.scheds| && e.threads[t].sched < |e.scheds|
    requires forall r :: 0 <= r < |e.scheds| ==> e'.scheds[r].queue == e.scheds[r].queue
    requires forall u :: 0 <= u < |e.threads| && u != t ==> e'.threads[u].batch == e.threads[u].batch
    requires e.threads[t].batch == e'.threads[t].batch + [it]
    requires forall f :: Listed(e', f) == if it.task == FiberTask(f) then None else Listed(e, f)
    requires it.task.FiberTask? ==> Listed(e, it.task.f) == Some(Batched(t))
    ensures Lists(e')
  {
    var th := e.threads[t];
    assert BatchOk(e, t) && QueueOk(e, th.sched);
    forall f
      ensures Count(th.batch, f) == Count(e'.threads[t].batch, f) + (if it.task == FiberTask(f) then 1 else 0)
      ensures Count(th.batch, f) == if Listed(e, f) == Some(Batched(t)) then 1 else 0
      ensures Count(e.scheds[th.sched].queue, f) == if Listed(e, f) == Some(Queued(th.sched)) then 1 else 0
    {
      CountAppend(e'.threads[t].batch, [it], f);
    }
    ListsMoved(e, e', t, th.sched);
  }

  // ----- counters and conservation -----

  function ActiveIn(s: Sid): Thread -> nat {
    (th: Thread) => if th.sched == s && th.active then 1 else 0
  }

  function ActiveThreads(ths: seq<Thread>, s: Sid): nat { Sum(ths, ActiveIn(s)) }

  function HeldFor(s: Sid, it: Item): Thread -> nat {
    (th: Thread) => if th.sched == s then multiset(th.batch)[it] else 0
  }

  /** How often an item sits in the batches of a scheduler's threads, taken and not started. */
  function InBatches(ths: seq<Thread>, s: Sid, it: Item): nat { Sum(ths, HeldFor(s, it)) }

  lemma ActiveThreadsUpdate(ths: seq<Thread>, t: nat, th: Thread, s: Sid)
    requires t < |ths| && th.sched == ths[t].sched
    ensures ActiveThreads(ths[t := th], s) ==
            ActiveThreads(ths, s) +
              (if th.sched != s then 0 else (if th.active then 1 else 0) - (if ths[t].active then 1 else 0))
  {
    SumUpdate(ths, t, th, ActiveIn(s));
  }

  lemma InBatchesUpdate(ths: seq<Thread>, t: nat, th: Thread, s: Sid, it: Item)
    requires t < |ths| && th.sched == ths[t].sched
    ensures InBatches(ths[t := th], s, it) + (if th.sched == s then multiset(ths[t].batch)[it] else 0) ==
            InBatches(ths, s, it) + (if th.sched == s then multiset(th.batch)[it] else 0)
  {
    SumUpdate(ths, t, th, HeldFor(s, it));
  }

  lemma NoActiveThread(ths: seq<Thread>, s: Sid, t: nat)
    requires ActiveThreads(ths, s) == 0 && t < |ths| && ths[t].sched == s
    ensures !ths[t].active
  {
    SumZero(ths, ActiveIn(s));
  }

  /** A thread that has work counts as active; only a hijacked thread that has not
      entered its run loop runs client code without counting. */
  predicate ActivityOk(th: Thread) {
    && (th.batch != [] ==> th.active)
    && (InTask(th.pc) && !th.outside ==> th.active)
    && (th.active ==> !InIdle(th.pc) && th.pc != Dead && !th.pc.Ending?)
    && (th.outside ==> !th.active)
  }

  /** Whatever was scheduled is queued, in a batch, or started: nothing is lost or doubled. */
  predicate Conserved(e: Engine, s: Sid, it: Item)
    requires s < |e.scheds|
  {
    e.scheds[s].issued[it] == multiset(e.scheds[s].queue)[it] + InBatches(e.threads, s, it) + e.scheds[s].started[it]
  }

  ghost predicate SchedOk(e: Engine, s: Sid)
    requires s < |e.scheds|
  {
    && e.scheds[s].active == ActiveThreads(e.threads, s)
    && forall it :: Conserved(e, s, it)
  }

  ghost predicate Accounts(e: Engine) {
    && (forall t :: 0 <= t < |e.threads| ==> ActivityOk(e.threads[t]))
    && (forall s :: 0 <= s < |e.scheds| ==> SchedOk(e, s))
  }

  /** One thread moves without taking or finishing anything; the scheduler data stays. */
  lemma AccountsMove(e: Engine, e': Engine, t: Tid, th: Thread)
    requires Accounts(e) && t < |e.threads| && e'.threads == e.threads[t := th] && e'.scheds == e.scheds
    requires th.sched == e.threads[t].sched && th.batch == e.threads[t].batch && th.active == e.threads[t].active
    requires ActivityOk(th)
    ensures Accounts(e')
  {
    forall s | 0 <= s < |e.scheds| ensures SchedOk(e', s) {
      assert SchedOk(e, s);
      ActiveThreadsUpdate(e.threads, t, th, s);
      forall it ensures Conserved(e', s, it) { assert Conserved(e, s, it); InBatchesUpdate(e.threads, t, th, s, it); }
    }
  }

  lemma AccountsPush(e: Engine, s: Sid, it: Item)
    requires Accounts(e) && s < |e.scheds|
    ensures Accounts(Push(e, s, it))
  {
    forall r | 0 <= r < |e.scheds| ensures SchedOk(Push(e, s, it), r) {
      assert SchedOk(e, r);
      forall i ensures Conserved(Push(e, s, it), r, i) { assert Conserved(e, r, i); }
    }
  }

  lemma AccountsSelect(e: Engine, t: Tid, busy: set<Fid>)
    requires Shape(e) && Accounts(e) && Enabled(e, Select(t, busy))
    ensures Accounts(DoSelect(e, t, busy))
  {
    hide FiberOk;
    var th := e.threads[t];
    var e' := DoSelect(e, t, busy);
    var q := e.scheds[th.sched].queue;
    assert ThreadOk(e, t) && ActivityOk(th);
    TakeAndRestPartition(q, t, busy, e.scheds[th.sched].batchSize);
    forall s | 0 <= s < |e.scheds| ensures SchedOk(e', s) { SchedSelect(e, e', t, s); }
  }

  /** Items move from the queue to the batch, and the thread counts as active while it has some. */
  lemma SchedSelect(e: Engine, e': Engine, t: Tid, s: Sid)
    requires t < |e.threads| == |e'.threads| && s < |e.scheds| == |e'.scheds| && SchedOk(e, s)
    requires e'.threads == e.threads[t := e'.threads[t]] && e'.threads[t].sched == e.threads[t].sched &&
             e.threads[t].batch == []
    requires s != e.threads[t].sched ==> e'.scheds[s] == e.scheds[s]
    requires s == e.threads[t].sched ==>
      && e'.scheds[s].issued == e.scheds[s].issued && e'.scheds[s].started == e.scheds[s].started
      && multiset(e'.threads[t].batch) + multiset(e'.scheds[s].queue) == multiset(e.scheds[s].queue)
      && e'.scheds[s].active ==
        e.scheds[s].active - (if e.threads[t].active then 1 else 0) + (if e'.threads[t].active then 1 else 0)
    ensures SchedOk(e', s)
  {
    ActiveThreadsUpdate(e.threads, t, e'.threads[t], s);
    forall it
      ensures Conserved(e', s, it)
    {
      assert Conserved(e, s, it);
      InBatchesUpdate(e.threads, t, e'.threads[t], s, it);
    }
  }

  lemma AccountsPop(e: Engine, t: Tid, n: Fid)
    requires Shape(e) && Accounts(e) && Enabled(e, Pop(t, n))
    ensures Accounts(DoPop(e, t, n))
  {
    hide FiberOk;
    var th := e.threads[t];
    var e' := DoPop(e, t, n);
    var top := th.batch[|th.batch| - 1];
    assert ActivityOk(th) && th.batch == e'.threads[t].batch + [top];
    AccountsPopped(e, e', t, top);
  }

  lemma AccountsPopped(e: Engine, e': Engine, t: Tid, top: Item)
    requires Accounts(e) && t < |e.threads| && e.threads[t].sched < |e.scheds|
    requires |e'.threads| == |e.threads| && e'.threads == e.threads[t := e'.threads[t]]
    requires e'.scheds == Started(e, e.threads[t].sched, top).scheds
    requires e.threads[t].batch == e'.threads[t].batch + [top]
    requires e'.threads[t].sched == e.threads[t].sched && e'.threads[t].active == e.threads[t].active
    requires ActivityOk(e'.threads[t])
    ensures Accounts(e')
  {
    forall s | 0 <= s < |e.scheds| ensures SchedOk(e', s) {
      assert SchedOk(e, s);
      ActiveThreadsUpdate(e.threads, t, e'.threads[t], s);
      forall it
        ensures Conserved(e', s, it)
      {
        assert Conserved(e, s, it);
        InBatchesUpdate(e.threads, t, e'.threads[t], s, it);
      }
    }
  }

  lemma AccountsRequeue(e: Engine, t: Tid)
    requires Shape(e) && Accounts(e) && Enabled(e, Requeue(t))
    ensures Accounts(DoRequeue(e, t))
  {
    var th := e.threads[t];
    var e' := DoRequeue(e, t);
    assert ActivityOk(th) && ThreadOk(e, t);
    forall s | 0 <= s < |e.scheds| ensures SchedOk(e', s) {
      assert SchedOk(e, s);
      ActiveThreadsUpdate(e.threads, t, e'.threads[t], s);
      forall it
        ensures Conserved(e', s, it)
      {
        assert Conserved(e, s, it);
        InBatchesUpdate(e.threads, t, e'.threads[t], s, it);
      }
    }
  }

  // ----- native fibers -----

  /** Every thread has a native fiber of its own; it has no stack to be freed, so it never ends. */
  ghost predicate Roots(e: Engine) {
    && (forall t :: 0 <= t < |e.threads| ==> e.threads[t].native in e.fibers && !e.fibers[e.threads[t].native].stack)
    && (forall t, u :: 0 <= t < u < |e.threads| ==> e.threads[t].native != e.threads[u].native)
  }

  lemma RootsFrame(e: Engine, e': Engine)
    requires Roots(e) && |e'.threads| == |e.threads|
    requires forall t :: 0 <= t < |e.threads| ==> e'.threads[t].native == e.threads[t].native
    requires forall f :: f in e.fibers ==> f in e'.fibers && e'.fibers[f].stack == e.fibers[f].stack
    ensures Roots(e')
  {
    forall t | 0 <= t < |e'.threads|
      ensures e'.threads[t].native in e'.fibers && !e'.fibers[e'.threads[t].native].stack
    {
      assert e'.threads[t].native == e.threads[t].native;
    }
    forall t, u | 0 <= t < u < |e'.threads| ensures e'.threads[t].native != e'.threads[u].native {
      assert e'.threads[t].native == e.threads[t].native && e'.threads[u].native == e.threads[u].native;
    }
  }

  // ----- every step keeps the invariant -----

  /** Threads, fibers, queues, batches and counters agree. */
  ghost predicate Core(e: Engine) { Shape(e) && Lists(e) && Accounts(e) }

  ghost predicate Inv(e: Engine) { Core(e) && Roots(e) }

  /** The native fiber of the thread is suspended in stop() or dispatch(). */
  predicate InStop(e: Engine, t: Tid) {
    t < |e.threads| && e.threads[t].native in e.fibers && e.fibers[e.threads[t].native].place == Awaits(t)
  }

  /** The run loop of a hijacked thread returns to the native fiber, and that is waiting for just this. */
  predicate Awaited(e: Engine, t: Tid) {
    && InStop(e, t) && e.threads[t].run in e.fibers
    && e.fibers[e.threads[t].run].terminateOuter == Some(e.threads[t].native)
  }

  /** The two steps that are not safe by themselves. */
  predicate Clean(e: Engine, ev: Move) {
    && (ev.End? ==> Awaited(e, ev.t))
    && (ev.Await? && ev.ask ==> ev.t < |e.threads| && Hijacked(e.threads[ev.t]))
  }

  lemma EndFacts(e: Engine, t: Tid, c: Fid)
    requires Shape(e) && Enabled(e, End(t)) && Awaited(e, t) && c == e.threads[t].native
    ensures e.threads[t].current == e.threads[t].run != c && EndsTo(e, t) == Some(c)
    ensures e.fibers[c].state == Hold && e.fibers[c].on == None && e.fibers[c].outer == None
  {
    assert ThreadOk(e, t) && FiberOk(e, e.threads[t].run) && FiberOk(e, c);
  }

  lemma EndForm(e: Engine, t: Tid, e': Engine, c: Fid, fb: Fiber)
    requires Shape(e) && Enabled(e, End(t)) && Awaited(e, t) && c == e.threads[t].native
    requires e' == DoEnd(e, t)
    requires fb == e.fibers[c].(state := Exec, yielder := Some(e.threads[t].run), next := e.threads[t].pc.last,
             on := Some(t), place := Held(t))
    ensures e.fibers[c].state == Hold && e.fibers[c].on == None && EndAsserts(e, t)
    ensures e'.threads == e.threads[t := e.threads[t].(current := c, pc := SwitchIn(c), outside := true)]
    ensures e'.fibers == e.fibers[c := fb] && e'.scheds == e.scheds
  {
    EndFacts(e, t, c);
    YieldToEffect(e.fibers, e.threads[t].run, c, t, false, e.threads[t].pc.last);
  }

  lemma ShapeEnd(e: Engine, t: Tid, e': Engine, c: Fid, fb: Fiber)
    requires Shape(e) && Enabled(e, End(t)) && Awaited(e, t) && c == e.threads[t].native
    requires e.fibers[c].state == Hold && e.fibers[c].on == None && !e.fibers[c].stack
    requires fb == e.fibers[c].(state := Exec, yielder := Some(e.threads[t].run), next := e.threads[t].pc.last,
             on := Some(t), place := Held(t))
    requires e'.threads == e.threads[t := e.threads[t].(current := c, pc := SwitchIn(c), outside := true)]
    requires e'.fibers == e.fibers[c := fb] && e'.scheds == e.scheds
    ensures Shape(e')
  {
    hide ThreadOk, FiberOk, Occupies, HeldBy;
    assert ThreadOk(e, t) && FiberOk(e, c);
    EndedThread(e, t, e', c, fb);
    FrameOne(e, e', t, c, fb);
  }

  lemma EndedThread(e: Engine, t: Tid, e': Engine, c: Fid, fb: Fiber)
    requires t < |e.threads| && ThreadOk(e, t) && e.threads[t].pc.Ending? && Awaited(e, t) && c == e.threads[t].native
    requires FiberOk(e, c) && e.fibers[c].state == Hold && e.fibers[c].on == None && !e.fibers[c].stack
    requires fb == e.fibers[c].(state := Exec, yielder := Some(e.threads[t].run), next := e.threads[t].pc.last,
             on := Some(t), place := Held(t))
    requires e'.threads == e.threads[t := e.threads[t].(current := c, pc := SwitchIn(c), outside := true)]
    requires e'.fibers == e.fibers[c := fb] && e'.scheds == e.scheds
    ensures ThreadOk(e', t) && FiberOk(e', c) && !Foreign(e.fibers[c], t)
    ensures forall g :: Occupies(e, t, g) ==> Occupies(e', t, g)
    ensures forall g :: HeldBy(e, t, g) ==> HeldBy(e', t, g)
  {
  }

  lemma EndKeepsRest(e: Engine, t: Tid, e': Engine, c: Fid, fb: Fiber)
    requires Inv(e) && t < |e.threads| && e.threads[t].pc.Ending? && c in e.fibers && e.fibers[c].place == Awaits(t)
    requires fb == e.fibers[c].(state := Exec, yielder := Some(e.threads[t].run), next := e.threads[t].pc.last,
             on := Some(t), place := Held(t))
    requires e'.threads == e.threads[t := e.threads[t].(current := c, pc := SwitchIn(c), outside := true)]
    requires e'.fibers == e.fibers[c := fb] && e'.scheds == e.scheds
    ensures Lists(e') && Accounts(e') && Roots(e')
  {
    hide Shape, Lists, SchedOk;
    ListsSame(e, e');
    assert ActivityOk(e.threads[t]);
    AccountsMove(e, e', t, e'.threads[t]);
    RootsFrame(e, e');
  }

  lemma EndKeepsInv(e: Engine, t: Tid)
    requires Inv(e) && Enabled(e, End(t)) && Awaited(e, t)
    ensures Inv(DoEnd(e, t))
  {
    var th := e.threads[t];
    var e' := DoEnd(e, t);
    var c := th.native;
    var fb := e.fibers[c].(state := Exec, yielder := Some(th.run), next := th.pc.last, on := Some(t), place := Held(t));
    EndForm(e, t, e', c, fb);
    ShapeEnd(e, t, e', c, fb);
    EndKeepsRest(e, t, e', c, fb);
  }

  lemma AwaitKeepsCore(e: Engine, t: Tid, ask: bool)
    requires Core(e) && Enabled(e, Await(t, ask)) && Clean(e, Await(t, ask))
    ensures Core(DoAwait(e, t, ask))
  {
    hide FiberOk, Accounts;
    var e' := DoAwait(e, t, ask);
    assert ThreadOk(e, t);
    ShapeAwait(e, t, ask);
    AccountsLeaving(e, e', t, ask);
    ListsSame(e, e');
  }

  /** The steps inside fiber.cpp: one thread moves, no list and no counter changes. */
  predicate Internal(ev: Move) {
    || ev.Leave? || ev.Throw? || ev.Exit? || ev.Switch? || ev.Arrive? || ev.Enter?
    || ev.Land? || ev.Judge? || ev.CallIdle? || ev.YieldIdle? || ev.Retire?
  }

  lemma ShapeInternal(e: Engine, ev: Move)
    requires Shape(e) && Enabled(e, ev) && Internal(ev)
    ensures Shape(Apply(e, ev))
  {
    hide Shape, DoLeave, DoThrow, DoExit, DoLand, DoJudge, DoSwitch, DoEnter, DoCallIdle, DoYieldIdle, DoRetire;
    match ev
    case Leave(t) => ShapeLeave(e, t);
    case Throw(t) => ShapeThrow(e, t);
    case Exit(t, last) => ShapeExit(e, t, last);
    case Land(t) => ShapeLand(e, t);
    case Judge(t) => ShapeJudge(e, t);
    case Switch(t) => ShapeSwitch(e, t);
    case Arrive(t) =>
      if e.threads[t].pc == ArriveIn { ShapeArriveIn(e, t); }
      else if e.threads[t].pc == ArriveOut { ShapeArriveOut(e, t); }
      else { ShapeArriveBack(e, t); }
    case Enter(t) => ShapeEnter(e, t);
    case CallIdle(t) => ShapeCallIdle(e, t);
    case YieldIdle(t, last) => ShapeYieldIdle(e, t, last);
    case Retire(t) => ShapeRetire(e, t);
  }

  lemma YieldToKeeps(fs: map<Fid, Fiber>, current: Fid, f: Fid, t: Tid, caller: bool, target: FiberState, g: Fid)
    requires g in fs
    ensures var r := YieldToWrites(fs, current, f, t, caller, target);
            && g in r && r[g].place == fs[g].place && r[g].stack == fs[g].stack
            && (fs[g].state == Exec ==> r[g].state == Exec)
  {
  }

  lemma YieldToAddsNone(fs: map<Fid, Fiber>, current: Fid, f: Fid, t: Tid, caller: bool, target: FiberState, g: Fid)
    requires g !in fs
    ensures g !in YieldToWrites(fs, current, f, t, caller, target)
  {
  }

  /** In the hands of client code, or of a run loop between two functors, or of nobody. */
  predicate AtRest(p: Place) { p == Loose || p == Spent || p.SpareOf? }

  lemma HandOffKeeps(fs: map<Fid, Fiber>, f: Fid, g: Fid)
    ensures g in HandOff(fs, f) <==> g in fs
    ensures g in fs ==> HandOff(fs, f)[g].stack == fs[g].stack
    ensures g in fs ==>
              || HandOff(fs, f)[g].place == fs[g].place
              || (fs[g].place.Held? && AtRest(HandOff(fs, f)[g].place))
    ensures g in fs && HandOff(fs, f)[g].state != fs[g].state ==> f in fs && fs[f].yielder == Some(g)
  {
  }

  lemma LeaveKeepsMembers(e: Engine, t: Tid, f: Fid)
    requires Shape(e) && Enabled(e, Leave(t))
    ensures f in e.fibers <==> f in Apply(e, Leave(t)).fibers
    ensures f in e.fibers ==>
              Apply(e, Leave(t)).fibers[f].stack == e.fibers[f].stack &&
                Apply(e, Leave(t)).fibers[f].place == e.fibers[f].place
  {
    hide FiberOk, YieldToWrites;
    LeaveForm(e, t, DoLeave(e, t));
    assert ThreadOk(e, t);
  }

  lemma ExitKeepsMembers(e: Engine, t: Tid, last: FiberState, f: Fid)
    requires Enabled(e, Exit(t, last))
    ensures f in e.fibers <==> f in Apply(e, Exit(t, last)).fibers
    ensures f in e.fibers ==>
              Apply(e, Exit(t, last)).fibers[f].stack == e.fibers[f].stack &&
                Apply(e, Exit(t, last)).fibers[f].place == e.fibers[f].place
  {
    var th := e.threads[t];
    var o := e.fibers[th.current].terminateOuter;
    if o.Some? {
      if f in e.fibers { YieldToKeeps(e.fibers, th.current, o.value, t, false, last, f); }
      else { YieldToAddsNone(e.fibers, th.current, o.value, t, false, last, f); }
    }
  }

  lemma EnterKeepsMembers(e: Engine, t: Tid, f: Fid)
    requires Enabled(e, Enter(t))
    ensures f in e.fibers <==> f in Apply(e, Enter(t)).fibers
    ensures f in e.fibers ==>
              Apply(e, Enter(t)).fibers[f].stack == e.fibers[f].stack &&
                Apply(e, Enter(t)).fibers[f].place == e.fibers[f].place
  {
    var th := e.threads[t];
    if f in e.fibers { YieldToKeeps(e.fibers, th.current, th.pc.f, t, true, Hold, f); }
    else { YieldToAddsNone(e.fibers, th.current, th.pc.f, t, true, Hold, f); }
  }

  /** They leave every fiber where it is, except that one that has ended comes to rest. */
  lemma InternalKeepsMembers(e: Engine, ev: Move, f: Fid)
    requires Shape(e) && Enabled(e, ev) && Internal(ev)
    ensures f in e.fibers <==> f in Apply(e, ev).fibers
    ensures f in e.fibers ==> Apply(e, ev).fibers[f].stack == e.fibers[f].stack
    ensures f in e.fibers ==> Apply(e, ev).fibers[f].place == e.fibers[f].place
                              || (AtRest(Apply(e, ev).fibers[f].place) &&
                                    (AtRest(e.fibers[f].place) || (ev.Arrive? && e.fibers[f].place.Held?)))
  {
    hide Apply, Enabled, Shape;
    match ev
    case Leave(t) => LeaveKeepsMembers(e, t, f);
    case Exit(t, last) => ExitKeepsMembers(e, t, last, f);
    case Enter(t) => EnterKeepsMembers(e, t, f);
    case Arrive(t) => ArriveKeepsMembers(e, t, f);
    case Judge(t) => JudgeKeepsMembers(e, t, f);
    case _ => OwnKeepsMembers(e, ev, f);
  }

  lemma ArriveKeepsMembers(e: Engine, t: Tid, f: Fid)
    requires Enabled(e, Arrive(t))
    ensures f in e.fibers <==> f in Apply(e, Arrive(t)).fibers
    ensures f in e.fibers ==> Apply(e, Arrive(t)).fibers[f].stack == e.fibers[f].stack
    ensures f in e.fibers ==> Apply(e, Arrive(t)).fibers[f].place == e.fibers[f].place
                              || (AtRest(Apply(e, Arrive(t)).fibers[f].place) && e.fibers[f].place.Held?)
  {
    hide HandOff;
    HandOffKeeps(e.fibers, e.threads[t].ctx, f);
    HandOffKeeps(e.fibers, e.threads[t].ctx, e.threads[t].idle);
  }

  lemma JudgeKeepsMembers(e: Engine, t: Tid, f: Fid)
    requires Shape(e) && Enabled(e, Judge(t))
    ensures f in e.fibers <==> f in Apply(e, Judge(t)).fibers
    ensures f in e.fibers ==> Apply(e, Judge(t)).fibers[f].stack == e.fibers[f].stack
    ensures f in e.fibers ==> Apply(e, Judge(t)).fibers[f].place == e.fibers[f].place
                              || (AtRest(Apply(e, Judge(t)).fibers[f].place) && AtRest(e.fibers[f].place))
  {
    hide FiberOk;
    assert ThreadOk(e, t);
    SpareAtRest(e, t);
  }

  lemma OwnKeepsMembers(e: Engine, ev: Move, f: Fid)
    requires Enabled(e, ev)
    requires ev.Throw? || ev.Switch? || ev.Land? || ev.CallIdle? || ev.YieldIdle? || ev.Retire?
    ensures f in e.fibers <==> f in Apply(e, ev).fibers
    ensures f in e.fibers ==> Apply(e, ev).fibers[f].stack == e.fibers[f].stack
    ensures f in e.fibers ==> Apply(e, ev).fibers[f].place == e.fibers[f].place
                              || (AtRest(Apply(e, ev).fibers[f].place) && AtRest(e.fibers[f].place))
  {
  }

  lemma SpareAtRest(e: Engine, t: Tid)
    requires Shape(e) && t < |e.threads| && e.threads[t].spare.Some?
    ensures var f := e.threads[t].spare.value;
            f in e.fibers && (e.fibers[f].state == Term || !e.threads[t].functor ==> AtRest(e.fibers[f].place))
  {
    assert ThreadOk(e, t) && FiberOk(e, e.threads[t].spare.value);
  }

  lemma AccountsLeave(e: Engine, t: Tid)
    requires Shape(e) && Accounts(e) && Enabled(e, Leave(t))
    ensures Accounts(DoLeave(e, t))
  {
    LeaveForm(e, t, DoLeave(e, t));
    assert ActivityOk(e.threads[t]);
    AccountsMove(e, DoLeave(e, t), t, DoLeave(e, t).threads[t]);
  }

  lemma AccountsExit(e: Engine, t: Tid, last: FiberState)
    requires Shape(e) && Accounts(e) && Enabled(e, Exit(t, last))
    ensures Accounts(DoExit(e, t, last))
  {
    hide FiberOk;
    var th := e.threads[t];
    var e' := DoExit(e, t, last);
    assert ThreadOk(e, t) && ActivityOk(th);
    ExitForm(e, t, last, e',
      e.fibers[th.run].(state := Exec, yielder := Some(th.current), next := last, on := Some(t)));
    AccountsMove(e, e', t, e'.threads[t]);
  }

  lemma AccountsEnter(e: Engine, t: Tid)
    requires Accounts(e) && Enabled(e, Enter(t))
    ensures Accounts(DoEnter(e, t))
  {
    assert ActivityOk(e.threads[t]);
    AccountsMove(e, DoEnter(e, t), t, DoEnter(e, t).threads[t]);
  }

  lemma AccountsSwitch(e: Engine, t: Tid)
    requires Accounts(e) && Enabled(e, Switch(t))
    ensures Accounts(DoSwitch(e, t))
  {
    assert ActivityOk(e.threads[t]);
    AccountsMove(e, DoSwitch(e, t), t, DoSwitch(e, t).threads[t]);
  }

  lemma AccountsArrive(e: Engine, t: Tid)
    requires Shape(e) && Accounts(e) && Enabled(e, Arrive(t))
    ensures Accounts(Apply(e, Arrive(t)))
  {
    hide ThreadOk;
    assert ThreadOk(e, t) && ActivityOk(e.threads[t]);
    if e.threads[t].pc == ArriveIn {
      AccountsMove(e, DoArriveIn(e, t), t, DoArriveIn(e, t).threads[t]);
    } else if e.threads[t].pc == ArriveOut {
      AccountsArriveOut(e, t);
    } else {
      AccountsMove(e, DoArriveBack(e, t), t, DoArriveBack(e, t).threads[t]);
    }
  }

  lemma AccountsArriveOut(e: Engine, t: Tid)
    requires Shape(e) && Accounts(e) && Enabled(e, Arrive(t)) && e.threads[t].pc == ArriveOut
    ensures Accounts(DoArriveOut(e, t))
  {
    assert ThreadOk(e, t) && ActivityOk(e.threads[t]);
    AccountsMove(e, DoArriveOut(e, t), t, DoArriveOut(e, t).threads[t]);
  }

  /** What such a step writes of the threads. */
  lemma OwnStepForm(e: Engine, ev: Move)
    requires Enabled(e, ev) && (ev.Throw? || ev.Land? || ev.Judge? || ev.CallIdle? || ev.YieldIdle? || ev.Retire?)
    ensures var th := e.threads[ev.t];
            var e' := Apply(e, ev);
            && e'.scheds == e.scheds && |e'.threads| == |e.threads| && e'.threads == e.threads[ev.t := e'.threads[ev.t]]
            && e'.threads[ev.t] ==
                 th.(pc := e'.threads[ev.t].pc, current := e'.threads[ev.t].current, spare := e'.threads[ev.t].spare,
                     functor := e'.threads[ev.t].functor, calling := e'.threads[ev.t].calling)
            && match ev
               case Throw(_) => e'.threads[ev.t].pc == Failing
               case Land(_) => e'.threads[ev.t].pc in {Throwing, Judging, Loop}
               case Judge(_) => e'.threads[ev.t].pc == Loop
               case CallIdle(_) => e'.threads[ev.t].pc == SwitchIdle
               case YieldIdle(_, _) => e'.threads[ev.t].pc == SwitchBack
               case _ => e'.threads[ev.t].pc == AfterRun(th, Term)
  {
  }

  lemma ActivityOfOwnSteps(e: Engine, ev: Move)
    requires Shape(e) && Accounts(e) && Enabled(e, ev) &&
             (ev.Throw? || ev.Land? || ev.Judge? || ev.CallIdle? || ev.YieldIdle? || ev.Retire?)
    ensures Accounts(Apply(e, ev))
  {
    hide ThreadOk, FiberOk, Apply;
    OwnStepForm(e, ev);
    assert ThreadOk(e, ev.t) && ActivityOk(e.threads[ev.t]);
    AccountsMove(e, Apply(e, ev), ev.t, Apply(e, ev).threads[ev.t]);
  }

  lemma InternalLists(e: Engine, ev: Move)
    requires Shape(e) && Lists(e) && Enabled(e, ev) && Internal(ev)
    ensures Lists(Apply(e, ev))
  {
    hide Apply, Enabled, Shape, Lists;
    InternalQuiet(e, ev);
    forall f ensures Listed(Apply(e, ev), f) == Listed(e, f) { InternalKeepsMembers(e, ev, f); }
    ListsSame(e, Apply(e, ev));
  }

  lemma InternalKeepsCore(e: Engine, ev: Move)
    requires Core(e) && Enabled(e, ev) && Internal(ev)
    ensures Core(Apply(e, ev))
  {
    hide Lists, Accounts, Roots;
    ShapeInternal(e, ev);
    InternalLists(e, ev);
    match ev
    case Leave(t) => AccountsLeave(e, t);
    case Exit(t, last) => AccountsExit(e, t, last);
    case Enter(t) => AccountsEnter(e, t);
    case Switch(t) => AccountsSwitch(e, t);
    case Arrive(t) => AccountsArrive(e, t);
    case _ => ActivityOfOwnSteps(e, ev);
  }

  lemma ScheduleKeepsCore(e: Engine, s: Sid, f: Fid, bound: Option<Tid>)
    requires Core(e) && s < |e.scheds| && f in e.fibers
    requires || (e.fibers[f].place == Loose && e.fibers[f].state in {Init, Term})
             || (e.fibers[f].place.Away? && e.fibers[f].place.s == s)
    ensures Core(DoSchedule(e, s, f, bound))
  {
    var e1 := e.(fibers := e.fibers[f := e.fibers[f].(place := Queued(s))]);
    ShapeSchedule(e, s, f, bound);
    ListsPush(e, DoSchedule(e, s, f, bound), s, Item(FiberTask(f), bound));
    AccountsSame(e, e1);
    AccountsPush(e1, s, Item(FiberTask(f), bound));
  }

  /** The running fiber gives itself away. */
  lemma AccountsLeaving(e: Engine, e': Engine, t: Tid, ask: bool)
    requires Accounts(e) && t < |e.threads| && e.threads[t].pc == User && e'.scheds == e.scheds
    requires e'.threads == e.threads[t := e.threads[t].(pc := Leaving, asks := ask)]
    ensures Accounts(e')
  {
    assert ActivityOk(e.threads[t]);
    AccountsMove(e, e', t, e'.threads[t]);
  }

  lemma ParkKeepsCore(e: Engine, t: Tid, o: Oid)
    requires Core(e) && Enabled(e, Park(t, o))
    ensures Core(DoPark(e, t, o))
  {
    hide FiberOk;
    var e' := DoPark(e, t, o);
    assert ThreadOk(e, t);
    ShapePark(e, t, o);
    AccountsLeaving(e, e', t, e.threads[t].asks);
    ListsSame(e, e');
  }

  lemma AccountsSwitchTo(e: Engine, t: Tid, s: Sid, bound: Option<Tid>)
    requires Accounts(e) && Enabled(e, SwitchTo(t, s, bound)) && e.threads[t].current in e.fibers
    ensures Accounts(DoSwitchTo(e, t, s, bound))
  {
    var th := e.threads[t];
    var it := Item(FiberTask(th.current), bound);
    var e' := DoSwitchTo(e, t, s, bound);
    var e1 := SetThread(e, t, th.(pc := Leaving)).(fibers := e'.fibers);
    AccountsLeaving(e, e1, t, th.asks);
    AccountsPush(e1, s, it);
    assert e' == Push(e1, s, it);
  }

  lemma SwitchToKeepsCore(e: Engine, t: Tid, s: Sid, bound: Option<Tid>)
    requires Core(e) && Enabled(e, SwitchTo(t, s, bound))
    ensures Core(DoSwitchTo(e, t, s, bound))
  {
    assert ThreadOk(e, t);
    ShapeSwitchTo(e, t, s, bound);
    ListsPush(e, DoSwitchTo(e, t, s, bound), s, Item(FiberTask(e.threads[t].current), bound));
    AccountsSwitchTo(e, t, s, bound);
  }

  lemma OtherClientKeepsCore(e: Engine, ev: Move)
    requires Core(e) && Enabled(e, ev) && (ev.Create? || ev.ResetFiber? || ev.ScheduleDg? || ev.Stop?)
    ensures Core(Apply(e, ev))
  {
    hide FiberOk;
    var e' := Apply(e, ev);
    match ev
    case Create(t, n) => ShapeCreate(e, t, n); ListsSame(e, e'); AccountsSame(e, e');
    case ResetFiber(t, f) => ShapeReset(e, t, f); ListsSame(e, e'); AccountsSame(e, e');
    case ScheduleDg(t, s, dg, bound) =>
      ShapeThreadsAndFibers(e, e');
      ListsPush(e, e', s, Item(DgTask(dg), bound));
      AccountsPush(e, s, Item(DgTask(dg), bound));
    case Stop(t, s) => ShapeThreadsAndFibers(e, e'); ListsSame(e, e'); AccountsSame(e, e');
  }

  lemma ShapeThreadsAndFibers(e: Engine, e': Engine)
    requires Shape(e) && e'.threads == e.threads && e'.fibers == e.fibers && |e'.scheds| == |e.scheds|
    ensures Shape(e')
  {
    forall t | 0 <= t < |e.threads| ensures ThreadOk(e', t) { assert ThreadOk(e, t); }
    forall f | f in e.fibers ensures FiberOk(e', f) { assert FiberOk(e, f); }
  }

  lemma AccountsSame(e: Engine, e': Engine)
    requires Accounts(e) && e'.threads == e.threads && |e'.scheds| == |e.scheds|
    requires forall s :: 0 <= s < |e.scheds| ==> e'.scheds[s] == e.scheds[s].(stopping := e'.scheds[s].stopping)
    ensures Accounts(e')
  {
    forall s | 0 <= s < |e.scheds| ensures SchedOk(e', s) {
      assert SchedOk(e, s);
      forall it ensures Conserved(e', s, it) { assert Conserved(e, s, it); }
    }
  }

  lemma StepKeepsCore(e: Engine, ev: Move)
    requires Core(e) && Enabled(e, ev) && Clean(e, ev) && !ev.End?
    ensures Core(Apply(e, ev))
  {
    if Internal(ev) {
      InternalKeepsCore(e, ev);
    } else {
      match ev
      case Schedule(_, s, f, bound) => ScheduleKeepsCore(e, s, f, bound);
      case SwitchTo(t, s, bound) => SwitchToKeepsCore(e, t, s, bound);
      case Park(t, o) => ParkKeepsCore(e, t, o);
      case Await(t, ask) => AwaitKeepsCore(e, t, ask);
      case Wake(_, s, f) => ScheduleKeepsCore(e, s, f, None);
      case Select(t, busy) => ShapeSelect(e, t, busy); ListsSelect(e, t, busy); AccountsSelect(e, t, busy);
      case Pop(t, n) => ShapePop(e, t, n); ListsPop(e, t, n); AccountsPop(e, t, n);
      case Requeue(t) => ShapeRequeue(e, t); ListsRequeue(e, t); AccountsRequeue(e, t);
      case _ => OtherClientKeepsCore(e, ev);
    }
  }

  lemma StackKept(e: Engine, ev: Move, f: Fid)
    requires Shape(e) && Enabled(e, ev) && !ev.End? && f in e.fibers
    ensures f in Apply(e, ev).fibers && Apply(e, ev).fibers[f].stack == e.fibers[f].stack
  {
    hide FiberOk, HandOff;
    if Internal(ev) { InternalKeepsMembers(e, ev, f); }
  }

  /** A step changes the record of its own thread only, and keeps its roles and its scheduler. */
  predicate ThreadStep(e: Engine, e': Engine, t: Tid) {
    && t < |e.threads| == |e'.threads| && e'.threads == e.threads[t := e'.threads[t]]
    && SameRoles(e.threads[t], e'.threads[t]) && e'.threads[t].sched == e.threads[t].sched
  }

  /** And, inside the fiber code, touches no list. */
  predicate QuietStep(e: Engine, e': Engine, t: Tid) {
    ThreadStep(e, e', t) && e'.scheds == e.scheds && e'.threads[t].batch == e.threads[t].batch
  }

  lemma ClientThreads(e: Engine, ev: Move)
    requires Enabled(e, ev)
    requires ev.Create? || ev.ResetFiber? || ev.Schedule? || ev.ScheduleDg? || ev.Wake? || ev.Stop?
    ensures Apply(e, ev).threads == e.threads && ThreadStep(e, Apply(e, ev), ev.t)
  {
    hide NewFiber, Reset;
  }

  lemma GivingThreads(e: Engine, ev: Move)
    requires Enabled(e, ev) && (ev.SwitchTo? || ev.Park? || ev.Await? || ev.End?)
    ensures ThreadStep(e, Apply(e, ev), ev.t)
  {
    hide YieldToWrites, EndsTo, StopYields;
  }

  lemma ListThreads(e: Engine, ev: Move)
    requires Enabled(e, ev) && (ev.Select? || ev.Requeue? || ev.Pop?)
    ensures ThreadStep(e, Apply(e, ev), ev.t)
  {
    hide Take, Rest, Moved, FibersOf, NewFiber, Reset, FunctorFiber;
  }

  lemma LeavingThreads(e: Engine, ev: Move)
    requires Enabled(e, ev) && (ev.Leave? || ev.Throw? || ev.Exit? || ev.Enter?)
    ensures QuietStep(e, Apply(e, ev), ev.t)
  {
    hide YieldToWrites, FreshIdle;
  }

  lemma SwitchingThreads(e: Engine, ev: Move)
    requires Enabled(e, ev) && (ev.CallIdle? || ev.YieldIdle? || ev.Switch?)
    ensures QuietStep(e, Apply(e, ev), ev.t)
  {
  }

  lemma ArrivingThreads(e: Engine, ev: Move)
    requires Enabled(e, ev) && (ev.Arrive? || ev.Land?)
    ensures QuietStep(e, Apply(e, ev), ev.t)
  {
    hide HandOff, Rethrows;
  }

  lemma FunctorThreads(e: Engine, ev: Move)
    requires Enabled(e, ev) && (ev.Judge? || ev.Retire?)
    ensures QuietStep(e, Apply(e, ev), ev.t)
  {
    hide Reset;
  }

  lemma InternalThread(e: Engine, ev: Move)
    requires Enabled(e, ev) && Internal(ev)
    ensures QuietStep(e, Apply(e, ev), ev.t)
  {
    hide Apply, QuietStep, Enabled;
    if ev.Leave? || ev.Throw? || ev.Exit? || ev.Enter? { LeavingThreads(e, ev); }
    else if ev.CallIdle? || ev.YieldIdle? || ev.Switch? { SwitchingThreads(e, ev); }
    else if ev.Arrive? || ev.Land? { ArrivingThreads(e, ev); }
    else { FunctorThreads(e, ev); }
  }

  lemma StepThreads(e: Engine, ev: Move)
    requires Enabled(e, ev)
    ensures ThreadStep(e, Apply(e, ev), ev.t)
  {
    hide Apply, ThreadStep, Enabled;
    if Internal(ev) { InternalThread(e, ev); }
    else if ev.Select? || ev.Requeue? || ev.Pop? { ListThreads(e, ev); }
    else if ev.SwitchTo? || ev.Park? || ev.Await? || ev.End? { GivingThreads(e, ev); }
    else { ClientThreads(e, ev); }
  }

  lemma ThreadsKept(e: Engine, ev: Move)
    requires Enabled(e, ev)
    ensures |Apply(e, ev).threads| == |e.threads|
  {
    hide Apply, Enabled;
    StepThreads(e, ev);
  }

  lemma NativeKept(e: Engine, ev: Move, t: Tid)
    requires Enabled(e, ev) && t < |e.threads|
    ensures |Apply(e, ev).threads| == |e.threads| && Apply(e, ev).threads[t].native == e.threads[t].native
  {
    hide Apply, Enabled;
    StepThreads(e, ev);
  }

  lemma StepKeepsRoots(e: Engine, ev: Move)
    requires Shape(e) && Roots(e) && Enabled(e, ev) && !ev.End?
    ensures Roots(Apply(e, ev))
  {
    var e' := Apply(e, ev);
    forall f | f in e.fibers ensures f in e'.fibers && e'.fibers[f].stack == e.fibers[f].stack {
      StackKept(e, ev, f);
    }
    ThreadsKept(e, ev);
    forall t | 0 <= t < |e.threads| ensures e'.threads[t].native == e.threads[t].native { NativeKept(e, ev, t); }
    RootsFrame(e, e');
  }

  /** Every step of the engine keeps the invariant, unless a hijacked run loop ends and does not
      return to a native fiber that is waiting for that, or stop() yields on a spawned thread. */
  lemma StepKeepsInv(e: Engine, ev: Move)
    requires Inv(e) && Enabled(e, ev) && Clean(e, ev)
    ensures Inv(Apply(e, ev))
  {
    if ev.End? {
      EndKeepsInv(e, ev.t);
    } else {
      StepKeepsCore(e, ev);
      StepKeepsRoots(e, ev);
    }
  }

  // ----- conservation needs no invariant -----

  lemma InBatchesSame(ths: seq<Thread>, ths': seq<Thread>, s: Sid, it: Item)
    requires |ths| == |ths'|
    requires forall u :: 0 <= u < |ths| ==> ths'[u].batch == ths[u].batch && ths'[u].sched == ths[u].sched
    ensures InBatches(ths', s, it) == InBatches(ths, s, it)
  {
    SumSame(ths, ths', HeldFor(s, it));
  }

  predicate SameLists(a: Sched, b: Sched) { a.queue == b.queue && a.issued == b.issued && a.started == b.started }

  lemma QuietConserves(e: Engine, ev: Move, s: Sid, it: Item)
    requires Enabled(e, ev) && s < |e.scheds| && Conserved(e, s, it)
    requires !ev.Schedule? && !ev.ScheduleDg? && !ev.SwitchTo? && !ev.Wake? && !ev.Select? && !ev.Pop? && !ev.Requeue?
    ensures s < |Apply(e, ev).scheds| && Conserved(Apply(e, ev), s, it)
  {
    var e' := Apply(e, ev);
    QuietLists(e, ev, s);
    InBatchesSame(e.threads, e'.threads, s, it);
  }

  lemma QuietLists(e: Engine, ev: Move, s: Sid)
    requires Enabled(e, ev) && s < |e.scheds|
    requires !ev.Schedule? && !ev.ScheduleDg? && !ev.SwitchTo? && !ev.Wake? && !ev.Select? && !ev.Pop? && !ev.Requeue?
    ensures |Apply(e, ev).scheds| == |e.scheds| && SameLists(e.scheds[s], Apply(e, ev).scheds[s])
    ensures |Apply(e, ev).threads| == |e.threads|
    ensures forall u :: 0 <= u < |e.threads| ==>
              Apply(e, ev).threads[u].batch == e.threads[u].batch && Apply(e, ev).threads[u].sched == e.threads[u].sched
  {
    if Internal(ev) { InternalQuiet(e, ev); }
  }

  lemma InternalQuiet(e: Engine, ev: Move)
    requires Enabled(e, ev) && Internal(ev)
    ensures Apply(e, ev).scheds == e.scheds && |Apply(e, ev).threads| == |e.threads|
    ensures forall u :: 0 <= u < |e.threads| ==>
              Apply(e, ev).threads[u].batch == e.threads[u].batch && Apply(e, ev).threads[u].sched == e.threads[u].sched
  {
    hide Apply, Enabled;
    InternalThread(e, ev);
  }

  lemma PushConserves(e: Engine, e1: Engine, r: Sid, x: Item, s: Sid, it: Item)
    requires r < |e.scheds| && s < |e.scheds| && Conserved(e, s, it) && e1.scheds == e.scheds &&
             |e1.threads| == |e.threads|
    requires forall u :: 0 <= u < |e.threads| ==>
             e1.threads[u].batch == e.threads[u].batch && e1.threads[u].sched == e.threads[u].sched
    ensures Conserved(Push(e1, r, x), s, it)
  {
    InBatchesSame(e.threads, e1.threads, s, it);
  }

  lemma SelectConserves(e: Engine, t: Tid, busy: set<Fid>, s: Sid, it: Item)
    requires Enabled(e, Select(t, busy)) && s < |e.scheds| && Conserved(e, s, it)
    ensures s < |DoSelect(e, t, busy).scheds| && Conserved(DoSelect(e, t, busy), s, it)
  {
    var th := e.threads[t];
    var e' := DoSelect(e, t, busy);
    TakeAndRestPartition(e.scheds[th.sched].queue, t, busy, e.scheds[th.sched].batchSize);
    InBatchesUpdate(e.threads, t, e'.threads[t], s, it);
  }

  lemma PopForm(e: Engine, t: Tid, n: Fid, top: Item, e': Engine)
    requires Enabled(e, Pop(t, n)) && top == e.threads[t].batch[|e.threads[t].batch| - 1] && e' == DoPop(e, t, n)
    ensures |e'.threads| == |e.threads| && e'.threads == e.threads[t := e'.threads[t]]
    ensures e.threads[t].batch == e'.threads[t].batch + [top]
    ensures e'.threads[t].sched == e.threads[t].sched && e'.threads[t].active == e.threads[t].active
    ensures e'.scheds == Started(e, e.threads[t].sched, top).scheds
  {
    hide FunctorFiber, NewFiber, Reset;
  }

  lemma PopConserves(e: Engine, t: Tid, n: Fid, s: Sid, it: Item)
    requires Enabled(e, Pop(t, n)) && s < |e.scheds| && Conserved(e, s, it)
    ensures s < |DoPop(e, t, n).scheds| && Conserved(DoPop(e, t, n), s, it)
  {
    var top := e.threads[t].batch[|e.threads[t].batch| - 1];
    PopForm(e, t, n, top, DoPop(e, t, n));
    PoppedConserves(e, DoPop(e, t, n), t, top, s, it);
  }

  lemma PoppedConserves(e: Engine, e': Engine, t: Tid, top: Item, s: Sid, it: Item)
    requires t < |e.threads| == |e'.threads| && e.threads[t].sched < |e.scheds| && s < |e.scheds| && Conserved(e, s, it)
    requires e'.threads == e.threads[t := e'.threads[t]] && e'.threads[t].sched == e.threads[t].sched
    requires e'.scheds == Started(e, e.threads[t].sched, top).scheds &&
             e.threads[t].batch == e'.threads[t].batch + [top]
    ensures s < |e'.scheds| && Conserved(e', s, it)
  {
    InBatchesUpdate(e.threads, t, e'.threads[t], s, it);
  }

  lemma RequeueConserves(e: Engine, t: Tid, s: Sid, it: Item)
    requires Enabled(e, Requeue(t)) && s < |e.scheds| && Conserved(e, s, it)
    ensures s < |DoRequeue(e, t).scheds| && Conserved(DoRequeue(e, t), s, it)
  {
    InBatchesUpdate(e.threads, t, DoRequeue(e, t).threads[t], s, it);
  }

  lemma SwitchToConserves(e: Engine, t: Tid, r: Sid, bound: Option<Tid>, s: Sid, it: Item)
    requires Enabled(e, SwitchTo(t, r, bound)) && s < |e.scheds| && Conserved(e, s, it)
    ensures s < |DoSwitchTo(e, t, r, bound).scheds| && Conserved(DoSwitchTo(e, t, r, bound), s, it)
  {
    var th := e.threads[t];
    if th.current in e.fibers {
      var x := Item(FiberTask(th.current), bound);
      var fs := e.fibers[th.current := e.fibers[th.current].(place := Queued(r))];
      var e1 := SetThread(e, t, th.(pc := Leaving)).(fibers := fs);
      PushConserves(e, e1, r, x, s, it);
      assert DoSwitchTo(e, t, r, bound) == Push(e1, r, x);
    }
  }

  /** Whatever was scheduled stays accounted for through every step, of any state. */
  lemma StepConserves(e: Engine, ev: Move, s: Sid, it: Item)
    requires Enabled(e, ev) && s < |e.scheds| && Conserved(e, s, it)
    ensures s < |Apply(e, ev).scheds| && Conserved(Apply(e, ev), s, it)
  {
    hide Conserved, DoSelect, DoPop, DoRequeue, DoSwitchTo;
    match ev
    case Schedule(_, r, f, bound) =>
      var e1 := e.(fibers := e.fibers[f := e.fibers[f].(place := Queued(r))]);
      PushConserves(e, e1, r, Item(FiberTask(f), bound), s, it);
    case Wake(_, r, f) =>
      var e1 := e.(fibers := e.fibers[f := e.fibers[f].(place := Queued(r))]);
      PushConserves(e, e1, r, Item(FiberTask(f), None), s, it);
    case ScheduleDg(_, r, dg, bound) => PushConserves(e, e, r, Item(DgTask(dg), bound), s, it);
    case SwitchTo(t, r, bound) => SwitchToConserves(e, t, r, bound, s, it);
    case Select(t, busy) => SelectConserves(e, t, busy, s, it);
    case Pop(t, n) => PopConserves(e, t, n, s, it);
    case Requeue(t) => RequeueConserves(e, t, s, it);
    case _ => QuietConserves(e, ev, s, it);
  }

  // ----- what the invariant means -----

  lemma InvReturns(e: Engine, t: Tid)
    requires Shape(e) && t < |e.threads| && e.threads[t].pc in {User, Failing}
    ensures CanReturn(e, t)
  {
    var th := e.threads[t];
    assert ThreadOk(e, t) && FiberOk(e, th.ctx);
  }

  lemma InvWillReturn(e: Engine, t: Tid, f: Fid)
    requires Shape(e) && t < |e.threads|
    requires e.threads[t].pc == SwitchIn(f) || (e.threads[t].pc == ArriveIn && f == e.threads[t].ctx)
    ensures WillReturn(e, f)
  {
    assert ThreadOk(e, t);
  }

  lemma InvResets(e: Engine, t: Tid)
    requires Shape(e) && t < |e.threads| && e.threads[t].spare.Some? && e.threads[t].pc in {Loop, Judging}
    ensures var f := e.threads[t].spare.value;
            f in e.fibers && (!e.threads[t].functor || e.fibers[f].state == Term ==> CanReset(e, t, f))
  {
    assert ThreadOk(e, t) && FiberOk(e, e.threads[t].spare.value);
  }

  /** No assertion of the fiber code can fail on any thread. */
  lemma InvAsserts(e: Engine, t: Tid)
    requires Inv(e) && t < |e.threads|
    ensures AssertsHold(e, t)
  {
    hide CanReturn, CanReset, WillReturn, Lists, Accounts, Roots;
    var th := e.threads[t];
    assert ThreadOk(e, t) && FiberOk(e, th.run) && FiberOk(e, th.idle);
    if th.pc == User || th.pc == Failing { InvReturns(e, t); }
    if th.pc.SwitchIn? || th.pc == ArriveIn { InvWillReturn(e, t, if th.pc.SwitchIn? then th.pc.f else th.ctx); }
    if th.spare.Some? && th.pc in {Loop, Judging} { InvResets(e, t); }
  }

  /** No two threads are on one stack, and a fiber about to be resumed is on none. */
  predicate OneStack(e: Engine, t: Tid, u: Tid)
    requires t < |e.threads| && u < |e.threads|
  {
    && (t != u ==> e.threads[t].ctx != e.threads[u].ctx)
    && (e.threads[t].pc.Resume? ==> e.threads[u].ctx != e.threads[t].pc.f)
  }

  lemma InvOneStack(e: Engine, t: Tid, u: Tid)
    requires Inv(e) && t < |e.threads| && u < |e.threads|
    ensures OneStack(e, t, u)
  {
    assert ThreadOk(e, t) && ThreadOk(e, u);
    assert Runs(e, t, e.threads[t].ctx) && Runs(e, u, e.threads[u].ctx);
  }

  lemma ExecStaysLeave(e: Engine, t: Tid, f: Fid)
    requires Shape(e) && Enabled(e, Leave(t)) && f in e.fibers && e.fibers[f].state == Exec
    ensures f in DoLeave(e, t).fibers && DoLeave(e, t).fibers[f].state == Exec
  {
    LeaveForm(e, t, DoLeave(e, t));
    assert ThreadOk(e, t);
  }

  lemma ExecStaysExit(e: Engine, t: Tid, last: FiberState, f: Fid)
    requires Enabled(e, Exit(t, last)) && f in e.fibers && e.fibers[f].state == Exec
    ensures f in DoExit(e, t, last).fibers && DoExit(e, t, last).fibers[f].state == Exec
  {
    var th := e.threads[t];
    if e.fibers[th.current].terminateOuter.Some? {
      YieldToKeeps(e.fibers, th.current, e.fibers[th.current].terminateOuter.value, t, false, last, f);
    }
  }

  lemma ExecStaysInternal(e: Engine, ev: Move, f: Fid)
    requires Shape(e) && Enabled(e, ev) && Internal(ev) && !ev.Arrive? && f in e.fibers && e.fibers[f].state == Exec
    ensures f in Apply(e, ev).fibers && Apply(e, ev).fibers[f].state == Exec
  {
    var th := e.threads[ev.t];
    match ev
    case Leave(t) => ExecStaysLeave(e, t, f);
    case Exit(t, last) => ExecStaysExit(e, t, last, f);
    case Enter(t) => YieldToKeeps(e.fibers, th.current, th.pc.f, t, true, Hold, f);
    case _ =>
  }

  lemma ExecStaysOther(e: Engine, ev: Move, f: Fid)
    requires Shape(e) && Enabled(e, ev) && !Internal(ev) && f in e.fibers && e.fibers[f].state == Exec
    ensures f in Apply(e, ev).fibers && Apply(e, ev).fibers[f].state == Exec
  {
    hide FiberOk;
    if ev.Pop? { ExecStaysPop(e, ev.t, ev.n, f); }
  }

  lemma ExecStaysPop(e: Engine, t: Tid, n: Fid, f: Fid)
    requires Shape(e) && Enabled(e, Pop(t, n)) && f in e.fibers && e.fibers[f].state == Exec
    ensures f in DoPop(e, t, n).fibers && DoPop(e, t, n).fibers[f].state == Exec
  {
    hide ThreadOk;
    if e.threads[t].batch[|e.threads[t].batch| - 1].task.DgTask? { ExecIsNoSpare(e, t, n, f); }
  }

  lemma ExecIsNoSpare(e: Engine, t: Tid, n: Fid, f: Fid)
    requires Shape(e) && Enabled(e, Pop(t, n)) && f in e.fibers && e.fibers[f].state == Exec
    requires e.threads[t].batch[|e.threads[t].batch| - 1].task.DgTask?
    ensures f in DoPop(e, t, n).fibers && DoPop(e, t, n).fibers[f] == e.fibers[f]
  {
    hide ThreadOk, DoPop;
    assert FiberOk(e, f);
    FunctorForm(e, t, n, DoPop(e, t, n), FunctorFiber(e, t, n));
  }

  /** A fiber stops being marked as executing only in a step of the fiber that took over
      the thread, and by then no processor is on its stack. */
  lemma OnlySuccessorReleases(e: Engine, ev: Move, f: Fid, u: Tid)
    requires Inv(e) && Enabled(e, ev) && f in e.fibers && e.fibers[f].state == Exec
    requires f in Apply(e, ev).fibers ==> Apply(e, ev).fibers[f].state != Exec
    requires u < |e.threads|
    ensures ev.Arrive? && e.threads[ev.t].ctx in e.fibers
    ensures e.fibers[e.threads[ev.t].ctx].yielder == Some(f)
    ensures e.threads[u].ctx != f
  {
    hide Lists, Accounts, Roots, FiberOk;
    if !ev.Arrive? {
      if Internal(ev) { ExecStaysInternal(e, ev, f); } else { ExecStaysOther(e, ev, f); }
    } else {
      HandOffKeeps(e.fibers, e.threads[ev.t].ctx, f);
      assert ThreadOk(e, ev.t);
      YielderIsOff(e, ev.t, f, u);
    }
  }

  lemma YielderIsOff(e: Engine, t: Tid, f: Fid, u: Tid)
    requires Shape(e) && t < |e.threads| && u < |e.threads| && f in e.fibers
    requires e.threads[t].pc in {ArriveIn, ArriveOut, ArriveBack} && e.threads[t].ctx in e.fibers
    requires e.fibers[e.threads[t].ctx].yielder == Some(f)
    ensures e.threads[u].ctx != f
  {
    assert ThreadOk(e, t) && ThreadOk(e, u);
    assert Runs(e, u, e.threads[u].ctx);
    assert Runs(e, t, f);
  }

  /** When stopping() answers true, everything ever scheduled has been started and no
      thread of the scheduler is working on a task. */
  lemma InvStopped(e: Engine, s: Sid, t: Tid, it: Item)
    requires Inv(e) && s < |e.scheds| && e.scheds[s].queue == [] && e.scheds[s].active == 0
    ensures e.scheds[s].issued[it] == e.scheds[s].started[it]
    ensures t < |e.threads| && e.threads[t].sched == s ==>
              e.threads[t].batch == [] && (InTask(e.threads[t].pc) ==> e.threads[t].outside)
  {
    assert SchedOk(e, s) && Conserved(e, s, it);
    forall u | 0 <= u < |e.threads| && e.threads[u].sched == s
      ensures !e.threads[u].active && e.threads[u].batch == []
    {
      NoActiveThread(e.threads, s, u);
      assert ActivityOk(e.threads[u]);
    }
    NothingInBatches(e.threads, s, it);
    if t < |e.threads| { assert ActivityOk(e.threads[t]); }
  }

  lemma NothingInBatches(ths: seq<Thread>, s: Sid, it: Item)
    requires forall u :: 0 <= u < |ths| && ths[u].sched == s ==> ths[u].batch == []
    ensures InBatches(ths, s, it) == 0
  {
    SumZero(ths, HeldFor(s, it));
  }

  // ----- starting states -----

  /** A spawned thread starts in its run loop; a hijacked one is still in client code. */
  predicate ThreadStarts(e: Engine, t: Tid)
    requires t < |e.threads|
  {
    var th := e.threads[t];
    && th.sched < |e.scheds| && th.run in e.fibers && th.idle in e.fibers && th.ctx in e.fibers
    && th.batch == [] && !th.active && !th.asks && th.calling == None && th.spare == None && !th.functor
    && th.current == th.ctx == th.native
    && e.fibers[th.idle] == NewFiber(IdleOf(t))
    && if th.outside then
         && Hijacked(th) && th.pc == User && e.fibers[th.run] == NewFiber(LoopOf(t))
         && e.fibers[th.ctx] == NativeFiber(Held(t), t)
       else
         && th.pc == Loop && th.ctx == th.run
         && e.fibers[th.run] == NativeFiber(LoopOf(t), t)
  }

  predicate FiberStarts(e: Engine, f: Fid)
    requires f in e.fibers
  {
    match e.fibers[f].place
    case Loose => e.fibers[f] == NewFiber(Loose)
    case LoopOf(t) => t < |e.threads| && e.threads[t].run == f
    case IdleOf(t) => t < |e.threads| && e.threads[t].idle == f
    case Held(t) => t < |e.threads| && e.threads[t].outside && e.threads[t].ctx == f
    case _ => false
  }

  ghost predicate Starts(e: Engine) {
    && (forall t :: 0 <= t < |e.threads| ==> ThreadStarts(e, t))
    && (forall f :: f in e.fibers ==> FiberStarts(e, f))
    && (forall t, u :: 0 <= t < u < |e.threads| && Hijacked(e.threads[t]) && Hijacked(e.threads[u]) ==>
          e.threads[t].sched != e.threads[u].sched)
    && (forall s :: 0 <= s < |e.scheds| ==>
          e.scheds[s].queue == [] && e.scheds[s].active == 0
          && e.scheds[s].issued == multiset{} && e.scheds[s].started == multiset{})
  }

  lemma StartsShape(e: Engine)
    requires Starts(e)
    ensures Shape(e)
  {
    forall t | 0 <= t < |e.threads| ensures ThreadOk(e, t) { assert ThreadStarts(e, t); }
    forall f | f in e.fibers ensures FiberOk(e, f) {
      assert FiberStarts(e, f);
      if e.fibers[f].place != Loose { assert ThreadStarts(e, e.fibers[f].place.t); }
    }
  }

  lemma StartsInv(e: Engine)
    requires Starts(e)
    ensures Inv(e)
  {
    StartsShape(e);
    forall t, u | 0 <= t < u < |e.threads| ensures e.threads[t].native != e.threads[u].native {
      assert ThreadStarts(e, t) && ThreadStarts(e, u);
    }
    forall t | 0 <= t < |e.threads| ensures e.threads[t].native in e.fibers && !e.fibers[e.threads[t].native].stack {
      assert ThreadStarts(e, t);
    }
    forall f ensures Listed(e, f) == None { assert f in e.fibers ==> FiberStarts(e, f); }
    forall t | 0 <= t < |e.threads|
      ensures BatchOk(e, t) && ActivityOk(e.threads[t]) && e.threads[t].batch == [] && !e.threads[t].active
    {
      assert ThreadStarts(e, t);
      forall f ensures !(f in e.fibers && e.fibers[f].place == Batched(t)) { assert Listed(e, f) == None; }
    }
    forall s | 0 <= s < |e.scheds| ensures QueueOk(e, s) && SchedOk(e, s) {
      forall f ensures !(f in e.fibers && e.fibers[f].place == Queued(s)) { assert Listed(e, f) == None; }
      NobodyActive(e.threads, s);
      forall it ensures Conserved(e, s, it) { NothingInBatches(e.threads, s, it); }
    }
  }

  lemma NobodyActive(ths: seq<Thread>, s: Sid)
    requires forall u :: 0 <= u < |ths| ==> !ths[u].active
    ensures ActiveThreads(ths, s) == 0
  {
    SumZero(ths, ActiveIn(s));
  }
}

/** IOManager over epoll: the event masks, contexts and pending counter of user space
    against the interest set of the kernel. */
module IoManager {
  import opened Common
  import opened Tally

  datatype Kind = Read | Write | Close

  /** EventContext: where a registration is to be scheduled. */
  datatype Context = Context(scheduler: Option<Sid>, fiber: Option<Fid>, dg: Option<nat>)

  const EMPTY := Context(None, None, None)

  datatype Async = Async(fd: nat, events: set<Kind>, onRead: Context, onWrite: Context, onClose: Context)

  function ContextFor(s: Async, k: Kind): Context {
    match k case Read => s.onRead case Write => s.onWrite case Close => s.onClose
  }

  function WithContext(s: Async, k: Kind, c: Context): Async {
    match k case Read => s.(onRead := c) case Write => s.(onWrite := c) case Close => s.(onClose := c)
  }

  /** A registration: what registerEvent() was asked to do. */
  datatype Reg = Reg(fd: nat, kind: Kind, context: Context)

  // ----- the kernel -----

  datatype CtlOp = Add | Mod | Del

  /** epoll_ctl() as documented: adding what is there, or changing what is not, fails. */
  predicate CtlFits(kernel: map<nat, set<Kind>>, op: CtlOp, fd: nat) {
    match op case Add => fd !in kernel case Mod => fd in kernel case Del => fd in kernel
  }

  function Ctl(kernel: map<nat, set<Kind>>, op: CtlOp, fd: nat, mask: set<Kind>): map<nat, set<Kind>> {
    if op == Del then kernel - {fd} else kernel[fd := mask]
  }

  // ----- user space -----

  datatype Io = Io(states: seq<Option<Async>>, kernel: map<nat, set<Kind>>, count: int)

  datatype Result = Returned(b: bool) | Threw

  /** New state, result, and the registrations that were scheduled or dropped. */
  datatype Effect = Effect(io: Io, result: Result, fired: seq<Reg>, dropped: seq<Reg>)

  predicate Known(io: Io, fd: nat) {
    0 < fd <= |io.states| && io.states[fd - 1].Some?
  }

  function StateOf(io: Io, fd: nat): Async
    requires Known(io, fd)
  {
    io.states[fd - 1].value
  }

  function SetState(io: Io, fd: nat, s: Async): Io
    requires 0 < fd <= |io.states|
  {
    io.(states := io.states[fd - 1 := Some(s)])
  }

  /** Look up the state of a descriptor, growing the table if necessary. */
  function Grown(io: Io, fd: nat): (r: Io)
    requires fd > 0
    ensures Known(r, fd) && r.kernel == io.kernel && r.count == io.count
  {
    var n := fd * 3 / 2;
    var io1 := if |io.states| < fd then io.(states := io.states + seq(n - |io.states|, _ => None)) else io;
    if io1.states[fd - 1].Some? then io1 else SetState(io1, fd, Async(fd, {}, EMPTY, EMPTY, EMPTY))
  }

  function MaskOp(events: set<Kind>): CtlOp { if events == {} then Del else Mod }

  /** registerEvent(): find the state under the manager's mutex, then arm it under its own. */
  function Register(io: Io, fd: nat, k: Kind, c: Context, works: bool): Effect
    requires fd > 0
  {
    Arm(Grown(io, fd), fd, k, c, works)
  }

  /** `works` is false when the kernel refuses for a reason of its own. */
  function Arm(io: Io, fd: nat, k: Kind, c: Context, works: bool): Effect
    requires Known(io, fd)
  {
    var s := StateOf(io, fd);
    var op := if s.events == {} then Add else Mod;
    if !works || !CtlFits(io.kernel, op, fd) then Effect(io, Threw, [], [])
    else
      Effect(SetState(io, fd, WithContext(s.(events := s.events + {k}), k, c))
               .(kernel := Ctl(io.kernel, op, fd, s.events + {k}), count := io.count + 1),
             Returned(true), [], [])
  }

  /** schedule(&dg) or schedule(&fiber) swaps the one it takes out of the context. */
  function SwappedOut(c: Context): Context {
    if c.dg.Some? then c.(dg := None, scheduler := None) else c.(fiber := None, scheduler := None)
  }

  /** triggerEvent(): consume the bit and schedule the context. */
  function Trigger(io: Io, fd: nat, k: Kind): (Io, seq<Reg>)
    requires Known(io, fd)
  {
    var s := StateOf(io, fd);
    if k !in s.events then (io, [])
    else
      var s' := WithContext(s.(events := s.events - {k}), k, SwappedOut(ContextFor(s, k)));
      (SetState(io, fd, s').(count := io.count - 1),
          [Reg(fd, k, ContextFor(s, k))])
  }

  /** unregisterEvent(): the kernel mask first, then the bit; the context is forgotten. */
  function Unregister(io: Io, fd: nat, k: Kind, works: bool): Effect {
    if !Known(io, fd) || k !in StateOf(io, fd).events then Effect(io, Returned(false), [], [])
    else
      var s := StateOf(io, fd);
      var left := s.events - {k};
      if !works || !CtlFits(io.kernel, MaskOp(left), fd) then Effect(io, Threw, [], [])
      else
        // resetContext(): the fiber or functor is handed to a clean-up task and forgotten
        Effect(SetState(io, fd, WithContext(s.(events := left), k, EMPTY))
                 .(kernel := Ctl(io.kernel, MaskOp(left), fd, left), count := io.count - 1),
               Returned(true), [], [Reg(fd, k, ContextFor(s, k))])
  }

  function Cancel(io: Io, fd: nat, k: Kind, works: bool): Effect {
    if !Known(io, fd) || k !in StateOf(io, fd).events then Effect(io, Returned(false), [], [])
    else
      var left := StateOf(io, fd).events - {k};
      if !works || !CtlFits(io.kernel, MaskOp(left), fd) then Effect(io, Threw, [], [])
      else
        var (io', fired) := Trigger(io.(kernel := Ctl(io.kernel, MaskOp(left), fd, left)), fd, k);
        Effect(io', Returned(true), fired, [])
  }

  /** The bits of one epoll_event. */
  datatype Bits = Bits(inp: bool, outp: bool, rdhup: bool, err: bool, hup: bool)

  function Incoming(b: Bits): set<Kind> {
    (if b.inp || b.err || b.hup then {Read} else {})
    + (if b.outp || b.err || b.hup then {Write} else {})
    + (if b.rdhup then {Close} else {})
  }

  function TriggerIf(io: Io, fd: nat, k: Kind, inc: set<Kind>): (r: (Io, seq<Reg>))
    requires Known(io, fd)
    ensures Known(r.0, fd)
  {
    if k in inc then Trigger(io, fd, k) else (io, [])
  }

  /** Trigger in the order of the code: read, write, close. */
  function TriggerAll(io: Io, fd: nat, inc: set<Kind>): (Io, seq<Reg>)
    requires Known(io, fd)
  {
    var (io1, r1) := TriggerIf(io, fd, Read, inc);
    var (io2, r2) := TriggerIf(io1, fd, Write, inc);
    var (io3, r3) := TriggerIf(io2, fd, Close, inc);
    (io3, r1 + r2 + r3)
  }

  /** One event of the array in idle(); a refused epoll_ctl() is remembered and rethrown later. */
  function DispatchOne(io: Io, fd: nat, b: Bits, works: bool): (e: Effect)
    requires Known(io, fd)
    ensures forall f :: Known(io, f) ==> Known(e.io, f)
  {
    var s := StateOf(io, fd);
    var inc := Incoming(b);
    if s.events * inc == {} then Effect(io, Returned(false), [], [])
    else
      var left := s.events - inc;
      if !works || !CtlFits(io.kernel, MaskOp(left), fd) then Effect(io, Threw, [], [])
      else
        var (io', fired) := TriggerAll(io.(kernel := Ctl(io.kernel, MaskOp(left), fd, left)), fd, inc);
        Effect(io', Returned(true), fired, [])
  }

  // ----- agreement -----

  predicate Armed(c: Context) {
    c.scheduler.Some? && (c.fiber.Some? <==> c.dg == None)
  }

  /** A bit is set exactly when its context is armed, and a clear bit has an empty context. */
  predicate AsyncOk(s: Async) {
    forall k :: if k in s.events then Armed(ContextFor(s, k)) else ContextFor(s, k) == EMPTY
  }

  const Events: Option<Async> -> nat := (state: Option<Async>) => if state.Some? then |state.value.events| else 0

  function Total(states: seq<Option<Async>>): nat { Sum(states, Events) }

  function MaskOf(io: Io, fd: nat): set<Kind> {
    if Known(io, fd) then StateOf(io, fd).events else {}
  }

  ghost predicate Agree(io: Io) {
    && (forall i :: 0 <= i < |io.states| && io.states[i].Some? ==>
                      io.states[i].value.fd == i + 1 && AsyncOk(io.states[i].value))
    && (forall fd :: fd in io.kernel <==> MaskOf(io, fd) != {})
    && (forall fd :: fd in io.kernel ==> io.kernel[fd] == MaskOf(io, fd))
    && io.count == Total(io.states)
  }

  /** A registration is pending. */
  predicate Pending(io: Io, r: Reg) {
    Known(io, r.fd) && r.kind in StateOf(io, r.fd).events && ContextFor(StateOf(io, r.fd), r.kind) == r.context
  }

  lemma {:induction false} TotalOfNone(states: seq<Option<Async>>, n: nat)
    ensures Total(states + seq(n, _ => None)) == Total(states)
    decreases |states|, n
  {
    if states != [] {
      assert (states + seq(n, _ => None))[1..] == states[1..] + seq(n, _ => None);
      TotalOfNone(states[1..], n);
    } else if n > 0 {
      var z: seq<Option<Async>> := seq(n, _ => None);
      assert states + z == z && z[1..] == [] + seq(n - 1, _ => None);
      TotalOfNone([], n - 1);
    }
  }

  /** One descriptor changes its mask on both sides. */
  lemma Replaced(io: Io, io': Io, fd: nat, s: Async)
    requires Agree(io) && Known(io, fd) && s.fd == fd && AsyncOk(s)
    requires io'.states == io.states[fd - 1 := Some(s)]
    requires io'.count == io.count + |s.events| - |StateOf(io, fd).events|
    requires io'.kernel == if s.events == {} then io.kernel - {fd} else io.kernel[fd := s.events]
    ensures Agree(io')
  {
    SumUpdate(io.states, fd - 1, Some(s), Events);
    forall f
      ensures f in io'.kernel <==> MaskOf(io', f) != {}
      ensures f in io'.kernel ==> io'.kernel[f] == MaskOf(io', f)
    {
      assert f != fd ==> MaskOf(io', f) == MaskOf(io, f);
      assert f in io.kernel <==> MaskOf(io, f) != {};
    }
  }

  lemma GrownKeeps(io: Io, fd: nat, f: nat)
    requires fd > 0
    ensures Known(io, f) ==> Known(Grown(io, fd), f) && StateOf(Grown(io, fd), f) == StateOf(io, f)
    ensures Known(Grown(io, fd), f) && !Known(io, f) ==>
            f == fd && StateOf(Grown(io, fd), f) == Async(fd, {}, EMPTY, EMPTY, EMPTY)
  {
  }

  lemma GrownTotal(io: Io, fd: nat)
    requires fd > 0
    ensures Total(Grown(io, fd).states) == Total(io.states)
  {
    var io1 := io;
    if |io.states| < fd {
      io1 := io.(states := io.states + seq(fd * 3 / 2 - |io.states|, _ => None));
      TotalOfNone(io.states, fd * 3 / 2 - |io.states|);
    }
    if io1.states[fd - 1] == None { SumUpdate(io1.states, fd - 1, Some(Async(fd, {}, EMPTY, EMPTY, EMPTY)), Events); }
  }

  lemma GrownAgrees(io: Io, fd: nat)
    requires Agree(io) && fd > 0
    ensures Agree(Grown(io, fd)) && MaskOf(Grown(io, fd), fd) == MaskOf(io, fd)
  {
    var g := Grown(io, fd);
    GrownTotal(io, fd);
    forall f ensures MaskOf(g, f) == MaskOf(io, f) { GrownKeeps(io, fd, f); }
    forall i | 0 <= i < |g.states| && g.states[i].Some?
      ensures g.states[i].value.fd == i + 1 && AsyncOk(g.states[i].value)
    {
      GrownKeeps(io, fd, i + 1);
    }
  }

  /** The operation chosen from the old mask is always the one the kernel accepts. */
  lemma RightOp(io: Io, fd: nat)
    requires Agree(io) && Known(io, fd)
    ensures CtlFits(io.kernel, if StateOf(io, fd).events == {} then Add else Mod, fd)
    ensures StateOf(io, fd).events != {} ==> CtlFits(io.kernel, Mod, fd) && CtlFits(io.kernel, Del, fd)
  {
    assert fd in io.kernel <==> MaskOf(io, fd) != {};
  }

  // ----- every critical section keeps the agreement -----

  /** When the operation fits, arming replaces one state on both sides. */
  lemma ArmReplaces(io: Io, fd: nat, k: Kind, c: Context, s': Async)
    requires Agree(io) && Known(io, fd)
    requires s' == WithContext(StateOf(io, fd).(events := StateOf(io, fd).events + {k}), k, c)
    ensures var io' := Arm(io, fd, k, c, true).io;
            && io'.states == io.states[fd - 1 := Some(s')] && io'.count == io.count + 1
            && io'.kernel == io.kernel[fd := StateOf(io, fd).events + {k}]
    ensures Arm(io, fd, k, c, true).result == Returned(true)
  {
    RightOp(io, fd);
  }

  lemma ArmAgrees(io: Io, fd: nat, k: Kind, c: Context, works: bool)
    requires Agree(io) && Known(io, fd) && k !in StateOf(io, fd).events && Armed(c)
    ensures Agree(Arm(io, fd, k, c, works).io)
    ensures Arm(io, fd, k, c, works).result == if works then Returned(true) else Threw
  {
    if works {
      var s := StateOf(io, fd);
      var s' := WithContext(s.(events := s.events + {k}), k, c);
      ArmReplaces(io, fd, k, c, s');
      ArmedOk(s, k, c, s');
      Replaced(io, Arm(io, fd, k, c, true).io, fd, s');
    }
  }

  /** The assertions before a context is filled in. */
  lemma ClearIsEmpty(io: Io, fd: nat, k: Kind)
    requires Agree(io) && Known(io, fd) && k !in StateOf(io, fd).events
    ensures StateOf(io, fd).fd == fd && ContextFor(StateOf(io, fd), k) == EMPTY
  {
    assert AsyncOk(StateOf(io, fd));
  }

  lemma RegisterAgrees(io: Io, fd: nat, k: Kind, c: Context, works: bool)
    requires Agree(io) && fd > 0 && k !in MaskOf(io, fd) && Armed(c)
    ensures Agree(Register(io, fd, k, c, works).io)
    ensures Register(io, fd, k, c, works).result == if works then Returned(true) else Threw
  {
    GrownAgrees(io, fd);
    ArmAgrees(Grown(io, fd), fd, k, c, works);
  }

  lemma ArmedOk(s: Async, k: Kind, c: Context, s': Async)
    requires AsyncOk(s) && k !in s.events && Armed(c)
    requires s' == WithContext(s.(events := s.events + {k}), k, c)
    ensures AsyncOk(s') && s'.fd == s.fd && s'.events == s.events + {k} && |s'.events| == |s.events| + 1
  {
    forall j ensures if j in s'.events then Armed(ContextFor(s', j)) else ContextFor(s', j) == EMPTY {
      assert if j in s.events then Armed(ContextFor(s, j)) else ContextFor(s, j) == EMPTY;
    }
  }

  lemma ArmPends(io: Io, fd: nat, k: Kind, c: Context, works: bool, r: Reg)
    requires Agree(io) && Known(io, fd) && k !in StateOf(io, fd).events && Armed(c)
    ensures Pending(Arm(io, fd, k, c, works).io, r) <==> Pending(io, r) || (works && r == Reg(fd, k, c))
    ensures Pending(io, r) ==> r != Reg(fd, k, c)
  {
    RightOp(io, fd);
    if works { ArmedPends(io, fd, k, c, Arm(io, fd, k, c, works).io, r); }
  }

  lemma ArmedPends(io: Io, fd: nat, k: Kind, c: Context, io': Io, r: Reg)
    requires Known(io, fd) && k !in StateOf(io, fd).events
    requires io'.states ==
             SetState(io, fd, WithContext(StateOf(io, fd).(events := StateOf(io, fd).events + {k}), k, c)).states
    ensures Pending(io', r) <==> Pending(io, r) || r == Reg(fd, k, c)
  {
  }

  lemma RegisterPends(io: Io, fd: nat, k: Kind, c: Context, works: bool, r: Reg)
    requires Agree(io) && fd > 0 && k !in MaskOf(io, fd) && Armed(c)
    ensures Pending(Register(io, fd, k, c, works).io, r) <==> Pending(io, r) || (works && r == Reg(fd, k, c))
    ensures Pending(io, r) ==> r != Reg(fd, k, c)
  {
    GrownAgrees(io, fd);
    GrownKeeps(io, fd, r.fd);
    ArmPends(Grown(io, fd), fd, k, c, works, r);
  }

  /** What is left of a descriptor when the events of a set are consumed. */
  function Consumed(s: Async, inc: set<Kind>): Async {
    Async(s.fd, s.events - inc,
          if Read in s.events * inc then EMPTY else s.onRead,
          if Write in s.events * inc then EMPTY else s.onWrite,
          if Close in s.events * inc then EMPTY else s.onClose)
  }

  function FiredOf(s: Async, inc: set<Kind>, k: Kind): seq<Reg> {
    if k in s.events * inc then [Reg(s.fd, k, ContextFor(s, k))] else []
  }

  /** The registrations consumed, in the order they are scheduled. */
  function FiredBy(s: Async, inc: set<Kind>): seq<Reg> {
    FiredOf(s, inc, Read) + FiredOf(s, inc, Write) + FiredOf(s, inc, Close)
  }

  predicate Consumes(io: Io, io': Io, fd: nat, inc: set<Kind>)
    requires Known(io, fd)
  {
    var s := StateOf(io, fd);
    && io'.states == io.states[fd - 1 := Some(Consumed(s, inc))]
    && io'.count == io.count - |s.events * inc|
    && io'.kernel == if s.events - inc == {} then io.kernel - {fd} else io.kernel[fd := s.events - inc]
  }

  lemma ConsumedOk(s: Async, inc: set<Kind>)
    requires AsyncOk(s)
    ensures AsyncOk(Consumed(s, inc)) && |s.events - inc| == |s.events| - |s.events * inc|
  {
    var s' := Consumed(s, inc);
    forall j ensures if j in s'.events then Armed(ContextFor(s', j)) else ContextFor(s', j) == EMPTY {
      assert if j in s.events then Armed(ContextFor(s, j)) else ContextFor(s, j) == EMPTY;
    }
    assert s.events == (s.events - inc) + (s.events * inc);
  }

  lemma ConsumedAgrees(io: Io, io': Io, fd: nat, inc: set<Kind>)
    requires Agree(io) && Known(io, fd) && Consumes(io, io', fd, inc)
    ensures Agree(io')
  {
    ConsumedOk(StateOf(io, fd), inc);
    Replaced(io, io', fd, Consumed(StateOf(io, fd), inc));
  }

  /** A registration that was pending stays pending or is fired, never both. */
  lemma ConsumedPends(io: Io, io': Io, fd: nat, inc: set<Kind>, r: Reg)
    requires Agree(io) && Known(io, fd) && Consumes(io, io', fd, inc)
    ensures Held(io, r) == Held(io', r) + Times(FiredBy(StateOf(io, fd), inc), r)
  {
    var s := StateOf(io, fd);
    TimesConcat(FiredOf(s, inc, Read) + FiredOf(s, inc, Write), FiredOf(s, inc, Close), r);
    TimesConcat(FiredOf(s, inc, Read), FiredOf(s, inc, Write), r);
    FiredTimes(s, inc, Read, r);
    FiredTimes(s, inc, Write, r);
    FiredTimes(s, inc, Close, r);
    ConsumedHeld(io, io', fd, inc, r);
  }

  lemma FiredTimes(s: Async, inc: set<Kind>, k: Kind, r: Reg)
    ensures Times(FiredOf(s, inc, k), r) == if k in s.events * inc && r == Reg(s.fd, k, ContextFor(s, k)) then 1 else 0
  {
  }

  lemma ConsumedHeld(io: Io, io': Io, fd: nat, inc: set<Kind>, r: Reg)
    requires Agree(io) && Known(io, fd) && Consumes(io, io', fd, inc)
    ensures StateOf(io, fd).fd == fd
    ensures Held(io', r) == if Pending(io, r) && !(r.fd == fd && r.kind in inc) then 1 else 0
  {
  }

  lemma CountKinds(e: set<Kind>)
    ensures |e| == (if Read in e then 1 else 0) + (if Write in e then 1 else 0) + (if Close in e then 1 else 0)
  {
    var r := if Read in e then {Read} else {};
    var w := if Write in e then {Write} else {};
    var c := if Close in e then {Close} else {};
    forall k ensures k in e <==> k in r + w + c { match k { case Read => case Write => case Close => } }
    assert e == r + w + c;
  }

  /** Where a sequence of triggers has got to. */
  predicate Reached(io0: Io, io: Io, fd: nat, done: set<Kind>)
    requires Known(io0, fd)
  {
    && io.states == io0.states[fd - 1 := Some(Consumed(StateOf(io0, fd), done))]
    && io.count == io0.count - |StateOf(io0, fd).events * done|
    && io.kernel == io0.kernel
  }

  /** One trigger consumes one more event of the set, if it is registered. */
  lemma TriggerStep(io0: Io, io: Io, fd: nat, done: set<Kind>, k: Kind, inc: set<Kind>)
    requires Known(io0, fd) && AsyncOk(StateOf(io0, fd)) && StateOf(io0, fd).fd == fd
    requires Reached(io0, io, fd, done) && k !in done
    ensures Reached(io0, TriggerIf(io, fd, k, inc).0, fd, done + {k} * inc)
    ensures TriggerIf(io, fd, k, inc).1 == FiredOf(StateOf(io0, fd), inc, k)
  {
    var s0 := StateOf(io0, fd);
    if k in inc {
      assert done + {k} * inc == done + {k};
      ConsumeOne(s0, done, k);
    } else {
      assert done + {k} * inc == done;
    }
  }

  lemma ConsumeOne(s: Async, done: set<Kind>, k: Kind)
    requires AsyncOk(s) && k !in done
    ensures k in s.events ==>
      && Consumed(s, done + {k}) ==
        WithContext(Consumed(s, done).(events := s.events - done - {k}), k, SwappedOut(ContextFor(s, k)))
      && |s.events * (done + {k})| == |s.events * done| + 1
    ensures k !in s.events ==>
            Consumed(s, done + {k}) == Consumed(s, done) && |s.events * (done + {k})| == |s.events * done|
    ensures ContextFor(Consumed(s, done), k) == ContextFor(s, k)
  {
    assert if k in s.events then Armed(ContextFor(s, k)) else ContextFor(s, k) == EMPTY;
    if k in s.events {
      assert s.events * (done + {k}) == s.events * done + {k};
      assert s.events - (done + {k}) == s.events - done - {k};
    } else {
      assert s.events * (done + {k}) == s.events * done;
      assert s.events - (done + {k}) == s.events - done;
    }
  }

  lemma KindsSplit(inc: set<Kind>)
    ensures {} + {Read} * inc + {Write} * inc + {Close} * inc == inc
  {
    forall k ensures k in inc <==> k in {} + {Read} * inc + {Write} * inc + {Close} * inc {
      match k { case Read => case Write => case Close => }
    }
  }

  /** Triggering one event after the other consumes exactly the set. */
  lemma TriggerAllConsumes(io: Io, fd: nat, inc: set<Kind>)
    requires Known(io, fd) && AsyncOk(StateOf(io, fd)) && StateOf(io, fd).fd == fd
    ensures Reached(io, TriggerAll(io, fd, inc).0, fd, inc)
    ensures TriggerAll(io, fd, inc).1 == FiredBy(StateOf(io, fd), inc)
  {
    assert Reached(io, io, fd, {}) by { assert Consumed(StateOf(io, fd), {}) == StateOf(io, fd); }
    TriggerStep(io, io, fd, {}, Read, inc);
    var io1 := TriggerIf(io, fd, Read, inc).0;
    TriggerStep(io, io1, fd, {} + {Read} * inc, Write, inc);
    var io2 := TriggerIf(io1, fd, Write, inc).0;
    TriggerStep(io, io2, fd, {} + {Read} * inc + {Write} * inc, Close, inc);
    KindsSplit(inc);
  }

  /** cancelEvent() and the dispatch of one event are the same step on different sets. */
  lemma DispatchConsumes(io: Io, fd: nat, inc: set<Kind>, kernel: map<nat, set<Kind>>)
    requires Agree(io) && Known(io, fd) && StateOf(io, fd).events * inc != {}
    requires kernel == Ctl(io.kernel, MaskOp(StateOf(io, fd).events - inc), fd, StateOf(io, fd).events - inc)
    ensures Consumes(io, TriggerAll(io.(kernel := kernel), fd, inc).0, fd, inc)
    ensures TriggerAll(io.(kernel := kernel), fd, inc).1 == FiredBy(StateOf(io, fd), inc)
  {
    TriggerAllConsumes(io.(kernel := kernel), fd, inc);
  }

  lemma CancelIsDispatch(io: Io, fd: nat, k: Kind)
    requires Known(io, fd)
    ensures Trigger(io, fd, k).0 == TriggerAll(io, fd, {k}).0 && Trigger(io, fd, k).1 == TriggerAll(io, fd, {k}).1
  {
  }

  // ----- runs -----

  datatype Act =
    | ActRegister(fd: nat, kind: Kind, context: Context, works: bool)
    | ActUnregister(fd: nat, kind: Kind, works: bool)
    | ActCancel(fd: nat, kind: Kind, works: bool)
    | ActDispatch(fd: nat, bits: Bits, works: bool)

  /** What the source demands of its callers: a descriptor, and no event registered twice. */
  predicate Can(io: Io, a: Act) {
    match a
    case ActRegister(fd, k, c, _) => fd > 0 && k !in MaskOf(io, fd) && Armed(c)
    case ActUnregister(fd, _, _) => fd > 0
    case ActCancel(fd, _, _) => fd > 0
    case ActDispatch(fd, _, _) => Known(io, fd)
  }

  function Do(io: Io, a: Act): Effect
    requires Can(io, a)
  {
    match a
    case ActRegister(fd, k, c, works) => Register(io, fd, k, c, works)
    case ActUnregister(fd, k, works) => Unregister(io, fd, k, works)
    case ActCancel(fd, k, works) => Cancel(io, fd, k, works)
    case ActDispatch(fd, b, works) => DispatchOne(io, fd, b, works)
  }

  /** The registrations an action makes. */
  function Made(a: Act, e: Effect): seq<Reg> {
    if a.ActRegister? && e.result.Returned? then [Reg(a.fd, a.kind, a.context)] else []
  }

  function Held(io: Io, r: Reg): nat { if Pending(io, r) then 1 else 0 }

  function Times(s: seq<Reg>, r: Reg): nat {
    if s == [] then 0 else (if s[0] == r then 1 else 0) + Times(s[1..], r)
  }

  /** What one action does: the two sides stay in agreement, the kernel is never asked the wrong
      operation, and registrations are neither lost nor fired twice. */
  ghost predicate Sound(io: Io, a: Act, e: Effect) {
    && Agree(e.io)
    && (e.result == Threw ==> !a.works && e.fired == [] && e.dropped == [])
    && (forall r :: Held(io, r) + Times(Made(a, e), r) == Held(e.io, r) + Times(e.fired, r) + Times(e.dropped, r))
  }

  lemma RegisterSound(io: Io, fd: nat, k: Kind, c: Context, works: bool)
    requires Agree(io) && fd > 0 && k !in MaskOf(io, fd) && Armed(c)
    ensures Sound(io, ActRegister(fd, k, c, works), Register(io, fd, k, c, works))
  {
    RegisterAgrees(io, fd, k, c, works);
    forall r { RegisterPends(io, fd, k, c, works, r); }
  }

  lemma ConsumingSound(io: Io, a: Act, e: Effect, fd: nat, inc: set<Kind>)
    requires Agree(io) && Known(io, fd) && !a.ActRegister?
    requires Consumes(io, e.io, fd, inc) && e.result == Returned(true)
    requires (e.fired == FiredBy(StateOf(io, fd), inc) && e.dropped == []) ||
             (e.fired == [] && e.dropped == FiredBy(StateOf(io, fd), inc))
    ensures Sound(io, a, e)
  {
    ConsumedAgrees(io, e.io, fd, inc);
    forall r { ConsumedPends(io, e.io, fd, inc, r); }
  }

  lemma NothingSound(io: Io, a: Act, e: Effect)
    requires Agree(io) && e.io == io && !a.ActRegister? && e.fired == [] && e.dropped == []
    requires e.result == Threw ==> !a.works
    ensures Sound(io, a, e)
  {
  }

  lemma UnregisterSound(io: Io, fd: nat, k: Kind, works: bool)
    requires Agree(io)
    ensures Sound(io, ActUnregister(fd, k, works), Unregister(io, fd, k, works))
  {
    var e := Unregister(io, fd, k, works);
    if Known(io, fd) && k in StateOf(io, fd).events && works {
      RightOp(io, fd);
      var s := StateOf(io, fd);
      CountKinds(s.events * {k});
      assert WithContext(s.(events := s.events - {k}), k, EMPTY) == Consumed(s, {k});
      ConsumingSound(io, ActUnregister(fd, k, works), e, fd, {k});
    } else {
      NothingSound(io, ActUnregister(fd, k, works), e);
    }
  }

  lemma CancelSound(io: Io, fd: nat, k: Kind, works: bool)
    requires Agree(io)
    ensures Sound(io, ActCancel(fd, k, works), Cancel(io, fd, k, works))
  {
    var e := Cancel(io, fd, k, works);
    if Known(io, fd) && k in StateOf(io, fd).events && works {
      RightOp(io, fd);
      var left := StateOf(io, fd).events - {k};
      var kernel := Ctl(io.kernel, MaskOp(left), fd, left);
      assert k in StateOf(io, fd).events * {k};
      DispatchConsumes(io, fd, {k}, kernel);
      CancelIsDispatch(io.(kernel := kernel), fd, k);
      ConsumingSound(io, ActCancel(fd, k, works), e, fd, {k});
    } else {
      NothingSound(io, ActCancel(fd, k, works), e);
    }
  }

  /** Also the assertion after the three triggers: one of them found its event registered. */
  lemma DispatchSound(io: Io, fd: nat, b: Bits, works: bool)
    requires Agree(io) && Known(io, fd)
    ensures Sound(io, ActDispatch(fd, b, works), DispatchOne(io, fd, b, works))
    ensures DispatchOne(io, fd, b, works).result == Returned(true) ==> DispatchOne(io, fd, b, works).fired != []
  {
    var e := DispatchOne(io, fd, b, works);
    var s := StateOf(io, fd);
    var inc := Incoming(b);
    if s.events * inc != {} && works {
      RightOp(io, fd);
      DispatchConsumes(io, fd, inc, Ctl(io.kernel, MaskOp(s.events - inc), fd, s.events - inc));
      ConsumingSound(io, ActDispatch(fd, b, works), e, fd, inc);
    } else {
      NothingSound(io, ActDispatch(fd, b, works), e);
    }
  }

  lemma DoSound(io: Io, a: Act)
    requires Agree(io) && Can(io, a)
    ensures Sound(io, a, Do(io, a))
  {
    match a
    case ActRegister(fd, k, c, works) => RegisterSound(io, fd, k, c, works);
    case ActUnregister(fd, k, works) => UnregisterSound(io, fd, k, works);
    case ActCancel(fd, k, works) => CancelSound(io, fd, k, works);
    case ActDispatch(fd, b, works) => DispatchSound(io, fd, b, works);
  }

  // ----- which registrations an action is about -----

  /** EPOLLIN, EPOLLOUT and EPOLLRDHUP wake the reader, the writer and whoever waits for the other end to
      close; an error or a hang-up wakes reader and writer. */
  predicate Hits(b: Bits, k: Kind) {
    match k
    case Read => b.inp || b.err || b.hup
    case Write => b.outp || b.err || b.hup
    case Close => b.rdhup
  }

  /** An action fires or drops these registrations of a descriptor, and leaves all others pending. */
  ghost predicate Settles(io: Io, e: Effect, fd: nat, kinds: set<Kind>, fires: bool) {
    && (forall r :: Pending(io, r) ==>
      && (r in e.fired <==> fires && r.fd == fd && r.kind in kinds)
      && (r in e.dropped <==> !fires && r.fd == fd && r.kind in kinds)
      && (Pending(e.io, r) <==> !(r.fd == fd && r.kind in kinds)))
    && (forall r :: r in e.fired || r in e.dropped || Pending(e.io, r) ==> Pending(io, r))
  }

  lemma FiredMembers(s: Async, inc: set<Kind>, r: Reg)
    ensures r in FiredBy(s, inc) <==> r.fd == s.fd && r.kind in s.events * inc && r.context == ContextFor(s, r.kind)
  {
  }

  lemma ConsumingSettles(io: Io, e: Effect, fd: nat, inc: set<Kind>, fires: bool)
    requires Agree(io) && Known(io, fd) && Consumes(io, e.io, fd, inc)
    requires e.fired == (if fires then FiredBy(StateOf(io, fd), inc) else [])
    requires e.dropped == (if fires then [] else FiredBy(StateOf(io, fd), inc))
    ensures Settles(io, e, fd, inc, fires)
  {
    hide Agree, FiredBy, Consumes;
    forall r
      ensures r in FiredBy(StateOf(io, fd), inc) <==> Pending(io, r) && r.fd == fd && r.kind in inc
      ensures Pending(e.io, r) <==> Pending(io, r) && !(r.fd == fd && r.kind in inc)
    {
      FiredMembers(StateOf(io, fd), inc, r);
      ConsumedHeld(io, e.io, fd, inc, r);
    }
  }

  /** cancelEvent() of a pending registration that the kernel takes back fires it, unregisterEvent() drops
      it, and nothing else is touched. */
  lemma TakenBack(io: Io, fd: nat, k: Kind)
    requires Agree(io) && Known(io, fd) && k in StateOf(io, fd).events
    ensures var e := Do(io, ActCancel(fd, k, true));
            e.result == Returned(true) && Settles(io, e, fd, {k}, true)
    ensures var e := Do(io, ActUnregister(fd, k, true));
            e.result == Returned(true) && Settles(io, e, fd, {k}, false)
  {
    hide Agree, CtlFits;
    RightOp(io, fd);
    CancelSettles(io, fd, k);
    UnregisterSettles(io, fd, k);
  }

  lemma CancelSettles(io: Io, fd: nat, k: Kind)
    requires Agree(io) && Known(io, fd) && k in StateOf(io, fd).events
    ensures Do(io, ActCancel(fd, k, true)).result == Returned(true)
    ensures Settles(io, Do(io, ActCancel(fd, k, true)), fd, {k}, true)
  {
    hide Settles, Agree;
    RightOp(io, fd);
    var left := StateOf(io, fd).events - {k};
    var kernel := Ctl(io.kernel, MaskOp(left), fd, left);
    assert k in StateOf(io, fd).events * {k};
    DispatchConsumes(io, fd, {k}, kernel);
    CancelIsDispatch(io.(kernel := kernel), fd, k);
    ConsumingSettles(io, Do(io, ActCancel(fd, k, true)), fd, {k}, true);
  }

  lemma UnregisterSettles(io: Io, fd: nat, k: Kind)
    requires Agree(io) && Known(io, fd) && k in StateOf(io, fd).events
    ensures Do(io, ActUnregister(fd, k, true)).result == Returned(true)
    ensures Settles(io, Do(io, ActUnregister(fd, k, true)), fd, {k}, false)
  {
    hide Settles, Agree;
    RightOp(io, fd);
    var s := StateOf(io, fd);
    CountKinds(s.events * {k});
    assert AsyncOk(s) && s.fd == fd by { KnownOk(io, fd); }
    assert WithContext(s.(events := s.events - {k}), k, EMPTY) == Consumed(s, {k});
    assert FiredBy(s, {k}) == [Reg(fd, k, ContextFor(s, k))];
    ConsumingSettles(io, Do(io, ActUnregister(fd, k, true)), fd, {k}, false);
  }

  lemma KnownOk(io: Io, fd: nat)
    requires Agree(io) && Known(io, fd)
    ensures AsyncOk(StateOf(io, fd)) && StateOf(io, fd).fd == fd
  {
  }

  lemma HitsAreIncoming(b: Bits, k: Kind)
    ensures k in Incoming(b) <==> Hits(b, k)
  {
  }

  lemma DispatchSettles(io: Io, fd: nat, b: Bits)
    requires Agree(io) && Known(io, fd) && StateOf(io, fd).events * Incoming(b) != {}
    ensures var e := Do(io, ActDispatch(fd, b, true));
            && e.dropped == [] && e.result == Returned(true) && Settles(io, e, fd, Incoming(b), true)
  {
    hide Settles, Agree, Incoming;
    var inc := Incoming(b);
    RightOp(io, fd);
    var left := StateOf(io, fd).events - inc;
    DispatchConsumes(io, fd, inc, Ctl(io.kernel, MaskOp(left), fd, left));
    ConsumingSettles(io, Do(io, ActDispatch(fd, b, true)), fd, inc, true);
  }

  /** An event that the kernel reports, and whose new mask it accepts, fires exactly those pending registrations
      of its descriptor that its bits are about, and leaves every other registration alone. */
  lemma FiresByBits(io: Io, fd: nat, b: Bits, r: Reg)
    requires Agree(io) && Known(io, fd)
    ensures var e := Do(io, ActDispatch(fd, b, true));
            && (r in e.fired <==> Pending(io, r) && r.fd == fd && Hits(b, r.kind))
            && (Pending(e.io, r) <==> Pending(io, r) && !(r.fd == fd && Hits(b, r.kind)))
            && e.dropped == [] && e.result != Threw
  {
    hide Agree, Incoming, Hits;
    HitsAreIncoming(b, r.kind);
    assert r.kind in StateOf(io, fd).events * Incoming(b) <==> r.kind in StateOf(io, fd).events && Hits(b, r.kind);
    if StateOf(io, fd).events * Incoming(b) != {} { DispatchSettles(io, fd, b); }
  }

  /** What the kernel refuses changes nothing, and is reported exactly if there was something to do. */
  lemma RefusedChangesNothing(io: Io, fd: nat, b: Bits, k: Kind)
    requires Known(io, fd)
    ensures var e := Do(io, ActDispatch(fd, b, false));
            && e.io == io && e.fired == [] && e.dropped == []
            && (e.result == Threw <==> exists j :: j in StateOf(io, fd).events && Hits(b, j))
    ensures var e := Do(io, ActCancel(fd, k, false));
            && e.io == io && e.fired == [] && e.dropped == []
            && e.result == if k in StateOf(io, fd).events then Threw else Returned(false)
    ensures var e := Do(io, ActUnregister(fd, k, false));
            && e.io == io && e.fired == [] && e.dropped == []
            && e.result == if k in StateOf(io, fd).events then Threw else Returned(false)
  {
    var s := StateOf(io, fd);
    if s.events * Incoming(b) != {} {
      var j :| j in s.events * Incoming(b);
      HitsAreIncoming(b, j);
    }
    if j :| j in s.events && Hits(b, j) {
      HitsAreIncoming(b, j);
      assert j in s.events * Incoming(b);
    }
  }

  /** A manager and everything it has done. */
  datatype History = History(io: Io, made: seq<Reg>, fired: seq<Reg>, dropped: seq<Reg>)

  function Extend(h: History, a: Act): History
    requires Can(h.io, a)
  {
    var e := Do(h.io, a);
    History(e.io, Made(a, e) + h.made, e.fired + h.fired, e.dropped + h.dropped)
  }

  predicate Follows(h: History, a: Act, h': History) {
    Can(h.io, a) && h' == Extend(h, a)
  }

  ghost predicate Leads(h: History, h': History) { exists a :: Follows(h, a, h') }

  ghost predicate IsRun(hs: seq<History>) {
    && hs != []
    && hs[0] == History(Io([], map[], 0), [], [], [])
    && forall i :: 0 < i < |hs| ==> Leads(hs[i - 1], hs[i])
  }

  lemma {:induction false} TimesConcat(s: seq<Reg>, t: seq<Reg>, r: Reg)
    ensures Times(s + t, r) == Times(s, r) + Times(t, r)
  {
    if s == [] { assert s + t == t; }
    else { assert (s + t)[1..] == s[1..] + t; TimesConcat(s[1..], t, r); }
  }

  ghost predicate Accounted(h: History) {
    && Agree(h.io)
    && forall r :: Times(h.made, r) == Held(h.io, r) + Times(h.fired, r) + Times(h.dropped, r)
  }

  lemma ExtendAccounted(h: History, a: Act)
    requires Accounted(h) && Can(h.io, a)
    ensures Accounted(Extend(h, a))
  {
    DoSound(h.io, a);
    var e := Do(h.io, a);
    forall r
      ensures Times(Extend(h, a).made, r) ==
              Held(e.io, r) + Times(Extend(h, a).fired, r) + Times(Extend(h, a).dropped, r)
    {
      TimesConcat(Made(a, e), h.made, r);
      TimesConcat(e.fired, h.fired, r);
      TimesConcat(e.dropped, h.dropped, r);
      assert Held(h.io, r) + Times(Made(a, e), r) == Held(e.io, r) + Times(e.fired, r) + Times(e.dropped, r);
    }
  }

  /** In every run the masks, the counter and the kernel agree, and every registration ever made
      is pending, or has been scheduled, or has been unregistered: exactly one of the three, once. */
  lemma {:induction false} EveryRegistrationAccountedFor(hs: seq<History>, i: nat)
    requires IsRun(hs) && i < |hs|
    ensures Accounted(hs[i])
  {
    if i > 0 {
      EveryRegistrationAccountedFor(hs, i - 1);
      var a :| Follows(hs[i - 1], a, hs[i]);
      ExtendAccounted(hs[i - 1], a);
    }
  }

  /** The counter that stopping() reads is zero exactly when nothing is pending, and then
      the kernel watches nothing. */
  lemma CountZeroMeansIdle(hs: seq<History>, i: nat)
    requires IsRun(hs) && i < |hs|
    ensures hs[i].io.count == 0 <==> forall r :: !Pending(hs[i].io, r)
    ensures hs[i].io.count == 0 ==> hs[i].io.kernel == map[]
  {
    EveryRegistrationAccountedFor(hs, i);
    var io := hs[i].io;
    SumZero(io.states, Events);
    if io.count != 0 {
      var j :| 0 <= j < |io.states| && io.states[j].Some? && io.states[j].value.events != {};
      var k :| k in io.states[j].value.events;
      assert Pending(io, Reg(j + 1, k, ContextFor(io.states[j].value, k)));
    } else {
      forall fd ensures fd !in io.kernel { assert fd in io.kernel <==> MaskOf(io, fd) != {}; }
    }
  }

  // ----- the object -----

  /** An element of the array filled by epoll_wait(); `works` is the fate of the epoll_ctl() that follows. */
  datatype Ready = Tickled | Ready(fd: nat, bits: Bits, works: bool)

  predicate Deliverable(io: Io, r: Ready) { r.Ready? ==> Known(io, r.fd) }

  /** A pass over the array: the state afterwards, what was scheduled, whether an error is rethrown. */
  function DispatchAll(io: Io, events: seq<Ready>): (r: (Io, seq<Reg>, bool))
    requires forall i :: 0 <= i < |events| ==> Deliverable(io, events[i])
    ensures forall fd :: Known(io, fd) ==> Known(r.0, fd)
  {
    if events == [] then (io, [], false)
    else
      var (io1, fired, threw) := DispatchAll(io, events[..|events| - 1]);
      match events[|events| - 1]
      case Tickled => (io1, fired, threw)
      case Ready(fd, b, works) =>
        assert Deliverable(io, events[|events| - 1]);
        var e := DispatchOne(io1, fd, b, works);
        (e.io, fired + e.fired, threw || e.result == Threw)
  }

  lemma NothingDispatched(io: Io)
    ensures DispatchAll(io, []) == (io, [], false)
  {
  }

  lemma DispatchSnoc(io: Io, events: seq<Ready>, i: nat)
    requires i < |events| && forall j :: 0 <= j < |events| ==> Deliverable(io, events[j])
    ensures var (io1, fired, threw) := DispatchAll(io, events[..i]);
            if events[i].Tickled? then DispatchAll(io, events[..i + 1]) == (io1, fired, threw)
            else
              && Known(io1, events[i].fd)
              && var e := DispatchOne(io1, events[i].fd, events[i].bits, events[i].works);
                 DispatchAll(io, events[..i + 1]) == (e.io, fired + e.fired, threw || e.result == Threw)
  {
    assert events[..i + 1][..i] == events[..i];
    assert Deliverable(io, events[i]);
  }

  /** An error on one event neither stops the pass nor loses a registration. */
  lemma {:induction false} DispatchAllSound(io: Io, events: seq<Ready>)
    requires Agree(io) && forall i :: 0 <= i < |events| ==> Deliverable(io, events[i])
    ensures Agree(DispatchAll(io, events).0)
    ensures forall r :: Held(io, r) == Held(DispatchAll(io, events).0, r) + Times(DispatchAll(io, events).1, r)
    ensures DispatchAll(io, events).2 ==> exists i :: 0 <= i < |events| && events[i].Ready? && !events[i].works
  {
    if events != [] {
      var last := events[|events| - 1];
      DispatchAllSound(io, events[..|events| - 1]);
      var (io1, fired, threw) := DispatchAll(io, events[..|events| - 1]);
      assert threw ==> exists i :: 0 <= i < |events| && events[i].Ready? && !events[i].works;
      if last.Ready? {
        assert Deliverable(io, events[|events| - 1]);
        DispatchSound(io1, last.fd, last.bits, last.works);
        var e := DispatchOne(io1, last.fd, last.bits, last.works);
        forall r ensures Held(io, r) == Held(e.io, r) + Times(fired + e.fired, r) {
          TimesConcat(fired, e.fired, r);
          assert Held(io1, r) + Times(Made(ActDispatch(last.fd, last.bits, last.works), e), r) ==
            Held(e.io, r) + Times(e.fired, r) + Times(e.dropped, r);
        }
      }
    }
  }

  /** An event of the array is about a registration, and the kernel accepts what follows from it. */
  predicate About(ev: Ready, r: Reg) { ev.Ready? && ev.works && ev.fd == r.fd && Hits(ev.bits, r.kind) }

  predicate Reported(events: seq<Ready>, r: Reg) { exists i :: 0 <= i < |events| && About(events[i], r) }

  lemma ReportedSnoc(events: seq<Ready>, last: Ready, r: Reg)
    ensures Reported(events + [last], r) <==> Reported(events, r) || About(last, r)
  {
    hide About;
    var all := events + [last];
    if Reported(events, r) { var i :| 0 <= i < |events| && About(events[i], r); assert About(all[i], r); }
    if About(last, r) { assert About(all[|events|], r); }
  }

  /** A pass over what epoll_wait() returned fires a pending registration exactly if one of the events
      is about it, and leaves it pending exactly if none is. */
  lemma {:induction false} PassFiresByBits(io: Io, events: seq<Ready>, r: Reg)
    requires Agree(io) && forall i :: 0 <= i < |events| ==> Deliverable(io, events[i])
    ensures var (io', fired, _) := DispatchAll(io, events);
            && (r in fired <==> Pending(io, r) && Reported(events, r))
            && (Pending(io', r) <==> Pending(io, r) && !Reported(events, r))
  {
    hide Agree, Hits, Pending, DispatchOne, Reported;
    if events == [] {
      assert !Reported([], r) by { NoneReported(r); }
    } else {
      var n := |events| - 1;
      var last := events[n];
      PassFiresByBits(io, events[..n], r);
      DispatchAllSound(io, events[..n]);
      var (io1, fired, threw) := DispatchAll(io, events[..n]);
      assert events == events[..n] + [last];
      ReportedSnoc(events[..n], last, r);
      if last.Ready? {
        assert Deliverable(io, events[n]);
        if last.works { FiresByBits(io1, last.fd, last.bits, r); }
        else { RefusedChangesNothing(io1, last.fd, last.bits, Read); }
      }
    }
  }

  lemma NoneReported(r: Reg)
    ensures !Reported([], r)
  {
  }

  /** What a pass has scheduled: what was pending and is the subject of an event. */
  ghost predicate FiredAsReported(io: Io, events: seq<Ready>, fired: seq<Reg>) {
    forall r :: r in fired <==> Pending(io, r) && exists i :: 0 <= i < |events| && About(events[i], r)
  }

  lemma PassIsRight(io: Io, events: seq<Ready>)
    requires Agree(io) && forall i :: 0 <= i < |events| ==> Deliverable(io, events[i])
    ensures FiredAsReported(io, events, DispatchAll(io, events).1)
  {
    hide Agree, Pending, DispatchAll, Deliverable;
    forall r
      ensures r in DispatchAll(io, events).1 <==>
              Pending(io, r) && exists i :: 0 <= i < |events| && About(events[i], r)
    {
      PassFiresByBits(io, events, r);
    }
  }

  class IOManager {
    var states: seq<Option<Async>>
    var kernel: map<nat, set<Kind>>
    var count: int

    function View(): Io
      reads this
    {
      Io(states, kernel, count)
    }

    constructor ()
      ensures View() == Io([], map[], 0) && Agree(View())
    {
      states, kernel, count := [], map[], 0;
    }

    /** Under the manager's mutex: the state of the descriptor, which is made on first use. */
    method FindState(fd: nat)
      requires Agree(View()) && fd > 0
      modifies this`states
      ensures Agree(View()) && View() == Grown(old(View()), fd)
      ensures MaskOf(View(), fd) == old(MaskOf(View(), fd))
    {
      GrownAgrees(View(), fd);
      if |states| < fd { states := states + seq(fd * 3 / 2 - |states|, _ => None); }
      if states[fd - 1] == None { states := states[fd - 1 := Some(Async(fd, {}, EMPTY, EMPTY, EMPTY))]; }
    }

    method RegisterEvent(fd: nat, k: Kind, c: Context, works: bool) returns (r: Result)
      requires Agree(View()) && fd > 0 && k !in MaskOf(View(), fd) && Armed(c)
      modifies this
      ensures Agree(View()) && View() == Register(old(View()), fd, k, c, works).io
      ensures r == if works then Returned(true) else Threw
    {
      FindState(fd);
      ArmAgrees(View(), fd, k, c, works);
      ClearIsEmpty(View(), fd, k);
      r := ArmState(fd, k, c, works);
    }

    /** The part of registerEvent() under the mutex of the state, and what it asserts. */
    method ArmState(fd: nat, k: Kind, c: Context, works: bool) returns (r: Result)
      requires Known(View(), fd) && k !in StateOf(View(), fd).events
      requires StateOf(View(), fd).fd == fd && ContextFor(StateOf(View(), fd), k) == EMPTY
      modifies this
      ensures View() == Arm(old(View()), fd, k, c, works).io && r == Arm(old(View()), fd, k, c, works).result
    {
      var s := states[fd - 1].value;
      assert s.fd == fd && k !in s.events;
      var op := if s.events == {} then Add else Mod;
      if !works || !CtlFits(kernel, op, fd) { return Threw; }
      kernel := Ctl(kernel, op, fd, s.events + {k});
      count := count + 1;
      assert ContextFor(s, k) == EMPTY;
      states := states[fd - 1 := Some(WithContext(s.(events := s.events + {k}), k, c))];
      r := Returned(true);
    }

    method TriggerEvent(fd: nat, k: Kind) returns (triggered: bool, fired: seq<Reg>)
      requires Known(View(), fd)
      modifies this
      ensures View() == Trigger(old(View()), fd, k).0 && fired == Trigger(old(View()), fd, k).1
      ensures triggered == (fired != [])
    {
      var s := states[fd - 1].value;
      if k !in s.events { return false, []; }
      count := count - 1;
      var c := ContextFor(s, k);
      states := states[fd - 1 := Some(WithContext(s.(events := s.events - {k}), k, SwappedOut(c)))];
      return true, [Reg(fd, k, c)];
    }

    method CancelEvent(fd: nat, k: Kind, works: bool) returns (r: Result, fired: seq<Reg>)
      requires Agree(View()) && fd > 0
      modifies this
      ensures Agree(View()) && View() == Cancel(old(View()), fd, k, works).io
      ensures r == Cancel(old(View()), fd, k, works).result && fired == Cancel(old(View()), fd, k, works).fired
    {
      CancelSound(View(), fd, k, works);
      fired := [];
      if |states| < fd || states[fd - 1] == None { return Returned(false), []; }
      var s := states[fd - 1].value;
      assert s.fd == fd;
      if k !in s.events { return Returned(false), []; }
      var left := s.events - {k};
      if !works || !CtlFits(kernel, MaskOp(left), fd) { return Threw, []; }
      kernel := Ctl(kernel, MaskOp(left), fd, left);
      var _, done := TriggerEvent(fd, k);
      return Returned(true), done;
    }

    method UnregisterEvent(fd: nat, k: Kind, works: bool) returns (r: Result)
      requires Agree(View()) && fd > 0
      modifies this
      ensures Agree(View()) && View() == Unregister(old(View()), fd, k, works).io
      ensures r == Unregister(old(View()), fd, k, works).result
    {
      UnregisterSound(View(), fd, k, works);
      if |states| < fd || states[fd - 1] == None { return Returned(false); }
      var s := states[fd - 1].value;
      assert s.fd == fd;
      if k !in s.events { return Returned(false); }
      var left := s.events - {k};
      if !works || !CtlFits(kernel, MaskOp(left), fd) { return Threw; }
      kernel := Ctl(kernel, MaskOp(left), fd, left);
      count := count - 1;
      states := states[fd - 1 := Some(WithContext(s.(events := left), k, EMPTY))];
      return Returned(true);
    }

    method DispatchEvent(fd: nat, b: Bits, works: bool) returns (threw: bool, fired: seq<Reg>)
      requires Agree(View()) && Known(View(), fd)
      modifies this
      ensures Agree(View()) && View() == DispatchOne(old(View()), fd, b, works).io
      ensures fired == DispatchOne(old(View()), fd, b, works).fired
      ensures threw == (DispatchOne(old(View()), fd, b, works).result == Threw)
    {
      DispatchSound(View(), fd, b, works);
      var s := states[fd - 1].value;
      var inc := Incoming(b);
      if s.events * inc == {} { return false, []; }
      var left := s.events - inc;
      if !works || !CtlFits(kernel, MaskOp(left), fd) { return true, []; }
      kernel := Ctl(kernel, MaskOp(left), fd, left);
      var triggered, f1, f2, f3 := false, [], [], [];
      if Read in inc { triggered, f1 := TriggerEvent(fd, Read); }
      if Write in inc { var t; t, f2 := TriggerEvent(fd, Write); triggered := t || triggered; }
      if Close in inc { var t; t, f3 := TriggerEvent(fd, Close); triggered := t || triggered; }
      fired := f1 + f2 + f3;
      assert fired == DispatchOne(old(View()), fd, b, works).fired;
      assert triggered;
      threw := false;
    }

    /** The loop of idle() over what epoll_wait() returned. */
    method DispatchEvents(events: seq<Ready>) returns (threw: bool, fired: seq<Reg>)
      requires Agree(View()) && forall i :: 0 <= i < |events| ==> Deliverable(View(), events[i])
      modifies this
      ensures Agree(View()) && (View(), fired, threw) == DispatchAll(old(View()), events)
    {
      hide DispatchAll, DispatchOne, Agree;
      threw, fired := false, [];
      ghost var io := View();
      NothingDispatched(io);
      var i := 0;
      while i < |events|
        invariant 0 <= i <= |events|
        invariant Agree(View()) && (View(), fired, threw) == DispatchAll(io, events[..i])
      {
        DispatchSnoc(io, events, i);
        match events[i] {
          case Tickled =>
          case Ready(fd, bits, works) =>
            var t, f := DispatchEvent(fd, bits, works);
            threw, fired := threw || t, fired + f;
        }
        i := i + 1;
      }
      assert events[..i] == events;
    }

    /** A pass over the events: what was pending before is pending after or has been scheduled, as the bits say. */
    method Dispatch(events: seq<Ready>) returns (threw: bool, fired: seq<Reg>)
      requires Agree(View()) && forall i :: 0 <= i < |events| ==> Deliverable(View(), events[i])
      modifies this
      ensures Agree(View()) && (View(), fired, threw) == DispatchAll(old(View()), events)
      ensures forall r :: old(Held(View(), r)) == Held(View(), r) + Times(fired, r)
      ensures FiredAsReported(old(View()), events, fired)
    {
      hide FiredAsReported;
      PassIsRight(View(), events);
      DispatchAllSound(View(), events);
      threw, fired := DispatchEvents(events);
    }
  }
}

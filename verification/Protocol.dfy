/** The device protocol over whole runs, hand-offs included: commands alternate with their answers. */
module Protocol {
  import opened Basics
  import opened Forests
  import opened Addresses
  import opened SemQueues
  import opened Machine
  import opened Invariants
  import opened Soundness
  import opened Killing
  import opened Terminating
  import opened Guarded
  import opened Exactness
  import opened Runs
  import opened Scenes

  // ---- what is kept

  /** Device d is idle, or has one command under way and one process queued on sem_sync. */
  predicate DeviceOrder(val: map<Sem, int>, queue: map<Sem, seq<Pid>>, waiting: map<Dev, Pid>, d: Dev) {
    && Sync(d) in val && val[Sync(d)] == 0
    && Mut(d) in val && val[Mut(d)] == (if d in waiting then 0 else 1)
    && |Get(queue, Sync(d))| == (if d in waiting then 1 else 0)
    && (Mut(d) in queue ==> d in waiting)
  }

  ghost predicate InProtocol(s: State) {
    !s.mode.Fault? && forall d: Dev :: DeviceOrder(s.val, s.queue, s.waiting, d)
  }

  /** Killing p takes somebody off sem_sync, or is taken for a kill in mid-operation. */
  predicate Strikes(s: State, p: Pid) {
    && p in s.wait
    && (s.wait[p].on.Sync? || (s.wait[p].on.Mut? && s.wait[p].on.d in s.waiting && s.waiting[s.wait[p].on.d] == p))
  }

  /** No victim is struck in mid-operation; a device interrupt comes only for a device with a command under way, and
      a hand-off only while there is a current process. */
  ghost predicate ProtocolGuard(s: State, st: Step) {
    Enabled(s, st) &&
    match st
    case STerminate(t) => forall p :: p in Members(Subtree(s.tree, t)) ==> !Strikes(s, p)
    case SDevice(d) => d in s.waiting && (Mut(d) in s.queue ==> s.cur.Some?)
    case _ => true
  }

  /** The two states agree on device d. */
  predicate SameDevice(s: State, t: State, d: Dev) {
    && (Sync(d) in s.val ==> Sync(d) in t.val && t.val[Sync(d)] == s.val[Sync(d)])
    && (Mut(d) in s.val ==> Mut(d) in t.val && t.val[Mut(d)] == s.val[Mut(d)])
    && Get(t.queue, Sync(d)) == Get(s.queue, Sync(d)) && (Mut(d) in t.queue ==> Mut(d) in s.queue)
    && (d in t.waiting <==> d in s.waiting)
  }

  lemma KeepsProtocol(s: State, t: State)
    requires InProtocol(s) && !t.mode.Fault? && forall d: Dev :: SameDevice(s, t, d)
    ensures InProtocol(t)
  {
    forall d: Dev ensures DeviceOrder(t.val, t.queue, t.waiting, d) {
      assert SameDevice(s, t, d) && DeviceOrder(s.val, s.queue, s.waiting, d);
    }
  }

  lemma BlockSame(s: State, k: Sem, op: Op)
    requires s.cur.Some? && !OfDevice(k)
    ensures var t := Block(s, k, op); !t.mode.Fault? && forall d: Dev :: SameDevice(s, t, d)
  {
    BlockEffect(s, k, op);
  }

  /** P and V on any other word leave the devices alone. */
  lemma OperateSame(s: State, k: Sem, op: Op)
    requires s.cur.Some? && k in s.val && !OfDevice(k)
    ensures var t := Operate(s, k, op);
      (t.mode.Fault? ==> s.mode.Fault?) && forall d: Dev :: SameDevice(s, t, d)
  {
    if !Returns(s, k, op) {
      BlockSame(s, k, op);
    }
  }

  lemma OperateProtocol(s: State, k: Sem, op: Op)
    requires InProtocol(s) && s.cur.Some? && k in s.val && !OfDevice(k)
    ensures InProtocol(Operate(s, k, op))
  {
    OperateSame(s, k, op);
    KeepsProtocol(s, Operate(s, k, op));
  }

  lemma ScheduleProtocol(s: State)
    requires InProtocol(s)
    ensures InProtocol(Schedule(s))
  {
    ScheduleFrame(s);
    KeepsProtocol(s, Schedule(s));
  }

  lemma IssueProtocol(s: State, a: u32)
    requires InProtocol(s) && KernelWords(s) && s.cur.Some? && ResolveDeviceAddress(a) != -1
    requires NoneEmpty(s.queue)
    ensures InProtocol(DoIO(s, a))
  {
    var d := ResolveDeviceAddress(a) as Dev;
    var t := DoIO(s, a);
    assert DeviceOrder(s.val, s.queue, s.waiting, d);
    DoIOBlocks(s, a);
    if d in s.waiting {
      BlockEffect(s, Mut(d), OpP);
    } else {
      BlockEffect(Commanded(s, d), Sync(d), OpP);
    }
    forall e: Dev ensures DeviceOrder(t.val, t.queue, t.waiting, e) {
      assert DeviceOrder(s.val, s.queue, s.waiting, e);
    }
  }

  lemma {:induction false} WakeAllDevices(s: State, d: Dev)
    ensures SameDevice(s, WakeAll(s), d) && WakeAll(s).mode == s.mode && WakeAll(s).val == s.val
    decreases |Get(s.queue, Clock)|
  {
    if Get(s.queue, Clock) != [] {
      MinusShorter(s.queue[Clock]);
      WakeAllDevices(WakeOne(s), d);
    }
  }

  lemma TickProtocol(s: State)
    requires InProtocol(s)
    ensures InProtocol(Tick(s))
  {
    forall d: Dev ensures SameDevice(s, Tick(s), d) && Tick(s).mode == s.mode {
      WakeAllDevices(s, d);
    }
    WakeAllDevices(s, 0);
    KeepsProtocol(s, Tick(s));
  }

  // ---- device interrupts

  lemma ServedProtocol(s: State, d: Dev)
    requires InProtocol(s) && d in s.waiting && Mut(d) !in s.queue
    requires Mut(d) in s.val && Get(s.queue, Sync(d)) != []
    ensures InProtocol(Guarded.Served(s, d))
  {
    var t := Guarded.Served(s, d);
    assert DeviceOrder(s.val, s.queue, s.waiting, d);
    var p := s.queue[Sync(d)][0];
    assert s.queue[Sync(d)] == [p] && Minus([p], {p}) == [];
    forall e: Dev ensures DeviceOrder(t.val, t.queue, t.waiting, e) {
      assert DeviceOrder(s.val, s.queue, s.waiting, e);
    }
  }

  /** The state of the devices once q is to be served next by d. */
  lemma HandOffState(s: State, d: Dev, q: Pid)
    requires InProtocol(s) && d in s.waiting
    ensures Get(s.queue, Sync(d)) != []
    ensures var h := HandOff(s, d, q);
      && h.cur == s.cur && h.val == s.val && h.waiting == s.waiting[d := q] && Get(h.queue, Sync(d)) == []
      && forall e: Dev :: (Mut(e) in h.queue ==> Mut(e) in s.queue)
                       && (e != d ==> Get(h.queue, Sync(e)) == Get(s.queue, Sync(e)))
  {
    assert DeviceOrder(s.val, s.queue, s.waiting, d);
    var p := s.queue[Sync(d)][0];
    assert s.queue[Sync(d)] == [p] && Minus([p], {p}) == [];
  }

  lemma HandOffProtocol(s: State, d: Dev, q: Pid)
    requires InProtocol(s) && d in s.waiting && s.cur.Some?
    ensures Get(s.queue, Sync(d)) != [] && InProtocol(Block(HandOff(s, d, q), Sync(d), OpP))
  {
    HandOffState(s, d, q);
    var h := HandOff(s, d, q);
    var t := Block(h, Sync(d), OpP);
    BlockEffect(h, Sync(d), OpP);
    forall e: Dev ensures DeviceOrder(t.val, t.queue, t.waiting, e) {
      assert DeviceOrder(s.val, s.queue, s.waiting, e);
    }
  }

  lemma DeviceProtocolExact(s: State, d: Dev)
    requires Sane(s) && InProtocol(s)
    ensures InProtocol(DeviceInterrupt(s, d)) <==> d in s.waiting && (Mut(d) in s.queue ==> s.cur.Some?)
  {
    assert DeviceOrder(s.val, s.queue, s.waiting, d);
    if d in s.waiting {
      if Mut(d) in s.queue {
        var q := s.queue[Mut(d)][0];
        InterruptHandsOff(s, d);
        HandOffState(s, d, q);
        if s.cur.Some? {
          HandOffProtocol(s, d, q);
        }
      } else {
        ServedProtocol(s, d);
        InterruptServes(s, d);
      }
    }
  }

  // ---- termination

  /** Nobody in x is struck by way of device d. */
  ghost predicate Spared(s: State, x: set<Pid>, d: Dev) {
    forall p :: p in x && p in s.wait && OfDevice(s.wait[p].on) && s.wait[p].on.d == d ==> !Strikes(s, p)
  }

  /** The process queued on sem_sync of a busy device. */
  lemma Queuer(s: State, d: Dev) returns (c: Pid)
    requires Sane(s) && DeviceOrder(s.val, s.queue, s.waiting, d) && d in s.waiting
    ensures Get(s.queue, Sync(d)) == [c] && c in s.wait && s.wait[c].on == Sync(d)
    ensures forall p :: p in s.wait && s.wait[p].on == Sync(d) ==> p == c
  {
    c := s.queue[Sync(d)][0];
    assert s.queue[Sync(d)] == [c];
    assert c in s.queue[Sync(d)];
  }

  lemma IdleSpared(s: State, x: set<Pid>, d: Dev)
    requires Sane(s) && DeviceOrder(s.val, s.queue, s.waiting, d) && d !in s.waiting
    ensures Spared(s, x, d)
  {
    forall p | p in s.wait && OfDevice(s.wait[p].on) && s.wait[p].on.d == d ensures !Strikes(s, p) {
      assert s.wait[p].on in s.queue;
    }
  }

  lemma BusySpared(s: State, x: set<Pid>, d: Dev, c: Pid)
    requires d in s.waiting && c in s.wait && s.wait[c].on == Sync(d)
    requires forall p :: p in s.wait && s.wait[p].on == Sync(d) ==> p == c
    ensures Spared(s, x, d) <==> c !in x && !Aborted(s.wait, s.waiting, x, d)
  {
    if c in x {
      assert Strikes(s, c);
    } else if Aborted(s.wait, s.waiting, x, d) {
      assert Strikes(s, s.waiting[d]);
    } else {
      forall p | p in x && p in s.wait && OfDevice(s.wait[p].on) && s.wait[p].on.d == d ensures !Strikes(s, p) {
      }
    }
  }

  lemma KilledDevice(s: State, x: set<Pid>, dead: seq<Pid>, r: State, d: Dev)
    requires Sane(s) && DeviceOrder(s.val, s.queue, s.waiting, d) && Reaped(s, x, dead, r.tree, r)
    ensures DeviceOrder(r.val, r.queue, r.waiting, d) <==> Spared(s, x, d)
  {
    PurgedGet(s.queue, x, Sync(d));
    PurgedGet(s.queue, x, Mut(d));
    if d in s.waiting {
      var c := Queuer(s, d);
      BusySpared(s, x, d, c);
      assert Minus([c], x) == if c in x then [] else [c];
    } else {
      IdleSpared(s, x, d);
      assert Get(s.queue, Sync(d)) == [];
    }
  }

  lemma AllSpared(s: State, x: set<Pid>)
    ensures (forall d: Dev :: Spared(s, x, d)) <==> forall p :: p in x ==> !Strikes(s, p)
  {
    if p :| p in x && Strikes(s, p) {
      assert !Spared(s, x, s.wait[p].on.d);
    }
  }

  lemma KilledDevices(s: State, x: set<Pid>, dead: seq<Pid>, r: State)
    requires Sane(s) && InProtocol(s) && Reaped(s, x, dead, r.tree, r)
    ensures InProtocol(r) <==> forall d: Dev :: Spared(s, x, d)
  {
    forall d: Dev ensures DeviceOrder(r.val, r.queue, r.waiting, d) <==> Spared(s, x, d) {
      assert DeviceOrder(s.val, s.queue, s.waiting, d);
      KilledDevice(s, x, dead, r, d);
    }
  }

  lemma ScheduleProtocolExact(s: State)
    requires !s.mode.Fault?
    ensures InProtocol(Schedule(s)) <==> InProtocol(s)
  {
    ScheduleFrame(s);
  }

  lemma TerminateProtocolExact(s: State, t: Pid)
    requires Sane(s) && InProtocol(s)
    ensures InProtocol(Terminate(s, t)) <==> forall p :: p in Members(Subtree(s.tree, t)) ==> !Strikes(s, p)
  {
    KilledEffect(s, t);
    ScheduleProtocolExact(Killed(s, t));
    KilledDevices(s, Members(Subtree(s.tree, t)), Postorder(Subtree(s.tree, t)), Killed(s, t));
    AllSpared(s, Members(Subtree(s.tree, t)));
  }

  // ---- whole runs

  /** The device protocol survives a step if and only if its guard holds. */
  lemma ProtocolExact(s: State, st: Step)
    requires Sane(s) && InProtocol(s) && Enabled(s, st)
    ensures InProtocol(Next(s, st)) <==> ProtocolGuard(s, st)
  {
    match st
    case SCreate => CreateProtocol(s);
    case STerminate(t) => TerminateProtocolExact(s, t);
    case SP(k) => OperateProtocol(s, k, OpP);
    case SV(k) => OperateProtocol(s, k, OpV);
    case SDoIO(a) => DoIOProtocol(s, a);
    case SClockWait => ClockWaitProtocol(s);
    case STimeslice => TimesliceProtocol(s);
    case STick => TickProtocol(s);
    case SDevice(d) => DeviceProtocolExact(s, d);
    case SResume => ScheduleProtocol(s);
  }

  lemma CreateProtocol(s: State)
    requires InProtocol(s) && s.cur.Some?
    ensures InProtocol(Create(s))
  {
    KeepsProtocol(s, Create(s));
  }

  lemma DoIOProtocol(s: State, a: u32)
    requires Sane(s) && InProtocol(s) && s.cur.Some?
    ensures InProtocol(DoIO(s, a))
  {
    if ResolveDeviceAddress(a) == -1 {
      KeepsProtocol(s, DoIO(s, a));
    } else {
      IssueProtocol(s, a);
    }
  }

  lemma ClockWaitProtocol(s: State)
    requires Sane(s) && InProtocol(s) && s.cur.Some?
    ensures InProtocol(ClockWait(s))
  {
    KeepsProtocol(s, SoftUp(s));
    OperateProtocol(SoftUp(s), Clock, OpP);
  }

  lemma TimesliceProtocol(s: State)
    requires InProtocol(s) && s.cur.Some?
    ensures InProtocol(Timeslice(s))
  {
    KeepsProtocol(s, Preempted(s));
    ScheduleProtocol(Preempted(s));
  }

  /** Every step meets the guard of the protocol where it is taken. */
  ghost predicate IsProtocolRun(s: State, steps: seq<Step>)
    decreases |steps|
  {
    steps == [] || (ProtocolGuard(s, steps[0]) && IsProtocolRun(Next(s, steps[0]), steps[1..]))
  }

  lemma {:induction false} ProtocolRun(s: State, steps: seq<Step>)
    requires Sane(s) && InProtocol(s) && Traced(s) && IsProtocolRun(s, steps)
    ensures IsRun(s, steps) && InProtocol(After(s, steps)) && Traced(After(s, steps))
    decreases |steps|
  {
    if steps != [] {
      ProtocolExact(s, steps[0]);
      TracedStep(s, steps[0]);
      NextSane(s, steps[0]);
      ProtocolRun(Next(s, steps[0]), steps[1..]);
    }
  }

  lemma BootProtocol(words: map<u32, int>)
    ensures Sane(Boot(words)) && InProtocol(Boot(words)) && Traced(Boot(words))
  {
    BootInv(words);
    BootValsAre(words);
    BootDevices(InitialPool(), BootVals(words), words);
  }

  lemma BootDevices(pool: seq<Pid>, val: map<Sem, int>, words: map<u32, int>)
    requires pool != [] && AreBootVals(val, words)
    ensures InProtocol(Launch(pool, val)) && Traced(Launch(pool, val))
  {
  }

  /** A guarded run keeps to the protocol. */
  lemma {:induction false} GuardedIsProtocol(s: State, steps: seq<Step>)
    requires Inv(s) && IsGuardedRun(s, steps)
    ensures IsProtocolRun(s, steps)
    decreases |steps|
  {
    if steps != [] {
      GuardedStep(s, steps[0]);
      GuardExact(s, steps[0]);
      GuardedIsProtocol(Next(s, steps[0]), steps[1..]);
    }
  }

  lemma GuardedStep(s: State, st: Step)
    requires Inv(s) && Guard(s, st)
    ensures ProtocolGuard(s, st)
  {
    match st
    case STerminate(t) =>
      forall p | p in Members(Subtree(s.tree, t)) ensures !Strikes(s, p) {
        if p in s.wait && s.wait[p].on.Mut? {
          DeviceFacts(s, s.wait[p].on.d);
        }
      }
    case SDevice(d) => DeviceFacts(s, d);
    case _ =>
  }

  // ---- the history

  /** What the history says device d is doing: nothing, p's command, or it was given a command while busy or answered
      one it was not given. */
  datatype Status = Quiet | Busy(p: Pid) | Broken

  function Advance(st: Status, e: Event, d: Dev): Status {
    match e
    case Begin(c, p) => if c != d then st else if st == Quiet then Busy(p) else Broken
    case End(c, p) => if c != d then st else if st == Busy(p) then Quiet else Broken
    case _ => st
  }

  function Trace(log: seq<Event>, d: Dev): Status {
    if log == [] then Quiet else Advance(Trace(log[..|log| - 1], d), log[|log| - 1], d)
  }

  lemma TraceLogged(log: seq<Event>, e: Event, d: Dev)
    ensures Trace(log + [e], d) == Advance(Trace(log, d), e, d)
  {
  }

  /** The history agrees with waiting_process. */
  ghost predicate Traced(s: State) {
    forall d: Dev :: Trace(s.log, d) == if d in s.waiting then Busy(s.waiting[d]) else Quiet
  }

  predicate Silent(e: Event) { !e.Begin? && !e.End? }

  lemma LoggedTraced(s: State, e: Event)
    requires Traced(s) && Silent(e)
    ensures Traced(Logged(s, e))
  {
  }

  lemma ScheduleTraced(s: State)
    requires Traced(s)
    ensures Traced(Schedule(s))
  {
  }

  lemma BlockTraced(s: State, k: Sem, op: Op)
    requires Traced(s)
    ensures Traced(Block(s, k, op))
  {
    if s.cur.Some? {
      var t := Parked(s, k, op);
      assert t.waiting == s.waiting && t.log == s.log;
      ScheduleTraced(t);
    }
  }

  lemma OperateTraced(s: State, k: Sem, op: Op)
    requires Traced(s) && k in s.val
    ensures Traced(Operate(s, k, op))
  {
    if !Returns(s, k, op) {
      BlockTraced(s, k, op);
    } else if Get(s.queue, k) != [] {
      var p := s.queue[k][0];
      LoggedTraced(Readied(Removed(s, k, p), p), Done(PendingOp(s, p), k));
      LoggedTraced(Release(s, k), Done(op, k));
    } else {
      LoggedTraced(WithVal(s, k, if op.OpP? then s.val[k] - 1 else s.val[k] + 1), Done(op, k));
    }
  }

  lemma StartTraced(s: State, d: Dev, p: Pid)
    requires Traced(s) && d !in s.waiting
    ensures Traced(Start(s, d, p))
  {
  }

  lemma IssueTraced(s: State, d: Dev)
    requires Traced(s) && s.cur.Some? && Mut(d) in s.val && Sync(d) in s.val
    requires s.val[Mut(d)] == 1 ==> d !in s.waiting
    ensures Traced(IssueIO(s, d))
  {
    OperateTraced(s, Mut(d), OpP);
    if Returns(s, Mut(d), OpP) {
      var t := Operate(s, Mut(d), OpP);
      StartTraced(t, d, s.cur.value);
      OperateTraced(Start(t, d, s.cur.value), Sync(d), OpP);
    }
  }

  /** The hand-off: the answer to one process is followed by the command of the next. */
  lemma HandOffTraced(s: State, d: Dev, q: Pid)
    requires Traced(s) && d in s.waiting && Get(s.queue, Sync(d)) != []
    ensures Traced(HandOff(s, d, q))
  {
    var p := s.queue[Sync(d)][0];
    var l0 := s.log + [End(d, s.waiting[d])];
    var l1 := l0 + [Done(PendingOp(s, p), Sync(d))];
    var l2 := l1 + [Done(OpV, Sync(d))];
    var t := HandOff(s, d, q);
    assert t.log == l2 + [Begin(d, q)] && t.waiting == s.waiting[d := q];
    forall e: Dev ensures Trace(t.log, e) == if e in t.waiting then Busy(t.waiting[e]) else Quiet {
      TraceLogged(s.log, End(d, s.waiting[d]), e);
      TraceLogged(l0, Done(PendingOp(s, p), Sync(d)), e);
      TraceLogged(l1, Done(OpV, Sync(d)), e);
      TraceLogged(l2, Begin(d, q), e);
    }
  }

  lemma ServedTraced(s: State, d: Dev)
    requires Traced(s) && d in s.waiting && Mut(d) in s.val && Get(s.queue, Sync(d)) != []
    ensures Traced(Served(s, d))
  {
    var p := s.queue[Sync(d)][0];
    var l0 := s.log + [End(d, s.waiting[d])];
    var l1 := l0 + [Done(PendingOp(s, p), Sync(d))];
    var t := Served(s, d);
    assert t.log == l1 + [Done(OpV, Sync(d))];
    forall e: Dev ensures Trace(t.log, e) == if e in t.waiting then Busy(t.waiting[e]) else Quiet {
      TraceLogged(s.log, End(d, s.waiting[d]), e);
      TraceLogged(l0, Done(PendingOp(s, p), Sync(d)), e);
      TraceLogged(l1, Done(OpV, Sync(d)), e);
    }
  }

  lemma {:induction false} TraceDeaths(log: seq<Event>, ps: seq<Pid>, d: Dev)
    ensures Trace(log + Deaths(ps), d) == Trace(log, d)
  {
    if ps == [] {
      assert log + Deaths(ps) == log;
    } else {
      var n := |ps| - 1;
      TraceDeaths(log, ps[..n], d);
      TraceLogged(log + Deaths(ps[..n]), Freed(ps[n]), d);
      assert log + Deaths(ps) == log + Deaths(ps[..n]) + [Freed(ps[n])];
    }
  }

  lemma TerminateTraced(s: State, t: Pid)
    requires Traced(s) && Sane(s)
    ensures Traced(Terminate(s, t))
  {
    KilledEffect(s, t);
    forall d: Dev ensures Trace(Killed(s, t).log, d) == Trace(s.log, d) {
      TraceDeaths(s.log, Postorder(Subtree(s.tree, t)), d);
    }
    ScheduleTraced(Killed(s, t));
  }

  lemma {:induction false} WakeAllTraced(s: State)
    requires Traced(s)
    ensures Traced(WakeAll(s))
    decreases |Get(s.queue, Clock)|
  {
    if Get(s.queue, Clock) != [] {
      MinusShorter(s.queue[Clock]);
      WakeAllTraced(WakeOne(s));
    }
  }

  lemma TracedStep(s: State, st: Step)
    requires Sane(s) && InProtocol(s) && ProtocolGuard(s, st) && Traced(s)
    ensures Traced(Next(s, st))
  {
    match st
    case SCreate =>
    case STerminate(t) => TerminateTraced(s, t);
    case SP(k) => OperateTraced(s, k, OpP);
    case SV(k) => OperateTraced(s, k, OpV);
    case SDoIO(a) => DoIOTraced(s, a);
    case SClockWait => OperateTraced(SoftUp(s), Clock, OpP);
    case STimeslice => ScheduleTraced(Preempted(s));
    case STick => WakeAllTraced(s);
    case SDevice(d) => InterruptTraced(s, d);
    case SResume => ScheduleTraced(s);
  }

  lemma DoIOTraced(s: State, a: u32)
    requires KernelWords(s) && InProtocol(s) && s.cur.Some? && Traced(s)
    ensures Traced(DoIO(s, a))
  {
    if ResolveDeviceAddress(a) != -1 {
      var d := ResolveDeviceAddress(a) as Dev;
      assert DeviceOrder(s.val, s.queue, s.waiting, d);
      IssueTraced(s, d);
    }
  }

  lemma InterruptTraced(s: State, d: Dev)
    requires Sane(s) && InProtocol(s) && d in s.waiting && Traced(s)
    ensures Traced(DeviceInterrupt(s, d))
  {
    assert DeviceOrder(s.val, s.queue, s.waiting, d);
    if Mut(d) in s.queue {
      var q := s.queue[Mut(d)][0];
      InterruptHandsOff(s, d);
      HandOffTraced(s, d, q);
      BlockTraced(HandOff(s, d, q), Sync(d), OpP);
    } else {
      InterruptServes(s, d);
      ServedTraced(s, d);
    }
  }

  // ---- alternation, read off the history

  lemma {:induction false} TracePrefix(log: seq<Event>, n: nat, d: Dev)
    requires n <= |log| && Trace(log, d) != Broken
    ensures Trace(log[..n], d) != Broken
    decreases |log|
  {
    if n < |log| {
      assert log[..|log| - 1][..n] == log[..n];
      TracePrefix(log[..|log| - 1], n, d);
    } else {
      assert log[..n] == log;
    }
  }

  /** While p's command is in flight its answer has not come. */
  lemma {:induction false} BusyUntilEnd(log: seq<Event>, i: nat, n: nat, d: Dev, p: Pid)
    requires i < n <= |log| && log[i] == Begin(d, p) && Trace(log[..n], d) != Broken
    requires forall m :: i < m < n ==> log[m] != End(d, p)
    ensures Trace(log[..n], d) == Busy(p)
    decreases n
  {
    assert log[..n][..n - 1] == log[..n - 1];
    if n > i + 1 {
      BusyUntilEnd(log, i, n - 1, d, p);
    }
  }

  lemma AnsweredBetween(log: seq<Event>, d: Dev, p: Pid, q: Pid, i: nat, j: nat)
    requires Trace(log, d) != Broken
    requires i < j < |log| && log[i] == Begin(d, p) && log[j] == Begin(d, q)
    ensures exists m :: i < m < j && log[m] == End(d, p)
  {
    if forall m :: i < m < j ==> log[m] != End(d, p) {
      TracePrefix(log, j + 1, d);
      TracePrefix(log, j, d);
      assert log[..j + 1][..j] == log[..j];
      BusyUntilEnd(log, i, j, d, p);
      assert false;
    }
  }

  /** Between two commands to the same device the first one is answered: none is written before the previous one
      completed. Hand-offs to queued processes included, on every run in which nobody is killed in mid-operation. */
  lemma CommandsAlternate(words: map<u32, int>, steps: seq<Step>, d: Dev, p: Pid, q: Pid, i: nat, j: nat)
    requires IsProtocolRun(Boot(words), steps)
    ensures IsRun(Boot(words), steps)
    ensures var log := After(Boot(words), steps).log;
      i < j < |log| && log[i] == Begin(d, p) && log[j] == Begin(d, q)
      ==> exists m :: i < m < j && log[m] == End(d, p)
  {
    BootProtocol(words);
    ProtocolRun(Boot(words), steps);
    var log := After(Boot(words), steps).log;
    assert Trace(log, d) != Broken;
    if i < j < |log| && log[i] == Begin(d, p) && log[j] == Begin(d, q) {
      AnsweredBetween(log, d, p, q, i, j);
    }
  }

  /** The state of each device over those runs: sem_sync is 0; sem_mut is 0 exactly while waiting_process is set, which
      is exactly while one process is queued on sem_sync; and the history says the same. */
  lemma DeviceProtocol(words: map<u32, int>, steps: seq<Step>, d: Dev)
    requires IsProtocolRun(Boot(words), steps)
    ensures IsRun(Boot(words), steps)
    ensures var s := After(Boot(words), steps);
      && Sync(d) in s.val && s.val[Sync(d)] == 0 && Mut(d) in s.val
      && (s.val[Mut(d)] == 0 <==> d in s.waiting) && (s.val[Mut(d)] == 1 <==> d !in s.waiting)
      && (|Get(s.queue, Sync(d))| == 1 <==> d in s.waiting) && (Get(s.queue, Sync(d)) == [] <==> d !in s.waiting)
      && (Mut(d) in s.queue ==> d in s.waiting)
      && Trace(s.log, d) == if d in s.waiting then Busy(s.waiting[d]) else Quiet
  {
    BootProtocol(words);
    ProtocolRun(Boot(words), steps);
    var s := After(Boot(words), steps);
    assert DeviceOrder(s.val, s.queue, s.waiting, d);
  }

  /** On guarded runs the process queued on sem_sync is moreover the one that gave the command, and all of the above
      holds. */
  lemma GuardedDeviceProtocol(words: map<u32, int>, steps: seq<Step>, d: Dev)
    requires Binary(words) && IsGuardedRun(Boot(words), steps)
    ensures IsProtocolRun(Boot(words), steps) && IsRun(Boot(words), steps)
    ensures var s := After(Boot(words), steps);
      Get(s.queue, Sync(d)) == if d in s.waiting then [s.waiting[d]] else []
  {
    BootInv(words);
    GuardedIsProtocol(Boot(words), steps);
    RunInv(Boot(words), steps);
    var s := After(Boot(words), steps);
    assert DeviceInv(s.val, s.queue, s.waiting, d);
  }
}

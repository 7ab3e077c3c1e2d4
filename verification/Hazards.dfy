/** What happens outside the guards: the devices a kill disables, and short runs from boot that end badly. */
module Hazards {
  import opened Basics
  import opened Forests
  import opened Addresses
  import opened SemQueues
  import opened Machine
  import opened Invariants
  import opened Soundness
  import opened Killing
  import opened Terminating
  import opened Guarded
  import opened Exactness
  import opened Runs
  import opened Outcomes
  // ---- a device whose process was killed in mid-operation

  /** sem_mut still taken, sem_sync at -1. */
  ghost predicate Disabled(s: State, d: Dev) {
    KernelWords(s) && s.val[Mut(d)] == 0 && s.val[Sync(d)] == -1
  }

  /** Killing a process in the middle of an operation of device d disables d. */
  lemma KillDisables(s: State, t: Pid, p: Pid)
    requires Sound(s) && Orderly(s) && s.mode.Running? && t in Members(s.tree)
    requires p in Members(Subtree(s.tree, t)) && p in s.wait && s.wait[p].on.Sync?
    ensures Disabled(Terminate(s, t), s.wait[p].on.d)
  {
    DeviceAborted(s, t, p);
    DeviceFacts(s, s.wait[p].on.d);
    TerminateSane(s, t);
    KilledEffect(s, t);
    assert p in s.queue[s.wait[p].on];
  }

  /** The interrupt of a disabled device does not revive it: the V finds -1 and blocks whoever happens to run. */
  lemma InterruptParksBystander(s: State, d: Dev)
    requires Sane(s) && Disabled(s, d) && s.mode.Running?
    ensures var t := DeviceInterrupt(s, d);
      && Disabled(t, d) && s.cur.value in Get(t.queue, Sync(d)) && !(t.mode.Running? && t.cur == s.cur)
  {
    assert DeviceInterrupt(s, d) == Block(s, Sync(d), OpV);
    var t := Parked(s, Sync(d), OpV);
    HeadIsMember(s.ready);
  }

  predicate Concerns(e: Event, d: Dev) {
    (e.Begin? || e.End?) && e.d == d
  }

  /** The commands given to d and their answers. */
  function Commands(log: seq<Event>, d: Dev): seq<Event> {
    if log == [] then []
    else
      var n := |log| - 1;
      if Concerns(log[n], d) then Commands(log[..n], d) + [log[n]] else Commands(log[..n], d)
  }

  lemma CommandsLogged(log: seq<Event>, e: Event, d: Dev)
    ensures Commands(log + [e], d) == Commands(log, d) + if Concerns(e, d) then [e] else []
  {
  }

  lemma {:induction false} CommandsDeaths(log: seq<Event>, ps: seq<Pid>, d: Dev)
    ensures Commands(log + Deaths(ps), d) == Commands(log, d)
  {
    if ps == [] {
      assert log + Deaths(ps) == log;
    } else {
      var n := |ps| - 1;
      CommandsDeaths(log, ps[..n], d);
      CommandsLogged(log + Deaths(ps[..n]), Freed(ps[n]), d);
      assert log + Deaths(ps) == log + Deaths(ps[..n]) + [Freed(ps[n])];
    }
  }

  /** t is s some time later, device d untouched. */
  ghost predicate Idles(s: State, t: State, d: Dev) {
    Disabled(t, d) && Commands(t.log, d) == Commands(s.log, d)
  }

  lemma ScheduleIdles(s: State, d: Dev)
    requires Disabled(s, d)
    ensures Idles(s, Schedule(s), d)
  {
  }

  lemma BlockIdles(s: State, k: Sem, op: Op, d: Dev)
    requires Disabled(s, d)
    ensures Idles(s, Block(s, k, op), d)
  {
    if s.cur.Some? {
      var t := Parked(s, k, op);
      ScheduleIdles(t, d);
    }
  }

  lemma ReleaseIdles(s: State, k: Sem, op: Op, d: Dev)
    requires Disabled(s, d) && Get(s.queue, k) != []
    ensures Idles(s, Logged(Release(s, k), Done(op, k)), d)
  {
  }

  /** Nothing gets past the words of a disabled device. */
  lemma OperateIdles(s: State, k: Sem, op: Op, d: Dev)
    requires Disabled(s, d) && k in s.val
    requires k == Mut(d) ==> op == OpP
    ensures Idles(s, Operate(s, k, op), d)
    ensures k == Mut(d) || k == Sync(d) ==> !Returns(s, k, op)
  {
    if !Returns(s, k, op) {
      BlockIdles(s, k, op, d);
    } else if Get(s.queue, k) != [] {
      ReleaseIdles(s, k, op, d);
    } else {
      CommandsLogged(s.log, Done(op, k), d);
    }
  }

  lemma BeginIdles(s: State, e: Dev, p: Pid, d: Dev)
    requires Disabled(s, d) && e != d
    ensures Idles(s, BeginIO(s, e, p), d)
  {
    CommandsLogged(s.log, Begin(e, p), d);
    OperateIdles(Start(s, e, p), Sync(e), OpP, d);
  }

  lemma IssueIdles(s: State, e: Dev, d: Dev)
    requires Disabled(s, d) && s.cur.Some?
    ensures Idles(s, IssueIO(s, e), d)
  {
    OperateIdles(s, Mut(e), OpP, d);
    if Returns(s, Mut(e), OpP) {
      BeginIdles(Operate(s, Mut(e), OpP), e, s.cur.value, d);
    }
  }

  lemma FreeIdles(s: State, e: Dev, d: Dev)
    requires Disabled(s, d) && e != d
    ensures Idles(s, FreeDevice(s, e), d)
  {
    if Get(s.queue, Mut(e)) != [] {
      var p := s.queue[Mut(e)][0];
      BeginIdles(Removed(s, Mut(e), p), e, p, d);
    }
  }

  lemma SignalIdles(s: State, e: Dev, d: Dev)
    requires Disabled(s, d)
    ensures Idles(s, SignalDevice(s, e), d)
  {
    OperateIdles(s, Sync(e), OpV, d);
    if Returns(s, Sync(e), OpV) {
      FreeIdles(Operate(s, Sync(e), OpV), e, d);
    }
  }

  lemma InterruptIdles(s: State, e: Dev, d: Dev)
    requires Disabled(s, d)
    ensures Idles(s, DeviceInterrupt(s, e), d)
  {
    if s.val[Sync(e)] == -1 {
      SignalIdles(s, e, d);
    } else if e in s.waiting {
      CommandsLogged(s.log, End(e, s.waiting[e]), d);
      SignalIdles(EndIO(s, e), e, d);
    }
  }

  lemma TerminateIdles(s: State, t: Pid, d: Dev)
    requires Disabled(s, d) && Sane(s)
    ensures Idles(s, Terminate(s, t), d)
  {
    KilledEffect(s, t);
    CommandsDeaths(s.log, Postorder(Subtree(s.tree, t)), d);
    KilledSane(s, t);
    ScheduleIdles(Killed(s, t), d);
  }

  lemma {:induction false} WakeAllIdles(s: State, d: Dev)
    requires Disabled(s, d)
    ensures Idles(s, WakeAll(s), d)
    decreases |Get(s.queue, Clock)|
  {
    if Get(s.queue, Clock) != [] {
      MinusShorter(s.queue[Clock]);
      WakeAllIdles(WakeOne(s), d);
    }
  }

  lemma DoIOIdles(s: State, a: u32, d: Dev)
    requires Disabled(s, d) && s.cur.Some?
    ensures Idles(s, DoIO(s, a), d)
  {
    if ResolveDeviceAddress(a) != -1 {
      IssueIdles(s, ResolveDeviceAddress(a) as Dev, d);
    }
  }

  lemma ClockWaitIdles(s: State, d: Dev)
    requires Disabled(s, d)
    ensures Idles(s, ClockWait(s), d)
  {
    OperateIdles(SoftUp(s), Clock, OpP, d);
  }

  lemma StepIdles(s: State, st: Step, d: Dev)
    requires Sane(s) && Enabled(s, st) && Disabled(s, d)
    ensures Idles(s, Next(s, st), d)
  {
    match st
    case SCreate =>
    case STerminate(t) => TerminateIdles(s, t, d);
    case SP(k) => OperateIdles(s, k, OpP, d);
    case SV(k) => OperateIdles(s, k, OpV, d);
    case SDoIO(a) => DoIOIdles(s, a, d);
    case SClockWait => ClockWaitIdles(s, d);
    case STimeslice => ScheduleIdles(Preempted(s), d);
    case STick => WakeAllIdles(s, d);
    case SDevice(e) => InterruptIdles(s, e, d);
    case SResume => ScheduleIdles(s, d);
  }

  /** A disabled device stays disabled: on every run whatever, guarded or not, it is never given another command and
      never answers one. */
  lemma {:induction false} DisabledForGood(s: State, steps: seq<Step>, d: Dev)
    requires Sane(s) && IsRun(s, steps) && Disabled(s, d)
    ensures Idles(s, After(s, steps), d)
    decreases |steps|
  {
    if steps != [] {
      StepIdles(s, steps[0], d);
      NextSane(s, steps[0]);
      DisabledForGood(Next(s, steps[0]), steps[1..], d);
    }
  }

  // ---- short runs from boot

  /** A process that is alone in the machine, running, with nothing pending. */
  ghost predicate Alone(s: State, p: Pid) {
    Sound(s) && s.mode.Running? && s.cur == Some(p) && s.tree == Cons(p, Nil, Nil) && s.ready == [] &&
    s.queue == map[] && s.wait == map[] && s.waiting == map[] && s.soft == 0 && s.count == 1
    && s.looping == {}
  }

  /** Once booted and dispatched, the first process is alone. */
  lemma Started(words: map<u32, int>)
    ensures Enabled(Boot(words), SResume)
    ensures var s := Next(Boot(words), SResume);
      Alone(s, 19) && s.free == InitialPool()[1..] && s.val == BootVals(words)
  {
    BootInv(words);
    ScheduleSane(Boot(words));
  }

  lemma Unroll(s: State, st: Step, rest: seq<Step>)
    requires Enabled(s, st) && IsRun(Next(s, st), rest)
    ensures IsRun(s, [st] + rest) && After(s, [st] + rest) == After(Next(s, st), rest)
  {
  }

  lemma UnrollTwo(s: State, a: Step, b: Step)
    requires Enabled(s, a) && Enabled(Next(s, a), b)
    ensures IsRun(s, [a, b]) && After(s, [a, b]) == Next(Next(s, a), b)
  {
    assert IsRun(Next(Next(s, a), b), []);
    assert [b] + [] == [b] && [a] + [b] == [a, b];
    Unroll(Next(s, a), b, []);
    Unroll(s, a, [b]);
  }

  lemma Pair(p: Pid, c: Pid)
    requires p != c
    ensures var f := Cons(p, Cons(c, Nil, Nil), Nil);
      c in Members(f) && Subtree(f, c) == Cons(c, Nil, Nil) && Prune(f, c) == Cons(p, Nil, Nil)
  {
    var k := Cons(c, Nil, Nil);
    assert Members(k) == {c} && KidsOf(k, c) == Nil && Prune(k, c) == Nil;
  }

  lemma OnlyChild(s: State, p: Pid)
    requires Alone(s, p) && s.free != []
    ensures var t := Create(s); var c := s.free[0];
      c != p && Sound(t) && t.tree == Cons(p, Cons(c, Nil, Nil), Nil) && t.ready == [c]
  {
    CreateSane(s);
  }

  lemma ChildKilled(s: State, p: Pid, c: Pid)
    requires Sound(s) && p != c && s.tree == Cons(p, Cons(c, Nil, Nil), Nil) && s.ready == [c]
    requires s.wait == map[] && s.waiting == map[] && s.soft == 0 && s.count == 2
    ensures c in Members(s.tree)
    ensures var t := Terminate(s, c); t.mode.Panicked? && t.tree == Cons(p, Nil, Nil) && t.wait == map[]
  {
    Pair(p, c);
    KilledEffect(s, c);
    assert Members(Cons(c, Nil, Nil)) == {c};
    assert AllInFlight(s.wait, s.waiting, {c}) == {};
  }

  /** The first process creates a child and terminates it: the machine panics with the first process alive and not
      blocked on anything. */
  lemma ParentKillsChild(words: map<u32, int>)
    ensures var run := [SCreate, STerminate(18)];
      && IsRun(Boot(words), [SResume] + run)
      && var t := After(Boot(words), [SResume] + run);
         t.mode.Panicked? && t.tree == Cons(19, Nil, Nil) && t.wait == map[]
  {
    Started(words);
    var s := Next(Boot(words), SResume);
    OnlyChild(s, 19);
    ChildKilled(Create(s), 19, 18);
    UnrollTwo(s, SCreate, STerminate(18));
    Unroll(Boot(words), SResume, [SCreate, STerminate(18)]);
  }

  lemma EarlyClockWait(s: State, p: Pid)
    requires Alone(s, p) && Inv(s) && s.val[Clock] == 1
    ensures Guard(s, SClockWait)
    ensures var t := ClockWait(s);
      && Inv(t) && Slack(t) == 1 && t.mode.Running? && t.cur == Some(p) && t.tree == s.tree && t.ready == []
      && t.wait == map[] && t.val == s.val[Clock := 0] && t.count == 1 && t.soft == 1
  {
    GuardExact(s, SClockWait);
    SlackStep(s, SClockWait);
    assert SoftSet(s.wait) == {};
  }

  lemma BlocksAlone(s: State, p: Pid, k: Sem)
    requires Inv(s) && Slack(s) == 1 && s.mode.Running? && s.cur == Some(p) && s.tree == Cons(p, Nil, Nil)
    requires s.ready == [] && s.wait == map[] && s.count == 1 && s.soft == 1
    requires k.User? && k in s.val && s.val[k] == 0
    ensures Guard(s, SP(k))
    ensures var t := Operate(s, k, OpP); Inv(t) && t.mode.Idle? && Deadlocked(t) && Slack(t) == 1
  {
    GuardExact(s, SP(k));
    SlackStep(s, SP(k));
  }

  /** The first process waits for the clock before the first tick, which does not block it, and then blocks on a
      semaphore at 0. That is a deadlock, and no guarded run from there ever reports it. */
  lemma DeadlockUnreported(words: map<u32, int>, a: u32, more: seq<Step>)
    requires Binary(words) && a in words && words[a] == 0
    ensures var run := [SClockWait, SP(User(a))];
      && IsRun(Boot(words), [SResume] + run)
      && var s := After(Boot(words), [SResume] + run);
        && Deadlocked(s)
        && (IsGuardedRun(s, more) ==> IsRun(s, more) && After(s, more).mode.Idle? && Deadlocked(After(s, more)))
  {
    BootInv(words);
    Started(words);
    BootUser(words, a);
    BootValsAre(words);
    GuardExact(Boot(words), SResume);
    var s := Next(Boot(words), SResume);
    EarlyClockWait(s, 19);
    BlocksAlone(ClockWait(s), 19, User(a));
    UnrollTwo(s, SClockWait, SP(User(a)));
    Unroll(Boot(words), SResume, [SClockWait, SP(User(a))]);
    var t := Next(Next(s, SClockWait), SP(User(a)));
    if IsGuardedRun(t, more) {
      SilentDeadlock(t, more);
    }
  }

  /** Under the invariant a g_current_process that outlives its process has been freed. */
  lemma StaleIsFreed(s: State)
    requires Inv(s) && s.mode.Idle?
    ensures s.cur.Some? ==> s.cur.value in s.free
  {
    if s.cur.Some? {
      assert s.cur.value !in Lost(s);
    }
  }

  lemma BlockTakesCurrent(s: State, k: Sem, op: Op)
    ensures Block(s, k, op).mode.Fault? <==> s.cur.None?
    ensures s.cur.Some? ==> s.cur.value in Get(Block(s, k, op).queue, k)
  {
    if s.cur.Some? {
      BlockEffect(s, k, op);
    }
  }

  /** When a device with another process queued for it answers while the machine is idle, the hand-off acts on
      g_current_process all the same: a NULL one is followed, a freed one is queued. */
  lemma IdleHandOff(s: State, d: Dev)
    requires Inv(s) && s.mode.Idle? && d in s.waiting && Mut(d) in s.queue
    ensures var t := DeviceInterrupt(s, d);
      && (t.mode.Fault? <==> s.cur.None?)
      && (s.cur.Some? ==> Revives(s, SDevice(d)) && s.cur.value in Get(t.queue, Sync(d)))
  {
    var q := s.queue[Mut(d)][0];
    StaleIsFreed(s);
    DeviceFacts(s, d);
    SoundFacts(s, Mut(d));
    InterruptHandsOff(s, d);
    HandOffLoses(s, d, q);
    BlockTakesCurrent(HandOff(s, d, q), Sync(d), OpP);
  }

  /** Two processes, the first one running, with no operation pending. */
  ghost predicate Couple(s: State, p: Pid, c: Pid) {
    p != c && Inv(s) && s.mode.Running? && s.cur == Some(p) && s.ready == [c] && s.waiting == map[] && s.soft == 0
  }

  lemma FirstIssues(s: State, p: Pid, c: Pid, a: u32)
    requires Couple(s, p, c) && ResolveDeviceAddress(a) != -1
    ensures var t := DoIO(s, a);
      Inv(t) && t.mode.Running? && t.cur.Some? && t.ready == [] && (ResolveDeviceAddress(a) as Dev) in t.waiting
  {
    var d := ResolveDeviceAddress(a) as Dev;
    GuardExact(s, SDoIO(a));
    DeviceFacts(s, d);
    assert DeviceInv(s.val, s.queue, s.waiting, d);
    IssueIdle(s, d);
  }

  lemma SecondQueues(s: State, a: u32)
    requires Inv(s) && s.mode.Running? && s.cur.Some? && s.ready == []
    requires ResolveDeviceAddress(a) != -1 && (ResolveDeviceAddress(a) as Dev) in s.waiting
    ensures var d := ResolveDeviceAddress(a) as Dev; var t := DoIO(s, a);
      Inv(t) && t.mode.Idle? && t.cur.None? && d in t.waiting && Mut(d) in t.queue
  {
    var d := ResolveDeviceAddress(a) as Dev;
    DeviceFacts(s, d);
    BusyDevice(s, d);
    GuardExact(s, SDoIO(a));
    StillSoft(DoIO(s, a), d);
  }

  lemma BusyDevice(s: State, d: Dev)
    requires Mut(d) in s.val && s.val[Mut(d)] == 0 && Sync(d) in s.val && s.mode.Running? && s.cur.Some?
    requires s.ready == []
    ensures var t := IssueIO(s, d);
      t.waiting == s.waiting && Mut(d) in t.queue && t.mode == IdleMode(t.count, t.soft) && t.cur.None?
  {
    assert IssueIO(s, d) == Block(s, Mut(d), OpP);
    var t := Parked(s, Mut(d), OpP);
  }

  /** With a command in flight the scheduler waits. */
  lemma StillSoft(s: State, d: Dev)
    requires Inv(s) && d in s.waiting
    ensures s.soft > 0 && s.count > 0
  {
    DeviceFacts(s, d);
    SoundFacts(s, Sync(d));
    assert s.waiting[d] in SoftSet(s.wait);
    assert s.waiting[d] in Members(s.tree);
  }

  /** Two processes use one device, one after the other, while nobody else is ready: when the device answers the first
      command the kernel acts on a process that does not exist. */
  lemma SharedDeviceFaults(s: State, p: Pid, c: Pid, a: u32)
    requires Couple(s, p, c) && ResolveDeviceAddress(a) != -1
    ensures var run := [SDoIO(a)] + [SDoIO(a), SDevice(ResolveDeviceAddress(a) as Dev)];
      IsRun(s, run) && After(s, run).mode.Fault?
  {
    var d := ResolveDeviceAddress(a) as Dev;
    FirstIssues(s, p, c, a);
    var t := DoIO(s, a);
    SecondQueues(t, a);
    IdleHandOff(DoIO(t, a), d);
    UnrollTwo(t, SDoIO(a), SDevice(d));
    Unroll(s, SDoIO(a), [SDoIO(a), SDevice(d)]);
  }

  /** Such a couple exists two steps after boot. */
  lemma CoupleReached(words: map<u32, int>)
    requires Binary(words)
    ensures IsRun(Boot(words), [SResume, SCreate]) && Couple(After(Boot(words), [SResume, SCreate]), 19, 18)
  {
    BootInv(words);
    Started(words);
    GuardExact(Boot(words), SResume);
    var s := Next(Boot(words), SResume);
    GuardExact(s, SCreate);
    OnlyChild(s, 19);
    UnrollTwo(Boot(words), SResume, SCreate);
  }
}

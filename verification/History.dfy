/** What the event history proves about binary semaphores: they count. */
module History {
  import opened Basics
  import opened Forests
  import opened Addresses
  import opened SemQueues
  import opened Machine
  import opened Invariants
  import opened Soundness
  import opened Killing
  import opened Terminating
  import opened Guarded
  import opened Exactness
  import opened Runs

  // ---- semaphores

  /** Completed operations of one kind on k. */
  function Completed(log: seq<Event>, op: Op, k: Sem): nat {
    multiset(log)[Done(op, k)]
  }

  /** The value of k, with the completed operations undone. */
  function Origin(s: State, k: Sem): int
    requires k in s.val
  {
    s.val[k] - Completed(s.log, OpV, k) + Completed(s.log, OpP, k)
  }

  lemma LoggedOrigin(s: State, e: Event, k: Sem)
    requires k in s.val
    ensures Origin(Logged(s, e), k)
         == Origin(s, k) + (if e == Done(OpP, k) then 1 else 0) - (if e == Done(OpV, k) then 1 else 0)
  {
  }

  lemma ScheduleOrigin(s: State, k: Sem)
    requires k in s.val
    ensures k in Schedule(s).val && Origin(Schedule(s), k) == Origin(s, k)
  {
    if s.ready != [] {
      LoggedOrigin(Dispatched(s), Dispatch(s.ready[0]), k);
    }
  }

  lemma BlockOrigin(s: State, k: Sem, op: Op, m: Sem)
    requires m in s.val
    ensures m in Block(s, k, op).val && Origin(Block(s, k, op), m) == Origin(s, m)
  {
    if s.cur.Some? {
      var t := Parked(s, k, op);
      assert t.val == s.val && t.log == s.log;
      ScheduleOrigin(t, m);
    }
  }

  lemma ReleaseOrigin(s: State, k: Sem, op: Op, m: Sem)
    requires m in s.val && Get(s.queue, k) != [] && (m == k ==> PendingOp(s, s.queue[k][0]) != op)
    ensures Origin(Logged(Release(s, k), Done(op, k)), m) == Origin(s, m)
  {
    var p := s.queue[k][0];
    LoggedOrigin(Readied(Removed(s, k, p), p), Done(PendingOp(s, p), k), m);
    LoggedOrigin(Release(s, k), Done(op, k), m);
  }

  /** The released waiter's operation and the releasing one cancel out, if they are opposite. */
  lemma OperateOrigin(s: State, k: Sem, op: Op, m: Sem)
    requires k in s.val && m in s.val
    requires Get(s.queue, k) != [] && Returns(s, k, op) && m == k ==> PendingOp(s, s.queue[k][0]) != op
    ensures m in Operate(s, k, op).val && Origin(Operate(s, k, op), m) == Origin(s, m)
  {
    if !Returns(s, k, op) {
      BlockOrigin(s, k, op, m);
    } else if Get(s.queue, k) != [] {
      ReleaseOrigin(s, k, op, m);
    } else {
      LoggedOrigin(WithVal(s, k, if op.OpP? then s.val[k] - 1 else s.val[k] + 1), Done(op, k), m);
    }
  }

  lemma UserOrigin(s: State, k: Sem, op: Op, m: Sem)
    requires Inv(s) && k.User? && k in s.val && m in s.val
    ensures m in Operate(s, k, op).val && Origin(Operate(s, k, op), m) == Origin(s, m)
  {
    SoundFacts(s, k);
    assert UserInv(s.val, s.wait, k);
    OperateOrigin(s, k, op, m);
  }

  lemma IssueOrigin(s: State, d: Dev, m: Sem)
    requires Inv(s) && s.mode.Running? && m.User? && m in s.val
    ensures m in IssueIO(s, d).val && Origin(IssueIO(s, d), m) == Origin(s, m)
  {
    DeviceFacts(s, d);
    OperateOrigin(s, Mut(d), OpP, m);
    if Returns(s, Mut(d), OpP) {
      OperateWords(s, Mut(d), OpP);
      BeginOrigin(Operate(s, Mut(d), OpP), d, s.cur.value, m);
    }
  }

  lemma BeginOrigin(s: State, d: Dev, p: Pid, m: Sem)
    requires Sync(d) in s.val && m in s.val && m != Sync(d)
    ensures m in BeginIO(s, d, p).val && Origin(BeginIO(s, d, p), m) == Origin(s, m)
  {
    LoggedOrigin(Held(s, d, p), Begin(d, p), m);
    OperateOrigin(Start(s, d, p), Sync(d), OpP, m);
  }

  lemma DeviceOrigin(s: State, d: Dev, m: Sem)
    requires Inv(s) && DeviceExpected(s, d) && m.User? && m in s.val
    ensures m in DeviceInterrupt(s, d).val && Origin(DeviceInterrupt(s, d), m) == Origin(s, m)
  {
    DeviceFacts(s, d);
    InterruptServes(s, d);
    var p := s.waiting[d];
    LoggedOrigin(s, End(d, p), m);
    LoggedOrigin(Readied(Removed(EndIO(s, d), Sync(d), p), p), Done(PendingOp(EndIO(s, d), p), Sync(d)), m);
    LoggedOrigin(Release(EndIO(s, d), Sync(d)), Done(OpV, Sync(d)), m);
  }

  lemma DeathsAreNotOps(log: seq<Event>, ps: seq<Pid>, op: Op, k: Sem)
    ensures Completed(log + Deaths(ps), op, k) == Completed(log, op, k)
  {
  }

  lemma TerminateOrigin(s: State, t: Pid, m: Sem)
    requires Sound(s) && t in Members(s.tree) && m.User? && m in s.val
    ensures m in Terminate(s, t).val && Origin(Terminate(s, t), m) == Origin(s, m)
  {
    KilledEffect(s, t);
    DeathsAreNotOps(s.log, Postorder(Subtree(s.tree, t)), OpP, m);
    DeathsAreNotOps(s.log, Postorder(Subtree(s.tree, t)), OpV, m);
    ScheduleOrigin(Killed(s, t), m);
  }

  lemma {:induction false} WakeAllOrigin(s: State, m: Sem)
    requires m in s.val && m.User?
    ensures m in Tick(s).val && Origin(Tick(s), m) == Origin(s, m)
    decreases |Get(s.queue, Clock)|
  {
    if Get(s.queue, Clock) != [] {
      MinusShorter(s.queue[Clock]);
      WakeAllOrigin(WakeOne(s), m);
    }
  }

  /** A step changes the value of a user semaphore by the operations it completes, counting a released waiter's. */
  lemma SemaphoreStep(s: State, st: Step, m: Sem)
    requires Inv(s) && Guard(s, st) && m.User? && m in s.val
    ensures m in Next(s, st).val && Origin(Next(s, st), m) == Origin(s, m)
  {
    match st
    case SCreate =>
    case STerminate(t) => TerminateOrigin(s, t, m);
    case SP(k) => UserOrigin(s, k, OpP, m);
    case SV(k) => UserOrigin(s, k, OpV, m);
    case SDoIO(a) => IssueOrigin(s, ResolveDeviceAddress(a) as Dev, m);
    case SClockWait => OperateOrigin(SoftUp(s), Clock, OpP, m);
    case STimeslice => ScheduleOrigin(Preempted(s), m);
    case STick => WakeAllOrigin(s, m);
    case SDevice(d) => DeviceOrigin(s, d, m);
    case SResume => ScheduleOrigin(s, m);
  }

  lemma {:induction false} SemaphoreRun(s: State, steps: seq<Step>, m: Sem)
    requires Inv(s) && IsGuardedRun(s, steps) && m.User? && m in s.val
    ensures IsRun(s, steps) && m in After(s, steps).val
    ensures Origin(After(s, steps), m) == Origin(s, m)
    decreases |steps|
  {
    GuardedIsRun(s, steps);
    if steps != [] {
      SemaphoreStep(s, steps[0], m);
      GuardExact(s, steps[0]);
      SemaphoreRun(Next(s, steps[0]), steps[1..], m);
    }
  }

  /** Binary semaphores over whole runs: the value stays 0 or 1, it is the initial value plus the completed Vs minus
      the completed Ps, and whoever waits at 0 waits to do a P, whoever waits at 1 to do a V. */
  lemma BinarySemaphore(words: map<u32, int>, steps: seq<Step>, a: u32)
    requires Binary(words) && a in words && IsGuardedRun(Boot(words), steps)
    ensures IsRun(Boot(words), steps)
    ensures var s := After(Boot(words), steps); var k := User(a);
      && k in s.val && 0 <= s.val[k] <= 1
      && s.val[k] == words[a] + Completed(s.log, OpV, k) - Completed(s.log, OpP, k)
      && forall p :: p in s.wait && s.wait[p].on == k ==> s.wait[p].op == if s.val[k] == 0 then OpP else OpV
  {
    BootInv(words);
    BootUser(words, a);
    SemaphoreRun(Boot(words), steps, User(a));
    RunInv(Boot(words), steps);
    assert UserInv(After(Boot(words), steps).val, After(Boot(words), steps).wait, User(a));
  }
}

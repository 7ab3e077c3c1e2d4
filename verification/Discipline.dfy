/** The discipline of callers under which device interrupts need no guard of their own. */
module Discipline {
  import opened Basics
  import opened Forests
  import opened Addresses
  import opened Machine
  import opened Invariants
  import opened Soundness
  import opened Terminating
  import opened Guarded
  import opened Exactness
  import opened Runs
  import opened Scenes
  import opened Protocol

  /** Processes issue DOIO only on a device whose sem_mut is 1, and devices interrupt only for a command under way.
      What a device finds queued on its mutex is not part of the discipline. */
  ghost predicate Disciplined(s: State, st: Step) {
    Enabled(s, st) &&
    match st
    case STerminate(t) => VictimIsCaller(s, t) && NoVictimInIO(s, t)
    case SDoIO(a) => ResolveDeviceAddress(a) != -1 && s.val[Mut(ResolveDeviceAddress(a) as Dev)] == 1
    case SDevice(d) => d in s.waiting
    case _ => true
  }

  /** Nobody queues for a device. */
  ghost predicate Uncontended(s: State) {
    forall d: Dev :: Mut(d) !in s.queue
  }

  lemma WakeAllUncontended(s: State)
    requires Uncontended(s)
    ensures Uncontended(Tick(s))
  {
    forall d: Dev ensures Mut(d) !in Tick(s).queue {
      WakeAllDevices(s, d);
    }
  }

  lemma DoIOUncontended(s: State, a: u32)
    requires Inv(s) && Uncontended(s) && s.mode.Running? && ResolveDeviceAddress(a) != -1
    requires s.val[Mut(ResolveDeviceAddress(a) as Dev)] == 1
    ensures Uncontended(DoIO(s, a))
  {
    var d := ResolveDeviceAddress(a) as Dev;
    DeviceFacts(s, d);
    DoIOBlocks(s, a);
    BlockEffect(Commanded(s, d), Sync(d), OpP);
  }

  lemma TerminateUncontended(s: State, t: Pid)
    requires Sane(s) && Uncontended(s) && t in Members(s.tree)
    ensures Uncontended(Terminate(s, t))
  {
    KilledEffect(s, t);
    ScheduleFrame(Killed(s, t));
  }

  lemma InterruptUncontended(s: State, d: Dev)
    requires Inv(s) && Uncontended(s) && d in s.waiting
    ensures Uncontended(DeviceInterrupt(s, d))
  {
    DeviceFacts(s, d);
    InterruptServes(s, d);
  }

  lemma OperateUncontended(s: State, k: Sem, op: Op)
    requires Uncontended(s) && s.cur.Some? && k in s.val && !OfDevice(k)
    ensures Uncontended(Operate(s, k, op))
  {
    OperateSame(s, k, op);
    forall d: Dev ensures Mut(d) !in Operate(s, k, op).queue {
      assert SameDevice(s, Operate(s, k, op), d);
    }
  }

  lemma DisciplinedStep(s: State, st: Step)
    requires Inv(s) && Uncontended(s) && Disciplined(s, st)
    ensures Guard(s, st) && Uncontended(Next(s, st))
  {
    match st
    case SCreate =>
    case STerminate(t) => TerminateUncontended(s, t);
    case SP(k) => OperateUncontended(s, k, OpP);
    case SV(k) => OperateUncontended(s, k, OpV);
    case SDoIO(a) => DoIOUncontended(s, a);
    case SClockWait => OperateUncontended(SoftUp(s), Clock, OpP);
    case STimeslice => ScheduleFrame(Preempted(s));
    case STick => WakeAllUncontended(s);
    case SDevice(d) => InterruptUncontended(s, d);
    case SResume => ScheduleFrame(s);
  }

  ghost predicate IsDisciplinedRun(s: State, steps: seq<Step>)
    decreases |steps|
  {
    steps == [] || (Disciplined(s, steps[0]) && IsDisciplinedRun(Next(s, steps[0]), steps[1..]))
  }

  lemma {:induction false} DisciplinedFrom(s: State, steps: seq<Step>)
    requires Inv(s) && Uncontended(s) && IsDisciplinedRun(s, steps)
    ensures IsGuardedRun(s, steps)
    decreases |steps|
  {
    if steps != [] {
      DisciplinedStep(s, steps[0]);
      GuardExact(s, steps[0]);
      DisciplinedFrom(Next(s, steps[0]), steps[1..]);
    }
  }

  /** A disciplined run from boot is a guarded one: no device interrupt ever finds a process queued for the device. */
  lemma DisciplineSuffices(words: map<u32, int>, steps: seq<Step>)
    requires Binary(words) && IsDisciplinedRun(Boot(words), steps)
    ensures IsGuardedRun(Boot(words), steps)
  {
    BootInv(words);
    DisciplinedFrom(Boot(words), steps);
  }
}

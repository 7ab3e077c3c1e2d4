/** The ready queue is fair: whatever else happens, a ready process is dispatched after those ahead of it. */
module RoundRobin {
  import opened Basics
  import opened Forests
  import opened Addresses
  import opened SemQueues
  import opened Machine
  import opened Invariants
  import opened Soundness
  import opened Terminating
  import opened Runs

  /** The last thing recorded since s is a dispatch. */
  predicate Dispatching(s: State, t: State) {
    |t.log| > |s.log| && t.log[|t.log| - 1].Dispatch?
  }

  predicate DispatchingTo(s: State, t: State, p: Pid) {
    Dispatching(s, t) && t.log[|t.log| - 1] == Dispatch(p)
  }

  predicate ReadyAt(s: State, p: Pid, i: nat) {
    i < |s.ready| && s.ready[i] == p
  }

  /** p, at position i in s, has been dispatched or terminated in t, or has not moved back, and has moved forward if
      somebody was dispatched. */
  ghost predicate Advanced(s: State, t: State, p: Pid, i: nat) {
    || p in t.free
    || DispatchingTo(s, t, p)
    || exists j: nat :: j <= i && ReadyAt(t, p, j) && (Dispatching(s, t) ==> j < i)
  }

  /** t is a stage of the step from s: nothing has been dispatched so far, p is still ready, at position j. */
  ghost predicate Stage(s: State, t: State, p: Pid, i: nat, j: nat) {
    Sane(t) && |t.log| >= |s.log| && !Dispatching(s, t) && j <= i && ReadyAt(t, p, j)
  }

  lemma StageAdvanced(s: State, t: State, p: Pid, i: nat, j: nat)
    requires !Dispatching(s, t) && j <= i && ReadyAt(t, p, j)
    ensures Advanced(s, t, p, i)
  {
  }

  lemma ScheduleAdvances(s: State, t: State, p: Pid, i: nat, j: nat)
    requires |t.log| >= |s.log| && !Dispatching(s, t) && j <= i && ReadyAt(t, p, j)
    ensures Advanced(s, Schedule(t), p, i)
  {
    if j > 0 {
      assert ReadyAt(Schedule(t), p, j - 1);
    }
  }

  lemma LoggedStage(s: State, t: State, e: Event, p: Pid, i: nat, j: nat)
    requires Stage(s, t, p, i, j) && !e.Dispatch?
    ensures Stage(s, Logged(t, e), p, i, j)
  {
    LoggedSane(t, e);
  }

  lemma BlockAdvances(s: State, t: State, k: Sem, op: Op, p: Pid, i: nat, j: nat)
    requires Stage(s, t, p, i, j)
    ensures Advanced(s, Block(t, k, op), p, i)
  {
    if t.cur.None? {
      StageAdvanced(s, WithMode(t, Fault), p, i, j);
    } else {
      NotReady(t);
      ParkAdvances(s, t, k, op, p, i, j);
    }
  }

  lemma NotReady(t: State)
    requires Sane(t) && t.cur.Some?
    ensures t.cur.value !in t.ready
  {
  }

  lemma ParkAdvances(s: State, t: State, k: Sem, op: Op, p: Pid, i: nat, j: nat)
    requires |t.log| >= |s.log| && !Dispatching(s, t) && j <= i && ReadyAt(t, p, j)
    requires t.cur.Some? && t.cur.value !in t.ready
    ensures Advanced(s, Block(t, k, op), p, i)
  {
    var u := Parked(t, k, op);
    assert ReadyAt(u, p, j);
    ScheduleAdvances(s, u, p, i, j);
  }

  lemma OperateStage(s: State, t: State, k: Sem, op: Op, p: Pid, i: nat, j: nat)
    requires Stage(s, t, p, i, j) && k in t.val && Returns(t, k, op)
    ensures Stage(s, Operate(t, k, op), p, i, j)
  {
    OperateSane(t, k, op);
  }

  lemma OperateAdvances(s: State, t: State, k: Sem, op: Op, p: Pid, i: nat, j: nat)
    requires Stage(s, t, p, i, j) && k in t.val
    ensures Advanced(s, Operate(t, k, op), p, i)
  {
    if Returns(t, k, op) {
      OperateStage(s, t, k, op, p, i, j);
      StageAdvanced(s, Operate(t, k, op), p, i, j);
    } else {
      BlockAdvances(s, t, k, op, p, i, j);
    }
  }

  lemma BeginIOAdvances(s: State, t: State, d: Dev, q: Pid, p: Pid, i: nat, j: nat)
    requires Stage(s, t, p, i, j) && Sync(d) in t.val
    ensures Advanced(s, BeginIO(t, d, q), p, i)
  {
    HeldSane(t, d, q);
    LoggedStage(s, Held(t, d, q), Begin(d, q), p, i, j);
    SoftSane(Logged(Held(t, d, q), Begin(d, q)));
    OperateAdvances(s, Start(t, d, q), Sync(d), OpP, p, i, j);
  }

  lemma IssueAdvances(s: State, d: Dev, p: Pid, i: nat)
    requires Sane(s) && s.cur.Some? && ReadyAt(s, p, i)
    ensures Advanced(s, IssueIO(s, d), p, i)
  {
    if Returns(s, Mut(d), OpP) {
      OperateStage(s, s, Mut(d), OpP, p, i, i);
      BeginIOAdvances(s, Operate(s, Mut(d), OpP), d, s.cur.value, p, i, i);
    } else {
      OperateAdvances(s, s, Mut(d), OpP, p, i, i);
    }
  }

  lemma FreeDeviceAdvances(s: State, t: State, d: Dev, p: Pid, i: nat, j: nat)
    requires Stage(s, t, p, i, j) && Mut(d) in t.val && Sync(d) in t.val
    ensures Advanced(s, FreeDevice(t, d), p, i)
  {
    if Get(t.queue, Mut(d)) != [] {
      var q := t.queue[Mut(d)][0];
      RemovedSane(t, Mut(d), q);
      BeginIOAdvances(s, Removed(t, Mut(d), q), d, q, p, i, j);
    } else {
      StageAdvanced(s, WithVal(Vacated(t, d), Mut(d), t.val[Mut(d)] + 1), p, i, j);
    }
  }

  lemma SignalAdvances(s: State, t: State, d: Dev, p: Pid, i: nat, j: nat)
    requires Stage(s, t, p, i, j) && Mut(d) in t.val && Sync(d) in t.val
    ensures Advanced(s, SignalDevice(t, d), p, i)
  {
    if Returns(t, Sync(d), OpV) {
      OperateStage(s, t, Sync(d), OpV, p, i, j);
      FreeDeviceAdvances(s, Operate(t, Sync(d), OpV), d, p, i, j);
    } else {
      OperateAdvances(s, t, Sync(d), OpV, p, i, j);
    }
  }

  lemma DeviceAdvances(s: State, d: Dev, p: Pid, i: nat)
    requires Sane(s) && ReadyAt(s, p, i)
    ensures Advanced(s, DeviceInterrupt(s, d), p, i)
  {
    if s.val[Sync(d)] == -1 {
      SignalAdvances(s, s, d, p, i, i);
    } else if d in s.waiting {
      LoggedStage(s, s, End(d, s.waiting[d]), p, i, i);
      SoftSane(Logged(s, End(d, s.waiting[d])));
      SignalAdvances(s, EndIO(s, d), d, p, i, i);
    } else {
      StageAdvanced(s, WithMode(s, Fault), p, i, i);
    }
  }

  lemma {:induction false} WakeAllReady(s: State, p: Pid, i: nat)
    requires ReadyAt(s, p, i)
    ensures ReadyAt(WakeAll(s), p, i) && WakeAll(s).log == s.log
    decreases |Get(s.queue, Clock)|
  {
    if Get(s.queue, Clock) != [] {
      MinusShorter(s.queue[Clock]);
      WakeAllReady(WakeOne(s), p, i);
    }
  }

  lemma TerminateAdvances(s: State, t: Pid, p: Pid, i: nat)
    requires Sane(s) && ReadyAt(s, p, i)
    ensures Advanced(s, Terminate(s, t), p, i)
  {
    var f := Subtree(s.tree, t);
    var r := Killed(s, t);
    KilledEffect(s, t);
    if p in Members(f) {
      assert p in Reverse(Postorder(f));
      assert p in r.free;
    } else {
      var j := MinusIndex(s.ready, Members(f), i);
      assert !Dispatching(s, r);
      ScheduleAdvances(s, r, p, i, j);
    }
  }

  lemma DoIOAdvances(s: State, a: u32, p: Pid, i: nat)
    requires Sane(s) && s.cur.Some? && ReadyAt(s, p, i)
    ensures Advanced(s, DoIO(s, a), p, i)
  {
    if ResolveDeviceAddress(a) == -1 {
      StageAdvanced(s, WithMode(s, Panicked), p, i, i);
    } else {
      IssueAdvances(s, ResolveDeviceAddress(a) as Dev, p, i);
    }
  }

  lemma ClockWaitAdvances(s: State, p: Pid, i: nat)
    requires Sane(s) && ReadyAt(s, p, i)
    ensures Advanced(s, ClockWait(s), p, i)
  {
    SoftSane(s);
    OperateAdvances(s, SoftUp(s), Clock, OpP, p, i, i);
  }

  lemma TimesliceAdvances(s: State, p: Pid, i: nat)
    requires s.cur.Some? && ReadyAt(s, p, i)
    ensures Advanced(s, Timeslice(s), p, i)
  {
    ScheduleAdvances(s, Preempted(s), p, i, i);
  }

  lemma TickAdvances(s: State, p: Pid, i: nat)
    requires ReadyAt(s, p, i)
    ensures Advanced(s, Tick(s), p, i)
  {
    WakeAllReady(s, p, i);
    StageAdvanced(s, Tick(s), p, i, i);
  }

  /** No step, guarded or not, moves a ready process back. */
  lemma StepAdvances(s: State, st: Step, p: Pid, i: nat)
    requires Sane(s) && Enabled(s, st) && ReadyAt(s, p, i)
    ensures Advanced(s, Next(s, st), p, i)
  {
    match st
    case SCreate => StageAdvanced(s, Create(s), p, i, i);
    case STerminate(t) => TerminateAdvances(s, t, p, i);
    case SP(k) => OperateAdvances(s, s, k, OpP, p, i, i);
    case SV(k) => OperateAdvances(s, s, k, OpV, p, i, i);
    case SDoIO(a) => DoIOAdvances(s, a, p, i);
    case SClockWait => ClockWaitAdvances(s, p, i);
    case STimeslice => TimesliceAdvances(s, p, i);
    case STick => TickAdvances(s, p, i);
    case SDevice(d) => DeviceAdvances(s, d, p, i);
    case SResume => ScheduleAdvances(s, s, p, i, i);
  }

  /** The number of steps that end in a dispatch. */
  ghost function Dispatches(s: State, steps: seq<Step>): nat
    requires IsRun(s, steps)
    decreases |steps|
  {
    if steps == [] then 0
    else (if Dispatching(s, Next(s, steps[0])) then 1 else 0) + Dispatches(Next(s, steps[0]), steps[1..])
  }

  /** At some point of the run p is dispatched or terminated. */
  ghost predicate Served(s: State, steps: seq<Step>, p: Pid)
    requires IsRun(s, steps)
    decreases |steps|
  {
    steps != []
    && var t := Next(s, steps[0]); p in t.free || DispatchingTo(s, t, p) || Served(t, steps[1..], p)
  }

  /** Round robin: a process at position i of the ready queue is dispatched with the (i+1)-th dispatch at the latest,
      unless it is terminated, whatever creations, wakeups and kills come in between. */
  lemma {:induction false} RoundRobinBound(s: State, steps: seq<Step>, p: Pid, i: nat)
    requires Sane(s) && IsRun(s, steps) && ReadyAt(s, p, i)
    requires Dispatches(s, steps) > i
    ensures Served(s, steps, p)
    decreases |steps|
  {
    StepAdvances(s, steps[0], p, i);
    NextSane(s, steps[0]);
    var t := Next(s, steps[0]);
    if p !in t.free && !DispatchingTo(s, t, p) {
      var j: nat :| j <= i && ReadyAt(t, p, j) && (Dispatching(s, t) ==> j < i);
      RoundRobinBound(t, steps[1..], p, j);
    }
  }
}

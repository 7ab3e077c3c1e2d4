/** The interval timer: what a tick does, and how far the soft-block count can drift over a run. */
module ClockRuns {
  import opened Basics
  import opened Forests
  import opened Addresses
  import opened SemQueues
  import opened Machine
  import opened Invariants
  import opened Soundness
  import opened Terminating
  import opened Guarded
  import opened Exactness
  import opened Runs

  // ---- one tick

  /** t is s with the clock's waiters q moved to the ready queue, in blocking order, and the clock's descriptor
      recycled. */
  ghost predicate Woken(s: State, q: seq<Pid>, t: State) {
    && t.ready == s.ready + q
    && t.queue == s.queue - {Clock}
    && t.wait == s.wait - Elems(q)
    && t.soft == s.soft - |q|
    && t.free == s.free && t.cur == s.cur && t.mode == s.mode && t.tree == s.tree && t.val == s.val
    && t.waiting == s.waiting && t.count == s.count && t.looping == s.looping && t.log == s.log
  }

  lemma WakeOneEffect(s: State)
    requires Sane(s) && Get(s.queue, Clock) != []
    ensures var q := s.queue[Clock]; var t := WakeOne(s);
      && t.ready == s.ready + [q[0]] && Get(t.queue, Clock) == q[1..] && t.queue - {Clock} == s.queue - {Clock}
      && t.wait == s.wait - {q[0]} && t.soft == s.soft - 1
  {
    MinusHead(s.queue[Clock]);
  }

  lemma WokenMore(s: State, p: Pid, q: seq<Pid>, t: State, u: State)
    requires t.ready == s.ready + [p] && t.queue - {Clock} == s.queue - {Clock}
    requires t.wait == s.wait - {p} && t.soft == s.soft - 1
    requires t.free == s.free && t.cur == s.cur && t.mode == s.mode && t.tree == s.tree && t.val == s.val
    requires t.waiting == s.waiting && t.count == s.count && t.looping == s.looping && t.log == s.log
    requires Woken(t, q, u)
    ensures Woken(s, [p] + q, u)
  {
  }

  lemma WakeStep(s: State, u: State)
    requires Sane(s) && Get(s.queue, Clock) != []
    requires Woken(WakeOne(s), s.queue[Clock][1..], u)
    ensures Woken(s, s.queue[Clock], u)
  {
    var q := s.queue[Clock];
    WakeOneEffect(s);
    WokenMore(s, q[0], q[1..], WakeOne(s), u);
    assert q == [q[0]] + q[1..];
  }

  lemma WokenNone(s: State)
    requires Clock !in s.queue
    ensures Woken(s, [], s)
  {
  }

  lemma {:induction false} WakeAllEffect(s: State)
    requires Sane(s)
    ensures Woken(s, Get(s.queue, Clock), WakeAll(s))
    decreases |Get(s.queue, Clock)|
  {
    if Get(s.queue, Clock) == [] {
      WokenNone(s);
    } else {
      WakeOneEffect(s);
      WakeOneSane(s);
      MinusShorter(s.queue[Clock]);
      WakeAllEffect(WakeOne(s));
      WakeStep(s, WakeAll(s));
    }
  }

  /** A clock tick wakes exactly the clock's waiters, in order, and lowers the soft-block count by their number. */
  lemma TickEffect(s: State)
    requires Sane(s)
    ensures exists t :: Woken(s, Get(s.queue, Clock), t) && Tick(s) == WithVal(t, Clock, 0)
  {
    WakeAllEffect(s);
    assert Tick(s) == WithVal(WakeAll(s), Clock, 0);
  }

  // ---- the surplus over a run

  lemma ScheduleVal(s: State)
    ensures Schedule(s).val == s.val
  {
  }

  lemma OperateVal(s: State, k: Sem, op: Op, m: Sem)
    requires k in s.val && m in s.val && m != k
    ensures m in Operate(s, k, op).val && Operate(s, k, op).val[m] == s.val[m]
  {
    if !Returns(s, k, op) {
      BlockVal(s, k, op);
    }
  }

  lemma TerminateClock(s: State, t: Pid)
    requires Sound(s) && t in Members(s.tree)
    ensures Clock in Terminate(s, t).val && Terminate(s, t).val[Clock] == s.val[Clock]
  {
    KilledEffect(s, t);
    ScheduleVal(Killed(s, t));
  }

  lemma DeviceClock(s: State, d: Dev)
    requires Sound(s) && Orderly(s) && DeviceExpected(s, d)
    ensures Clock in DeviceInterrupt(s, d).val && DeviceInterrupt(s, d).val[Clock] == s.val[Clock]
  {
    DeviceFacts(s, d);
    InterruptServes(s, d);
  }

  /** g_pseudo_clock is cleared by the first tick or CLOCKWAIT and never set again. */
  lemma ClockStep(s: State, st: Step)
    requires Inv(s) && Guard(s, st)
    ensures Clock in Next(s, st).val
    ensures Next(s, st).val[Clock] == if st.STick? || st.SClockWait? then 0 else s.val[Clock]
  {
    match st
    case SCreate =>
    case STerminate(t) => TerminateClock(s, t);
    case SP(k) => OperateVal(s, k, OpP, Clock);
    case SV(k) => OperateVal(s, k, OpV, Clock);
    case SDoIO(a) => IssueClock(s, ResolveDeviceAddress(a) as Dev);
    case SClockWait => assert ClockInv(s.val, s.queue); ClockWaitVal(s);
    case STimeslice => ScheduleVal(Preempted(s));
    case STick =>
    case SDevice(d) => DeviceClock(s, d);
    case SResume => ScheduleVal(s);
  }

  lemma ClockWaitVal(s: State)
    requires Clock in s.val && 0 <= s.val[Clock] <= 1 && s.mode.Running? && s.cur.Some?
    requires Clock in s.queue ==> s.val[Clock] == 0
    ensures Clock in ClockWait(s).val && ClockWait(s).val[Clock] == 0
  {
    if s.val[Clock] == 0 {
      BlockVal(SoftUp(s), Clock, OpP);
    }
  }

  lemma IssueClock(s: State, d: Dev)
    requires KernelWords(s) && s.cur.Some?
    ensures Clock in IssueIO(s, d).val && IssueIO(s, d).val[Clock] == s.val[Clock]
  {
    OperateVal(s, Mut(d), OpP, Clock);
    OperateVal(s, Mut(d), OpP, Sync(d));
    if Returns(s, Mut(d), OpP) {
      var t := Operate(s, Mut(d), OpP);
      OperateVal(Start(t, d, s.cur.value), Sync(d), OpP, Clock);
    }
  }

  /** CLOCKWAIT calls that return at once. */
  ghost function EarlyClockWaits(s: State, steps: seq<Step>): int
    requires IsRun(s, steps)
    decreases |steps|
  {
    if steps == [] then 0
    else (if steps[0].SClockWait? && s.val[Clock] == 1 then 1 else 0) + EarlyClockWaits(Next(s, steps[0]), steps[1..])
  }

  /** Clock waiters killed. */
  ghost function KilledClockWaiters(s: State, steps: seq<Step>): int
    requires IsRun(s, steps)
    decreases |steps|
  {
    if steps == [] then 0
    else (if steps[0].STerminate? then |ClockVictims(s.wait, Members(Subtree(s.tree, steps[0].t)))| else 0)
         + KilledClockWaiters(Next(s, steps[0]), steps[1..])
  }

  lemma {:induction false} SlackRun(s: State, steps: seq<Step>)
    requires Inv(s) && IsGuardedRun(s, steps)
    ensures IsRun(s, steps)
    ensures Slack(After(s, steps)) == Slack(s) + EarlyClockWaits(s, steps) + KilledClockWaiters(s, steps)
    ensures 0 <= EarlyClockWaits(s, steps) <= s.val[Clock]
    decreases |steps|
  {
    GuardedIsRun(s, steps);
    assert ClockInv(s.val, s.queue);
    if steps != [] {
      SlackStep(s, steps[0]);
      ClockStep(s, steps[0]);
      GuardExact(s, steps[0]);
      SlackRun(Next(s, steps[0]), steps[1..]);
    }
  }

  /** Soft-block accounting from boot: g_soft_block_count is the number of processes blocked on the clock or on a
      device operation, plus the clock waiters that were killed, plus one if some CLOCKWAIT came before the first
      tick; there is at most one such call that does not block. */
  lemma SoftBlockAccounting(words: map<u32, int>, steps: seq<Step>)
    requires Binary(words) && IsGuardedRun(Boot(words), steps)
    ensures IsRun(Boot(words), steps)
    ensures var s := After(Boot(words), steps);
      s.soft == |SoftSet(s.wait)| + EarlyClockWaits(Boot(words), steps) + KilledClockWaiters(Boot(words), steps)
    ensures 0 <= EarlyClockWaits(Boot(words), steps) <= 1
  {
    BootInv(words);
    SlackRun(Boot(words), steps);
    assert SoftSet(Boot(words).wait) == {};
    assert ClockInv(Boot(words).val, Boot(words).queue);
  }
}

/** The guards are exact: from a state that satisfies Inv, a step leads to one if and only if its guard holds. */
module Exactness {
  import opened Basics
  import opened Forests
  import opened Addresses
  import opened SemQueues
  import opened Machine
  import opened Invariants
  import opened Soundness
  import opened Killing
  import opened Terminating
  import opened Guarded

  // ---- termination

  /** The clock waiters in x. */
  function ClockVictims(wait: map<Pid, Wait>, x: set<Pid>): set<Pid> {
    set p | p in x && p in wait && wait[p].on.Clock?
  }

  ghost predicate NoneInIO(wait: map<Pid, Wait>, x: set<Pid>) {
    forall p :: p in x && p in wait ==> !wait[p].on.Sync?
  }

  lemma NothingInFlight(s: State, x: set<Pid>)
    requires Sound(s) && Orderly(s) && NoneInIO(s.wait, x)
    ensures AllInFlight(s.wait, s.waiting, x) == {}
    ensures AbortedVals(s.val, s.wait, s.waiting, x) == s.val
  {
    forall p | p in x ensures !InFlight(s.wait, s.waiting, p) {
      NotInFlight(s, p);
    }
    NoneAborted(s.val, s.wait, s.waiting, x);
  }

  lemma NoneAborted(val: map<Sem, int>, wait: map<Pid, Wait>, waiting: map<Dev, Pid>, x: set<Pid>)
    requires forall p :: p in x ==> !InFlight(wait, waiting, p)
    ensures AllInFlight(wait, waiting, x) == {} && AbortedVals(val, wait, waiting, x) == val
  {
  }

  lemma NotInFlight(s: State, p: Pid)
    requires Sound(s) && Orderly(s) && (p in s.wait ==> !s.wait[p].on.Sync?)
    ensures !InFlight(s.wait, s.waiting, p)
  {
    if p in s.wait && OfDevice(s.wait[p].on) {
      DeviceFacts(s, s.wait[p].on.d);
    }
  }

  lemma SoftSetKill(wait: map<Pid, Wait>, x: set<Pid>)
    requires NoneInIO(wait, x)
    ensures |SoftSet(wait - x)| == |SoftSet(wait)| - |ClockVictims(wait, x)|
  {
    assert SoftSet(wait) == SoftSet(wait - x) + ClockVictims(wait, x);
    assert SoftSet(wait - x) !! ClockVictims(wait, x);
  }

  lemma SemKill(s: State, x: set<Pid>)
    requires Sound(s) && Orderly(s) && NoneInIO(s.wait, x)
    ensures Semaphores(s.val, Purged(s.queue, x), s.wait - x, s.waiting)
  {
    var q, w := Purged(s.queue, x), s.wait - x;
    forall d: Dev ensures DeviceInv(s.val, q, s.waiting, d) {
      DeviceFacts(s, d);
      PurgedGet(s.queue, x, Sync(d));
      MinusNothing(Get(s.queue, Sync(d)), x);
      assert DeviceInv(s.val, s.queue, s.waiting, d);
    }
    forall m | m in s.val && m.User? ensures UserInv(s.val, w, m) {
      assert UserInv(s.val, s.wait, m);
    }
  }

  lemma LostKill(s: State, x: set<Pid>, r: State)
    requires Lost(s) == {} && OnCpu(s) <= Members(s.tree)
    requires OnCpu(s) !! s.wait.Keys && forall p :: p in OnCpu(s) ==> p !in s.ready
    requires r.ready == Minus(s.ready, x) && r.wait == s.wait - x && r.mode == Idle
    requires Members(r.tree) == Members(s.tree) - x
    ensures Lost(r) == OnCpu(s) - x
  {
  }

  lemma ReapedOrderly(s: State, x: set<Pid>, dead: seq<Pid>, f: Forest, r: State)
    requires Sound(s) && Orderly(s) && s.mode.Running? && Reaped(s, x, dead, f, r)
    requires Members(f) == Members(s.tree) - x
    requires OnCpu(s) <= x && NoneInIO(s.wait, x)
    ensures Orderly(r) && Slack(r) == Slack(s) + |ClockVictims(s.wait, x)|
  {
    LostKill(s, x, r);
    NothingInFlight(s, x);
    SoftSetKill(s.wait, x);
    SemKill(s, x);
  }

  lemma TerminateOrderly(s: State, t: Pid)
    requires Sound(s) && Orderly(s) && s.mode.Running?
    requires VictimIsCaller(s, t) && NoVictimInIO(s, t)
    ensures Orderly(Terminate(s, t))
    ensures Slack(Terminate(s, t)) == Slack(s) + |ClockVictims(s.wait, Members(Subtree(s.tree, t)))|
  {
    var f := Subtree(s.tree, t);
    KilledEffect(s, t);
    PruneMembers(s.tree, t);
    KilledSane(s, t);
    ReapedOrderly(s, Members(f), Postorder(f), Prune(s.tree, t), Killed(s, t));
    ScheduleOrderly(Killed(s, t));
  }

  /** Killing a process that is neither the caller nor an ancestor of it leaves the caller nowhere. */
  lemma CallerLost(s: State, t: Pid)
    requires Sound(s) && Orderly(s) && s.mode.Running? && !VictimIsCaller(s, t)
    ensures s.cur.value in Lost(Terminate(s, t))
  {
    var f := Subtree(s.tree, t);
    KilledEffect(s, t);
    PruneMembers(s.tree, t);
    LostKill(s, Members(f), Killed(s, t));
    LostSchedule(Killed(s, t));
  }

  /** Killing a process in mid-operation leaves its device's sem_sync at -1. */
  lemma DeviceAborted(s: State, t: Pid, p: Pid)
    requires Sound(s) && Orderly(s)
    requires p in Members(Subtree(s.tree, t)) && p in s.wait && s.wait[p].on.Sync?
    ensures s.wait[p].on in Terminate(s, t).val && Terminate(s, t).val[s.wait[p].on] == -1
  {
    var x := Members(Subtree(s.tree, t));
    var d := s.wait[p].on.d;
    KilledEffect(s, t);
    DeviceFacts(s, d);
    assert p in s.queue[Sync(d)];
    assert Aborted(s.wait, s.waiting, x, d);
    assert Killed(s, t).val[Sync(d)] == -1;
  }

  lemma TerminateExact(s: State, t: Pid)
    requires Sound(s) && Orderly(s) && s.mode.Running?
    ensures Orderly(Terminate(s, t)) <==> VictimIsCaller(s, t) && NoVictimInIO(s, t)
  {
    if !VictimIsCaller(s, t) {
      CallerLost(s, t);
    } else if !NoVictimInIO(s, t) {
      var p :| p in s.wait && p in Members(Subtree(s.tree, t)) && s.wait[p].on.Sync?;
      DeviceAborted(s, t, p);
      assert !DeviceInv(Terminate(s, t).val, Terminate(s, t).queue, Terminate(s, t).waiting, s.wait[p].on.d);
    } else {
      TerminateOrderly(s, t);
    }
  }

  // ---- device interrupts

  /** The state in which handleDeviceInt, having released the issuer p of the answered command, tries to pass the
      device on to q, the first process queued on its mutex. */
  function HandOff(s: State, d: Dev, q: Pid): State
    requires d in s.waiting && Get(s.queue, Sync(d)) != []
  {
    Start(Removed(Logged(Release(EndIO(s, d), Sync(d)), Done(OpV, Sync(d))), Mut(d), q), d, q)
  }

  lemma InterruptHandsOff(s: State, d: Dev)
    requires d in s.waiting && Mut(d) in s.val && Sync(d) in s.val && s.val[Sync(d)] == 0
    requires Get(s.queue, Sync(d)) != [] && Get(s.queue, Mut(d)) != []
    ensures DeviceInterrupt(s, d) == Block(HandOff(s, d, s.queue[Mut(d)][0]), Sync(d), OpP)
  {
    var t := Logged(Release(EndIO(s, d), Sync(d)), Done(OpV, Sync(d)));
    var q := s.queue[Mut(d)][0];
    assert Operate(EndIO(s, d), Sync(d), OpV) == t;
    assert t.queue[Mut(d)][0] == q;
    assert FreeDevice(t, d) == BeginIO(Removed(t, Mut(d), q), d, q);
    assert HandOff(s, d, q).val[Sync(d)] == 0;
  }

  /** The hand-off parks g_current_process instead of q, and q is left nowhere. */
  lemma HandOffLoses(s: State, d: Dev, q: Pid)
    requires Sane(s) && d in s.waiting && Get(s.queue, Sync(d)) == [s.waiting[d]]
    requires q in s.wait && s.wait[q].on == Mut(d)
    ensures q in Lost(HandOff(s, d, q)) && HandOff(s, d, q).cur == s.cur != Some(q)
  {
    var h := HandOff(s, d, q);
    assert s.waiting[d] in s.queue[Sync(d)] && s.waiting[d] != q;
    assert h.ready == s.ready + [s.waiting[d]];
    assert q !in OnCpu(s);
  }

  /** Blocking g_current_process finds no lost process again but itself. */
  lemma LostStays(s: State, k: Sem, op: Op, q: Pid)
    requires q in Lost(s) && s.cur.Some? && s.cur != Some(q)
    ensures q in Lost(Block(s, k, op))
  {
    var t := Unlisted(s, s.cur.value);
    UnlistedFrame(s, s.cur.value);
    assert q in Members(t.tree) && q !in t.ready;
    LostSchedule(Park(t, k, op));
    assert q in Lost(Park(t, k, op));
  }

  lemma BatonDropped(s: State, d: Dev)
    requires Sound(s) && Orderly(s) && (s.mode.Running? || s.mode.Idle?) && d in s.waiting && Mut(d) in s.queue
    ensures !Orderly(DeviceInterrupt(s, d))
  {
    var q := s.queue[Mut(d)][0];
    DeviceFacts(s, d);
    SoundFacts(s, Mut(d));
    InterruptHandsOff(s, d);
    HandOffLoses(s, d, q);
    BlockedNotOrderly(HandOff(s, d, q), Sync(d), OpP, q);
  }

  lemma BlockedNotOrderly(s: State, k: Sem, op: Op, q: Pid)
    requires q in Lost(s) && s.cur != Some(q)
    ensures !Orderly(Block(s, k, op))
  {
    if s.cur.Some? {
      LostStays(s, k, op, q);
    }
  }

  lemma DeviceExact(s: State, d: Dev)
    requires Sound(s) && Orderly(s) && (s.mode.Running? || s.mode.Idle?)
    ensures Orderly(DeviceInterrupt(s, d)) <==> DeviceExpected(s, d)
  {
    DeviceFacts(s, d);
    if DeviceExpected(s, d) {
      DeviceOrderly(s, d);
    } else if d in s.waiting {
      BatonDropped(s, d);
    } else {
      assert DeviceInterrupt(s, d).mode == Fault;
    }
  }

  lemma DoIOExact(s: State, a: u32)
    requires Sound(s) && Orderly(s) && s.mode.Running?
    ensures Orderly(DoIO(s, a)) <==> ResolveDeviceAddress(a) != -1
  {
    if ResolveDeviceAddress(a) == -1 {
      SoundFacts(s, Clock);
      assert s.cur.value in OnCpu(s);
      assert s.cur.value in Lost(WithMode(s, Panicked));
    } else {
      IssueOrderly(s, ResolveDeviceAddress(a) as Dev);
    }
  }

  lemma IssueHolds(s: State, d: Dev)
    requires Sound(s) && Orderly(s) && s.mode.Running?
    ensures d in IssueIO(s, d).waiting
  {
    SoundFacts(s, Mut(d));
    assert DeviceInv(s.val, s.queue, s.waiting, d);
    if d in s.waiting {
      BlockEffect(s, Mut(d), OpP);
    } else {
      IssueIdle(s, d);
      ScheduleFrame(Issued(s, d));
    }
  }

  /** While a command is under way there is something to wait for. */
  lemma BusyNotPanicked(s: State, d: Dev)
    requires Sound(s) && Orderly(s) && d in s.waiting
    ensures !s.mode.Panicked?
  {
    DeviceFacts(s, d);
    assert s.waiting[d] in SoftSet(s.wait);
  }

  /** DOIO on an address outside the device registers stops the machine, with everything else as it was; on an address
      inside it never does. */
  lemma DoIOPanics(s: State, a: u32)
    requires Inv(s) && s.mode.Running?
    ensures Enabled(s, SDoIO(a))
    ensures !(DEVREG_START <= a < TERMREG_END) ==> Next(s, SDoIO(a)) == s.(mode := Panicked)
    ensures DEVREG_START <= a < TERMREG_END ==> !Next(s, SDoIO(a)).mode.Panicked?
  {
    if DEVREG_START <= a < TERMREG_END {
      var d := ResolveDeviceAddress(a) as Dev;
      IssueOrderly(s, d);
      IssueHolds(s, d);
      DoIOSane(s, a);
      BusyNotPanicked(DoIO(s, a), d);
    }
  }

  // ---- main results

  lemma OrderlyExact(s: State, st: Step)
    requires Inv(s) && Enabled(s, st)
    ensures Orderly(Next(s, st)) <==> Guard(s, st)
  {
    match st
    case SCreate => CreateOrderly(s);
    case STerminate(t) => TerminateExact(s, t);
    case SP(k) => UserOrderly(s, k, OpP);
    case SV(k) => UserOrderly(s, k, OpV);
    case SDoIO(a) => DoIOExact(s, a);
    case SClockWait => ClockWaitOrderly(s);
    case STimeslice => SoundFacts(s, Clock); TimesliceOrderly(s);
    case STick => TickOrderly(s);
    case SDevice(d) => DeviceExact(s, d);
    case SResume => SoundFacts(s, Clock); ScheduleOrderly(s);
  }

  /** A guarded step revives nobody and frees nobody again. */
  lemma GuardedLetsLie(s: State, st: Step)
    requires Inv(s) && Guard(s, st)
    ensures !Miscounts(s, st)
  {
    if st.SDevice? {
      DeviceFacts(s, st.d);
    }
  }

  /** The guards are the weakest ones: an enabled step keeps the invariants exactly when its guard holds. */
  lemma GuardExact(s: State, st: Step)
    requires Inv(s) && Enabled(s, st)
    ensures Inv(Next(s, st)) <==> Guard(s, st)
  {
    OrderlyExact(s, st);
    NextSound(s, st);
    if Guard(s, st) {
      GuardedLetsLie(s, st);
    }
  }

  /** What a step adds to the surplus of g_soft_block_count: a CLOCKWAIT that does not block, because g_pseudo_clock
      is still at its initial value, and every killed clock waiter. */
  function SlackGain(s: State, st: Step): int
    requires Clock in s.val
  {
    match st
    case SClockWait => s.val[Clock]
    case STerminate(t) => |ClockVictims(s.wait, Members(Subtree(s.tree, t)))|
    case _ => 0
  }

  /** The soft-block count is exact up to a surplus that only those two events feed. */
  lemma SlackStep(s: State, st: Step)
    requires Inv(s) && Guard(s, st)
    ensures Slack(Next(s, st)) == Slack(s) + SlackGain(s, st)
  {
    match st
    case SCreate => CreateOrderly(s);
    case STerminate(t) => TerminateOrderly(s, t);
    case SP(k) => UserOrderly(s, k, OpP);
    case SV(k) => UserOrderly(s, k, OpV);
    case SDoIO(a) => IssueOrderly(s, ResolveDeviceAddress(a) as Dev);
    case SClockWait => ClockWaitOrderly(s);
    case STimeslice => SoundFacts(s, Clock); TimesliceOrderly(s);
    case STick => TickOrderly(s);
    case SDevice(d) => DeviceOrderly(s, d);
    case SResume => SoundFacts(s, Clock); ScheduleOrderly(s);
  }
}

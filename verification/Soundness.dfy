/** Every step but termination keeps Sane, whatever the guards say; only reviving a freed PCB adds to Excess. */
module Soundness {
  import opened Basics
  import opened Forests
  import opened Addresses
  import opened SemQueues
  import opened Machine
  import opened Invariants

  // ---- single assignments

  lemma ModeSane(s: State, m: Mode)
    requires Sane(s) && !m.Running?
    ensures Sane(WithMode(s, m))
  {
  }

  lemma SoftSane(s: State)
    requires Sane(s)
    ensures Sane(SoftUp(s)) && Sane(SoftDown(s))
  {
  }

  lemma LoggedSane(s: State, e: Event)
    requires Sane(s)
    ensures Sane(Logged(s, e))
  {
  }

  lemma HeldSane(s: State, d: Dev, p: Pid)
    requires Sane(s)
    ensures Sane(Held(s, d, p))
  {
  }

  lemma VacatedSane(s: State, d: Dev)
    requires Sane(s)
    ensures Sane(Vacated(s, d))
  {
  }

  lemma ValSane(s: State, k: Sem, x: int)
    requires Sane(s) && k in s.val
    ensures Sane(WithVal(s, k, x))
  {
  }

  // ---- queues

  lemma DispatchedSane(s: State)
    requires Sane(s) && OnCpu(s) == {} && s.ready != []
    ensures Sane(Dispatched(s))
  {
  }

  lemma ScheduleSane(s: State)
    requires Sane(s) && !s.mode.Running?
    ensures Sane(Schedule(s)) && Excess(Schedule(s)) == Excess(s)
  {
    if s.ready != [] {
      DispatchedSane(s);
      LoggedSane(Dispatched(s), Dispatch(s.ready[0]));
    } else {
      ModeSane(s, IdleMode(s.count, s.soft));
    }
  }

  lemma QueuedAppend(queue: map<Sem, seq<Pid>>, wait: map<Pid, Wait>, k: Sem, c: Pid, op: Op)
    requires Queued(queue, wait) && c !in wait
    ensures Queued(queue[k := Get(queue, k) + [c]], wait[c := Wait(k, op)])
  {
  }

  lemma ParkSane(s: State, k: Sem, op: Op)
    requires Sane(s) && s.cur.Some? && k in s.val && s.cur.value in Members(s.tree)
    ensures Sane(Park(s, k, op))
  {
    QueuedAppend(s.queue, s.wait, k, s.cur.value, op);
  }

  /** Whether the kernel holds on to a PCB that has been freed. */
  predicate HoldsFreed(s: State) {
    s.cur.Some? && s.cur.value in s.free
  }

  lemma RevivedSane(s: State)
    requires Sane(s) && HoldsFreed(s)
    ensures var t := Unlisted(s, s.cur.value);
      Sane(t) && s.cur.value in Members(t.tree) && Excess(t) == Excess(s) + 1
  {
    var c := s.cur.value;
    DistinctSnoc(s.tree, c);
    NoDupMinus(s.free, {c});
    assert OnCpu(s) == {};
  }

  /** insertBlocked finds g_current_process on no list, unless it has been freed. */
  lemma UnlistedSane(s: State)
    requires Sane(s) && s.cur.Some?
    ensures var t := Unlisted(s, s.cur.value);
      && Sane(t) && s.cur.value in Members(t.tree) && t.mode == s.mode
      && Excess(t) == Excess(s) + if HoldsFreed(s) then 1 else 0
    ensures !HoldsFreed(s) ==> Unlisted(s, s.cur.value) == s
  {
    if HoldsFreed(s) {
      RevivedSane(s);
    }
  }

  lemma BlockSane(s: State, k: Sem, op: Op)
    requires Sane(s) && k in s.val
    ensures Sane(Block(s, k, op))
    ensures Excess(Block(s, k, op)) == Excess(s) + if HoldsFreed(s) then 1 else 0
  {
    if s.cur.Some? {
      UnlistedSane(s);
      ParkSane(Unlisted(s, s.cur.value), k, op);
      ScheduleSane(Park(Unlisted(s, s.cur.value), k, op));
    } else {
      ModeSane(s, Fault);
    }
  }

  lemma QueuedRemove(queue: map<Sem, seq<Pid>>, wait: map<Pid, Wait>, k: Sem, p: Pid)
    requires Queued(queue, wait) && k in queue && p in queue[k]
    ensures Queued(Put(queue, k, Minus(queue[k], {p})), wait - {p})
  {
    NoDupMinus(queue[k], {p});
    var q, w := Put(queue, k, Minus(queue[k], {p})), wait - {p};
    forall x | x in w ensures w[x].on in q && x in q[w[x].on] {
      assert wait[x].on == k ==> x in Minus(queue[k], {p});
    }
    forall m, x | m in q && x in q[m] ensures x in w && w[x].on == m {
      assert x in queue[m] && wait[x].on == m;
      assert p in queue[k] && wait[p].on == k;
    }
  }

  lemma RemovedSane(s: State, k: Sem, p: Pid)
    requires Sane(s) && p in Get(s.queue, k)
    ensures Sane(Removed(s, k, p))
  {
    QueuedRemove(s.queue, s.wait, k, p);
  }

  lemma ReadiedSane(s: State, p: Pid)
    requires Sane(s) && p in Members(s.tree) && p !in s.ready && p !in s.wait && p !in OnCpu(s) && s.cur != Some(p)
    ensures Sane(Readied(s, p))
  {
  }

  lemma WaiterElsewhere(s: State, k: Sem, p: Pid)
    requires Sane(s) && p in Get(s.queue, k)
    ensures p in Members(s.tree) && p in s.wait && p !in s.ready && p !in OnCpu(s) && s.cur != Some(p)
  {
  }

  lemma MoveToReadySane(s: State, k: Sem)
    requires Sane(s) && k in s.queue
    ensures Sane(Readied(Removed(s, k, s.queue[k][0]), s.queue[k][0]))
  {
    var p := s.queue[k][0];
    WaiterElsewhere(s, k, p);
    RemovedSane(s, k, p);
    ReadiedSane(Removed(s, k, p), p);
  }

  lemma GrantSane(s: State, k: Sem, op: Op)
    requires Sane(s) && Get(s.queue, k) != []
    ensures var t := Logged(Release(s, k), Done(op, k)); Sane(t) && Excess(t) == Excess(s)
  {
    var p := s.queue[k][0];
    MoveToReadySane(s, k);
    LoggedSane(Readied(Removed(s, k, p), p), Done(PendingOp(s, p), k));
    LoggedSane(Release(s, k), Done(op, k));
  }

  lemma PassSane(s: State, k: Sem, v: int, op: Op)
    requires Sane(s) && k in s.val
    ensures var t := Logged(WithVal(s, k, v), Done(op, k)); Sane(t) && Excess(t) == Excess(s)
  {
    ValSane(s, k, v);
    LoggedSane(WithVal(s, k, v), Done(op, k));
  }

  lemma OperateSane(s: State, k: Sem, op: Op)
    requires Sane(s) && k in s.val
    ensures Sane(Operate(s, k, op))
    ensures Excess(Operate(s, k, op)) == Excess(s) + if !Returns(s, k, op) && HoldsFreed(s) then 1 else 0
  {
    if !Returns(s, k, op) {
      BlockSane(s, k, op);
      assert Operate(s, k, op) == Block(s, k, op);
    } else if Get(s.queue, k) != [] {
      GrantSane(s, k, op);
      assert Operate(s, k, op) == Logged(Release(s, k), Done(op, k));
    } else {
      PassSane(s, k, if op.OpP? then s.val[k] - 1 else s.val[k] + 1, op);
    }
  }

  // ---- devices

  lemma UnlistedFrame(s: State, c: Pid)
    ensures var t := Unlisted(s, c);
      && t.cur == s.cur && t.mode == s.mode && t.queue == s.queue && t.wait == s.wait && t.val == s.val
      && t.waiting == s.waiting && t.count == s.count && t.soft == s.soft && t.log == s.log
  {
  }

  /** What Block schedules from. */
  lemma Parked(s: State, k: Sem, op: Op) returns (t: State)
    requires s.cur.Some?
    ensures Block(s, k, op) == Schedule(t) && t.mode == Idle && t.cur == None
    ensures t.val == s.val && t.waiting == s.waiting && t.count == s.count && t.soft == s.soft && t.log == s.log
    ensures t.queue == s.queue[k := Get(s.queue, k) + [s.cur.value]] && t.wait == s.wait[s.cur.value := Wait(k, op)]
    ensures s.cur.value !in s.ready ==> t.ready == s.ready
    ensures s.cur.value !in s.free && s.cur.value !in s.ready ==> t == Park(s, k, op)
  {
    UnlistedFrame(s, s.cur.value);
    t := Park(Unlisted(s, s.cur.value), k, op);
  }

  lemma ScheduleFrame(s: State)
    ensures var t := Schedule(s);
      && t.val == s.val && t.waiting == s.waiting && t.queue == s.queue && t.wait == s.wait && t.tree == s.tree
      && t.free == s.free && t.count == s.count && t.soft == s.soft && !t.mode.Fault?
  {
  }

  /** What blocking does to semaphores and devices. */
  lemma BlockEffect(s: State, k: Sem, op: Op)
    requires s.cur.Some?
    ensures var t := Block(s, k, op);
      && t.val == s.val && t.waiting == s.waiting && !t.mode.Fault?
      && t.queue == s.queue[k := Get(s.queue, k) + [s.cur.value]] && t.wait == s.wait[s.cur.value := Wait(k, op)]
  {
    var t := Parked(s, k, op);
    ScheduleFrame(t);
  }

  lemma BlockVal(s: State, k: Sem, op: Op)
    ensures Block(s, k, op).val == s.val
  {
    if s.cur.Some? {
      var _ := Parked(s, k, op);
    }
  }

  /** P and V create no semaphore and destroy none. */
  lemma OperateWords(s: State, k: Sem, op: Op)
    requires k in s.val
    ensures Operate(s, k, op).val.Keys == s.val.Keys
  {
    if !Returns(s, k, op) {
      BlockVal(s, k, op);
    }
  }

  lemma BeginIOSane(s: State, d: Dev, p: Pid)
    requires Sane(s)
    ensures Sane(BeginIO(s, d, p))
    ensures Excess(BeginIO(s, d, p)) == Excess(s) + if s.val[Sync(d)] != 1 && HoldsFreed(s) then 1 else 0
  {
    HeldSane(s, d, p);
    LoggedSane(Held(s, d, p), Begin(d, p));
    SoftSane(Logged(Held(s, d, p), Begin(d, p)));
    OperateSane(Start(s, d, p), Sync(d), OpP);
  }

  lemma DoIOSane(s: State, a: u32)
    requires Sane(s) && s.mode.Running?
    ensures Sane(DoIO(s, a)) && Excess(DoIO(s, a)) == Excess(s)
  {
    if ResolveDeviceAddress(a) == -1 {
      ModeSane(s, Panicked);
    } else {
      var d := ResolveDeviceAddress(a) as Dev;
      OperateSane(s, Mut(d), OpP);
      if Returns(s, Mut(d), OpP) {
        BeginIOSane(Operate(s, Mut(d), OpP), d, s.cur.value);
      }
    }
  }

  lemma FreeDeviceSane(s: State, d: Dev)
    requires Sane(s)
    ensures Sane(FreeDevice(s, d))
    ensures Excess(FreeDevice(s, d)) == Excess(s) +
      if Get(s.queue, Mut(d)) != [] && s.val[Sync(d)] != 1 && HoldsFreed(s) then 1 else 0
  {
    if Get(s.queue, Mut(d)) != [] {
      var p := s.queue[Mut(d)][0];
      RemovedSane(s, Mut(d), p);
      BeginIOSane(Removed(s, Mut(d), p), d, p);
    } else {
      VacatedSane(s, d);
      ValSane(Vacated(s, d), Mut(d), s.val[Mut(d)] + 1);
    }
  }

  lemma SignalDeviceSane(s: State, d: Dev)
    requires Sane(s)
    ensures Sane(SignalDevice(s, d))
    ensures Excess(SignalDevice(s, d)) == Excess(s) +
      if (s.val[Sync(d)] != 0 || (Get(s.queue, Sync(d)) != [] && Get(s.queue, Mut(d)) != [])) && HoldsFreed(s)
      then 1 else 0
  {
    OperateSane(s, Sync(d), OpV);
    if Returns(s, Sync(d), OpV) {
      FreeDeviceSane(Operate(s, Sync(d), OpV), d);
    }
  }

  lemma DeviceSane(s: State, d: Dev)
    requires Sane(s)
    ensures Sane(DeviceInterrupt(s, d))
    ensures Excess(DeviceInterrupt(s, d)) == Excess(s) + if InterruptBlocks(s, d) && HoldsFreed(s) then 1 else 0
  {
    if s.val[Sync(d)] == -1 {
      SignalDeviceSane(s, d);
    } else if d in s.waiting {
      LoggedSane(s, End(d, s.waiting[d]));
      SoftSane(Logged(s, End(d, s.waiting[d])));
      SignalDeviceSane(EndIO(s, d), d);
    } else {
      ModeSane(s, Fault);
    }
  }

  // ---- the clock

  lemma ClockWaitSane(s: State)
    requires Sane(s)
    ensures Sane(ClockWait(s)) && (s.mode.Running? ==> Excess(ClockWait(s)) == Excess(s))
  {
    SoftSane(s);
    OperateSane(SoftUp(s), Clock, OpP);
  }

  lemma WakeOneSane(s: State)
    requires Sane(s) && Get(s.queue, Clock) != []
    ensures Sane(WakeOne(s)) && Excess(WakeOne(s)) == Excess(s)
  {
    var p := s.queue[Clock][0];
    assert p in s.wait;
    RemovedSane(s, Clock, p);
    SoftSane(Removed(s, Clock, p));
    ReadiedSane(SoftDown(Removed(s, Clock, p)), p);
  }

  lemma {:induction false} WakeAllSane(s: State)
    requires Sane(s)
    ensures Sane(WakeAll(s)) && Excess(WakeAll(s)) == Excess(s)
    decreases |Get(s.queue, Clock)|
  {
    if Get(s.queue, Clock) != [] {
      WakeOneSane(s);
      MinusShorter(s.queue[Clock]);
      WakeAllSane(WakeOne(s));
    }
  }

  lemma TickSane(s: State)
    requires Sane(s)
    ensures Sane(Tick(s)) && Excess(Tick(s)) == Excess(s)
  {
    WakeAllSane(s);
    ValSane(WakeAll(s), Clock, 0);
  }

  lemma TimesliceSane(s: State)
    requires Sane(s) && s.mode.Running?
    ensures Sane(Timeslice(s)) && Excess(Timeslice(s)) == Excess(s)
  {
    DroppedSane(s);
    ScheduleSane(Preempted(s));
  }

  lemma DroppedSane(s: State)
    requires Sane(s) && s.mode.Running?
    ensures Sane(Preempted(s))
  {
  }

  // ---- creation

  lemma CensusCreate(free: seq<Pid>, live: set<Pid>)
    requires Census(free, live) && free != []
    ensures Census(free[1..], live + {free[0]}) && free[0] !in live
  {
  }

  lemma ApartCreate(ready: seq<Pid>, blocked: set<Pid>, running: set<Pid>, live: set<Pid>, p: Pid)
    requires Apart(ready, blocked, running, live) && p !in live
    ensures Apart(ready + [p], blocked, running, live + {p})
  {
  }

  lemma GrownSane(s: State, f: Forest)
    requires Sane(s) && s.mode.Running? && s.free != []
    requires Distinct(f) && (Rooted(s.tree) ==> Rooted(f)) && Members(f) == Members(s.tree) + {s.free[0]}
    ensures Sane(Grown(s, f)) && Excess(Grown(s, f)) == Excess(s)
  {
    CensusCreate(s.free, Members(s.tree));
    ApartCreate(s.ready, s.wait.Keys, OnCpu(s), Members(s.tree), s.free[0]);
    assert s.cur.value in OnCpu(s);
  }

  lemma CreateSane(s: State)
    requires Sane(s) && s.mode.Running?
    ensures Sane(Create(s)) && Excess(Create(s)) == Excess(s)
  {
    if s.free != [] {
      assert s.cur.value in OnCpu(s);
      AddedChild(s.tree, s.cur.value, s.free[0]);
      GrownSane(s, AddChild(s.tree, s.cur.value, s.free[0]));
    }
  }

  lemma AddedChild(f: Forest, par: Pid, p: Pid)
    requires Distinct(f) && par in Members(f) && p !in Members(f)
    ensures var g := AddChild(f, par, p);
      Distinct(g) && (Rooted(f) ==> Rooted(g)) && Members(g) == Members(f) + {p}
  {
    DistinctAddChild(f, par, p);
  }

  // ---- the tree, outside creation and termination

  /** The tree of t is that of s, or has the freed PCB that s holds as one more root, uncounted. */
  ghost predicate Grafted(s: State, t: State) {
    t.count == s.count && (t.tree == s.tree || (HoldsFreed(s) && t.tree == Snoc(s.tree, s.cur.value)))
  }

  lemma BlockTree(s: State, k: Sem, op: Op)
    ensures Grafted(s, Block(s, k, op))
  {
    if s.cur.Some? {
      ScheduleFrame(Park(Unlisted(s, s.cur.value), k, op));
    }
  }

  lemma OperateTree(s: State, k: Sem, op: Op)
    requires k in s.val
    ensures var t := Operate(s, k, op);
      if Returns(s, k, op) then t.tree == s.tree && t.count == s.count && t.cur == s.cur && t.free == s.free
      else Grafted(s, t)
  {
    if !Returns(s, k, op) {
      BlockTree(s, k, op);
    }
  }

  lemma BeginIOTree(s: State, d: Dev, p: Pid)
    requires Sync(d) in s.val
    ensures Grafted(s, BeginIO(s, d, p))
  {
    OperateTree(Start(s, d, p), Sync(d), OpP);
  }

  lemma DoIOTree(s: State, a: u32)
    requires KernelWords(s) && s.cur.Some?
    ensures Grafted(s, DoIO(s, a))
  {
    if ResolveDeviceAddress(a) != -1 {
      var d := ResolveDeviceAddress(a) as Dev;
      OperateTree(s, Mut(d), OpP);
      OperateWords(s, Mut(d), OpP);
      if Returns(s, Mut(d), OpP) {
        BeginIOTree(Operate(s, Mut(d), OpP), d, s.cur.value);
      }
    }
  }

  lemma SignalTree(s: State, d: Dev)
    requires Mut(d) in s.val && Sync(d) in s.val
    ensures Grafted(s, SignalDevice(s, d))
  {
    OperateTree(s, Sync(d), OpV);
    OperateWords(s, Sync(d), OpV);
    if Returns(s, Sync(d), OpV) {
      var t := Operate(s, Sync(d), OpV);
      if Get(t.queue, Mut(d)) != [] {
        var p := t.queue[Mut(d)][0];
        BeginIOTree(Removed(t, Mut(d), p), d, p);
      }
    }
  }

  lemma {:induction false} WakeAllTree(s: State)
    ensures WakeAll(s).tree == s.tree && WakeAll(s).count == s.count
    decreases |Get(s.queue, Clock)|
  {
    if Get(s.queue, Clock) != [] {
      MinusShorter(s.queue[Clock]);
      WakeAllTree(WakeOne(s));
    }
  }

  lemma NextTree(s: State, st: Step)
    requires Enabled(s, st) && !st.SCreate? && !st.STerminate?
    ensures Grafted(s, Next(s, st))
  {
    match st
    case SP(k) => OperateTree(s, k, OpP);
    case SV(k) => OperateTree(s, k, OpV);
    case SDoIO(a) => DoIOTree(s, a);
    case SClockWait => OperateTree(SoftUp(s), Clock, OpP);
    case STimeslice => ScheduleFrame(Preempted(s));
    case STick => WakeAllTree(s);
    case SDevice(d) => if s.val[Sync(d)] == -1 || d in s.waiting {
        SignalTree(if s.val[Sync(d)] == -1 then s else EndIO(s, d), d);
      }
    case SResume => ScheduleFrame(s);
    case _ =>
  }

  /** The tree has grown by a revived root, or not at all. */
  lemma SameTop(s: State, t: State)
    requires Sane(s) && Grafted(s, t) && Excess(t) == Excess(s)
    ensures t.tree == s.tree
  {
  }
}

/** Guarded steps keep Inv: how each primitive moves processes, the soft-block slack and the semaphores. */
module Guarded {
  import opened Basics
  import opened Forests
  import opened Addresses
  import opened SemQueues
  import opened Machine
  import opened Invariants
  import opened Soundness

  // ---- where processes are

  lemma LostSchedule(s: State)
    requires !s.mode.Running?
    ensures Lost(s) <= Lost(Schedule(s))
    ensures s.looping == {} ==> Lost(Schedule(s)) == Lost(s)
  {
  }

  lemma LostPark(s: State, k: Sem, op: Op)
    requires s.mode.Running? && s.cur.Some?
    ensures Lost(Park(s, k, op)) == Lost(s)
  {
  }

  /** g_current_process is on no list. */
  predicate Unlinked(s: State) {
    s.cur.Some? && s.cur.value !in s.free && s.cur.value !in s.ready && s.cur.value !in s.wait
  }

  lemma BlockPlain(s: State, k: Sem, op: Op)
    requires Unlinked(s)
    ensures Block(s, k, op) == Schedule(Park(s, k, op))
  {
  }

  lemma LostMoved(s: State, k: Sem, p: Pid)
    requires p in s.wait
    ensures Lost(Readied(Removed(s, k, p), p)) == Lost(s)
  {
  }

  // ---- soft-block slack

  lemma SlackPark(s: State, k: Sem, op: Op)
    requires s.cur.Some? && s.cur.value !in s.wait
    ensures Slack(Park(s, k, op)) == Slack(s) - if Soft(k) then 1 else 0
  {
    var c := s.cur.value;
    assert SoftSet(s.wait[c := Wait(k, op)]) == if Soft(k) then SoftSet(s.wait) + {c} else SoftSet(s.wait);
  }

  lemma SlackRemoved(s: State, k: Sem, p: Pid)
    requires p in s.wait
    ensures Slack(Removed(s, k, p)) == Slack(s) + if Soft(s.wait[p].on) then 1 else 0
  {
    assert SoftSet(s.wait - {p}) == SoftSet(s.wait) - {p};
  }

  // ---- scheduling

  lemma ScheduleOrderly(s: State)
    requires Orderly(s) && s.mode.Idle? && s.count >= 0
    ensures Orderly(Schedule(s)) && Slack(Schedule(s)) == Slack(s)
  {
    LostSchedule(s);
  }

  lemma LoggedOrderly(s: State, e: Event)
    requires Orderly(s)
    ensures Orderly(Logged(s, e)) && Slack(Logged(s, e)) == Slack(s)
  {
  }

  // ---- semaphores, component by component

  /** Parking a process is fine on a user semaphore that is not in favour of its operation, on the clock at 0, and on
      the mutex of a busy device. */
  ghost predicate MayPark(val: map<Sem, int>, waiting: map<Dev, Pid>, k: Sem, op: Op) {
    && k in val
    && (k.User? ==> val[k] == if op.OpP? then 0 else 1)
    && (k.Clock? ==> val[k] == 0)
    && (k.Mut? ==> k.d in waiting)
    && !k.Sync?
  }

  lemma SemPark(val: map<Sem, int>, queue: map<Sem, seq<Pid>>, wait: map<Pid, Wait>, waiting: map<Dev, Pid>,
                k: Sem, c: Pid, op: Op)
    requires Semaphores(val, queue, wait, waiting) && MayPark(val, waiting, k, op) && c !in wait
    ensures Semaphores(val, queue[k := Get(queue, k) + [c]], wait[c := Wait(k, op)], waiting)
  {
    var q, w := queue[k := Get(queue, k) + [c]], wait[c := Wait(k, op)];
    forall d: Dev ensures DeviceInv(val, q, waiting, d) {
      assert DeviceInv(val, queue, waiting, d);
    }
    forall m | m in val && m.User? ensures UserInv(val, w, m) {
      assert UserInv(val, wait, m);
    }
  }

  lemma SemRemoveUser(val: map<Sem, int>, queue: map<Sem, seq<Pid>>, wait: map<Pid, Wait>, waiting: map<Dev, Pid>,
                      k: Sem, p: Pid)
    requires Semaphores(val, queue, wait, waiting) && k.User?
    ensures Semaphores(val, Put(queue, k, Minus(Get(queue, k), {p})), wait - {p}, waiting)
  {
    var q, w := Put(queue, k, Minus(Get(queue, k), {p})), wait - {p};
    forall d: Dev ensures DeviceInv(val, q, waiting, d) {
      assert DeviceInv(val, queue, waiting, d);
    }
    forall m | m in val && m.User? ensures UserInv(val, w, m) {
      assert UserInv(val, wait, m);
    }
  }

  lemma SemSetUser(val: map<Sem, int>, queue: map<Sem, seq<Pid>>, wait: map<Pid, Wait>, waiting: map<Dev, Pid>,
                   k: Sem, x: int)
    requires Semaphores(val, queue, wait, waiting) && k.User? && k in val && 0 <= x <= 1
    requires forall p :: p in wait ==> wait[p].on != k
    ensures Semaphores(val[k := x], queue, wait, waiting)
  {
    var v := val[k := x];
    forall d: Dev ensures DeviceInv(v, queue, waiting, d) {
      assert DeviceInv(val, queue, waiting, d);
    }
    forall m | m in v && m.User? ensures UserInv(v, wait, m) {
      assert UserInv(val, wait, m);
    }
  }

  // ---- P and V

  lemma ParkOrderly(s: State, k: Sem, op: Op)
    requires Orderly(s) && s.mode.Running? && s.cur.Some? && s.cur.value !in s.wait
    requires Slack(s) >= if Soft(k) then 1 else 0
    requires MayPark(s.val, s.waiting, k, op)
    ensures Orderly(Park(s, k, op)) && Slack(Park(s, k, op)) == Slack(s) - if Soft(k) then 1 else 0
  {
    LostPark(s, k, op);
    SlackPark(s, k, op);
    SemPark(s.val, s.queue, s.wait, s.waiting, k, s.cur.value, op);
  }

  lemma BlockOrderly(s: State, k: Sem, op: Op)
    requires Orderly(s) && s.mode.Running? && Unlinked(s) && s.count >= 0
    requires Slack(s) >= if Soft(k) then 1 else 0
    requires MayPark(s.val, s.waiting, k, op)
    ensures Orderly(Block(s, k, op)) && Slack(Block(s, k, op)) == Slack(s) - if Soft(k) then 1 else 0
  {
    BlockPlain(s, k, op);
    ParkOrderly(s, k, op);
    ScheduleOrderly(Park(s, k, op));
  }

  lemma MovedOrderly(s: State, k: Sem, p: Pid)
    requires Orderly(s) && !s.mode.Halted? && !s.mode.Panicked? && k.User? && p in s.wait && s.wait[p].on == k
    ensures Orderly(Readied(Removed(s, k, p), p)) && Slack(Readied(Removed(s, k, p), p)) == Slack(s)
  {
    LostMoved(s, k, p);
    SlackRemoved(s, k, p);
    SemRemoveUser(s.val, s.queue, s.wait, s.waiting, k, p);
  }

  lemma ReleaseOrderly(s: State, k: Sem, op: Op)
    requires Orderly(s) && s.mode.Running? && k.User? && k in s.val && Returns(s, k, op)
    requires k in s.queue && s.queue[k] != [] && s.queue[k][0] in s.wait && s.wait[s.queue[k][0]].on == k
    ensures Orderly(Operate(s, k, op)) && Slack(Operate(s, k, op)) == Slack(s)
  {
    var p := s.queue[k][0];
    MovedOrderly(s, k, p);
    LoggedOrderly(Readied(Removed(s, k, p), p), Done(PendingOp(s, p), k));
    LoggedOrderly(Release(s, k), Done(op, k));
  }

  lemma WithValOrderly(s: State, k: Sem, x: int)
    requires Orderly(s) && k.User? && k in s.val && 0 <= x <= 1
    requires forall p :: p in s.wait ==> s.wait[p].on != k
    ensures Orderly(WithVal(s, k, x)) && Slack(WithVal(s, k, x)) == Slack(s)
  {
    SemSetUser(s.val, s.queue, s.wait, s.waiting, k, x);
    assert Lost(WithVal(s, k, x)) == Lost(s);
  }

  lemma CountOrderly(s: State, k: Sem, op: Op)
    requires Orderly(s) && k.User? && k in s.val && k !in s.queue && Returns(s, k, op)
    requires forall p :: p in s.wait ==> s.wait[p].on != k
    ensures Orderly(Operate(s, k, op)) && Slack(Operate(s, k, op)) == Slack(s)
  {
    var x := if op.OpP? then s.val[k] - 1 else s.val[k] + 1;
    WithValOrderly(s, k, x);
    LoggedOrderly(WithVal(s, k, x), Done(op, k));
  }

  lemma StuckOrderly(s: State, k: Sem, op: Op)
    requires Orderly(s) && s.mode.Running? && Unlinked(s) && s.count >= 0
    requires k.User? && k in s.val && !Returns(s, k, op)
    ensures Orderly(Operate(s, k, op)) && Slack(Operate(s, k, op)) == Slack(s)
  {
    assert UserInv(s.val, s.wait, k);
    BlockOrderly(s, k, op);
  }

  /** What Sound says about the running process and about one queue. */
  lemma SoundFacts(s: State, k: Sem)
    requires Sound(s)
    ensures s.count >= 0
    ensures s.mode.Running? ==> Unlinked(s) && s.cur.value in Members(s.tree)
    ensures k in s.queue ==>
      s.queue[k] != [] && s.queue[k][0] in s.wait && s.wait[s.queue[k][0]].on == k
    ensures k !in s.queue ==> forall p :: p in s.wait ==> s.wait[p].on != k
  {
    if s.mode.Running? {
      assert s.cur.value in OnCpu(s);
    }
  }

  lemma UserOrderly(s: State, k: Sem, op: Op)
    requires Sound(s) && Orderly(s) && s.mode.Running? && k.User? && k in s.val
    ensures Orderly(Operate(s, k, op)) && Slack(Operate(s, k, op)) == Slack(s)
  {
    SoundFacts(s, k);
    if !Returns(s, k, op) {
      StuckOrderly(s, k, op);
    } else if k in s.queue {
      ReleaseOrderly(s, k, op);
    } else {
      CountOrderly(s, k, op);
    }
  }

  // ---- the clock

  lemma SemClock(val: map<Sem, int>, queue: map<Sem, seq<Pid>>, wait: map<Pid, Wait>, waiting: map<Dev, Pid>)
    requires Semaphores(val, queue, wait, waiting)
    ensures Semaphores(val[Clock := 0], queue, wait, waiting)
  {
    var v := val[Clock := 0];
    forall d: Dev ensures DeviceInv(v, queue, waiting, d) {
      assert DeviceInv(val, queue, waiting, d);
    }
    forall m | m in v && m.User? ensures UserInv(v, wait, m) {
      assert UserInv(val, wait, m);
    }
  }

  lemma ClearClockOrderly(s: State)
    requires Orderly(s)
    ensures Orderly(WithVal(s, Clock, 0)) && Slack(WithVal(s, Clock, 0)) == Slack(s)
  {
    SemClock(s.val, s.queue, s.wait, s.waiting);
    assert Lost(WithVal(s, Clock, 0)) == Lost(s);
  }

  lemma SoftUpOrderly(s: State)
    requires Orderly(s) && !s.mode.Panicked?
    ensures Orderly(SoftUp(s)) && Slack(SoftUp(s)) == Slack(s) + 1
  {
  }

  lemma ClockWaitOrderly(s: State)
    requires Inv(s) && s.mode.Running?
    ensures Orderly(ClockWait(s)) && Slack(ClockWait(s)) == Slack(s) + s.val[Clock]
  {
    SoundFacts(s, Clock);
    SoftUpOrderly(s);
    if s.val[Clock] == 1 {
      ClearClockOrderly(SoftUp(s));
      LoggedOrderly(WithVal(SoftUp(s), Clock, 0), Done(OpP, Clock));
    } else {
      BlockOrderly(SoftUp(s), Clock, OpP);
    }
  }

  lemma SemRemoveClock(val: map<Sem, int>, queue: map<Sem, seq<Pid>>, wait: map<Pid, Wait>, waiting: map<Dev, Pid>,
                       p: Pid)
    requires Semaphores(val, queue, wait, waiting) && Clock in queue
    ensures Semaphores(val, Put(queue, Clock, Minus(Get(queue, Clock), {p})), wait - {p}, waiting)
  {
    var q, w := Put(queue, Clock, Minus(Get(queue, Clock), {p})), wait - {p};
    forall d: Dev ensures DeviceInv(val, q, waiting, d) {
      assert DeviceInv(val, queue, waiting, d);
    }
    forall m | m in val && m.User? ensures UserInv(val, w, m) {
      assert UserInv(val, wait, m);
    }
  }

  lemma WakeOneOrderly(s: State)
    requires Orderly(s) && (s.mode.Running? || s.mode.Idle?) && Get(s.queue, Clock) != []
    requires s.queue[Clock][0] in s.wait && s.wait[s.queue[Clock][0]].on == Clock
    ensures Orderly(WakeOne(s)) && Slack(WakeOne(s)) == Slack(s)
  {
    var p := s.queue[Clock][0];
    LostMoved(s, Clock, p);
    SlackRemoved(s, Clock, p);
    SemRemoveClock(s.val, s.queue, s.wait, s.waiting, p);
    assert Lost(WakeOne(s)) == Lost(Readied(Removed(s, Clock, p), p));
  }

  lemma {:induction false} WakeAllOrderly(s: State)
    requires Sound(s) && Orderly(s) && (s.mode.Running? || s.mode.Idle?)
    ensures Orderly(WakeAll(s)) && Slack(WakeAll(s)) == Slack(s)
    decreases |Get(s.queue, Clock)|
  {
    if Get(s.queue, Clock) != [] {
      SoundFacts(s, Clock);
      WakeOneOrderly(s);
      WakeOneSane(s);
      MinusShorter(s.queue[Clock]);
      WakeAllOrderly(WakeOne(s));
    }
  }

  lemma TickOrderly(s: State)
    requires Sound(s) && Orderly(s) && (s.mode.Running? || s.mode.Idle?)
    ensures Orderly(Tick(s)) && Slack(Tick(s)) == Slack(s)
  {
    WakeAllOrderly(s);
    ClearClockOrderly(WakeAll(s));
  }

  // ---- devices

  lemma SemStart(val: map<Sem, int>, queue: map<Sem, seq<Pid>>, wait: map<Pid, Wait>, waiting: map<Dev, Pid>,
                 d: Dev, c: Pid)
    requires Semaphores(val, queue, wait, waiting) && d !in waiting && c !in wait
    ensures Semaphores(val[Mut(d) := 0], queue[Sync(d) := Get(queue, Sync(d)) + [c]], wait[c := Wait(Sync(d), OpP)],
                       waiting[d := c])
  {
    var v, q, w := val[Mut(d) := 0], queue[Sync(d) := Get(queue, Sync(d)) + [c]], wait[c := Wait(Sync(d), OpP)];
    var held := waiting[d := c];
    assert DeviceInv(val, queue, waiting, d);
    forall e: Dev ensures DeviceInv(v, q, held, e) {
      assert DeviceInv(val, queue, waiting, e);
    }
    forall m | m in v && m.User? ensures UserInv(v, w, m) {
      assert UserInv(val, wait, m);
    }
  }

  /** An idle device takes the caller's command. */
  function Issued(s: State, d: Dev): State
    requires s.cur.Some? && Mut(d) in s.val
  {
    Park(Start(Logged(WithVal(s, Mut(d), s.val[Mut(d)] - 1), Done(OpP, Mut(d))), d, s.cur.value), Sync(d), OpP)
  }

  lemma IssueIdle(s: State, d: Dev)
    requires Unlinked(s) && Mut(d) in s.val && Sync(d) in s.val
    requires s.val[Mut(d)] == 1 && s.val[Sync(d)] == 0 && Get(s.queue, Mut(d)) == []
    ensures IssueIO(s, d) == Schedule(Issued(s, d))
  {
    BlockPlain(Start(Logged(WithVal(s, Mut(d), s.val[Mut(d)] - 1), Done(OpP, Mut(d))), d, s.cur.value), Sync(d), OpP);
  }

  lemma SlackIssued(s: State, d: Dev)
    requires s.cur.Some? && s.cur.value !in s.wait && Mut(d) in s.val
    ensures Slack(Issued(s, d)) == Slack(s)
  {
    var c := s.cur.value;
    assert SoftSet(s.wait[c := Wait(Sync(d), OpP)]) == SoftSet(s.wait) + {c};
  }

  lemma IssuedOrderly(s: State, d: Dev)
    requires Orderly(s) && s.mode.Running? && s.cur.Some? && s.cur.value !in s.wait && d !in s.waiting
    ensures Mut(d) in s.val && Orderly(Issued(s, d)) && Slack(Issued(s, d)) == Slack(s)
  {
    assert DeviceInv(s.val, s.queue, s.waiting, d);
    SlackIssued(s, d);
    SemStart(s.val, s.queue, s.wait, s.waiting, d, s.cur.value);
    LostPark(s, Sync(d), OpP);
    assert Lost(Issued(s, d)) == Lost(Park(s, Sync(d), OpP));
  }

  lemma IssueOrderly(s: State, d: Dev)
    requires Sound(s) && Orderly(s) && s.mode.Running?
    ensures Orderly(IssueIO(s, d)) && Slack(IssueIO(s, d)) == Slack(s)
  {
    SoundFacts(s, Mut(d));
    assert DeviceInv(s.val, s.queue, s.waiting, d);
    if d in s.waiting {
      BlockOrderly(s, Mut(d), OpP);
    } else {
      IssuedOrderly(s, d);
      IssueIdle(s, d);
      ScheduleOrderly(Issued(s, d));
    }
  }

  lemma SemServe(val: map<Sem, int>, queue: map<Sem, seq<Pid>>, wait: map<Pid, Wait>, waiting: map<Dev, Pid>, d: Dev)
    requires Semaphores(val, queue, wait, waiting) && d in waiting && Get(queue, Mut(d)) == [] && Mut(d) !in queue
    ensures var p := waiting[d];
      Semaphores(val[Mut(d) := 1], Put(queue, Sync(d), Minus(Get(queue, Sync(d)), {p})), wait - {p}, waiting - {d})
  {
    var p := waiting[d];
    var v, q, w, h := val[Mut(d) := 1], Put(queue, Sync(d), Minus(Get(queue, Sync(d)), {p})), wait - {p}, waiting - {d};
    assert DeviceInv(val, queue, waiting, d);
    forall e: Dev ensures DeviceInv(v, q, h, e) {
      assert DeviceInv(val, queue, waiting, e);
    }
    forall m | m in v && m.User? ensures UserInv(v, w, m) {
      assert UserInv(val, wait, m);
    }
  }

  /** The issuer of the answered command becomes ready and the device idle. */
  function Served(s: State, d: Dev): State
    requires d in s.waiting && Mut(d) in s.val && Get(s.queue, Sync(d)) != []
  {
    WithVal(Vacated(Logged(Release(EndIO(s, d), Sync(d)), Done(OpV, Sync(d))), d), Mut(d), s.val[Mut(d)] + 1)
  }

  lemma InterruptServes(s: State, d: Dev)
    requires d in s.waiting && Mut(d) in s.val && Sync(d) in s.val && s.val[Sync(d)] == 0
    requires Get(s.queue, Sync(d)) != [] && Get(s.queue, Mut(d)) == []
    ensures DeviceInterrupt(s, d) == Served(s, d)
  {
    var t := Logged(Release(EndIO(s, d), Sync(d)), Done(OpV, Sync(d)));
    assert Operate(EndIO(s, d), Sync(d), OpV) == t;
    assert Get(t.queue, Mut(d)) == [];
    assert FreeDevice(t, d) == WithVal(Vacated(t, d), Mut(d), t.val[Mut(d)] + 1);
  }

  lemma ServedOrderly(s: State, d: Dev)
    requires Orderly(s) && (s.mode.Running? || s.mode.Idle?)
    requires d in s.waiting && Mut(d) !in s.queue && Sync(d) in s.queue && s.queue[Sync(d)] == [s.waiting[d]]
    requires s.waiting[d] in s.wait && s.wait[s.waiting[d]].on == Sync(d)
    requires Mut(d) in s.val && s.val[Mut(d)] == 0
    ensures Orderly(Served(s, d)) && Slack(Served(s, d)) == Slack(s)
  {
    var p, t := s.waiting[d], Served(s, d);
    LostMoved(s, Sync(d), p);
    assert Lost(t) == Lost(Readied(Removed(s, Sync(d), p), p));
    SlackRemoved(s, Sync(d), p);
    assert t.wait == s.wait - {p} && t.soft == s.soft - 1;
    SemServe(s.val, s.queue, s.wait, s.waiting, d);
  }

  lemma DeviceFacts(s: State, d: Dev)
    requires Sound(s) && Orderly(s)
    ensures Sync(d) in s.val && s.val[Sync(d)] == 0 && Mut(d) in s.val
    ensures s.val[Mut(d)] == if d in s.waiting then 0 else 1
    ensures d in s.waiting <==> Sync(d) in s.queue
    ensures d in s.waiting ==>
      s.queue[Sync(d)] == [s.waiting[d]] && s.waiting[d] in s.wait && s.wait[s.waiting[d]].on == Sync(d)
    ensures Get(s.queue, Mut(d)) == [] <==> Mut(d) !in s.queue
  {
    assert DeviceInv(s.val, s.queue, s.waiting, d);
    SoundFacts(s, Sync(d));
    SoundFacts(s, Mut(d));
  }

  lemma DeviceOrderly(s: State, d: Dev)
    requires Sound(s) && Orderly(s) && (s.mode.Running? || s.mode.Idle?) && DeviceExpected(s, d)
    ensures Mut(d) in s.val && Sync(d) in s.val
    ensures Orderly(DeviceInterrupt(s, d)) && Slack(DeviceInterrupt(s, d)) == Slack(s)
  {
    DeviceFacts(s, d);
    ServedOrderly(s, d);
    InterruptServes(s, d);
  }

  // ---- timeslice and creation

  lemma TimesliceOrderly(s: State)
    requires Orderly(s) && s.mode.Running? && s.cur.Some? && s.count >= 0
    ensures Orderly(Timeslice(s)) && Slack(Timeslice(s)) == Slack(s)
  {
    var t := Preempted(s);
    assert Lost(t) == Lost(s) by {
      forall q ensures Placed(t, q) == Placed(s, q) {
      }
    }
    ScheduleOrderly(t);
  }

  lemma CreateOrderly(s: State)
    requires Sound(s) && Orderly(s) && s.mode.Running?
    ensures Orderly(Create(s)) && Slack(Create(s)) == Slack(s)
  {
  }
}

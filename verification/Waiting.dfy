/** Semaphores one step at a time: when P and V let their caller pass, and that waiters are served in order. */
module Waiting {
  import opened Basics
  import opened Forests
  import opened Addresses
  import opened SemQueues
  import opened Machine
  import opened Invariants
  import opened Soundness
  import opened Killing
  import opened Terminating

  // ---- P and V on a word of any value

  /** The running process has blocked at the end of the queue of k, and the scheduler has been called. */
  ghost predicate Waits(s: State, k: Sem, t: State)
    requires s.cur.Some?
  {
    && t.val == s.val && t.queue == s.queue[k := Get(s.queue, k) + [s.cur.value]] && s.cur.value in t.wait
    && t.ready == (if s.ready == [] then [] else s.ready[1..])
    && (s.ready != [] ==> t.cur == Some(s.ready[0]))
  }

  /** The caller goes on. */
  ghost predicate GoesOn(s: State, t: State) {
    t.cur == s.cur && t.mode == s.mode && t.free == s.free && t.tree == s.tree && t.count == s.count && t.soft == s.soft
  }

  /** The caller goes on, and the first waiter, whose operation is thereby done too, becomes ready; the word stays. */
  ghost predicate LetsGo(s: State, k: Sem, t: State) {
    && GoesOn(s, t) && t.val == s.val && Get(s.queue, k) != []
    && Get(t.queue, k) == Get(s.queue, k)[1..] && t.ready == s.ready + [s.queue[k][0]] && s.queue[k][0] !in t.wait
  }

  lemma BlockedWaits(s: State, k: Sem, op: Op)
    requires Sane(s) && s.mode.Running?
    ensures s.cur.Some? && Waits(s, k, Block(s, k, op))
  {
    NotFreed(s);
    UnlistedSane(s);
    var t := Parked(s, k, op);
    ScheduleFrame(t);
  }

  lemma HeadFirst(s: State, k: Sem)
    requires Sane(s) && Get(s.queue, k) != []
    ensures Minus(s.queue[k], {s.queue[k][0]}) == s.queue[k][1..]
  {
    MinusHead(s.queue[k]);
  }

  /** P passes its caller exactly when the word is 1, whatever other value it may have: it then takes the word to 0 or
      lets the first waiter go. */
  lemma PExact(s: State, k: Sem)
    requires Sane(s) && Enabled(s, SP(k))
    ensures var t := Next(s, SP(k));
      && (s.val[k] != 1 ==> Waits(s, k, t))
      && (s.val[k] == 1 && Get(s.queue, k) != [] ==> LetsGo(s, k, t))
      && (s.val[k] == 1 && Get(s.queue, k) == [] ==>
            GoesOn(s, t) && t.val == s.val[k := 0] && t.queue == s.queue && t.ready == s.ready)
  {
    if s.val[k] != 1 {
      BlockedWaits(s, k, OpP);
    } else if Get(s.queue, k) != [] {
      HeadFirst(s, k);
    }
  }

  /** V passes its caller exactly when the word is 0. */
  lemma VExact(s: State, k: Sem)
    requires Sane(s) && Enabled(s, SV(k))
    ensures var t := Next(s, SV(k));
      && (s.val[k] != 0 ==> Waits(s, k, t))
      && (s.val[k] == 0 && Get(s.queue, k) != [] ==> LetsGo(s, k, t))
      && (s.val[k] == 0 && Get(s.queue, k) == [] ==>
            GoesOn(s, t) && t.val == s.val[k := 1] && t.queue == s.queue && t.ready == s.ready)
  {
    if s.val[k] != 0 {
      BlockedWaits(s, k, OpV);
    } else if Get(s.queue, k) != [] {
      HeadFirst(s, k);
    }
  }

  // ---- the scheduler

  /** What the scheduler does: the first ready process is dispatched, unless what it resumes is the idle loop; with
      nobody ready, HALT, WAIT and PANIC are told apart by the two counters, and with any other counters it spins. */
  lemma SchedulerExact(s: State)
    requires Enabled(s, SResume)
    ensures var t := Next(s, SResume);
      && t.free == s.free && t.tree == s.tree && t.queue == s.queue && t.val == s.val && t.wait == s.wait
      && t.waiting == s.waiting && t.count == s.count && t.soft == s.soft && t.looping == s.looping
      && (s.ready != [] ==> t.cur == Some(s.ready[0]) && t.ready == s.ready[1..]
                            && (t.mode.Running? <==> s.ready[0] !in s.looping)
                            && (t.mode.Idle? <==> s.ready[0] in s.looping))
      && (s.ready == [] ==> t.cur == s.cur && t.ready == []
                            && (t.mode.Halted? <==> s.count == 0)
                            && (t.mode.Idle? <==> s.count > 0 && s.soft > 0)
                            && (t.mode.Panicked? <==> s.count > 0 && s.soft == 0)
                            && (t.mode.Hung? <==> s.count < 0 || (s.count > 0 && s.soft < 0)))
  {
  }

  /** The running process goes to the end of the ready queue, and the first ready process, be it the same, is
      dispatched. */
  lemma TimesliceExact(s: State)
    requires Sane(s) && Enabled(s, STimeslice)
    ensures var t := Next(s, STimeslice); var l := s.ready + [s.cur.value];
      && t.cur == Some(l[0]) && t.ready == l[1..] && t.looping == s.looping - {s.cur.value}
      && (t.mode.Running? <==> l[0] !in t.looping) && (t.mode.Idle? <==> l[0] in t.looping)
      && t.free == s.free && t.tree == s.tree && t.queue == s.queue && t.val == s.val && t.wait == s.wait
      && t.waiting == s.waiting && t.count == s.count && t.soft == s.soft
  {
  }

  lemma {:induction false} SnocRoots(f: Forest, p: Pid)
    ensures Roots(Snoc(f, p)) == Roots(f) + [p]
  {
    if f.Cons? {
      SnocRoots(f.rest, p);
    }
  }

  /** The children of q, and the parents of the others, after p has been added under q. */
  lemma {:induction false} AddedKids(f: Forest, q: Pid, p: Pid)
    requires Distinct(f) && q in Members(f) && p !in Members(f)
    ensures Roots(KidsOf(AddChild(f, q, p), q)) == Roots(KidsOf(f, q)) + [p]
  {
    if f.pid == q {
      SnocRoots(f.kids, p);
    } else if q in Members(f.kids) {
      AddedKids(f.kids, q, p);
    } else {
      AddedKids(f.rest, q, p);
    }
  }

  /** The first free PCB becomes a new process, the last on the ready queue and the youngest child of the caller, which
      goes on; the state it starts in is its own. Without a free PCB nothing happens. */
  lemma CreateExact(s: State)
    requires Sane(s) && Enabled(s, SCreate)
    ensures var t := Next(s, SCreate);
      && (s.free == [] ==> t == s)
      && (s.free != [] ==> var p := s.free[0];
            && t.free == s.free[1..] && t.ready == s.ready + [p] && t.count == s.count + 1 && t.soft == s.soft
            && t.looping == s.looping - {p} && t.cur == s.cur && t.mode == s.mode
            && Members(t.tree) == Members(s.tree) + {p} && p !in Members(s.tree)
            && Roots(KidsOf(t.tree, s.cur.value)) == Roots(KidsOf(s.tree, s.cur.value)) + [p]
            && t.queue == s.queue && t.wait == s.wait && t.val == s.val && t.waiting == s.waiting)
  {
    if s.free != [] {
      assert s.cur.value in OnCpu(s) && s.free[0] in s.free;
      AddedKids(s.tree, s.cur.value, s.free[0]);
    }
  }

  /** list_delete_safe takes a process off the free list or the ready queue, wherever on it it is. */
  lemma UnlistedExact(s: State, c: Pid)
    requires Disjoint(s.free, s.ready)
    ensures Unlisted(s, c).free == Minus(s.free, {c}) && Unlisted(s, c).ready == Minus(s.ready, {c})
    ensures Members(Unlisted(s, c).tree) == Members(s.tree) + if c in s.free then {c} else {}
  {
    if c !in s.free {
      MinusNothing(s.free, {c});
    }
    if c !in s.ready {
      MinusNothing(s.ready, {c});
    }
  }

  // ---- first come, first served

  /** Whoever left did so at the front, whoever came did so at the back. */
  ghost predicate Fifo(q: seq<Pid>, r: seq<Pid>) {
    exists i, n :: 0 <= i <= |q| && r == q[i..] + n
  }

  lemma FifoSame(q: seq<Pid>)
    ensures Fifo(q, q)
  {
    assert q == q[0..] + [];
  }

  lemma FifoBack(q: seq<Pid>, n: seq<Pid>)
    ensures Fifo(q, q + n)
  {
    assert q + n == q[0..] + n;
  }

  lemma FifoFront(q: seq<Pid>)
    requires q != []
    ensures Fifo(q, q[1..])
  {
    assert q[1..] == q[1..] + [];
  }

  lemma FrontWithin(q: seq<Pid>, i: nat, n: seq<Pid>, j: nat, m: seq<Pid>)
    requires i + j <= |q|
    ensures (q[i..] + n)[j..] + m == q[i + j..] + (n + m)
  {
  }

  lemma FrontBeyond(q: seq<Pid>, i: nat, n: seq<Pid>, j: nat, m: seq<Pid>)
    requires i <= |q| < i + j <= |q| + |n|
    ensures (q[i..] + n)[j..] + m == q[|q|..] + (n[i + j - |q|..] + m)
  {
  }

  lemma FifoTwice(q: seq<Pid>, r: seq<Pid>, u: seq<Pid>)
    requires Fifo(q, r) && Fifo(r, u)
    ensures Fifo(q, u)
  {
    var i, n :| 0 <= i <= |q| && r == q[i..] + n;
    var j, m :| 0 <= j <= |r| && u == r[j..] + m;
    if i + j <= |q| {
      FrontWithin(q, i, n, j, m);
    } else {
      FrontBeyond(q, i, n, j, m);
    }
  }

  ghost predicate AllFifo(s: State, t: State) {
    forall k :: Fifo(Get(s.queue, k), Get(t.queue, k))
  }

  lemma AllTwice(s: State, t: State, u: State)
    requires AllFifo(s, t) && AllFifo(t, u)
    ensures AllFifo(s, u)
  {
    forall k ensures Fifo(Get(s.queue, k), Get(u.queue, k)) {
      FifoTwice(Get(s.queue, k), Get(t.queue, k), Get(u.queue, k));
    }
  }

  lemma SameQueuesFifo(s: State, t: State)
    requires t.queue == s.queue
    ensures AllFifo(s, t)
  {
    forall k ensures Fifo(Get(s.queue, k), Get(t.queue, k)) {
      FifoSame(Get(s.queue, k));
    }
  }

  lemma BlockFifo(s: State, k: Sem, op: Op)
    ensures AllFifo(s, Block(s, k, op))
  {
    if s.cur.Some? {
      BlockEffect(s, k, op);
      forall m ensures Fifo(Get(s.queue, m), Get(Block(s, k, op).queue, m)) {
        FifoSame(Get(s.queue, m));
        FifoBack(Get(s.queue, k), [s.cur.value]);
      }
    } else {
      SameQueuesFifo(s, WithMode(s, Fault));
    }
  }

  lemma RemovedFifo(s: State, k: Sem)
    requires Sane(s) && Get(s.queue, k) != []
    ensures AllFifo(s, Removed(s, k, s.queue[k][0]))
  {
    HeadFirst(s, k);
    forall m ensures Fifo(Get(s.queue, m), Get(Removed(s, k, s.queue[k][0]).queue, m)) {
      FifoSame(Get(s.queue, m));
      FifoFront(s.queue[k]);
    }
  }

  lemma OperateFifo(s: State, k: Sem, op: Op)
    requires Sane(s) && k in s.val
    ensures AllFifo(s, Operate(s, k, op))
  {
    if !Returns(s, k, op) {
      BlockFifo(s, k, op);
    } else if Get(s.queue, k) != [] {
      RemovedFifo(s, k);
    } else {
      SameQueuesFifo(s, Operate(s, k, op));
    }
  }

  lemma BeginFifo(s: State, d: Dev, p: Pid)
    requires Sane(s)
    ensures AllFifo(s, BeginIO(s, d, p))
  {
    HeldSane(s, d, p);
    LoggedSane(Held(s, d, p), Begin(d, p));
    SoftSane(Logged(Held(s, d, p), Begin(d, p)));
    OperateFifo(Start(s, d, p), Sync(d), OpP);
  }

  lemma IssueFifo(s: State, d: Dev)
    requires Sane(s) && s.cur.Some?
    ensures AllFifo(s, IssueIO(s, d))
  {
    OperateFifo(s, Mut(d), OpP);
    if Returns(s, Mut(d), OpP) {
      var t := Operate(s, Mut(d), OpP);
      OperateSane(s, Mut(d), OpP);
      BeginFifo(t, d, s.cur.value);
      AllTwice(s, t, IssueIO(s, d));
    }
  }

  lemma FreeFifo(s: State, d: Dev)
    requires Sane(s)
    ensures AllFifo(s, FreeDevice(s, d))
  {
    if Get(s.queue, Mut(d)) != [] {
      var p := s.queue[Mut(d)][0];
      RemovedFifo(s, Mut(d));
      RemovedSane(s, Mut(d), p);
      BeginFifo(Removed(s, Mut(d), p), d, p);
      AllTwice(s, Removed(s, Mut(d), p), FreeDevice(s, d));
    } else {
      SameQueuesFifo(s, FreeDevice(s, d));
    }
  }

  lemma SignalFifo(s: State, d: Dev)
    requires Sane(s)
    ensures AllFifo(s, SignalDevice(s, d))
  {
    OperateFifo(s, Sync(d), OpV);
    if Returns(s, Sync(d), OpV) {
      var t := Operate(s, Sync(d), OpV);
      OperateSane(s, Sync(d), OpV);
      FreeFifo(t, d);
      AllTwice(s, t, SignalDevice(s, d));
    }
  }

  lemma InterruptFifo(s: State, d: Dev)
    requires Sane(s)
    ensures AllFifo(s, DeviceInterrupt(s, d))
  {
    if s.val[Sync(d)] == -1 {
      SignalFifo(s, d);
    } else if d in s.waiting {
      LoggedSane(s, End(d, s.waiting[d]));
      SoftSane(Logged(s, End(d, s.waiting[d])));
      SignalFifo(EndIO(s, d), d);
    } else {
      SameQueuesFifo(s, DeviceInterrupt(s, d));
    }
  }

  lemma {:induction false} WakeAllFifo(s: State)
    requires Sane(s)
    ensures AllFifo(s, WakeAll(s))
    decreases |Get(s.queue, Clock)|
  {
    if Get(s.queue, Clock) != [] {
      MinusShorter(s.queue[Clock]);
      RemovedFifo(s, Clock);
      WakeOneSane(s);
      WakeAllFifo(WakeOne(s));
      AllTwice(s, WakeOne(s), WakeAll(s));
    } else {
      SameQueuesFifo(s, s);
    }
  }

  /** First come, first served: a step takes processes off a semaphore queue only at its front and adds them only at
      its back, except that a termination takes the victims out of the middle. */
  lemma FirstComeFirstServed(s: State, st: Step, k: Sem)
    requires Sane(s) && Enabled(s, st)
    ensures if st.STerminate?
      then Get(Next(s, st).queue, k) == Minus(Get(s.queue, k), Members(Subtree(s.tree, st.t)))
      else Fifo(Get(s.queue, k), Get(Next(s, st).queue, k))
  {
    if st.STerminate? {
      TerminateTakes(s, st.t, k);
    } else {
      StepFifo(s, st);
    }
  }

  lemma StepFifo(s: State, st: Step)
    requires Sane(s) && Enabled(s, st) && !st.STerminate?
    ensures AllFifo(s, Next(s, st))
  {
    match st
    case SCreate => StillFifo(s, st);
    case SP(m) => OperateFifo(s, m, OpP);
    case SV(m) => OperateFifo(s, m, OpV);
    case SDoIO(a) => DoIOFifo(s, a);
    case SClockWait => ClockWaitFifo(s);
    case STimeslice => StillFifo(s, st);
    case STick => WakeAllFifo(s);
    case SDevice(d) => InterruptFifo(s, d);
    case SResume => StillFifo(s, st);
  }

  lemma StillFifo(s: State, st: Step)
    requires Enabled(s, st) && (st.SCreate? || st.STimeslice? || st.SResume?)
    ensures AllFifo(s, Next(s, st))
  {
    SameQueuesFifo(s, Next(s, st));
  }

  lemma ClockWaitFifo(s: State)
    requires Sane(s)
    ensures AllFifo(s, ClockWait(s))
  {
    SoftSane(s);
    OperateFifo(SoftUp(s), Clock, OpP);
  }

  lemma DoIOFifo(s: State, a: u32)
    requires Sane(s) && s.cur.Some?
    ensures AllFifo(s, DoIO(s, a))
  {
    if ResolveDeviceAddress(a) != -1 {
      IssueFifo(s, ResolveDeviceAddress(a) as Dev);
    } else {
      SameQueuesFifo(s, DoIO(s, a));
    }
  }

  lemma TerminateTakes(s: State, t: Pid, k: Sem)
    requires Sane(s)
    ensures Get(Terminate(s, t).queue, k) == Minus(Get(s.queue, k), Members(Subtree(s.tree, t)))
  {
    KilledEffect(s, t);
    ScheduleFrame(Killed(s, t));
    PurgedGet(s.queue, Members(Subtree(s.tree, t)), k);
  }

  // ---- what a termination does to devices

  /** The process a device works for waits on a semaphore of that device. */
  predicate WorksFor(s: State, d: Dev, p: Pid) {
    d in s.waiting && s.waiting[d] == p && p in s.wait && (s.wait[p].on == Mut(d) || s.wait[p].on == Sync(d))
  }

  /** The processes in x that some device works for. */
  function Employers(s: State, x: set<Pid>): set<Pid> {
    set p | p in x && exists d: Dev :: WorksFor(s, d, p)
  }

  /** sem_sync becomes -1 exactly for the devices that work for a victim; no other word changes, and g_soft_block_count
      drops by the number of such victims. */
  lemma DevicesGivenUp(s: State, t: Pid)
    requires Sane(s)
    ensures var r, x := Terminate(s, t), Members(Subtree(s.tree, t));
      && r.val.Keys == s.val.Keys && r.waiting == s.waiting
      && (forall d: Dev :: r.val[Sync(d)] == if exists p :: p in x && WorksFor(s, d, p) then -1 else s.val[Sync(d)])
      && (forall k :: k in s.val && !k.Sync? ==> r.val[k] == s.val[k])
      && r.soft == s.soft - |Employers(s, x)|
  {
    var x := Members(Subtree(s.tree, t));
    KilledEffect(s, t);
    ScheduleFrame(Killed(s, t));
    EmployersInFlight(s, x);
    GivenUp(s, x);
  }

  lemma EmployersInFlight(s: State, x: set<Pid>)
    ensures Employers(s, x) == AllInFlight(s.wait, s.waiting, x)
  {
    forall p ensures (exists d: Dev :: WorksFor(s, d, p)) <==> InFlight(s.wait, s.waiting, p) {
      if InFlight(s.wait, s.waiting, p) {
        assert WorksFor(s, s.wait[p].on.d, p);
      }
    }
  }

  lemma GivenUp(s: State, x: set<Pid>)
    requires KernelWords(s)
    ensures var v := AbortedVals(s.val, s.wait, s.waiting, x);
      && (forall d: Dev :: v[Sync(d)] == if exists p :: p in x && WorksFor(s, d, p) then -1 else s.val[Sync(d)])
      && (forall k :: k in s.val && !k.Sync? ==> v[k] == s.val[k])
  {
    forall d: Dev ensures (exists p :: p in x && WorksFor(s, d, p)) <==> Aborted(s.wait, s.waiting, x, d) {
      if Aborted(s.wait, s.waiting, x, d) {
        assert WorksFor(s, d, s.waiting[d]);
      }
    }
  }
}

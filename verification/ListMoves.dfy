/** The list moves of every step of the machine: the calls of the phase 1 functions that bring its free list, ready
    queue and semaphore queues from one state to the next. */
module ListMoves {
  import opened Basics
  import opened Forests
  import opened Addresses
  import opened SemQueues
  import opened Machine
  import opened Invariants
  import opened Soundness
  import opened Killing
  import opened Terminating
  import opened Runs

  /** p is on no semaphore queue. */
  ghost predicate Unblocked(queue: Queues, p: Pid) {
    forall k :: k in queue ==> p !in queue[k]
  }


  /** pcbFree_h, g_ready_queue, and the s_procq of the active semaphores. */
  datatype Roster = Roster(free: seq<Pid>, ready: seq<Pid>, queue: Queues)

  function RosterOf(s: State): Roster { Roster(s.free, s.ready, s.queue) }

  /** What the phase 1 functions do to the lists. */
  datatype Move =
    | Take                        // removeProcQ on the ready queue
    | Line(p: Pid)                // insertProcQ on the ready queue
    | Block(k: Sem, p: Pid)       // insertBlocked
    | Wake(k: Sem)                // removeBlocked
    | Pluck(k: Sem, p: Pid)       // outBlocked
    | Alloc                       // allocPcb
    | Free(p: Pid)                // freePcb

  /** The move finds what it needs. */
  ghost predicate Allowed(l: Roster, m: Move) {
    match m
    case Take => l.ready != []
    case Line(p) => p !in l.free && p !in l.ready && Unblocked(l.queue, p)
    case Block(_, p) => NoneEmpty(l.queue) && Unblocked(l.queue, p)
    case Wake(k) => k in l.queue && l.queue[k] != [] && NoDup(l.queue[k])
    case Pluck(k, p) => k in l.queue && p in l.queue[k]
    case Alloc => l.free != [] && NoDup(l.free)
    case Free(p) => Unblocked(l.queue, p)
  }

  function Moved(l: Roster, m: Move): Roster
    requires Allowed(l, m)
  {
    match m
    case Take => l.(ready := l.ready[1..])
    case Line(p) => l.(ready := l.ready + [p])
    case Block(k, p) =>
      Roster(Minus(l.free, {p}), Minus(l.ready, {p}), l.queue[k := Get(l.queue, k) + [p]])
    case Wake(k) => l.(queue := Put(l.queue, k, l.queue[k][1..]))
    case Pluck(k, p) => l.(queue := Put(l.queue, k, Minus(l.queue[k], {p})))
    case Alloc => l.(free := l.free[1..])
    case Free(p) => Roster([p] + Minus(l.free, {p}), Minus(l.ready, {p}), l.queue)
  }

  /** The moves are allowed one after the other, and lead from l to t. */
  ghost predicate Leads(l: Roster, moves: seq<Move>, t: Roster)
    decreases |moves|
  {
    if moves == [] then t == l else Allowed(l, moves[0]) && Leads(Moved(l, moves[0]), moves[1..], t)
  }

  lemma {:induction false} LeadsOn(l: Roster, a: seq<Move>, t: Roster, b: seq<Move>, u: Roster)
    requires Leads(l, a, t) && Leads(t, b, u)
    ensures Leads(l, a + b, u)
    decreases |a|
  {
    if a == [] {
      assert a + b == b;
    } else {
      assert (a + b)[1..] == a[1..] + b;
      LeadsOn(Moved(l, a[0]), a[1..], t, b, u);
    }
  }

  lemma OneMove(l: Roster, m: Move)
    requires Allowed(l, m)
    ensures Leads(l, [m], Moved(l, m))
  {
    assert Leads(Moved(l, m), [], Moved(l, m));
  }

  lemma TwoMoves(l: Roster, m: Move, n: Move)
    requires Allowed(l, m) && Allowed(Moved(l, m), n)
    ensures Leads(l, [m, n], Moved(Moved(l, m), n))
  {
    OneMove(l, m);
    OneMove(Moved(l, m), n);
    LeadsOn(l, [m], Moved(l, m), [n], Moved(Moved(l, m), n));
    assert [m] + [n] == [m, n];
  }

  // ---- the moves of the machine's functions

  function ScheduleMoves(s: State): seq<Move> {
    if s.ready != [] then [Take] else []
  }

  lemma ScheduleLists(s: State)
    ensures Leads(RosterOf(s), ScheduleMoves(s), RosterOf(Schedule(s)))
  {
    if s.ready != [] {
      OneMove(RosterOf(s), Take);
    }
  }

  function BlockMoves(s: State, k: Sem, op: Op): seq<Move> {
    if s.cur.None? then []
    else [Block(k, s.cur.value)] + ScheduleMoves(Park(Unlisted(s, s.cur.value), k, op))
  }

  lemma CurrentLoose(s: State)
    requires Sane(s) && s.cur.Some?
    ensures s.cur.value !in s.ready && Unblocked(s.queue, s.cur.value) && NoneEmpty(s.queue)
  {
  }

  lemma ParkLists(s: State, k: Sem, op: Op)
    requires s.cur.Some? && s.cur.value !in s.ready && Unblocked(s.queue, s.cur.value) && NoneEmpty(s.queue)
    ensures Allowed(RosterOf(s), Block(k, s.cur.value))
    ensures RosterOf(Park(Unlisted(s, s.cur.value), k, op)) == Moved(RosterOf(s), Block(k, s.cur.value))
  {
    var c := s.cur.value;
    MinusNothing(s.ready, {c});
    if c !in s.free {
      MinusNothing(s.free, {c});
    }
  }

  lemma BlockLists(s: State, k: Sem, op: Op)
    requires Sane(s)
    ensures Leads(RosterOf(s), BlockMoves(s, k, op), RosterOf(Machine.Block(s, k, op)))
  {
    if s.cur.Some? {
      var t := Park(Unlisted(s, s.cur.value), k, op);
      CurrentLoose(s);
      ParkLists(s, k, op);
      OneMove(RosterOf(s), Block(k, s.cur.value));
      ScheduleLists(t);
      LeadsOn(RosterOf(s), [Block(k, s.cur.value)], RosterOf(t), ScheduleMoves(t), RosterOf(Schedule(t)));
    }
  }

  function OperateMoves(s: State, k: Sem, op: Op): seq<Move>
    requires k in s.val
  {
    if !Returns(s, k, op) then BlockMoves(s, k, op)
    else if Get(s.queue, k) != [] then [Wake(k), Line(s.queue[k][0])]
    else []
  }

  lemma WakeLists(s: State, k: Sem)
    requires Queued(s.queue, s.wait) && Get(s.queue, k) != []
    ensures Allowed(RosterOf(s), Wake(k)) && Moved(RosterOf(s), Wake(k)) == RosterOf(Removed(s, k, s.queue[k][0]))
  {
    MinusHead(s.queue[k]);
  }

  lemma HeadLoose(s: State, k: Sem)
    requires Sane(s) && Get(s.queue, k) != []
    ensures Allowed(RosterOf(Removed(s, k, s.queue[k][0])), Line(s.queue[k][0]))
  {
    var p := s.queue[k][0];
    WaiterElsewhere(s, k, p);
    QueuedRemove(s.queue, s.wait, k, p);
  }

  lemma ReleaseLists(s: State, k: Sem)
    requires Sane(s) && Get(s.queue, k) != []
    ensures var p := s.queue[k][0]; Leads(RosterOf(s), [Wake(k), Line(p)], RosterOf(Readied(Removed(s, k, p), p)))
  {
    WakeLists(s, k);
    HeadLoose(s, k);
    TwoMoves(RosterOf(s), Wake(k), Line(s.queue[k][0]));
  }

  lemma OperateLists(s: State, k: Sem, op: Op)
    requires Sane(s) && k in s.val
    ensures Leads(RosterOf(s), OperateMoves(s, k, op), RosterOf(Operate(s, k, op)))
  {
    if !Returns(s, k, op) {
      BlockLists(s, k, op);
    } else if Get(s.queue, k) != [] {
      ReleaseLists(s, k);
    }
  }

  // ---- devices

  function BeginMoves(s: State, d: Dev, p: Pid): seq<Move>
    requires Sync(d) in s.val
  {
    OperateMoves(Start(s, d, p), Sync(d), OpP)
  }

  lemma BeginLists(s: State, d: Dev, p: Pid)
    requires Sane(s)
    ensures Leads(RosterOf(s), BeginMoves(s, d, p), RosterOf(BeginIO(s, d, p)))
  {
    StartSane(s, d, p);
    OperateLists(Start(s, d, p), Sync(d), OpP);
  }

  lemma StartSane(s: State, d: Dev, p: Pid)
    requires Sane(s)
    ensures Sane(Start(s, d, p))
  {
    HeldSane(s, d, p);
    LoggedSane(Held(s, d, p), Begin(d, p));
    SoftSane(Logged(Held(s, d, p), Begin(d, p)));
  }

  function IssueMoves(s: State, d: Dev): seq<Move>
    requires KernelWords(s) && s.cur.Some?
  {
    OperateWords(s, Mut(d), OpP);
    if !Returns(s, Mut(d), OpP) then OperateMoves(s, Mut(d), OpP)
    else OperateMoves(s, Mut(d), OpP) + BeginMoves(Operate(s, Mut(d), OpP), d, s.cur.value)
  }

  lemma IssueLists(s: State, d: Dev)
    requires Sane(s) && s.cur.Some?
    ensures Leads(RosterOf(s), IssueMoves(s, d), RosterOf(IssueIO(s, d)))
  {
    var t := Operate(s, Mut(d), OpP);
    OperateLists(s, Mut(d), OpP);
    if Returns(s, Mut(d), OpP) {
      OperateSane(s, Mut(d), OpP);
      BeginLists(t, d, s.cur.value);
      LeadsOn(RosterOf(s), OperateMoves(s, Mut(d), OpP), RosterOf(t), BeginMoves(t, d, s.cur.value),
              RosterOf(IssueIO(s, d)));
    }
  }

  function DoIOMoves(s: State, a: u32): seq<Move>
    requires KernelWords(s) && s.cur.Some?
  {
    var i := ResolveDeviceAddress(a);
    if i == -1 then [] else IssueMoves(s, i as Dev)
  }

  function FreeDeviceMoves(s: State, d: Dev): seq<Move>
    requires Mut(d) in s.val && Sync(d) in s.val
  {
    if Get(s.queue, Mut(d)) != [] then
      [Wake(Mut(d))] + BeginMoves(Removed(s, Mut(d), s.queue[Mut(d)][0]), d, s.queue[Mut(d)][0])
    else []
  }

  lemma FreeDeviceLists(s: State, d: Dev)
    requires Sane(s)
    ensures Leads(RosterOf(s), FreeDeviceMoves(s, d), RosterOf(FreeDevice(s, d)))
  {
    if Get(s.queue, Mut(d)) != [] {
      var p := s.queue[Mut(d)][0];
      var t := Removed(s, Mut(d), p);
      WakeLists(s, Mut(d));
      OneMove(RosterOf(s), Wake(Mut(d)));
      RemovedSane(s, Mut(d), p);
      BeginLists(t, d, p);
      LeadsOn(RosterOf(s), [Wake(Mut(d))], RosterOf(t), BeginMoves(t, d, p), RosterOf(BeginIO(t, d, p)));
    }
  }

  function SignalMoves(s: State, d: Dev): seq<Move>
    requires Mut(d) in s.val && Sync(d) in s.val
  {
    OperateWords(s, Sync(d), OpV);
    if !Returns(s, Sync(d), OpV) then OperateMoves(s, Sync(d), OpV)
    else OperateMoves(s, Sync(d), OpV) + FreeDeviceMoves(Operate(s, Sync(d), OpV), d)
  }

  lemma SignalLists(s: State, d: Dev)
    requires Sane(s)
    ensures Leads(RosterOf(s), SignalMoves(s, d), RosterOf(SignalDevice(s, d)))
  {
    var t := Operate(s, Sync(d), OpV);
    OperateLists(s, Sync(d), OpV);
    if Returns(s, Sync(d), OpV) {
      OperateSane(s, Sync(d), OpV);
      FreeDeviceLists(t, d);
      LeadsOn(RosterOf(s), OperateMoves(s, Sync(d), OpV), RosterOf(t), FreeDeviceMoves(t, d),
              RosterOf(SignalDevice(s, d)));
    }
  }

  function InterruptMoves(s: State, d: Dev): seq<Move>
    requires Mut(d) in s.val && Sync(d) in s.val
  {
    if s.val[Sync(d)] == -1 then SignalMoves(s, d)
    else if d in s.waiting then SignalMoves(EndIO(s, d), d)
    else []
  }

  lemma InterruptLists(s: State, d: Dev)
    requires Sane(s)
    ensures Leads(RosterOf(s), InterruptMoves(s, d), RosterOf(DeviceInterrupt(s, d)))
  {
    if s.val[Sync(d)] == -1 {
      SignalLists(s, d);
    } else if d in s.waiting {
      LoggedSane(s, End(d, s.waiting[d]));
      SoftSane(Logged(s, End(d, s.waiting[d])));
      SignalLists(EndIO(s, d), d);
    }
  }

  // ---- the clock, creation

  function WakeAllMoves(s: State): seq<Move>
    decreases |Get(s.queue, Clock)|
  {
    if Get(s.queue, Clock) == [] then []
    else
      MinusShorter(s.queue[Clock]);
      [Wake(Clock), Line(s.queue[Clock][0])] + WakeAllMoves(WakeOne(s))
  }

  lemma {:induction false} WakeAllLists(s: State)
    requires Sane(s)
    ensures Leads(RosterOf(s), WakeAllMoves(s), RosterOf(WakeAll(s)))
    decreases |Get(s.queue, Clock)|
  {
    if Get(s.queue, Clock) != [] {
      MinusShorter(s.queue[Clock]);
      ReleaseLists(s, Clock);
      WakeOneSane(s);
      WakeAllLists(WakeOne(s));
      LeadsOn(RosterOf(s), [Wake(Clock), Line(s.queue[Clock][0])], RosterOf(WakeOne(s)), WakeAllMoves(WakeOne(s)),
              RosterOf(WakeAll(s)));
    }
  }

  function TimesliceMoves(s: State): seq<Move>
    requires s.cur.Some?
  {
    [Line(s.cur.value)] + ScheduleMoves(Preempted(s))
  }

  lemma TimesliceLists(s: State)
    requires Sane(s) && s.mode.Running?
    ensures Leads(RosterOf(s), TimesliceMoves(s), RosterOf(Timeslice(s)))
  {
    assert s.cur.value in OnCpu(s);
    OneMove(RosterOf(s), Line(s.cur.value));
    ScheduleLists(Preempted(s));
    LeadsOn(RosterOf(s), [Line(s.cur.value)], RosterOf(Preempted(s)), ScheduleMoves(Preempted(s)),
            RosterOf(Timeslice(s)));
  }

  function CreateMoves(s: State): seq<Move> {
    if s.free == [] then [] else [Alloc, Line(s.free[0])]
  }

  lemma CreateLists(s: State)
    requires Sane(s) && s.cur.Some?
    ensures Leads(RosterOf(s), CreateMoves(s), RosterOf(Create(s)))
  {
    if s.free != [] {
      assert s.free[0] in s.free;
      TwoMoves(RosterOf(s), Alloc, Line(s.free[0]));
    }
  }

  // ---- termination

  function UnblockMoves(s: State, p: Pid): seq<Move> {
    if p in s.wait then [Pluck(s.wait[p].on, p)] else []
  }

  lemma UnblockLists(s: State, p: Pid)
    requires Queued(s.queue, s.wait)
    ensures Leads(RosterOf(s), UnblockMoves(s, p), RosterOf(Unblock(s, p)))
  {
    if p in s.wait {
      OneMove(RosterOf(s), Pluck(s.wait[p].on, p));
    }
  }

  function KillMoves(s: State, f: Forest): seq<Move>
    decreases f
  {
    match f
    case Nil => []
    case Cons(p, k, n) =>
      UnblockMoves(s, p) + KillMoves(Unblock(s, p), k) + [Free(p)]
      + KillMoves(Recycle(Kill(Unblock(s, p), k), p), n)
  }

  lemma {:induction false} KillLists(s: State, f: Forest)
    requires Queued(s.queue, s.wait)
    ensures Leads(RosterOf(s), KillMoves(s, f), RosterOf(Kill(s, f)))
    decreases f
  {
    if f.Cons? {
      var b := Unblock(s, f.pid);
      var a := Kill(b, f.kids);
      var r := Recycle(a, f.pid);
      UnblockQueues(s, f.pid);
      UnblockLists(s, f.pid);
      KillQueues(b, f.kids);
      KillLists(b, f.kids);
      RecycleLists(a, f.pid);
      KillLists(r, f.rest);
      LeadsOn(RosterOf(s), UnblockMoves(s, f.pid), RosterOf(b), KillMoves(b, f.kids), RosterOf(a));
      LeadsOn(RosterOf(s), UnblockMoves(s, f.pid) + KillMoves(b, f.kids), RosterOf(a), [Free(f.pid)], RosterOf(r));
      LeadsOn(RosterOf(s), UnblockMoves(s, f.pid) + KillMoves(b, f.kids) + [Free(f.pid)], RosterOf(r),
              KillMoves(r, f.rest), RosterOf(Kill(s, f)));
    }
  }

  lemma RecycleLists(s: State, p: Pid)
    requires Queued(s.queue, s.wait) && p !in s.wait
    ensures Leads(RosterOf(s), [Free(p)], RosterOf(Recycle(s, p)))
  {
    OneMove(RosterOf(s), Free(p));
  }

  function TerminateMoves(s: State, t: Pid): seq<Move> {
    KillMoves(WithTree(WithMode(s, Idle), Prune(s.tree, t)), Subtree(s.tree, t)) + ScheduleMoves(Killed(s, t))
  }

  lemma TerminateLists(s: State, t: Pid)
    requires Sane(s)
    ensures Leads(RosterOf(s), TerminateMoves(s, t), RosterOf(Terminate(s, t)))
  {
    var a := WithTree(WithMode(s, Idle), Prune(s.tree, t));
    KillLists(a, Subtree(s.tree, t));
    ScheduleLists(Killed(s, t));
    LeadsOn(RosterOf(s), KillMoves(a, Subtree(s.tree, t)), RosterOf(Killed(s, t)), ScheduleMoves(Killed(s, t)),
            RosterOf(Terminate(s, t)));
  }

  // ---- steps and runs

  /** The list moves of a kernel entry, in order. */
  function StepMoves(s: State, st: Step): seq<Move>
    requires Enabled(s, st)
  {
    match st
    case SCreate => CreateMoves(s)
    case STerminate(t) => TerminateMoves(s, t)
    case SP(k) => OperateMoves(s, k, OpP)
    case SV(k) => OperateMoves(s, k, OpV)
    case SDoIO(a) => DoIOMoves(s, a)
    case SClockWait => OperateMoves(SoftUp(s), Clock, OpP)
    case STimeslice => TimesliceMoves(s)
    case STick => WakeAllMoves(s)
    case SDevice(d) => InterruptMoves(s, d)
    case SResume => ScheduleMoves(s)
  }

  /** From the lists of a state they lead to the lists of the next one. */
  lemma StepLists(s: State, st: Step)
    requires Sane(s) && Enabled(s, st)
    ensures Leads(RosterOf(s), StepMoves(s, st), RosterOf(Next(s, st)))
  {
    match st
    case SCreate => CreateLists(s);
    case STerminate(t) => TerminateLists(s, t);
    case SP(k) => OperateLists(s, k, OpP);
    case SV(k) => OperateLists(s, k, OpV);
    case SDoIO(a) => if ResolveDeviceAddress(a) != -1 { IssueLists(s, ResolveDeviceAddress(a) as Dev); }
    case SClockWait => SoftSane(s); OperateLists(SoftUp(s), Clock, OpP);
    case STimeslice => TimesliceLists(s);
    case STick => WakeAllLists(s);
    case SDevice(d) => InterruptLists(s, d);
    case SResume => ScheduleLists(s);
  }

  function RunMoves(s: State, steps: seq<Step>): seq<Move>
    requires IsRun(s, steps)
    decreases |steps|
  {
    if steps == [] then [] else StepMoves(s, steps[0]) + RunMoves(Next(s, steps[0]), steps[1..])
  }

  lemma {:induction false} RunLists(s: State, steps: seq<Step>)
    requires Sane(s) && IsRun(s, steps)
    ensures Leads(RosterOf(s), RunMoves(s, steps), RosterOf(After(s, steps)))
    decreases |steps|
  {
    if steps != [] {
      var t := Next(s, steps[0]);
      StepLists(s, steps[0]);
      NextSane(s, steps[0]);
      RunLists(t, steps[1..]);
      LeadsOn(RosterOf(s), StepMoves(s, steps[0]), RosterOf(t), RunMoves(t, steps[1..]), RosterOf(After(s, steps)));
    }
  }
}

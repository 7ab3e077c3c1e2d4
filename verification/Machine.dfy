/** The kernel as a state machine on values: one function per kernel entry (phase2).

    Lists are sequences, the process tree is a Forest, the active semaphores are a map from semaphore to queue. The
    functions follow the source on every state a handler can be entered in, also where that breaks the invariants;
    Guard says when a step is well behaved. Class Nucleus refines these functions. */
module Machine {
  import opened Basics
  import opened Forests
  import opened Addresses
  import opened SemQueues

  datatype Op = OpP | OpV

  /** What a blocked process waits on (p_semAdd), and through which operation it got there. */
  datatype Wait = Wait(on: Sem, op: Op)

  /** Running: the kernel has loaded a process. Idle: it waits for an interrupt inside scheduler().
      Halted and Panicked are the BIOS calls of those names. Hung: scheduler() loops and never waits.
      Fault: a handler followed a NULL g_current_process or waiting_process. A stale one is followed like any other. */
  datatype Mode = Running | Idle | Halted | Panicked | Hung | Fault

  datatype Event =
    | Done(op: Op, on: Sem)       // a P or V came to its end
    | Begin(d: Dev, p: Pid)       // p's command written to the registers of d
    | End(d: Dev, p: Pid)         // p's command answered by d
    | Dispatch(p: Pid)
    | Freed(p: Pid)

  datatype State = State(
    free: seq<Pid>,               // pcbFree_h
    ready: seq<Pid>,              // g_ready_queue
    cur: Option<Pid>,             // g_current_process
    mode: Mode,
    tree: Forest,                 // p_child, p_sib; the roots are the PCBs in use that are in no child list
    queue: map<Sem, seq<Pid>>,    // the ASH: active semaphores and their s_procq
    wait: map<Pid, Wait>,         // p_semAdd
    val: map<Sem, int>,           // semaphore words
    waiting: map<Dev, Pid>,       // waiting_process
    count: int,                   // g_process_count
    soft: int,                    // g_soft_block_count
    looping: set<Pid>,            // the PCBs whose p_s holds the state of scheduler()'s own loop
    log: seq<Event>)              // history, read by no function below

  // ---- single assignments

  function WithMode(s: State, m: Mode): State { s.(mode := m) }

  function SoftUp(s: State): State { s.(soft := s.soft + 1) }

  function SoftDown(s: State): State { s.(soft := s.soft - 1) }

  function WithVal(s: State, k: Sem, x: int): State { s.(val := s.val[k := x]) }

  function WithTree(s: State, f: Forest): State { s.(tree := f) }

  function Logged(s: State, e: Event): State { s.(log := s.log + [e]) }

  function Held(s: State, d: Dev, p: Pid): State { s.(waiting := s.waiting[d := p]) }

  function Vacated(s: State, d: Dev): State { s.(waiting := s.waiting - {d}) }

  /** insertProcQ on the ready queue, for a process that is on no list. */
  function Readied(s: State, p: Pid): State { s.(ready := s.ready + [p]) }

  /** The kernel lets go of g_current_process. */
  function Dropped(s: State): State { s.(cur := None, mode := Idle) }

  /** The first half of removeBlocked: p leaves the queue of k. */
  function Removed(s: State, k: Sem, p: Pid): State {
    s.(queue := Put(s.queue, k, Minus(Get(s.queue, k), {p})), wait := s.wait - {p})
  }

  // ---- scheduler.c

  /** The processor gets p_s of the first ready process. For a process that was parked while the machine idled this is
      the loop of scheduler(), which goes on waiting. */
  function Dispatched(s: State): State
    requires s.ready != []
  {
    var p := s.ready[0];
    s.(cur := Some(p), ready := s.ready[1..], mode := if p in s.looping then Idle else Running)
  }

  /** What scheduler() does with an empty ready queue. */
  function IdleMode(count: int, soft: int): Mode {
    if count == 0 then Halted
    else if count > 0 && soft > 0 then Idle
    else if count > 0 && soft == 0 then Panicked
    else Hung
  }

  function Schedule(s: State): State {
    if s.ready != [] then Logged(Dispatched(s), Dispatch(s.ready[0]))
    else WithMode(s, IdleMode(s.count, s.soft))
  }

  // ---- P and V

  /** list_delete_safe on p_list of g_current_process, which may be stale. A PCB on the free list comes back into use,
      uncounted and outside the tree of the first process; on a semaphore queue it never is (see Sane). */
  function Unlisted(s: State, c: Pid): State {
    if c in s.free then s.(free := Minus(s.free, {c}), tree := Snoc(s.tree, c))
    else if c in s.ready then s.(ready := Minus(s.ready, {c}))
    else s
  }

  /** The state at the interrupt or system call is saved in p_s of c: that of scheduler() if the machine was idle. */
  function Saved(s: State, c: Pid): State {
    s.(looping := if s.mode.Idle? then s.looping + {c} else s.looping - {c})
  }

  /** The rest of insertBlocked(k, c). */
  function Joined(s: State, k: Sem, c: Pid, op: Op): State {
    s.(queue := s.queue[k := Get(s.queue, k) + [c]], wait := s.wait[c := Wait(k, op)])
  }

  /** g_current_process, its state saved, goes through insertBlocked(k), and the processor is given up. */
  function Park(s: State, k: Sem, op: Op): State
    requires s.cur.Some?
  {
    Dropped(Joined(Saved(s, s.cur.value), k, s.cur.value, op))
  }

  /** The tail shared by sysPasseren and sysVerhogen. */
  function Block(s: State, k: Sem, op: Op): State {
    if s.cur.None? then WithMode(s, Fault) else Schedule(Park(Unlisted(s, s.cur.value), k, op))
  }

  /** The operation through which p blocked. */
  function PendingOp(s: State, p: Pid): Op {
    if p in s.wait then s.wait[p].op else OpP
  }

  /** removeBlocked(k), insertProcQ on the ready queue; the operation of the released process is over. */
  function Release(s: State, k: Sem): State
    requires Get(s.queue, k) != []
  {
    var p := s.queue[k][0];
    Logged(Readied(Removed(s, k, p), p), Done(PendingOp(s, p), k))
  }

  /** Whether the operation returns to its caller instead of blocking it. */
  predicate Returns(s: State, k: Sem, op: Op)
    requires k in s.val
  {
    s.val[k] == if op.OpP? then 1 else 0
  }

  /** sysPasseren (op = OpP) and sysVerhogen (op = OpV). */
  function Operate(s: State, k: Sem, op: Op): State
    requires k in s.val
  {
    if !Returns(s, k, op) then Block(s, k, op)
    else if Get(s.queue, k) != [] then Logged(Release(s, k), Done(op, k))
    else Logged(WithVal(s, k, if op.OpP? then s.val[k] - 1 else s.val[k] + 1), Done(op, k))
  }

  // ---- devices.c

  /** The bookkeeping of beginIO, before its P on sem_sync. */
  function Start(s: State, d: Dev, p: Pid): State {
    SoftUp(Logged(Held(s, d, p), Begin(d, p)))
  }

  function BeginIO(s: State, d: Dev, p: Pid): State
    requires Sync(d) in s.val
  {
    Operate(Start(s, d, p), Sync(d), OpP)
  }

  /** endIO. */
  function EndIO(s: State, d: Dev): State
    requires d in s.waiting
  {
    SoftDown(Logged(s, End(d, s.waiting[d])))
  }

  /** sysDoIO. A register address that belongs to no device stops the machine. */
  function DoIO(s: State, cmdAddr: u32): State
    requires s.cur.Some?
    requires forall d: Dev :: Mut(d) in s.val && Sync(d) in s.val
  {
    var i := ResolveDeviceAddress(cmdAddr);
    if i == -1 then WithMode(s, Panicked) else IssueIO(s, i as Dev)
  }

  function IssueIO(s: State, d: Dev): State
    requires s.cur.Some? && Mut(d) in s.val && Sync(d) in s.val
  {
    var t := Operate(s, Mut(d), OpP);
    if Returns(s, Mut(d), OpP) then BeginIO(t, d, s.cur.value) else t
  }

  /** The interrupt of device d. After a kill in mid-operation sem_sync is -1 and there is no result to deliver. */
  function DeviceInterrupt(s: State, d: Dev): State
    requires Mut(d) in s.val && Sync(d) in s.val
  {
    if s.val[Sync(d)] == -1 then SignalDevice(s, d)
    else if d in s.waiting then SignalDevice(EndIO(s, d), d)
    else WithMode(s, Fault)
  }

  function SignalDevice(s: State, d: Dev): State
    requires Mut(d) in s.val && Sync(d) in s.val
  {
    var t := Operate(s, Sync(d), OpV);
    if Returns(s, Sync(d), OpV) then FreeDevice(t, d) else t
  }

  /** Passes the device on to the first process queued on its mutex, or marks it idle. */
  function FreeDevice(s: State, d: Dev): State
    requires Mut(d) in s.val && Sync(d) in s.val
  {
    if Get(s.queue, Mut(d)) != [] then
      var p := s.queue[Mut(d)][0];
      BeginIO(Removed(s, Mut(d), p), d, p)
    else
      WithVal(Vacated(s, d), Mut(d), s.val[Mut(d)] + 1)
  }

  // ---- the clock

  function ClockWait(s: State): State
    requires Clock in s.val
  {
    Operate(SoftUp(s), Clock, OpP)
  }

  /** One turn of the loop in handleSysTimer. */
  function WakeOne(s: State): State
    requires Get(s.queue, Clock) != []
  {
    var p := s.queue[Clock][0];
    Readied(SoftDown(Removed(s, Clock, p)), p)
  }

  function WakeAll(s: State): State
    decreases |Get(s.queue, Clock)|
  {
    if Get(s.queue, Clock) == [] then s
    else
      MinusShorter(s.queue[Clock]);
      WakeAll(WakeOne(s))
  }

  lemma MinusShorter(l: seq<Pid>)
    requires l != []
    ensures |Minus(l, {l[0]})| < |l|
  {
  }

  /** handleSysTimer. */
  function Tick(s: State): State {
    WithVal(WakeAll(s), Clock, 0)
  }

  /** The running process goes to the end of the ready queue. */
  function Preempted(s: State): State
    requires s.cur.Some?
  {
    Dropped(Readied(Saved(s, s.cur.value), s.cur.value))
  }

  /** handleLocalTimer. */
  function Timeslice(s: State): State
    requires s.cur.Some?
  {
    Schedule(Preempted(s))
  }

  // ---- process creation and termination

  /** sysCreateProcess; with an empty pool it only returns an error. */
  function Create(s: State): State
    requires s.cur.Some?
  {
    if s.free == [] then s else Grown(s, AddChild(s.tree, s.cur.value, s.free[0]))
  }

  /** The first free PCB becomes a ready process of the tree f. */
  function Grown(s: State, f: Forest): State
    requires s.free != []
  {
    s.(free := s.free[1..], count := s.count + 1, ready := s.ready + [s.free[0]], tree := f,
       looping := s.looping - {s.free[0]})
  }

  /** The first half of terminateProcess: leave the semaphore queue, and give up on a pending device operation. */
  function Unblock(s: State, p: Pid): State {
    if p !in s.wait then s
    else
      var k := s.wait[p].on;
      var t := Removed(s, k, p);
      if OfDevice(k) && k.d in s.waiting && s.waiting[k.d] == p
      then WithVal(SoftDown(t), Sync(k.d), -1)
      else t
  }

  /** The end of terminateProcess. freePcb takes p off whichever list it is on, the free list included. */
  function Recycle(s: State, p: Pid): State {
    s.(count := s.count - 1, ready := Minus(s.ready, {p}), free := [p] + Minus(s.free, {p}), log := s.log + [Freed(p)])
  }

  /** terminateProcess on each tree of f, children before their parent. */
  function Kill(s: State, f: Forest): State
    decreases f
  {
    match f
    case Nil => s
    case Cons(p, k, n) => Kill(Recycle(Kill(Unblock(s, p), k), p), n)
  }

  /** outChild(t) followed by terminateProcess(t); the caller never resumes. Nothing checks that t has not ended yet. */
  function Killed(s: State, t: Pid): State {
    Kill(WithTree(WithMode(s, Idle), Prune(s.tree, t)), Subtree(s.tree, t))
  }

  /** sysTerminateProcess. */
  function Terminate(s: State, t: Pid): State {
    Schedule(Killed(s, t))
  }

  // ---- the step relation

  datatype Step =
    | SCreate
    | STerminate(t: Pid)
    | SP(k: Sem)
    | SV(k: Sem)
    | SDoIO(cmdAddr: u32)
    | SClockWait
    | STimeslice
    | STick
    | SDevice(d: Dev)
    | SResume                     // the idle loop looks at the ready queue again

  ghost predicate KernelWords(s: State) {
    Clock in s.val && forall d: Dev :: Mut(d) in s.val && Sync(d) in s.val
  }

  /** The steps that make sense in a state: system calls and the local timer need a running process, P and V get a
      word that is not the kernel's. The process to terminate may be any PCB, in use or not. */
  ghost predicate Enabled(s: State, st: Step) {
    KernelWords(s) &&
    match st
    case SCreate => s.mode.Running? && s.cur.Some?
    case STerminate(_) => s.mode.Running? && s.cur.Some?
    case SP(k) => s.mode.Running? && s.cur.Some? && k.User? && k in s.val
    case SV(k) => s.mode.Running? && s.cur.Some? && k.User? && k in s.val
    case SDoIO(_) => s.mode.Running? && s.cur.Some?
    case SClockWait => s.mode.Running? && s.cur.Some?
    case STimeslice => s.mode.Running? && s.cur.Some?
    case STick => s.mode.Running? || s.mode.Idle?
    case SDevice(_) => s.mode.Running? || s.mode.Idle?
    case SResume => s.mode.Idle?
  }

  function Next(s: State, st: Step): State
    requires Enabled(s, st)
  {
    match st
    case SCreate => Create(s)
    case STerminate(t) => Terminate(s, t)
    case SP(k) => Operate(s, k, OpP)
    case SV(k) => Operate(s, k, OpV)
    case SDoIO(a) => DoIO(s, a)
    case SClockWait => ClockWait(s)
    case STimeslice => Timeslice(s)
    case STick => Tick(s)
    case SDevice(d) => DeviceInterrupt(s, d)
    case SResume => Schedule(s)
  }

  // ---- what g_process_count misses

  /** The device interrupt ends in insertBlocked(sem_sync, g_current_process): sem_sync does not let the V through, or
      it lets it through to a process waiting on it and the device is handed on. */
  predicate InterruptBlocks(s: State, d: Dev)
    requires Sync(d) in s.val
  {
    || s.val[Sync(d)] == -1
    || (d in s.waiting && (s.val[Sync(d)] != 0 || (Get(s.queue, Sync(d)) != [] && Get(s.queue, Mut(d)) != [])))
  }

  /** The interrupt finds the machine idle with a freed PCB in g_current_process, and queues that PCB. */
  predicate Revives(s: State, st: Step) {
    && st.SDevice? && s.mode.Idle? && Sync(st.d) in s.val && InterruptBlocks(s, st.d)
    && s.cur.Some? && s.cur.value in s.free
  }

  /** TERMPROCESS of a process that has ended already: its PCB is freed a second time. */
  predicate FreesAgain(s: State, st: Step) {
    st.STerminate? && st.t in s.free
  }

  /** The steps after which g_process_count is one short of what it was worth before. */
  predicate Miscounts(s: State, st: Step) {
    Revives(s, st) || FreesAgain(s, st)
  }

  // ---- guards

  /** The victim is the running process or one of its ancestors. */
  predicate VictimIsCaller(s: State, t: Pid) {
    s.cur.Some? && AncestorOrSelf(s.tree, t, s.cur.value)
  }

  /** No victim has a device operation in flight. */
  predicate NoVictimInIO(s: State, t: Pid) {
    forall p | p in s.wait :: p in Members(Subtree(s.tree, t)) ==> !s.wait[p].on.Sync?
  }

  /** The device has a command in flight, and nobody queues for it. */
  predicate DeviceExpected(s: State, d: Dev) {
    d in s.waiting && Get(s.queue, Mut(d)) == []
  }

  /** The discipline under which the kernel keeps its invariants. */
  ghost predicate Guard(s: State, st: Step) {
    Enabled(s, st) &&
    match st
    case STerminate(t) => VictimIsCaller(s, t) && NoVictimInIO(s, t)
    case SDoIO(a) => ResolveDeviceAddress(a) != -1
    case SDevice(d) => DeviceExpected(s, d)
    case _ => true
  }

  // ---- the initial state

  /** initPcbs: list_add puts every PCB on the free list, the last one first. */
  function InitialPool(): (r: seq<Pid>)
    ensures |r| == MAX_PROC
    ensures forall i :: 0 <= i < MAX_PROC ==> r[i] as int == MAX_PROC - 1 - i
  {
    seq(MAX_PROC, i requires 0 <= i < MAX_PROC => (MAX_PROC - 1 - i) as Pid)
  }

  function MutexVals(): (r: map<Sem, int>)
    ensures forall k :: k in r <==> k.Mut?
    ensures forall k :: k in r ==> r[k] == 1
  {
    map d: Dev | true :: Mut(d) := 1
  }

  function SyncVals(): (r: map<Sem, int>)
    ensures forall k :: k in r <==> k.Sync?
    ensures forall k :: k in r ==> r[k] == 0
  {
    map d: Dev | true :: Sync(d) := 0
  }

  function UserVals(words: map<u32, int>): (r: map<Sem, int>)
    ensures forall k :: k in r <==> k.User? && k.a in words
    ensures forall k :: k in r ==> r[k] == words[k.a]
  {
    map a | a in words :: User(a) := words[a]
  }

  /** The semaphore words at boot: initGlobalVariable and initSysIOState, and the user's own. */
  function BootVals(words: map<u32, int>): map<Sem, int> {
    UserVals(words) + MutexVals() + SyncVals() + map[Clock := 1]
  }

  /** initPcbs built the free list `pool`; launchInit takes its head for the first process. */
  function Launch(pool: seq<Pid>, val: map<Sem, int>): State
    requires pool != []
  {
    State(pool[1..], [pool[0]], None, Idle, Cons(pool[0], Nil, Nil), map[], map[], val, map[], 1, 0, {}, [])
  }

  /** nucleus.c: main up to the first call of scheduler(). `words` are the user's semaphores. */
  function Boot(words: map<u32, int>): State {
    Launch(InitialPool(), BootVals(words))
  }
}

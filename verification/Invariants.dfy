/** What the kernel keeps: Sane on every run, Sound until g_process_count goes wrong, Inv on every guarded
    run. */
module Invariants {
  import opened Basics
  import opened Forests
  import opened Addresses
  import opened SemQueues
  import opened Machine

  // ---- kept by every step, guarded or not

  /** The queues and the wait map say the same, and no active semaphore has an empty queue. */
  ghost predicate Queued(queue: map<Sem, seq<Pid>>, wait: map<Pid, Wait>) {
    && (forall k :: k in queue ==> queue[k] != [] && NoDup(queue[k]))
    && (forall k, p :: k in queue && p in queue[k] ==> p in wait && wait[p].on == k)
    && (forall p :: p in wait ==> wait[p].on in queue && p in queue[wait[p].on])
  }

  /** The running process, if any. */
  function OnCpu(s: State): set<Pid> {
    if s.mode.Running? && s.cur.Some? then {s.cur.value} else {}
  }

  /** No process is in two places, and all of them are in the tree. */
  ghost predicate Apart(ready: seq<Pid>, blocked: set<Pid>, running: set<Pid>, live: set<Pid>) {
    && NoDup(ready)
    && blocked <= live && running <= live && running !! blocked
    && (forall p :: p in ready ==> p in live && p !in blocked && p !in running)
  }

  /** At most one tree, whose root is the first process. */
  predicate Rooted(f: Forest) {
    f.Nil? || (f.pid as int == MAX_PROC - 1 && f.rest.Nil?)
  }

  /** The free list and the processes in use partition the PCB table. */
  ghost predicate Census(free: seq<Pid>, live: set<Pid>) {
    NoDup(free) && forall p: Pid :: p in free <==> p !in live
  }

  /** g_process_count never exceeds the processes in use; while it is exact, they form one tree. */
  ghost predicate Tally(f: Forest, count: int) {
    count <= |Members(f)| && (count == |Members(f)| ==> Rooted(f))
  }

  /** A g_current_process that is not NULL, stale or not, is on no queue but perhaps the free list. */
  predicate Unqueued(cur: Option<Pid>, ready: seq<Pid>, blocked: set<Pid>) {
    cur.Some? ==> cur.value !in ready && cur.value !in blocked
  }

  /** What every step keeps. */
  ghost predicate Sane(s: State) {
    && KernelWords(s)
    && s.queue.Keys <= s.val.Keys
    && (s.mode.Running? ==> s.cur.Some?)
    && Queued(s.queue, s.wait)
    && Apart(s.ready, s.wait.Keys, OnCpu(s), Members(s.tree))
    && Unqueued(s.cur, s.ready, s.wait.Keys)
    && Distinct(s.tree)
    && Census(s.free, Members(s.tree))
    && Tally(s.tree, s.count)
  }

  /** The processes in use that g_process_count misses. */
  function Excess(s: State): int {
    |Members(s.tree)| - s.count
  }

  /** What every step keeps that does not miscount (see Miscounts): the processes in use are counted exactly, and form
      one tree. */
  ghost predicate Sound(s: State) {
    Sane(s) && Excess(s) == 0
  }

  // ---- kept by guarded steps

  /** p is on the ready queue, blocked, or running. */
  predicate Placed(s: State, p: Pid) {
    p in s.ready || p in s.wait || p in OnCpu(s)
  }

  /** The live processes that are nowhere. */
  function Lost(s: State): set<Pid> {
    set p | p in Members(s.tree) && !Placed(s, p)
  }

  predicate Soft(k: Sem) { k.Clock? || k.Sync? }

  /** The processes blocked on the clock or on a device operation. */
  function SoftSet(wait: map<Pid, Wait>): set<Pid> {
    set p | p in wait && Soft(wait[p].on)
  }

  /** By how much g_soft_block_count exceeds the processes it should count. */
  function Slack(s: State): int {
    s.soft - |SoftSet(s.wait)|
  }

  predicate ClockInv(val: map<Sem, int>, queue: map<Sem, seq<Pid>>) {
    Clock in val && 0 <= val[Clock] <= 1 && (Clock in queue ==> val[Clock] == 0)
  }

  /** Either idle, or with one command in flight whose issuer alone waits on sem_sync. */
  predicate DeviceInv(val: map<Sem, int>, queue: map<Sem, seq<Pid>>, waiting: map<Dev, Pid>, d: Dev) {
    && Sync(d) in val && val[Sync(d)] == 0
    && Mut(d) in val && val[Mut(d)] == (if d in waiting then 0 else 1)
    && Get(queue, Sync(d)) == (if d in waiting then [waiting[d]] else [])
    && (Mut(d) in queue ==> d in waiting)
  }

  /** A binary semaphore: at 0 only P operations wait on it, at 1 only V operations. */
  ghost predicate UserInv(val: map<Sem, int>, wait: map<Pid, Wait>, k: Sem)
    requires k in val
  {
    && 0 <= val[k] <= 1
    && (forall p :: p in wait && wait[p].on == k ==> wait[p].op == if val[k] == 0 then OpP else OpV)
  }

  ghost predicate Semaphores(val: map<Sem, int>, queue: map<Sem, seq<Pid>>, wait: map<Pid, Wait>,
                             waiting: map<Dev, Pid>) {
    && ClockInv(val, queue)
    && (forall d: Dev :: DeviceInv(val, queue, waiting, d))
    && (forall k :: k in val && k.User? ==> UserInv(val, wait, k))
  }

  /** What the final modes mean. */
  predicate Modes(s: State) {
    && !s.mode.Hung? && !s.mode.Fault?
    && (s.mode.Halted? ==> s.count == 0)
    && (s.mode.Panicked? ==> s.ready == [] && s.soft == 0 && s.count > 0)
  }

  ghost predicate Orderly(s: State) {
    && Lost(s) == {}
    && Slack(s) >= 0
    && Semaphores(s.val, s.queue, s.wait, s.waiting)
    && Modes(s)
    && s.looping == {}
  }

  ghost predicate Inv(s: State) { Sound(s) && Orderly(s) }
}

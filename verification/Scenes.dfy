/** Step-by-step accounts of small runs: what one device, one user semaphore and the counters look like. */
module Scenes {
  import opened Basics
  import opened Forests
  import opened Addresses
  import opened SemQueues
  import opened Machine
  import opened Invariants
  import opened Soundness
  import opened Killing
  import opened Terminating
  import opened Guarded
  import opened Exactness

  /** The lists and counters of a state; `sync` and `mutex` are the queues of device d, `user` that of semaphore k, and
      `leaf`, if given, is a process without children, and if `closed` then k is at 0. */
  datatype View = View(
    free: seq<Pid>, ready: seq<Pid>, cur: Option<Pid>, mode: Mode, leaf: Option<Pid>,
    sync: seq<Pid>, mutex: seq<Pid>, user: seq<Pid>, held: Option<Pid>, count: int, soft: int,
    closed: bool, looping: set<Pid>)

  predicate Leaf(f: Forest, p: Pid) {
    p in Members(f) && KidsOf(f, p) == Nil
  }

  lemma {:induction false} SnocLeaf(f: Forest, p: Pid)
    requires p !in Members(f)
    ensures Leaf(Snoc(f, p), p)
  {
    if f.Cons? {
      SnocLeaf(f.rest, p);
    }
  }

  lemma {:induction false} AddedLeaf(f: Forest, par: Pid, p: Pid)
    requires par in Members(f) && p !in Members(f)
    ensures Leaf(AddChild(f, par, p), p)
  {
    if f.pid == par {
      SnocLeaf(f.kids, p);
    } else if par in Members(f.kids) {
      AddedLeaf(f.kids, par, p);
    } else {
      AddedLeaf(f.rest, par, p);
    }
  }

  lemma {:induction false} AddedKid(f: Forest, par: Pid, p: Pid)
    requires Leaf(f, par) && p !in Members(f)
    ensures Leaf(f, par) && par in Members(AddChild(f, par, p)) && KidsOf(AddChild(f, par, p), par) == Cons(p, Nil, Nil)
  {
    if f.pid != par {
      if par in Members(f.kids) {
        AddedKid(f.kids, par, p);
      } else {
        AddedKid(f.rest, par, p);
      }
    }
  }

  /** s looks like v, and device d is in order. */
  ghost predicate Looks(s: State, d: Dev, k: Sem, v: View) {
    && KernelWords(s) && k.User? && (v.closed ==> k in s.val && s.val[k] == 0)
    && s.free == v.free && s.ready == v.ready && s.cur == v.cur && s.mode == v.mode
    && (v.leaf.Some? ==> Leaf(s.tree, v.leaf.value))
    && Get(s.queue, Sync(d)) == v.sync && Get(s.queue, Mut(d)) == v.mutex && Get(s.queue, k) == v.user
    && (if d in s.waiting then Some(s.waiting[d]) else None) == v.held
    && s.val[Sync(d)] == 0 && s.val[Mut(d)] == (if v.held.None? then 1 else 0)
    && s.count == v.count && s.soft == v.soft && s.looping == v.looping
  }

  ghost predicate Seen(s: State, d: Dev, k: Sem, v: View) {
    Sane(s) && Looks(s, d, k, v)
  }

  /** The next ready process takes over. */
  function Over(v: View): View
    requires v.ready != []
  {
    v.(cur := Some(v.ready[0]), ready := v.ready[1..])
  }

  /** The timeslice of the running process is over. */
  function Turned(v: View): View
    requires v.cur.Some?
  {
    Over(v.(ready := v.ready + [v.cur.value]))
  }

  /** The running process has blocked on the user semaphore. */
  function Passing(v: View): View
    requires v.ready != [] && v.cur.Some?
  {
    Over(v.(user := v.user + [v.cur.value]))
  }

  /** The running process has asked for the device. */
  function Issuing(v: View): View
    requires v.ready != [] && v.cur.Some?
  {
    if v.held.None? then Over(v.(sync := v.sync + [v.cur.value], held := v.cur, soft := v.soft + 1))
    else Over(v.(mutex := v.mutex + [v.cur.value]))
  }

  /** The running process t has terminated. */
  function Exited(v: View, t: Pid): View {
    Scheduled(v.(free := [t] + v.free, leaf := None, count := v.count - 1))
  }

  /** scheduler() has been called. */
  function Scheduled(v: View): View {
    if v.ready == [] then v.(mode := IdleMode(v.count, v.soft)) else Over(v.(mode := Running))
  }

  /** The running process has another child. */
  function Grew(v: View): View
    requires v.free != [] && v.cur.Some?
  {
    v.(free := v.free[1..], ready := v.ready + [v.free[0]], leaf := Some(v.free[0]), count := v.count + 1)
  }

  lemma CreateSeen(s: State, d: Dev, k: Sem, v: View)
    requires Seen(s, d, k, v) && v.looping == {} && v.mode.Running? && v.free != [] && v.cur.Some?
    ensures Enabled(s, SCreate) && Seen(Next(s, SCreate), d, k, Grew(v))
  {
    NotFreed(s);
    assert s.cur.value in OnCpu(s) && s.free[0] in s.free;
    AddedLeaf(s.tree, s.cur.value, s.free[0]);
    CreateSane(s);
  }

  lemma TimesliceSeen(s: State, d: Dev, k: Sem, v: View)
    requires Seen(s, d, k, v) && v.looping == {} && v.mode.Running? && v.cur.Some?
    ensures Enabled(s, STimeslice) && Seen(Next(s, STimeslice), d, k, Turned(v))
  {
    NextSane(s, STimeslice);
  }

  /** t is s after the running process has blocked on m, another one being ready. */
  ghost predicate Blocked(s: State, m: Sem, t: State)
    requires s.ready != [] && s.cur.Some?
  {
    && t.free == s.free && t.ready == s.ready[1..] && t.cur == Some(s.ready[0]) && t.mode.Running?
    && t.tree == s.tree && t.queue == s.queue[m := Get(s.queue, m) + [s.cur.value]] && t.val == s.val
    && t.waiting == s.waiting && t.count == s.count && t.soft == s.soft && t.looping == s.looping
  }

  lemma BlockSeen(s: State, m: Sem, op: Op)
    requires Sane(s) && s.looping == {} && s.mode.Running? && s.ready != []
    ensures s.cur.Some? && Blocked(s, m, Block(s, m, op))
  {
    NotFreed(s);
    UnlistedSane(s);
    var t := Parked(s, m, op);
  }

  function If(b: bool, p: Pid): seq<Pid> {
    if b then [p] else []
  }

  /** v with p at the end of the queue of m. */
  function Joining(v: View, d: Dev, k: Sem, m: Sem, p: Pid): View {
    v.(sync := v.sync + If(m == Sync(d), p), mutex := v.mutex + If(m == Mut(d), p), user := v.user + If(m == k, p))
  }

  lemma JoinedGet(q: Queues, m: Sem, p: Pid, n: Sem)
    ensures Get(q[m := Get(q, m) + [p]], n) == Get(q, n) + If(m == n, p)
  {
  }

  lemma BlockedSeen(s: State, d: Dev, k: Sem, v: View, m: Sem, op: Op)
    requires Seen(s, d, k, v) && v.looping == {} && v.mode.Running? && v.ready != [] && v.cur.Some? && m in s.val
    ensures Seen(Block(s, m, op), d, k, Over(Joining(v, d, k, m, v.cur.value)))
  {
    NotFreed(s);
    BlockSane(s, m, op);
    BlockSeen(s, m, op);
    JoinedGet(s.queue, m, s.cur.value, Sync(d));
    JoinedGet(s.queue, m, s.cur.value, Mut(d));
    JoinedGet(s.queue, m, s.cur.value, k);
  }

  lemma PassSeen(s: State, d: Dev, k: Sem, v: View)
    requires Seen(s, d, k, v) && v.looping == {} && v.mode.Running? && v.ready != [] && v.cur.Some? && v.closed
    ensures Enabled(s, SP(k)) && Seen(Next(s, SP(k)), d, k, Passing(v))
  {
    BlockedSeen(s, d, k, v, k, OpP);
  }

  /** The state in which beginIO, called by sysDoIO for an idle device, waits for the answer. */
  function Commanded(s: State, d: Dev): State
    requires s.cur.Some?
  {
    Start(Logged(WithVal(s, Mut(d), 0), Done(OpP, Mut(d))), d, s.cur.value)
  }

  lemma CommandedSane(s: State, d: Dev)
    requires Sane(s) && s.cur.Some?
    ensures Sane(Commanded(s, d))
  {
    var t := Logged(WithVal(s, Mut(d), 0), Done(OpP, Mut(d)));
    ValSane(s, Mut(d), 0);
    LoggedSane(WithVal(s, Mut(d), 0), Done(OpP, Mut(d)));
    HeldSane(t, d, s.cur.value);
    LoggedSane(Held(t, d, s.cur.value), Begin(d, s.cur.value));
    SoftSane(Logged(Held(t, d, s.cur.value), Begin(d, s.cur.value)));
  }

  lemma CommandedLooks(s: State, d: Dev, k: Sem, v: View)
    requires Looks(s, d, k, v) && v.cur.Some? && v.held.None?
    ensures Looks(Commanded(s, d), d, k, v.(held := v.cur, soft := v.soft + 1))
  {
  }

  lemma DoIOBlocks(s: State, a: u32)
    requires KernelWords(s) && s.cur.Some? && ResolveDeviceAddress(a) != -1
    requires var d := ResolveDeviceAddress(a) as Dev; s.val[Sync(d)] == 0
    ensures var d := ResolveDeviceAddress(a) as Dev;
      && (s.val[Mut(d)] == 0 ==> DoIO(s, a) == Block(s, Mut(d), OpP))
      && (s.val[Mut(d)] == 1 && Get(s.queue, Mut(d)) == [] ==> DoIO(s, a) == Block(Commanded(s, d), Sync(d), OpP))
  {
  }

  lemma CommandBlocks(s: State, d: Dev, k: Sem, v: View)
    requires Seen(s, d, k, v) && v.looping == {} && v.mode.Running? && v.ready != [] && v.cur.Some? && v.held.None?
    ensures Seen(Block(Commanded(s, d), Sync(d), OpP), d, k, Issuing(v))
  {
    CommandedSane(s, d);
    CommandedLooks(s, d, k, v);
    BlockedSeen(Commanded(s, d), d, k, v.(held := v.cur, soft := v.soft + 1), Sync(d), OpP);
  }

  /** DOIO on the idle device. */
  lemma IssueSeen(s: State, a: u32, k: Sem, v: View)
    requires ResolveDeviceAddress(a) != -1
    requires Seen(s, ResolveDeviceAddress(a) as Dev, k, v) && v.mode.Running? && v.ready != [] && v.cur.Some?
    requires v.looping == {} && v.held.None? && v.mutex == []
    ensures Enabled(s, SDoIO(a))
    ensures Seen(Next(s, SDoIO(a)), ResolveDeviceAddress(a) as Dev, k, Issuing(v))
  {
    CommandBlocks(s, ResolveDeviceAddress(a) as Dev, k, v);
    DoIOBlocks(s, a);
  }

  lemma IssueKeepsTree(s: State, a: u32)
    requires Sane(s) && s.looping == {} && s.mode.Running? && s.ready != [] && ResolveDeviceAddress(a) != -1
    requires var d := ResolveDeviceAddress(a) as Dev;
      s.val[Sync(d)] == 0 && s.val[Mut(d)] == 1 && Get(s.queue, Mut(d)) == []
    ensures s.cur.Some? && DoIO(s, a).tree == s.tree
  {
    var d := ResolveDeviceAddress(a) as Dev;
    DoIOBlocks(s, a);
    CommandedSane(s, d);
    BlockSeen(Commanded(s, d), Sync(d), OpP);
  }

  /** DOIO on the busy device. */
  lemma QueueSeen(s: State, a: u32, k: Sem, v: View)
    requires ResolveDeviceAddress(a) != -1
    requires Seen(s, ResolveDeviceAddress(a) as Dev, k, v) && v.mode.Running? && v.ready != [] && v.cur.Some?
    requires v.looping == {} && v.held.Some?
    ensures Enabled(s, SDoIO(a))
    ensures Seen(Next(s, SDoIO(a)), ResolveDeviceAddress(a) as Dev, k, Issuing(v))
  {
    var d := ResolveDeviceAddress(a) as Dev;
    DoIOBlocks(s, a);
    BlockedSeen(s, d, k, v, Mut(d), OpP);
  }

  /** The running process, a leaf of the tree, terminates itself. */
  lemma ExitSeen(s: State, d: Dev, k: Sem, v: View, t: Pid)
    requires Seen(s, d, k, v) && v.mode.Running? && v.cur == Some(t) && v.leaf == Some(t) && v.looping == {}
    ensures Guard(s, STerminate(t))
    ensures Seen(Next(s, STerminate(t)), d, k, Exited(v, t))
  {
    TerminateSane(s, t);
    KilledEffect(s, t);
    RunsAlone(s, t);
    LeafReaped(s, t, Killed(s, t));
    LeafLooks(s, d, k, v, t, Killed(s, t));
  }

  lemma RunsAlone(s: State, t: Pid)
    requires Sane(s) && s.mode.Running? && s.cur == Some(t)
    ensures t !in s.wait && t !in s.ready && t !in s.free && NoneEmpty(s.queue)
    ensures forall k, p :: k in s.queue && p in s.queue[k] ==> p != t
  {
    NotFreed(s);
  }

  /** r is s after t, which had no children and waited for nothing, has died. */
  predicate LeafGone(s: State, t: Pid, r: State) {
    && r.free == [t] + s.free && r.ready == s.ready && r.queue == s.queue && r.val == s.val
    && r.count == s.count - 1 && r.soft == s.soft && r.waiting == s.waiting && r.cur == s.cur && r.mode == Idle
    && r.looping == s.looping
  }

  lemma ScheduleLooks(s: State, d: Dev, k: Sem, v: View)
    requires Looks(s, d, k, v) && v.looping == {}
    ensures Looks(Schedule(s), d, k, Scheduled(v))
  {
    if s.ready == [] {
      assert Schedule(s) == WithMode(s, IdleMode(s.count, s.soft));
    } else {
      DispatchLooks(s, d, k, v);
    }
  }

  lemma DispatchLooks(s: State, d: Dev, k: Sem, v: View)
    requires Looks(s, d, k, v) && v.looping == {} && v.ready != []
    ensures Looks(Logged(Dispatched(s), Dispatch(s.ready[0])), d, k, Over(v.(mode := Running)))
  {
  }

  lemma LeafLooks(s: State, d: Dev, k: Sem, v: View, t: Pid, r: State)
    requires Looks(s, d, k, v) && v.cur == Some(t) && v.looping == {} && LeafGone(s, t, r)
    ensures Looks(Schedule(r), d, k, Exited(v, t))
  {
    ScheduleLooks(r, d, k, v.(free := [t] + v.free, leaf := None, count := v.count - 1, mode := Idle));
  }

  lemma JustOne(t: Pid)
    ensures Members(Cons(t, Nil, Nil)) == {t} && Postorder(Cons(t, Nil, Nil)) == [t] && Reverse([t]) == [t]
  {
  }

  lemma LeafReaped(s: State, t: Pid, r: State)
    requires Reaped(s, Members(Cons(t, Nil, Nil)), Postorder(Cons(t, Nil, Nil)), r.tree, r)
    requires t !in s.wait && t !in s.ready && t !in s.free && NoneEmpty(s.queue)
    requires forall k, p :: k in s.queue && p in s.queue[k] ==> p != t
    ensures LeafGone(s, t, r)
  {
    JustOne(t);
    MinusNothing(s.free, {t});
    MinusNothing(s.ready, {t});
    PurgedNothing(s.queue, {t});
    assert AllInFlight(s.wait, s.waiting, {t}) == {};
    assert AbortedVals(s.val, s.wait, s.waiting, {t}) == s.val;
  }

  /** z has been queued in q's stead, and p runs. */
  function Reviving(v: View, p: Pid, q: Pid, z: Pid): View {
    v.(free := Minus(v.free, {z}), leaf := None, mode := Running, cur := Some(p), sync := [z], mutex := [],
       held := Some(q), looping := v.looping + {z})
  }

  lemma ReviveLooks(s: State, d: Dev, k: Sem, v: View, p: Pid, q: Pid, z: Pid)
    requires Looks(s, d, k, v) && v.mode.Idle? && v.ready == [] && v.cur == Some(z) && z in v.free
    requires p != z && p !in v.looping && v.sync == [p] && v.held == Some(p) && v.mutex == [q]
    ensures Looks(Block(HandOff(s, d, q), Sync(d), OpP), d, k, Reviving(v, p, q, z))
  {
    HandedOff(s, d, p, q);
    RevivedParked(HandOff(s, d, q), Sync(d), OpP);
  }

  /** The device answers p while the machine is idle and q queues for the device, and g_current_process is a freed z. */
  lemma ReviveSeen(s: State, d: Dev, k: Sem, v: View, p: Pid, q: Pid, z: Pid)
    requires Seen(s, d, k, v) && v.mode.Idle? && v.ready == [] && v.cur == Some(z) && z in v.free
    requires p !in v.looping && v.sync == [p] && v.held == Some(p) && v.mutex == [q]
    ensures Enabled(s, SDevice(d)) && Revives(s, SDevice(d)) && Seen(Next(s, SDevice(d)), d, k, Reviving(v, p, q, z))
  {
    DeviceSane(s, d);
    InterruptHandsOff(s, d);
    assert p in s.queue[Sync(d)];
    ReviveLooks(s, d, k, v, p, q, z);
  }

  lemma RevivedParked(s: State, m: Sem, op: Op)
    requires s.mode.Idle? && s.cur.Some? && s.cur.value in s.free
    requires s.ready != [] && s.ready[0] !in s.looping && s.ready[0] != s.cur.value
    ensures var t := Block(s, m, op); var z := s.cur.value;
      && t.free == Minus(s.free, {z}) && t.ready == s.ready[1..]
      && t.cur == Some(s.ready[0]) && t.mode.Running? && t.queue == s.queue[m := Get(s.queue, m) + [z]]
      && t.val == s.val && t.waiting == s.waiting && t.count == s.count && t.soft == s.soft
      && t.looping == s.looping + {z}
  {
  }

  lemma HandedOff(s: State, d: Dev, p: Pid, q: Pid)
    requires Get(s.queue, Sync(d)) == [p] && Get(s.queue, Mut(d)) == [q] && d in s.waiting
    ensures var h := HandOff(s, d, q);
      && h.free == s.free && h.ready == s.ready + [p] && h.cur == s.cur && h.mode == s.mode && h.tree == s.tree
      && Get(h.queue, Sync(d)) == [] && Get(h.queue, Mut(d)) == []
      && (forall m :: m != Sync(d) && m != Mut(d) ==> Get(h.queue, m) == Get(s.queue, m))
      && h.val == s.val && h.waiting == s.waiting[d := q] && h.count == s.count && h.soft == s.soft
      && h.looping == s.looping
  {
    assert Minus([p], {p}) == [] && Minus([q], {q}) == [];
  }

  /** z has been taken off sem_sync and made ready, and the device is idle. */
  function Answered(v: View, z: Pid): View {
    v.(ready := v.ready + [z], sync := [], held := None, soft := v.soft - 1)
  }

  /** The device answers and nobody queues for it: whoever is parked on sem_sync becomes ready. */
  lemma AnswerSeen(s: State, d: Dev, k: Sem, v: View, z: Pid)
    requires Seen(s, d, k, v) && v.mode.Running? && v.sync == [z] && v.held.Some? && v.mutex == []
    ensures Enabled(s, SDevice(d)) && Seen(Next(s, SDevice(d)), d, k, Answered(v, z))
  {
    DeviceSane(s, d);
    InterruptServes(s, d);
    assert Minus([z], {z}) == [];
  }

  /** The timeslice is over, and the next ready process goes on in the loop of scheduler(). */
  function Strayed(v: View): View
    requires v.ready != [] && v.cur.Some?
  {
    v.(mode := Idle, cur := Some(v.ready[0]), ready := v.ready[1..] + [v.cur.value])
  }

  lemma StrayLooks(s: State, d: Dev, k: Sem, v: View)
    requires Looks(s, d, k, v) && v.mode.Running? && v.cur.Some? && v.ready != []
    requires v.ready[0] in v.looping && v.cur.value !in v.looping
    ensures Looks(Timeslice(s), d, k, Strayed(v))
  {
    assert v.looping - {v.cur.value} == v.looping;
  }

  lemma StraySeen(s: State, d: Dev, k: Sem, v: View)
    requires Seen(s, d, k, v) && v.mode.Running? && v.cur.Some? && v.ready != []
    requires v.ready[0] in v.looping && v.cur.value !in v.looping
    ensures Enabled(s, STimeslice) && Seen(Next(s, STimeslice), d, k, Strayed(v))
  {
    TimesliceSane(s);
    StrayLooks(s, d, k, v);
  }

  /** The idle loop finds a process that is not in that loop itself. */
  lemma ResumeSeen(s: State, d: Dev, k: Sem, v: View)
    requires Seen(s, d, k, v) && v.mode.Idle? && v.ready != [] && v.ready[0] !in v.looping
    ensures Enabled(s, SResume) && Seen(Next(s, SResume), d, k, Over(v).(mode := Running))
  {
    NextSane(s, SResume);
  }
}

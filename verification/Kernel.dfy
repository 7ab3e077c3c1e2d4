/** The kernel's handlers as they are written, on fields they update in place, each proved against the state machine. */
module Kernel {
  import opened Basics
  import opened Forests
  import opened Addresses
  import opened SemQueues
  import Ash
  import opened Machine
  import opened Invariants
  import opened Soundness
  import opened Terminating
  import opened Runs
  import opened Interrupts
  import opened Naming
  import opened Links
  import opened Family
  import opened TreeOrder

  /** The p_semAdd fields agree with what the model says the processes wait on. */
  ghost predicate WaitsOn(wait: map<Pid, Wait>, semAdd: map<Pid, Sem>) {
    wait.Keys == semAdd.Keys && forall p :: p in wait ==> wait[p].on == semAdd[p]
  }

  ghost predicate Named(at: Layout, val: map<Sem, int>) {
    forall k :: k in val ==> at.Names(k)
  }

  /** Nothing allocated yet. */
  function Zeroed(words: map<Sem, int>): State {
    State([], [], None, Idle, Nil, map[], map[], words, map[], 0, 0, {}, [])
  }

  /** What the handlers rely on: g_current_process is not blocked, and allocated semaphores have waiters. */
  ghost predicate Fit(s: State) {
    && (s.cur.Some? ==> s.cur.value !in s.wait)
    && NoneEmpty(s.queue)
  }

  lemma SaneIsFit(s: State)
    requires Sane(s)
    ensures Fit(s)
  {
  }

  ghost predicate Barren(f: Forest, children: Children) {
    forall p :: p !in Members(f) ==> ChildrenOf(children, p) == []
  }

  /** The child lists of x have been emptied; those of all others but p are as they were. */
  ghost predicate Cleared(children: Children, children': Children, x: set<Pid>, p: Pid) {
    forall q :: q != p ==> ChildrenOf(children', q) == if q in x then [] else ChildrenOf(children, q)
  }

  lemma FirstGone(rest: Forest, kids: Forest)
    requires rest.Cons? && Distinct(rest) && Members(rest) <= Members(kids)
    ensures Members(kids) - Members(rest.rest) == Members(kids) - Members(rest) + (Members(rest.kids) + {rest.pid})
  {
  }

  lemma AllEmptied(p: Pid, rest: Forest, kids: Forest, children: Children, children': Children)
    requires rest == Nil && Cleared(children, children', Members(kids) - Members(rest), p)
    requires ChildrenOf(children', p) == []
    ensures forall q ::
      ChildrenOf(children', q) == if q in Members(kids) + {p} then [] else ChildrenOf(children, q)
  {
  }

  lemma Reparent(parent: Parents, p: Pid, q: Pid)
    ensures (parent - {p})[p := q] == parent[p := q]
  {
  }

  lemma ClearMore(a: Children, b: Children, c: Children, x: set<Pid>, y: set<Pid>, p: Pid)
    requires Cleared(a, b, x, p) && Cleared(b, c, y, p)
    ensures Cleared(a, c, x + y, p)
  {
  }

  class Nucleus {
    const ash: Ash.SemaphoreHash
    var free: seq<Pid>                   // pcbFree_h
    var ready: seq<Pid>                  // g_ready_queue
    var current: Option<Pid>             // g_current_process
    var mode: Mode                       // where control is
    var val: map<Sem, int>               // semaphore words
    var waiting: map<Dev, Pid>           // waiting_process of each device; absent means NULL
    var count: int                       // g_process_count
    var soft: int                        // g_soft_block_count
    var looping: set<Pid>                // whose p_s holds the state of scheduler()'s own loop
    var parent: Parents                  // p_parent
    var children: Children               // p_child, p_sib
    var ns: map<Pid, int>                // namespaces[PID_NS]; absent means NULL
    ghost var tree: Forest
    ghost var wait: map<Pid, Wait>
    ghost var log: seq<Event>

    /** The state of the machine this object stands for. */
    ghost function Abs(): State
      reads this, ash
    {
      State(free, ready, current, mode, tree, ash.queues, wait, val, waiting, count, soft, looping, log)
    }

    /** The concrete fields agree with the ghost ones. */
    ghost predicate Coupled()
      reads this`wait, this`val, ash
    {
      ash.Valid() && WaitsOn(wait, ash.semAdd) && Named(ash.at, val)
    }

    /** The pointers describe the tree, and a PCB outside it has no children. */
    ghost predicate Tied()
      reads this`tree, this`parent, this`children
    {
      Linked(tree, None, parent, children) && Barren(tree, children)
    }

    /** initGlobalVariable and initASH. `words` is memory as InitWords leaves it. */
    constructor (layout: Layout, words: map<Sem, int>)
      requires layout.Valid() && Named(layout, words)
      ensures Coupled() && Tied() && Abs() == Zeroed(words) && fresh(ash) && ash.at == layout
      ensures forall x :: NsOf(ns, x) == None
    {
      ash := new Ash.SemaphoreHash(layout);
      val := words;
      waiting, count, soft, current, mode, looping := map[], 0, 0, None, Idle, {};
      free, ready := [], [];
      tree, wait, log := Nil, map[], [];
      parent, children, ns := map[], map[], map[];
    }

    /** The rest of main, up to the first call of scheduler(): initPcbs and launchInit. */
    method Launch()
      requires free == [] && ready == [] && count == 0 && tree == Nil && Tied()
      modifies this`free, this`ready, this`count, this`tree, this`parent, this`children, this`ns
      ensures Tied() && (old(Abs()) == Zeroed(val) ==> Abs() == Machine.Launch(InitialPool(), val))
      ensures Crowned(tree, parent)
      ensures (forall x :: NsOf(old(ns), x) == None) ==> forall x :: NsOf(ns, x) == None
    {
      InitPcbs();
      LaunchInit();
    }

    /** The semaphore words in initGlobalVariable, and initSysIOState for each device. */
    static method InitWords(user: map<Sem, int>) returns (v: map<Sem, int>)
      requires forall k :: k in user ==> k.User?
      ensures Initialised(user, v, DEVICE_NUMBER) && Clock in v && v[Clock] == 1
    {
      v := user;
      var i := 0;
      while i < DEVICE_NUMBER
        invariant 0 <= i <= DEVICE_NUMBER && Initialised(user, v, i)
      {
        v := v[Mut(i as Dev) := 1][Sync(i as Dev) := 0];
        i := i + 1;
      }
      v := v[Clock := 1];
    }

    method InitPcbs()
      requires free == []
      modifies this`free
      ensures free == InitialPool()
    {
      var i := 0;
      while i < MAX_PROC
        invariant 0 <= i <= MAX_PROC && |free| == i
        invariant forall j :: 0 <= j < i ==> free[j] as int == i - 1 - j
      {
        free := [i as Pid] + free;
        i := i + 1;
      }
      forall j | 0 <= j < MAX_PROC ensures free[j] == InitialPool()[j] {
      }
    }

    method LaunchInit()
      requires free != [] && tree == Nil && Tied()
      modifies this`free, this`ready, this`count, this`tree, this`parent, this`children, this`ns
      ensures Tied() && free == old(free)[1..] && ready == old(ready) + [old(free)[0]] && count == old(count) + 1
      ensures tree == Cons(old(free)[0], Nil, Nil) && old(free)[0] !in parent
      ensures forall x :: NsOf(ns, x) == if x == old(free)[0] then None else NsOf(old(ns), x)
    {
      count := count + 1;
      var p := free[0];
      free := free[1..];
      parent, children, ns := parent - {p}, children[p := []], ns - {p};
      ready := ready + [p];
      tree := Cons(p, Nil, Nil);
    }

    // ---- scheduler.c

    /** scheduler(). The WAIT of its loop ends the step; control comes back here when an interrupt has been served, or
        when LDST loads a state that was saved in this loop. */
    method Scheduler()
      modifies this`current, this`ready, this`mode, this`log
      ensures Abs() == Schedule(old(Abs()))
    {
      if ready == [] {
        if count == 0 {
          mode := Halted;
        } else if count > 0 && soft > 0 {
          mode := Idle;
        } else if count > 0 && soft == 0 {
          mode := Panicked;
        } else {
          mode := Hung;
        }
        return;
      }
      log := log + [Dispatch(ready[0])];
      current := Some(ready[0]);
      ready := ready[1..];
      mode := if current.value in looping then Idle else Running;
    }

    /** The memcpy of g_old_state to p_s of c: what has been interrupted is c, or scheduler() in its loop. */
    method Save(c: Pid)
      modifies this`looping
      ensures Abs() == Saved(old(Abs()), c)
    {
      looping := if mode.Idle? then looping + {c} else looping - {c};
    }

    // ---- P and V

    /** list_delete_safe on p_list: p leaves the free list or the ready queue, if it is on one of them. */
    method Unlist(p: Pid)
      modifies this`free, this`ready, this`tree
      ensures Abs() == Unlisted(old(Abs()), p)
    {
      if p in free {
        free := Minus(free, {p});
        tree := Snoc(tree, p);
      } else if p in ready {
        ready := Minus(ready, {p});
      }
    }

    /** The rest of insertBlocked. Its result is ignored: it cannot fail. */
    method Enlist(k: Sem, c: Pid, ghost op: Op)
      requires Coupled() && c !in wait && NoneEmpty(ash.queues) && ash.at.Names(k)
      modifies this`wait, ash
      ensures Coupled() && Abs() == Joined(old(Abs()), k, c, op)
    {
      NeverFails(ash, k, c);
      WaitsOnAdd(wait, ash.semAdd, c, k, op);
      var _ := ash.InsertBlocked(k, c);
      wait := wait[c := Wait(k, op)];
    }

    /** insertBlocked(k, g_current_process); the processor is given up. */
    method ParkCurrent(k: Sem, ghost op: Op)
      requires Coupled() && ash.at.Names(k) && current.Some? && current.value !in wait && NoneEmpty(ash.queues)
      modifies this`free, this`ready, this`tree, this`current, this`mode, this`looping, this`wait, ash
      ensures Coupled() && Abs() == Park(Unlisted(old(Abs()), old(current).value), k, op)
    {
      ghost var s := Abs();
      UnlistedFrame(s, current.value);
      SavedUnlisted(s, current.value);
      Save(current.value);
      Unlist(current.value);
      Enlist(k, current.value, op);
      Drop();
    }

    /** g_current_process = NULL; the kernel is on its way into scheduler(). */
    method Drop()
      modifies this`current, this`mode
      ensures Abs() == Dropped(old(Abs()))
    {
      current := None;
      mode := Idle;
    }

    /** The common end of sysPasseren and sysVerhogen: g_current_process blocks on k. */
    method Suspend(k: Sem, ghost op: Op)
      requires Coupled() && Fit(Abs()) && ash.at.Names(k)
      modifies this`free, this`tree, this`current, this`ready, this`mode, this`looping, this`log, this`wait, ash
      ensures Coupled() && Abs() == Block(old(Abs()), k, op)
    {
      if current.None? {
        mode := Fault;
        return;
      }
      ParkCurrent(k, op);
      Scheduler();
    }

    ghost method Record(e: Event)
      modifies this`log
      ensures Abs() == Logged(old(Abs()), e)
    {
      log := log + [e];
    }

    /** insertProcQ(&g_ready_queue, p). */
    method MakeReady(p: Pid)
      modifies this`ready
      ensures Abs() == Readied(old(Abs()), p)
    {
      ready := ready + [p];
    }

    /** removeBlocked, as the machine sees it. */
    method Take(k: Sem) returns (r: Option<Pid>)
      requires ash.Valid() && ash.at.Names(k)
      modifies ash
      ensures ash.Valid()
      ensures r.None? ==> Get(old(ash.queues), k) == []
      ensures r.None? ==> ash.queues == old(ash.queues) && ash.semAdd == old(ash.semAdd)
      ensures r.Some? ==> Get(old(ash.queues), k) != [] && r.value == old(ash.queues)[k][0]
      ensures r.Some? ==> ash.queues == Put(old(ash.queues), k, Minus(Get(old(ash.queues), k), {r.value}))
      ensures r.Some? ==> ash.semAdd == old(ash.semAdd) - {r.value}
    {
      TailOf(ash.queues, ash.semAdd, k);
      r := ash.RemoveBlocked(k);
    }

    method RemoveHead(k: Sem) returns (r: Option<Pid>)
      requires Coupled() && ash.at.Names(k)
      modifies this`wait, ash
      ensures Coupled()
      ensures r.None? ==> Get(old(ash.queues), k) == [] && Abs() == old(Abs())
      ensures r.Some? ==> Get(old(ash.queues), k) != [] && r.value == old(ash.queues)[k][0]
      ensures r.Some? ==> Abs() == Removed(old(Abs()), k, r.value)
    {
      r := Take(k);
      Unwait(r);
    }

    /** A process taken off a queue waits no more. */
    method Unwait(p: Option<Pid>)
      modifies this`wait
      ensures wait == if p.Some? then old(wait) - {p.value} else old(wait)
    {
      if p.Some? {
        wait := wait - {p.value};
      }
    }

    method SetVal(k: Sem, x: int)
      requires Coupled() && ash.at.Names(k)
      modifies this`val
      ensures Coupled() && Abs() == WithVal(old(Abs()), k, x)
    {
      val := val[k := x];
    }

    /** The branch of sysPasseren and sysVerhogen that does not block. */
    method Pass(k: Sem, op: Op)
      requires Coupled() && k in val && Returns(Abs(), k, op)
      modifies this`ready, this`log, this`wait, this`val, ash
      ensures Coupled() && Abs() == Operate(old(Abs()), k, op)
    {
      ghost var s := Abs();
      var removed := RemoveHead(k);
      if removed.Some? {
        MakeReady(removed.value);
        Record(Done(PendingOp(s, removed.value), k));
      } else {
        SetVal(k, if op.OpP? then val[k] - 1 else val[k] + 1);
      }
      Record(Done(op, k));
    }

    method Passeren(k: Sem) returns (returned: bool)
      requires Coupled() && Fit(Abs()) && k in val
      modifies this`free, this`tree, this`current, this`ready, this`mode, this`looping, this`log, this`wait, this`val,
               ash
      ensures Coupled() && Abs() == Operate(old(Abs()), k, OpP) && returned == Returns(old(Abs()), k, OpP)
    {
      if val[k] == 1 {
        Pass(k, OpP);
        return true;
      }
      Suspend(k, OpP);
      return false;
    }

    method Verhogen(k: Sem) returns (returned: bool)
      requires Coupled() && Fit(Abs()) && k in val
      modifies this`free, this`tree, this`current, this`ready, this`mode, this`looping, this`log, this`wait, this`val,
               ash
      ensures Coupled() && Abs() == Operate(old(Abs()), k, OpV) && returned == Returns(old(Abs()), k, OpV)
    {
      if val[k] == 0 {
        Pass(k, OpV);
        return true;
      }
      Suspend(k, OpV);
      return false;
    }

    // ---- devices.c

    method Hold(d: Dev, p: Pid)
      modifies this`waiting
      ensures Abs() == Held(old(Abs()), d, p)
    {
      waiting := waiting[d := p];
    }

    method Vacate(d: Dev)
      modifies this`waiting
      ensures Abs() == Vacated(old(Abs()), d)
    {
      waiting := waiting - {d};
    }

    method IncSoft()
      modifies this`soft
      ensures Abs() == SoftUp(old(Abs()))
    {
      soft := soft + 1;
    }

    method DecSoft()
      modifies this`soft
      ensures Abs() == SoftDown(old(Abs()))
    {
      soft := soft - 1;
    }

    /** beginIO; the copy of the command to the device registers is the event Begin. */
    method StartIO(d: Dev, p: Pid) returns (returned: bool)
      requires Coupled() && Fit(Start(Abs(), d, p)) && Sync(d) in val
      modifies this`free, this`tree, this`waiting, this`soft, this`current, this`ready, this`mode, this`looping,
               this`log, this`wait, this`val, ash
      ensures Coupled() && Abs() == BeginIO(old(Abs()), d, p) && returned == (old(val)[Sync(d)] == 1)
    {
      Hold(d, p);
      Record(Begin(d, p));
      IncSoft();
      returned := Passeren(Sync(d));
    }

    /** endIO and setReturnValue. */
    method FinishIO(d: Dev)
      requires d in waiting
      modifies this`soft, this`log
      ensures Abs() == EndIO(old(Abs()), d)
    {
      Record(End(d, waiting[d]));
      DecSoft();
    }

    /** The part of sysDoIO after the address has been resolved. */
    method Issue(d: Dev)
      requires Coupled() && Sane(Abs()) && current.Some?
      modifies this`free, this`tree, this`waiting, this`soft, this`current, this`ready, this`mode, this`looping,
               this`log, this`wait, this`val, ash
      ensures Coupled() && Abs() == IssueIO(old(Abs()), d)
    {
      IssueFits(Abs(), d);
      var c := current.value;
      var returned := Passeren(Mut(d));
      if returned {
        var _ := StartIO(d, c);
      }
    }

    method SysDoIO(cmdAddr: u32)
      requires Coupled() && Sane(Abs()) && current.Some?
      modifies this`free, this`tree, this`waiting, this`soft, this`current, this`ready, this`mode, this`looping,
               this`log, this`wait, this`val, ash
      ensures Coupled() && Abs() == DoIO(old(Abs()), cmdAddr)
      ensures !(DEVREG_START <= cmdAddr < TERMREG_END) ==> Abs() == old(Abs()).(mode := Panicked)
    {
      var i := ResolveDeviceAddress(cmdAddr);
      if i == -1 {
        mode := Panicked;
        return;
      }
      Issue(i as Dev);
    }

    /** The end of handleDeviceInt: pass the device on, or mark it idle. */
    method PassOn(d: Dev) returns (returned: bool)
      requires Coupled() && MayPassOn(Abs(), d)
      modifies this`free, this`tree, this`waiting, this`soft, this`current, this`ready, this`mode, this`looping,
               this`log, this`wait, this`val, ash
      ensures Coupled() && Abs() == FreeDevice(old(Abs()), d)
      ensures returned == (Get(old(ash.queues), Mut(d)) == [] || old(val)[Sync(d)] == 1)
    {
      var removed := RemoveHead(Mut(d));
      if removed.Some? {
        returned := StartIO(d, removed.value);
      } else {
        Vacate(d);
        SetVal(Mut(d), val[Mut(d)] + 1);
        returned := true;
      }
    }

    method Signal(d: Dev) returns (returned: bool)
      requires Coupled() && Sane(Abs())
      modifies this`free, this`tree, this`waiting, this`soft, this`current, this`ready, this`mode, this`looping,
               this`log, this`wait, this`val, ash
      ensures Coupled() && Abs() == SignalDevice(old(Abs()), d) && returned == SignalReturns(old(Abs()), d)
    {
      SaneIsFit(Abs());
      OperateSane(Abs(), Sync(d), OpV);
      returned := Verhogen(Sync(d));
      if returned {
        SaneMayPassOn(Abs(), d);
        returned := PassOn(d);
      }
    }

    method HandleDeviceInt(d: Dev) returns (returned: bool)
      requires Coupled() && Sane(Abs())
      modifies this`free, this`tree, this`waiting, this`soft, this`current, this`ready, this`mode, this`looping,
               this`log, this`wait, this`val, ash
      ensures Coupled() && Abs() == DeviceInterrupt(old(Abs()), d) && returned == InterruptReturns(old(Abs()), d)
    {
      SignalReturnsExact(Abs(), d);
      if val[Sync(d)] != -1 {
        if d !in waiting {
          mode := Fault;
          return false;
        }
        EndIOSane(Abs(), d);
        FinishIO(d);
      }
      returned := Signal(d);
    }

    // ---- the clock

    method SysClockWait()
      requires Coupled() && Fit(Abs()) && Clock in val
      modifies this`free, this`tree, this`soft, this`current, this`ready, this`mode, this`looping, this`log,
               this`wait, this`val, ash
      ensures Coupled() && Abs() == ClockWait(old(Abs()))
    {
      IncSoft();
      var _ := Passeren(Clock);
    }

    /** One turn of the loop in handleSysTimer: the call of removeBlocked, and the body if it found someone. */
    method WakeNext() returns (woke: bool)
      requires Coupled()
      modifies this`soft, this`ready, this`wait, ash
      ensures Coupled()
      ensures woke ==> Get(old(ash.queues), Clock) != [] && Abs() == WakeOne(old(Abs()))
      ensures !woke ==> Get(old(ash.queues), Clock) == [] && Abs() == old(Abs())
    {
      var removed := RemoveHead(Clock);
      if removed.None? {
        return false;
      }
      DecSoft();
      MakeReady(removed.value);
      return true;
    }

    method HandleSysTimer()
      requires Coupled()
      modifies this`soft, this`ready, this`wait, this`val, ash
      ensures Coupled() && Abs() == Tick(old(Abs()))
    {
      ghost var s := Abs();
      var woke := WakeNext();
      WokenShorter(s);
      while woke
        invariant Coupled()
        invariant if woke then WakeAll(Abs()) == WakeAll(s) else Abs() == WakeAll(s)
        decreases |Get(ash.queues, Clock)|, woke
      {
        WokenShorter(Abs());
        woke := WakeNext();
      }
      SetVal(Clock, 0);
    }

    method HandleLocalTimer()
      requires current.Some?
      modifies this`current, this`ready, this`mode, this`looping, this`log
      ensures Abs() == Timeslice(old(Abs()))
    {
      Save(current.value);
      MakeReady(current.value);
      Drop();
      Scheduler();
    }

    // ---- process creation

    /** insertChild: p leaves whichever child list it is on and becomes the last child of q. */
    method InsertChild(q: Pid, p: Pid)
      modifies this`parent, this`children
      ensures parent == old(parent)[p := q]
      ensures forall x ::
        ChildrenOf(children, x) == Minus(ChildrenOf(old(children), x), {p}) + if x == q then [p] else []
    {
      parent := parent[p := q];
      children := map x | x in children :: Minus(children[x], {p});
      children := children[q := ChildrenOf(children, q) + [p]];
    }

    /** The counters and lists of sysCreateProcess: the head of the free list becomes a ready process. */
    method Admit(ghost f: Forest) returns (p: Pid)
      requires free != []
      modifies this`free, this`count, this`ready, this`tree, this`looping
      ensures p == old(free)[0] && tree == f && Abs() == Grown(old(Abs()), f)
    {
      p := free[0];
      free := free[1..];
      count := count + 1;
      ready := ready + [p];
      tree := f;
      looping := looping - {p};
    }

    /** The memset in allocPcb, for the links and the namespace of a process that is not in the tree f. */
    method Reset(p: Pid, ghost f: Forest)
      requires Linked(f, None, parent, children) && Barren(f, children) && p !in Members(f)
      modifies this`parent, this`children, this`ns
      ensures Linked(f, None, parent, children) && Barren(f, children)
      ensures parent == old(parent) - {p} && ChildrenOf(children, p) == [] && p !in ns
      ensures forall x :: x != p ==> NsOf(ns, x) == NsOf(old(ns), x)
    {
      ghost var parent0, children0 := parent, children;
      parent := parent - {p};
      children := children[p := []];
      ns := ns - {p};
      LinkedFrame(f, None, parent0, children0, parent, children);
    }

    /** insertChild for a fresh process. */
    method Attach(q: Pid, p: Pid, ghost f: Forest)
      requires Linked(f, None, parent, children) && Distinct(f) && q in Members(f) && p !in Members(f)
      requires Barren(f, children)
      modifies this`parent, this`children
      ensures Linked(AddChild(f, q, p), None, parent, children) && Barren(AddChild(f, q, p), children)
      ensures parent == old(parent)[p := q]
    {
      ghost var parent0, children0 := parent, children;
      InsertChild(q, p);
      NotListed(f, parent0, children0, p);
      LinkedAddChild(f, None, parent0, children0, parent, children, q, p);
    }

    /** addNamespace: p and all its descendants get the namespace n. */
    method AddNamespace(p: Pid, n: int, ghost kids: Forest)
      requires ChildrenOf(children, p) == Roots(kids) && Linked(kids, Some(p), parent, children)
      modifies this`ns
      ensures forall x :: NsOf(ns, x) == if x in Members(kids) + {p} then Some(n) else NsOf(old(ns), x)
      decreases Size(kids)
    {
      ns := ns[p := n];
      var l := ChildrenOf(children, p);
      ghost var rest, done: set<Pid> := kids, {p};
      while l != []
        invariant Roots(rest) == l && Linked(rest, Some(p), parent, children) && Size(rest) <= Size(kids)
        invariant done + Members(rest) == Members(kids) + {p}
        invariant forall x :: NsOf(ns, x) == if x in done then Some(n) else NsOf(old(ns), x)
        decreases |l|
      {
        AddNamespace(l[0], n, rest.kids);
        done := done + {rest.pid} + Members(rest.kids);
        rest := rest.rest;
        l := l[1..];
      }
    }

    /** The namespace of a new process: the one it is given, or its parent's. */
    method Inherit(q: Pid, p: Pid, given: Option<int>)
      requires p !in ns && ChildrenOf(children, p) == []
      modifies this`ns
      ensures NsOf(ns, p) == if given.Some? then given else NsOf(old(ns), q)
      ensures forall x :: x != p ==> NsOf(ns, x) == NsOf(old(ns), x)
    {
      if given.Some? {
        AddNamespace(p, given.value, Nil);
      } else if q in ns {
        ns := ns[p := ns[q]];
      }
    }

    /** sysCreateProcess with a PCB to give. */
    method NewProcess(q: Pid, given: Option<int>) returns (p: Pid)
      requires Tied() && free != [] && q in Members(tree) && free[0] !in Members(tree) && Distinct(tree)
      modifies this`free, this`count, this`ready, this`tree, this`looping, this`parent, this`children, this`ns
      ensures Tied() && Abs() == Grown(old(Abs()), AddChild(old(tree), q, p))
      ensures p == old(free)[0] && parent == old(parent)[p := q]
      ensures NsOf(ns, p) == if given.Some? then given else NsOf(old(ns), q)
      ensures forall x :: x != p ==> NsOf(ns, x) == NsOf(old(ns), x)
    {
      ghost var f := tree;
      Reparent(parent, free[0], q);
      p := Admit(AddChild(tree, q, free[0]));
      Reset(p, f);
      Inherit(q, p, given);
      Attach(q, p, f);
    }

    /** sysCreateProcess. */
    method CreateProcess(given: Option<int>) returns (r: Option<Pid>)
      requires Sane(Abs()) && Tied() && mode.Running? && current.Some?
      modifies this`free, this`count, this`ready, this`tree, this`looping, this`parent, this`children, this`ns
      ensures Tied() && Abs() == Create(old(Abs()))
      ensures r == if old(free) == [] then None else Some(old(free)[0])
      ensures parent == if r.Some? then old(parent)[r.value := current.value] else old(parent)
      ensures r.Some? ==> NsOf(ns, r.value) == if given.Some? then given else NsOf(old(ns), current.value)
      ensures forall x :: Some(x) != r ==> NsOf(ns, x) == NsOf(old(ns), x)
    {
      if free == [] {
        return None;
      }
      SaneCreate(Abs());
      var p := NewProcess(current.value, given);
      return Some(p);
    }

    // ---- process termination

    /** outChild: searches the child list of p_parent. */
    method OutChild(t: Pid) returns (r: Option<Pid>)
      modifies this`children
      ensures r.Some? <==> t in parent && t in ChildrenOf(old(children), parent[t])
      ensures r.Some? ==> r.value == t
      ensures forall q :: ChildrenOf(children, q) == ChildrenOf(Detached(parent, old(children), t), q)
    {
      if t !in parent {
        return None;
      }
      var l := ChildrenOf(children, parent[t]);
      var n := 0;
      while n < |l| && l[n] != t
        invariant 0 <= n <= |l| && t !in l[..n]
      {
        n := n + 1;
      }
      if n < |l| {
        children := children[parent[t] := Minus(l, {t})];
        return Some(t);
      }
      assert l[..n] == l;
      MinusNothing(l, {t});
      return None;
    }

    /** removeChild: pops the first child. */
    method RemoveChild(p: Pid) returns (r: Option<Pid>)
      modifies this`children
      ensures r.None? ==> ChildrenOf(old(children), p) == [] && children == old(children)
      ensures r.Some? ==> var l := ChildrenOf(old(children), p);
        l != [] && r.value == l[0] && children == old(children)[p := l[1..]]
    {
      var l := ChildrenOf(children, p);
      if l == [] {
        return None;
      }
      children := children[p := l[1..]];
      return Some(l[0]);
    }

    /** outBlocked, as the machine sees it. */
    method TakeOut(p: Pid) returns (k: Sem)
      requires ash.Valid() && p in ash.semAdd
      modifies ash
      ensures ash.Valid() && k == old(ash.semAdd)[p] && ash.at.Names(k)
      ensures ash.queues == Put(old(ash.queues), k, Minus(Get(old(ash.queues), k), {p}))
      ensures ash.semAdd == old(ash.semAdd) - {p}
    {
      k := ash.semAdd[p];
      ash.WaitersNamed(p);
      var _ := ash.OutBlocked(p);
    }

    method Leave(p: Pid) returns (k: Sem)
      requires Coupled() && p in wait
      modifies this`wait, ash
      ensures Coupled() && k == old(wait)[p].on && ash.at.Names(k)
      ensures Abs() == Removed(old(Abs()), k, p)
    {
      k := TakeOut(p);
      wait := wait - {p};
    }

    /** The first half of terminateProcess. */
    method UnblockProcess(p: Pid)
      requires Coupled()
      modifies this`wait, this`soft, this`val, ash
      ensures Coupled() && Abs() == Unblock(old(Abs()), p)
    {
      if p in ash.semAdd {
        var k := Leave(p);
        var addr := ash.at.Addr(k);
        DeviceSemaphores(ash.at, k);
        if ash.at.IsDeviceSemaphore(addr) {
          var semnum := ash.at.ResolveSemAddr(addr) as Dev;
          if semnum in waiting && waiting[semnum] == p {
            DecSoft();
            SetVal(Sync(semnum), -1);
          }
        }
      }
    }

    /** The second half: freePcb takes p off the ready queue if it is there. */
    method RecycleProcess(p: Pid)
      modifies this`count, this`ready, this`free, this`log
      ensures Abs() == Recycle(old(Abs()), p)
    {
      count := count - 1;
      ready := Minus(ready, {p});
      free := [p] + Minus(free, {p});
      log := log + [Freed(p)];
    }

    /** terminateProcess: `kids` are the children of p. */
    method TerminateProcess(p: Pid, ghost kids: Forest)
      requires Coupled() && Distinct(Cons(p, kids, Nil))
      requires ChildrenOf(children, p) == Roots(kids) && Linked(kids, Some(p), parent, children)
      modifies this`wait, this`soft, this`val, this`count, this`ready, this`free, this`log, this`children, ash
      ensures Coupled() && Abs() == Kill(old(Abs()), Cons(p, kids, Nil))
      ensures forall q ::
        ChildrenOf(children, q) == if q in Members(kids) + {p} then [] else ChildrenOf(old(children), q)
      decreases Size(kids), 4
    {
      KillOne(Abs(), p, kids);
      UnblockProcess(p);
      TerminateRest(p, kids);
    }

    method TerminateRest(p: Pid, ghost kids: Forest)
      requires Coupled() && Distinct(kids) && p !in Members(kids)
      requires ChildrenOf(children, p) == Roots(kids) && Linked(kids, Some(p), parent, children)
      modifies this`wait, this`soft, this`val, this`count, this`ready, this`free, this`log, this`children, ash
      ensures Coupled() && Abs() == Recycle(Kill(old(Abs()), kids), p)
      ensures forall q ::
        ChildrenOf(children, q) == if q in Members(kids) + {p} then [] else ChildrenOf(old(children), q)
      decreases Size(kids), 3
    {
      TerminateChildren(p, kids);
      RecycleProcess(p);
    }

    /** The loop of terminateProcess. */
    method TerminateChildren(p: Pid, ghost kids: Forest)
      requires Coupled() && Distinct(kids) && p !in Members(kids)
      requires ChildrenOf(children, p) == Roots(kids) && Linked(kids, Some(p), parent, children)
      modifies this`wait, this`soft, this`val, this`count, this`ready, this`free, this`log, this`children, ash
      ensures Coupled() && Abs() == Kill(old(Abs()), kids)
      ensures forall q ::
        ChildrenOf(children, q) == if q in Members(kids) + {p} then [] else ChildrenOf(old(children), q)
      decreases Size(kids), 2
    {
      ghost var s, rest, children0 := Abs(), kids, children;
      var child := NextChild(p, rest);
      while child.Some?
        invariant Coupled() && AtChild(p, child, rest) && Emptied(p, rest, kids, children0)
        invariant Kill(Abs(), rest) == Kill(s, kids)
        decreases Size(rest)
      {
        KillFirst(Abs(), rest);
        child := OneTurn(child.value, p, rest, kids, children0);
        rest := rest.rest;
      }
      AllEmptied(p, rest, kids, children0, children);
    }

    /** The children of p are dealt with up to `rest`, and only their lists have changed. */
    ghost predicate Emptied(p: Pid, rest: Forest, kids: Forest, children0: Children)
      reads this`children
    {
      && Members(rest) <= Members(kids) && Size(rest) <= Size(kids)
      && Cleared(children0, children, Members(kids) - Members(rest), p)
    }

    method OneTurn(c: Pid, p: Pid, ghost rest: Forest, ghost kids: Forest, ghost children0: Children)
      returns (child: Option<Pid>)
      requires Coupled() && AtChild(p, Some(c), rest) && Emptied(p, rest, kids, children0)
      modifies this`wait, this`soft, this`val, this`count, this`ready, this`free, this`log, this`children, ash
      ensures Coupled() && AtChild(p, child, rest.rest) && Emptied(p, rest.rest, kids, children0)
      ensures Abs() == Kill(old(Abs()), Cons(rest.pid, rest.kids, Nil))
      decreases Size(rest), 1
    {
      ghost var children1 := children;
      child := TerminateFirst(c, p, rest);
      FirstGone(rest, kids);
      ClearMore(children0, children1, children, Members(kids) - Members(rest), Members(rest.kids) + {c}, p);
    }

    /** `child` has just been removed from the child list of p, whose children were the roots of `rest`. */
    ghost predicate AtChild(p: Pid, child: Option<Pid>, rest: Forest)
      reads this`parent, this`children
    {
      && (child.Some? <==> rest.Cons?)
      && ChildrenOf(children, p) == (if rest.Cons? then Roots(rest.rest) else [])
      && (child.Some? ==> rest.pid == child.value)
      && Linked(rest, Some(p), parent, children) && Distinct(rest) && p !in Members(rest)
    }

    /** removeChild on a parent whose remaining children are the roots of `rest`. */
    method NextChild(p: Pid, ghost rest: Forest) returns (child: Option<Pid>)
      requires ChildrenOf(children, p) == Roots(rest) && Linked(rest, Some(p), parent, children)
      requires Distinct(rest) && p !in Members(rest)
      modifies this`children
      ensures AtChild(p, child, rest)
      ensures forall q :: q != p ==> ChildrenOf(children, q) == ChildrenOf(old(children), q)
    {
      ghost var children0 := children;
      child := RemoveChild(p);
      LinkedFrame(rest, Some(p), parent, children0, parent, children);
    }

    /** One turn of the loop: the subtree of the child just removed, and the next child. */
    method TerminateFirst(c: Pid, p: Pid, ghost f: Forest) returns (child: Option<Pid>)
      requires Coupled() && AtChild(p, Some(c), f)
      modifies this`wait, this`soft, this`val, this`count, this`ready, this`free, this`log, this`children, ash
      ensures Coupled() && AtChild(p, child, f.rest) && Abs() == Kill(old(Abs()), Cons(f.pid, f.kids, Nil))
      ensures Cleared(old(children), children, Members(f.kids) + {c}, p)
      decreases Size(f), 0
    {
      ghost var children0 := children;
      TerminateProcess(c, f.kids);
      LinkedFrame(f.rest, Some(p), parent, children0, parent, children);
      child := NextChild(p, f.rest);
    }

    /** The kernel cuts t's subtree out of the tree; nobody resumes. */
    method Detach(t: Pid)
      requires Tied() && Distinct(tree)
      modifies this`tree, this`mode, this`children
      ensures Linked(tree, None, parent, children) && Barren(old(tree), children)
      ensures Abs() == WithTree(WithMode(old(Abs()), Idle), Prune(old(tree), t))
      ensures var f := KidsOf(old(tree), t); ChildrenOf(children, t) == Roots(f) && Linked(f, Some(t), parent, children)
    {
      ghost var f, children0 := tree, children;
      DetachLinks(f, parent, children0, t);
      var _ := OutChild(t);
      tree := Prune(f, t);
      mode := Idle;
      SameLists(f, t, parent, Detached(parent, children0, t), children);
    }

    /** outChild and terminateProcess in sysTerminateProcess. */
    method Cut(t: Pid)
      requires Coupled() && Tied() && Distinct(tree) && Distinct(Subtree(tree, t))
      requires Members(Prune(tree, t)) == Members(tree) - Members(Subtree(tree, t))
      modifies this`wait, this`soft, this`val, this`count, this`ready, this`free, this`log, this`children, this`tree,
               this`mode, ash
      ensures Coupled() && Tied() && Abs() == Killed(old(Abs()), t)
    {
      ghost var f := tree;
      Detach(t);
      ghost var children0 := children;
      TerminateProcess(t, KidsOf(f, t));
      StillTied(f, t, parent, children0, children);
    }

    /** sysTerminateProcess; a NULL pid stands for the caller, any other may be that of a process that has ended. */
    method SysTerminate(pid: Option<Pid>)
      requires Coupled() && Sane(Abs()) && Tied() && mode.Running? && current.Some?
      modifies this`wait, this`soft, this`val, this`count, this`ready, this`free, this`log, this`children, this`tree,
               this`mode, this`current, ash
      ensures Coupled() && Tied()
      ensures Abs() == Terminate(old(Abs()), if pid.Some? then pid.value else old(current).value)
    {
      var t := if pid.Some? then pid.value else current.value;
      SaneTerminate(Abs(), t);
      Cut(t);
      Scheduler();
    }

    /** sysGetChildren. */
    method GetChildren(buf: array<Pid>, size: int) returns (count: int)
      requires Tied() && Distinct(tree) && current.Some? && current.value in Members(tree) && size <= buf.Length
      modifies buf
      ensures var v := Visible(KidsOf(tree, current.value), ns, NsOf(ns, current.value)); var m := Fitting(size, |v|);
        && count == |v| && m <= buf.Length && buf[..] == v[..m] + old(buf[..])[m..]
        && ParentsFirst(KidsOf(tree, current.value), buf[..m])
    {
      LinkedKids(tree, None, parent, children, current.value);
      DistinctSubtree(tree, current.value);
      count := SysGetChildren(children, parent, ns, buf, size, current.value, KidsOf(tree, current.value));
    }

    // ---- the handlers together

    /** The cases of syscallHandler that may block the caller. */
    method BlockingCall(st: Step)
      requires Coupled() && Sane(Abs()) && Enabled(Abs(), st) && (st.SP? || st.SV? || st.SDoIO? || st.SClockWait?)
      modifies this`free, this`tree, this`waiting, this`soft, this`current, this`ready, this`mode, this`looping,
               this`log, this`wait, this`val, ash
      ensures Coupled() && Abs() == Next(old(Abs()), st)
    {
      SaneIsFit(Abs());
      match st
      case SP(k) => var _ := Passeren(k);
      case SV(k) => var _ := Verhogen(k);
      case SDoIO(a) => SysDoIO(a);
      case SClockWait => SysClockWait();
    }

    /** The cases that change the process tree. `given` is the namespace argument of a CREATEPROCESS. */
    method FamilyCall(st: Step, given: Option<int>)
      requires Coupled() && Tied() && Sane(Abs()) && Enabled(Abs(), st) && (st.SCreate? || st.STerminate?)
      modifies this, ash
      ensures Coupled() && Tied() && Abs() == Next(old(Abs()), st)
      ensures parent == ParentsAfter(old(Abs()), st, old(parent)) && NewNames(old(Abs()), st, given, old(ns), ns)
    {
      match st
      case SCreate => var _ := CreateProcess(given);
      case STerminate(t) => SysTerminate(Some(t));
    }

    /** What else enters the kernel: the interrupts, and the idle loop looking at the ready queue again. */
    method Interrupt(st: Step) returns (returned: bool)
      requires Coupled() && Sane(Abs()) && Enabled(Abs(), st)
      requires st.STimeslice? || st.STick? || st.SDevice? || st.SResume?
      modifies this`free, this`tree, this`waiting, this`soft, this`current, this`ready, this`mode, this`looping,
               this`log, this`wait, this`val, ash
      ensures Coupled() && Abs() == Next(old(Abs()), st) && returned == ComesBack(old(Abs()), st)
    {
      returned := st.STick?;
      match st
      case STimeslice => HandleLocalTimer();
      case STick => HandleSysTimer();
      case SDevice(d) => returned := HandleDeviceInt(d);
      case SResume => Scheduler();
    }

    method Enter(st: Step) returns (returned: bool)
      requires Coupled() && Sane(Abs()) && Enabled(Abs(), st) && !st.SCreate? && !st.STerminate?
      modifies this`free, this`tree, this`waiting, this`soft, this`current, this`ready, this`mode, this`looping,
               this`log, this`wait, this`val, ash
      ensures Coupled() && Abs() == Next(old(Abs()), st) && returned == ComesBack(old(Abs()), st)
    {
      if st.SP? || st.SV? || st.SDoIO? || st.SClockWait? {
        BlockingCall(st);
        return false;
      }
      returned := Interrupt(st);
    }

    /** The entries that leave the pointers of the tree alone; a PCB they revive becomes one more root. */
    method OtherEntry(st: Step) returns (returned: bool)
      requires Coupled() && Tied() && Sane(Abs()) && Enabled(Abs(), st) && !st.SCreate? && !st.STerminate?
      modifies this`free, this`tree, this`waiting, this`soft, this`current, this`ready, this`mode, this`looping,
               this`log, this`wait, this`val, ash
      ensures Coupled() && Tied() && Abs() == Next(old(Abs()), st) && returned == ComesBack(old(Abs()), st)
    {
      ghost var t := StepTied(Abs(), st, parent, children);
      returned := Enter(st);
      assert tree == t.tree;
    }

    /** One handler called by interruptHandler. */
    method Serve(st: Step) returns (returned: bool)
      requires Coupled() && Tied() && Sane(Abs()) && Enabled(Abs(), st)
      requires st.STimeslice? || st.STick? || st.SDevice?
      modifies this`free, this`tree, this`waiting, this`soft, this`current, this`ready, this`mode, this`looping,
               this`log, this`wait, this`val, ash
      ensures Coupled() && Tied() && Sane(Abs())
      ensures Abs() == Next(old(Abs()), st) && returned == ComesBack(old(Abs()), st)
    {
      NextSane(Abs(), st);
      returned := OtherEntry(st);
    }

    /** The handler of a line; if findDevRegAddr has found no device there is nothing to do. */
    method ServeLine(e: Option<Step>) returns (returned: bool)
      requires Coupled() && Tied() && Sane(Abs()) && Goes(Abs(), e)
      requires e.Some? ==> e.value.STimeslice? || e.value.STick? || e.value.SDevice?
      modifies this`free, this`tree, this`waiting, this`soft, this`current, this`ready, this`mode, this`looping,
               this`log, this`wait, this`val, ash
      ensures Coupled() && Tied() && Sane(Abs())
      ensures Abs() == NextBy(old(Abs()), e) && returned == BackFrom(old(Abs()), e)
    {
      if e.None? {
        return true;
      }
      returned := Serve(e.value);
    }

    /** The chain of tests in interruptHandler. */
    method ServeFirst(cause: Word, dev: map<Line, Dev>) returns (line: Line, returned: bool)
      requires Coupled() && Tied() && Sane(Abs()) && Takes(Abs(), cause) && cause * Mask() != {}
      modifies this`free, this`tree, this`waiting, this`soft, this`current, this`ready, this`mode, this`looping,
               this`log, this`wait, this`val, ash
      ensures Coupled() && Tied() && Sane(Abs())
      ensures First(old(Abs()), cause, line) && Goes(old(Abs()), Entry(line, dev))
      ensures Abs() == NextBy(old(Abs()), Entry(line, dev)) && returned == BackFrom(old(Abs()), Entry(line, dev))
      ensures returned ==> Takes(Abs(), cause - {Bit(line)})
    {
      line := MostUrgent(cause);
      FirstEntry(Abs(), cause, line, dev);
      var e := Entry(line, dev);
      returned := ServeLine(e);
    }

    /** interruptHandler. Each call serves the most urgent line pending in the saved cause and clears its bit; if its
        handler comes back, the recursion goes on while a bit of the mask is set. `dev` holds the device that
        findDevRegAddr finds on a line, if it finds one. */
    method InterruptHandler(cause: Word, dev: map<Line, Dev>) returns (rest: Word, ghost steps: seq<Step>)
      requires Coupled() && Tied() && Sane(Abs()) && Takes(Abs(), cause)
      modifies this`free, this`tree, this`waiting, this`soft, this`current, this`ready, this`mode, this`looping,
               this`log, this`wait, this`val, ash
      ensures Coupled() && Tied() && Sane(Abs())
      ensures Handled(old(Abs()), cause, dev, Abs(), rest, steps) && LowestFirst(cause, dev, steps, rest)
      decreases |PendingOf(cause, Priority())|
    {
      ghost var s := Abs();
      if cause * Mask() == {} {
        HandledNothing(s, cause, dev);
        return cause, [];
      }
      var line, returned := ServeFirst(cause, dev);
      rest := cause - {Bit(line)};
      if returned && rest * Mask() != {} {
        ghost var more;
        rest, more := InterruptHandler(rest, dev);
        HandledMore(s, cause, line, dev, Abs(), rest, more);
        return rest, Made(Entry(line, dev)) + more;
      }
      HandledLast(s, cause, line, dev);
      return rest, Made(Entry(line, dev));
    }

    /** The other entries name nobody and give nobody a parent. */
    method NamelessEntry(st: Step, ghost given: Option<int>)
      requires Coupled() && Tied() && Sane(Abs()) && Enabled(Abs(), st) && !st.SCreate? && !st.STerminate?
      modifies this`free, this`tree, this`waiting, this`soft, this`current, this`ready, this`mode, this`looping,
               this`log, this`wait, this`val, ash
      ensures Coupled() && Tied() && Abs() == Next(old(Abs()), st)
      ensures parent == ParentsAfter(old(Abs()), st, old(parent)) && NewNames(old(Abs()), st, given, old(ns), ns)
    {
      NobodyNew(Abs(), st, given, parent, ns);
      var _ := OtherEntry(st);
    }

    method Route(st: Step, given: Option<int>)
      requires Coupled() && Tied() && Sane(Abs()) && Enabled(Abs(), st)
      modifies this, ash
      ensures Coupled() && Tied() && Abs() == Next(old(Abs()), st)
      ensures parent == ParentsAfter(old(Abs()), st, old(parent)) && NewNames(old(Abs()), st, given, old(ns), ns)
    {
      if st.SCreate? || st.STerminate? {
        FamilyCall(st, given);
      } else {
        NamelessEntry(st, given);
      }
    }

    /** One kernel entry: the object takes the step of the machine, and is ready for the next one. One tree under the
        first process stays one, unless a freed PCB is revived. */
    method Handle(st: Step, given: Option<int>)
      requires Coupled() && Tied() && Sane(Abs()) && Enabled(Abs(), st)
      modifies this, ash
      ensures Coupled() && Tied() && Sane(Abs()) && Abs() == Next(old(Abs()), st)
      ensures old(Crowned(tree, parent)) && !Revives(old(Abs()), st) ==> Crowned(tree, parent)
      ensures NewNames(old(Abs()), st, given, old(ns), ns)
    {
      NextSane(Abs(), st);
      StepCrowned(Abs(), st, parent);
      Route(st, given);
    }

    static method Assemble(layout: Layout, v: map<Sem, int>) returns (k: Nucleus)
      requires layout.Valid() && Named(layout, v)
      ensures fresh(k) && fresh(k.ash) && k.Coupled() && k.Tied() && Crowned(k.tree, k.parent)
      ensures k.Abs() == Machine.Launch(InitialPool(), v) && forall x :: NsOf(k.ns, x) == None
    {
      k := new Nucleus(layout, v);
      k.Launch();
    }

    /** main up to the first call of scheduler(). */
    static method BootUp(layout: Layout, words: map<u32, int>) returns (k: Nucleus)
      requires layout.Valid() && Named(layout, BootVals(words))
      ensures fresh(k) && fresh(k.ash) && k.Coupled() && k.Tied() && Crowned(k.tree, k.parent)
      ensures k.Abs() == Boot(words) && forall x :: NsOf(k.ns, x) == None
    {
      var v := InitWords(UserVals(words));
      InitialisedBoot(words, v);
      k := Assemble(layout, v);
    }

    /** A sequence of kernel entries that is a run of the machine. `given` holds the namespace argument of each. */
    method Follow(steps: seq<Step>, given: seq<Option<int>>)
      requires Coupled() && Tied() && Sane(Abs()) && IsRun(Abs(), steps) && |given| == |steps|
      modifies this, ash
      ensures Coupled() && Tied() && Sane(Abs()) && Abs() == After(old(Abs()), steps)
      ensures old(Crowned(tree, parent)) && Revivals(old(Abs()), steps) == 0 ==> Crowned(tree, parent)
      ensures forall p :: NsOf(ns, p) == NameAt(old(ns), Trail(old(Abs()), steps), steps, given, |steps|, p)
    {
      ghost var trail, ns0 := Trail(Abs(), steps), ns;
      ghost var b, crowned := Abs(), Crowned(tree, parent) && Revivals(Abs(), steps) == 0;
      var i := 0;
      while i < |steps|
        invariant 0 <= i <= |steps| && Coupled() && Tied() && Sane(Abs())
        invariant OnTheWay(b, steps, i, Abs()) && (crowned ==> Crowned(tree, parent))
        invariant forall p :: NsOf(ns, p) == NameAt(ns0, trail, steps, given, i, p)
      {
        TakeStep(b, steps, i, Abs());
        ghost var ns1 := ns;
        Handle(steps[i], given[i]);
        NamedOn(ns0, trail, steps, given, i, ns1, ns);
        i := i + 1;
      }
      Arrived(b, steps, Abs());
    }

    /** The kernel from boot on, through any run of the machine: its fields stand for the state the run ends in, and as
        long as no freed PCB has been revived its pointers form one tree under the first process. */
    static method Run(layout: Layout, words: map<u32, int>, steps: seq<Step>, given: seq<Option<int>>)
      returns (k: Nucleus)
      requires layout.Valid() && Named(layout, BootVals(words)) && IsRun(Boot(words), steps) && |given| == |steps|
      ensures fresh(k) && k.Coupled() && k.Tied() && k.Abs() == After(Boot(words), steps)
      ensures Revivals(Boot(words), steps) == 0 && k.tree.Cons? ==>
        FormOneTree(k.tree, k.parent, k.children) && k.tree.pid == 19 && 19 !in k.parent
      ensures forall p :: NsOf(k.ns, p) == NameAt(map[], Trail(Boot(words), steps), steps, given, |steps|, p)
    {
      k := BootUp(layout, words);
      BootSane(words);
      ghost var ns0 := k.ns;
      forall p ensures NameAt(ns0, Trail(Boot(words), steps), steps, given, |steps|, p)
                    == NameAt(map[], Trail(Boot(words), steps), steps, given, |steps|, p) {
        NullAtFirst(ns0, Trail(Boot(words), steps), steps, given, |steps|, p);
      }
      k.Follow(steps, given);
      if Revivals(Boot(words), steps) == 0 && k.tree.Cons? {
        OneTree(k.tree, k.parent, k.children);
      }
    }
  }

  lemma BootSane(words: map<u32, int>)
    ensures Sane(Boot(words))
  {
    BootInv(words);
  }

  /** s is where the run has got to after n steps. */
  ghost predicate OnTheWay(b: State, steps: seq<Step>, n: nat, s: State) {
    && n <= |steps| && IsRun(b, steps) && IsRun(s, steps[n..]) && After(s, steps[n..]) == After(b, steps)
    && Revivals(s, steps[n..]) <= Revivals(b, steps) && s == Trail(b, steps)[n]
  }

  lemma TakeStep(b: State, steps: seq<Step>, n: nat, s: State)
    requires OnTheWay(b, steps, n, s) && n < |steps|
    ensures Enabled(s, steps[n]) && OnTheWay(b, steps, n + 1, Next(s, steps[n]))
    ensures Revivals(b, steps) == 0 ==> !Revives(s, steps[n])
  {
    assert steps[n..][1..] == steps[n + 1..];
    TrailNext(b, steps, n);
  }

  lemma Arrived(b: State, steps: seq<Step>, s: State)
    requires OnTheWay(b, steps, |steps|, s)
    ensures s == After(b, steps)
  {
  }

  /** At most one tree, under the first process, which has no parent. */
  ghost predicate Crowned(f: Forest, parent: Parents) {
    Rooted(f) && (f.Cons? ==> f.pid !in parent)
  }

  /** p_parent after a step. */
  function ParentsAfter(s: State, st: Step, parent: Parents): Parents {
    if st.SCreate? && s.free != [] && s.cur.Some? then parent[s.free[0] := s.cur.value] else parent
  }

  lemma NobodyNew(s: State, st: Step, given: Option<int>, parent: Parents, ns: Namespaces)
    requires !st.SCreate?
    ensures parent == ParentsAfter(s, st, parent) && NewNames(s, st, given, ns, ns)
  {
    NamesKept(s, st, given, ns);
  }

  lemma StepCrowned(s: State, st: Step, parent: Parents)
    requires Sane(s) && Enabled(s, st)
    ensures Crowned(s.tree, parent) && !Revives(s, st) ==> Crowned(Next(s, st).tree, ParentsAfter(s, st, parent))
  {
    if Crowned(s.tree, parent) && !Revives(s, st) {
      if st.STerminate? {
        KilledTop(s, st.t);
      } else if st.SCreate? {
        CreatedTop(s);
      } else {
        NextSane(s, st);
        NextTree(s, st);
        SameTop(s, Next(s, st));
      }
    }
  }

  lemma KilledTop(s: State, t: Pid)
    requires Sane(s) && Rooted(s.tree)
    ensures var f := Terminate(s, t).tree; Rooted(f) && (f.Cons? ==> s.tree.Cons? && f.pid == s.tree.pid)
  {
    KilledEffect(s, t);
    ScheduleFrame(Killed(s, t));
    RootedPrune(s.tree, t);
  }

  lemma CreatedTop(s: State)
    requires Sane(s) && s.mode.Running? && Rooted(s.tree)
    ensures s.tree.Cons? && Rooted(Create(s).tree) && Create(s).tree.pid == s.tree.pid
    ensures s.free != [] ==> s.free[0] != s.tree.pid
  {
    assert s.cur.value in OnCpu(s);
    HeadIsMember(s.free);
    if s.free != [] {
      AddedChild(s.tree, s.cur.value, s.free[0]);
    }
  }

  lemma StepTied(s: State, st: Step, parent: Parents, children: Children) returns (t: State)
    requires Sane(s) && Enabled(s, st) && !st.SCreate? && !st.STerminate?
    requires Linked(s.tree, None, parent, children) && Barren(s.tree, children)
    ensures t == Next(s, st) && Linked(t.tree, None, parent, children) && Barren(t.tree, children)
  {
    t := Next(s, st);
    NextTree(s, st);
    if HoldsFreed(s) {
      LinkedSnoc(s.tree, None, parent, children, s.cur.value);
    }
  }

  lemma SaneTerminate(s: State, t: Pid)
    requires Sane(s)
    ensures Distinct(s.tree) && Distinct(Subtree(s.tree, t))
    ensures Members(Prune(s.tree, t)) == Members(s.tree) - Members(Subtree(s.tree, t))
  {
    DistinctSubtree(s.tree, t);
    PruneMembers(s.tree, t);
  }

  /** After outChild(t): the rest of the tree and the subtree of t are both linked. */
  lemma DetachLinks(f: Forest, parent: Parents, children: Children, t: Pid)
    requires Linked(f, None, parent, children) && Barren(f, children) && Distinct(f)
    ensures var c := Detached(parent, children, t);
      && Linked(Prune(f, t), None, parent, c)
      && ChildrenOf(c, t) == Roots(KidsOf(f, t)) && Linked(KidsOf(f, t), Some(t), parent, c)
  {
    if t in Members(f) {
      LinkedPrune(f, None, parent, children, t);
      LinkedKids(f, None, parent, children, t);
      DistinctSubtree(f, t);
      Outside(KidsOf(f, t), Some(t), parent, children, t);
      DetachedSame(parent, children, t, t);
      DetachedFrame(KidsOf(f, t), Some(t), parent, children, t);
    } else {
      PruneAbsent(f, t);
      Outside(f, None, parent, children, t);
      DetachedFrame(f, None, parent, children, t);
      DetachedSame(parent, children, t, t);
    }
  }

  lemma SameLists(f: Forest, t: Pid, parent: Parents, c: Children, c': Children)
    requires Linked(Prune(f, t), None, parent, c)
    requires ChildrenOf(c, t) == Roots(KidsOf(f, t)) && Linked(KidsOf(f, t), Some(t), parent, c)
    requires forall q :: ChildrenOf(c', q) == ChildrenOf(c, q)
    ensures Linked(Prune(f, t), None, parent, c')
    ensures ChildrenOf(c', t) == Roots(KidsOf(f, t)) && Linked(KidsOf(f, t), Some(t), parent, c')
  {
    LinkedFrame(Prune(f, t), None, parent, c, parent, c');
    LinkedFrame(KidsOf(f, t), Some(t), parent, c, parent, c');
  }

  lemma SavedUnlisted(s: State, c: Pid)
    ensures Unlisted(Saved(s, c), c) == Saved(Unlisted(s, c), c)
  {
  }

  /** A PCB outside the tree is in no child list. */
  lemma NotListed(f: Forest, parent: Parents, children: Children, p: Pid)
    requires Linked(f, None, parent, children) && Barren(f, children) && p !in Members(f)
    ensures forall x :: Minus(ChildrenOf(children, x), {p}) == ChildrenOf(children, x)
  {
    Outside(f, None, parent, children, p);
    forall x ensures Minus(ChildrenOf(children, x), {p}) == ChildrenOf(children, x) {
      MinusNothing(ChildrenOf(children, x), {p});
    }
  }

  lemma SaneCreate(s: State)
    requires Sane(s) && s.mode.Running? && s.free != []
    ensures s.cur.Some? && s.cur.value in Members(s.tree) && s.free[0] !in Members(s.tree) && Distinct(s.tree)
  {
  }

  lemma StillTied(f: Forest, t: Pid, parent: Parents, children: Children, children': Children)
    requires Barren(f, children) && Linked(Prune(f, t), None, parent, children)
    requires Members(Prune(f, t)) == Members(f) - Members(Subtree(f, t))
    requires forall q ::
      ChildrenOf(children', q) == if q in Members(KidsOf(f, t)) + {t} then [] else ChildrenOf(children, q)
    ensures Linked(Prune(f, t), None, parent, children') && Barren(Prune(f, t), children')
  {
    LinkedFrame(Prune(f, t), None, parent, children, parent, children');
  }

  lemma KillOne(s: State, p: Pid, kids: Forest)
    ensures Kill(s, Cons(p, kids, Nil)) == Recycle(Kill(Unblock(s, p), kids), p)
  {
  }

  lemma KillFirst(s: State, f: Forest)
    requires f.Cons?
    ensures Kill(s, f) == Kill(Kill(s, Cons(f.pid, f.kids, Nil)), f.rest)
  {
  }

  // ---- the handlers stay within what they rely on

  lemma IssueFits(s: State, d: Dev)
    requires Sane(s) && s.cur.Some?
    ensures Fit(s) && Fit(Start(Operate(s, Mut(d), OpP), d, s.cur.value))
    ensures Operate(s, Mut(d), OpP).val.Keys == s.val.Keys
  {
    SaneIsFit(s);
    OperateSane(s, Mut(d), OpP);
    SaneIsFit(Operate(s, Mut(d), OpP));
    OperateWords(s, Mut(d), OpP);
  }

  ghost predicate MayPassOn(s: State, d: Dev) {
    && Mut(d) in s.val && Sync(d) in s.val
    && (Get(s.queue, Mut(d)) != [] ==>
          var p := s.queue[Mut(d)][0]; Fit(Start(Removed(s, Mut(d), p), d, p)))
  }

  lemma SaneMayPassOn(s: State, d: Dev)
    requires Sane(s)
    ensures MayPassOn(s, d)
  {
  }

  lemma WokenShorter(s: State)
    ensures Get(s.queue, Clock) == [] ==> WakeAll(s) == s
    ensures Get(s.queue, Clock) != [] ==>
      WakeAll(s) == WakeAll(WakeOne(s)) && |Get(WakeOne(s).queue, Clock)| < |Get(s.queue, Clock)|
  {
  }

  predicate SignalReturns(s: State, d: Dev)
    requires Mut(d) in s.val && Sync(d) in s.val
  {
    && Returns(s, Sync(d), OpV)
    && var t := Operate(s, Sync(d), OpV); Get(t.queue, Mut(d)) == [] || (Sync(d) in t.val && t.val[Sync(d)] == 1)
  }

  lemma SignalReturnsExact(s: State, d: Dev)
    requires Sane(s)
    ensures Mut(d) in s.val && Sync(d) in s.val
    ensures d in s.waiting ==> SignalReturns(EndIO(s, d), d) == InterruptReturns(s, d)
    ensures s.val[Sync(d)] == -1 ==> !SignalReturns(s, d) && !InterruptReturns(s, d)
  {
  }

  lemma EndIOSane(s: State, d: Dev)
    requires Sane(s) && d in s.waiting
    ensures Sane(EndIO(s, d))
  {
  }

  lemma TailOf(q: Queues, semAdd: map<Pid, Sem>, k: Sem)
    requires Ash.Agree(q, semAdd)
    ensures Get(q, k) != [] ==> Minus(q[k], {q[k][0]}) == q[k][1..]
  {
    if Get(q, k) != [] {
      MinusHead(q[k]);
    }
  }

  lemma WaitsOnAdd(wait: map<Pid, Wait>, semAdd: map<Pid, Sem>, c: Pid, k: Sem, op: Op)
    requires WaitsOn(wait, semAdd)
    ensures WaitsOn(wait[c := Wait(k, op)], semAdd[c := k])
  {
  }

  /** v holds the user's words and those of the first n devices, the devices being idle. */
  ghost predicate Initialised(user: map<Sem, int>, v: map<Sem, int>, n: nat) {
    && (forall k :: k in v && !k.Clock? <==> k in user || (OfDevice(k) && k.d as int < n))
    && (forall k :: k in v && k.Mut? ==> v[k] == 1)
    && (forall k :: k in v && k.Sync? ==> v[k] == 0)
    && (forall k :: k in v && k.User? ==> v[k] == user[k])
  }

  /** These are the words the machine boots with. */
  lemma InitialisedBoot(words: map<u32, int>, v: map<Sem, int>)
    requires Initialised(UserVals(words), v, DEVICE_NUMBER) && Clock in v && v[Clock] == 1
    ensures v == BootVals(words)
  {
    MergedInit(UserVals(words), MutexVals(), SyncVals(), v);
  }

  lemma MergedInit(u: map<Sem, int>, m: map<Sem, int>, y: map<Sem, int>, v: map<Sem, int>)
    requires Initialised(u, v, DEVICE_NUMBER) && Clock in v && v[Clock] == 1
    requires forall k :: k in u ==> k.User?
    requires forall k :: k in m <==> k.Mut?
    requires forall k :: k in m ==> m[k] == 1
    requires forall k :: k in y <==> k.Sync?
    requires forall k :: k in y ==> y[k] == 0
    ensures v == u + m + y + map[Clock := 1]
  {
  }

  /** With p unblocked, insertBlocked has a descriptor, and takes p out of no other queue. */
  lemma NeverFails(ash: Ash.SemaphoreHash, k: Sem, p: Pid)
    requires ash.Valid() && NoneEmpty(ash.queues) && p !in ash.semAdd
    ensures ash.free != []
    ensures Ash.Inserted(ash.queues, k, p) == ash.queues[k := Get(ash.queues, k) + [p]]
  {
    Ash.PoolSuffices(ash.table, ash.free, ash.index, ash.owner, ash.semAdd, p);
    forall l | l in ash.queues ensures Minus(ash.queues[l], {p}) == ash.queues[l] {
      MinusNothing(ash.queues[l], {p});
    }
    assert Ash.Without(ash.queues, p) == ash.queues;
  }
}

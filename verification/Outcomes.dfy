/** When the machine stops, and what it was worth waiting for: HALT, PANIC, the clock tick, the soft-block count. */
module Outcomes {
  import opened Basics
  import opened Forests
  import opened Addresses
  import opened Machine
  import opened Invariants
  import opened Terminating
  import opened Guarded
  import opened Exactness
  import opened Runs

  /** Someone is alive, and everyone who is waits on a user semaphore: only a process could wake them. */
  ghost predicate Deadlocked(s: State) {
    && Members(s.tree) != {}
    && forall p :: p in Members(s.tree) ==> p in s.wait && s.wait[p].on.User?
  }

  /** No interrupt has anybody to wake. */
  ghost predicate NothingPending(s: State) {
    s.waiting == map[] && forall k :: k in s.queue ==> k.User?
  }

  lemma NoSoftWaiters(s: State)
    requires Sound(s) && Orderly(s) && SoftSet(s.wait) == {}
    ensures NothingPending(s)
  {
    forall p | p in s.wait ensures !Soft(s.wait[p].on) {
      assert p !in SoftSet(s.wait);
    }
    forall d: Dev ensures d !in s.waiting && Sync(d) !in s.queue && Mut(d) !in s.queue {
      DeviceFacts(s, d);
      assert DeviceInv(s.val, s.queue, s.waiting, d);
    }
    SoundFacts(s, Clock);
  }

  lemma StuckIsDeadlocked(s: State)
    requires Sound(s) && Orderly(s) && s.ready == [] && s.count > 0 && OnCpu(s) == {} && NothingPending(s)
    ensures Deadlocked(s)
  {
  }

  lemma DeadlockHasCount(s: State)
    requires Sound(s) && Deadlocked(s)
    ensures s.ready == [] && s.count > 0
  {
    HeadIsMember(s.ready);
    assert |Members(s.tree)| > 0;
  }

  lemma DeadlockHasNoSoftWaiters(s: State)
    requires Sound(s) && Deadlocked(s)
    ensures SoftSet(s.wait) == {} && s.ready == [] && s.count > 0
  {
    DeadlockHasCount(s);
    forall q ensures q !in SoftSet(s.wait) {
      assert q in s.wait ==> q in Members(s.tree);
    }
  }

  /** PANIC only on a real deadlock: every live process waits on a user semaphore, and no clock tick or device
      interrupt can wake one. HALT only when every PCB is free again. */
  lemma FinalModes(words: map<u32, int>, steps: seq<Step>)
    requires Binary(words) && IsGuardedRun(Boot(words), steps)
    ensures IsRun(Boot(words), steps)
    ensures var s := After(Boot(words), steps);
      && (s.mode.Panicked? ==> Deadlocked(s) && NothingPending(s))
      && (s.mode.Halted? ==> s.queue == map[] && s.ready == [] && forall p: Pid :: p in s.free)
      && !s.mode.Hung? && !s.mode.Fault?
  {
    BootInv(words);
    RunInv(Boot(words), steps);
    var s := After(Boot(words), steps);
    if s.mode.Panicked? {
      PanickedState(s);
    } else if s.mode.Halted? {
      HaltedState(s);
    }
  }

  lemma PanickedState(s: State)
    requires Inv(s) && s.mode.Panicked?
    ensures Deadlocked(s) && NothingPending(s)
  {
    assert |SoftSet(s.wait)| == 0;
    NoSoftWaiters(s);
    StuckIsDeadlocked(s);
  }

  lemma HaltedState(s: State)
    requires Inv(s) && s.mode.Halted?
    ensures s.queue == map[] && s.ready == [] && forall p: Pid :: p in s.free
  {
    assert Members(s.tree) == {};
    if k :| k in s.queue {
      SoundFacts(s, k);
      assert false;
    }
    HeadIsMember(s.ready);
  }

  /** The exact condition: the idle scheduler panics if and only if there is a deadlock and the soft-block count has
      no surplus. With a surplus it waits instead. */
  lemma PanicExact(s: State)
    requires Inv(s) && s.mode.Idle?
    ensures Schedule(s).mode.Panicked? <==> Deadlocked(s) && Slack(s) == 0
    ensures Deadlocked(s) && Slack(s) > 0 ==> Schedule(s) == WithMode(s, Idle)
  {
    if Deadlocked(s) {
      DeadlockHasNoSoftWaiters(s);
    }
    if Schedule(s).mode.Panicked? {
      assert SoftSet(s.wait) == {};
      NoSoftWaiters(s);
      StuckIsDeadlocked(s);
    }
  }

  /** A deadlock with a surplus is never reported: the machine stays idle and deadlocked for ever. */
  lemma {:induction false} SilentDeadlock(s: State, steps: seq<Step>)
    requires Inv(s) && s.mode.Idle? && Deadlocked(s) && Slack(s) > 0
    requires IsGuardedRun(s, steps)
    ensures IsRun(s, steps)
    ensures var t := After(s, steps); t.mode.Idle? && Deadlocked(t)
    decreases |steps|
  {
    GuardedIsRun(s, steps);
    if steps != [] {
      SilentStep(s, steps[0]);
      GuardExact(s, steps[0]);
      SilentDeadlock(Next(s, steps[0]), steps[1..]);
    }
  }

  lemma SilentStep(s: State, st: Step)
    requires Inv(s) && s.mode.Idle? && Deadlocked(s) && Slack(s) > 0 && Guard(s, st)
    ensures var t := Next(s, st); t.mode.Idle? && Deadlocked(t) && Slack(t) > 0
  {
    DeadlockHasNoSoftWaiters(s);
    NoSoftWaiters(s);
    SlackStep(s, st);
    if st.STick? {
      assert WakeAll(s) == s;
    } else {
      PanicExact(s);
    }
  }

  /** Terminating the first process ends every process and halts the machine, in every state. */
  lemma RootDies(s: State)
    requires Sound(s) && s.tree.Cons?
    ensures Terminate(s, s.tree.pid).mode == Halted
  {
    var t := s.tree.pid;
    assert Subtree(s.tree, t) == s.tree;
    KilledEffect(s, t);
    assert Killed(s, t).count == 0;
    HeadIsMember(Minus(s.ready, Members(s.tree)));
  }
}

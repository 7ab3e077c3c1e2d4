/** sysTerminateProcess frees the target's subtree and nothing else. */
module Terminating {
  import opened Basics
  import opened Forests
  import opened SemQueues
  import opened Machine
  import opened Invariants
  import opened Soundness
  import opened Killing
  import opened TreeOrder

  /** r is s after the processes in x died in the order of `dead`: they are at the front of the free list, they have
      left whichever queue held them, emptied semaphore descriptors are recycled, pending device operations are
      given up, and everything about the survivors is as before. */
  ghost predicate Reaped(s: State, x: set<Pid>, dead: seq<Pid>, tree: Forest, r: State) {
    && r.free == Reverse(dead) + Minus(s.free, x)
    && r.ready == Minus(s.ready, x)
    && r.queue == Purged(s.queue, x)
    && r.wait == s.wait - x
    && r.tree == tree
    && r.count == s.count - |x|
    && r.soft == s.soft - |AllInFlight(s.wait, s.waiting, x)|
    && r.val == AbortedVals(s.val, s.wait, s.waiting, x)
    && r.waiting == s.waiting && r.cur == s.cur && r.mode == Idle && r.looping == s.looping
    && r.log == s.log + Deaths(dead)
  }

  /** The whole effect of outChild and terminateProcess: the victims are the target's subtree, children first; or the
      target alone, if it has ended already. */
  lemma KilledEffect(s: State, t: Pid)
    requires Sane(s)
    ensures Reaped(s, Members(Subtree(s.tree, t)), Postorder(Subtree(s.tree, t)), Prune(s.tree, t), Killed(s, t))
    ensures Queued(Killed(s, t).queue, Killed(s, t).wait)
  {
    var a := WithTree(WithMode(s, Idle), Prune(s.tree, t));
    var f := Subtree(s.tree, t);
    DistinctSubtree(s.tree, t);
    KillFrame(a, f);
    KillFree(a, f);
    KillReady(a, f);
    KillCount(a, f);
    KillLog(a, f);
    KillQueues(a, f);
    KillSoft(a, f);
    KillVal(a, f);
  }

  /** Each victim dies once, after its descendants and after the families of its older siblings; the last to die is the
      first on the free list. */
  lemma KilledInOrder(s: State, t: Pid) returns (dead: seq<Pid>)
    requires Sane(s)
    ensures NoDup(dead) && forall p :: p in dead <==> p in Members(Subtree(s.tree, t))
    ensures ChildrenFirst(Subtree(s.tree, t), dead)
    ensures Killed(s, t).free == Reverse(dead) + Minus(s.free, Members(Subtree(s.tree, t)))
    ensures Killed(s, t).log == s.log + Deaths(dead)
  {
    dead := Postorder(Subtree(s.tree, t));
    DistinctSubtree(s.tree, t);
    NoDupPostorder(Subtree(s.tree, t));
    PostorderChildrenFirst(Subtree(s.tree, t));
    KilledEffect(s, t);
  }

  /** What a survivor q notices: its children are the same but for t, it waits where it waited, and its queue has only
      lost victims. */
  lemma SurvivorKeeps(s: State, t: Pid, q: Pid)
    requires Sane(s) && t in Members(s.tree) && q in Members(s.tree) && q !in Members(Subtree(s.tree, t))
    ensures var r, x := Killed(s, t), Members(Subtree(s.tree, t));
      && q in Members(r.tree) && Roots(KidsOf(r.tree, q)) == Minus(Roots(KidsOf(s.tree, q)), {t})
      && (q in r.ready <==> q in s.ready) && (q in r.wait <==> q in s.wait)
      && (q in s.wait ==> r.wait[q] == s.wait[q] && q in Get(r.queue, s.wait[q].on))
      && (q in s.wait ==> Get(r.queue, s.wait[q].on) == Minus(Get(s.queue, s.wait[q].on), x))
  {
    KilledEffect(s, t);
    PruneMembers(s.tree, t);
    PruneKeepsChildren(s.tree, t, q);
    if q in s.wait {
      PurgedGet(s.queue, Members(Subtree(s.tree, t)), s.wait[q].on);
    }
  }

  lemma CensusKill(free: seq<Pid>, live: set<Pid>, dead: seq<Pid>, x: set<Pid>)
    requires Census(free, live) && NoDup(dead) && forall p :: p in dead <==> p in x
    ensures Census(Reverse(dead) + Minus(free, x), live - x)
  {
    NoDupReverse(dead);
    NoDupMinus(free, x);
    NoDupConcat(Reverse(dead), Minus(free, x));
  }

  lemma ApartKill(ready: seq<Pid>, wait: map<Pid, Wait>, running: set<Pid>, live: set<Pid>, x: set<Pid>)
    requires Apart(ready, wait.Keys, running, live)
    ensures Apart(Minus(ready, x), (wait - x).Keys, {}, live - x)
  {
    NoDupMinus(ready, x);
  }

  lemma UnqueuedKill(cur: Option<Pid>, ready: seq<Pid>, wait: map<Pid, Wait>, x: set<Pid>)
    requires Unqueued(cur, ready, wait.Keys)
    ensures Unqueued(cur, Minus(ready, x), (wait - x).Keys)
  {
  }

  lemma TallyKill(tree: Forest, f: Forest, count: int, x: set<Pid>)
    requires Tally(tree, count) && x <= Members(tree) && Members(f) == Members(tree) - x
    requires Rooted(tree) ==> Rooted(f)
    ensures Tally(f, count - |x|) && |Members(f)| == |Members(tree)| - |x|
  {
  }

  lemma RootedPrune(f: Forest, t: Pid)
    requires Rooted(f)
    ensures Rooted(Prune(f, t))
  {
  }

  lemma ReapedWords(s: State, x: set<Pid>, dead: seq<Pid>, f: Forest, r: State)
    requires Sane(s) && Reaped(s, x, dead, f, r)
    ensures KernelWords(r) && r.queue.Keys <= r.val.Keys
  {
  }

  lemma ReapedApart(s: State, x: set<Pid>, dead: seq<Pid>, f: Forest, r: State)
    requires Sane(s) && Reaped(s, x, dead, f, r) && Members(f) == Members(s.tree) - x
    ensures Apart(r.ready, r.wait.Keys, OnCpu(r), Members(r.tree))
  {
    ApartKill(s.ready, s.wait, OnCpu(s), Members(s.tree), x);
  }

  /** What g_process_count has lost when t dies: nothing, or one if t is dead already. */
  function Overcharge(s: State, t: Pid): int {
    if t in s.free then 1 else 0
  }

  lemma ReapedTally(s: State, t: Pid)
    requires Sane(s)
    ensures var x, f := Members(Subtree(s.tree, t)), Prune(s.tree, t);
      Tally(f, s.count - |x|) && |Members(f)| - (s.count - |x|) == Excess(s) + Overcharge(s, t)
  {
    PruneMembers(s.tree, t);
    if t in Members(s.tree) {
      if Rooted(s.tree) {
        RootedPrune(s.tree, t);
      }
      TallyKill(s.tree, Prune(s.tree, t), s.count, Members(Subtree(s.tree, t)));
    } else {
      PruneAbsent(s.tree, t);
      assert Members(Subtree(s.tree, t)) == {t};
    }
  }

  lemma KilledSane(s: State, t: Pid)
    requires Sane(s)
    ensures Sane(Killed(s, t)) && Excess(Killed(s, t)) == Excess(s) + Overcharge(s, t)
  {
    var f, r := Subtree(s.tree, t), Killed(s, t);
    var x, dead := Members(f), Postorder(f);
    KilledEffect(s, t);
    PruneMembers(s.tree, t);
    DistinctSubtree(s.tree, t);
    NoDupPostorder(f);
    ReapedWords(s, x, dead, Prune(s.tree, t), r);
    CensusKill(s.free, Members(s.tree), dead, x);
    ReapedApart(s, x, dead, Prune(s.tree, t), r);
    UnqueuedKill(s.cur, s.ready, s.wait, x);
    ReapedTally(s, t);
  }

  lemma TerminateSane(s: State, t: Pid)
    requires Sane(s)
    ensures Sane(Terminate(s, t)) && Excess(Terminate(s, t)) == Excess(s) + Overcharge(s, t)
  {
    KilledSane(s, t);
    KilledEffect(s, t);
    ScheduleSane(Killed(s, t));
  }

  /** Every step there is keeps Sane, whatever the guards say, and g_process_count drifts with two kinds of steps only:
      those that revive a freed PCB, and those that free a PCB again. */
  lemma NextSane(s: State, st: Step)
    requires Sane(s) && Enabled(s, st)
    ensures Sane(Next(s, st))
    ensures Excess(Next(s, st)) == Excess(s) + if Miscounts(s, st) then 1 else 0
  {
    NotFreed(s);
    match st
    case SCreate => CreateSane(s);
    case STerminate(t) => TerminateSane(s, t);
    case SP(k) => OperateSane(s, k, OpP);
    case SV(k) => OperateSane(s, k, OpV);
    case SDoIO(a) => DoIOSane(s, a);
    case SClockWait => ClockWaitSane(s);
    case STimeslice => TimesliceSane(s);
    case STick => TickSane(s);
    case SDevice(d) => DeviceSane(s, d);
    case SResume => ScheduleSane(s);
  }

  lemma NotFreed(s: State)
    requires Sane(s)
    ensures s.mode.Running? ==> !HoldsFreed(s)
  {
    if s.mode.Running? {
      assert s.cur.value in OnCpu(s);
    }
  }

  /** The exact condition for g_process_count to be the number of processes in use after a step, and for those to form
      one tree: it was before, and the step neither revives a freed PCB nor frees one again. */
  lemma NextSound(s: State, st: Step)
    requires Sane(s) && Enabled(s, st)
    ensures Sound(Next(s, st)) <==> Sound(s) && !Miscounts(s, st)
  {
    NextSane(s, st);
  }
}

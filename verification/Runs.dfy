/** Whole runs: conservation, HALT and PANIC, the soft-block count. */
module Runs {
  import opened Basics
  import opened Forests
  import opened Addresses
  import opened Machine
  import opened Invariants
  import opened Terminating
  import opened Exactness

  // ---- runs

  /** Every step is enabled where it is taken. */
  ghost predicate IsRun(s: State, steps: seq<Step>)
    decreases |steps|
  {
    steps == [] || (Enabled(s, steps[0]) && IsRun(Next(s, steps[0]), steps[1..]))
  }

  /** Every step meets its guard where it is taken. */
  ghost predicate IsGuardedRun(s: State, steps: seq<Step>)
    decreases |steps|
  {
    steps == [] || (Guard(s, steps[0]) && IsGuardedRun(Next(s, steps[0]), steps[1..]))
  }

  ghost function After(s: State, steps: seq<Step>): State
    requires IsRun(s, steps)
    decreases |steps|
  {
    if steps == [] then s else After(Next(s, steps[0]), steps[1..])
  }

  lemma {:induction false} GuardedIsRun(s: State, steps: seq<Step>)
    requires IsGuardedRun(s, steps)
    ensures IsRun(s, steps)
    decreases |steps|
  {
    if steps != [] {
      GuardedIsRun(Next(s, steps[0]), steps[1..]);
    }
  }

  /** How many steps of a run revive a freed PCB. */
  ghost function Revivals(s: State, steps: seq<Step>): nat
    requires IsRun(s, steps)
    decreases |steps|
  {
    if steps == [] then 0
    else (if Revives(s, steps[0]) then 1 else 0) + Revivals(Next(s, steps[0]), steps[1..])
  }

  /** How many steps of a run revive a freed PCB or free one again. */
  ghost function Miscountings(s: State, steps: seq<Step>): nat
    requires IsRun(s, steps)
    decreases |steps|
  {
    if steps == [] then 0
    else (if Miscounts(s, steps[0]) then 1 else 0) + Miscountings(Next(s, steps[0]), steps[1..])
  }

  /** Every run, guarded or not, keeps Sane; what g_process_count misses grows by one with each of those steps. */
  lemma {:induction false} RunSane(s: State, steps: seq<Step>)
    requires Sane(s) && IsRun(s, steps)
    ensures Sane(After(s, steps)) && Excess(After(s, steps)) == Excess(s) + Miscountings(s, steps)
    decreases |steps|
  {
    if steps != [] {
      NextSane(s, steps[0]);
      RunSane(Next(s, steps[0]), steps[1..]);
    }
  }

  /** A run keeps Sound if and only if no step of it revives a freed PCB or frees one again. */
  lemma RunSound(s: State, steps: seq<Step>)
    requires Sound(s) && IsRun(s, steps)
    ensures Sound(After(s, steps)) <==> Miscountings(s, steps) == 0
  {
    RunSane(s, steps);
  }

  lemma {:induction false} RunInv(s: State, steps: seq<Step>)
    requires Inv(s) && IsGuardedRun(s, steps)
    ensures IsRun(s, steps) && Inv(After(s, steps))
    decreases |steps|
  {
    GuardedIsRun(s, steps);
    if steps != [] {
      GuardExact(s, steps[0]);
      RunInv(Next(s, steps[0]), steps[1..]);
    }
  }

  // ---- longer runs

  /** One more step. */
  lemma {:induction false} Extend(s: State, steps: seq<Step>, st: Step)
    requires IsRun(s, steps) && Enabled(After(s, steps), st)
    ensures IsRun(s, steps + [st]) && After(s, steps + [st]) == Next(After(s, steps), st)
    decreases |steps|
  {
    if steps == [] {
      assert IsRun(Next(s, st), []) && steps + [st] == [st];
    } else {
      assert (steps + [st])[1..] == steps[1..] + [st];
      Extend(Next(s, steps[0]), steps[1..], st);
    }
  }

  lemma {:induction false} ExtendGuarded(s: State, steps: seq<Step>, st: Step)
    requires IsGuardedRun(s, steps) && IsRun(s, steps) && Guard(After(s, steps), st)
    ensures IsGuardedRun(s, steps + [st])
    decreases |steps|
  {
    if steps == [] {
      assert IsGuardedRun(Next(s, st), []) && steps + [st] == [st];
    } else {
      assert (steps + [st])[1..] == steps[1..] + [st];
      ExtendGuarded(Next(s, steps[0]), steps[1..], st);
    }
  }

  // ---- boot

  ghost predicate Binary(words: map<u32, int>) {
    forall a :: a in words ==> 0 <= words[a] <= 1
  }

  ghost predicate IsPool(pool: seq<Pid>) {
    |pool| == MAX_PROC && forall i :: 0 <= i < MAX_PROC ==> pool[i] as int == MAX_PROC - 1 - i
  }

  lemma PoolCensus(pool: seq<Pid>)
    requires IsPool(pool)
    ensures Census(pool[1..], {pool[0]})
  {
    forall p: Pid ensures p in pool[1..] <==> p !in {pool[0]} {
      assert pool[MAX_PROC - 1 - p as int] == p;
    }
  }

  /** Every device idle, the clock at 1, the user's words as given. */
  ghost predicate AreBootVals(v: map<Sem, int>, words: map<u32, int>) {
    && Clock in v && v[Clock] == 1
    && (forall d: Dev :: Mut(d) in v && v[Mut(d)] == 1)
    && (forall d: Dev :: Sync(d) in v && v[Sync(d)] == 0)
    && (forall k :: k in v && k.User? ==> k.a in words && v[k] == words[k.a])
  }

  lemma MergeVals(u: map<Sem, int>, m: map<Sem, int>, y: map<Sem, int>, words: map<u32, int>)
    requires forall k :: k in u ==> k.User? && k.a in words && u[k] == words[k.a]
    requires forall k :: k in m <==> k.Mut?
    requires forall k :: k in m ==> m[k] == 1
    requires forall k :: k in y <==> k.Sync?
    requires forall k :: k in y ==> y[k] == 0
    ensures AreBootVals(u + m + y + map[Clock := 1], words)
  {
  }

  lemma BootValsAre(words: map<u32, int>)
    ensures AreBootVals(BootVals(words), words)
  {
    MergeVals(UserVals(words), MutexVals(), SyncVals(), words);
  }

  lemma LaunchSound(pool: seq<Pid>, val: map<Sem, int>, words: map<u32, int>)
    requires IsPool(pool) && AreBootVals(val, words)
    ensures Sound(Launch(pool, val))
  {
    PoolCensus(pool);
    var s := Launch(pool, val);
    assert OnCpu(s) == {} && Members(s.tree) == {pool[0]};
  }

  lemma LaunchSemaphores(val: map<Sem, int>, words: map<u32, int>)
    requires AreBootVals(val, words) && Binary(words)
    ensures Semaphores(val, map[], map[], map[])
  {
  }

  lemma LaunchOrderly(pool: seq<Pid>, val: map<Sem, int>, words: map<u32, int>)
    requires IsPool(pool) && AreBootVals(val, words) && Binary(words)
    ensures Orderly(Launch(pool, val))
  {
    var s := Launch(pool, val);
    LaunchSemaphores(val, words);
    assert s.ready == [pool[0]] && Members(s.tree) == {pool[0]};
    assert Lost(s) == {};
    assert SoftSet(s.wait) == {};
  }

  lemma BootUser(words: map<u32, int>, a: u32)
    requires a in words
    ensures User(a) in BootVals(words) && BootVals(words)[User(a)] == words[a]
  {
  }

  lemma LaunchDisorderly(pool: seq<Pid>, val: map<Sem, int>, k: Sem)
    requires pool != [] && k.User? && k in val && !(0 <= val[k] <= 1)
    ensures !Orderly(Launch(pool, val))
  {
    assert !UserInv(val, Launch(pool, val).wait, k);
  }

  lemma BootOrderly(words: map<u32, int>)
    ensures Binary(words) ==> Orderly(Boot(words))
    ensures !Binary(words) ==> !Orderly(Boot(words))
  {
    var pool, val := InitialPool(), BootVals(words);
    BootValsAre(words);
    if Binary(words) {
      LaunchOrderly(pool, val, words);
    } else {
      var a :| a in words && !(0 <= words[a] <= 1);
      BootUser(words, a);
      LaunchDisorderly(pool, val, User(a));
    }
  }

  /** Booting establishes the unguarded invariant, and the whole of it exactly when every user word is 0 or 1. */
  lemma BootInv(words: map<u32, int>)
    ensures Sound(Boot(words))
    ensures Inv(Boot(words)) <==> Binary(words)
  {
    BootValsAre(words);
    LaunchSound(InitialPool(), BootVals(words), words);
    BootOrderly(words);
  }

  // ---- conservation

  /** Where a process can be. */
  datatype Place = OnFreeList | OnReadyQueue | OnProcessor | OnSemaphore(k: Sem)

  ghost predicate At(s: State, p: Pid, l: Place) {
    match l
    case OnFreeList => p in s.free
    case OnReadyQueue => p in s.ready
    case OnProcessor => s.mode.Running? && s.cur == Some(p)
    case OnSemaphore(k) => k in s.queue && p in s.queue[k]
  }

  ghost predicate Somewhere(s: State, p: Pid) { exists l :: At(s, p, l) }

  /** Each PCB is in exactly one place, once, and g_process_count is the number of PCBs that are not free. */
  ghost predicate Partitioned(s: State) {
    && (forall p: Pid :: Somewhere(s, p))
    && (forall p: Pid, l, m :: At(s, p, l) && At(s, p, m) ==> l == m)
    && NoDup(s.free) && NoDup(s.ready) && (forall k :: k in s.queue ==> NoDup(s.queue[k]))
    && s.count == |AllPids() - Elems(s.free)|
  }

  lemma SomePlace(s: State, p: Pid)
    requires Inv(s)
    ensures Somewhere(s, p)
  {
    if p in s.free {
      assert At(s, p, OnFreeList);
    } else if p in s.ready {
      assert At(s, p, OnReadyQueue);
    } else if p in s.wait {
      assert At(s, p, OnSemaphore(s.wait[p].on));
    } else {
      assert p in Members(s.tree) && p !in Lost(s);
      assert At(s, p, OnProcessor);
    }
  }

  lemma OnePlace(s: State, p: Pid, l: Place, m: Place)
    requires Sane(s) && At(s, p, l) && At(s, p, m)
    ensures l == m
  {
    assert l.OnProcessor? ==> p in OnCpu(s);
    assert m.OnProcessor? ==> p in OnCpu(s);
    assert l.OnSemaphore? ==> p in s.wait && s.wait[p].on == l.k;
    assert m.OnSemaphore? ==> p in s.wait && s.wait[p].on == m.k;
  }

  lemma CountsLive(s: State)
    requires Sane(s)
    ensures s.count + Excess(s) == |AllPids() - Elems(s.free)| == MAX_PROC - |s.free|
  {
    assert Members(s.tree) == AllPids() - Elems(s.free);
    NoDupCard(s.free);
  }

  lemma InvPartitioned(s: State)
    requires Inv(s)
    ensures Partitioned(s)
  {
    forall p: Pid ensures Somewhere(s, p) {
      SomePlace(s, p);
    }
    forall p: Pid, l, m | At(s, p, l) && At(s, p, m) ensures l == m {
      OnePlace(s, p, l, m);
    }
    CountsLive(s);
  }

  /** Conservation: on every guarded run from boot the PCB table stays partitioned. */
  lemma Conservation(words: map<u32, int>, steps: seq<Step>)
    requires Binary(words) && IsGuardedRun(Boot(words), steps)
    ensures IsRun(Boot(words), steps) && Partitioned(After(Boot(words), steps))
  {
    BootInv(words);
    RunInv(Boot(words), steps);
    InvPartitioned(After(Boot(words), steps));
  }

  /** On every run whatever, no PCB is ever in two places, and g_process_count falls short of the PCBs that are not free
      by exactly the number of steps that revived a freed PCB or freed one again; so it is exact if and only if there
      was none. */
  lemma CounterExact(words: map<u32, int>, steps: seq<Step>)
    requires IsRun(Boot(words), steps)
    ensures var s := After(Boot(words), steps);
      && s.count + Miscountings(Boot(words), steps) == MAX_PROC - |s.free|
      && (s.count == MAX_PROC - |s.free| <==> Miscountings(Boot(words), steps) == 0)
      && forall p: Pid, l, m :: At(s, p, l) && At(s, p, m) ==> l == m
  {
    BootInv(words);
    RunSane(Boot(words), steps);
    var s := After(Boot(words), steps);
    CountsLive(s);
    forall p: Pid, l, m | At(s, p, l) && At(s, p, m) ensures l == m {
      OnePlace(s, p, l, m);
    }
  }
}

/** Runs from boot that end badly: a freed PCB is queued again and lost, a kill in mid-operation stops the machine, and
    so does the termination of a process that has ended already. */
module Accidents {
  import opened Basics
  import opened Forests
  import opened Addresses
  import opened SemQueues
  import opened Machine
  import opened Invariants
  import opened Soundness
  import opened Killing
  import opened Terminating
  import opened Runs
  import opened Scenes
  import opened Hazards

  /** A guarded step. */
  ghost predicate Leads(s: State, st: Step, t: State) {
    Guard(s, st) && t == Next(s, st)
  }

  lemma Child(s: State, d: Dev, k: Sem, v: View) returns (t: State)
    requires Seen(s, d, k, v) && v.looping == {} && v.mode.Running? && v.free != [] && v.cur.Some?
    ensures Leads(s, SCreate, t) && Seen(t, d, k, Grew(v))
  {
    CreateSeen(s, d, k, v);
    t := Next(s, SCreate);
  }

  lemma Turn(s: State, d: Dev, k: Sem, v: View) returns (t: State)
    requires Seen(s, d, k, v) && v.looping == {} && v.mode.Running? && v.cur.Some?
    ensures Leads(s, STimeslice, t) && Seen(t, d, k, Turned(v)) && t.tree == s.tree
  {
    TimesliceSeen(s, d, k, v);
    t := Next(s, STimeslice);
  }

  lemma Issue(s: State, a: u32, k: Sem, v: View) returns (t: State)
    requires ResolveDeviceAddress(a) != -1 && Seen(s, ResolveDeviceAddress(a) as Dev, k, v)
    requires v.looping == {} && v.mode.Running? && v.ready != [] && v.cur.Some? && (v.held.None? ==> v.mutex == [])
    ensures Leads(s, SDoIO(a), t) && Seen(t, ResolveDeviceAddress(a) as Dev, k, Issuing(v))
    ensures v.held.None? ==> t.tree == s.tree
  {
    if v.held.None? {
      IssueSeen(s, a, k, v);
      IssueKeepsTree(s, a);
    } else {
      QueueSeen(s, a, k, v);
    }
    t := Next(s, SDoIO(a));
  }

  lemma Waits(s: State, d: Dev, k: Sem, v: View) returns (t: State)
    requires Seen(s, d, k, v) && v.looping == {} && v.mode.Running? && v.ready != [] && v.cur.Some? && v.closed
    ensures Leads(s, SP(k), t) && Seen(t, d, k, Passing(v))
  {
    PassSeen(s, d, k, v);
    t := Next(s, SP(k));
  }

  lemma Exit(s: State, d: Dev, k: Sem, v: View, z: Pid) returns (t: State)
    requires Seen(s, d, k, v) && v.mode.Running? && v.cur == Some(z) && v.leaf == Some(z) && v.looping == {}
    ensures Leads(s, STerminate(z), t) && Seen(t, d, k, Exited(v, z))
  {
    ExitSeen(s, d, k, v, z);
    t := Next(s, STerminate(z));
  }

  /** A guarded run, state by state. */
  ghost predicate Path(ss: seq<State>, steps: seq<Step>) {
    |ss| == |steps| + 1 && forall i :: 0 <= i < |steps| ==> Leads(ss[i], steps[i], ss[i + 1])
  }

  function Last(ss: seq<State>): State
    requires ss != []
  {
    ss[|ss| - 1]
  }

  lemma PathOf(s: State, a: Step, t: State, b: Step, u: State, c: Step, v: State)
    requires Leads(s, a, t) && Leads(t, b, u) && Leads(u, c, v)
    ensures Path([s, t, u, v], [a, b, c])
  {
  }

  lemma PathJoin(a: seq<State>, x: seq<Step>, b: seq<State>, y: seq<Step>)
    requires Path(a, x) && Path(b, y) && Last(a) == b[0]
    ensures Path(a + b[1..], x + y) && (a + b[1..])[0] == a[0] && Last(a + b[1..]) == Last(b)
  {
    var c, z := a + b[1..], x + y;
    forall i | 0 <= i < |z| ensures Leads(c[i], z[i], c[i + 1]) {
      if i < |x| {
        assert Leads(a[i], x[i], a[i + 1]);
      } else {
        assert Leads(b[i - |x|], y[i - |x|], b[i - |x| + 1]);
      }
    }
  }

  lemma ThreeChildren(s: State, d: Dev, k: Sem, v: View) returns (ss: seq<State>)
    requires Seen(s, d, k, v) && v.looping == {} && v.mode.Running? && v.cur.Some? && |v.free| >= 3
    ensures Path(ss, [SCreate, SCreate, SCreate]) && ss[0] == s && Seen(Last(ss), d, k, Grew(Grew(Grew(v))))
  {
    var s1 := Child(s, d, k, v);
    var s2 := Child(s1, d, k, Grew(v));
    var s3 := Child(s2, d, k, Grew(Grew(v)));
    PathOf(s, SCreate, s1, SCreate, s2, SCreate, s3);
    ss := [s, s1, s2, s3];
  }

  lemma TwoCommands(s: State, a: u32, k: Sem, v: View) returns (ss: seq<State>)
    requires ResolveDeviceAddress(a) != -1 && Seen(s, ResolveDeviceAddress(a) as Dev, k, v)
    requires v.looping == {} && v.mode.Running? && v.cur.Some? && |v.ready| >= 2 && v.held.None? && v.mutex == []
    ensures Path(ss, [STimeslice, SDoIO(a), SDoIO(a)]) && ss[0] == s
    ensures Seen(Last(ss), ResolveDeviceAddress(a) as Dev, k, Issuing(Issuing(Turned(v))))
  {
    var s1 := Turn(s, ResolveDeviceAddress(a) as Dev, k, v);
    var s2 := Issue(s1, a, k, Turned(v));
    var s3 := Issue(s2, a, k, Issuing(Turned(v)));
    PathOf(s, STimeslice, s1, SDoIO(a), s2, SDoIO(a), s3);
    ss := [s, s1, s2, s3];
  }

  lemma LastOneExits(s: State, d: Dev, k: Sem, v: View, z: Pid) returns (ss: seq<State>)
    requires Seen(s, d, k, v) && v.looping == {} && v.mode.Running? && v.cur == Some(z)
    requires |v.ready| == 1 && v.leaf == Some(z) && v.closed
    ensures Path(ss, [STimeslice, SP(k), STerminate(z)]) && ss[0] == s
    ensures Seen(Last(ss), d, k, Exited(Passing(Turned(v)), z))
  {
    var s1 := Turn(s, d, k, v);
    var s2 := Waits(s1, d, k, Turned(v));
    var s3 := Exit(s2, d, k, Passing(Turned(v)), z);
    PathOf(s, STimeslice, s1, SP(k), s2, STerminate(z), s3);
    ss := [s, s1, s2, s3];
  }

  // ---- a family in trouble: a process p and its children x, y and z

  /** p runs alone. */
  function Single(f: seq<Pid>, p: Pid, x: Pid, y: Pid, z: Pid): View {
    View([x, y, z] + f, [], Some(p), Running, None, [], [], [], None, 1, 0, true, {})
  }

  /** Its children are ready. */
  function Family(f: seq<Pid>, p: Pid, x: Pid, y: Pid, z: Pid): View {
    View(f, [x, y, z], Some(p), Running, Some(z), [], [], [], None, 4, 0, true, {})
  }

  /** x waits for the device, y waits for x, and z runs. */
  function Busy(f: seq<Pid>, p: Pid, x: Pid, y: Pid, z: Pid): View {
    View(f, [p], Some(z), Running, Some(z), [x], [y], [], Some(x), 4, 1, true, {})
  }

  /** p waits on the user semaphore, and z has terminated itself. */
  function Forsaken(f: seq<Pid>, p: Pid, x: Pid, y: Pid, z: Pid): View {
    View([z] + f, [], Some(z), Idle, None, [x], [y], [p], Some(x), 3, 1, true, {})
  }

  lemma GathersView(f: seq<Pid>, p: Pid, x: Pid, y: Pid, z: Pid)
    ensures Grew(Grew(Grew(Single(f, p, x, y, z)))) == Family(f, p, x, y, z)
  {
    var v := Single(f, p, x, y, z);
    assert Grew(v) == View([y, z] + f, [x], Some(p), Running, Some(x), [], [], [], None, 2, 0, true, {});
    assert Grew(Grew(v)) == View([z] + f, [x, y], Some(p), Running, Some(y), [], [], [], None, 3, 0, true, {});
  }

  lemma Gathers(s: State, d: Dev, k: Sem, f: seq<Pid>, p: Pid, x: Pid, y: Pid, z: Pid) returns (ss: seq<State>)
    requires Seen(s, d, k, Single(f, p, x, y, z))
    ensures Path(ss, [SCreate, SCreate, SCreate]) && ss[0] == s && Seen(Last(ss), d, k, Family(f, p, x, y, z))
  {
    GathersView(f, p, x, y, z);
    ss := ThreeChildren(s, d, k, Single(f, p, x, y, z));
  }

  lemma CommandsView(f: seq<Pid>, p: Pid, x: Pid, y: Pid, z: Pid)
    ensures Issuing(Issuing(Turned(Family(f, p, x, y, z)))) == Busy(f, p, x, y, z)
  {
    var w := Family(f, p, x, y, z);
    assert Turned(w) == View(f, [y, z, p], Some(x), Running, Some(z), [], [], [], None, 4, 0, true, {});
    assert Issuing(Turned(w)) == View(f, [z, p], Some(y), Running, Some(z), [x], [], [], Some(x), 4, 1, true, {});
  }

  lemma Commands(s: State, a: u32, k: Sem, f: seq<Pid>, p: Pid, x: Pid, y: Pid, z: Pid) returns (ss: seq<State>)
    requires ResolveDeviceAddress(a) != -1
    requires Seen(s, ResolveDeviceAddress(a) as Dev, k, Family(f, p, x, y, z))
    ensures Path(ss, [STimeslice, SDoIO(a), SDoIO(a)]) && ss[0] == s
    ensures Seen(Last(ss), ResolveDeviceAddress(a) as Dev, k, Busy(f, p, x, y, z))
  {
    CommandsView(f, p, x, y, z);
    ss := TwoCommands(s, a, k, Family(f, p, x, y, z));
  }

  lemma Forsakes(s: State, d: Dev, k: Sem, f: seq<Pid>, p: Pid, x: Pid, y: Pid, z: Pid) returns (ss: seq<State>)
    requires Seen(s, d, k, Busy(f, p, x, y, z))
    ensures Path(ss, [STimeslice, SP(k), STerminate(z)]) && ss[0] == s && Seen(Last(ss), d, k, Forsaken(f, p, x, y, z))
  {
    var t := Busy(f, p, x, y, z);
    assert Turned(t) == View(f, [z], Some(p), Running, Some(z), [x], [y], [], Some(x), 4, 1, true, {});
    assert Passing(Turned(t)) == View(f, [], Some(z), Running, Some(z), [x], [y], [p], Some(x), 4, 1, true, {});
    assert Exited(Passing(Turned(t)), z) == Forsaken(f, p, x, y, z);
    ss := LastOneExits(s, d, k, t, z);
  }

  function TroubleRun(a: u32, k: Sem, z: Pid): seq<Step> {
    [SCreate, SCreate, SCreate] + ([STimeslice, SDoIO(a), SDoIO(a)] + [STimeslice, SP(k), STerminate(z)])
  }

  lemma Trouble(s: State, a: u32, k: Sem, f: seq<Pid>, p: Pid, x: Pid, y: Pid, z: Pid) returns (ss: seq<State>)
    requires ResolveDeviceAddress(a) != -1
    requires Seen(s, ResolveDeviceAddress(a) as Dev, k, Single(f, p, x, y, z))
    ensures Path(ss, TroubleRun(a, k, z)) && ss[0] == s
    ensures Seen(Last(ss), ResolveDeviceAddress(a) as Dev, k, Forsaken(f, p, x, y, z))
  {
    var d := ResolveDeviceAddress(a) as Dev;
    var s1 := Gathers(s, d, k, f, p, x, y, z);
    var s2 := Commands(Last(s1), a, k, f, p, x, y, z);
    var s3 := Forsakes(Last(s2), d, k, f, p, x, y, z);
    PathJoin(s2, [STimeslice, SDoIO(a), SDoIO(a)], s3, [STimeslice, SP(k), STerminate(z)]);
    ss := s2 + s3[1..];
    PathJoin(s1, [SCreate, SCreate, SCreate],
             ss, [STimeslice, SDoIO(a), SDoIO(a)] + [STimeslice, SP(k), STerminate(z)]);
    ss := s1 + ss[1..];
  }

  // ---- from steps to runs

  lemma {:induction false} Chain(ss: seq<State>, steps: seq<Step>)
    requires Path(ss, steps)
    ensures IsGuardedRun(ss[0], steps) && IsRun(ss[0], steps) && After(ss[0], steps) == Last(ss)
    decreases |steps|
  {
    if steps != [] {
      assert Leads(ss[0], steps[0], ss[1]);
      forall i | 0 <= i < |steps[1..]| ensures Leads(ss[1..][i], steps[1..][i], ss[1..][i + 1]) {
        assert Leads(ss[i + 1], steps[i + 1], ss[i + 2]);
      }
      Chain(ss[1..], steps[1..]);
    }
  }

  lemma {:induction false} RunConcat(s: State, a: seq<Step>, b: seq<Step>)
    requires IsRun(s, a) && IsRun(After(s, a), b)
    ensures IsRun(s, a + b) && After(s, a + b) == After(After(s, a), b)
    decreases |a|
  {
    if a == [] {
      assert a + b == b;
    } else {
      assert (a + b)[1..] == a[1..] + b;
      RunConcat(Next(s, a[0]), a[1..], b);
    }
  }

  lemma ChainFrom(b: State, st: Step, ss: seq<State>, steps: seq<Step>)
    requires Path(ss, steps) && Leads(b, st, ss[0])
    ensures IsGuardedRun(b, [st] + steps) && IsRun(b, [st] + steps) && After(b, [st] + steps) == Last(ss)
  {
    var p := [b] + ss;
    forall i | 0 <= i < |[st] + steps| ensures Leads(p[i], ([st] + steps)[i], p[i + 1]) {
      assert i > 0 ==> Leads(ss[i - 1], steps[i - 1], ss[i]);
    }
    Chain(p, [st] + steps);
  }

  /** p lives on, z, the PCB just freed, is queued on sem_sync. */
  function Reborn(f: seq<Pid>, p: Pid, x: Pid, y: Pid, z: Pid): View {
    View(f, [], Some(x), Running, None, [z], [], [p], Some(y), 3, 1, true, {z})
  }

  lemma IsReborn(s: State, d: Dev, k: Sem, f: seq<Pid>, p: Pid, x: Pid, y: Pid, z: Pid)
    requires Seen(s, d, k, Forsaken(f, p, x, y, z))
    ensures Enabled(s, SDevice(d)) && Revives(s, SDevice(d))
    ensures Seen(Next(s, SDevice(d)), d, k, Reborn(f, p, x, y, z))
  {
    var v := Forsaken(f, p, x, y, z);
    MinusHead(v.free);
    Apiece(s, d, k, f, p, x, y, z);
    assert Reviving(v, x, y, z) == Reborn(f, p, x, y, z);
    ReviveSeen(s, d, k, v, x, y, z);
  }

  /** z has the processor, but what is resumed is the loop of scheduler(). */
  function Astray(f: seq<Pid>, p: Pid, x: Pid, z: Pid): View {
    View(f, [x], Some(z), Idle, None, [], [], [p], None, 3, 0, true, {z})
  }

  /** The next answer of the device makes z ready, and it gets the processor in its turn. */
  lemma Wanders(s: State, d: Dev, k: Sem, f: seq<Pid>, p: Pid, x: Pid, y: Pid, z: Pid)
    requires Seen(s, d, k, Reborn(f, p, x, y, z)) && x != z
    ensures Enabled(s, SDevice(d)) && Enabled(Next(s, SDevice(d)), STimeslice)
    ensures Seen(Next(Next(s, SDevice(d)), STimeslice), d, k, Astray(f, p, x, z))
  {
    var v := Reborn(f, p, x, y, z);
    assert Answered(v, z) == View(f, [z], Some(x), Running, None, [], [], [p], None, 3, 0, true, {z});
    assert Strayed(Answered(v, z)) == Astray(f, p, x, z);
    AnswerSeen(s, d, k, v, z);
    StraySeen(Next(s, SDevice(d)), d, k, Answered(v, z));
  }

  /** The loop takes the next ready process and forgets z. */
  lemma Forgets(s: State, d: Dev, k: Sem, f: seq<Pid>, p: Pid, x: Pid, z: Pid)
    requires Seen(s, d, k, Astray(f, p, x, z)) && z !in f && x != z && |f| == 16
    ensures Enabled(s, SResume)
    ensures var t := Next(s, SResume);
      t.mode.Running? && t.cur == Some(x) && z !in t.free && z in Lost(t) && t.count == MAX_PROC - |t.free| - 1
  {
    ResumeSeen(s, d, k, Astray(f, p, x, z));
    ScheduleFrame(s);
    assert z in Members(s.tree);
  }

  lemma AloneSeen(s: State, words: map<u32, int>, d: Dev, k: Sem, p: Pid, closed: bool)
    requires Alone(s, p) && AreBootVals(s.val, words) && k.User? && (closed ==> k in s.val && s.val[k] == 0)
    ensures Seen(s, d, k, View(s.free, [], Some(p), Running, None, [], [], [], None, 1, 0, closed, {}))
  {
  }

  lemma PoolStarts()
    ensures InitialPool()[1..] == [18, 17] + InitialPool()[3..] == [18, 17, 16] + InitialPool()[4..]
  {
  }

  lemma StartedSeen(words: map<u32, int>, d: Dev, u: u32, closed: bool)
    requires closed ==> u in words && words[u] == 0
    ensures Guard(Boot(words), SResume)
    ensures Seen(Next(Boot(words), SResume), d, User(u),
                 View(InitialPool()[1..], [], Some(19), Running, None, [], [], [], None, 1, 0, closed, {}))
  {
    Started(words);
    BootValsAre(words);
    if closed {
      BootUser(words, u);
    }
    AloneSeen(Next(Boot(words), SResume), words, d, User(u), 19, closed);
  }

  /** After the run, z has terminated itself and nobody is left to run. */
  ghost predicate ForsakenAfter(b: State, run: seq<Step>, d: Dev, k: Sem, f: seq<Pid>, p: Pid, x: Pid, y: Pid, z: Pid) {
    IsGuardedRun(b, run) && IsRun(b, run) && Seen(After(b, run), d, k, Forsaken(f, p, x, y, z))
  }

  lemma TroubleReached(b: State, s: State, a: u32, k: Sem, f: seq<Pid>, p: Pid, x: Pid, y: Pid, z: Pid)
    requires ResolveDeviceAddress(a) != -1 && Leads(b, SResume, s)
    requires Seen(s, ResolveDeviceAddress(a) as Dev, k, Single(f, p, x, y, z))
    ensures ForsakenAfter(b, [SResume] + TroubleRun(a, k, z), ResolveDeviceAddress(a) as Dev, k, f, p, x, y, z)
  {
    var ss := Trouble(s, a, k, f, p, x, y, z);
    ChainFrom(b, SResume, ss, TroubleRun(a, k, z));
  }

  /** z, which has been freed, is queued when the device answers, and dispatched when its turn comes. From then on it
      is on no list, neither free nor counted. */
  ghost predicate Strays(s: State, d: Dev, z: Pid) {
    && z in s.free && s.count == MAX_PROC - |s.free| && Enabled(s, SDevice(d)) && Revives(s, SDevice(d))
    && var t := Next(s, SDevice(d));
      && z in Get(t.queue, Sync(d)) && t.count == MAX_PROC - |t.free| - 1
      && Enabled(t, SDevice(d)) && Enabled(Next(t, SDevice(d)), STimeslice)
      && var r := Next(Next(t, SDevice(d)), STimeslice);
        && r.mode.Idle? && r.cur == Some(z) && Enabled(r, SResume)
        && var w := Next(r, SResume);
          w.mode.Running? && w.cur != Some(z) && z !in w.free && z in Lost(w) && w.count == MAX_PROC - |w.free| - 1
  }

  lemma ForsakenStrays(s: State, d: Dev, k: Sem, f: seq<Pid>, p: Pid, x: Pid, y: Pid, z: Pid)
    requires Seen(s, d, k, Forsaken(f, p, x, y, z)) && |f| == 16
    ensures Strays(s, d, z)
  {
    IsReborn(s, d, k, f, p, x, y, z);
    var t := Next(s, SDevice(d));
    Apiece(s, d, k, f, p, x, y, z);
    Wanders(t, d, k, f, p, x, y, z);
    Forgets(Next(Next(t, SDevice(d)), STimeslice), d, k, f, p, x, z);
  }

  /** A free PCB is in no queue. */
  lemma Apiece(s: State, d: Dev, k: Sem, f: seq<Pid>, p: Pid, x: Pid, y: Pid, z: Pid)
    requires Seen(s, d, k, Forsaken(f, p, x, y, z))
    ensures x != z && z !in f
  {
    assert x in s.queue[Sync(d)];
    assert NoDup([z] + f);
    HeadOnce(z, f);
  }

  lemma HeadOnce(z: Pid, f: seq<Pid>)
    requires NoDup([z] + f)
    ensures z !in f && z in [z] + f
  {
    forall i | 0 <= i < |f| ensures f[i] != z {
      assert ([z] + f)[i + 1] == f[i] && ([z] + f)[0] == z;
    }
  }

  ghost predicate StraysAfter(b: State, run: seq<Step>, d: Dev, z: Pid) {
    IsGuardedRun(b, run) && IsRun(b, run) && Strays(After(b, run), d, z)
  }

  lemma TroubleStrays(b: State, s: State, a: u32, k: Sem, f: seq<Pid>, p: Pid, x: Pid, y: Pid, z: Pid)
    requires ResolveDeviceAddress(a) != -1 && Leads(b, SResume, s) && |f| == 16
    requires Seen(s, ResolveDeviceAddress(a) as Dev, k, Single(f, p, x, y, z))
    ensures StraysAfter(b, [SResume] + TroubleRun(a, k, z), ResolveDeviceAddress(a) as Dev, z)
  {
    TroubleReached(b, s, a, k, f, p, x, y, z);
    ForsakenStrays(After(b, [SResume] + TroubleRun(a, k, z)), ResolveDeviceAddress(a) as Dev, k, f, p, x, y, z);
  }

  lemma StartsTrouble(words: map<u32, int>, d: Dev, u: u32) returns (s: State)
    requires u in words && words[u] == 0
    ensures Leads(Boot(words), SResume, s) && Seen(s, d, User(u), Single(InitialPool()[4..], 19, 18, 17, 16))
  {
    StartedSeen(words, d, u, true);
    PoolStarts();
    s := Next(Boot(words), SResume);
  }

  /** A run of ten guarded steps from boot leaves the machine idle and process 16 freed; with the next interrupt its PCB
      is queued again, and in the end it is lost to the pool. */
  lemma FreedProcessStrays(words: map<u32, int>, a: u32, u: u32)
    requires u in words && words[u] == 0 && ResolveDeviceAddress(a) != -1
    ensures StraysAfter(Boot(words), [SResume] + TroubleRun(a, User(u), 16), ResolveDeviceAddress(a) as Dev, 16)
  {
    var s := StartsTrouble(words, ResolveDeviceAddress(a) as Dev, u);
    TroubleStrays(Boot(words), s, a, User(u), InitialPool()[4..], 19, 18, 17, 16);
  }

  // ---- a process is killed while a device works for it

  /** x runs and has a child y. */
  function Parenting(f: seq<Pid>, p: Pid, x: Pid, y: Pid): View {
    View(f, [p, y], Some(x), Running, Some(y), [], [], [], None, 3, 0, false, {})
  }

  /** The device works for y, and x runs. */
  function Commanding(f: seq<Pid>, p: Pid, x: Pid, y: Pid): View {
    View(f, [p], Some(x), Running, Some(y), [y], [], [], Some(y), 3, 1, false, {})
  }

  /** p runs alone, with two free PCBs in view. */
  function Lone(f: seq<Pid>, p: Pid, x: Pid, y: Pid): View {
    View([x, y] + f, [], Some(p), Running, None, [], [], [], None, 1, 0, false, {})
  }

  /** Its child x runs. */
  function Growing(f: seq<Pid>, p: Pid, x: Pid, y: Pid): View {
    View([y] + f, [p], Some(x), Running, Some(x), [], [], [], None, 2, 0, false, {})
  }

  lemma GenerationsView(f: seq<Pid>, p: Pid, x: Pid, y: Pid)
    ensures Turned(Grew(Lone(f, p, x, y))) == Growing(f, p, x, y) && Grew(Growing(f, p, x, y)) == Parenting(f, p, x, y)
  {
    assert Grew(Lone(f, p, x, y)) == View([y] + f, [x], Some(p), Running, Some(x), [], [], [], None, 2, 0, false, {});
  }

  /** p runs, then its child x, which makes a child y. */
  lemma TwoGenerations(s: State, d: Dev, k: Sem, f: seq<Pid>, p: Pid, x: Pid, y: Pid) returns (ss: seq<State>)
    requires Seen(s, d, k, Lone(f, p, x, y))
    ensures Path(ss, [SCreate, STimeslice, SCreate]) && ss[0] == s
    ensures Seen(Last(ss), d, k, Parenting(f, p, x, y))
    ensures x in Members(Last(ss).tree) && KidsOf(Last(ss).tree, x) == Cons(y, Nil, Nil)
  {
    GenerationsView(f, p, x, y);
    var s1 := Child(s, d, k, Lone(f, p, x, y));
    var s2 := Turn(s1, d, k, Grew(Lone(f, p, x, y)));
    var s3 := Child(s2, d, k, Growing(f, p, x, y));
    NewKid(s2, x, y);
    PathOf(s, SCreate, s1, STimeslice, s2, SCreate, s3);
    ss := [s, s1, s2, s3];
  }

  lemma NewKid(s: State, x: Pid, y: Pid)
    requires Sane(s) && s.cur == Some(x) && Leaf(s.tree, x) && s.free != [] && s.free[0] == y
    ensures x in Members(Create(s).tree) && KidsOf(Create(s).tree, x) == Cons(y, Nil, Nil)
  {
    assert y in s.free;
    AddedKid(s.tree, x, y);
  }

  lemma TurnsAndCommand(s: State, a: u32, k: Sem, v: View) returns (ss: seq<State>)
    requires ResolveDeviceAddress(a) != -1 && Seen(s, ResolveDeviceAddress(a) as Dev, k, v)
    requires v.looping == {} && v.mode.Running? && v.cur.Some? && v.ready != [] && v.held.None? && v.mutex == []
    ensures Path(ss, [STimeslice, STimeslice, SDoIO(a)]) && ss[0] == s && Last(ss).tree == s.tree
    ensures Seen(Last(ss), ResolveDeviceAddress(a) as Dev, k, Issuing(Turned(Turned(v))))
  {
    var s1 := Turn(s, ResolveDeviceAddress(a) as Dev, k, v);
    var s2 := Turn(s1, ResolveDeviceAddress(a) as Dev, k, Turned(v));
    var s3 := Issue(s2, a, k, Turned(Turned(v)));
    PathOf(s, STimeslice, s1, STimeslice, s2, SDoIO(a), s3);
    ss := [s, s1, s2, s3];
  }

  lemma CommandingView(f: seq<Pid>, p: Pid, x: Pid, y: Pid)
    ensures Issuing(Turned(Turned(Parenting(f, p, x, y)))) == Commanding(f, p, x, y)
  {
    var v := Parenting(f, p, x, y);
    assert Turned(v) == View(f, [y, x], Some(p), Running, Some(y), [], [], [], None, 3, 0, false, {});
    assert Turned(Turned(v)) == View(f, [x, p], Some(y), Running, Some(y), [], [], [], None, 3, 0, false, {});
  }

  /** y gives the device a command, and x runs. */
  lemma GrandchildCommands(s: State, a: u32, k: Sem, f: seq<Pid>, p: Pid, x: Pid, y: Pid) returns (ss: seq<State>)
    requires ResolveDeviceAddress(a) != -1
    requires Seen(s, ResolveDeviceAddress(a) as Dev, k, Parenting(f, p, x, y))
    ensures Path(ss, [STimeslice, STimeslice, SDoIO(a)]) && ss[0] == s && Last(ss).tree == s.tree
    ensures Seen(Last(ss), ResolveDeviceAddress(a) as Dev, k, Commanding(f, p, x, y))
  {
    CommandingView(f, p, x, y);
    ss := TurnsAndCommand(s, a, k, Parenting(f, p, x, y));
  }

  lemma Generations(s: State, a: u32, k: Sem, f: seq<Pid>, p: Pid, x: Pid, y: Pid) returns (ss: seq<State>)
    requires ResolveDeviceAddress(a) != -1
    requires Seen(s, ResolveDeviceAddress(a) as Dev, k, Lone(f, p, x, y))
    ensures Path(ss, CommandRun(a)) && ss[0] == s
    ensures Seen(Last(ss), ResolveDeviceAddress(a) as Dev, k, Commanding(f, p, x, y))
    ensures x in Members(Last(ss).tree) && KidsOf(Last(ss).tree, x) == Cons(y, Nil, Nil)
  {
    var s1 := TwoGenerations(s, ResolveDeviceAddress(a) as Dev, k, f, p, x, y);
    var s2 := GrandchildCommands(Last(s1), a, k, f, p, x, y);
    PathJoin(s1, [SCreate, STimeslice, SCreate], s2, [STimeslice, STimeslice, SDoIO(a)]);
    ss := s1 + s2[1..];
  }

  lemma PairTree(f: Forest, x: Pid, y: Pid)
    requires x in Members(f) && KidsOf(f, x) == Cons(y, Nil, Nil)
    ensures Members(Subtree(f, x)) == {x, y}
  {
    assert Members(Cons(y, Nil, Nil)) == {y};
  }

  lemma KilledPair(s: State, d: Dev, k: Sem, f: seq<Pid>, p: Pid, x: Pid, y: Pid)
    requires Seen(s, d, k, Commanding(f, p, x, y)) && x in Members(s.tree) && KidsOf(s.tree, x) == Cons(y, Nil, Nil)
    ensures var r := Killed(s, x);
      && r.mode.Idle? && r.looping == {} && r.ready == [p] && r.count == 1 && r.soft == 0
      && Mut(d) in r.val && Sync(d) in r.val
      && r.val[Mut(d)] == 0 && r.val[Sync(d)] == -1
  {
    KilledEffect(s, x);
    PairTree(s.tree, x, y);
    InIO(s, d, x, y);
    PairReaped(s, d, p, x, y, Postorder(Subtree(s.tree, x)), Killed(s, x));
  }

  /** x terminates itself and its child y, whose command is under way: the device is disabled, and p runs. */
  lemma KilledInIO(s: State, d: Dev, k: Sem, f: seq<Pid>, p: Pid, x: Pid, y: Pid)
    requires Seen(s, d, k, Commanding(f, p, x, y)) && x in Members(s.tree) && KidsOf(s.tree, x) == Cons(y, Nil, Nil)
    ensures Enabled(s, STerminate(x))
    ensures var t := Next(s, STerminate(x));
      && Sane(t) && Disabled(t, d) && t.mode.Running? && t.cur == Some(p) && t.ready == []
      && t.count == 1 && t.soft == 0
  {
    TerminateSane(s, x);
    KilledPair(s, d, k, f, p, x, y);
    NextInLine(Killed(s, x), p);
  }

  lemma NextInLine(s: State, p: Pid)
    requires s.ready == [p] && s.looping == {}
    ensures var t := Schedule(s);
      t.mode.Running? && t.cur == Some(p) && t.ready == [] && t.count == s.count && t.soft == s.soft && t.val == s.val
  {
  }

  lemma PairReaped(s: State, d: Dev, p: Pid, x: Pid, y: Pid, dead: seq<Pid>, r: State)
    requires KernelWords(s) && s.ready == [p] && p != x && p != y && s.val[Mut(d)] == 0 && x != y
    requires AllInFlight(s.wait, s.waiting, {x, y}) == {y} && Aborted(s.wait, s.waiting, {x, y}, d)
    requires Reaped(s, {x, y}, dead, r.tree, r)
    ensures r.ready == [p] && r.count == s.count - 2 && r.soft == s.soft - 1 && Mut(d) in r.val && Sync(d) in r.val
    ensures r.val[Mut(d)] == 0 && r.val[Sync(d)] == -1
  {
    assert Minus([p], {x, y}) == [p];
  }

  lemma InIO(s: State, d: Dev, x: Pid, y: Pid)
    requires Sane(s) && s.cur == Some(x) && Get(s.queue, Sync(d)) == [y] && d in s.waiting && s.waiting[d] == y
    ensures AllInFlight(s.wait, s.waiting, {x, y}) == {y} && Aborted(s.wait, s.waiting, {x, y}, d)
    ensures x != y && forall z :: z in s.ready ==> z != x && z != y
  {
    assert y in s.queue[Sync(d)];
  }

  /** The answer of a disabled device while p runs and nobody else is ready or waited for. */
  lemma PanicsOnAnswer(s: State, d: Dev, p: Pid)
    requires Sane(s) && Disabled(s, d) && s.mode.Running? && s.cur == Some(p) && s.ready == []
    requires s.count == 1 && s.soft == 0
    ensures Enabled(s, SDevice(d))
    ensures var t := Next(s, SDevice(d)); t.mode.Panicked? && Get(t.queue, Sync(d)) == Get(s.queue, Sync(d)) + [p]
  {
    assert DeviceInterrupt(s, d) == Block(s, Sync(d), OpV);
    var t := Parked(s, Sync(d), OpV);
  }

  function CommandRun(a: u32): seq<Step> {
    [SCreate, STimeslice, SCreate] + [STimeslice, STimeslice, SDoIO(a)]
  }

  /** After the run, device d works for y, and x, the parent of y, runs. */
  ghost predicate CommandedAfter(b: State, run: seq<Step>, d: Dev, k: Sem, f: seq<Pid>, p: Pid, x: Pid, y: Pid) {
    && IsGuardedRun(b, run) && IsRun(b, run)
    && var s := After(b, run);
      Seen(s, d, k, Commanding(f, p, x, y)) && x in Members(s.tree) && KidsOf(s.tree, x) == Cons(y, Nil, Nil)
  }

  lemma CommandReached(b: State, s: State, a: u32, k: Sem, f: seq<Pid>, p: Pid, x: Pid, y: Pid)
    requires ResolveDeviceAddress(a) != -1 && Leads(b, SResume, s)
    requires Seen(s, ResolveDeviceAddress(a) as Dev, k, Lone(f, p, x, y))
    ensures CommandedAfter(b, [SResume] + CommandRun(a), ResolveDeviceAddress(a) as Dev, k, f, p, x, y)
  {
    var ss := Generations(s, a, k, f, p, x, y);
    ChainFrom(b, SResume, ss, CommandRun(a));
  }

  /** x terminates itself and leaves device d disabled; when d answers, p, which has asked for nothing, is parked on
      sem_sync, and the machine panics. */
  ghost predicate Backfires(s: State, d: Dev, x: Pid, p: Pid) {
    && Enabled(s, STerminate(x))
    && var t := Next(s, STerminate(x));
      && Disabled(t, d) && t.mode.Running? && t.cur == Some(p) && Enabled(t, SDevice(d))
      && var r := Next(t, SDevice(d)); r.mode.Panicked? && p in Get(r.queue, Sync(d))
  }

  lemma CommandingBackfires(s: State, d: Dev, k: Sem, f: seq<Pid>, p: Pid, x: Pid, y: Pid)
    requires Seen(s, d, k, Commanding(f, p, x, y)) && x in Members(s.tree) && KidsOf(s.tree, x) == Cons(y, Nil, Nil)
    ensures Backfires(s, d, x, p)
  {
    KilledInIO(s, d, k, f, p, x, y);
    PanicsOnAnswer(Next(s, STerminate(x)), d, p);
  }

  ghost predicate BackfiresAfter(b: State, run: seq<Step>, d: Dev, x: Pid, p: Pid) {
    IsGuardedRun(b, run) && IsRun(b, run) && Backfires(After(b, run), d, x, p)
  }

  lemma CommandedBackfires(b: State, s: State, a: u32, k: Sem, f: seq<Pid>, p: Pid, x: Pid, y: Pid)
    requires ResolveDeviceAddress(a) != -1 && Leads(b, SResume, s)
    requires Seen(s, ResolveDeviceAddress(a) as Dev, k, Lone(f, p, x, y))
    ensures BackfiresAfter(b, [SResume] + CommandRun(a), ResolveDeviceAddress(a) as Dev, x, p)
  {
    CommandReached(b, s, a, k, f, p, x, y);
    CommandingBackfires(After(b, [SResume] + CommandRun(a)), ResolveDeviceAddress(a) as Dev, k, f, p, x, y);
  }

  lemma StartsLone(words: map<u32, int>, d: Dev) returns (s: State)
    ensures Leads(Boot(words), SResume, s)
    ensures Seen(s, d, User(0), Lone(InitialPool()[3..], 19, 18, 17))
  {
    StartedSeen(words, d, 0, false);
    PoolStarts();
    s := Next(Boot(words), SResume);
  }

  /** A run from boot after which process 18 can terminate itself and its child in mid-operation, with that result. */
  lemma KillInIOPanics(words: map<u32, int>, a: u32)
    requires ResolveDeviceAddress(a) != -1
    ensures BackfiresAfter(Boot(words), [SResume] + CommandRun(a), ResolveDeviceAddress(a) as Dev, 18, 19)
  {
    var s := StartsLone(words, ResolveDeviceAddress(a) as Dev);
    CommandedBackfires(Boot(words), s, a, User(0), InitialPool()[3..], 19, 18, 17);
  }

  // ---- a process that has ended is terminated again

  /** p makes a child x, which runs and terminates itself. */
  lemma ChildEnds(s: State, d: Dev, k: Sem, f: seq<Pid>, p: Pid, x: Pid, y: Pid) returns (ss: seq<State>)
    requires Seen(s, d, k, Lone(f, p, x, y))
    ensures Path(ss, [SCreate, STimeslice, STerminate(x)]) && ss[0] == s && Seen(Last(ss), d, k, Lone(f, p, x, y))
  {
    GenerationsView(f, p, x, y);
    assert Exited(Growing(f, p, x, y), x) == Lone(f, p, x, y);
    var s1 := Child(s, d, k, Lone(f, p, x, y));
    var s2 := Turn(s1, d, k, Grew(Lone(f, p, x, y)));
    var s3 := Exit(s2, d, k, Growing(f, p, x, y), x);
    PathOf(s, SCreate, s1, STimeslice, s2, STerminate(x), s3);
    ss := [s, s1, s2, s3];
  }

  /** The only process left terminates one that has ended: the count reaches 0 although the caller lives. */
  ghost predicate HaltsAlive(s: State, x: Pid) {
    && s.mode.Running? && s.cur.Some? && s.count == 1 && x in s.free && Enabled(s, STerminate(x))
    && var t := Next(s, STerminate(x));
      t.mode.Halted? && t.count == 0 && t.tree == s.tree && s.cur.value in Members(t.tree) && Excess(t) == Excess(s) + 1
  }

  lemma EndedKilledAgain(s: State, x: Pid)
    requires Sane(s) && s.mode.Running? && s.ready == [] && s.count == 1 && x in s.free
    ensures HaltsAlive(s, x)
  {
    TerminateSane(s, x);
    EndedReaped(s, x);
    CallerLives(s);
  }

  lemma CallerLives(s: State)
    requires Sane(s) && s.mode.Running?
    ensures s.cur.Some? && s.cur.value in Members(s.tree)
  {
    assert s.cur.value in OnCpu(s);
  }

  lemma EndedReaped(s: State, x: Pid)
    requires Sane(s) && s.ready == [] && s.count == 1 && x in s.free
    ensures var t := Terminate(s, x); t.mode.Halted? && t.count == 0 && t.tree == s.tree
  {
    KilledEffect(s, x);
    PruneAbsent(s.tree, x);
    JustOne(x);
  }

  ghost predicate HaltsAliveAfter(b: State, run: seq<Step>, x: Pid) {
    IsGuardedRun(b, run) && IsRun(b, run) && HaltsAlive(After(b, run), x)
  }

  lemma SurvivorHalts(b: State, s: State, d: Dev, k: Sem, f: seq<Pid>, p: Pid, x: Pid, y: Pid)
    requires Leads(b, SResume, s) && Seen(s, d, k, Lone(f, p, x, y))
    ensures HaltsAliveAfter(b, [SResume] + [SCreate, STimeslice, STerminate(x)], x)
  {
    var ss := ChildEnds(s, d, k, f, p, x, y);
    ChainFrom(b, SResume, ss, [SCreate, STimeslice, STerminate(x)]);
    assert Last(ss).free[0] == x;
    EndedKilledAgain(Last(ss), x);
  }

  /** A run from boot after which the first process, alone, terminates its child 18, which has ended already: the
      machine halts, although the first process is alive. */
  lemma EndedKillHalts(words: map<u32, int>)
    ensures HaltsAliveAfter(Boot(words), [SResume] + [SCreate, STimeslice, STerminate(18)], 18)
  {
    var s := StartsLone(words, 0);
    SurvivorHalts(Boot(words), s, 0, User(0), InitialPool()[3..], 19, 18, 17);
  }
}

/** The PID namespaces over whole runs: which one a process is in, told by the creations of the run. */
module Naming {
  import opened Basics
  import opened Forests
  import opened Machine
  import opened Invariants
  import opened Soundness
  import opened Terminating
  import opened Runs
  import opened Family

  /** The states a run goes through, from first to last. */
  ghost function Trail(s: State, steps: seq<Step>): (r: seq<State>)
    requires IsRun(s, steps)
    ensures |r| == |steps| + 1 && r[0] == s
    decreases |steps|
  {
    [s] + if steps == [] then [] else Trail(Next(s, steps[0]), steps[1..])
  }

  lemma {:induction false} TrailNext(s: State, steps: seq<Step>, i: nat)
    requires IsRun(s, steps) && i < |steps|
    ensures Enabled(Trail(s, steps)[i], steps[i]) && Trail(s, steps)[i + 1] == Next(Trail(s, steps)[i], steps[i])
    decreases |steps|
  {
    if i > 0 {
      TrailNext(Next(s, steps[0]), steps[1..], i - 1);
    }
  }

  lemma {:induction false} TrailEnd(s: State, steps: seq<Step>)
    requires IsRun(s, steps)
    ensures Trail(s, steps)[|steps|] == After(s, steps)
    decreases |steps|
  {
    if steps != [] {
      TrailEnd(Next(s, steps[0]), steps[1..]);
    }
  }

  /** The step gives PCB p to a new process. */
  predicate Creates(s: State, st: Step, p: Pid) {
    st.SCreate? && s.cur.Some? && s.free != [] && s.free[0] == p
  }

  /** What a step does to the namespaces: the new process gets the one given, or its parent's; nobody else's changes. */
  ghost predicate NewNames(s: State, st: Step, given: Option<int>, ns: Namespaces, ns': Namespaces) {
    forall p :: NsOf(ns', p) ==
      if Creates(s, st, p) then (if given.Some? then given else NsOf(ns, s.cur.value)) else NsOf(ns, p)
  }

  lemma NamesKept(s: State, st: Step, given: Option<int>, ns: Namespaces)
    requires !st.SCreate?
    ensures NewNames(s, st, given, ns, ns)
  {
  }

  /** The namespace of p after i steps: that given at its last creation, or the one its creator had then; if p has not
      been created since, that of the beginning. */
  function NameAt(ns: Namespaces, trail: seq<State>, steps: seq<Step>, given: seq<Option<int>>, i: nat, p: Pid)
    : Option<int>
    requires i <= |steps| == |given| && |trail| == |steps| + 1
    decreases i
  {
    if i == 0 then NsOf(ns, p)
    else if !Creates(trail[i - 1], steps[i - 1], p) then NameAt(ns, trail, steps, given, i - 1, p)
    else if given[i - 1].Some? then given[i - 1]
    else NameAt(ns, trail, steps, given, i - 1, trail[i - 1].cur.value)
  }

  lemma NamedOn(ns0: Namespaces, trail: seq<State>, steps: seq<Step>, given: seq<Option<int>>, i: nat,
                ns: Namespaces, ns': Namespaces)
    requires i < |steps| == |given| && |trail| == |steps| + 1
    requires forall p :: NsOf(ns, p) == NameAt(ns0, trail, steps, given, i, p)
    requires NewNames(trail[i], steps[i], given[i], ns, ns')
    ensures forall p :: NsOf(ns', p) == NameAt(ns0, trail, steps, given, i + 1, p)
  {
  }

  lemma {:induction false} NullAtFirst(ns: Namespaces, trail: seq<State>, steps: seq<Step>, given: seq<Option<int>>,
                                       i: nat, p: Pid)
    requires i <= |steps| == |given| && |trail| == |steps| + 1 && forall q :: NsOf(ns, q) == None
    ensures NameAt(ns, trail, steps, given, i, p) == NameAt(map[], trail, steps, given, i, p)
    decreases i
  {
    if i > 0 {
      NullAtFirst(ns, trail, steps, given, i - 1, p);
      if Creates(trail[i - 1], steps[i - 1], p) {
        NullAtFirst(ns, trail, steps, given, i - 1, trail[i - 1].cur.value);
      }
    }
  }

  // ---- in terms of the tree

  /** The argument of the last creation of p within i steps; None also if there was no creation. */
  function LastGiven(trail: seq<State>, steps: seq<Step>, given: seq<Option<int>>, i: nat, p: Pid): Option<int>
    requires i <= |steps| == |given| && |trail| == |steps| + 1
    decreases i
  {
    if i == 0 then None
    else if Creates(trail[i - 1], steps[i - 1], p) then given[i - 1]
    else LastGiven(trail, steps, given, i - 1, p)
  }

  /** What p has by itself, or else the nearest of its ancestors in f, or else `above`. */
  ghost function Nearest(f: Forest, above: Option<int>, own: Pid -> Option<int>, p: Pid): Option<int>
    requires p in Members(f)
  {
    var here := if own(f.pid).Some? then own(f.pid) else above;
    if f.pid == p then here
    else if p in Members(f.kids) then Nearest(f.kids, here, own, p)
    else Nearest(f.rest, above, own, p)
  }

  lemma {:induction false} NearestSame(f: Forest, above: Option<int>, own: Pid -> Option<int>,
                                       own': Pid -> Option<int>, p: Pid)
    requires p in Members(f) && forall q :: q in Members(f) ==> own'(q) == own(q)
    ensures Nearest(f, above, own', p) == Nearest(f, above, own, p)
  {
    var here := if own(f.pid).Some? then own(f.pid) else above;
    if f.pid != p {
      if p in Members(f.kids) {
        NearestSame(f.kids, here, own, own', p);
      } else {
        NearestSame(f.rest, above, own, own', p);
      }
    }
  }

  lemma {:induction false} NearestSnoc(f: Forest, above: Option<int>, own: Pid -> Option<int>, c: Pid, p: Pid)
    requires c !in Members(f) && (p == c || p in Members(f))
    ensures Nearest(Snoc(f, c), above, own, p) ==
      if p == c then (if own(c).Some? then own(c) else above) else Nearest(f, above, own, p)
  {
    if f.Cons? {
      if p == c || (f.pid != p && p !in Members(f.kids)) {
        NearestSnoc(f.rest, above, own, c, p);
      }
    }
  }

  lemma {:induction false} NearestAdd(f: Forest, above: Option<int>, own: Pid -> Option<int>, q: Pid, c: Pid, p: Pid)
    requires Distinct(f) && q in Members(f) && c !in Members(f) && (p == c || p in Members(f))
    ensures Nearest(AddChild(f, q, c), above, own, p) ==
      if p == c then (if own(c).Some? then own(c) else Nearest(f, above, own, q)) else Nearest(f, above, own, p)
  {
    var here := if own(f.pid).Some? then own(f.pid) else above;
    if f.pid == q {
      if p == c || p in Members(f.kids) {
        NearestSnoc(f.kids, here, own, c, p);
      }
    } else if q in Members(f.kids) {
      if p == c || p in Members(f.kids) {
        NearestAdd(f.kids, here, own, q, c, p);
      }
    } else if p == c || (f.pid != p && p !in Members(f.kids)) {
      NearestAdd(f.rest, above, own, q, c, p);
    }
  }

  lemma {:induction false} NearestPrune(f: Forest, above: Option<int>, own: Pid -> Option<int>, t: Pid, p: Pid)
    requires Distinct(f) && p in Members(Prune(f, t))
    ensures Nearest(Prune(f, t), above, own, p) == Nearest(f, above, own, p)
  {
    var here := if own(f.pid).Some? then own(f.pid) else above;
    if f.pid != t && f.pid != p {
      if p in Members(Prune(f.kids, t)) {
        NearestPrune(f.kids, here, own, t, p);
      } else {
        NearestPrune(f.rest, above, own, t, p);
      }
    }
  }

  /** Without a revival only creation and termination change the tree. */
  lemma TreeStays(s: State, st: Step)
    requires Sane(s) && Enabled(s, st) && !st.SCreate? && !st.STerminate? && !Revives(s, st)
    ensures Next(s, st).tree == s.tree
  {
    NextSane(s, st);
    NextTree(s, st);
    SameTop(s, Next(s, st));
  }

  lemma TreePruned(s: State, t: Pid)
    requires Sane(s)
    ensures Terminate(s, t).tree == Prune(s.tree, t)
  {
    KilledEffect(s, t);
    ScheduleFrame(Killed(s, t));
  }

  /** The names of the processes in f are those nearest above them. */
  ghost predicate NamedByTree(f: Forest, name: Pid -> Option<int>, own: Pid -> Option<int>) {
    forall p :: p in Members(f) ==> name(p) == Nearest(f, None, own, p)
  }

  lemma AddedNames(f: Forest, q: Pid, c: Pid, g: Option<int>, name: Pid -> Option<int>, own: Pid -> Option<int>,
                   name': Pid -> Option<int>, own': Pid -> Option<int>)
    requires Distinct(f) && q in Members(f) && c !in Members(f) && NamedByTree(f, name, own)
    requires forall p :: name'(p) == if p != c then name(p) else if g.Some? then g else name(q)
    requires forall p :: own'(p) == if p != c then own(p) else g
    ensures NamedByTree(AddChild(f, q, c), name', own')
  {
    forall p | p in Members(AddChild(f, q, c)) ensures name'(p) == Nearest(AddChild(f, q, c), None, own', p) {
      NearestAdd(f, None, own', q, c, p);
      NearestSame(f, None, own, own', q);
      if p != c {
        NearestSame(f, None, own, own', p);
      }
    }
  }

  lemma KeptNames(f: Forest, g: Forest, name: Pid -> Option<int>, own: Pid -> Option<int>,
                  name': Pid -> Option<int>, own': Pid -> Option<int>, t: Pid)
    requires Distinct(f) && NamedByTree(f, name, own) && (g == f || g == Prune(f, t))
    requires forall p :: name'(p) == name(p) && own'(p) == own(p)
    ensures NamedByTree(g, name', own')
  {
    forall p | p in Members(g) ensures name'(p) == Nearest(g, None, own', p) {
      NearestSame(f, None, own, own', p);
      if g != f {
        NearestPrune(f, None, own', t, p);
      }
    }
  }

  lemma NamesStep(s: State, st: Step, g: Option<int>, name: Pid -> Option<int>, own: Pid -> Option<int>,
                  name': Pid -> Option<int>, own': Pid -> Option<int>)
    requires Sane(s) && Enabled(s, st) && !Revives(s, st) && NamedByTree(s.tree, name, own)
    requires forall p ::
      name'(p) == if !Creates(s, st, p) then name(p) else if g.Some? then g else name(s.cur.value)
    requires forall p :: own'(p) == if !Creates(s, st, p) then own(p) else g
    ensures NamedByTree(Next(s, st).tree, name', own')
  {
    if st.SCreate? && s.free != [] {
      assert s.cur.value in OnCpu(s) && s.free[0] in s.free;
      AddedNames(s.tree, s.cur.value, s.free[0], g, name, own, name', own');
    } else {
      if st.STerminate? {
        TreePruned(s, st.t);
      } else if !st.SCreate? {
        TreeStays(s, st);
      }
      KeptNames(s.tree, Next(s, st).tree, name, own, name', own', if st.STerminate? then st.t else 0);
    }
  }

  lemma {:induction false} NearestNone(f: Forest, own: Pid -> Option<int>, p: Pid)
    requires p in Members(f) && forall q :: own(q) == None
    ensures Nearest(f, None, own, p) == None
  {
    if f.pid != p {
      if p in Members(f.kids) {
        NearestNone(f.kids, own, p);
      } else {
        NearestNone(f.rest, own, p);
      }
    }
  }

  ghost function Names(ns: Namespaces, trail: seq<State>, steps: seq<Step>, given: seq<Option<int>>, i: nat)
    : (r: Pid -> Option<int>)
    requires i <= |steps| == |given| && |trail| == |steps| + 1
    ensures forall p :: r(p) == NameAt(ns, trail, steps, given, i, p)
  {
    p => NameAt(ns, trail, steps, given, i, p)
  }

  ghost function LastGivens(trail: seq<State>, steps: seq<Step>, given: seq<Option<int>>, i: nat)
    : (r: Pid -> Option<int>)
    requires i <= |steps| == |given| && |trail| == |steps| + 1
    ensures forall p :: r(p) == LastGiven(trail, steps, given, i, p)
  {
    p => LastGiven(trail, steps, given, i, p)
  }

  lemma FirstNames(f: Forest, trail: seq<State>, steps: seq<Step>, given: seq<Option<int>>)
    requires |steps| == |given| && |trail| == |steps| + 1
    ensures NamedByTree(f, Names(map[], trail, steps, given, 0), LastGivens(trail, steps, given, 0))
  {
    forall p | p in Members(f)
      ensures Names(map[], trail, steps, given, 0)(p) == Nearest(f, None, LastGivens(trail, steps, given, 0), p)
    {
      NearestNone(f, LastGivens(trail, steps, given, 0), p);
    }
  }

  lemma NextNames(trail: seq<State>, steps: seq<Step>, given: seq<Option<int>>, i: nat)
    requires i < |steps| == |given| && |trail| == |steps| + 1
    requires Sane(trail[i]) && Enabled(trail[i], steps[i]) && trail[i + 1] == Next(trail[i], steps[i])
    requires !Revives(trail[i], steps[i])
    requires NamedByTree(trail[i].tree, Names(map[], trail, steps, given, i), LastGivens(trail, steps, given, i))
    ensures NamedByTree(trail[i + 1].tree, Names(map[], trail, steps, given, i + 1),
                        LastGivens(trail, steps, given, i + 1))
  {
    NamesStep(trail[i], steps[i], given[i], Names(map[], trail, steps, given, i), LastGivens(trail, steps, given, i),
              Names(map[], trail, steps, given, i + 1), LastGivens(trail, steps, given, i + 1));
  }

  /** Each state follows from the one before by its step, which revives nobody. */
  ghost predicate Course(trail: seq<State>, steps: seq<Step>) {
    && |trail| == |steps| + 1
    && forall j :: 0 <= j < |steps| ==> Follows(trail[j], steps[j], trail[j + 1])
  }

  ghost predicate Follows(s: State, st: Step, t: State) {
    Enabled(s, st) && t == Next(s, st) && !Revives(s, st)
  }

  ghost predicate NamedSoFar(trail: seq<State>, steps: seq<Step>, given: seq<Option<int>>, i: nat)
    requires i <= |steps| == |given| && |trail| == |steps| + 1
  {
    && Sane(trail[i])
    && NamedByTree(trail[i].tree, Names(map[], trail, steps, given, i), LastGivens(trail, steps, given, i))
  }

  lemma NamedNext(trail: seq<State>, steps: seq<Step>, given: seq<Option<int>>, i: nat)
    requires i < |steps| == |given| && |trail| == |steps| + 1
    requires NamedSoFar(trail, steps, given, i) && Follows(trail[i], steps[i], trail[i + 1])
    ensures NamedSoFar(trail, steps, given, i + 1)
  {
    NextSane(trail[i], steps[i]);
    NextNames(trail, steps, given, i);
  }

  lemma CourseNames(trail: seq<State>, steps: seq<Step>, given: seq<Option<int>>)
    requires |steps| == |given| && Course(trail, steps) && Sane(trail[0])
    ensures NamedSoFar(trail, steps, given, |steps|)
  {
    FirstNames(trail[0].tree, trail, steps, given);
    var i := 0;
    while i < |steps|
      invariant 0 <= i <= |steps| && NamedSoFar(trail, steps, given, i)
    {
      NamedNext(trail, steps, given, i);
      i := i + 1;
    }
  }

  lemma {:induction false} RevivalAt(s: State, steps: seq<Step>, i: nat)
    requires IsRun(s, steps) && i < |steps| && Revives(Trail(s, steps)[i], steps[i])
    ensures Revivals(s, steps) > 0
    decreases |steps|
  {
    if i > 0 {
      RevivalAt(Next(s, steps[0]), steps[1..], i - 1);
    }
  }

  lemma TrailCourse(s: State, steps: seq<Step>)
    requires IsRun(s, steps) && Revivals(s, steps) == 0
    ensures Course(Trail(s, steps), steps)
  {
    var trail := Trail(s, steps);
    forall j | 0 <= j < |steps| ensures Follows(trail[j], steps[j], trail[j + 1]) {
      TrailNext(s, steps, j);
      if Revives(trail[j], steps[j]) {
        RevivalAt(s, steps, j);
      }
    }
  }

  /** On a run from boot that revives nobody each live process is in the namespace given at its own last creation, or
      else at that of the nearest ancestor that was given one; if there is none, in the NULL namespace. */
  lemma NearestNamed(words: map<u32, int>, steps: seq<Step>, given: seq<Option<int>>, p: Pid)
    requires IsRun(Boot(words), steps) && |given| == |steps| && Revivals(Boot(words), steps) == 0
    requires p in Members(After(Boot(words), steps).tree)
    ensures var trail := Trail(Boot(words), steps);
      NameAt(map[], trail, steps, given, |steps|, p)
      == Nearest(After(Boot(words), steps).tree, None, LastGivens(trail, steps, given, |steps|), p)
  {
    BootInv(words);
    TrailCourse(Boot(words), steps);
    CourseNames(Trail(Boot(words), steps), steps, given);
    TrailEnd(Boot(words), steps);
  }
}

/** The net effect of terminateProcess: what its recursion over a subtree does to every part of the state. */
module Killing {
  import opened Basics
  import opened Forests
  import opened Addresses
  import opened SemQueues
  import opened Machine
  import opened Invariants
  import opened Soundness

  /** Every queue without the processes in x; descriptors left empty are recycled. */
  function Purged(queue: map<Sem, seq<Pid>>, x: set<Pid>): map<Sem, seq<Pid>> {
    map k | k in queue && Minus(queue[k], x) != [] :: Minus(queue[k], x)
  }

  /** p is the process whose command device d is working on, and p waits on one of d's semaphores. */
  predicate InFlight(wait: map<Pid, Wait>, waiting: map<Dev, Pid>, p: Pid) {
    p in wait && OfDevice(wait[p].on) && wait[p].on.d in waiting && waiting[wait[p].on.d] == p
  }

  function AllInFlight(wait: map<Pid, Wait>, waiting: map<Dev, Pid>, x: set<Pid>): set<Pid> {
    set p | p in x && InFlight(wait, waiting, p)
  }

  /** Whether killing x marks device d as having lost its process. */
  predicate Aborted(wait: map<Pid, Wait>, waiting: map<Dev, Pid>, x: set<Pid>, d: Dev) {
    d in waiting && waiting[d] in x && InFlight(wait, waiting, waiting[d]) && wait[waiting[d]].on.d == d
  }

  function AbortedVals(val: map<Sem, int>, wait: map<Pid, Wait>, waiting: map<Dev, Pid>, x: set<Pid>): map<Sem, int> {
    map k | k in val :: if k.Sync? && Aborted(wait, waiting, x, k.d) then -1 else val[k]
  }

  function Deaths(ps: seq<Pid>): (r: seq<Event>)
    ensures |r| == |ps|
    ensures forall i :: 0 <= i < |ps| ==> r[i] == Freed(ps[i])
  {
    seq(|ps|, i requires 0 <= i < |ps| => Freed(ps[i]))
  }

  // ---- fields that do not depend on the semaphores

  lemma UnblockFrame(s: State, p: Pid)
    ensures var t := Unblock(s, p);
      && t.free == s.free && t.ready == s.ready && t.count == s.count && t.log == s.log
      && t.cur == s.cur && t.mode == s.mode && t.tree == s.tree && t.waiting == s.waiting && t.looping == s.looping
  {
  }

  lemma {:induction false} KillFrame(s: State, f: Forest)
    ensures var t := Kill(s, f);
      && t.cur == s.cur && t.mode == s.mode && t.tree == s.tree && t.waiting == s.waiting
      && t.looping == s.looping
    decreases f
  {
    if f.Cons? {
      UnblockFrame(s, f.pid);
      var a := Kill(Unblock(s, f.pid), f.kids);
      KillFrame(Unblock(s, f.pid), f.kids);
      KillFrame(Recycle(a, f.pid), f.rest);
    }
  }

  /** Parents go to the front of the free list after their children. */
  lemma {:induction false} KillFree(s: State, f: Forest)
    requires Distinct(f)
    ensures Kill(s, f).free == Reverse(Postorder(f)) + Minus(s.free, Members(f))
    decreases f
  {
    if f.Nil? {
      MinusNothing(s.free, {});
    } else {
      UnblockFrame(s, f.pid);
      var a := Kill(Unblock(s, f.pid), f.kids);
      KillFree(Unblock(s, f.pid), f.kids);
      KillFree(Recycle(a, f.pid), f.rest);
      ReversePostorder(f);
      var k, n := Reverse(Postorder(f.kids)), Reverse(Postorder(f.rest));
      FreeSplit(s.free, k, n, f.pid, Members(f.kids), Members(f.rest));
      assert Members(f.kids) + {f.pid} + Members(f.rest) == Members(f);
    }
  }

  lemma MinusThrice(free: seq<Pid>, x: set<Pid>, p: Pid, y: set<Pid>)
    ensures Minus(Minus(Minus(free, x), {p}), y) == Minus(free, x + {p} + y)
  {
    MinusTwice(free, x, {p});
    MinusTwice(free, x + {p}, y);
  }

  lemma FrontKept(w: seq<Pid>, m: seq<Pid>, y: set<Pid>)
    requires forall q :: q in w ==> q !in y
    ensures Minus(w + m, y) == w + Minus(m, y)
  {
    MinusConcat(w, m, y);
    MinusNothing(w, y);
  }

  lemma Regroup(n: seq<Pid>, p: Pid, k: seq<Pid>, m: seq<Pid>)
    ensures [p] + (k + m) == [p] + k + m && n + ([p] + k + m) == n + ([p] + k) + m
  {
  }

  /** p is put in front of what is left of `free` after k; then n is put in front of what is left of that. */
  lemma FreeSplit(free: seq<Pid>, k: seq<Pid>, n: seq<Pid>, p: Pid, x: set<Pid>, y: set<Pid>)
    requires p !in k && p !in y && forall q :: q in k ==> q !in y
    ensures n + Minus([p] + Minus(k + Minus(free, x), {p}), y) == n + ([p] + k) + Minus(free, x + {p} + y)
  {
    var m := Minus(free, x);
    FrontKept(k, m, {p});
    FrontKept([p] + k, Minus(m, {p}), y);
    MinusThrice(free, x, p, y);
    Regroup(n, p, k, Minus(m, {p}));
    Regroup(n, p, k, Minus(Minus(m, {p}), y));
  }

  lemma ReversePostorder(f: Forest)
    requires f.Cons?
    ensures Reverse(Postorder(f)) == Reverse(Postorder(f.rest)) + ([f.pid] + Reverse(Postorder(f.kids)))
  {
    ReverseConcat(Postorder(f.kids) + [f.pid], Postorder(f.rest));
    ReverseConcat(Postorder(f.kids), [f.pid]);
    assert Reverse([f.pid]) == [f.pid];
  }

  lemma {:induction false} KillReady(s: State, f: Forest)
    ensures Kill(s, f).ready == Minus(s.ready, Members(f))
    decreases f
  {
    if f.Nil? {
      MinusNothing(s.ready, {});
    } else {
      UnblockFrame(s, f.pid);
      var a := Kill(Unblock(s, f.pid), f.kids);
      KillReady(Unblock(s, f.pid), f.kids);
      KillReady(Recycle(a, f.pid), f.rest);
      MinusTwice(s.ready, Members(f.kids), {f.pid});
      MinusTwice(s.ready, Members(f.kids) + {f.pid}, Members(f.rest));
      assert Members(f.kids) + {f.pid} + Members(f.rest) == Members(f);
    }
  }

  lemma {:induction false} KillCount(s: State, f: Forest)
    requires Distinct(f)
    ensures Kill(s, f).count == s.count - |Members(f)|
    decreases f
  {
    if f.Cons? {
      UnblockFrame(s, f.pid);
      var a := Kill(Unblock(s, f.pid), f.kids);
      KillCount(Unblock(s, f.pid), f.kids);
      KillCount(Recycle(a, f.pid), f.rest);
      MembersCard(f);
    }
  }

  lemma Append4(a: seq<Event>, b: seq<Event>, c: seq<Event>, d: seq<Event>)
    ensures a + b + c + d == a + (b + c + d)
  {
  }

  lemma DeathsPostorder(f: Forest)
    requires f.Cons?
    ensures Deaths(Postorder(f)) == Deaths(Postorder(f.kids)) + [Freed(f.pid)] + Deaths(Postorder(f.rest))
  {
  }

  lemma {:induction false} KillLog(s: State, f: Forest)
    ensures Kill(s, f).log == s.log + Deaths(Postorder(f))
    decreases f
  {
    if f.Cons? {
      UnblockFrame(s, f.pid);
      var a := Kill(Unblock(s, f.pid), f.kids);
      KillLog(Unblock(s, f.pid), f.kids);
      KillLog(Recycle(a, f.pid), f.rest);
      DeathsPostorder(f);
      Append4(s.log, Deaths(Postorder(f.kids)), [Freed(f.pid)], Deaths(Postorder(f.rest)));
    }
  }

  // ---- queues

  lemma PurgedGet(queue: map<Sem, seq<Pid>>, x: set<Pid>, k: Sem)
    ensures Get(Purged(queue, x), k) == Minus(Get(queue, k), x)
  {
  }

  lemma PurgedTwice(queue: map<Sem, seq<Pid>>, x: set<Pid>, y: set<Pid>)
    ensures Purged(Purged(queue, x), y) == Purged(queue, x + y)
  {
    forall k ensures Get(Purged(Purged(queue, x), y), k) == Get(Purged(queue, x + y), k) {
      PurgedGet(Purged(queue, x), y, k);
      PurgedGet(queue, x, k);
      PurgedGet(queue, x + y, k);
      MinusTwice(Get(queue, k), x, y);
    }
    SameQueues(Purged(Purged(queue, x), y), Purged(queue, x + y));
  }

  lemma PurgedNothing(queue: map<Sem, seq<Pid>>, x: set<Pid>)
    requires NoneEmpty(queue)
    requires forall k, p :: k in queue && p in queue[k] ==> p !in x
    ensures Purged(queue, x) == queue
  {
    forall k ensures Get(Purged(queue, x), k) == Get(queue, k) {
      PurgedGet(queue, x, k);
      MinusNothing(Get(queue, k), x);
    }
    SameQueues(Purged(queue, x), queue);
  }

  lemma PurgedOne(queue: map<Sem, seq<Pid>>, wait: map<Pid, Wait>, p: Pid)
    requires Queued(queue, wait) && p in wait
    ensures Purged(queue, {p}) == Put(queue, wait[p].on, Minus(Get(queue, wait[p].on), {p}))
  {
    var m := wait[p].on;
    var b := Put(queue, m, Minus(Get(queue, m), {p}));
    forall k ensures Get(Purged(queue, {p}), k) == Get(b, k) {
      PurgedGet(queue, {p}, k);
      if k != m {
        MinusNothing(Get(queue, k), {p});
      }
    }
    SameQueues(Purged(queue, {p}), b);
  }

  lemma RemoveOne(queue: map<Sem, seq<Pid>>, wait: map<Pid, Wait>, p: Pid)
    requires Queued(queue, wait)
    ensures Queued(Purged(queue, {p}), wait - {p})
    ensures p in wait ==> Purged(queue, {p}) == Put(queue, wait[p].on, Minus(Get(queue, wait[p].on), {p}))
    ensures p !in wait ==> Purged(queue, {p}) == queue && wait - {p} == wait
  {
    if p in wait {
      PurgedOne(queue, wait, p);
      QueuedRemove(queue, wait, wait[p].on, p);
    } else {
      PurgedNothing(queue, {p});
      assert wait - {p} == wait;
    }
  }

  lemma UnblockQueues(s: State, p: Pid)
    requires Queued(s.queue, s.wait)
    ensures var t := Unblock(s, p);
      t.queue == Purged(s.queue, {p}) && t.wait == s.wait - {p} && Queued(t.queue, t.wait)
  {
    RemoveOne(s.queue, s.wait, p);
  }

  lemma PurgedThrice(queue: map<Sem, seq<Pid>>, wait: map<Pid, Wait>, f: Forest)
    requires f.Cons?
    ensures Purged(Purged(Purged(queue, {f.pid}), Members(f.kids)), Members(f.rest)) == Purged(queue, Members(f))
    ensures wait - {f.pid} - Members(f.kids) - Members(f.rest) == wait - Members(f)
  {
    PurgedTwice(queue, {f.pid}, Members(f.kids));
    PurgedTwice(queue, {f.pid} + Members(f.kids), Members(f.rest));
  }

  lemma {:induction false} KillQueues(s: State, f: Forest)
    requires Queued(s.queue, s.wait)
    ensures var t := Kill(s, f);
      && t.queue == Purged(s.queue, Members(f))
      && t.wait == s.wait - Members(f)
      && Queued(t.queue, t.wait)
    decreases f
  {
    if f.Nil? {
      PurgedNothing(s.queue, {});
      assert s.wait - {} == s.wait;
    } else {
      UnblockQueues(s, f.pid);
      var b := Unblock(s, f.pid);
      KillQueues(b, f.kids);
      var a := Kill(b, f.kids);
      KillQueues(Recycle(a, f.pid), f.rest);
      PurgedThrice(s.queue, s.wait, f);
    }
  }

  // ---- device operations in flight

  ghost predicate SyncWords(val: map<Sem, int>) {
    forall d: Dev :: Sync(d) in val
  }

  lemma InFlightSplit(wait: map<Pid, Wait>, waiting: map<Dev, Pid>, x: set<Pid>, y: set<Pid>)
    requires x !! y
    ensures |AllInFlight(wait, waiting, x + y)| == |AllInFlight(wait, waiting, x)| + |AllInFlight(wait - x, waiting, y)|
  {
    var a, b, c := AllInFlight(wait, waiting, x + y), AllInFlight(wait, waiting, x), AllInFlight(wait - x, waiting, y);
    forall p ensures p in a <==> p in b || p in c {
      StillInFlight(wait, waiting, x, p);
    }
    assert a == b + c;
    assert b !! c;
  }

  lemma StillInFlight(wait: map<Pid, Wait>, waiting: map<Dev, Pid>, x: set<Pid>, p: Pid)
    ensures InFlight(wait - x, waiting, p) <==> p !in x && InFlight(wait, waiting, p)
  {
  }

  lemma AbortedValsSplit(val: map<Sem, int>, wait: map<Pid, Wait>, waiting: map<Dev, Pid>, x: set<Pid>, y: set<Pid>)
    requires x !! y
    ensures AbortedVals(AbortedVals(val, wait, waiting, x), wait - x, waiting, y)
         == AbortedVals(val, wait, waiting, x + y)
  {
  }

  lemma UnblockIO(s: State, p: Pid)
    requires SyncWords(s.val)
    ensures var t := Unblock(s, p);
      && t.soft == s.soft - |AllInFlight(s.wait, s.waiting, {p})|
      && t.val == AbortedVals(s.val, s.wait, s.waiting, {p})
      && t.wait == s.wait - {p}
  {
    if p in s.wait {
      assert AllInFlight(s.wait, s.waiting, {p}) == if InFlight(s.wait, s.waiting, p) then {p} else {};
    } else {
      assert s.wait - {p} == s.wait;
      assert AllInFlight(s.wait, s.waiting, {p}) == {};
    }
  }

  lemma {:induction false} KillWait(s: State, f: Forest)
    requires SyncWords(s.val)
    ensures Kill(s, f).wait == s.wait - Members(f)
    ensures SyncWords(Kill(s, f).val)
    decreases f
  {
    if f.Nil? {
      assert s.wait - {} == s.wait;
    } else {
      var b := Unblock(s, f.pid);
      assert s.wait - {f.pid} - Members(f.kids) - Members(f.rest) == s.wait - Members(f);
      UnblockIO(s, f.pid);
      KillWait(b, f.kids);
      KillWait(Recycle(Kill(b, f.kids), f.pid), f.rest);
    }
  }

  lemma {:induction false} KillSoft(s: State, f: Forest)
    requires SyncWords(s.val) && Distinct(f)
    ensures Kill(s, f).soft == s.soft - |AllInFlight(s.wait, s.waiting, Members(f))|
    decreases f
  {
    if f.Nil? {
      assert AllInFlight(s.wait, s.waiting, {}) == {};
    } else {
      var b, a := Unblock(s, f.pid), Kill(Unblock(s, f.pid), f.kids);
      UnblockIO(s, f.pid);
      UnblockFrame(s, f.pid);
      KillWait(b, f.kids);
      KillFrame(b, f.kids);
      KillSoft(b, f.kids);
      KillSoft(Recycle(a, f.pid), f.rest);
      InFlightSplit3(s.wait, s.waiting, f);
    }
  }

  lemma InFlightSplit3(wait: map<Pid, Wait>, waiting: map<Dev, Pid>, f: Forest)
    requires f.Cons? && Distinct(f)
    ensures |AllInFlight(wait, waiting, Members(f))|
         == |AllInFlight(wait, waiting, {f.pid})|
          + |AllInFlight(wait - {f.pid}, waiting, Members(f.kids))|
          + |AllInFlight(wait - {f.pid} - Members(f.kids), waiting, Members(f.rest))|
  {
    InFlightSplit(wait, waiting, {f.pid}, Members(f.kids));
    InFlightSplit(wait, waiting, {f.pid} + Members(f.kids), Members(f.rest));
    assert wait - {f.pid} - Members(f.kids) == wait - ({f.pid} + Members(f.kids));
  }

  lemma {:induction false} KillVal(s: State, f: Forest)
    requires SyncWords(s.val) && Distinct(f)
    ensures Kill(s, f).val == AbortedVals(s.val, s.wait, s.waiting, Members(f))
    decreases f
  {
    if f.Cons? {
      var b, a := Unblock(s, f.pid), Kill(Unblock(s, f.pid), f.kids);
      UnblockIO(s, f.pid);
      UnblockFrame(s, f.pid);
      KillWait(b, f.kids);
      KillFrame(b, f.kids);
      KillVal(b, f.kids);
      KillVal(Recycle(a, f.pid), f.rest);
      AbortedValsSplit3(s.val, s.wait, s.waiting, f);
    }
  }

  lemma AbortedValsSplit3(val: map<Sem, int>, wait: map<Pid, Wait>, waiting: map<Dev, Pid>, f: Forest)
    requires f.Cons? && Distinct(f)
    ensures AbortedVals(AbortedVals(AbortedVals(val, wait, waiting, {f.pid}), wait - {f.pid}, waiting, Members(f.kids)),
                        wait - {f.pid} - Members(f.kids), waiting, Members(f.rest))
         == AbortedVals(val, wait, waiting, Members(f))
  {
    AbortedValsSplit(val, wait, waiting, {f.pid}, Members(f.kids));
    AbortedValsSplit(val, wait, waiting, {f.pid} + Members(f.kids), Members(f.rest));
    assert wait - {f.pid} - Members(f.kids) == wait - ({f.pid} + Members(f.kids));
  }
}

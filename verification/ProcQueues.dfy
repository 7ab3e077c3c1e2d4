/** Process queues on shared link fields (phase1/process.c): every PCB has one p_list node, and the free list, the
    ready queue and the semaphore queues are rings through those nodes. The child lists are the same structure with
    p_sib for the nodes and p_child for the heads: insertChild does what InsertProcQ does, outChild what OutProcQ
    does. */
module ProcQueues {
  import opened Basics
  import opened Lists
  import opened Rows

  /** The free list after n turns of initPcbs: the last PCB put in comes first. */
  function FirstFree(n: nat): (r: seq<Pid>)
    requires n <= MAX_PROC
    ensures |r| == n && forall i :: 0 <= i < n ==> r[i] as int == n - 1 - i
  {
    seq(n, i requires 0 <= i < n => (n - 1 - i) as Pid)
  }

  class ProcLists {
    /** p_list of each PCB of pcbFree_table. */
    const node: seq<ListHead>
    /** pcbFree_h first, then every other queue head. */
    const head: seq<ListHead>
    /** The PCBs on each list, in order. */
    ghost var q: seq<seq<Pid>>

    ghost predicate Shape() {
      |node| == MAX_PROC && |head| > 0 && NoDup(node) && NoDup(head) && Disjoint(node, head) &&
      forall p: Pid :: node[p].entry == p as int
    }

    /** The p_list fields of the PCB table and the queue heads. */
    constructor (node: seq<ListHead>, head: seq<ListHead>)
      requires |node| == MAX_PROC && |head| > 0 && NoDup(node) && NoDup(head) && Disjoint(node, head)
      requires forall p: Pid :: node[p].entry == p as int
      ensures Shape() && this.node == node && this.head == head
    {
      this.node, this.head, q := node, head, [];
    }

    ghost function Nodes(s: seq<Pid>): (r: seq<ListHead>)
      requires |node| == MAX_PROC
      ensures |r| == |s| && forall i :: 0 <= i < |s| ==> r[i] == node[s[i]]
    {
      seq(|s|, i requires 0 <= i < |s| => node[s[i]])
    }

    /** List h when it holds l. */
    ghost function RingOf(h: nat, l: seq<Pid>): seq<ListHead>
      requires |node| == MAX_PROC && h < |head|
    {
      [head[h]] + Nodes(l)
    }

    /** Each list is a ring, no PCB is on two lists, and a PCB on no list is linked to itself. */
    ghost predicate Rings(q: seq<seq<Pid>>)
      reads node, head
    {
      Shape() && |q| == |head| && Separate(q) &&
      (forall h :: 0 <= h < |q| ==> Ring(RingOf(h, q[h]))) &&
      (forall p: Pid :: OnNone(q, p) ==> Ring([node[p]]))
    }

    ghost predicate Valid()
      reads this, node, head
    {
      Rings(q)
    }

    lemma NodesConcat(a: seq<Pid>, b: seq<Pid>)
      requires |node| == MAX_PROC
      ensures Nodes(a + b) == Nodes(a) + Nodes(b)
    {
    }

    lemma NodesSplit(a: seq<Pid>, p: Pid, b: seq<Pid>)
      requires |node| == MAX_PROC
      ensures Nodes(a + [p] + b) == Nodes(a) + [node[p]] + Nodes(b)
    {
    }

    lemma NoDupQueue(h: nat, l: seq<Pid>)
      requires |node| == MAX_PROC && h < |head| && Ring(RingOf(h, l))
      ensures NoDup(l)
    {
      var s := RingOf(h, l);
      forall i, j | 0 <= i < j < |l| ensures l[i] != l[j] {
        assert s[i + 1] != s[j + 1];
      }
    }

    lemma OffList(g: nat, l: seq<Pid>, h: nat, m: seq<Pid>)
      requires Shape() && g < |head| && h < |head| && g != h && Disjoint(l, m)
      ensures Disjoint(RingOf(g, l), RingOf(h, m))
    {
      var s, t := RingOf(g, l), RingOf(h, m);
      forall i, j | 0 <= i < |s| && 0 <= j < |t| ensures s[i] != t[j] {
        if i > 0 && j > 0 {
          assert l[i - 1] in l && m[j - 1] in m;
        } else if i > 0 {
          assert s[i] in node && head[h] in head;
        } else if j > 0 {
          assert t[j] in node && head[g] in head;
        }
      }
    }

    lemma OffLoose(h: nat, l: seq<Pid>, p: Pid)
      requires Shape() && h < |head| && p !in l
      ensures node[p] !in RingOf(h, l)
    {
      var s := RingOf(h, l);
      forall i | 0 <= i < |s| ensures s[i] != node[p] {
        if i > 0 {
          assert l[i - 1] in l;
        } else {
          assert node[p] in node && head[h] in head;
        }
      }
    }

    lemma NeighboursOnList(p: Pid, h: nat, l: seq<Pid>)
      requires Shape() && h < |head| && p in l && Ring(RingOf(h, l))
      ensures node[p] in RingOf(h, l) && node[p].prev in RingOf(h, l) && node[p].next in RingOf(h, l)
    {
      var k :| 0 <= k < |l| && l[k] == p;
      var s := RingOf(h, l);
      assert s[k + 1] == node[p];
      RingLinks(s, k);
      RingLinks(s, k + 1);
    }

    /** A list seen from its entry p. */
    lemma Around(p: Pid, h: nat, l: seq<Pid>) returns (a: seq<Pid>, b: seq<Pid>)
      requires Shape() && h < |head| && p in l && Ring(RingOf(h, l))
      ensures Minus(l, {p}) == a + b
      ensures Ring([node[p]] + (Nodes(b) + [head[h]] + Nodes(a)))
    {
      var k :| 0 <= k < |l| && l[k] == p;
      a, b := l[..k], l[k + 1..];
      assert l == a + [p] + b;
      NoDupQueue(h, l);
      MinusMiddle(a, p, b);
      NodesSplit(a, p, b);
      SeenFromEntry(head[h], Nodes(a), node[p], Nodes(b));
    }

    /** The link writes of list_delete_safe on p_list; h is the list p is on, if there is one. */
    method CloseUp(p: Pid, ghost h: nat, ghost l: seq<Pid>)
      requires Shape()
      requires if h < |head| then p in l && Ring(RingOf(h, l)) else Ring([node[p]])
      modifies node[p], node[p].prev, node[p].next
      ensures Ring([node[p]])
      ensures h < |head| ==> Ring(RingOf(h, Minus(l, {p})))
    {
      ghost var a, b, r := [], [], [];
      if h < |head| {
        a, b := Around(p, h, l);
        r := Nodes(b) + [head[h]] + Nodes(a);
      }
      ListDeleteSafe(node[p], r);
      if h < |head| {
        SeenFromHead(head[h], Nodes(a), Nodes(b));
        NodesConcat(a, b);
      }
    }

    /** The nodes written when p leaves list h are on no other list. */
    lemma NearOnly(q: seq<seq<Pid>>, p: Pid, h: nat, g: nat)
      requires Rings(q) && g < |q| && g != h && if h < |q| then p in q[h] else OnNone(q, p)
      ensures node[p] !in RingOf(g, q[g]) && node[p].prev !in RingOf(g, q[g]) && node[p].next !in RingOf(g, q[g])
    {
      if h < |q| {
        NeighboursOnList(p, h, q[h]);
        OffList(h, q[h], g, q[g]);
      } else {
        OffLoose(g, q[g], p);
        Neighbours(node[p], []);
        assert [node[p]] + [] == [node[p]];
      }
    }

    lemma NearNotLoose(q: seq<seq<Pid>>, p: Pid, h: nat, x: Pid)
      requires Rings(q) && x != p && OnNone(q, x) && if h < |q| then p in q[h] else OnNone(q, p)
      ensures node[p] != node[x] && node[p].prev != node[x] && node[p].next != node[x]
    {
      if h < |q| {
        NeighboursOnList(p, h, q[h]);
        OffLoose(h, q[h], x);
      } else {
        Neighbours(node[p], []);
        assert [node[p]] + [] == [node[p]];
      }
    }

    lemma RingNodes(h: nat, l: seq<Pid>, x: ListHead)
      requires Shape() && h < |head| && x in RingOf(h, l)
      ensures x in node || x in head
    {
    }

    /** The neighbours of a PCB's node are nodes of the table or queue heads. */
    lemma Nearby(q: seq<seq<Pid>>, p: Pid, h: nat)
      requires Rings(q) && if h < |q| then p in q[h] else OnNone(q, p)
      ensures node[p].prev != null && (node[p].prev in node || node[p].prev in head)
      ensures node[p].next != null && (node[p].next in node || node[p].next in head)
    {
      if h < |q| {
        NeighboursOnList(p, h, q[h]);
        RingNodes(h, q[h], node[p].prev);
        RingNodes(h, q[h], node[p].next);
      } else {
        Neighbours(node[p], []);
        assert [node[p]] + [] == [node[p]];
      }
    }

    /** Rings that p is not on stay. */
    method CloseUpAlone(p: Pid, ghost h: nat, ghost q: seq<seq<Pid>>)
      requires Rings(q) && if h < |q| then p in q[h] else OnNone(q, p)
      modifies node[p], node[p].prev, node[p].next
      ensures Ring([node[p]]) && (h < |q| ==> Ring(RingOf(h, Minus(q[h], {p}))))
      ensures forall g :: 0 <= g < |q| && g != h ==> Ring(RingOf(g, q[g]))
      ensures forall x: Pid :: x != p && OnNone(q, x) ==> Ring([node[x]])
    {
      forall g | 0 <= g < |q| && g != h
        ensures node[p] !in RingOf(g, q[g]) && node[p].prev !in RingOf(g, q[g]) && node[p].next !in RingOf(g, q[g])
      {
        NearOnly(q, p, h, g);
      }
      forall x: Pid | x != p && OnNone(q, x)
        ensures node[p] != node[x] && node[p].prev != node[x] && node[p].next != node[x]
      {
        NearNotLoose(q, p, h, x);
      }
      CloseUp(p, h, if h < |q| then q[h] else []);
      forall g | 0 <= g < |q| && g != h ensures Ring(RingOf(g, q[g])) {
        RingKept(RingOf(g, q[g]));
      }
      forall x: Pid | x != p && OnNone(q, x) ensures Ring([node[x]]) {
        RingKept([node[x]]);
      }
    }

    /** What must hold after p has left list h alone. */
    lemma Removed(q: seq<seq<Pid>>, p: Pid, h: nat)
      requires Shape() && |q| == |head| && Separate(q) && if h < |q| then p in q[h] else OnNone(q, p)
      requires Ring([node[p]]) && (h < |q| ==> Ring(RingOf(h, Minus(q[h], {p}))))
      requires forall g :: 0 <= g < |q| && g != h ==> Ring(RingOf(g, q[g]))
      requires forall x: Pid :: x != p && OnNone(q, x) ==> Ring([node[x]])
      ensures Rings(Without(q, p))
    {
      WithoutEffect(q, p, h);
    }

    /** list_delete_safe on p_list: p leaves the list it is on, if any, and every other ring is as it was. */
    method Unhook(p: Pid, ghost q: seq<seq<Pid>>)
      requires Rings(q)
      modifies node, head
      ensures Rings(Without(q, p))
    {
      ghost var h := Home(q, p);
      Nearby(q, p, h);
      CloseUpAlone(p, h, q);
      Removed(q, p, h);
    }

    /** What must hold after p has been put on list h alone. */
    lemma Added(q: seq<seq<Pid>>, p: Pid, h: nat, l: seq<Pid>)
      requires Shape() && |q| == |head| && h < |q| && Separate(q) && OnNone(q, p)
      requires forall x :: x in l <==> x in q[h] || x == p
      requires Ring(RingOf(h, l))
      requires forall g :: 0 <= g < |q| && g != h ==> Ring(RingOf(g, q[g]))
      requires forall x: Pid :: x != p && OnNone(q, x) ==> Ring([node[x]])
      ensures Rings(q[h := l])
    {
      forall x: Pid | OnNone(q[h := l], x) ensures Ring([node[x]]) {
        assert x !in q[h := l][h];
        forall g | 0 <= g < |q| ensures x !in q[g] {
          assert g != h ==> x !in q[h := l][g];
        }
      }
    }

    /** The nodes written when list h grows at one end are on no other list. */
    lemma EndsOnly(q: seq<seq<Pid>>, p: Pid, h: nat)
      requires Rings(q) && h < |q| && OnNone(q, p)
      ensures head[h].prev in RingOf(h, q[h]) && head[h].next in RingOf(h, q[h])
      ensures node[p] !in RingOf(h, q[h])
      ensures forall g :: 0 <= g < |q| && g != h ==> Disjoint(RingOf(h, q[h]), RingOf(g, q[g]))
      ensures forall g :: 0 <= g < |q| ==> node[p] !in RingOf(g, q[g])
      ensures forall x: Pid :: OnNone(q, x) ==> node[x] !in RingOf(h, q[h])
    {
      Neighbours(head[h], Nodes(q[h]));
      forall g | 0 <= g < |q| ensures node[p] !in RingOf(g, q[g]) {
        OffLoose(g, q[g], p);
      }
      forall g | 0 <= g < |q| && g != h ensures Disjoint(RingOf(h, q[h]), RingOf(g, q[g])) {
        OffList(h, q[h], g, q[g]);
      }
      forall x: Pid | OnNone(q, x) ensures node[x] !in RingOf(h, q[h]) {
        OffLoose(h, q[h], x);
      }
    }

    /** list_add_tail for a PCB on no list. */
    method AddLast(p: Pid, h: nat, ghost q: seq<seq<Pid>>)
      requires Rings(q) && h < |q| && OnNone(q, p)
      modifies node[p], head[h], head[h].prev
      ensures Rings(q[h := q[h] + [p]])
    {
      EndsOnly(q, p, h);
      NodesConcat(q[h], [p]);
      assert Nodes([p]) == [node[p]];
      ListAddTail(node[p], head[h], Nodes(q[h]));
      forall g | 0 <= g < |q| && g != h ensures Ring(RingOf(g, q[g])) {
        RingKept(RingOf(g, q[g]));
      }
      forall x: Pid | x != p && OnNone(q, x) ensures Ring([node[x]]) {
        RingKept([node[x]]);
      }
      Added(q, p, h, q[h] + [p]);
    }

    /** list_add for a PCB on no list. */
    method AddFirst(p: Pid, h: nat, ghost q: seq<seq<Pid>>)
      requires Rings(q) && h < |q| && OnNone(q, p)
      modifies node[p], head[h], head[h].next
      ensures Rings(q[h := [p] + q[h]])
    {
      EndsOnly(q, p, h);
      NodesConcat([p], q[h]);
      assert Nodes([p]) == [node[p]];
      ListAdd(node[p], head[h], Nodes(q[h]));
      forall g | 0 <= g < |q| && g != h ensures Ring(RingOf(g, q[g])) {
        RingKept(RingOf(g, q[g]));
      }
      forall x: Pid | x != p && OnNone(q, x) ensures Ring([node[x]]) {
        RingKept([node[x]]);
      }
      Added(q, p, h, [p] + q[h]);
    }

    /** What a queue head shows of its queue. */
    lemma HeadShows(h: nat)
      requires Valid() && h < |q|
      ensures q[h] == [] <==> ListEmpty(head[h])
      ensures q[h] != [] ==> head[h].next == node[q[h][0]] && node[q[h][0]].entry == q[h][0] as int
    {
      TestsExact(head[h], Nodes(q[h]));
      Neighbours(head[h], Nodes(q[h]));
    }

    /** list_empty on a PCB's own node tells whether the PCB is on a list. */
    lemma NodeShows(p: Pid)
      requires Valid()
      ensures ListEmpty(node[p]) <==> OnNone(q, p)
    {
      var h := Home(q, p);
      if h < |q| {
        var a, b := Around(p, h, q[h]);
        Neighbours(node[p], Nodes(b) + [head[h]] + Nodes(a));
        NoDupParts([node[p]], Nodes(b) + [head[h]] + Nodes(a));
      } else {
        Neighbours(node[p], []);
        assert [node[p]] + [] == [node[p]];
      }
    }

    lemma HeadNearby(q: seq<seq<Pid>>, h: nat)
      requires Rings(q) && h < |q|
      ensures head[h].prev != null && (head[h].prev in node || head[h].prev in head)
      ensures head[h].next != null && (head[h].next in node || head[h].next in head)
    {
      Neighbours(head[h], Nodes(q[h]));
      RingNodes(h, q[h], head[h].prev);
      RingNodes(h, q[h], head[h].next);
    }

    /** list_delete_safe on p_list when p is on list h. */
    method TakeOff(p: Pid, ghost h: nat)
      requires Valid() && h < |q| && p in q[h]
      modifies this`q, node, head
      ensures Valid() && q == old(q)[h := Minus(old(q)[h], {p})]
    {
      ghost var w := Without(q, p);
      WithoutEffect(q, p, h);
      Unhook(p, q);
      q := w;
    }

    /** list_delete_safe on p_list, wherever p is. */
    method Leave(p: Pid)
      requires Valid()
      modifies this`q, node, head
      ensures Valid() && q == Without(old(q), p) && OnNone(q, p)
    {
      ghost var w := Without(q, p);
      LeftAlone(q, p);
      Unhook(p, q);
      q := w;
    }

    /** initPcbs: every PCB goes to the front of the free list. */
    method InitPcbs()
      requires Shape() && (forall h :: 0 <= h < |head| ==> Ring([head[h]]))
      modifies this`q, node, head
      ensures Valid() && q == [FirstFree(MAX_PROC)] + seq(|head| - 1, h => [])
    {
      var i := 0;
      Alone(0);
      while i < MAX_PROC
        invariant 0 <= i <= MAX_PROC
        invariant Ring(RingOf(0, FirstFree(i)))
        invariant forall h :: 1 <= h < |head| ==> Ring([head[h]])
      {
        PushFree(i);
        i := i + 1;
      }
      q := [FirstFree(MAX_PROC)] + seq(|head| - 1, h => []);
      forall h | 1 <= h < |q| ensures Ring(RingOf(h, q[h])) {
        Alone(h);
      }
      forall p: Pid ensures !OnNone(q, p) {
        assert FirstFree(MAX_PROC)[MAX_PROC - 1 - p as int] == p && q[0] == FirstFree(MAX_PROC);
      }
    }

    lemma Alone(h: nat)
      requires Shape() && h < |head|
      ensures RingOf(h, []) == [head[h]]
    {
    }

    /** One turn of the loop of initPcbs. */
    method PushFree(i: nat)
      requires Shape() && i < MAX_PROC && Ring(RingOf(0, FirstFree(i)))
      requires forall h :: 1 <= h < |head| ==> Ring([head[h]])
      modifies node, head
      ensures Ring(RingOf(0, FirstFree(i + 1)))
      ensures forall h :: 1 <= h < |head| ==> Ring([head[h]])
    {
      ghost var l := FirstFree(i);
      OffLoose(0, l, i as Pid);
      Neighbours(head[0], Nodes(l));
      RingNodes(0, l, head[0].next);
      NodesConcat([i as Pid], l);
      assert FirstFree(i + 1) == [i as Pid] + l && Nodes([i as Pid]) == [node[i]];
      forall h | 1 <= h < |head| ensures head[h] != head[0].next && head[h] != head[0] && head[h] != node[i] {
        OffList(h, [], 0, l);
        Alone(h);
        assert head[h] in RingOf(h, []);
        assert head[h] in head && node[i] in node;
      }
      ListAdd(node[i], head[0], Nodes(l));
      forall h | 1 <= h < |head| ensures Ring([head[h]]) {
        RingKept([head[h]]);
      }
    }

    /** insertProcQ: p leaves the list it is on, if any, and becomes the tail of list h. */
    method InsertProcQ(h: nat, p: Pid)
      requires Valid() && h < |head|
      modifies this`q, node, head
      ensures Valid() && q == Without(old(q), p)[h := Minus(old(q)[h], {p}) + [p]]
    {
      Leave(p);
      HeadNearby(q, h);
      AddLast(p, h, q);
      q := q[h := q[h] + [p]];
    }

    method Prepend(p: Pid)
      requires Valid() && OnNone(q, p)
      modifies this`q, node, head
      ensures Valid() && q == old(q)[0 := [p] + old(q)[0]]
    {
      HeadNearby(q, 0);
      AddFirst(p, 0, q);
      q := q[0 := [p] + q[0]];
    }

    /** freePcb. */
    method FreePcb(p: Pid)
      requires Valid()
      modifies this`q, node, head
      ensures Valid() && q == Without(old(q), p)[0 := [p] + Minus(old(q)[0], {p})]
    {
      NodeShows(p);
      if !ListEmpty(node[p]) {
        Leave(p);
      } else {
        LooseWithout(q, p);
      }
      Prepend(p);
    }

    function EmptyProcQ(h: nat): bool
      reads head
      requires h < |head|
    {
      ListEmpty(head[h])
    }

    /** headProcQ. */
    method HeadProcQ(h: nat) returns (r: Option<Pid>)
      requires Valid() && h < |head|
      ensures r == if q[h] == [] then None else Some(q[h][0])
    {
      HeadShows(h);
      if EmptyProcQ(h) {
        return None;
      }
      r := Some(head[h].next.entry as Pid);
    }

    /** removeProcQ; with h = 0 the list part of allocPcb. */
    method RemoveProcQ(h: nat) returns (r: Option<Pid>)
      requires Valid() && h < |head|
      modifies this`q, node, head
      ensures Valid()
      ensures r == if old(q)[h] == [] then None else Some(old(q)[h][0])
      ensures q == if old(q)[h] == [] then old(q) else old(q)[h := old(q)[h][1..]]
    {
      HeadShows(h);
      if EmptyProcQ(h) {
        return None;
      }
      var p := head[h].next.entry as Pid;
      NoDupQueue(h, q[h]);
      MinusHead(q[h]);
      TakeOff(p, h);
      r := Some(p);
    }

    /** outProcQ: the search walks list h until it meets p's node. */
    method OutProcQ(h: nat, p: Pid) returns (r: Option<Pid>)
      requires Valid() && h < |head|
      modifies this`q, node, head
      ensures Valid()
      ensures r == if p in old(q)[h] then Some(p) else None
      ensures q == if p in old(q)[h] then old(q)[h := Minus(old(q)[h], {p})] else old(q)
    {
      var present := Search(h, p, q[h]);
      if present {
        TakeOff(p, h);
        return Some(p);
      }
      return None;
    }

    /** The node list_for_each looks at after k steps over list h. */
    ghost function At(h: nat, l: seq<Pid>, k: nat): ListHead
      requires |node| == MAX_PROC && h < |head| && k <= |l|
    {
      if k < |l| then node[l[k]] else head[h]
    }

    lemma StepAlong(h: nat, l: seq<Pid>, k: nat)
      requires Shape() && h < |head| && Ring(RingOf(h, l)) && k <= |l|
      ensures k == 0 ==> head[h].next == At(h, l, 0)
      ensures k < |l| ==> node[l[k]].next == At(h, l, k + 1)
    {
      var s := RingOf(h, l);
      RingLinks(s, 0);
      if k < |l| {
        RingLinks(s, k + 1);
        assert s[k + 1] == node[l[k]];
        assert k + 2 < |s| ==> s[k + 2] == node[l[k + 1]];
      }
    }

    /** The two tests of the loop. */
    lemma Looked(h: nat, l: seq<Pid>, k: nat, p: Pid)
      requires Shape() && h < |head| && k <= |l|
      ensures At(h, l, k) == head[h] <==> k == |l|
      ensures At(h, l, k) == node[p] <==> k < |l| && l[k] == p
    {
      assert node[p] in node && head[h] in head;
      if k < |l| {
        assert node[l[k]] in node;
      }
    }

    /** The list_for_each loop of outProcQ. */
    method Search(h: nat, p: Pid, ghost l: seq<Pid>) returns (present: bool)
      requires Shape() && h < |head| && Ring(RingOf(h, l))
      ensures present <==> p in l
    {
      ghost var k: nat := 0;
      StepAlong(h, l, 0);
      var pos := head[h].next;
      while pos != head[h]
        invariant k <= |l| && pos == At(h, l, k)
        invariant forall j :: 0 <= j < k ==> l[j] != p
        decreases |l| - k
      {
        Looked(h, l, k, p);
        if pos == node[p] {
          return true;
        }
        StepAlong(h, l, k);
        pos := pos.next;
        k := k + 1;
      }
      Looked(h, l, k, p);
      return false;
    }
  }

  /** A list seen from one of its entries. */
  lemma SeenFromEntry(h: ListHead, a: seq<ListHead>, x: ListHead, b: seq<ListHead>)
    requires Ring([h] + (a + [x] + b))
    ensures Ring([x] + (b + [h] + a))
  {
    assert [h] + (a + [x] + b) == ([h] + a) + ([x] + b);
    Rotate([h] + a, [x] + b);
    assert [x] + b + ([h] + a) == [x] + (b + [h] + a);
  }

  lemma SeenFromHead(h: ListHead, a: seq<ListHead>, b: seq<ListHead>)
    requires Ring(b + [h] + a)
    ensures Ring([h] + (a + b))
  {
    assert b + [h] + a == b + ([h] + a);
    Rotate(b, [h] + a);
    assert [h] + a + b == [h] + (a + b);
  }
}

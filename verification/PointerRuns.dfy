/** Whole runs on the pointers: the list moves of every step of the machine, made one by one on the rings of the p_list
    nodes, keep the free list, the ready queue and the semaphore queues of the machine. */
module PointerRuns {
  import opened Basics
  import opened Addresses
  import opened SemQueues
  import opened Rows
  import opened Lists
  import opened ProcQueues
  import opened Machine
  import opened Runs
  import opened ListMoves
  import opened SharedQueues

  // ---- a spare descriptor

  ghost function RowsTo(n: nat): (r: set<nat>)
    ensures |r| == n && forall h :: h in r <==> 2 <= h < n + 2
  {
    if n == 0 then {} else RowsTo(n - 1) + {n + 1}
  }

  lemma RowTaken(q: seq<seq<Pid>>, row: map<Sem, nat>, queue: Queues, c: Pid, h: nat)
    requires |q| == ROWS && row.Keys == queue.Keys && Serves(q, row, queue) && !Vacant(row, h)
    requires NoneEmpty(queue) && Unblocked(queue, c)
    ensures 2 <= h < ROWS && q[h] != [] && c !in q[h]
  {
    var k :| k in row && row[k] == h;
  }

  ghost function Heads(q: seq<seq<Pid>>, x: set<nat>): (r: map<nat, Pid>)
    requires forall h :: h in x ==> h < |q| && q[h] != []
    ensures r.Keys == x && forall h :: h in x ==> r[h] == q[h][0]
  {
    map h | h in x :: q[h][0]
  }

  lemma HeadsDiffer(q: seq<seq<Pid>>, g: nat, h: nat)
    requires Separate(q) && g < |q| && h < |q| && g != h && q[g] != [] && q[h] != []
    ensures q[g][0] != q[h][0]
  {
    assert Disjoint(q[g], q[h]) && q[g][0] in q[g];
  }

  lemma FewerHeads(f: map<nat, Pid>, c: Pid)
    requires forall h :: h in f ==> f[h] != c
    requires forall g, h :: g in f && h in f && f[g] == f[h] ==> g == h
    ensures |f.Keys| < MAX_PROC
  {
    InjectionCard(f, AllPids() - {c});
    assert |f| == |f.Keys|;
  }

  lemma FewerRows(q: seq<seq<Pid>>, x: set<nat>, c: Pid)
    requires Separate(q) && forall h :: h in x ==> h < |q| && q[h] != [] && c !in q[h]
    ensures |x| < MAX_PROC
  {
    var f := Heads(q, x);
    forall h | h in f ensures f[h] != c {
      assert q[h][0] in q[h];
    }
    forall g, h | g in f && h in f && g != h ensures f[g] != f[h] {
      HeadsDiffer(q, g, h);
    }
    FewerHeads(f, c);
  }

  /** There is a descriptor for a process that is on no semaphore queue: fewer rows are in use than there are
      processes. */
  lemma SpareRow(q: seq<seq<Pid>>, row: map<Sem, nat>, queue: Queues, c: Pid)
    requires |q| == ROWS && row.Keys == queue.Keys && Serves(q, row, queue) && Separate(q)
    requires NoneEmpty(queue) && Unblocked(queue, c)
    ensures exists h :: 2 <= h < ROWS && Vacant(row, h)
  {
    if forall h :: 2 <= h < ROWS ==> !Vacant(row, h) {
      forall h | h in RowsTo(MAX_PROC) ensures h < |q| && q[h] != [] && c !in q[h] {
        RowTaken(q, row, queue, c, h);
      }
      FewerRows(q, RowsTo(MAX_PROC), c);
      assert false;
    }
  }

  // ---- making moves

  lemma OnNoRow(q: seq<seq<Pid>>, row: map<Sem, nat>, l: Roster, p: Pid)
    requires Agree(q, row, l.free, l.ready, l.queue) && Unblocked(l.queue, p) && p !in l.free && p !in l.ready
    ensures OnNone(q, p)
  {
    forall h | 0 <= h < |q| ensures p !in q[h] {
      if 2 <= h && !Vacant(row, h) {
        var k :| k in row && row[k] == h;
        assert q[h] == l.queue[k];
      }
    }
  }

  ghost predicate Shows(r: KernelLists, l: Roster)
    reads r, r.lists, r.lists.node, r.lists.head
  {
    r.Show(l.free, l.ready, l.queue)
  }

  /** The descriptor for a process to block on k: that of k, or a free one. */
  method FindRow(r: KernelLists, ghost l: Roster, k: Sem, c: Pid) returns (h: nat)
    requires Shows(r, l) && NoneEmpty(l.queue) && Unblocked(l.queue, c)
    ensures 2 <= h < ROWS && if k in r.row then h == r.row[k] else Vacant(r.row, h)
  {
    if k in r.row {
      return r.row[k];
    }
    SpareRow(r.lists.q, r.row, l.queue, c);
    h :| 2 <= h < ROWS && Vacant(r.row, h);
  }

  method MakeBlock(r: KernelLists, ghost l: Roster, k: Sem, c: Pid)
    requires Shows(r, l) && Allowed(l, Block(k, c))
    modifies r`row, r.lists`q, r.lists.node, r.lists.head
    ensures Shows(r, Moved(l, Block(k, c)))
  {
    var h := FindRow(r, l, k, c);
    r.Block(l.free, l.ready, l.queue, k, c, h);
  }

  method MakeLine(r: KernelLists, ghost l: Roster, p: Pid)
    requires Shows(r, l) && Allowed(l, Line(p))
    modifies r.lists`q, r.lists.node, r.lists.head
    ensures Shows(r, Moved(l, Line(p)))
  {
    OnNoRow(r.lists.q, r.row, l, p);
    r.MakeReady(l.free, l.ready, l.queue, p);
  }

  method Make(r: KernelLists, ghost l: Roster, m: Move)
    requires Shows(r, l) && Allowed(l, m)
    modifies r`row, r.lists`q, r.lists.node, r.lists.head
    ensures Shows(r, Moved(l, m))
  {
    match m
    case Take => var _ := r.Dispatch(l.free, l.ready, l.queue);
    case Line(p) => MakeLine(r, l, p);
    case Block(k, p) => MakeBlock(r, l, k, p);
    case Wake(k) => var _ := r.Wake(l.free, l.ready, l.queue, k);
    case Pluck(k, p) => r.Out(l.free, l.ready, l.queue, k, p);
    case Alloc => var _ := r.Alloc(l.free, l.ready, l.queue);
    case Free(p) => r.Free(l.free, l.ready, l.queue, p);
  }

  /** Moves one after the other. */
  method MakeAll(r: KernelLists, ghost l: Roster, moves: seq<Move>, ghost t: Roster)
    requires Shows(r, l) && Leads(l, moves, t)
    modifies r`row, r.lists`q, r.lists.node, r.lists.head
    ensures Shows(r, t)
  {
    ghost var now := l;
    var i := 0;
    while i < |moves|
      invariant 0 <= i <= |moves| && Shows(r, now) && Leads(now, moves[i..], t)
    {
      Make(r, now, moves[i]);
      assert moves[i..][1..] == moves[i + 1..];
      now := Moved(now, moves[i]);
      i := i + 1;
    }
  }

  // ---- from the first node on

  /** A field of fresh nodes, the i-th of which is embedded in structure i. */
  method NewNodes(n: nat) returns (s: seq<ListHead>)
    ensures |s| == n && NoDup(s) && fresh(s) && forall i :: 0 <= i < n ==> s[i].entry == i
  {
    s := [];
    while |s| < n
      invariant |s| <= n && NoDup(s) && fresh(s) && forall i :: 0 <= i < |s| ==> s[i].entry == i
    {
      var x := new ListHead(|s|);
      s := s + [x];
    }
  }

  /** INIT_LIST_HEAD on each head. */
  method InitHeads(head: seq<ListHead>)
    requires NoDup(head)
    modifies head
    ensures forall h :: 0 <= h < |head| ==> Ring([head[h]])
  {
    var i := 0;
    while i < |head|
      invariant 0 <= i <= |head| && forall h :: 0 <= h < i ==> Ring([head[h]])
    {
      InitListHead(head[i]);
      i := i + 1;
    }
  }

  /** pcbFree_table, the queue heads, and initPcbs. */
  method Tables() returns (lists: ProcLists)
    ensures fresh(lists) && fresh(lists.node) && fresh(lists.head) && lists.Valid()
    ensures lists.q == [FirstFree(MAX_PROC)] + seq(ROWS - 1, h => [])
  {
    var node := NewNodes(MAX_PROC);
    var head := NewNodes(ROWS);
    InitHeads(head);
    lists := new ProcLists(node, head);
    lists.InitPcbs();
  }

  /** allocPcb and insertProcQ for the first process. */
  lemma LaunchLists(pool: seq<Pid>, val: map<Sem, int>)
    requires pool != [] && NoDup(pool)
    ensures Leads(Roster(pool, [], map[]), [Alloc, Line(pool[0])], RosterOf(Machine.Launch(pool, val)))
  {
    TwoMoves(Roster(pool, [], map[]), Alloc, Line(pool[0]));
  }

  lemma PoolInOrder()
    ensures FirstFree(MAX_PROC) == InitialPool() && NoDup(InitialPool()) && InitialPool()[0] == 19
  {
  }

  method StartLists(words: map<u32, int>) returns (r: KernelLists)
    ensures fresh(r) && fresh(r.lists) && fresh(r.lists.node) && fresh(r.lists.head)
    ensures Shows(r, RosterOf(Boot(words)))
  {
    var lists := Tables();
    r := new KernelLists(lists);
    PoolInOrder();
    LaunchLists(InitialPool(), BootVals(words));
    MakeAll(r, Roster(InitialPool(), [], map[]), [Alloc, Line(19)], RosterOf(Boot(words)));
  }

  /** From fresh nodes through any run of the machine: its list moves are made on the rings, and in the end these hold
      the free list, the ready queue and the semaphore queues of the state it ends in. */
  method Run(words: map<u32, int>, steps: seq<Step>) returns (r: KernelLists)
    requires IsRun(Boot(words), steps)
    ensures fresh(r) && Shows(r, RosterOf(After(Boot(words), steps)))
  {
    r := StartLists(words);
    BootInv(words);
    RunLists(Boot(words), steps);
    MakeAll(r, RosterOf(Boot(words)), RunMoves(Boot(words), steps), RosterOf(After(Boot(words), steps)));
  }
}

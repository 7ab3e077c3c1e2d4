/** The kernel's lists on their shared link fields: the free list, the ready queue and the queues of the semaphore
    descriptors are rings through the p_list nodes, and each move of the machine is one operation on the rings. */
module SharedQueues {
  import opened Basics
  import opened Addresses
  import opened SemQueues
  import opened Rows
  import opened ProcQueues
  import opened ListMoves

  const FREE: nat := 0
  const READY: nat := 1
  const ROWS: nat := 2 + MAX_PROC

  /** Row 0 is the free list, row 1 the ready queue, and each active semaphore has one of the other rows, the s_procq of
      its descriptor; the rows of free descriptors are empty. */
  ghost predicate Agree(q: seq<seq<Pid>>, row: map<Sem, nat>, free: seq<Pid>, ready: seq<Pid>, queue: Queues) {
    && |q| == ROWS && q[FREE] == free && q[READY] == ready
    && row.Keys == queue.Keys && Serves(q, row, queue) && Injective(row) && Spare(q, row)
  }

  ghost predicate Serves(q: seq<seq<Pid>>, row: map<Sem, nat>, queue: Queues)
    requires |q| == ROWS && row.Keys == queue.Keys
  {
    forall k :: k in row ==> 2 <= row[k] < ROWS && q[row[k]] == queue[k]
  }

  ghost predicate Injective(row: map<Sem, nat>) {
    forall k, m :: k in row && m in row && row[k] == row[m] ==> k == m
  }

  ghost predicate Spare(q: seq<seq<Pid>>, row: map<Sem, nat>)
    requires |q| == ROWS
  {
    forall h :: 2 <= h < ROWS && Vacant(row, h) ==> q[h] == []
  }

  /** Row h belongs to no active semaphore. */
  predicate Vacant(row: map<Sem, nat>, h: nat) {
    forall k :: k in row ==> row[k] != h
  }

  lemma RowsUnblocked(q: seq<seq<Pid>>, row: map<Sem, nat>, free: seq<Pid>, ready: seq<Pid>, queue: Queues, c: Pid)
    requires Agree(q, row, free, ready, queue) && Unblocked(queue, c)
    ensures forall h :: 2 <= h < ROWS ==> Minus(q[h], {c}) == q[h]
  {
    forall h | 2 <= h < ROWS ensures Minus(q[h], {c}) == q[h] {
      if !Vacant(row, h) {
        var k :| k in row && row[k] == h;
        MinusNothing(queue[k], {c});
      }
    }
  }

  /** c leaves its row, if it is on one, and becomes the last of row h. */
  ghost function MovedTo(q: seq<seq<Pid>>, h: nat, c: Pid): seq<seq<Pid>>
    requires h < |q|
  {
    Without(q, c)[h := Minus(q[h], {c}) + [c]]
  }

  /** What AgreeInsert does to the rows. */
  ghost predicate RowsMoved(q: seq<seq<Pid>>, q': seq<seq<Pid>>, h: nat, c: Pid) {
    |q| == ROWS && |q'| == ROWS && 2 <= h < ROWS && q'[h] == q[h] + [c]
    && q'[FREE] == Minus(q[FREE], {c}) && q'[READY] == Minus(q[READY], {c})
    && forall g :: 2 <= g < ROWS && g != h ==> q'[g] == q[g]
  }

  lemma InsertServes(q: seq<seq<Pid>>, q': seq<seq<Pid>>, row: map<Sem, nat>, queue: Queues, k: Sem, h: nat, c: Pid)
    requires RowsMoved(q, q', h, c) && row.Keys == queue.Keys
    requires Serves(q, row, queue) && Injective(row) && Spare(q, row)
    requires if k in row then h == row[k] else Vacant(row, h)
    ensures Serves(q', row[k := h], queue[k := Get(queue, k) + [c]]) && Injective(row[k := h])
  {
    assert q[h] == Get(queue, k);
  }

  lemma InsertSpare(q: seq<seq<Pid>>, q': seq<seq<Pid>>, row: map<Sem, nat>, k: Sem, h: nat, c: Pid)
    requires RowsMoved(q, q', h, c) && Spare(q, row) && (k in row ==> row[k] == h)
    ensures Spare(q', row[k := h])
  {
    forall g | 2 <= g < ROWS && Vacant(row[k := h], g) ensures q'[g] == [] {
      VacantLess(row, k, h, g);
    }
  }

  lemma AgreeInsert(q: seq<seq<Pid>>, row: map<Sem, nat>, free: seq<Pid>, ready: seq<Pid>, queue: Queues,
                    k: Sem, h: nat, c: Pid)
    requires Agree(q, row, free, ready, queue) && Unblocked(queue, c) && 2 <= h < ROWS
    requires if k in row then h == row[k] else Vacant(row, h)
    ensures Agree(MovedTo(q, h, c), row[k := h], Minus(free, {c}), Minus(ready, {c}), queue[k := Get(queue, k) + [c]])
  {
    var q' := MovedTo(q, h, c);
    RowsUnblocked(q, row, free, ready, queue, c);
    assert RowsMoved(q, q', h, c);
    InsertServes(q, q', row, queue, k, h, c);
    InsertSpare(q, q', row, k, h, c);
  }

  lemma VacantLess(row: map<Sem, nat>, k: Sem, h: nat, g: nat)
    requires Vacant(row[k := h], g) && (k in row ==> row[k] == h)
    ensures Vacant(row, g) && g != h
  {
    var r := row[k := h];
    assert r[k] == h;
    forall m | m in row ensures row[m] != g {
      assert r[m] != g;
    }
  }

  /** Another list on the free list or the ready queue. */
  lemma AgreeOther(q: seq<seq<Pid>>, row: map<Sem, nat>, free: seq<Pid>, ready: seq<Pid>, queue: Queues,
                   free': seq<Pid>, ready': seq<Pid>)
    requires Agree(q, row, free, ready, queue)
    ensures Agree(q[FREE := free'][READY := ready'], row, free', ready', queue)
  {
  }

  lemma AgreeReady(q: seq<seq<Pid>>, row: map<Sem, nat>, free: seq<Pid>, ready: seq<Pid>, queue: Queues, p: Pid)
    requires Agree(q, row, free, ready, queue) && OnNone(q, p)
    ensures Agree(Without(q, p)[READY := Minus(q[READY], {p}) + [p]], row, free, ready + [p], queue)
  {
    LooseWithout(q, p);
    MinusNothing(q[READY], {p});
  }

  lemma AgreeFree(q: seq<seq<Pid>>, row: map<Sem, nat>, free: seq<Pid>, ready: seq<Pid>, queue: Queues, p: Pid)
    requires Agree(q, row, free, ready, queue) && Unblocked(queue, p)
    ensures Agree(Without(q, p)[FREE := [p] + Minus(q[FREE], {p})], row, [p] + Minus(free, {p}), Minus(ready, {p}),
                  queue)
  {
    RowsUnblocked(q, row, free, ready, queue, p);
  }

  ghost function TakenOff(q: seq<seq<Pid>>, h: nat, p: Pid): seq<seq<Pid>>
    requires h < |q|
  {
    q[h := Minus(q[h], {p})]
  }

  /** The rows after p has left the queue of k; an emptied row is given back. */
  function Left(row: map<Sem, nat>, queue: Queues, k: Sem, p: Pid): map<Sem, nat>
    requires k in queue
  {
    if Minus(queue[k], {p}) == [] then row - {k} else row
  }

  lemma AgreeRemove(q: seq<seq<Pid>>, row: map<Sem, nat>, free: seq<Pid>, ready: seq<Pid>, queue: Queues,
                    k: Sem, p: Pid)
    requires Agree(q, row, free, ready, queue) && k in row
    ensures Agree(TakenOff(q, row[k], p), Left(row, queue, k, p), free, ready,
                  Put(queue, k, Minus(Get(queue, k), {p})))
  {
    var l := Minus(queue[k], {p});
    var q', row' := TakenOff(q, row[k], p), Left(row, queue, k, p);
    forall g | 2 <= g < ROWS && Vacant(row', g) ensures q'[g] == [] {
      if g != row[k] {
        assert Vacant(row, g) by {
          forall m | m in row ensures row[m] != g {
            assert m != k ==> row'[m] != g;
          }
        }
      }
    }
  }

  class KernelLists {
    const lists: ProcLists
    /** The row of each active semaphore: what find_sem finds. */
    var row: map<Sem, nat>

    /** The rings hold these lists. */
    ghost predicate Show(free: seq<Pid>, ready: seq<Pid>, queue: Queues)
      reads this, lists, lists.node, lists.head
    {
      lists.Valid() && Agree(lists.q, row, free, ready, queue)
    }

    constructor (lists: ProcLists)
      requires lists.Valid() && |lists.q| == ROWS && forall h :: 1 <= h < ROWS ==> lists.q[h] == []
      ensures this.lists == lists && Show(lists.q[FREE], [], map[])
    {
      this.lists := lists;
      row := map[];
    }

    /** removeProcQ in scheduler(). */
    method Dispatch(ghost free: seq<Pid>, ghost ready: seq<Pid>, ghost queue: Queues) returns (p: Pid)
      requires Show(free, ready, queue) && ready != []
      modifies lists`q, lists.node, lists.head
      ensures p == ready[0] && Show(free, ready[1..], queue)
    {
      AgreeOther(lists.q, row, free, ready, queue, free, ready[1..]);
      assert lists.q[FREE := free] == lists.q;
      var r := lists.RemoveProcQ(READY);
      p := r.value;
    }

    /** insertProcQ(&g_ready_queue, p) for a process that has just left its queue, or was running. */
    method MakeReady(ghost free: seq<Pid>, ghost ready: seq<Pid>, ghost queue: Queues, p: Pid)
      requires Show(free, ready, queue) && OnNone(lists.q, p)
      modifies lists`q, lists.node, lists.head
      ensures Show(free, ready + [p], queue)
    {
      AgreeReady(lists.q, row, free, ready, queue, p);
      lists.InsertProcQ(READY, p);
    }

    /** insertBlocked(k, c): c leaves the free list or the ready queue, if it is on one of them, and joins the queue of
        k. Row h is that of the descriptor alloc_semd returns when k has none. */
    method Block(ghost free: seq<Pid>, ghost ready: seq<Pid>, ghost queue: Queues, k: Sem, c: Pid, h: nat)
      requires Show(free, ready, queue) && Unblocked(queue, c) && 2 <= h < ROWS
      requires k in row ==> h == row[k]
      requires k !in row ==> Vacant(row, h)
      modifies this`row, lists`q, lists.node, lists.head
      ensures Show(Minus(free, {c}), Minus(ready, {c}), queue[k := Get(queue, k) + [c]])
    {
      Move(h, c);
      AgreeInsert(old(lists.q), row, free, ready, queue, k, h, c);
      row := row[k := h];
    }

    /** insertProcQ on the queue of a descriptor. */
    method Move(h: nat, c: Pid)
      requires lists.Valid() && h < |lists.q|
      modifies lists`q, lists.node, lists.head
      ensures lists.Valid() && lists.q == MovedTo(old(lists.q), h, c)
    {
      lists.InsertProcQ(h, c);
    }

    /** The queue moves of removeBlocked(k). */
    method Wake(ghost free: seq<Pid>, ghost ready: seq<Pid>, ghost queue: Queues, k: Sem) returns (p: Pid)
      requires Show(free, ready, queue) && k in queue && queue[k] != [] && NoDup(queue[k])
      modifies this`row, lists`q, lists.node, lists.head
      ensures p == queue[k][0] && OnNone(lists.q, p)
      ensures Show(free, ready, Put(queue, k, queue[k][1..]))
    {
      p := Pop(row[k]);
      MinusHead(queue[k]);
      AgreeRemove(old(lists.q), row, free, ready, queue, k, p);
      GiveBack(k);
    }

    /** removeProcQ on the queue of a descriptor. */
    method Pop(h: nat) returns (p: Pid)
      requires lists.Valid() && h < |lists.q| && lists.q[h] != [] && NoDup(lists.q[h])
      modifies lists`q, lists.node, lists.head
      ensures lists.Valid() && p == old(lists.q)[h][0] && lists.q == TakenOff(old(lists.q), h, p)
      ensures OnNone(lists.q, p)
    {
      MinusHead(lists.q[h]);
      GoneFrom(lists.q, h, lists.q[h][0]);
      var r := lists.RemoveProcQ(h);
      p := r.value;
    }

    /** The queue moves of outBlocked(p), p being queued on k. */
    method Out(ghost free: seq<Pid>, ghost ready: seq<Pid>, ghost queue: Queues, k: Sem, p: Pid)
      requires Show(free, ready, queue) && k in queue && p in queue[k]
      modifies this`row, lists`q, lists.node, lists.head
      ensures Show(free, ready, Put(queue, k, Minus(queue[k], {p}))) && OnNone(lists.q, p)
    {
      Pluck(row[k], p);
      AgreeRemove(old(lists.q), row, free, ready, queue, k, p);
      GiveBack(k);
    }

    /** outProcQ on the queue of a descriptor. */
    method Pluck(h: nat, p: Pid)
      requires lists.Valid() && h < |lists.q| && p in lists.q[h]
      modifies lists`q, lists.node, lists.head
      ensures lists.Valid() && lists.q == TakenOff(old(lists.q), h, p) && OnNone(lists.q, p)
    {
      GoneFrom(lists.q, h, p);
      var _ := lists.OutProcQ(h, p);
    }

    /** free_semd_ifempty. */
    method GiveBack(k: Sem)
      requires lists.Valid() && k in row && row[k] < |lists.q|
      modifies this`row
      ensures row == if lists.q[old(row)[k]] == [] then old(row) - {k} else old(row)
    {
      lists.HeadShows(row[k]);
      if lists.EmptyProcQ(row[k]) {
        row := row - {k};
      }
    }

    /** freePcb at the end of terminateProcess: p leaves the ready queue, or its place on the free list, if it is on one
        of them. */
    method Free(ghost free: seq<Pid>, ghost ready: seq<Pid>, ghost queue: Queues, p: Pid)
      requires Show(free, ready, queue) && Unblocked(queue, p)
      modifies lists`q, lists.node, lists.head
      ensures Show([p] + Minus(free, {p}), Minus(ready, {p}), queue)
    {
      AgreeFree(lists.q, row, free, ready, queue, p);
      lists.FreePcb(p);
    }

    /** The list part of allocPcb. */
    method Alloc(ghost free: seq<Pid>, ghost ready: seq<Pid>, ghost queue: Queues) returns (p: Pid)
      requires Show(free, ready, queue) && free != [] && NoDup(free)
      modifies lists`q, lists.node, lists.head
      ensures p == free[0] && Show(free[1..], ready, queue) && OnNone(lists.q, p)
    {
      AgreeOther(lists.q, row, free, ready, queue, free[1..], ready);
      assert lists.q[FREE := free[1..]][READY := ready] == lists.q[FREE := free[1..]];
      MinusHead(free);
      p := Pop(FREE);
    }
  }

  lemma GoneFrom(q: seq<seq<Pid>>, h: nat, p: Pid)
    requires Separate(q) && h < |q| && p in q[h]
    ensures OnNone(TakenOff(q, h, p), p)
  {
    var r := TakenOff(q, h, p);
    forall g | 0 <= g < |r| ensures p !in r[g] {
      if g != h {
        assert Disjoint(q[h], q[g]);
      }
    }
  }
}

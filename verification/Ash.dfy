/** The Active Semaphore Hash (phase1/semaphore.c): a hash index over a fixed pool of descriptors.

    Lists are sequences here; the pointer surgery beneath them is in Lists, ProcQueues and HashLists. */
module Ash {
  import opened Basics
  import opened Addresses
  import opened Hashing
  import opened SemQueues

  const HASH_BITS := 5
  const BUCKETS := 32

  /** A descriptor is named by its index in semd_table. */
  newtype Slot = i: int | 0 <= i < MAX_PROC

  datatype Semd = Semd(key: Option<Sem>, procq: seq<Pid>)

  /** p_semAdd is k exactly for the processes queued on k, and none is queued twice. */
  ghost predicate Agree(q: Queues, semAdd: map<Pid, Sem>) {
    && (forall k, p :: k in q && p in q[k] ==> p in semAdd && semAdd[p] == k)
    && (forall p :: p in semAdd ==> semAdd[p] in q && p in q[semAdd[p]])
    && (forall k :: k in q ==> NoDup(q[k]))
  }

  /** q without p; a queue may become empty. */
  function Without(q: Queues, p: Pid): Queues {
    map k | k in q :: Minus(q[k], {p})
  }

  // ---- the index

  function BucketOf(at: Layout, k: Sem): (b: nat)
    requires at.Valid()
    ensures b < BUCKETS
  {
    HashInRange(at.Addr(k), HASH_BITS);
    Hash32(at.Addr(k), HASH_BITS)
  }

  /** Active semaphores and active descriptors correspond one to one. */
  ghost predicate Inverse(index: map<Sem, Slot>, owner: map<Slot, Sem>) {
    && (forall k :: k in index ==> index[k] in owner && owner[index[k]] == k)
    && (forall i :: i in owner ==> owner[i] in index && index[owner[i]] == i)
  }

  ghost predicate Keyed(at: Layout, table: seq<Semd>, owner: map<Slot, Sem>) {
    |table| == MAX_PROC && forall i :: i in owner ==> table[i].key == Some(owner[i]) && at.Names(owner[i])
  }

  /** Each active descriptor is in the bucket of its key, and nothing else is in a bucket. */
  ghost predicate Hashed(at: Layout, bucket: seq<seq<Slot>>, owner: map<Slot, Sem>)
    requires at.Valid()
  {
    && |bucket| == BUCKETS
    && (forall b :: 0 <= b < BUCKETS ==> NoDup(bucket[b]))
    && (forall b, i :: 0 <= b < BUCKETS && i in bucket[b] ==> i in owner && BucketOf(at, owner[i]) == b)
    && (forall i :: i in owner ==> i in bucket[BucketOf(at, owner[i])])
  }

  /** The free list holds the other descriptors. */
  ghost predicate Pooled(free: seq<Slot>, owner: map<Slot, Sem>) {
    NoDup(free) && forall i: Slot :: i in free <==> i !in owner
  }

  ghost predicate WellIndexed(at: Layout, table: seq<Semd>, free: seq<Slot>, bucket: seq<seq<Slot>>,
                              index: map<Sem, Slot>, owner: map<Slot, Sem>) {
    && at.Valid()
    && Inverse(index, owner) && Keyed(at, table, owner) && Hashed(at, bucket, owner) && Pooled(free, owner)
  }

  function ViewOf(table: seq<Semd>, index: map<Sem, Slot>): Queues
    requires |table| == MAX_PROC
  {
    map k | k in index :: table[index[k]].procq
  }

  class SemaphoreHash {
    const at: Layout
    var table: seq<Semd>         // semd_table
    var free: seq<Slot>          // semdFree_h
    var bucket: seq<seq<Slot>>   // semd_h
    var semAdd: map<Pid, Sem>    // p_semAdd of each PCB; absent means NULL
    ghost var index: map<Sem, Slot>
    ghost var owner: map<Slot, Sem>
    ghost var queues: Queues     // what the index stands for

    ghost predicate Indexed()
      reads this
    {
      WellIndexed(at, table, free, bucket, index, owner)
    }

    ghost function View(): Queues
      reads this
      requires |table| == MAX_PROC
    {
      ViewOf(table, index)
    }

    ghost predicate Valid()
      reads this
    {
      Indexed() && queues == View() && Agree(queues, semAdd)
    }

    lemma WaitersNamed(p: Pid)
      requires Valid() && p in semAdd
      ensures at.Names(semAdd[p])
    {
      assert semAdd[p] in View();
    }

    /** initASH: list_add puts every descriptor on the free list, the last one first. */
    constructor (layout: Layout)
      requires layout.Valid()
      ensures Valid() && queues == map[] && semAdd == map[] && at == layout
      ensures |free| == MAX_PROC && forall j :: 0 <= j < MAX_PROC ==> free[j] as int == MAX_PROC - 1 - j
    {
      at := layout;
      table := seq(MAX_PROC, _ => Semd(None, []));
      bucket := seq(BUCKETS, _ => []);
      semAdd, index, owner, queues := map[], map[], map[], map[];
      free := [];
      new;
      var i := 0;
      while i < MAX_PROC
        invariant 0 <= i <= MAX_PROC && |free| == i
        invariant forall j :: 0 <= j < i ==> free[j] as int == i - 1 - j
        invariant |table| == MAX_PROC && |bucket| == BUCKETS && at == layout
        invariant index == map[] && owner == map[] && semAdd == map[] && queues == map[]
        invariant forall b :: 0 <= b < BUCKETS ==> bucket[b] == []
      {
        free := [i as Slot] + free;
        i := i + 1;
      }
      forall s: Slot ensures s in free {
        assert free[MAX_PROC - 1 - s as int] == s;
      }
    }

    /** find_sem: walks the bucket of k and compares keys, so colliding keys are told apart. */
    method FindSem(k: Sem) returns (r: Option<Slot>)
      requires Indexed() && at.Names(k)
      ensures r.Some? <==> k in index
      ensures r.Some? ==> r.value == index[k]
    {
      var l := bucket[BucketOf(at, k)];
      var n := 0;
      while n < |l|
        invariant 0 <= n <= |l|
        invariant k in index ==> index[k] !in l[..n]
      {
        var i := l[n];
        assert i in l;
        AddrInjective(at, table[i].key.value, k);
        if at.Addr(table[i].key.value) == at.Addr(k) {
          return Some(i);
        }
        n := n + 1;
      }
      return None;
    }

    /** alloc_semd followed by the assignments of insertBlocked: a descriptor for k, in its bucket. */
    method Activate(k: Sem) returns (r: Option<Slot>)
      requires Indexed() && at.Names(k) && k !in index
      modifies this
      ensures Indexed() && semAdd == old(semAdd)
      ensures r.None? <==> old(free) == []
      ensures r.None? ==> View() == old(View()) && index == old(index) && free == old(free)
      ensures r.Some? ==> View() == old(View())[k := []] && index == old(index)[k := r.value]
      ensures r.Some? ==> old(free) == [r.value] + free
      ensures r.Some? ==> var b := Hash32(at.Addr(k), HASH_BITS);
        b < BUCKETS == |old(bucket)| && bucket == old(bucket)[b := [r.value] + old(bucket)[b]]
    {
      if free == [] {
        return None;
      }
      var i := free[0];
      var b := BucketOf(at, k);
      Activated(at, table, free, bucket, index, owner, k);
      free := free[1..];
      table := table[i := Semd(Some(k), [])];
      bucket := bucket[b := [i] + bucket[b]];
      index, owner := index[k := i], owner[i := k];
      return Some(i);
    }

    /** hash_del, and back to the free list. */
    method Recycle(i: Slot)
      requires Indexed() && i in owner
      modifies this`bucket, this`free, this`index, this`owner
      ensures Indexed()
      ensures View() == old(View()) - {old(owner)[i]} && free == [i] + old(free)
    {
      ghost var k := owner[i];
      Deactivated(at, table, free, bucket, index, owner, i);
      var b := BucketOf(at, table[i].key.value);
      bucket := bucket[b := Minus(bucket[b], {i})];
      free := [i] + free;
      index, owner := index - {k}, owner - {i};
    }

    /** free_semd_ifempty. */
    method FreeIfEmpty(i: Slot)
      requires Indexed() && i in owner
      modifies this`bucket, this`free, this`index, this`owner
      ensures Indexed()
      ensures View() == if table[i].procq == [] then old(View()) - {old(owner)[i]} else old(View())
      ensures free == if table[i].procq == [] then [i] + old(free) else old(free)
    {
      if table[i].procq == [] {
        Recycle(i);
      }
    }

    /** list_del on p_list: p leaves the queue that holds it. */
    method Unlink(p: Pid)
      requires Indexed()
      modifies this`table
      ensures Indexed()
      ensures View() == Without(old(View()), p)
    {
      var t := table;
      table := seq(|t|, i requires 0 <= i < |t| => Semd(t[i].key, Minus(t[i].procq, {p})));
    }

    /** A new list for an active descriptor. */
    method SetQueue(i: Slot, q: seq<Pid>)
      requires Indexed() && i in owner
      modifies this`table
      ensures Indexed() && table[i].procq == q
      ensures View() == old(View())[owner[i] := q]
    {
      table := table[i := table[i].(procq := q)];
    }

    /** The descriptor of k, allocated if there is none. */
    method Obtain(k: Sem) returns (sem: Option<Slot>)
      requires Indexed() && at.Names(k)
      modifies this
      ensures Indexed() && semAdd == old(semAdd)
      ensures sem.None? <==> k !in old(View()) && old(free) == []
      ensures sem.None? ==> View() == old(View())
      ensures sem.Some? ==> k in index && sem.value == index[k]
      ensures sem.Some? ==> View() == Opened(old(View()), k)
    {
      sem := FindSem(k);
      if sem.None? {
        sem := Activate(k);
      }
    }

    /** p moves to the end of a descriptor's queue. */
    method Append(i: Slot, ghost k: Sem, p: Pid)
      requires Indexed() && k in index && index[k] == i
      modifies this`table
      ensures Indexed()
      ensures k in old(View()) && View() == Appended(old(View()), k, p)
    {
      Unlink(p);
      SetQueue(i, table[i].procq + [p]);
    }

    /** A descriptor gets a new queue, and is recycled if that is empty. */
    method Shorten(i: Slot, ghost k: Sem, q: seq<Pid>)
      requires Indexed() && k in index && index[k] == i
      modifies this`table, this`bucket, this`free, this`index, this`owner
      ensures Indexed()
      ensures View() == Put(old(View()), k, q)
    {
      Shortened(View(), k, q);
      SetQueue(i, q);
      FreeIfEmpty(i);
    }

    method Enqueue(k: Sem, p: Pid) returns (failed: bool)
      requires Indexed() && at.Names(k)
      modifies this
      ensures Indexed()
      ensures failed <==> k !in old(View()) && old(free) == []
      ensures failed ==> View() == old(View()) && semAdd == old(semAdd)
      ensures !failed ==> View() == Inserted(old(View()), k, p) && semAdd == old(semAdd)[p := k]
    {
      InsertedView(View(), k, p);
      var sem := Obtain(k);
      if sem.None? {
        return true;
      }
      Append(sem.value, k, p);
      semAdd := semAdd[p := k];
      return false;
    }

    /** insertBlocked: p joins the queue of k, wherever it was before; fails when k needs a descriptor and the pool is
        exhausted. */
    method InsertBlocked(k: Sem, p: Pid) returns (failed: bool)
      requires Valid() && at.Names(k)
      modifies this
      ensures Valid()
      ensures failed <==> k !in old(queues) && old(free) == []
      ensures failed ==> queues == old(queues) && semAdd == old(semAdd)
      ensures !failed ==> queues == Inserted(old(queues), k, p) && semAdd == old(semAdd)[p := k]
      ensures !failed ==> forall m ::
        Get(queues, m) == Minus(Get(old(queues), m), {p}) + if m == k then [p] else []
    {
      InsertedGet(queues, k, p);
      AgreeInsert(queues, semAdd, k, p);
      failed := Enqueue(k, p);
      queues := View();
    }

    method PopHead(k: Sem) returns (r: Option<Pid>)
      requires Indexed() && at.Names(k)
      modifies this
      ensures Indexed()
      ensures r.None? ==> Get(old(View()), k) == [] && View() == old(View()) && semAdd == old(semAdd)
      ensures r.Some? ==> var q := Get(old(View()), k);
        q != [] && r.value == q[0] && View() == Put(old(View()), k, q[1..]) && semAdd == old(semAdd) - {q[0]}
    {
      var sem := FindSem(k);
      if sem.None? {
        return None;
      }
      var q := table[sem.value].procq;
      if q == [] {
        return None;
      }
      semAdd := semAdd - {q[0]};
      Shorten(sem.value, k, q[1..]);
      return Some(q[0]);
    }

    /** removeBlocked: pops the head of k's queue. */
    method RemoveBlocked(k: Sem) returns (r: Option<Pid>)
      requires Valid() && at.Names(k)
      modifies this
      ensures Valid()
      ensures r.None? ==> Get(old(queues), k) == [] && queues == old(queues) && semAdd == old(semAdd)
      ensures r.Some? ==> var q := Get(old(queues), k);
        q != [] && r.value == q[0] && queues == Put(old(queues), k, q[1..]) && semAdd == old(semAdd) - {q[0]}
    {
      AgreeHead(queues, semAdd, k);
      r := PopHead(k);
      queues := View();
    }

    method Dequeue(p: Pid, k: Sem) returns (found: bool)
      requires Indexed() && k in View() && at.Names(k)
      modifies this
      ensures Indexed()
      ensures found <==> p in old(View())[k]
      ensures View() == Put(old(View()), k, Minus(old(View())[k], {p})) && semAdd == old(semAdd) - {p}
    {
      var sem := FindSem(k);
      var q := table[sem.value].procq;
      found := Search(q, p);
      Shorten(sem.value, k, Minus(q, {p}));
      semAdd := semAdd - {p};
    }

    /** outBlocked: takes p out of the queue it is blocked on, from any position. */
    method OutBlocked(p: Pid) returns (r: Option<Pid>)
      requires Valid()
      modifies this
      ensures Valid()
      ensures r == if p in old(semAdd) then Some(p) else None
      ensures semAdd == old(semAdd) - {p}
      ensures queues == if p !in old(semAdd) then old(queues)
        else var k := old(semAdd)[p]; Put(old(queues), k, Minus(old(queues)[k], {p}))
    {
      AgreeOut(queues, semAdd, p);
      if p !in semAdd {
        return None;
      }
      var found := Dequeue(p, semAdd[p]);
      queues := View();
      return if found then Some(p) else None;
    }

    /** The loop of outBlocked over s_procq. */
    static method Search(q: seq<Pid>, p: Pid) returns (found: bool)
      ensures found <==> p in q
    {
      found := false;
      for n := 0 to |q|
        invariant found <==> p in q[..n]
      {
        if q[n] == p {
          found := true;
        }
      }
      assert q[..|q|] == q;
    }

    /** headBlocked. */
    method HeadBlocked(k: Sem) returns (r: Option<Pid>)
      requires Valid() && at.Names(k)
      ensures r == if Get(queues, k) == [] then None else Some(queues[k][0])
    {
      var sem := FindSem(k);
      if sem.None? || table[sem.value].procq == [] {
        return None;
      }
      return Some(table[sem.value].procq[0]);
    }
  }

  lemma Shortened(v: Queues, k: Sem, q: seq<Pid>)
    ensures Put(v, k, q) == if q == [] then v[k := q] - {k} else v[k := q]
  {
  }

  /** The queues after insertBlocked(k, p). */
  function Inserted(q: Queues, k: Sem, p: Pid): Queues {
    var u := Without(q, p);
    u[k := Get(u, k) + [p]]
  }

  lemma InsertedGet(q: Queues, k: Sem, p: Pid)
    ensures forall m :: Get(Inserted(q, k, p), m) == Minus(Get(q, m), {p}) + if m == k then [p] else []
  {
  }

  // ---- queues and p_semAdd

  lemma WithoutAgrees(q: Queues, semAdd: map<Pid, Sem>, p: Pid)
    requires Agree(q, semAdd)
    ensures Agree(Without(q, p), semAdd - {p})
  {
    var u, m := Without(q, p), semAdd - {p};
    forall l | l in u ensures NoDup(u[l]) {
      NoDupMinus(q[l], {p});
    }
    forall x | x in m ensures m[x] in u && x in u[m[x]] {
      assert x in semAdd && x in q[semAdd[x]];
    }
    forall l, x | l in u && x in u[l] ensures x in m && m[x] == l {
      assert x in q[l];
    }
  }

  lemma AppendAgrees(q: Queues, semAdd: map<Pid, Sem>, k: Sem, p: Pid)
    requires Agree(q, semAdd) && p !in semAdd
    ensures Agree(q[k := Get(q, k) + [p]], semAdd[p := k])
  {
    assert p !in Get(q, k);
  }

  lemma AgreeInsert(q: Queues, semAdd: map<Pid, Sem>, k: Sem, p: Pid)
    requires Agree(q, semAdd)
    ensures Agree(Inserted(q, k, p), semAdd[p := k])
  {
    WithoutAgrees(q, semAdd, p);
    AppendAgrees(Without(q, p), semAdd - {p}, k, p);
    assert (semAdd - {p})[p := k] == semAdd[p := k];
  }

  lemma AgreeHead(q: Queues, semAdd: map<Pid, Sem>, k: Sem)
    requires Agree(q, semAdd)
    ensures Get(q, k) != [] ==> Agree(Put(q, k, q[k][1..]), semAdd - {q[k][0]})
  {
    if Get(q, k) != [] {
      MinusHead(q[k]);
      AgreeRemove(q, semAdd, k, q[k][0]);
    }
  }

  lemma AgreeOut(q: Queues, semAdd: map<Pid, Sem>, p: Pid)
    requires Agree(q, semAdd)
    ensures p !in semAdd ==> semAdd - {p} == semAdd
    ensures p in semAdd ==>
      var k := semAdd[p]; k in q && p in q[k] && Agree(Put(q, k, Minus(q[k], {p})), semAdd - {p})
  {
    if p in semAdd {
      AgreeRemove(q, semAdd, semAdd[p], p);
    } else {
      assert semAdd - {p} == semAdd;
    }
  }

  lemma AgreeRemove(q: Queues, semAdd: map<Pid, Sem>, k: Sem, p: Pid)
    requires Agree(q, semAdd) && k in q && p in q[k]
    ensures Agree(Put(q, k, Minus(q[k], {p})), semAdd - {p})
  {
    var v, m := Put(q, k, Minus(q[k], {p})), semAdd - {p};
    NoDupMinus(q[k], {p});
    forall x | x in m ensures m[x] in v && x in v[m[x]] {
      assert semAdd[x] == k ==> x in Minus(q[k], {p});
    }
    forall l, x | l in v && x in v[l] ensures x in m && m[x] == l {
      assert x in q[l] && semAdd[x] == l;
      assert semAdd[p] == k;
    }
  }

  /** q with a descriptor for k. */
  function Opened(q: Queues, k: Sem): (r: Queues)
    ensures k in r
  {
    if k in q then q else q[k := []]
  }

  /** p moves to the end of k's queue. */
  function Appended(q: Queues, k: Sem, p: Pid): Queues
    requires k in q
  {
    var u := Without(q, p);
    u[k := u[k] + [p]]
  }

  lemma InsertedView(q: Queues, k: Sem, p: Pid)
    ensures Appended(Opened(q, k), k, p) == Inserted(q, k, p)
  {
  }

  /** insertBlocked keeps the assumption that an allocated semaphore has a waiter, unless p was the last waiter of
      another semaphore: that one stays allocated with nobody on it. */
  lemma InsertLeavesNoneEmpty(q: Queues, semAdd: map<Pid, Sem>, k: Sem, p: Pid)
    requires Agree(q, semAdd) && NoneEmpty(q)
    ensures NoneEmpty(Inserted(q, k, p)) <==> !(p in semAdd && semAdd[p] != k && q[semAdd[p]] == [p])
  {
    var u := Inserted(q, k, p);
    if p in semAdd && semAdd[p] != k && q[semAdd[p]] == [p] {
      assert u[semAdd[p]] == [];
    } else {
      forall l | l in u ensures u[l] != [] {
        if l != k {
          OnlyMember(q[l], p);
        }
      }
    }
  }

  lemma OnlyMember(l: seq<Pid>, p: Pid)
    requires l != [] && NoDup(l)
    ensures Minus(l, {p}) == [] <==> l == [p]
  {
  }

  // ---- the descriptor pool

  /** Each active semaphore has a waiter of its own. */
  lemma ActiveBound(q: Queues, semAdd: map<Pid, Sem>)
    requires Agree(q, semAdd) && NoneEmpty(q)
    ensures |q| <= |semAdd.Keys|
  {
    var head := map k | k in q :: q[k][0];
    forall k | k in q ensures head[k] in semAdd && semAdd[head[k]] == k {
      assert q[k][0] in q[k];
    }
    assert head.Keys == q.Keys;
    InjectionCard(head, semAdd.Keys);
  }

  function SlotsBelow(n: nat): (r: set<Slot>)
    requires n <= MAX_PROC
    ensures forall i: Slot :: i in r <==> i as int < n
    ensures |r| == n
  {
    if n == 0 then {} else SlotsBelow(n - 1) + {(n - 1) as Slot}
  }

  lemma AllSlotsOwned(free: seq<Slot>, owner: map<Slot, Sem>)
    requires Pooled(free, owner)
    ensures free == [] ==> |owner| >= MAX_PROC
  {
    if free == [] {
      SubsetCard(SlotsBelow(MAX_PROC), owner.Keys);
    }
  }

  /** The descriptor pool never runs out: as long as p is not itself blocked, insertBlocked finds a descriptor. The
      active ones each have a waiter of their own, and p is one more process. */
  lemma PoolSuffices(table: seq<Semd>, free: seq<Slot>, index: map<Sem, Slot>, owner: map<Slot, Sem>,
                     semAdd: map<Pid, Sem>, p: Pid)
    requires |table| == MAX_PROC && Inverse(index, owner) && Pooled(free, owner)
    requires Agree(ViewOf(table, index), semAdd) && NoneEmpty(ViewOf(table, index))
    requires p !in semAdd
    ensures free != []
  {
    var q := ViewOf(table, index);
    ActiveBound(q, semAdd);
    assert q.Keys == index.Keys;
    InjectionCard(owner, index.Keys);
    AllSlotsOwned(free, owner);
    PidSetBound(semAdd.Keys + {p});
  }

  // ---- the index, step by step

  lemma InverseAdd(index: map<Sem, Slot>, owner: map<Slot, Sem>, k: Sem, i: Slot)
    requires Inverse(index, owner) && k !in index && i !in owner
    ensures Inverse(index[k := i], owner[i := k])
  {
  }

  lemma KeyedAdd(at: Layout, table: seq<Semd>, owner: map<Slot, Sem>, k: Sem, i: Slot)
    requires Keyed(at, table, owner) && at.Names(k)
    ensures Keyed(at, table[i := Semd(Some(k), [])], owner[i := k])
  {
  }

  lemma HashedAdd(at: Layout, bucket: seq<seq<Slot>>, owner: map<Slot, Sem>, k: Sem, i: Slot)
    requires at.Valid() && Hashed(at, bucket, owner) && i !in owner
    ensures var b := BucketOf(at, k); Hashed(at, bucket[b := [i] + bucket[b]], owner[i := k])
  {
  }

  lemma HashedRemove(at: Layout, bucket: seq<seq<Slot>>, owner: map<Slot, Sem>, i: Slot)
    requires at.Valid() && Hashed(at, bucket, owner) && i in owner
    ensures var b := BucketOf(at, owner[i]); Hashed(at, bucket[b := Minus(bucket[b], {i})], owner - {i})
  {
    var b, o := BucketOf(at, owner[i]), owner - {i};
    var bs := bucket[b := Minus(bucket[b], {i})];
    NoDupMinus(bucket[b], {i});
    forall c, j | 0 <= c < BUCKETS && j in bs[c] ensures j in o && BucketOf(at, o[j]) == c {
      assert j in bucket[c];
    }
  }

  lemma PooledAdd(free: seq<Slot>, owner: map<Slot, Sem>, k: Sem)
    requires Pooled(free, owner) && free != []
    ensures Pooled(free[1..], owner[free[0] := k])
  {
  }

  lemma ViewAdd(table: seq<Semd>, index: map<Sem, Slot>, owner: map<Slot, Sem>, k: Sem, i: Slot)
    requires |table| == MAX_PROC && Inverse(index, owner) && k !in index && i !in owner
    ensures ViewOf(table[i := Semd(Some(k), [])], index[k := i]) == ViewOf(table, index)[k := []]
  {
  }

  lemma Activated(at: Layout, table: seq<Semd>, free: seq<Slot>, bucket: seq<seq<Slot>>, index: map<Sem, Slot>,
                  owner: map<Slot, Sem>, k: Sem)
    requires WellIndexed(at, table, free, bucket, index, owner) && at.Names(k) && k !in index && free != []
    ensures var i, b := free[0], BucketOf(at, k);
      && WellIndexed(at, table[i := Semd(Some(k), [])], free[1..], bucket[b := [i] + bucket[b]], index[k := i],
                     owner[i := k])
      && ViewOf(table[i := Semd(Some(k), [])], index[k := i]) == ViewOf(table, index)[k := []]
  {
    var i := free[0];
    InverseAdd(index, owner, k, i);
    KeyedAdd(at, table, owner, k, i);
    HashedAdd(at, bucket, owner, k, i);
    PooledAdd(free, owner, k);
    ViewAdd(table, index, owner, k, i);
  }

  lemma Deactivated(at: Layout, table: seq<Semd>, free: seq<Slot>, bucket: seq<seq<Slot>>, index: map<Sem, Slot>,
                    owner: map<Slot, Sem>, i: Slot)
    requires WellIndexed(at, table, free, bucket, index, owner) && i in owner
    ensures var k, b := owner[i], BucketOf(at, owner[i]);
      && table[i].key == Some(k)
      && WellIndexed(at, table, [i] + free, bucket[b := Minus(bucket[b], {i})], index - {k}, owner - {i})
      && ViewOf(table, index - {k}) == ViewOf(table, index) - {k}
  {
    HashedRemove(at, bucket, owner, i);
    InverseRemove(index, owner, i);
    assert Pooled([i] + free, owner - {i});
  }

  lemma InverseRemove(index: map<Sem, Slot>, owner: map<Slot, Sem>, i: Slot)
    requires Inverse(index, owner) && i in owner
    ensures Inverse(index - {owner[i]}, owner - {i})
  {
  }
}

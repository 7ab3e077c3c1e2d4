/** The algebra of semaphore queues: a map from active semaphores to the processes blocked on them. */
module SemQueues {
  import opened Basics
  import opened Addresses

  type Queues = map<Sem, seq<Pid>>

  function Get(q: Queues, k: Sem): seq<Pid> {
    if k in q then q[k] else []
  }

  /** q with a new list for k; a semaphore whose list is empty stops being active. */
  function Put(q: Queues, k: Sem, l: seq<Pid>): Queues {
    if l == [] then q - {k} else q[k := l]
  }

  /** No active semaphore is without a waiter. */
  ghost predicate NoneEmpty(q: Queues) {
    forall k :: k in q ==> q[k] != []
  }

  lemma SameQueues(a: Queues, b: Queues)
    requires NoneEmpty(a) && NoneEmpty(b)
    requires forall k :: Get(a, k) == Get(b, k)
    ensures a == b
  {
    forall k ensures k in a <==> k in b {
      assert Get(a, k) == Get(b, k);
    }
    forall k | k in a ensures a[k] == b[k] {
      assert Get(a, k) == Get(b, k);
    }
  }
}

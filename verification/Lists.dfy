/** Circular doubly linked lists (lib/list.h, include/utils/utils.h): pointer surgery against sequences.

    A list is a ring of nodes, its head included; the entries of head h are l when Ring([h] + l) holds. A node that is
    on no list is a ring by itself. Every method changes only nodes of the rings it names, so all other rings stay. */
module Lists {
  import opened Basics

  class ListHead {
    var next: ListHead?
    var prev: ListHead?

    /** The index of the structure this node is embedded in: what container_of finds. */
    const entry: int

    /** A statically allocated, zeroed node. */
    constructor (entry: int)
      ensures this.entry == entry && next == null && prev == null
    {
      this.entry := entry;
      next, prev := null, null;
    }
  }

  ghost predicate Link(x: ListHead, y: ListHead)
    reads x, y
  {
    x.next == y && y.prev == x
  }

  ghost predicate Chain(s: seq<ListHead>)
    reads s
  {
    forall i :: 0 <= i < |s| - 1 ==> Link(s[i], s[i + 1])
  }

  ghost predicate Ring(s: seq<ListHead>)
    reads s
  {
    |s| > 0 && NoDup(s) && Chain(s) && Link(s[|s| - 1], s[0])
  }

  lemma ChainSplit(a: seq<ListHead>, b: seq<ListHead>)
    requires Chain(a + b)
    ensures Chain(a) && Chain(b) && (a != [] && b != [] ==> Link(a[|a| - 1], b[0]))
  {
    var s := a + b;
    forall i | 0 <= i < |a| - 1 ensures Link(a[i], a[i + 1]) {
      assert Link(s[i], s[i + 1]);
    }
    forall i | 0 <= i < |b| - 1 ensures Link(b[i], b[i + 1]) {
      assert Link(s[|a| + i], s[|a| + i + 1]);
    }
    if a != [] && b != [] {
      assert Link(s[|a| - 1], s[|a|]);
    }
  }

  lemma ChainJoin(a: seq<ListHead>, b: seq<ListHead>)
    requires Chain(a) && Chain(b) && (a != [] && b != [] ==> Link(a[|a| - 1], b[0]))
    ensures Chain(a + b)
  {
  }

  /** A ring has no distinguished start. */
  lemma Rotate(a: seq<ListHead>, b: seq<ListHead>)
    requires Ring(a + b)
    ensures Ring(b + a)
  {
    if a == [] {
      assert b + a == a + b;
    } else if b == [] {
      assert b + a == a + b;
    } else {
      ChainSplit(a, b);
      NoDupParts(a, b);
      NoDupConcat(b, a);
      assert Link(b[|b| - 1], a[0]);
      ChainJoin(b, a);
    }
  }

  /** The list headed by h has the entries l, in order. */
  ghost predicate List(h: ListHead, l: seq<ListHead>)
    reads h, l
  {
    Ring([h] + l)
  }

  /** The same ring, started elsewhere. */
  ghost predicate Rotation<T>(s: seq<T>, t: seq<T>) {
    exists k :: 0 <= k <= |s| && t == s[k..] + s[..k]
  }

  lemma Rotated(s: seq<ListHead>, t: seq<ListHead>)
    requires Rotation(s, t) && Ring(s)
    ensures Ring(t) && |t| == |s| && forall x :: x in t <==> x in s
  {
    var k :| 0 <= k <= |s| && t == s[k..] + s[..k];
    assert s == s[..k] + s[k..];
    Rotate(s[..k], s[k..]);
  }

  lemma Turn<T>(a: seq<T>, b: seq<T>)
    ensures Rotation(a + b, b + a)
  {
    var s := a + b;
    assert s[|a|..] == b && s[..|a|] == a;
  }

  /** A ring none of whose nodes was written is still a ring. */
  twostate lemma RingKept(s: seq<ListHead>)
    requires old(Ring(s))
    requires forall x :: x in s ==> x.next == old(x.next) && x.prev == old(x.prev)
    ensures Ring(s)
  {
    forall i | 0 <= i < |s| - 1 ensures Link(s[i], s[i + 1]) {
      assert old(Link(s[i], s[i + 1]));
    }
  }

  /** A chain survives writes to its two outer links. */
  twostate lemma ChainKept(s: seq<ListHead>)
    requires old(Chain(s)) && NoDup(s)
    requires forall x :: x in s && x != s[|s| - 1] ==> x.next == old(x.next)
    requires forall x :: x in s && x != s[0] ==> x.prev == old(x.prev)
    ensures Chain(s)
  {
    forall i | 0 <= i < |s| - 1 ensures Link(s[i], s[i + 1]) {
      assert old(Link(s[i], s[i + 1]));
      assert s[i] != s[|s| - 1] && s[i + 1] != s[0];
    }
  }

  /** The three parts of a ring. */
  lemma RingParts(a: seq<ListHead>, b: seq<ListHead>, c: seq<ListHead>)
    requires Ring(a + b + c)
    ensures Chain(a) && Chain(b) && Chain(c) && NoDup(a) && NoDup(b) && NoDup(c)
    ensures Disjoint(a, b) && Disjoint(a, c) && Disjoint(b, c)
    ensures a != [] && b != [] ==> Link(a[|a| - 1], b[0])
    ensures b != [] && c != [] ==> Link(b[|b| - 1], c[0])
    ensures a != [] && c != [] ==> Link(c[|c| - 1], a[0])
    ensures a != [] && b == [] && c != [] ==> Link(a[|a| - 1], c[0])
    ensures a != [] && b != [] && c == [] ==> Link(b[|b| - 1], a[0])
    ensures a != [] && b == [] && c == [] ==> Link(a[|a| - 1], a[0])
  {
    ChainSplit(a + b, c);
    NoDupParts(a + b, c);
    ChainSplit(a, b);
    NoDupParts(a, b);
    assert forall x :: x in a || x in b ==> x in a + b;
  }

  /** Two chains linked at both ends are a ring. */
  lemma Weld(a: seq<ListHead>, b: seq<ListHead>)
    requires a != [] && Chain(a) && Chain(b) && NoDup(a) && NoDup(b) && Disjoint(a, b)
    requires var last := if b == [] then a[|a| - 1] else b[|b| - 1];
             Link(last, a[0]) && (b != [] ==> Link(a[|a| - 1], b[0]))
    ensures Ring(a + b)
  {
    ChainJoin(a, b);
    NoDupConcat(a, b);
  }

  /** A ring determines the two links of each of its nodes. */
  lemma RingLinks(s: seq<ListHead>, k: nat)
    requires Ring(s) && k < |s|
    ensures var j := if k + 1 < |s| then k + 1 else 0; s[k].next == s[j] && s[j].prev == s[k]
  {
  }

  /** The neighbours of a node. */
  lemma Neighbours(e: ListHead, r: seq<ListHead>)
    requires Ring([e] + r)
    ensures if r == [] then e.next == e && e.prev == e
            else e.next == r[0] && e.prev == r[|r| - 1] && e.next in r && e.prev in r
  {
    RingLinks([e] + r, 0);
    RingLinks([e] + r, |r|);
  }

  function ListEmpty(head: ListHead): bool
    reads head
  {
    head.next == head
  }

  function ListIsFirst(x: ListHead, head: ListHead): bool
    reads x
  {
    x.prev == head
  }

  function ListIsLast(x: ListHead, head: ListHead): bool
    reads x
  {
    x.next == head
  }

  function ListIsSingular(head: ListHead): bool
    reads head
  {
    !ListEmpty(head) && head.next == head.prev
  }

  /** The tests answer what their names say about the sequence of entries. */
  lemma TestsExact(h: ListHead, l: seq<ListHead>)
    requires List(h, l)
    ensures ListEmpty(h) <==> l == []
    ensures ListIsSingular(h) <==> |l| == 1
    ensures forall k :: 0 <= k < |l| ==> (ListIsFirst(l[k], h) <==> k == 0) && (ListIsLast(l[k], h) <==> k == |l| - 1)
  {
    var s := [h] + l;
    RingLinks(s, 0);
    RingLinks(s, |l|);
    forall k | 0 <= k < |l|
      ensures (ListIsFirst(l[k], h) <==> k == 0) && (ListIsLast(l[k], h) <==> k == |l| - 1)
    {
      RingLinks(s, k);
      RingLinks(s, k + 1);
      assert s[k + 1] == l[k];
    }
  }

  /** __list_add: the entry goes between the last and the first node of a ring. */
  method Insert(entry: ListHead, ghost s: seq<ListHead>, prev: ListHead, next: ListHead)
    requires Ring(s) && entry !in s && prev == s[|s| - 1] && next == s[0]
    modifies entry, prev`next, next`prev
    ensures Ring(s + [entry])
  {
    next.prev := entry;
    entry.next := next;
    entry.prev := prev;
    prev.next := entry;
    assert Chain(s);
    ChainJoin(s, [entry]);
  }

  /** list_add. */
  method ListAdd(entry: ListHead, head: ListHead, ghost l: seq<ListHead>)
    requires List(head, l) && entry !in [head] + l
    modifies entry, head, head.next
    ensures List(head, [entry] + l)
  {
    Rotate([head], l);
    RingLinks([head] + l, 0);
    Insert(entry, l + [head], head, head.next);
    assert l + [head] + [entry] == l + [head, entry];
    Rotate(l, [head, entry]);
    assert [head, entry] + l == [head] + ([entry] + l);
  }

  /** list_add_tail. */
  method ListAddTail(entry: ListHead, head: ListHead, ghost l: seq<ListHead>)
    requires List(head, l) && entry !in [head] + l
    modifies entry, head, head.prev
    ensures List(head, l + [entry])
  {
    RingLinks([head] + l, |l|);
    Insert(entry, [head] + l, head.prev, head);
    assert [head] + l + [entry] == [head] + (l + [entry]);
  }

  /** __list_del_entry: the other nodes of the ring close up; a node that was alone stays a ring by itself. */
  method Unlink(entry: ListHead, ghost r: seq<ListHead>)
    requires Ring([entry] + r)
    modifies entry, entry.prev, entry.next
    ensures r != [] ==> Ring(r)
    ensures r == [] ==> Ring([entry])
    ensures entry !in r
  {
    var prev, next := entry.prev, entry.next;
    ghost var s := [entry] + r;
    ChainSplit([entry], r);
    NoDupParts([entry], r);
    assert entry !in r;
    RingLinks(s, 0);
    RingLinks(s, |r|);
    next.prev := prev;
    prev.next := next;
    assert Chain(r);
  }

  /** list_del. */
  method ListDel(entry: ListHead, ghost r: seq<ListHead>)
    requires Ring([entry] + r)
    modifies entry, entry.prev, entry.next
    ensures r != [] ==> Ring(r)
    ensures entry !in r && entry.next == null && entry.prev == null
  {
    Unlink(entry, r);
    entry.next, entry.prev := null, null;
  }

  /** list_delete_safe and list_del_init: the removed entry may be removed again. */
  method ListDeleteSafe(entry: ListHead, ghost r: seq<ListHead>)
    requires Ring([entry] + r)
    modifies entry, entry.prev, entry.next
    ensures r != [] ==> Ring(r)
    ensures entry !in r && Ring([entry])
  {
    ListDel(entry, r);
    entry.next, entry.prev := entry, entry;
  }

  /** INIT_LIST_HEAD on a node that is on no ring the caller still needs. */
  method InitListHead(list: ListHead)
    modifies list
    ensures List(list, [])
  {
    list.next, list.prev := list, list;
    assert [list] + [] == [list];
  }
}

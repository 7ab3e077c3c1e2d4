/** Whole-list operations of lib/list.h: move, replace, swap, bulk move, cut and splice as sequence algebra. */
module ListSurgery {
  import opened Basics
  import opened Lists

  /** The entries of the target list when e is taken off the ring [e] + r first: l is what head keeps, whether head
      is on e's own ring or on another one. */
  ghost predicate Target(e: ListHead, r: seq<ListHead>, head: ListHead, l: seq<ListHead>)
    reads e, r, head, l
  {
    Ring([e] + r) &&
    if head in r then Rotation(r, [head] + l)
    else List(head, l) && Disjoint([e] + r, [head] + l)
  }

  /** list_move. */
  method ListMove(e: ListHead, head: ListHead, ghost r: seq<ListHead>, ghost l: seq<ListHead>)
    requires Target(e, r, head, l)
    modifies e, r, head, l
    ensures List(head, [e] + l)
    ensures head !in r && r != [] ==> Ring(r)
  {
    Detach(e, head, r, l);
    label Detached:
    Neighbours(head, l);
    ListAdd(e, head, l);
    if head !in r && r != [] {
      RingKept@Detached(r);
    }
  }

  /** list_move_tail. */
  method ListMoveTail(e: ListHead, head: ListHead, ghost r: seq<ListHead>, ghost l: seq<ListHead>)
    requires Target(e, r, head, l)
    modifies e, r, head, l
    ensures List(head, l + [e])
    ensures head !in r && r != [] ==> Ring(r)
  {
    Detach(e, head, r, l);
    label Detached:
    Neighbours(head, l);
    ListAddTail(e, head, l);
    if head !in r && r != [] {
      RingKept@Detached(r);
    }
  }

  /** The __list_del_entry step of both moves. */
  method Detach(e: ListHead, ghost head: ListHead, ghost r: seq<ListHead>, ghost l: seq<ListHead>)
    requires Target(e, r, head, l)
    modifies e, r
    ensures List(head, l) && e !in [head] + l
    ensures r != [] ==> Ring(r)
    ensures head !in r ==> Disjoint(r, [e, head] + l)
  {
    NoDupParts([e], r);
    if head !in r {
      assert Disjoint([e] + r, [head] + l);
      assert e in [e] + r;
      assert forall x :: x in r ==> x in [e] + r;
    }
    Neighbours(e, r);
    Unlink(e, r);
    if head in r {
      Rotated(r, [head] + l);
    } else {
      RingKept([head] + l);
    }
  }

  /** list_rotate_left. */
  method ListRotateLeft(head: ListHead, ghost l: seq<ListHead>)
    requires List(head, l)
    modifies head, l
    ensures List(head, if l == [] then [] else l[1..] + [l[0]])
  {
    TestsExact(head, l);
    if !ListEmpty(head) {
      var first := head.next;
      RingLinks([head] + l, 0);
      ghost var rest := l[1..];
      assert [head] + l == [head] + ([first] + rest);
      Rotate([head], [first] + rest);
      assert [first] + rest + [head] == [first] + (rest + [head]);
      Turn(rest, [head]);
      ListMoveTail(first, head, rest + [head], rest);
    }
  }

  /** list_rotate_to_front. */
  method ListRotateToFront(x: ListHead, head: ListHead, ghost l: seq<ListHead>, ghost k: nat)
    requires List(head, l) && k < |l| && l[k] == x
    modifies head, l
    ensures List(head, l[k..] + l[..k])
  {
    ghost var m := l[k + 1..] + l[..k];
    assert l[k..] == [x] + l[k + 1..];
    assert l == l[..k] + l[k..];
    Turn(l[..k], l[k..]);
    assert l[k..] + l[..k] == [x] + m;
    ListMoveTail(head, x, l, m);
    assert [x] + (m + [head]) == ([x] + m) + [head];
    Rotate([x] + m, [head]);
    assert [head] + ([x] + m) == [head] + (l[k..] + l[..k]);
  }

  /** list_replace: also right when the old entry was alone on its ring. */
  method ListReplace(entry: ListHead, substitute: ListHead, ghost r: seq<ListHead>)
    requires Ring([entry] + r) && substitute !in [entry] + r
    modifies substitute, entry, r
    ensures Ring([substitute] + r) && entry !in [substitute] + r
    ensures r != [] ==> entry.next == old(entry.next) && entry.prev == old(entry.prev)
  {
    ChainSplit([entry], r);
    RingLinks([entry] + r, 0);
    RingLinks([entry] + r, |r|);
    NoDupParts([entry], r);
    assert entry !in r && substitute !in r;
    if r == [] { assert ([entry] + r)[0] == entry; }
    substitute.next := entry.next;
    substitute.next.prev := substitute;
    substitute.prev := entry.prev;
    substitute.prev.next := substitute;
    assert Chain(r);
    ChainJoin([substitute], r);
    NoDupConcat([substitute], r);
  }

  /** list_del from the middle of a ring. */
  method DeleteBetween(e: ListHead, ghost a: seq<ListHead>, ghost c: seq<ListHead>)
    requires a != [] && Ring(a + [e] + c)
    modifies e, a, c
    ensures Ring(a + c) && e !in a + c
  {
    assert a + [e] + c == a + ([e] + c);
    Rotate(a, [e] + c);
    assert [e] + c + a == [e] + (c + a);
    Neighbours(e, c + a);
    ListDel(e, c + a);
    Rotate(c, a);
  }

  /** list_add after a node in the middle of a ring. */
  method AddBetween(e: ListHead, pos: ListHead, ghost a: seq<ListHead>, ghost c: seq<ListHead>)
    requires a != [] && Ring(a + c) && pos == a[|a| - 1] && e !in a + c
    modifies e, a, c
    ensures Ring(a + [e] + c)
  {
    ghost var front := a[..|a| - 1];
    assert a == front + [pos];
    assert a + c == front + ([pos] + c);
    Rotate(front, [pos] + c);
    assert [pos] + c + front == [pos] + (c + front);
    Neighbours(pos, c + front);
    ListAdd(e, pos, c + front);
    assert [pos] + ([e] + (c + front)) == ([pos, e] + c) + front;
    Rotate([pos, e] + c, front);
    assert front + ([pos, e] + c) == a + [e] + c;
  }

  /** The node before e2 when e1 and e2 split a ring into the gaps b and c. */
  lemma GapEnd(e1: ListHead, e2: ListHead, b: seq<ListHead>, c: seq<ListHead>)
    requires Ring([e1] + b + [e2] + c)
    ensures e2.prev == ([e1] + b)[|b|] && (b == [] <==> e2.prev == e1)
  {
    var s := [e1] + b + [e2] + c;
    RingLinks(s, |b|);
    assert s[|b| + 1] == e2 && s[|b|] == ([e1] + b)[|b|];
    assert s[0] == e1;
  }

  /** list_swap seen from the ring: the gaps b and c between the two entries may be empty. */
  method SwapOnRing(e1: ListHead, e2: ListHead, ghost b: seq<ListHead>, ghost c: seq<ListHead>)
    requires Ring([e1] + b + [e2] + c)
    modifies e1, e2, b, c
    ensures Ring([e2] + b + [e1] + c)
  {
    GapEnd(e1, e2, b, c);
    var pos := e2.prev;
    DeleteBetween(e2, [e1] + b, c);
    assert [e1] + b + c == [e1] + (b + c);
    ListReplace(e1, e2, b + c);
    if pos == e1 {
      pos := e2;
    }
    assert [e2] + (b + c) == [e2] + b + c;
    AddBetween(e1, pos, [e2] + b, c);
  }

  /** The list a x b y c under head h, as the ring that starts at x or at y. */
  lemma SeenFrom(
    h: ListHead, a: seq<ListHead>, x: ListHead, b: seq<ListHead>, y: ListHead, c: seq<ListHead>, around: seq<ListHead>)
    requires around == c + [h] + a
    ensures List(h, a + [x] + b + [y] + c) <==> Ring([x] + b + [y] + around)
    ensures List(h, a + [x] + b + [y] + c) <==> Ring([y] + around + [x] + b)
  {
    assert [h] + (a + [x] + b + [y] + c) == ([h] + a) + ([x] + b + [y] + c);
    assert [x] + b + [y] + around == ([x] + b + [y] + c) + ([h] + a);
    RotateBoth([h] + a, [x] + b + [y] + c);
    assert [h] + (a + [x] + b + [y] + c) == ([h] + a + [x] + b) + ([y] + c);
    assert [y] + around + [x] + b == ([y] + c) + ([h] + a + [x] + b);
    RotateBoth([h] + a + [x] + b, [y] + c);
  }

  lemma RotateBoth(a: seq<ListHead>, b: seq<ListHead>)
    ensures Ring(a + b) <==> Ring(b + a)
  {
    if Ring(a + b) {
      Rotate(a, b);
    }
    if Ring(b + a) {
      Rotate(b, a);
    }
  }

  /** list_swap: the two entries x and y change places, adjacent or not, whichever of them is named first. */
  method ListSwap(
    e1: ListHead, e2: ListHead, ghost head: ListHead,
    ghost a: seq<ListHead>, ghost x: ListHead, ghost b: seq<ListHead>, ghost y: ListHead, ghost c: seq<ListHead>)
    requires List(head, a + [x] + b + [y] + c) && ((e1 == x && e2 == y) || (e1 == y && e2 == x))
    modifies head, a, x, b, y, c
    ensures List(head, a + [y] + b + [x] + c)
  {
    ghost var around := c + [head] + a;
    ghost var b1, c1 := if e1 == x then b else around, if e1 == x then around else b;
    SeenFrom(head, a, x, b, y, c, around);
    SwapOnRing(e1, e2, b1, c1);
    SeenFrom(head, a, y, b, x, c, around);
  }

  /** list_bulk_move_tail: also right when the segment is already last. */
  method ListBulkMoveTail(
    head: ListHead, first: ListHead, last: ListHead,
    ghost a: seq<ListHead>, ghost m: seq<ListHead>, ghost c: seq<ListHead>)
    requires List(head, a + m + c) && m != [] && first == m[0] && last == m[|m| - 1]
    modifies head, a, m, c
    ensures List(head, a + c + m)
  {
    ghost var p := [head] + a;
    assert [head] + (a + m + c) == p + m + c;
    RingParts(p, m, c);
    assert p[0] in p && p[|p| - 1] in p && first in m && last in m;
    assert c != [] ==> c[0] in c && c[|c| - 1] in c;
    first.prev.next := last.next;
    last.next.prev := first.prev;
    head.prev.next := first;
    first.prev := head.prev;
    last.next := head;
    head.prev := last;
    ChainKept(p);
    ChainKept(m);
    ChainKept(c);
    WeldThree(p, c, m);
    assert [head] + (a + c + m) == p + c + m;
  }

  lemma WeldThree(a: seq<ListHead>, b: seq<ListHead>, c: seq<ListHead>)
    requires a != [] && c != [] && Chain(a) && Chain(b) && Chain(c) && NoDup(a) && NoDup(b) && NoDup(c)
    requires Disjoint(a, b) && Disjoint(a, c) && Disjoint(b, c)
    requires Link(c[|c| - 1], a[0])
    requires if b == [] then Link(a[|a| - 1], c[0]) else Link(a[|a| - 1], b[0]) && Link(b[|b| - 1], c[0])
    ensures Ring(a + b + c)
  {
    ChainJoin(a, b);
    NoDupConcat(a, b);
    Weld(a + b, c);
  }

  /** __list_cut_position: entry is the last node to go. */
  method CutAfter(list: ListHead, head: ListHead, entry: ListHead, ghost a: seq<ListHead>, ghost b: seq<ListHead>)
    requires List(head, a + b) && a != [] && entry == a[|a| - 1] && list !in [head] + (a + b)
    modifies list, head, a, b
    ensures List(list, a) && List(head, b)
  {
    assert [head] + (a + b) == [head] + a + b;
    RingParts([head], a, b);
    assert head.next == a[0] && a[0] in a && entry in a;
    assert b != [] ==> entry.next == b[0] && b[0] in b;
    var new_first := entry.next;
    list.next := head.next;
    list.next.prev := list;
    list.prev := entry;
    entry.next := list;
    head.next := new_first;
    new_first.prev := head;
    ChainKept(a);
    ChainKept(b);
    Weld([list], a);
    Weld([head], b);
  }

  /** list_cut_position: the entries up to and including entry go to list. An empty list, or a list of one entry that
      is not the entry named, is left alone and list is not even initialised. */
  method ListCutPosition(list: ListHead, head: ListHead, entry: ListHead, ghost l: seq<ListHead>, ghost k: nat)
    requires List(head, l) && list !in [head] + l
    requires if k < |l| then l[k] == entry else k == |l| && entry !in l && (entry == head || |l| == 1)
    modifies list, head, l
    ensures entry == head ==> List(head, l) && (l != [] ==> List(list, []))
    ensures k < |l| ==> List(list, l[..k + 1]) && List(head, l[k + 1..])
    ensures l == [] || (k == |l| && entry != head) ==> unchanged(list) && unchanged(head) && unchanged(l)
  {
    TestsExact(head, l);
    RingLinks([head] + l, 0);
    NoDupParts([head], l);
    assert k < |l| ==> l[k] in l;
    if ListEmpty(head) {
      return;
    }
    if ListIsSingular(head) && entry != head && entry != head.next {
      return;
    }
    if entry == head {
      Reinit(list, [head] + l);
    } else {
      assert l == l[..k + 1] + l[k + 1..];
      CutAfter(list, head, entry, l[..k + 1], l[k + 1..]);
    }
  }

  /** list_cut_before: the entries before entry go to list, all of them when entry is the head. */
  method ListCutBefore(list: ListHead, head: ListHead, entry: ListHead, ghost a: seq<ListHead>, ghost b: seq<ListHead>)
    requires List(head, a + b) && entry == (if b == [] then head else b[0]) && list !in [head] + (a + b)
    modifies list, head, a, b
    ensures List(list, a) && List(head, b)
  {
    assert [head] + (a + b) == [head] + a + b;
    RingParts([head], a, b);
    assert a != [] ==> head.next == a[0] && a[0] in a;
    assert b != [] ==> b[0] in b;
    if head.next == entry {
      assert a == [];
      assert [head] + (a + b) == [head] + b;
      Reinit(list, [head] + b);
      return;
    }
    assert a != [];
    list.next := head.next;
    list.next.prev := list;
    list.prev := entry.prev;
    list.prev.next := list;
    head.next := entry;
    entry.prev := head;
    ChainKept(a);
    ChainKept(b);
    Weld([list], a);
    Weld([head], b);
  }

  /** __list_splice between the last and the first node of the ring s; the head it came from keeps its stale links. */
  method SpliceBetween(list: ListHead, prev: ListHead, next: ListHead, ghost m: seq<ListHead>, ghost s: seq<ListHead>)
    requires List(list, m) && m != [] && Ring(s) && Disjoint([list] + m, s) && prev == s[|s| - 1] && next == s[0]
    modifies m, prev, next
    ensures Ring(s + m)
  {
    RingParts([list], m, []);
    assert [list] + m + [] == [list] + m;
    var first, last := list.next, list.prev;
    assert first == m[0] && last == m[|m| - 1];
    assert Disjoint(s, m) && first in m && last in m && prev in s && next in s;
    first.prev := prev;
    prev.next := first;
    last.next := next;
    next.prev := last;
    ChainKept(m);
    ChainKept(s);
    Weld(s, m);
  }

  /** list_splice: in front of the entries of head. */
  method ListSplice(list: ListHead, head: ListHead, ghost m: seq<ListHead>, ghost l: seq<ListHead>)
    requires List(list, m) && List(head, l) && Disjoint([list] + m, [head] + l)
    modifies m, head, l
    ensures List(head, m + l)
  {
    TestsExact(list, m);
    if !ListEmpty(list) {
      Rotate([head], l);
      SpliceBetween(list, head, head.next, m, l + [head]);
      assert l + [head] + m == l + ([head] + m);
      Rotate(l, [head] + m);
      assert [head] + m + l == [head] + (m + l);
    } else {
      assert m + l == l;
    }
  }

  /** list_splice_tail: behind the entries of head. */
  method ListSpliceTail(list: ListHead, head: ListHead, ghost m: seq<ListHead>, ghost l: seq<ListHead>)
    requires List(list, m) && List(head, l) && Disjoint([list] + m, [head] + l)
    modifies m, head, l
    ensures List(head, l + m)
  {
    TestsExact(list, m);
    if !ListEmpty(list) {
      SpliceBetween(list, head.prev, head, m, [head] + l);
      assert [head] + l + m == [head] + (l + m);
    } else {
      assert l + m == l;
    }
  }

  /** list_splice_init. */
  method ListSpliceInit(list: ListHead, head: ListHead, ghost m: seq<ListHead>, ghost l: seq<ListHead>)
    requires List(list, m) && List(head, l) && Disjoint([list] + m, [head] + l)
    modifies list, m, head, l
    ensures List(head, m + l) && List(list, [])
  {
    TestsExact(list, m);
    if !ListEmpty(list) {
      NoDupParts([list], m);
      assert list in [list] + m;
      ListSplice(list, head, m, l);
      Reinit(list, [head] + (m + l));
    } else {
      assert m + l == l;
    }
  }

  /** list_splice_tail_init. */
  method ListSpliceTailInit(list: ListHead, head: ListHead, ghost m: seq<ListHead>, ghost l: seq<ListHead>)
    requires List(list, m) && List(head, l) && Disjoint([list] + m, [head] + l)
    modifies list, m, head, l
    ensures List(head, l + m) && List(list, [])
  {
    TestsExact(list, m);
    if !ListEmpty(list) {
      NoDupParts([list], m);
      assert list in [list] + m;
      ListSpliceTail(list, head, m, l);
      Reinit(list, [head] + (l + m));
    } else {
      assert l + m == l;
    }
  }

  /** The INIT_LIST_HEAD step of the two init forms. */
  method Reinit(list: ListHead, ghost s: seq<ListHead>)
    requires Ring(s) && list !in s
    modifies list
    ensures List(list, []) && Ring(s)
  {
    InitListHead(list);
    RingKept(s);
  }

  /** Cutting a list anywhere and splicing the part cut off back onto the front restores the list, and with it
      (RingLinks) every link of its nodes. */
  method CutThenSplice(list: ListHead, head: ListHead, entry: ListHead, ghost l: seq<ListHead>, ghost k: nat)
    requires List(head, l) && list !in [head] + l && k < |l| && l[k] == entry
    modifies list, head, l
    ensures List(head, l)
  {
    ghost var a, b := l[..k + 1], l[k + 1..];
    assert l == a + b && [head] + l == [head] + a + b;
    RingParts([head], a, b);
    ListCutPosition(list, head, entry, l, k);
    assert forall x :: x in [list] + a ==> x == list || x in a;
    ListSplice(list, head, a, b);
  }
}

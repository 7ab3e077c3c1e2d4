/** hlist and the hash table over it (lib/list.h, lib/hashtable.h): singly headed lists whose nodes point back at
    whatever points at them. */
module HashLists {
  import opened Basics
  import opened Hashing
  import opened Rows
  import Ash

  /** What pprev designates: nothing, the first pointer of a bucket, or the next pointer of a node. */
  datatype Back = Unhashed | AtHead(head: HlistHead) | AtNode(node: HlistNode)

  class HlistHead {
    var first: HlistNode?

    constructor ()
      ensures first == null
    {
      first := null;
    }
  }

  class HlistNode {
    var next: HlistNode?
    var pprev: Back

    /** INIT_HLIST_NODE. */
    constructor ()
      ensures next == null && pprev == Unhashed
    {
      next, pprev := null, Unhashed;
    }
  }

  ghost function First(s: seq<HlistNode>, tail: HlistNode?): HlistNode? {
    if s == [] then tail else s[0]
  }

  ghost function Last(back: Back, s: seq<HlistNode>): Back {
    if s == [] then back else AtNode(s[|s| - 1])
  }

  ghost function Succ(s: seq<HlistNode>, k: nat, tail: HlistNode?): HlistNode? {
    if k + 1 < |s| then s[k + 1] else tail
  }

  ghost function Pred(back: Back, s: seq<HlistNode>, k: nat): Back
    requires k <= |s|
  {
    if k == 0 then back else AtNode(s[k - 1])
  }

  ghost predicate Linked(x: HlistNode, pprev: Back, next: HlistNode?)
    reads x
  {
    x.pprev == pprev && x.next == next
  }

  /** The nodes s in a row: back points at the first of them, the last one points at tail. */
  ghost predicate Segment(back: Back, s: seq<HlistNode>, tail: HlistNode?)
    reads s
  {
    forall k :: 0 <= k < |s| ==> Linked(s[k], Pred(back, s, k), Succ(s, k, tail))
  }

  /** The bucket h holds the nodes s, in order. */
  ghost predicate Hlist(h: HlistHead, s: seq<HlistNode>)
    reads h, s
  {
    NoDup(s) && h.first == First(s, null) && Segment(AtHead(h), s, null)
  }

  /** Positions in a concatenation. */
  lemma InLeft(back: Back, a: seq<HlistNode>, b: seq<HlistNode>, tail: HlistNode?, k: nat)
    requires k < |a|
    ensures (a + b)[k] == a[k] && Pred(back, a + b, k) == Pred(back, a, k)
    ensures Succ(a + b, k, tail) == Succ(a, k, First(b, tail))
  {
  }

  lemma InRight(back: Back, a: seq<HlistNode>, b: seq<HlistNode>, tail: HlistNode?, k: nat)
    requires |a| <= k < |a + b|
    ensures (a + b)[k] == b[k - |a|] && Pred(back, a + b, k) == Pred(Last(back, a), b, k - |a|)
    ensures Succ(a + b, k, tail) == Succ(b, k - |a|, tail)
  {
  }

  lemma SegmentSplit(back: Back, a: seq<HlistNode>, b: seq<HlistNode>, tail: HlistNode?)
    requires Segment(back, a + b, tail)
    ensures Segment(back, a, First(b, tail)) && Segment(Last(back, a), b, tail)
  {
    var s := a + b;
    forall k | 0 <= k < |a| ensures Linked(a[k], Pred(back, a, k), Succ(a, k, First(b, tail))) {
      InLeft(back, a, b, tail, k);
      assert Linked(s[k], Pred(back, s, k), Succ(s, k, tail));
    }
    forall k | 0 <= k < |b| ensures Linked(b[k], Pred(Last(back, a), b, k), Succ(b, k, tail)) {
      InRight(back, a, b, tail, |a| + k);
      assert Linked(s[|a| + k], Pred(back, s, |a| + k), Succ(s, |a| + k, tail));
    }
  }

  lemma SegmentJoin(back: Back, a: seq<HlistNode>, b: seq<HlistNode>, tail: HlistNode?)
    requires Segment(back, a, First(b, tail)) && Segment(Last(back, a), b, tail)
    ensures Segment(back, a + b, tail)
  {
    var s := a + b;
    forall k | 0 <= k < |s| ensures Linked(s[k], Pred(back, s, k), Succ(s, k, tail)) {
      if k < |a| {
        InLeft(back, a, b, tail, k);
      } else {
        InRight(back, a, b, tail, k);
      }
    }
  }

  /** The object that holds the pointer. */
  ghost function Holder(b: Back): object? {
    match b
    case Unhashed => null
    case AtHead(h) => h
    case AtNode(n) => n
  }

  /** hlist_add_head. */
  method HlistAddHead(n: HlistNode, h: HlistHead, ghost s: seq<HlistNode>)
    requires Hlist(h, s) && n !in s
    modifies n, h, h.first
    ensures Hlist(h, [n] + s)
  {
    var first := h.first;
    n.next := first;
    if first != null {
      first.pprev := AtNode(n);
    }
    h.first := n;
    n.pprev := AtHead(h);
    assert Segment(AtNode(n), s, null);
    SegmentJoin(AtHead(h), [n], s, null);
  }

  lemma DelParts(n: HlistNode, h: HlistHead, a: seq<HlistNode>, b: seq<HlistNode>)
    requires Hlist(h, a + [n] + b)
    ensures Segment(AtHead(h), a, n) && Segment(AtNode(n), b, null) && Linked(n, Last(AtHead(h), a), First(b, null))
    ensures NoDup(a) && NoDup(b) && Disjoint(a, b) && n !in a && n !in b
  {
    SegmentSplit(AtHead(h), a + [n], b, null);
    SegmentSplit(AtHead(h), a, [n], First(b, null));
    NoDupParts(a + [n], b);
    NoDupParts(a, [n]);
    assert forall x :: x in a || x == n ==> x in a + [n];
    assert n in [n];
    assert Linked([n][0], Pred(Last(AtHead(h), a), [n], 0), Succ([n], 0, First(b, null)));
  }

  /** *pprev = next: the last pointer of the segment a. */
  method SetPointer(pprev: Back, next: HlistNode?, ghost h: HlistHead, ghost a: seq<HlistNode>, ghost n: HlistNode)
    requires h.first == First(a, n) && Segment(AtHead(h), a, n) && NoDup(a) && pprev == Last(AtHead(h), a)
    modifies Holder(pprev)
    ensures h.first == First(a, next) && Segment(AtHead(h), a, next)
  {
    ghost var z := |a| - 1;
    assert forall k :: 0 <= k < |a| ==> Linked(a[k], Pred(AtHead(h), a, k), Succ(a, k, n));
    match pprev {
      case Unhashed =>
      case AtHead(head) => head.first := next;
      case AtNode(node) => node.next := next;
    }
    forall k | 0 <= k < |a| ensures Linked(a[k], Pred(AtHead(h), a, k), Succ(a, k, next)) {
      assert k < z ==> a[k] != a[z];
    }
  }

  /** next->pprev = pprev: the first back pointer of the segment b. */
  method SetBack(next: HlistNode?, pprev: Back, ghost b: seq<HlistNode>, ghost back: Back)
    requires Segment(back, b, null) && NoDup(b) && next == First(b, null)
    modifies next
    ensures Segment(pprev, b, null)
  {
    assert forall k :: 0 <= k < |b| ==> Linked(b[k], Pred(back, b, k), Succ(b, k, null));
    if next != null {
      next.pprev := pprev;
    }
    forall k | 0 <= k < |b| ensures Linked(b[k], Pred(pprev, b, k), Succ(b, k, null)) {
      assert k > 0 ==> b[k] != b[0];
    }
  }

  /** __hlist_del. */
  method HlistDel(n: HlistNode, ghost h: HlistHead, ghost a: seq<HlistNode>, ghost b: seq<HlistNode>)
    requires Hlist(h, a + [n] + b)
    modifies Holder(n.pprev), n.next
    ensures Hlist(h, a + b) && n !in a + b
  {
    DelParts(n, h, a, b);
    assert h.first == First(a, n);
    assert a != [] ==> a[|a| - 1] in a;
    assert b != [] ==> b[0] in b;
    var next, pprev := n.next, n.pprev;
    SetPointer(pprev, next, h, a, n);
    SetBack(next, pprev, b, AtNode(n));
    SegmentJoin(AtHead(h), a, b, null);
    NoDupConcat(a, b);
  }

  /** The rest of hlist_del_init, for a node on a list. */
  method HlistUnhash(n: HlistNode, ghost h: HlistHead, ghost a: seq<HlistNode>, ghost b: seq<HlistNode>)
    requires Hlist(h, a + [n] + b)
    modifies n, Holder(n.pprev), n.next
    ensures Hlist(h, a + b) && n.next == null && n.pprev == Unhashed
  {
    HlistDel(n, h, a, b);
    n.next, n.pprev := null, Unhashed;
  }

  class HashTable {
    /** s_link of each descriptor of semd_table. */
    const link: seq<HlistNode>
    /** semd_h. */
    const head: seq<HlistHead>
    /** The descriptors in each bucket, in order. */
    ghost var bucket: seq<seq<Ash.Slot>>

    ghost predicate Shape() {
      |link| == MAX_PROC && |head| == Ash.BUCKETS && NoDup(link) && NoDup(head)
    }

    /** The s_link fields of the descriptors and the heads of the buckets. */
    constructor (link: seq<HlistNode>, head: seq<HlistHead>)
      requires |link| == MAX_PROC && |head| == Ash.BUCKETS && NoDup(link) && NoDup(head)
      ensures Shape() && this.link == link && this.head == head
    {
      this.link, this.head, bucket := link, head, [];
    }

    ghost function Links(s: seq<Ash.Slot>): (r: seq<HlistNode>)
      requires |link| == MAX_PROC
      ensures |r| == |s| && forall k :: 0 <= k < |s| ==> r[k] == link[s[k]]
    {
      seq(|s|, k requires 0 <= k < |s| => link[s[k]])
    }

    /** Each bucket is an hlist, no descriptor is in two buckets, and pprev tells which descriptors are in one. */
    ghost predicate Buckets(q: seq<seq<Ash.Slot>>)
      reads link, head
    {
      Shape() && |q| == Ash.BUCKETS && Separate(q) &&
      (forall b :: 0 <= b < Ash.BUCKETS ==> Hlist(head[b], Links(q[b]))) &&
      forall i: Ash.Slot :: OnNone(q, i) <==> link[i].pprev == Unhashed
    }

    ghost predicate Valid()
      reads this, link, head
    {
      Buckets(bucket)
    }

    lemma OffBucket(s: seq<Ash.Slot>, i: Ash.Slot)
      requires Shape() && i !in s
      ensures link[i] !in Links(s)
    {
    }

    lemma OffBuckets(s: seq<Ash.Slot>, t: seq<Ash.Slot>)
      requires Shape() && Disjoint(s, t)
      ensures Disjoint(Links(s), Links(t))
    {
      forall x | x in Links(s) ensures x !in Links(t) {
        var k :| 0 <= k < |s| && x == link[s[k]];
        assert s[k] in s;
        OffBucket(t, s[k]);
      }
    }

    lemma FirstOf(q: seq<seq<Ash.Slot>>, b: nat)
      requires Shape() && b < |q| == Ash.BUCKETS && Hlist(head[b], Links(q[b]))
      ensures head[b].first == null <==> q[b] == []
      ensures head[b].first != null ==> head[b].first in Links(q[b]) && head[b].first in link
    {
    }

    /** hash_hashed. */
    method HashHashed(i: Ash.Slot) returns (r: bool)
      requires Valid()
      ensures r <==> !OnNone(bucket, i)
    {
      r := link[i].pprev != Unhashed;
    }

    /** __hash_empty. */
    method HashEmpty() returns (r: bool)
      requires Valid()
      ensures r <==> forall b :: 0 <= b < |bucket| ==> bucket[b] == []
    {
      var b := 0;
      while b < Ash.BUCKETS
        invariant 0 <= b <= Ash.BUCKETS && forall c :: 0 <= c < b ==> bucket[c] == []
      {
        FirstOf(bucket, b);
        if head[b].first != null {
          return false;
        }
        b := b + 1;
      }
      return true;
    }

    /** __hash_init, for a pool none of whose nodes is in a bucket. */
    method HashInit()
      requires Shape() && forall i: Ash.Slot :: link[i].pprev == Unhashed
      modifies this`bucket, head
      ensures Valid() && forall b :: 0 <= b < |bucket| ==> bucket[b] == []
    {
      var b := 0;
      while b < Ash.BUCKETS
        invariant 0 <= b <= Ash.BUCKETS && forall c :: 0 <= c < b ==> head[c].first == null
      {
        head[b].first := null;
        b := b + 1;
      }
      bucket := seq(Ash.BUCKETS, b => []);
    }

    /** hash_add: the descriptor goes to the front of the bucket of its key's hash. */
    method HashAdd(i: Ash.Slot, key: u32)
      requires Valid() && OnNone(bucket, i)
      modifies this`bucket, link, head
      ensures Valid()
      ensures var b := Hash32(key, Ash.HASH_BITS); b < Ash.BUCKETS && bucket == old(bucket)[b := [i] + old(bucket)[b]]
    {
      HashInRange(key, Ash.HASH_BITS);
      var b := Hash32(key, Ash.HASH_BITS);
      AddTo(i, b);
    }

    /** The nodes near bucket b are in no other bucket. */
    lemma ApartFrom(q: seq<seq<Ash.Slot>>, b: nat, i: Ash.Slot)
      requires Buckets(q) && b < Ash.BUCKETS && forall g :: 0 <= g < Ash.BUCKETS && g != b ==> i !in q[g]
      ensures forall g :: 0 <= g < Ash.BUCKETS && g != b ==>
        head[g] != head[b] && link[i] !in Links(q[g]) && Disjoint(Links(q[b]), Links(q[g]))
      ensures forall x: Ash.Slot :: x !in q[b] ==> link[x] !in Links(q[b])
    {
      forall g | 0 <= g < Ash.BUCKETS && g != b
        ensures link[i] !in Links(q[g]) && Disjoint(Links(q[b]), Links(q[g]))
      {
        OffBucket(q[g], i);
        OffBuckets(q[b], q[g]);
      }
      forall x: Ash.Slot | x !in q[b] ensures link[x] !in Links(q[b]) {
        OffBucket(q[b], x);
      }
    }

    /** The buckets other than b, and the descriptors off bucket b other than i, are in order. */
    ghost predicate Beside(q: seq<seq<Ash.Slot>>, b: nat, i: Ash.Slot)
      reads link, head
    {
      Shape() && |q| == Ash.BUCKETS && b < Ash.BUCKETS && Separate(q) &&
      (forall g :: 0 <= g < Ash.BUCKETS && g != b ==> i !in q[g] && Hlist(head[g], Links(q[g]))) &&
      forall x: Ash.Slot :: x != i && x !in q[b] ==> (OnNone(q, x) <==> link[x].pprev == Unhashed)
    }

    /** What must hold once only bucket b has been relinked, around descriptor i. */
    lemma Rebuilt(q: seq<seq<Ash.Slot>>, b: nat, i: Ash.Slot, l: seq<Ash.Slot>)
      requires Beside(q, b, i)
      requires Hlist(head[b], Links(l)) && SameBut(l, q[b], i)
      requires link[i].pprev == Unhashed <==> i !in l
      ensures Buckets(q[b := l])
    {
      var r := q[b := l];
      RowReplaced(q, b, i, l);
      forall g | 0 <= g < Ash.BUCKETS ensures Hlist(head[g], Links(r[g])) {
      }
      forall x: Ash.Slot ensures OnNone(r, x) <==> link[x].pprev == Unhashed {
        Status(q, b, i, l, x);
      }
    }

    lemma Status(q: seq<seq<Ash.Slot>>, b: nat, i: Ash.Slot, l: seq<Ash.Slot>, x: Ash.Slot)
      requires Beside(q, b, i) && Hlist(head[b], Links(l)) && SameBut(l, q[b], i)
      requires link[i].pprev == Unhashed <==> i !in l
      ensures OnNone(q[b := l], x) <==> link[x].pprev == Unhashed
    {
      RowReplaced(q, b, i, l);
      if x in l {
        HashedIn(l, x, b);
        assert x in q[b := l][b];
      }
    }

    lemma HashedIn(l: seq<Ash.Slot>, x: Ash.Slot, b: nat)
      requires Shape() && b < Ash.BUCKETS && Hlist(head[b], Links(l)) && x in l
      ensures link[x].pprev != Unhashed
    {
    }

    /** hlist_add_head on bucket b. */
    method AddTo(i: Ash.Slot, b: nat)
      requires Valid() && OnNone(bucket, i) && b < Ash.BUCKETS
      modifies this`bucket, link, head
      ensures Valid() && bucket == old(bucket)[b := [i] + old(bucket)[b]]
    {
      ghost var q := bucket;
      FirstOf(q, b);
      PrependAlone(i, b);
      Rebuilt(q, b, i, [i] + q[b]);
      bucket := q[b := [i] + q[b]];
    }

    /** Adding to bucket b leaves the other buckets and pprev of the other descriptors alone. */
    method PrependAlone(i: Ash.Slot, b: nat)
      requires Valid() && OnNone(bucket, i) && b < Ash.BUCKETS
      modifies link[i], head[b], head[b].first
      ensures Hlist(head[b], Links([i] + bucket[b])) && link[i].pprev != Unhashed && Beside(bucket, b, i)
    {
      ApartFrom(bucket, b, i);
      FirstOf(bucket, b);
      Prepend(i, b);
    }

    /** The link writes of hlist_add_head. */
    method Prepend(i: Ash.Slot, b: nat)
      requires Shape() && b < |bucket| == Ash.BUCKETS && Hlist(head[b], Links(bucket[b])) && i !in bucket[b]
      modifies link[i], head[b], head[b].first
      ensures Hlist(head[b], Links([i] + bucket[b])) && link[i].pprev != Unhashed
    {
      OffBucket(bucket[b], i);
      LinksSplit([], i, bucket[b]);
      assert [] + [i] + bucket[b] == [i] + bucket[b] && Links([]) + [link[i]] == [link[i]];
      HlistAddHead(link[i], head[b], Links(bucket[b]));
    }

    lemma NoDupBucket(l: seq<Ash.Slot>, b: nat)
      requires Shape() && b < Ash.BUCKETS && Hlist(head[b], Links(l))
      ensures NoDup(l)
    {
    }

    lemma LinksConcat(a: seq<Ash.Slot>, c: seq<Ash.Slot>)
      requires |link| == MAX_PROC
      ensures Links(a + c) == Links(a) + Links(c)
    {
    }

    /** The bucket of descriptor i, cut at i. */
    lemma Parts(l: seq<Ash.Slot>, i: Ash.Slot, b: nat) returns (a: seq<Ash.Slot>, c: seq<Ash.Slot>)
      requires Shape() && b < Ash.BUCKETS && i in l && Hlist(head[b], Links(l))
      ensures Minus(l, {i}) == a + c && Links(l) == Links(a) + [link[i]] + Links(c)
      ensures Links(a + c) == Links(a) + Links(c)
    {
      NoDupBucket(l, b);
      a, c := CutAt(l, i);
      MinusMiddle(a, i, c);
      LinksConcat(a, c);
      LinksSplit(a, i, c);
    }

    lemma LinksSplit(a: seq<Ash.Slot>, i: Ash.Slot, c: seq<Ash.Slot>)
      requires |link| == MAX_PROC
      ensures Links(a + [i] + c) == Links(a) + [link[i]] + Links(c)
    {
    }

    /** The objects next to descriptor i: its holder is its bucket or a node of its bucket, and so is what follows. */
    lemma Around(l: seq<Ash.Slot>, i: Ash.Slot, b: nat)
      requires Shape() && b < Ash.BUCKETS && i in l && Hlist(head[b], Links(l))
      ensures link[i].pprev == AtHead(head[b]) || (link[i].pprev.AtNode? && link[i].pprev.node in Links(l))
      ensures link[i].next == null || link[i].next in Links(l)
    {
    }

    /** The link writes of hlist_del_init for a descriptor in a bucket that holds l. */
    method Unchain(i: Ash.Slot, ghost b: nat, ghost l: seq<Ash.Slot>)
      requires Shape() && b < Ash.BUCKETS && i in l && Hlist(head[b], Links(l))
      modifies link[i], Holder(link[i].pprev), link[i].next
      ensures link[i].pprev == Unhashed && Hlist(head[b], Links(Minus(l, {i})))
    {
      ghost var a, c := Parts(l, i, b);
      HlistUnhash(link[i], head[b], Links(a), Links(c));
    }

    lemma ClearNode(q: seq<seq<Ash.Slot>>, b: nat, i: Ash.Slot, x: Ash.Slot)
      requires Buckets(q) && b < Ash.BUCKETS && i in q[b] && x !in q[b]
      ensures link[x] != link[i] && link[x] != Holder(link[i].pprev) && link[x] != link[i].next
    {
      Around(q[b], i, b);
      OffBucket(q[b], x);
    }

    lemma ClearHead(q: seq<seq<Ash.Slot>>, b: nat, i: Ash.Slot, g: nat)
      requires Buckets(q) && b < Ash.BUCKETS && i in q[b] && g < Ash.BUCKETS && g != b
      ensures i !in q[g] && head[g] != Holder(link[i].pprev)
    {
      assert Disjoint(q[b], q[g]);
      Around(q[b], i, b);
    }

    /** Unchaining i writes no other bucket and none of its descriptors. */
    method UnchainNear(i: Ash.Slot, ghost b: nat, ghost q: seq<seq<Ash.Slot>>)
      requires Buckets(q) && b < Ash.BUCKETS && i in q[b]
      modifies link[i], Holder(link[i].pprev), link[i].next
      ensures link[i].pprev == Unhashed && Hlist(head[b], Links(Minus(q[b], {i})))
      ensures forall g :: 0 <= g < Ash.BUCKETS && g != b ==> head[g].first == old(head[g].first)
      ensures forall x: Ash.Slot :: x !in q[b] ==>
        link[x].next == old(link[x].next) && link[x].pprev == old(link[x].pprev)
    {
      forall g | 0 <= g < Ash.BUCKETS && g != b ensures head[g] != Holder(link[i].pprev) {
        ClearHead(q, b, i, g);
      }
      forall x: Ash.Slot | x !in q[b]
        ensures link[x] != link[i] && link[x] != Holder(link[i].pprev) && link[x] != link[i].next
      {
        ClearNode(q, b, i, x);
      }
      Unchain(i, b, q[b]);
    }

    method UnchainAlone(i: Ash.Slot, ghost b: nat, ghost q: seq<seq<Ash.Slot>>)
      requires Buckets(q) && b < Ash.BUCKETS && i in q[b]
      modifies link[i], Holder(link[i].pprev), link[i].next
      ensures link[i].pprev == Unhashed && Hlist(head[b], Links(Minus(q[b], {i}))) && Beside(q, b, i)
    {
      UnchainNear(i, b, q);
      forall g | 0 <= g < Ash.BUCKETS && g != b ensures i !in q[g] && Hlist(head[g], Links(q[g])) {
        var s := Links(q[g]);
        assert Disjoint(q[b], q[g]);
        forall k | 0 <= k < |s| ensures Linked(s[k], Pred(AtHead(head[g]), s, k), Succ(s, k, null)) {
          assert q[g][k] in q[g];
          assert old(Linked(s[k], Pred(AtHead(head[g]), s, k), Succ(s, k, null)));
        }
      }
    }

    lemma InTable(q: seq<seq<Ash.Slot>>, b: nat, i: Ash.Slot)
      requires Buckets(q) && b < Ash.BUCKETS && i in q[b]
      ensures link[i].pprev.AtHead? ==> link[i].pprev.head in head
      ensures link[i].pprev.AtNode? ==> link[i].pprev.node in link
      ensures link[i].pprev != Unhashed && (link[i].next == null || link[i].next in link)
    {
      Around(q[b], i, b);
      HashedIn(q[b], i, b);
      assert forall x :: x in Links(q[b]) ==> x in link;
    }

    /** hlist_del_init for a descriptor in bucket b. */
    method DelFrom(i: Ash.Slot, ghost b: nat, ghost q: seq<seq<Ash.Slot>>)
      requires Buckets(q) && b < Ash.BUCKETS && i in q[b] && Without(q, i) == q[b := Minus(q[b], {i})]
      modifies link, head
      ensures Buckets(Without(q, i))
    {
      ghost var l := Minus(q[b], {i});
      assert SameBut(l, q[b], i) && i !in l;
      InTable(q, b, i);
      UnchainAlone(i, b, q);
      Rebuilt(q, b, i, l);
    }

    lemma BucketHolding(q: seq<seq<Ash.Slot>>, i: Ash.Slot) returns (b: nat)
      requires Buckets(q) && link[i].pprev != Unhashed
      ensures b < Ash.BUCKETS && i in q[b] && Without(q, i) == q[b := Minus(q[b], {i})]
    {
      assert !OnNone(q, i);
      b :| b < Ash.BUCKETS && i in q[b];
      WithoutEffect(q, i, b);
    }

    /** hash_del (hlist_del_init): the descriptor leaves its bucket, if it is in one; the other buckets are as they
        were. */
    method HashDel(i: Ash.Slot)
      requires Valid()
      modifies this`bucket, link, head
      ensures Valid() && bucket == Without(old(bucket), i)
    {
      Del(i, bucket);
      bucket := Without(bucket, i);
    }

    method Del(i: Ash.Slot, ghost q: seq<seq<Ash.Slot>>)
      requires Buckets(q)
      modifies link, head
      ensures Buckets(Without(q, i))
    {
      if link[i].pprev != Unhashed {
        ghost var b := BucketHolding(q, i);
        DelFrom(i, b, q);
      } else {
        LooseWithout(q, i);
      }
    }
  }

  /** The fields of semd_table, none of them in a bucket. */
  method NewLinks(n: nat) returns (s: seq<HlistNode>)
    ensures |s| == n && NoDup(s) && fresh(s) && forall x :: x in s ==> x.pprev == Unhashed
  {
    s := [];
    while |s| < n
      invariant |s| <= n && NoDup(s) && fresh(s) && forall x :: x in s ==> x.pprev == Unhashed
    {
      var x := new HlistNode();
      s := s + [x];
    }
  }

  method NewHeads(n: nat) returns (s: seq<HlistHead>)
    ensures |s| == n && NoDup(s) && fresh(s)
  {
    s := [];
    while |s| < n
      invariant |s| <= n && NoDup(s) && fresh(s)
    {
      var x := new HlistHead();
      s := s + [x];
    }
  }

  /** semd_table and semd_h, and hash_init in initASH. */
  method NewTable() returns (t: HashTable)
    ensures fresh(t) && fresh(t.link) && fresh(t.head) && t.Valid()
    ensures forall b :: 0 <= b < |t.bucket| ==> t.bucket[b] == []
  {
    var link := NewLinks(MAX_PROC);
    var head := NewHeads(Ash.BUCKETS);
    t := new HashTable(link, head);
    t.HashInit();
  }
}

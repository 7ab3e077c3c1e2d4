/** sysGetChildren: the descendants of the caller that its PID namespace lets it see. */
module Family {
  import opened Basics
  import opened Forests
  import opened Links
  import opened TreeOrder

  /** PID namespaces; absent means NULL. */
  type Namespaces = map<Pid, int>

  function NsOf(ns: Namespaces, p: Pid): Option<int> {
    if p in ns then Some(ns[p]) else None
  }

  /** What a preorder walk of f meets that never enters a process of another namespace. */
  function Visible(f: Forest, ns: Namespaces, n: Option<int>): (r: seq<Pid>)
    ensures forall p :: p in r ==> p in Members(f)
    decreases f, 0
  {
    match f
    case Nil => []
    case Cons(p, k, rest) => Seen(p, k, ns, n) + Visible(rest, ns, n)
  }

  /** The part of the walk under p. */
  function Seen(p: Pid, kids: Forest, ns: Namespaces, n: Option<int>): (r: seq<Pid>)
    ensures forall q :: q in r ==> q == p || q in Members(kids)
    decreases kids, 1
  {
    if NsOf(ns, p) == n then [p] + Visible(kids, ns, n) else []
  }

  // ---- which processes that is

  /** p or one of its ancestors within f is in another namespace. */
  function Hidden(f: Forest, ns: Namespaces, n: Option<int>): set<Pid> {
    set p | p in Members(f) && HiddenBy(f, ns, n, p)
  }

  predicate HiddenBy(f: Forest, ns: Namespaces, n: Option<int>, p: Pid) {
    exists a :: a in Members(f) && AncestorOrSelf(f, a, p) && NsOf(ns, a) != n
  }

  lemma {:induction false} MinusAll(s: seq<Pid>, x: set<Pid>)
    requires forall p :: p in s ==> p in x
    ensures Minus(s, x) == []
  {
    if s != [] {
      MinusAll(s[1..], x);
    }
  }

  lemma {:induction false} MinusSame(s: seq<Pid>, x: set<Pid>, y: set<Pid>)
    requires forall p :: p in s ==> (p in x <==> p in y)
    ensures Minus(s, x) == Minus(s, y)
  {
    if s != [] {
      MinusSame(s[1..], x, y);
    }
  }

  /** Ancestors in a forest, seen from its first tree and from the others. */
  lemma HiddenCons(f: Forest, ns: Namespaces, n: Option<int>, p: Pid)
    requires f.Cons? && Distinct(f) && p in Members(f)
    ensures p == f.pid ==> (HiddenBy(f, ns, n, p) <==> NsOf(ns, p) != n)
    ensures p in Members(f.kids) ==> (HiddenBy(f, ns, n, p) <==> NsOf(ns, f.pid) != n || HiddenBy(f.kids, ns, n, p))
    ensures p in Members(f.rest) ==> (HiddenBy(f, ns, n, p) <==> HiddenBy(f.rest, ns, n, p))
  {
    forall a | a in Members(f) ensures
      AncestorOrSelf(f, a, p) <==>
        (if a == f.pid then p == f.pid || p in Members(f.kids)
         else if a in Members(f.kids) then AncestorOrSelf(f.kids, a, p) else AncestorOrSelf(f.rest, a, p))
    {
    }
    assert AncestorOrSelf(f, f.pid, p) <==> p == f.pid || p in Members(f.kids);
  }

  /** The walk returns, in preorder, exactly the processes that no process of another namespace separates from the
      root of the walk. */
  lemma {:induction false} VisibleExact(f: Forest, ns: Namespaces, n: Option<int>)
    requires Distinct(f)
    ensures Visible(f, ns, n) == Minus(Preorder(f), Hidden(f, ns, n))
  {
    if f.Cons? {
      var x, p, k, r := Hidden(f, ns, n), f.pid, Preorder(f.kids), Preorder(f.rest);
      VisibleExact(f.kids, ns, n);
      VisibleExact(f.rest, ns, n);
      HiddenParts(f, ns, n);
      MinusConcat([p], k, x);
      MinusConcat([p] + k, r, x);
      MinusSame(r, x, Hidden(f.rest, ns, n));
      if NsOf(ns, p) == n {
        MinusSame(k, x, Hidden(f.kids, ns, n));
      } else {
        MinusAll(k, x);
      }
      assert Minus([p], x) == if NsOf(ns, p) == n then [p] else [];
    }
  }

  /** However much of the walk there is room for: no process comes before one of its ancestors, and the family of an
      older sibling comes before that of a younger one. */
  lemma VisibleInOrder(f: Forest, ns: Namespaces, n: Option<int>, m: nat)
    requires Distinct(f) && m <= |Visible(f, ns, n)|
    ensures ParentsFirst(f, Visible(f, ns, n)[..m])
  {
    VisibleExact(f, ns, n);
    PreorderParentsFirst(f);
    PartOfWalk(f, Preorder(f), Hidden(f, ns, n), m);
  }

  /** The walk meets each process that none of another namespace hides, and no other, once. */
  lemma VisibleOnce(f: Forest, ns: Namespaces, n: Option<int>)
    requires Distinct(f)
    ensures NoDup(Visible(f, ns, n))
    ensures forall p :: p in Visible(f, ns, n) <==> p in Members(f) && !HiddenBy(f, ns, n, p)
  {
    VisibleExact(f, ns, n);
    NoDupPreorder(f);
    NoDupMinus(Preorder(f), Hidden(f, ns, n));
  }

  lemma HiddenParts(f: Forest, ns: Namespaces, n: Option<int>)
    requires f.Cons? && Distinct(f)
    ensures f.pid in Hidden(f, ns, n) <==> NsOf(ns, f.pid) != n
    ensures forall p :: p in Members(f.kids) ==>
      (p in Hidden(f, ns, n) <==> NsOf(ns, f.pid) != n || p in Hidden(f.kids, ns, n))
    ensures forall p :: p in Members(f.rest) ==> (p in Hidden(f, ns, n) <==> p in Hidden(f.rest, ns, n))
  {
    HiddenCons(f, ns, n, f.pid);
    forall p | p in Members(f.kids)
      ensures p in Hidden(f, ns, n) <==> NsOf(ns, f.pid) != n || p in Hidden(f.kids, ns, n)
    {
      HiddenCons(f, ns, n, p);
    }
    forall p | p in Members(f.rest) ensures p in Hidden(f, ns, n) <==> p in Hidden(f.rest, ns, n) {
      HiddenCons(f, ns, n, p);
    }
  }

  // ---- the array

  /** The caller's array and the fill count. */
  datatype Buffer = Buffer(cells: seq<Pid>, used: int)

  /** Stores the elements of v one by one while there is room. */
  function Stored(b: Buffer, size: int, v: seq<Pid>): Buffer
    requires 0 <= b.used && size <= |b.cells|
    decreases |v|
  {
    if v == [] then b
    else if b.used < size then Stored(Buffer(b.cells[b.used := v[0]], b.used + 1), size, v[1..])
    else b
  }

  lemma {:induction false} StoredShape(b: Buffer, size: int, v: seq<Pid>)
    requires 0 <= b.used && size <= |b.cells|
    ensures |Stored(b, size, v).cells| == |b.cells| && Stored(b, size, v).used >= b.used
    decreases |v|
  {
    if v != [] && b.used < size {
      StoredShape(Buffer(b.cells[b.used := v[0]], b.used + 1), size, v[1..]);
    }
  }

  lemma {:induction false} StoredTwice(b: Buffer, size: int, v: seq<Pid>, w: seq<Pid>)
    requires 0 <= b.used && size <= |b.cells|
    ensures Stored(b, size, v).used >= 0 && |Stored(b, size, v).cells| == |b.cells|
    ensures Stored(Stored(b, size, v), size, w) == Stored(b, size, v + w)
    decreases |v|
  {
    StoredShape(b, size, v);
    if v == [] {
      assert v + w == w;
    } else if b.used < size {
      assert (v + w)[1..] == v[1..] + w;
      StoredTwice(Buffer(b.cells[b.used := v[0]], b.used + 1), size, v[1..], w);
    }
  }

  /** How many of `count` elements fit. */
  function Fitting(size: int, count: nat): nat {
    if size <= 0 then 0 else if size < count then size else count
  }

  lemma {:induction false} StoredExact(b: Buffer, size: int, v: seq<Pid>)
    requires 0 <= b.used && size <= |b.cells|
    ensures var m := Fitting(size - b.used, |v|); var r := Stored(b, size, v);
      && r.used == b.used + m
      && (m == 0 ==> r == b)
      && (m > 0 ==> r.cells == b.cells[..b.used] + v[..m] + b.cells[b.used + m..])
    decreases |v|
  {
    if v != [] && b.used < size {
      var c := Buffer(b.cells[b.used := v[0]], b.used + 1);
      StoredExact(c, size, v[1..]);
    }
  }

  // ---- the recursion

  /** getChildsByNamespace: counts what is seen under p, and stores it, except the caller itself. */
  method GetChildsByNamespace(children: Children, ghost parent: Parents, ns: Namespaces, buf: array<Pid>, size: int,
                              used: int, n: Option<int>, caller: Pid, p: Pid, ghost kids: Forest)
    returns (used': int, count: int)
    requires ChildrenOf(children, p) == Roots(kids) && Linked(kids, Some(p), parent, children)
    requires 0 <= used && size <= buf.Length && caller !in Members(kids)
    modifies buf
    ensures used' >= 0 && count == |Seen(p, kids, ns, n)|
    ensures Buffer(buf[..], used') == Stored(Buffer(old(buf[..]), used), size, Stores(caller, p, kids, ns, n))
    decreases Size(kids), 2
  {
    if NsOf(ns, p) != n {
      return used, 0;
    }
    ghost var b := Buffer(buf[..], used);
    ghost var own := if p == caller then [] else [p];
    used' := StoreOne(buf, size, used, caller, p);
    StoredTwice(b, size, own, Visible(kids, ns, n));
    assert Stores(caller, p, kids, ns, n) == own + Visible(kids, ns, n);
    used', count := GetRest(children, parent, ns, buf, size, used', n, caller, p, kids);
    count := count + 1;
  }

  /** The caller itself is not stored, nor anything once the array is full. */
  method StoreOne(buf: array<Pid>, size: int, used: int, caller: Pid, p: Pid) returns (used': int)
    requires 0 <= used && size <= buf.Length
    modifies buf
    ensures used' >= 0
    ensures Buffer(buf[..], used') == Stored(Buffer(old(buf[..]), used), size, if p == caller then [] else [p])
  {
    used' := used;
    if used' < size && p != caller {
      buf[used'] := p;
      used' := used' + 1;
    }
  }

  /** What is stored under p. */
  function Stores(caller: Pid, p: Pid, kids: Forest, ns: Namespaces, n: Option<int>): seq<Pid> {
    if NsOf(ns, p) != n then []
    else if p == caller then Visible(kids, ns, n)
    else [p] + Visible(kids, ns, n)
  }

  /** One turn of that loop: the first tree of f. */
  method GetFirst(children: Children, ghost parent: Parents, ns: Namespaces, buf: array<Pid>, size: int, used: int,
                  n: Option<int>, caller: Pid, ghost p: Pid, c: Pid, ghost f: Forest)
    returns (used': int, count: int)
    requires f.Cons? && c == f.pid && Linked(f, Some(p), parent, children)
    requires 0 <= used && size <= buf.Length && caller !in Members(f)
    modifies buf
    ensures used' >= 0 && count + |Visible(f.rest, ns, n)| == |Visible(f, ns, n)|
    ensures Stored(Buffer(buf[..], used'), size, Visible(f.rest, ns, n))
         == Stored(Buffer(old(buf[..]), used), size, Visible(f, ns, n))
    decreases Size(f), 0
  {
    ghost var b := Buffer(buf[..], used);
    used', count := GetChildsByNamespace(children, parent, ns, buf, size, used, n, caller, c, f.kids);
    StoredTwice(b, size, Seen(c, f.kids, ns, n), Visible(f.rest, ns, n));
  }

  /** The loop over the children of p. */
  method GetRest(children: Children, ghost parent: Parents, ns: Namespaces, buf: array<Pid>, size: int, used: int,
                 n: Option<int>, caller: Pid, p: Pid, ghost kids: Forest)
    returns (used': int, count: int)
    requires ChildrenOf(children, p) == Roots(kids) && Linked(kids, Some(p), parent, children)
    requires 0 <= used && size <= buf.Length && caller !in Members(kids)
    modifies buf
    ensures used' >= 0 && count == |Visible(kids, ns, n)|
    ensures Buffer(buf[..], used') == Stored(Buffer(old(buf[..]), used), size, Visible(kids, ns, n))
    decreases Size(kids), 1
  {
    used', count := used, 0;
    var l := ChildrenOf(children, p);
    ghost var rest := kids;
    ghost var target := Stored(Buffer(buf[..], used), size, Visible(kids, ns, n));
    while l != []
      invariant Roots(rest) == l && Linked(rest, Some(p), parent, children)
      invariant Size(rest) <= Size(kids) && caller !in Members(rest)
      invariant used' >= 0 && count + |Visible(rest, ns, n)| == |Visible(kids, ns, n)|
      invariant Stored(Buffer(buf[..], used'), size, Visible(rest, ns, n)) == target
      decreases |l|
    {
      var more;
      used', more := GetFirst(children, parent, ns, buf, size, used', n, caller, p, l[0], rest);
      count := count + more;
      rest := rest.rest;
      l := l[1..];
    }
  }

  /** The call in sysGetChildren. */
  method Collect(children: Children, ghost parent: Parents, ns: Namespaces, buf: array<Pid>, size: int, caller: Pid,
                 ghost kids: Forest)
    returns (count: int)
    requires ChildrenOf(children, caller) == Roots(kids) && Linked(kids, Some(caller), parent, children)
    requires size <= buf.Length && caller !in Members(kids)
    modifies buf
    ensures var v := Visible(kids, ns, NsOf(ns, caller)); var m := Fitting(size, |v|);
      count == |v| && m <= buf.Length && buf[..] == v[..m] + old(buf[..])[m..]
  {
    var n := NsOf(ns, caller);
    StoredExact(Buffer(buf[..], 0), size, Visible(kids, ns, n));
    var used;
    used, count := GetChildsByNamespace(children, parent, ns, buf, size, 0, n, caller, caller, kids);
    count := count - 1;
  }

  /** sysGetChildren: the return value counts the descendants the caller sees; the array receives the first of them, as
      many as fit, parents before children, and nothing else changes. */
  method SysGetChildren(children: Children, ghost parent: Parents, ns: Namespaces, buf: array<Pid>, size: int,
                        caller: Pid, ghost kids: Forest)
    returns (count: int)
    requires ChildrenOf(children, caller) == Roots(kids) && Linked(kids, Some(caller), parent, children)
    requires size <= buf.Length && caller !in Members(kids)
    modifies buf
    ensures var v := Visible(kids, ns, NsOf(ns, caller)); var m := Fitting(size, |v|);
      && count == |v| && m <= buf.Length && buf[..] == v[..m] + old(buf[..])[m..]
      && (Distinct(kids) ==> ParentsFirst(kids, buf[..m]))
  {
    ghost var v := Visible(kids, ns, NsOf(ns, caller));
    ghost var m := Fitting(size, |v|);
    if Distinct(kids) {
      VisibleInOrder(kids, ns, NsOf(ns, caller), m);
    }
    count := Collect(children, parent, ns, buf, size, caller, kids);
    assert buf[..m] == v[..m];
  }
}

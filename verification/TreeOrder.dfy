/** The order of the two walks over a process tree, told by ancestors and child lists alone. */
module TreeOrder {
  import opened Basics
  import opened Forests

  /** p comes before q in l. */
  predicate Ahead(l: seq<Pid>, p: Pid, q: Pid) {
    exists i, j :: 0 <= i < j < |l| && l[i] == p && l[j] == q
  }

  /** c is an older sibling of d: before it in a child list, or among the roots. */
  ghost predicate Elder(f: Forest, c: Pid, d: Pid) {
    Ahead(Roots(f), c, d) || exists x :: x in Members(f) && Ahead(Roots(KidsOf(f, x)), c, d)
  }

  /** p is an older sibling of q, or of an ancestor of q, or descends from one. */
  ghost predicate ElderLine(f: Forest, p: Pid, q: Pid) {
    exists c, d :: Elder(f, c, d) && AncestorOrSelf(f, c, p) && AncestorOrSelf(f, d, q)
  }

  /** No process of l comes before one of its ancestors, or before one of an elder line. */
  ghost predicate ParentsFirst(f: Forest, l: seq<Pid>) {
    forall p, q :: Ahead(l, p, q) ==> !AncestorOrSelf(f, q, p) && !ElderLine(f, q, p)
  }

  /** No process of l comes before one of its descendants, or before one of an elder line. */
  ghost predicate ChildrenFirst(f: Forest, l: seq<Pid>) {
    forall p, q :: Ahead(l, p, q) ==> !AncestorOrSelf(f, p, q) && !ElderLine(f, q, p)
  }

  lemma AheadConcat(a: seq<Pid>, b: seq<Pid>, p: Pid, q: Pid)
    requires Ahead(a + b, p, q)
    ensures Ahead(a, p, q) || Ahead(b, p, q) || (p in a && q in b)
  {
    var l := a + b;
    var i, j :| 0 <= i < j < |l| && l[i] == p && l[j] == q;
    if j < |a| {
      assert a[i] == p && a[j] == q;
    } else if i >= |a| {
      assert b[i - |a|] == p && b[j - |a|] == q;
    } else {
      assert a[i] == p && b[j - |a|] == q;
    }
  }

  lemma AheadPrefix(l: seq<Pid>, m: nat, p: Pid, q: Pid)
    requires m <= |l| && Ahead(l[..m], p, q)
    ensures Ahead(l, p, q)
  {
    var i, j :| 0 <= i < j < m && l[..m][i] == p && l[..m][j] == q;
    assert l[i] == p && l[j] == q;
  }

  /** Leaving some out does not change the order of the others. */
  lemma {:induction false} AheadMinus(l: seq<Pid>, x: set<Pid>, p: Pid, q: Pid)
    requires Ahead(Minus(l, x), p, q)
    ensures Ahead(l, p, q)
    decreases |l|
  {
    if l != [] {
      var m := Minus(l[1..], x);
      if l[0] in x || Ahead(m, p, q) {
        AheadMinus(l[1..], x, p, q);
        AheadTail(l, p, q);
      } else {
        AheadConcat([l[0]], m, p, q);
        assert q in l[1..];
        var j :| 0 <= j < |l[1..]| && l[1..][j] == q;
        assert l[0] == p && l[j + 1] == q;
      }
    }
  }

  lemma AheadTail(l: seq<Pid>, p: Pid, q: Pid)
    requires l != [] && Ahead(l[1..], p, q)
    ensures Ahead(l, p, q)
  {
    var i, j :| 0 <= i < j < |l[1..]| && l[1..][i] == p && l[1..][j] == q;
    assert l[i + 1] == p && l[j + 1] == q;
  }

  /** Ancestors in a forest, seen from its first tree and from the others. */
  lemma AncestorCons(f: Forest, a: Pid, p: Pid)
    requires f.Cons? && Distinct(f) && AncestorOrSelf(f, a, p)
    ensures a == f.pid ==> p == f.pid || p in Members(f.kids)
    ensures a in Members(f.kids) ==> p in Members(f.kids) && AncestorOrSelf(f.kids, a, p)
    ensures a in Members(f.rest) ==> p in Members(f.rest) && AncestorOrSelf(f.rest, a, p)
  {
  }

  lemma ElderCons(f: Forest, c: Pid, d: Pid)
    requires f.Cons? && Distinct(f) && Elder(f, c, d)
    ensures (c == f.pid && d in Members(f.rest)) || Elder(f.kids, c, d) || Elder(f.rest, c, d)
  {
    if Ahead(Roots(f), c, d) {
      AheadConcat([f.pid], Roots(f.rest), c, d);
    } else {
      var x :| x in Members(f) && Ahead(Roots(KidsOf(f, x)), c, d);
      assert x != f.pid ==> KidsOf(f, x) == if x in Members(f.kids) then KidsOf(f.kids, x) else KidsOf(f.rest, x);
    }
  }

  lemma ElderMembers(f: Forest, c: Pid, d: Pid)
    requires Elder(f, c, d)
    ensures c in Members(f) && d in Members(f)
  {
    if Ahead(Roots(f), c, d) {
      assert c in Roots(f) && d in Roots(f);
    } else {
      var x :| x in Members(f) && Ahead(Roots(KidsOf(f, x)), c, d);
      assert c in Roots(KidsOf(f, x)) && d in Roots(KidsOf(f, x));
    }
  }

  lemma ElderLineCons(f: Forest, p: Pid, q: Pid)
    requires f.Cons? && Distinct(f) && ElderLine(f, p, q)
    ensures || (p !in Members(f.rest) && q in Members(f.rest))
            || (p in Members(f.kids) && q in Members(f.kids) && ElderLine(f.kids, p, q))
            || (p in Members(f.rest) && q in Members(f.rest) && ElderLine(f.rest, p, q))
  {
    var c, d :| Elder(f, c, d) && AncestorOrSelf(f, c, p) && AncestorOrSelf(f, d, q);
    AncestorCons(f, c, p);
    AncestorCons(f, d, q);
    ElderCons(f, c, d);
    if Elder(f.kids, c, d) {
      ElderMembers(f.kids, c, d);
    } else if Elder(f.rest, c, d) {
      ElderMembers(f.rest, c, d);
    }
  }

  lemma FirstFine(f: Forest, q: Pid)
    requires f.Cons? && Distinct(f) && q in Members(f) && q != f.pid
    ensures !AncestorOrSelf(f, q, f.pid) && !ElderLine(f, q, f.pid)
  {
    if AncestorOrSelf(f, q, f.pid) {
      AncestorCons(f, q, f.pid);
    }
    if ElderLine(f, q, f.pid) {
      ElderLineCons(f, q, f.pid);
    }
  }

  /** A process of the first tree may come before one of the others. */
  lemma AcrossFine(f: Forest, p: Pid, q: Pid)
    requires f.Cons? && Distinct(f) && p !in Members(f.rest) && q in Members(f.rest)
    ensures !AncestorOrSelf(f, p, q) && !AncestorOrSelf(f, q, p) && !ElderLine(f, q, p)
  {
    if AncestorOrSelf(f, p, q) {
      AncestorCons(f, p, q);
    }
    if AncestorOrSelf(f, q, p) {
      AncestorCons(f, q, p);
    }
    if ElderLine(f, q, p) {
      ElderLineCons(f, q, p);
    }
  }

  /** A process may come before the root of the first tree, below which it is, unless its parent comes first. */
  lemma ChildFine(f: Forest, p: Pid)
    requires f.Cons? && Distinct(f) && p in Members(f.kids)
    ensures !AncestorOrSelf(f, p, f.pid) && !ElderLine(f, f.pid, p)
  {
    if AncestorOrSelf(f, p, f.pid) {
      AncestorCons(f, p, f.pid);
    }
    if ElderLine(f, f.pid, p) {
      ElderLineCons(f, f.pid, p);
    }
  }

  /** Two processes of one part of f are ordered as in that part. */
  lemma PartFine(f: Forest, g: Forest, p: Pid, q: Pid)
    requires f.Cons? && Distinct(f) && (g == f.kids || g == f.rest) && p in Members(g) && q in Members(g)
    ensures AncestorOrSelf(f, p, q) ==> AncestorOrSelf(g, p, q)
    ensures AncestorOrSelf(f, q, p) ==> AncestorOrSelf(g, q, p)
    ensures ElderLine(f, q, p) ==> ElderLine(g, q, p)
  {
    if AncestorOrSelf(f, p, q) {
      AncestorCons(f, p, q);
    }
    if AncestorOrSelf(f, q, p) {
      AncestorCons(f, q, p);
    }
    if ElderLine(f, q, p) {
      ElderLineCons(f, q, p);
    }
  }

  lemma {:induction false} PreorderParentsFirst(f: Forest)
    requires Distinct(f)
    ensures ParentsFirst(f, Preorder(f))
  {
    if f.Cons? {
      PreorderParentsFirst(f.kids);
      PreorderParentsFirst(f.rest);
      forall p, q | Ahead(Preorder(f), p, q) ensures !AncestorOrSelf(f, q, p) && !ElderLine(f, q, p) {
        PreorderPair(f, p, q);
      }
    }
  }

  lemma PreorderPair(f: Forest, p: Pid, q: Pid)
    requires f.Cons? && Distinct(f) && Ahead(Preorder(f), p, q)
    requires ParentsFirst(f.kids, Preorder(f.kids)) && ParentsFirst(f.rest, Preorder(f.rest))
    ensures !AncestorOrSelf(f, q, p) && !ElderLine(f, q, p)
  {
    var k, r := Preorder(f.kids), Preorder(f.rest);
    AheadConcat([f.pid] + k, r, p, q);
    if Ahead(r, p, q) {
      PartFine(f, f.rest, p, q);
    } else if Ahead([f.pid] + k, p, q) {
      AheadConcat([f.pid], k, p, q);
      if Ahead(k, p, q) {
        PartFine(f, f.kids, p, q);
      } else {
        FirstFine(f, q);
      }
    } else {
      AcrossFine(f, p, q);
    }
  }

  lemma {:induction false} PostorderChildrenFirst(f: Forest)
    requires Distinct(f)
    ensures ChildrenFirst(f, Postorder(f))
  {
    if f.Cons? {
      PostorderChildrenFirst(f.kids);
      PostorderChildrenFirst(f.rest);
      forall p, q | Ahead(Postorder(f), p, q) ensures !AncestorOrSelf(f, p, q) && !ElderLine(f, q, p) {
        PostorderPair(f, p, q);
      }
    }
  }

  lemma PostorderPair(f: Forest, p: Pid, q: Pid)
    requires f.Cons? && Distinct(f) && Ahead(Postorder(f), p, q)
    requires ChildrenFirst(f.kids, Postorder(f.kids)) && ChildrenFirst(f.rest, Postorder(f.rest))
    ensures !AncestorOrSelf(f, p, q) && !ElderLine(f, q, p)
  {
    var k, r := Postorder(f.kids), Postorder(f.rest);
    AheadConcat(k + [f.pid], r, p, q);
    if Ahead(r, p, q) {
      PartFine(f, f.rest, p, q);
    } else if Ahead(k + [f.pid], p, q) {
      AheadConcat(k, [f.pid], p, q);
      if Ahead(k, p, q) {
        PartFine(f, f.kids, p, q);
      } else {
        ChildFine(f, p);
      }
    } else {
      AcrossFine(f, p, q);
    }
  }

  /** What is left of a walk when some are left out, and what has been made of it so far, is in the same order. */
  lemma PartOfWalk(f: Forest, l: seq<Pid>, x: set<Pid>, m: nat)
    requires ParentsFirst(f, l) && m <= |Minus(l, x)|
    ensures ParentsFirst(f, Minus(l, x)[..m])
  {
    forall p, q | Ahead(Minus(l, x)[..m], p, q) ensures !AncestorOrSelf(f, q, p) && !ElderLine(f, q, p) {
      AheadPrefix(Minus(l, x), m, p, q);
      AheadMinus(l, x, p, q);
    }
  }
}

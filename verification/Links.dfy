/** The pointers of the process tree (p_parent, and p_child with p_sib) against the tree they stand for. */
module Links {
  import opened Basics
  import opened Forests

  /** p_parent; absent means NULL. */
  type Parents = map<Pid, Pid>
  /** The list behind p_child; absent means empty. */
  type Children = map<Pid, seq<Pid>>

  function ParentOf(parent: Parents, p: Pid): Option<Pid> {
    if p in parent then Some(parent[p]) else None
  }

  function ChildrenOf(children: Children, p: Pid): seq<Pid> {
    if p in children then children[p] else []
  }

  /** The pointers describe f, whose trees hang under par. Of the roots, when there is no par, only the child lists
      count: their p_parent may be stale. */
  ghost predicate Linked(f: Forest, par: Option<Pid>, parent: Parents, children: Children) {
    match f
    case Nil => true
    case Cons(p, k, n) =>
      && (par.Some? ==> ParentOf(parent, p) == par) && ChildrenOf(children, p) == Roots(k)
      && Linked(k, Some(p), parent, children) && Linked(n, par, parent, children)
  }

  /** The pointers of x are the same in both. */
  ghost predicate SameLinks(x: set<Pid>, parent: Parents, children: Children, parent': Parents, children': Children) {
    forall p :: p in x ==>
      ParentOf(parent, p) == ParentOf(parent', p) && ChildrenOf(children, p) == ChildrenOf(children', p)
  }

  lemma {:induction false} LinkedFrame(f: Forest, par: Option<Pid>, parent: Parents, children: Children,
                                       parent': Parents, children': Children)
    requires Linked(f, par, parent, children) && SameLinks(Members(f), parent, children, parent', children')
    ensures Linked(f, par, parent', children')
  {
    if f.Cons? {
      LinkedFrame(f.kids, Some(f.pid), parent, children, parent', children');
      LinkedFrame(f.rest, par, parent, children, parent', children');
    }
  }

  /** Every process but the roots hangs under its parent, in that one's child list. */
  lemma {:induction false} ChildOfParent(f: Forest, par: Option<Pid>, parent: Parents, children: Children, t: Pid)
    requires Linked(f, par, parent, children) && t in Members(f)
    ensures t in Roots(f) && par.Some? ==> ParentOf(parent, t) == par
    ensures t !in Roots(f) ==> t in parent && parent[t] in Members(f) && t in ChildrenOf(children, parent[t])
  {
    if f.pid == t {
    } else if t in Members(f.kids) {
      ChildOfParent(f.kids, Some(f.pid), parent, children, t);
      if t in Members(f.rest) {
        ChildOfParent(f.rest, par, parent, children, t);
      }
    } else {
      ChildOfParent(f.rest, par, parent, children, t);
    }
  }

  /** A child list holds exactly the processes whose p_parent is its owner. */
  lemma {:induction false} ParentOfChild(f: Forest, par: Option<Pid>, parent: Parents, children: Children,
                                         q: Pid, c: Pid)
    requires Linked(f, par, parent, children) && q in Members(f) && c in ChildrenOf(children, q)
    ensures c in Members(f) && ParentOf(parent, c) == Some(q)
  {
    if f.pid == q {
      ChildOfParent(f.kids, Some(q), parent, children, c);
    } else if q in Members(f.kids) {
      ParentOfChild(f.kids, Some(f.pid), parent, children, q, c);
    } else {
      ParentOfChild(f.rest, par, parent, children, q, c);
    }
  }

  lemma {:induction false} LinkedKids(f: Forest, par: Option<Pid>, parent: Parents, children: Children, t: Pid)
    requires Linked(f, par, parent, children) && t in Members(f)
    ensures ChildrenOf(children, t) == Roots(KidsOf(f, t)) && Linked(KidsOf(f, t), Some(t), parent, children)
  {
    if f.pid != t {
      if t in Members(f.kids) {
        LinkedKids(f.kids, Some(f.pid), parent, children, t);
      } else {
        LinkedKids(f.rest, par, parent, children, t);
      }
    }
  }

  /** How far below a root t is. */
  function Depth(f: Forest, t: Pid): nat
    requires t in Members(f)
  {
    if f.pid == t then 0 else if t in Members(f.kids) then 1 + Depth(f.kids, t) else Depth(f.rest, t)
  }

  lemma {:induction false} RootDepth(f: Forest, t: Pid)
    requires t in Roots(f) && Distinct(f)
    ensures t in Members(f) && Depth(f, t) == 0
  {
    if f.pid != t {
      RootDepth(f.rest, t);
    }
  }

  /** p_parent is one step closer to the root, so following it never comes back. */
  lemma {:induction false} ParentAbove(f: Forest, par: Option<Pid>, parent: Parents, children: Children, t: Pid)
    requires Linked(f, par, parent, children) && Distinct(f) && t in Members(f) && t !in Roots(f)
    ensures t in parent && parent[t] in Members(f) && Depth(f, t) == Depth(f, parent[t]) + 1
  {
    ChildOfParent(f, par, parent, children, t);
    if t in Members(f.kids) {
      ChildOfParent(f.kids, Some(f.pid), parent, children, t);
      if t in Roots(f.kids) {
        RootDepth(f.kids, t);
      } else {
        ParentAbove(f.kids, Some(f.pid), parent, children, t);
      }
    } else {
      ParentAbove(f.rest, par, parent, children, t);
    }
  }

  lemma BelowRoot(f: Forest, parent: Parents, children: Children, p: Pid)
    requires Linked(f, None, parent, children) && Distinct(f) && f.Cons? && f.rest.Nil?
    requires p in Members(f) && p != f.pid
    ensures p in parent && parent[p] in Members(f) && Depth(f, p) == Depth(f, parent[p]) + 1
    ensures p in ChildrenOf(children, parent[p])
  {
    assert Roots(f) == [f.pid];
    ParentAbove(f, None, parent, children, p);
    ChildOfParent(f, None, parent, children, p);
  }

  lemma RootInNoList(f: Forest, parent: Parents, children: Children, q: Pid)
    requires Linked(f, None, parent, children) && Distinct(f) && f.Cons? && f.rest.Nil? && q in Members(f)
    ensures f.pid !in ChildrenOf(children, q)
  {
    LinkedKids(f, None, parent, children, q);
    if f.pid in ChildrenOf(children, q) {
      assert f.pid in Members(KidsOf(f, q));
      KidsBelowRoot(f, q);
    }
  }

  lemma {:induction false} KidsBelowRoot(f: Forest, q: Pid)
    requires Distinct(f) && f.Cons? && f.rest.Nil? && q in Members(f)
    ensures f.pid !in Members(KidsOf(f, q))
  {
    if q != f.pid {
      assert Members(KidsOf(f, q)) <= Members(f.kids);
    }
  }

  /** One tree under the root of f: every other process is in the child list of its p_parent, which is live and one step
      closer to the root, and in no other live process's child list. */
  ghost predicate FormOneTree(f: Forest, parent: Parents, children: Children) {
    && (forall p :: p in Members(f) && p != f.pid ==>
         p in parent && parent[p] in Members(f) && Depth(f, p) == Depth(f, parent[p]) + 1)
    && (forall p, q :: p in Members(f) && q in Members(f) ==>
         (p in ChildrenOf(children, q) <==> p != f.pid && p in parent && parent[p] == q))
  }

  /** That is what the live processes form under the first one. */
  lemma OneTree(f: Forest, parent: Parents, children: Children)
    requires Linked(f, None, parent, children) && Distinct(f) && f.Cons? && f.rest.Nil?
    ensures FormOneTree(f, parent, children)
  {
    forall p | p in Members(f) && p != f.pid
      ensures p in parent && parent[p] in Members(f) && Depth(f, p) == Depth(f, parent[p]) + 1
      ensures p in ChildrenOf(children, parent[p])
    {
      BelowRoot(f, parent, children, p);
    }
    forall p, q | p in Members(f) && q in Members(f) && p in ChildrenOf(children, q)
      ensures p != f.pid && p in parent && parent[p] == q
    {
      RootInNoList(f, parent, children, q);
      ParentOfChild(f, None, parent, children, q, p);
    }
  }

  // ---- insertChild

  lemma {:induction false} RootsSnoc(f: Forest, p: Pid)
    ensures Roots(Snoc(f, p)) == Roots(f) + [p]
  {
    if f.Cons? {
      RootsSnoc(f.rest, p);
    }
  }

  lemma {:induction false} LinkedSnoc(f: Forest, par: Option<Pid>, parent: Parents, children: Children, p: Pid)
    requires Linked(f, par, parent, children)
    requires (par.Some? ==> ParentOf(parent, p) == par) && ChildrenOf(children, p) == []
    ensures Linked(Snoc(f, p), par, parent, children)
  {
    if f.Cons? {
      LinkedSnoc(f.rest, par, parent, children, p);
    }
  }

  lemma {:induction false} RootsAddChild(f: Forest, q: Pid, p: Pid)
    ensures Roots(AddChild(f, q, p)) == Roots(f)
  {
    if f.Cons? {
      RootsAddChild(f.rest, q, p);
    }
  }

  /** insertChild(q, p) for a fresh p makes the pointers describe the tree with p as the youngest child of q. */
  lemma {:induction false} LinkedAddChild(f: Forest, par: Option<Pid>, parent: Parents, children: Children,
                                          parent': Parents, children': Children, q: Pid, p: Pid)
    requires Linked(f, par, parent, children) && Distinct(f) && p !in Members(f) && q in Members(f)
    requires SameLinks(Members(f) - {q}, parent, children, parent', children')
    requires ParentOf(parent', q) == ParentOf(parent, q)
    requires ChildrenOf(children', q) == ChildrenOf(children, q) + [p]
    requires ParentOf(parent', p) == Some(q) && ChildrenOf(children', p) == []
    ensures Linked(AddChild(f, q, p), par, parent', children')
  {
    if f.pid == q {
      LinkedFrame(f.kids, Some(q), parent, children, parent', children');
      LinkedFrame(f.rest, par, parent, children, parent', children');
      RootsSnoc(f.kids, p);
      LinkedSnoc(f.kids, Some(q), parent', children', p);
    } else if q in Members(f.kids) {
      LinkedAddChild(f.kids, Some(f.pid), parent, children, parent', children', q, p);
      LinkedFrame(f.rest, par, parent, children, parent', children');
      RootsAddChild(f.kids, q, p);
    } else {
      LinkedAddChild(f.rest, par, parent, children, parent', children', q, p);
      LinkedFrame(f.kids, Some(f.pid), parent, children, parent', children');
    }
  }

  // ---- outChild

  /** The child lists after outChild(t). */
  function Detached(parent: Parents, children: Children, t: Pid): Children {
    if t in parent then children[parent[t] := Minus(ChildrenOf(children, parent[t]), {t})] else children
  }

  /** A process outside f is in no child list of f. */
  lemma Outside(f: Forest, par: Option<Pid>, parent: Parents, children: Children, t: Pid)
    requires Linked(f, par, parent, children) && t !in Members(f)
    ensures forall q :: q in Members(f) ==> t !in ChildrenOf(children, q)
  {
    forall q | q in Members(f) ensures t !in ChildrenOf(children, q) {
      if t in ChildrenOf(children, q) {
        ParentOfChild(f, par, parent, children, q, t);
      }
    }
  }

  lemma DetachedSame(parent: Parents, children: Children, t: Pid, q: Pid)
    requires (t in parent && parent[t] == q) ==> t !in ChildrenOf(children, q)
    ensures ChildrenOf(Detached(parent, children, t), q) == ChildrenOf(children, q)
  {
    if t in parent && parent[t] == q {
      MinusNothing(ChildrenOf(children, q), {t});
    }
  }

  lemma DetachedFrame(f: Forest, par: Option<Pid>, parent: Parents, children: Children, t: Pid)
    requires Linked(f, par, parent, children)
    requires t in parent && parent[t] in Members(f) ==> t !in ChildrenOf(children, parent[t])
    ensures Linked(f, par, parent, Detached(parent, children, t))
  {
    forall q | q in Members(f) ensures ChildrenOf(Detached(parent, children, t), q) == ChildrenOf(children, q) {
      DetachedSame(parent, children, t, q);
    }
    LinkedFrame(f, par, parent, children, parent, Detached(parent, children, t));
  }

  /** The child list of the root above t. */
  lemma DetachedRoot(f: Forest, par: Option<Pid>, parent: Parents, children: Children, t: Pid)
    requires Linked(f, par, parent, children) && Distinct(f) && f.Cons? && t in Members(f.kids)
    ensures ChildrenOf(Detached(parent, children, t), f.pid) == Roots(Prune(f.kids, t))
    ensures t in parent && parent[t] !in Members(f.rest)
  {
    ChildOfParent(f.kids, Some(f.pid), parent, children, t);
    RootsPrune(f.kids, t);
    if t !in Roots(f.kids) {
      MinusNothing(Roots(f.kids), {t});
    }
  }

  /** outChild(t) makes the pointers describe the tree without t's subtree, although p_parent of t stays as it was. */
  lemma {:induction false} LinkedPrune(f: Forest, par: Option<Pid>, parent: Parents, children: Children, t: Pid)
    requires Linked(f, par, parent, children) && Distinct(f) && t in Members(f)
    requires par.Some? ==> par.value !in Members(f)
    ensures Linked(Prune(f, t), par, parent, Detached(parent, children, t))
  {
    if f.pid == t {
      Outside(f.rest, par, parent, children, t);
      DetachedFrame(f.rest, par, parent, children, t);
    } else if t in Members(f.kids) {
      DetachedRoot(f, par, parent, children, t);
      PruneAbsent(f.rest, t);
      LinkedPrune(f.kids, Some(f.pid), parent, children, t);
      DetachedFrame(f.rest, par, parent, children, t);
    } else {
      Outside(f.kids, Some(f.pid), parent, children, t);
      Outside(Cons(f.pid, f.kids, Nil), par, parent, children, t);
      PruneAbsent(f.kids, t);
      LinkedPrune(f.rest, par, parent, children, t);
      DetachedFrame(f.kids, Some(f.pid), parent, children, t);
      DetachedSame(parent, children, t, f.pid);
    }
  }
}

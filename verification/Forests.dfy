/** Process trees, in first-child / next-sibling form.
    `Cons(p, kids, rest)` is process p with its children `kids`, followed by its younger siblings `rest`. */
module Forests {
  import opened Basics

  datatype Forest = Nil | Cons(pid: Pid, kids: Forest, rest: Forest)

  function Members(f: Forest): set<Pid> {
    match f
    case Nil => {}
    case Cons(p, k, n) => {p} + Members(k) + Members(n)
  }

  function Size(f: Forest): nat {
    match f
    case Nil => 0
    case Cons(_, k, n) => 1 + Size(k) + Size(n)
  }

  /** No process occurs twice. */
  ghost predicate Distinct(f: Forest) {
    match f
    case Nil => true
    case Cons(p, k, n) =>
      && p !in Members(k) && p !in Members(n) && Members(k) !! Members(n)
      && Distinct(k) && Distinct(n)
  }

  function Roots(f: Forest): (r: seq<Pid>)
    ensures forall p :: p in r ==> p in Members(f)
    ensures r == [] <==> f.Nil?
  {
    match f
    case Nil => []
    case Cons(p, _, n) => [p] + Roots(n)
  }

  function Preorder(f: Forest): (r: seq<Pid>)
    ensures forall p :: p in r <==> p in Members(f)
  {
    match f
    case Nil => []
    case Cons(p, k, n) => [p] + Preorder(k) + Preorder(n)
  }

  function Postorder(f: Forest): (r: seq<Pid>)
    ensures forall p :: p in r <==> p in Members(f)
  {
    match f
    case Nil => []
    case Cons(p, k, n) => Postorder(k) + [p] + Postorder(n)
  }

  /** The children of t; none if t is not in f. */
  function KidsOf(f: Forest, t: Pid): (r: Forest)
    ensures Members(r) <= Members(f)
    ensures t !in Members(f) ==> r == Nil
  {
    if f.Nil? then Nil
    else if f.pid == t then f.kids
    else if t in Members(f.kids) then KidsOf(f.kids, t)
    else KidsOf(f.rest, t)
  }

  /** t together with all its descendants. */
  function Subtree(f: Forest, t: Pid): (r: Forest)
    ensures Members(r) <= Members(f) + {t}
    ensures t !in Members(f) ==> r == Cons(t, Nil, Nil)
  {
    Cons(t, KidsOf(f, t), Nil)
  }

  /** f without t and its descendants. */
  function Prune(f: Forest, t: Pid): (r: Forest)
    ensures Members(r) <= Members(f)
  {
    match f
    case Nil => Nil
    case Cons(p, k, n) => if p == t then n else Cons(p, Prune(k, t), Prune(n, t))
  }

  /** f with a new youngest sibling p. */
  function Snoc(f: Forest, p: Pid): (r: Forest)
    ensures Members(r) == Members(f) + {p}
  {
    match f
    case Nil => Cons(p, Nil, Nil)
    case Cons(q, k, n) => Cons(q, k, Snoc(n, p))
  }

  /** f with p as the youngest child of par. */
  function AddChild(f: Forest, par: Pid, p: Pid): (r: Forest)
    ensures Members(r) == if par in Members(f) then Members(f) + {p} else Members(f)
  {
    match f
    case Nil => Nil
    case Cons(q, k, n) =>
      if q == par then Cons(q, Snoc(k, p), n)
      else if par in Members(k) then Cons(q, AddChild(k, par, p), n)
      else Cons(q, k, AddChild(n, par, p))
  }

  /** a is p or an ancestor of p. */
  predicate AncestorOrSelf(f: Forest, a: Pid, p: Pid) {
    a in Members(f) && p in Members(Subtree(f, a))
  }

  lemma {:induction false} DistinctSnoc(f: Forest, p: Pid)
    requires Distinct(f) && p !in Members(f)
    ensures Distinct(Snoc(f, p))
  {
    if f.Cons? {
      DistinctSnoc(f.rest, p);
    }
  }

  lemma {:induction false} DistinctAddChild(f: Forest, par: Pid, p: Pid)
    requires Distinct(f) && p !in Members(f)
    ensures Distinct(AddChild(f, par, p))
  {
    if f.Cons? {
      if f.pid == par {
        DistinctSnoc(f.kids, p);
      } else {
        DistinctAddChild(f.kids, par, p);
        DistinctAddChild(f.rest, par, p);
      }
    }
  }

  lemma {:induction false} DistinctSubtree(f: Forest, t: Pid)
    requires Distinct(f)
    ensures Distinct(Subtree(f, t))
  {
    if t !in Members(f) || f.pid == t {
    } else if t in Members(f.kids) {
      DistinctSubtree(f.kids, t);
    } else {
      DistinctSubtree(f.rest, t);
    }
  }

  lemma {:induction false} PruneAbsent(f: Forest, t: Pid)
    requires t !in Members(f)
    ensures Prune(f, t) == f
  {
    if f.Cons? {
      PruneAbsent(f.kids, t);
      PruneAbsent(f.rest, t);
    }
  }

  /** Pruning removes the subtree and nothing else. */
  lemma {:induction false} PruneMembers(f: Forest, t: Pid)
    requires Distinct(f)
    ensures Distinct(Prune(f, t))
    ensures Members(Prune(f, t)) == Members(f) - Members(Subtree(f, t))
  {
    if t !in Members(f) {
      PruneAbsent(f, t);
    } else if f.pid == t {
    } else if t in Members(f.kids) {
      PruneMembers(f.kids, t);
      PruneAbsent(f.rest, t);
    } else {
      PruneMembers(f.rest, t);
      PruneAbsent(f.kids, t);
    }
  }

  lemma MembersCard(f: Forest)
    requires f.Cons? && Distinct(f)
    ensures |Members(f)| == 1 + |Members(f.kids)| + |Members(f.rest)|
  {
  }

  lemma {:induction false} NoDupPreorder(f: Forest)
    requires Distinct(f)
    ensures NoDup(Preorder(f))
    ensures |Preorder(f)| == |Members(f)|
  {
    if f.Cons? {
      NoDupPreorder(f.kids);
      NoDupPreorder(f.rest);
      MembersCard(f);
      NoDupConcat([f.pid], Preorder(f.kids));
      NoDupConcat([f.pid] + Preorder(f.kids), Preorder(f.rest));
    }
  }

  lemma {:induction false} NoDupPostorder(f: Forest)
    requires Distinct(f)
    ensures NoDup(Postorder(f))
    ensures |Postorder(f)| == |Members(f)|
  {
    if f.Cons? {
      NoDupPostorder(f.kids);
      NoDupPostorder(f.rest);
      MembersCard(f);
      NoDupConcat(Postorder(f.kids), [f.pid]);
      NoDupConcat(Postorder(f.kids) + [f.pid], Postorder(f.rest));
    }
  }

  lemma {:induction false} KidsOfPrune(f: Forest, t: Pid, q: Pid)
    requires Distinct(f) && t in Members(f) && q in Members(Prune(f, t))
    ensures q in Members(f) && KidsOf(Prune(f, t), q) == Prune(KidsOf(f, q), t)
  {
    PruneMembers(f, t);
    if f.pid == t {
      PruneAbsent(KidsOf(f, q), t);
    } else if f.pid == q {
    } else if t in Members(f.kids) {
      PruneAbsent(f.rest, t);
      if q in Members(f.kids) {
        KidsOfPrune(f.kids, t, q);
      } else {
        PruneAbsent(KidsOf(f.rest, q), t);
      }
    } else {
      PruneAbsent(f.kids, t);
      if q in Members(f.kids) {
        PruneAbsent(KidsOf(f.kids, q), t);
      } else {
        KidsOfPrune(f.rest, t, q);
      }
    }
  }

  lemma {:induction false} RootsPrune(f: Forest, t: Pid)
    requires Distinct(f)
    ensures Roots(Prune(f, t)) == Minus(Roots(f), {t})
  {
    if f.Cons? {
      if f.pid == t {
        MinusNothing(Roots(f.rest), {t});
      } else {
        RootsPrune(f.rest, t);
      }
    }
  }

  lemma {:induction false} DistinctKidsOf(f: Forest, q: Pid)
    requires Distinct(f) && q in Members(f)
    ensures Distinct(KidsOf(f, q))
  {
    if f.pid != q {
      if q in Members(f.kids) {
        DistinctKidsOf(f.kids, q);
      } else {
        DistinctKidsOf(f.rest, q);
      }
    }
  }

  /** Pruning t takes t out of its parent's child list; every other child list of a survivor stays as it was. */
  lemma PruneKeepsChildren(f: Forest, t: Pid, q: Pid)
    requires Distinct(f) && t in Members(f) && q in Members(Prune(f, t))
    ensures q in Members(f)
    ensures Roots(KidsOf(Prune(f, t), q)) == Minus(Roots(KidsOf(f, q)), {t})
  {
    KidsOfPrune(f, t, q);
    DistinctKidsOf(f, q);
    RootsPrune(KidsOf(f, q), t);
  }
}

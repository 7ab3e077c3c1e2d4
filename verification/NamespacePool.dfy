/** The namespace descriptors (phase1/namespace.c): per type, a list of free and a list of active ones. */
module NamespacePool {
  import opened Basics

  const NS_TYPE_MAX := 1

  /** A descriptor is named by its index in its row of type_nsd. */
  newtype Nsd = i: int | 0 <= i < MAX_PROC

  /** Each descriptor of a type is on exactly one of the two lists, once. */
  ghost predicate Split(free: seq<Nsd>, active: seq<Nsd>) {
    NoDup(free) && NoDup(active) && forall i: Nsd :: i in free <==> i !in active
  }

  lemma {:induction false} MinusOne(s: seq<Nsd>, i: Nsd)
    requires NoDup(s)
    ensures NoDup(Minus(s, {i}))
    ensures i !in s ==> Minus(s, {i}) == s
    ensures s != [] && s[0] == i ==> Minus(s, {i}) == s[1..]
  {
    NoDupMinus(s, {i});
    if i !in s {
      MinusNothing(s, {i});
    } else if s[0] == i {
      MinusHead(s);
    }
  }

  class Namespaces {
    var free: seq<seq<Nsd>>     // type_nsFree_h
    var active: seq<seq<Nsd>>   // type_nsList_h

    ghost predicate Valid()
      reads this
    {
      |free| == NS_TYPE_MAX && |active| == NS_TYPE_MAX &&
      forall t :: 0 <= t < NS_TYPE_MAX ==> Split(free[t], active[t])
    }

    /** initNamespaces. */
    constructor ()
      ensures Valid() && forall t :: 0 <= t < NS_TYPE_MAX ==> active[t] == [] && |free[t]| == MAX_PROC
      ensures forall t, k :: 0 <= t < NS_TYPE_MAX && 0 <= k < MAX_PROC ==> free[t][k] as int == MAX_PROC - 1 - k
    {
      var pool: seq<Nsd> := [];
      var j := 0;
      while j < MAX_PROC
        invariant 0 <= j <= MAX_PROC && |pool| == j
        invariant forall k :: 0 <= k < j ==> pool[k] as int == j - 1 - k
      {
        pool := [j as Nsd] + pool;
        j := j + 1;
      }
      free, active := seq(NS_TYPE_MAX, _ => pool), seq(NS_TYPE_MAX, _ => []);
      new;
      forall i: Nsd ensures i in pool {
        assert pool[MAX_PROC - 1 - i as int] == i;
      }
    }

    /** allocNamespace: the first free descriptor becomes the first active one. */
    method AllocNamespace(t: int) returns (r: Option<Nsd>)
      requires Valid()
      modifies this
      ensures Valid()
      ensures r.None? <==> !(0 <= t < NS_TYPE_MAX) || |old(active)[t]| == MAX_PROC
      ensures r.None? ==> free == old(free) && active == old(active)
      ensures r.Some? ==> old(free)[t] == [r.value] + free[t] && active == old(active)[t := [r.value] + old(active)[t]]
      ensures r.Some? ==> free == old(free)[t := free[t]]
    {
      if t < 0 || t >= NS_TYPE_MAX {
        return None;
      }
      Exhausted(free[t], active[t]);
      if free[t] == [] {
        return None;
      }
      var next := free[t][0];
      HeadIsMember(free[t]);
      MinusOne(free[t], next);
      free := free[t := free[t][1..]];
      active := active[t := [next] + active[t]];
      return Some(next);
    }

    /** freeNamespace: from wherever it is to the front of the free list. */
    method FreeNamespace(t: nat, i: Nsd)
      requires Valid() && t < NS_TYPE_MAX
      modifies this
      ensures Valid()
      ensures free == old(free)[t := [i] + Minus(old(free)[t], {i})]
      ensures active == old(active)[t := Minus(old(active)[t], {i})]
    {
      MinusOne(free[t], i);
      MinusOne(active[t], i);
      free := free[t := [i] + Minus(free[t], {i})];
      active := active[t := Minus(active[t], {i})];
    }

    /** Giving back what was just allocated restores both lists. */
    method AllocThenFree(t: int) returns (r: Option<Nsd>)
      requires Valid()
      modifies this
      ensures Valid() && free == old(free) && active == old(active)
    {
      r := AllocNamespace(t);
      if r.Some? {
        MinusOne(free[t], r.value);
        MinusOne(active[t], r.value);
        FreeNamespace(t, r.value);
      }
    }
  }

  function NsdsBelow(n: nat): (r: set<Nsd>)
    requires n <= MAX_PROC
    ensures forall i: Nsd :: i in r <==> i as int < n
    ensures |r| == n
  {
    if n == 0 then {} else NsdsBelow(n - 1) + {(n - 1) as Nsd}
  }

  /** No descriptor is free exactly when all of them are active. */
  lemma Exhausted(free: seq<Nsd>, active: seq<Nsd>)
    requires Split(free, active)
    ensures free == [] <==> |active| == MAX_PROC
  {
    NoDupCard(active);
    SubsetCard(Elems(active), NsdsBelow(MAX_PROC));
    if free == [] {
      assert Elems(active) == NsdsBelow(MAX_PROC);
    } else {
      assert free[0] in free && free[0] !in Elems(active) && free[0] in NsdsBelow(MAX_PROC);
    }
  }
}

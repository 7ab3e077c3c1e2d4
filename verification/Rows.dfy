/** Families of disjoint sequences: what a set of queues sharing one link field stands for. */
module Rows {
  import opened Basics

  /** Every row with p taken out. */
  ghost function Without<T(!new)>(q: seq<seq<T>>, p: T): (r: seq<seq<T>>)
    ensures |r| == |q| && forall h :: 0 <= h < |q| ==> r[h] == Minus(q[h], {p})
  {
    seq(|q|, h requires 0 <= h < |q| => Minus(q[h], {p}))
  }

  lemma {:induction false} MinusMiddle<T(!new)>(a: seq<T>, p: T, b: seq<T>)
    requires NoDup(a + [p] + b)
    ensures Minus(a + [p] + b, {p}) == a + b
  {
    var s := a + [p] + b;
    if a == [] {
      assert s[1..] == b && forall j :: 0 <= j < |b| ==> b[j] == s[j + 1];
      MinusNothing(b, {p});
    } else {
      assert s[0] != s[|a|];
      assert s[1..] == a[1..] + [p] + b;
      MinusMiddle(a[1..], p, b);
    }
  }

  lemma CutAt<T>(s: seq<T>, p: T) returns (a: seq<T>, b: seq<T>)
    requires p in s
    ensures s == a + [p] + b
  {
    var k :| 0 <= k < |s| && s[k] == p;
    a, b := s[..k], s[k + 1..];
  }

  ghost predicate OnNone<T(!new)>(q: seq<seq<T>>, p: T) {
    forall h :: 0 <= h < |q| ==> p !in q[h]
  }

  ghost predicate Separate<T(!new)>(q: seq<seq<T>>) {
    forall g, h :: 0 <= g < |q| && 0 <= h < |q| && g != h ==> Disjoint(q[g], q[h])
  }

  /** The row p is on; |q| when it is on none. */
  ghost function Home<T(!new)>(q: seq<seq<T>>, p: T): (h: nat)
    ensures h <= |q|
    ensures if h < |q| then p in q[h] else OnNone(q, p)
  {
    if g :| 0 <= g < |q| && p in q[g] then g else |q|
  }

  lemma WithoutEffect<T(!new)>(q: seq<seq<T>>, p: T, h: nat)
    requires Separate(q) && if h < |q| then p in q[h] else OnNone(q, p)
    ensures Without(q, p) == if h < |q| then q[h := Minus(q[h], {p})] else q
    ensures Separate(Without(q, p)) && OnNone(Without(q, p), p)
    ensures forall x: T :: OnNone(Without(q, p), x) <==> x == p || OnNone(q, x)
  {
    forall g | 0 <= g < |q| && g != h ensures Minus(q[g], {p}) == q[g] {
      assert h < |q| ==> Disjoint(q[h], q[g]);
      MinusNothing(q[g], {p});
    }
    forall x: T | x != p && OnNone(Without(q, p), x) ensures OnNone(q, x) {
      forall g | 0 <= g < |q| ensures x !in q[g] {
        assert x !in Without(q, p)[g];
      }
    }
  }

  lemma LeftAlone<T(!new)>(q: seq<seq<T>>, p: T)
    ensures OnNone(Without(q, p), p)
  {
  }

  lemma LooseWithout<T(!new)>(q: seq<seq<T>>, p: T)
    requires OnNone(q, p)
    ensures Without(q, p) == q
  {
    forall g | 0 <= g < |q| ensures Minus(q[g], {p}) == q[g] {
      MinusNothing(q[g], {p});
    }
  }

  /** The same elements, p apart. */
  ghost predicate SameBut<T(!new)>(l: seq<T>, m: seq<T>, p: T) {
    forall x :: x != p ==> (x in l <==> x in m)
  }

  lemma RowReplaced<T(!new)>(q: seq<seq<T>>, h: nat, p: T, l: seq<T>)
    requires Separate(q) && h < |q| && SameBut(l, q[h], p)
    requires forall g :: 0 <= g < |q| && g != h ==> p !in q[g]
    ensures Separate(q[h := l])
    ensures forall x :: x != p ==> (OnNone(q[h := l], x) <==> OnNone(q, x))
    ensures OnNone(q[h := l], p) <==> p !in l
  {
    var r := q[h := l];
    forall x | x != p ensures OnNone(r, x) <==> OnNone(q, x) {
      assert forall g :: 0 <= g < |q| ==> (x in r[g] <==> x in q[g]);
    }
    forall g | 0 <= g < |q| && g != h ensures Disjoint(l, q[g]) {
      assert Disjoint(q[h], q[g]);
    }
    assert r[h] == l;
  }
}

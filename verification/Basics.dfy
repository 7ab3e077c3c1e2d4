/** Constants, identifiers and the sequence algebra shared by every module. */
module Basics {

  /** Size of the PCB table and of the semaphore descriptor table. */
  const MAX_PROC := 20
  /** Number of device slots in g_sysiostates. */
  const DEVICE_NUMBER := 48

  /** A PCB is named by its index in pcbFree_table. */
  newtype Pid = p: int | 0 <= p < MAX_PROC
  /** A device is named by its index in g_sysiostates. */
  newtype Dev = d: int | 0 <= d < DEVICE_NUMBER
  /** A 32-bit machine word, read as unsigned. */
  type u32 = x: int | 0 <= x < 0x1_0000_0000

  datatype Option<+T> = None | Some(value: T)

  ghost predicate NoDup<T>(s: seq<T>) {
    forall i, j :: 0 <= i < j < |s| ==> s[i] != s[j]
  }

  ghost predicate Disjoint<T>(s: seq<T>, t: seq<T>) {
    forall x :: x in s ==> x !in t
  }

  /** The elements of s outside x, in order. */
  function Minus<T(==,!new)>(s: seq<T>, x: set<T>): (r: seq<T>)
    ensures forall y :: y in r <==> y in s && y !in x
    ensures |r| <= |s|
  {
    if s == [] then []
    else if s[0] in x then Minus(s[1..], x)
    else [s[0]] + Minus(s[1..], x)
  }

  function Reverse<T(!new)>(s: seq<T>): (r: seq<T>)
    ensures |r| == |s|
    ensures forall y :: y in r <==> y in s
  {
    if s == [] then [] else Reverse(s[1..]) + [s[0]]
  }

  lemma {:induction false} ReverseConcat<T(!new)>(a: seq<T>, b: seq<T>)
    ensures Reverse(a + b) == Reverse(b) + Reverse(a)
  {
    if a == [] {
      assert a + b == b;
    } else {
      assert (a + b)[1..] == a[1..] + b;
      ReverseConcat(a[1..], b);
    }
  }

  lemma NoDupConcat<T>(a: seq<T>, b: seq<T>)
    requires NoDup(a) && NoDup(b)
    requires forall x :: x in a ==> x !in b
    ensures NoDup(a + b)
  {
    var c := a + b;
    forall i, j | 0 <= i < j < |c| ensures c[i] != c[j] {
      if i < |a| <= j {
        assert c[i] in a && c[j] == b[j - |a|] && c[j] in b;
      }
    }
  }

  lemma NoDupParts<T>(a: seq<T>, b: seq<T>)
    requires NoDup(a + b)
    ensures NoDup(a) && NoDup(b) && Disjoint(a, b)
  {
    var s := a + b;
    forall i, j | 0 <= i < |a| && 0 <= j < |b| ensures a[i] != b[j] {
      assert s[i] != s[|a| + j];
    }
    forall i, j | 0 <= i < j < |a| ensures a[i] != a[j] {
      assert s[i] != s[j];
    }
    forall i, j | 0 <= i < j < |b| ensures b[i] != b[j] {
      assert s[|a| + i] != s[|a| + j];
    }
  }

  lemma {:induction false} NoDupReverse<T(!new)>(s: seq<T>)
    requires NoDup(s)
    ensures NoDup(Reverse(s))
  {
    if s != [] {
      NoDupReverse(s[1..]);
      forall i | 0 <= i < |Reverse(s[1..])| ensures Reverse(s[1..])[i] != s[0] {
        assert Reverse(s[1..])[i] in s[1..];
      }
    }
  }

  lemma {:induction false} NoDupMinus<T(!new)>(s: seq<T>, x: set<T>)
    requires NoDup(s)
    ensures NoDup(Minus(s, x))
  {
    if s != [] {
      NoDupMinus(s[1..], x);
    }
  }

  lemma {:induction false} MinusNothing<T(!new)>(s: seq<T>, x: set<T>)
    requires forall y :: y in s ==> y !in x
    ensures Minus(s, x) == s
  {
    if s != [] {
      MinusNothing(s[1..], x);
    }
  }

  lemma MinusHead<T(!new)>(s: seq<T>)
    requires s != [] && NoDup(s)
    ensures Minus(s, {s[0]}) == s[1..]
  {
    MinusNothing(s[1..], {s[0]});
  }

  lemma {:induction false} MinusConcat<T(!new)>(a: seq<T>, b: seq<T>, x: set<T>)
    ensures Minus(a + b, x) == Minus(a, x) + Minus(b, x)
  {
    if a == [] {
      assert a + b == b;
    } else {
      assert (a + b)[1..] == a[1..] + b;
      MinusConcat(a[1..], b, x);
    }
  }

  lemma {:induction false} MinusTwice<T(!new)>(s: seq<T>, x: set<T>, y: set<T>)
    ensures Minus(Minus(s, x), y) == Minus(s, x + y)
  {
    if s != [] {
      MinusTwice(s[1..], x, y);
    }
  }

  lemma HeadIsMember<T>(s: seq<T>)
    ensures s != [] ==> s[0] in s
  {
  }

  /** Dropping elements never moves a survivor back. */
  lemma {:induction false} MinusIndex<T(!new)>(s: seq<T>, x: set<T>, i: nat) returns (j: nat)
    requires i < |s| && s[i] !in x
    ensures j <= i && j < |Minus(s, x)| && Minus(s, x)[j] == s[i]
  {
    if i == 0 {
      j := 0;
    } else {
      j := MinusIndex(s[1..], x, i - 1);
      j := if s[0] in x then j else j + 1;
    }
  }

  function PidsBelow(n: nat): (r: set<Pid>)
    requires n <= MAX_PROC
    ensures forall p: Pid :: p in r <==> p as int < n
    ensures |r| == n
  {
    if n == 0 then {} else PidsBelow(n - 1) + {(n - 1) as Pid}
  }

  /** The whole PCB table. */
  function AllPids(): (r: set<Pid>)
    ensures forall p: Pid :: p in r
    ensures |r| == MAX_PROC
  {
    PidsBelow(MAX_PROC)
  }

  lemma {:induction false} SubsetCard<T>(a: set<T>, b: set<T>)
    requires a <= b
    ensures |a| <= |b|
    ensures |a| == |b| ==> a == b
  {
    if a != {} {
      var x :| x in a;
      SubsetCard(a - {x}, b - {x});
      assert a == (a - {x}) + {x} && b == (b - {x}) + {x};
    }
  }

  lemma PidSetBound(x: set<Pid>)
    ensures |x| <= MAX_PROC
  {
    SubsetCard(x, AllPids());
  }

  /** An injective map has no more keys than its target has elements. */
  lemma {:induction false} InjectionCard<A, B>(f: map<A, B>, target: set<B>)
    requires forall a :: a in f ==> f[a] in target
    requires forall a, b :: a in f && b in f && f[a] == f[b] ==> a == b
    ensures |f| <= |target|
    decreases |target|
  {
    if a :| a in f {
      var g := f - {a};
      assert |f| == |g| + 1 by {
        assert f.Keys == g.Keys + {a};
      }
      InjectionCard(g, target - {f[a]});
    }
  }

  ghost function Elems<T>(s: seq<T>): set<T> { set x | x in s }

  lemma {:induction false} NoDupCard<T>(s: seq<T>)
    requires NoDup(s)
    ensures |Elems(s)| == |s|
  {
    if s != [] {
      NoDupCard(s[1..]);
      assert Elems(s) == Elems(s[1..]) + {s[0]};
    }
  }
}

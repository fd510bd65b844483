/** Sums over sequences, and that they depend on the elements only, not on their order. */
module Sums {

  function Sum<T>(f: T -> nat, s: seq<T>): nat {
    if s == [] then 0 else f(s[0]) + Sum(f, s[1..])
  }

  lemma {:induction false} SumConcat<T>(f: T -> nat, a: seq<T>, b: seq<T>)
    ensures Sum(f, a + b) == Sum(f, a) + Sum(f, b)
  {
    if a == [] {
      assert a + b == b;
    } else {
      SumConcat(f, a[1..], b);
      assert (a + b)[1..] == a[1..] + b;
    }
  }

  function RemoveAt<T>(s: seq<T>, i: nat): (r: seq<T>)
    requires i < |s|
    ensures |r| == |s| - 1
  {
    s[..i] + s[i + 1..]
  }

  lemma RemoveAtMultiset<T>(s: seq<T>, i: nat)
    requires i < |s|
    ensures multiset(s) == multiset(RemoveAt(s, i)) + multiset{s[i]}
  {
    assert s == s[..i] + [s[i]] + s[i + 1..];
  }

  lemma SumRemoveAt<T>(f: T -> nat, s: seq<T>, i: nat)
    requires i < |s|
    ensures Sum(f, s) == f(s[i]) + Sum(f, RemoveAt(s, i))
  {
    var front, back := s[..i], s[i..];
    assert s == front + back;
    assert back[1..] == s[i + 1..];
    SumConcat(f, front, back);
    SumConcat(f, front, back[1..]);
  }

  lemma {:induction false} SumOfPermutation<T>(f: T -> nat, a: seq<T>, b: seq<T>)
    requires multiset(a) == multiset(b)
    ensures Sum(f, a) == Sum(f, b)
    decreases |b|
  {
    if b == [] {
      assert |multiset(a)| == 0;
    } else {
      assert b[0] in multiset(a);
      var i :| 0 <= i < |a| && a[i] == b[0];
      SumRemoveAt(f, a, i);
      RemoveAtMultiset(a, i);
      RemoveAtMultiset(b, 0);
      assert RemoveAt(b, 0) == b[1..];
      assert multiset(RemoveAt(a, i)) == multiset(a) - multiset{b[0]};
      SumOfPermutation(f, RemoveAt(a, i), b[1..]);
    }
  }

  /** If `a` and `b` together hold the elements of `c`, their sums add up. */
  lemma SumOfParts<T>(f: T -> nat, a: seq<T>, b: seq<T>, c: seq<T>)
    requires multiset(a) + multiset(b) == multiset(c)
    ensures Sum(f, a) + Sum(f, b) == Sum(f, c)
  {
    SumConcat(f, a, b);
    SumOfPermutation(f, a + b, c);
  }

  lemma {:induction false} SumAtLeastMember<T>(f: T -> nat, s: seq<T>, i: nat)
    requires i < |s|
    ensures f(s[i]) <= Sum(f, s)
  {
    SumRemoveAt(f, s, i);
  }

  lemma {:induction false} SumZeroIff<T>(f: T -> nat, s: seq<T>)
    ensures Sum(f, s) == 0 <==> forall x :: x in s ==> f(x) == 0
  {
    if s != [] {
      SumZeroIff(f, s[1..]);
      assert forall x :: x in s <==> x == s[0] || x in s[1..];
    }
  }

  lemma {:induction false} SumUpdate<T>(f: T -> nat, s: seq<T>, i: nat, x: T)
    requires i < |s|
    ensures Sum(f, s[i := x]) + f(s[i]) == Sum(f, s) + f(x)
  {
    SumRemoveAt(f, s, i);
    SumRemoveAt(f, s[i := x], i);
    assert RemoveAt(s[i := x], i) == RemoveAt(s, i);
  }

  lemma {:induction false} SumOfTwoMembers<T>(f: T -> nat, s: seq<T>, i: nat, j: nat)
    requires i < j < |s|
    ensures f(s[i]) + f(s[j]) <= Sum(f, s)
  {
    SumRemoveAt(f, s, i);
    assert RemoveAt(s, i)[j - 1] == s[j];
    SumAtLeastMember(f, RemoveAt(s, i), j - 1);
  }

  /** A list without two elements of the same index is no longer than the set of indices it draws from. */
  lemma {:induction false} Pigeonhole<T>(index: T -> nat, s: seq<T>, from: set<nat>)
    requires forall i :: 0 <= i < |s| ==> index(s[i]) in from
    requires forall i, j :: 0 <= i < j < |s| ==> index(s[i]) != index(s[j])
    ensures |s| <= |from|
  {
    if s != [] {
      Pigeonhole(index, s[1..], from - {index(s[0])});
    }
  }

  lemma {:induction false} SubsetSize<T>(a: set<T>, b: set<T>)
    requires a <= b
    ensures |a| <= |b|
    ensures |a| == |b| ==> a == b
  {
    assert b == a + (b - a);
  }
}

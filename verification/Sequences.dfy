/** Sums, index permutations and gathering by index, shared by the numeric modules. */
module Sequences {
  function Sum(s: seq<real>): real {
    if s == [] then 0.0 else Sum(s[..|s| - 1]) + s[|s| - 1]
  }

  function Count(s: seq<bool>): (n: nat)
    ensures n <= |s|
  {
    if s == [] then 0 else Count(s[..|s| - 1]) + if s[|s| - 1] then 1 else 0
  }

  function Min(a: nat, b: nat): nat {
    if a <= b then a else b
  }

  /** Python's `s[:limit]`. */
  function Cut<T>(s: seq<T>, limit: nat): seq<T> {
    if |s| <= limit then s else s[..limit]
  }

  /** One list after the other. */
  function Flatten<T>(lists: seq<seq<T>>): seq<T> {
    if lists == [] then [] else Flatten(lists[..|lists| - 1]) + lists[|lists| - 1]
  }

  lemma {:induction false} FlattenConcat<T>(a: seq<seq<T>>, b: seq<seq<T>>)
    ensures Flatten(a + b) == Flatten(a) + Flatten(b)
    decreases |b|
  {
    if b == [] {
      assert a + b == a;
    } else {
      assert (a + b)[..|a| + |b| - 1] == a + b[..|b| - 1];
      FlattenConcat(a, b[..|b| - 1]);
    }
  }

  lemma FlattenSingle<T>(list: seq<T>)
    ensures Flatten([list]) == list
  {
    assert [list][..0] == [];
  }

  lemma SumAppend(s: seq<real>, x: real)
    ensures Sum(s + [x]) == Sum(s) + x
  {
    assert (s + [x])[..|s|] == s;
  }

  lemma {:induction false} SumConcat(a: seq<real>, b: seq<real>)
    ensures Sum(a + b) == Sum(a) + Sum(b)
    decreases |b|
  {
    if b == [] {
      assert a + b == a;
    } else {
      assert (a + b)[..|a + b| - 1] == a + b[..|b| - 1];
      SumConcat(a, b[..|b| - 1]);
    }
  }

  lemma SumSplit(s: seq<real>, i: nat)
    requires i <= |s|
    ensures Sum(s) == Sum(s[..i]) + Sum(s[i..])
  {
    SumConcat(s[..i], s[i..]);
    assert s == s[..i] + s[i..];
  }

  function Zeros(n: nat): (r: seq<real>)
    ensures |r| == n && forall i :: 0 <= i < n ==> r[i] == 0.0
  {
    seq(n, _ => 0.0)
  }

  lemma {:induction false} SumZeros(s: seq<real>)
    requires forall i :: 0 <= i < |s| ==> s[i] == 0.0
    ensures Sum(s) == 0.0
  {
    if s != [] {
      SumZeros(s[..|s| - 1]);
    }
  }

  lemma {:induction false} SumUpdate(s: seq<real>, i: nat, x: real)
    requires i < |s|
    ensures Sum(s[i := x]) == Sum(s) - s[i] + x
  {
    var n := |s| - 1;
    if i < n {
      SumUpdate(s[..n], i, x);
      assert s[i := x][..n] == s[..n][i := x];
    } else {
      assert s[i := x][..n] == s[..n];
    }
  }

  /** The sum of a window of `s` from which everything but one position was zeroed out. */
  lemma {:induction false} CountUpdate(s: seq<bool>, i: nat)
    requires i < |s| && s[i]
    ensures Count(s[i := false]) == Count(s) - 1
  {
    var n := |s| - 1;
    if i < n {
      CountUpdate(s[..n], i);
      assert s[i := false][..n] == s[..n][i := false];
    } else {
      assert s[i := false][..n] == s[..n];
    }
  }

  lemma SumSingle(s: seq<real>, i: nat)
    requires i < |s| && forall j :: 0 <= j < |s| && j != i ==> s[j] == 0.0
    ensures Sum(s) == s[i]
  {
    SumUpdate(s, i, 0.0);
    SumZeros(s[i := 0.0]);
  }

  lemma {:induction false} SumRemove(s: seq<real>, i: nat)
    requires i < |s|
    ensures Sum(s[..i] + s[i + 1..]) == Sum(s) - s[i]
  {
    SumSplit(s, i);
    SumSplit(s[i..], 1);
    assert s[i..][..1] == [s[i]] && s[i..][1..] == s[i + 1..];
    assert Sum([s[i]]) == s[i] by { assert [s[i]][..0] == []; }
    SumConcat(s[..i], s[i + 1..]);
  }

  lemma FindElement<T>(s: seq<T>, x: T) returns (k: nat)
    requires x in multiset(s)
    ensures k < |s| && s[k] == x
  {
    k :| 0 <= k < |s| && s[k] == x;
  }

  lemma WithoutLast<T>(a: seq<T>, b: seq<T>, k: nat)
    requires a != [] && multiset(a) == multiset(b) && k < |b| && b[k] == a[|a| - 1]
    ensures multiset(a[..|a| - 1]) == multiset(b[..k] + b[k + 1..])
  {
    var n := |a| - 1;
    MultisetRemove(b, k);
    assert a == a[..n] + [a[n]];
    assert multiset(a[..n]) == multiset(a) - multiset{a[n]};
  }

  /** A sum does not depend on the order of its terms. */
  lemma {:induction false} SumPermuted(a: seq<real>, b: seq<real>)
    requires multiset(a) == multiset(b)
    ensures Sum(a) == Sum(b)
    decreases |a|
  {
    if a == [] {
      assert |b| == |multiset(b)| == |multiset(a)| == 0;
    } else {
      var n := |a| - 1;
      assert a[n] in multiset(a);
      var k := FindElement(b, a[n]);
      WithoutLast(a, b, k);
      SumPermuted(a[..n], b[..k] + b[k + 1..]);
      SumRemove(b, k);
    }
  }

  // ----- permutations of 0, ..., n-1 -----

  ghost predicate Distinct<T>(s: seq<T>) {
    forall i, j :: 0 <= i < j < |s| ==> s[i] != s[j]
  }

  ghost predicate Ascends(p: seq<nat>) {
    forall x, y :: 0 <= x < y < |p| ==> p[x] < p[y]
  }

  lemma AscendOneMore(p: seq<nat>, next: nat)
    requires Ascends(p) && forall j :: j in p ==> j < next
    ensures Ascends(p + [next])
  {
    forall x | 0 <= x < |p| ensures p[x] < next {
      assert p[x] in p;
    }
  }

  ghost predicate IsPermutation(p: seq<nat>, n: nat) {
    |p| == n && Distinct(p) && forall i :: 0 <= i < n ==> p[i] < n
  }

  function Gather<T>(s: seq<T>, p: seq<nat>): (r: seq<T>)
    requires forall i :: 0 <= i < |p| ==> p[i] < |s|
    ensures |r| == |p| && forall i :: 0 <= i < |p| ==> r[i] == s[p[i]]
  {
    seq(|p|, i requires 0 <= i < |p| => s[p[i]])
  }

  ghost function Range(n: nat): (r: set<nat>)
    ensures |r| == n && forall i: nat :: i in r <==> i < n
  {
    if n == 0 then {} else Range(n - 1) + {n - 1}
  }

  lemma {:induction false} DistinctSize<T>(s: seq<T>)
    requires Distinct(s)
    ensures |set x | x in s| == |s|
  {
    if s != [] {
      var n := |s| - 1;
      DistinctSize(s[..n]);
      assert (set x | x in s) == (set x | x in s[..n]) + {s[n]};
      assert s[n] !in s[..n];
    }
  }

  ghost function Marked(marks: seq<bool>): set<nat> {
    set i: nat | i < |marks| && marks[i]
  }

  lemma {:induction false} CountIsSize(marks: seq<bool>)
    ensures |Marked(marks)| == Count(marks)
  {
    if marks == [] {
      assert Marked(marks) == {};
    } else {
      var last := |marks| - 1;
      CountIsSize(marks[..last]);
      assert Marked(marks) == Marked(marks[..last]) + if marks[last] then {last} else {};
    }
  }

  ghost function Elements<T>(s: seq<T>): set<T> {
    set x | x in s
  }

  lemma ListedOnce<T>(list: seq<T>, all: set<T>)
    requires Distinct(list) && forall x :: x in list <==> x in all
    ensures |list| == |all|
  {
    DistinctSize(list);
    var listed := set x | x in list;
    assert listed == all;
  }

  /** A list without repetitions of the marked positions is as long as there are marks. */
  lemma ListedAreCounted(list: seq<nat>, marks: seq<bool>)
    requires Distinct(list) && forall i: nat :: i in list <==> i < |marks| && marks[i]
    ensures |list| == Count(marks)
  {
    ListedOnce(list, Marked(marks));
    CountIsSize(marks);
  }

  lemma SubsetSize<T>(a: set<T>, b: set<T>)
    requires a <= b && |a| == |b|
    ensures a == b
  {
    assert b == a + (b - a);
  }

  /** The pigeonhole principle: a permutation hits every index. */
  lemma PermutationHits(p: seq<nat>, n: nat, k: nat)
    requires IsPermutation(p, n) && k < n
    ensures k in p
  {
    DistinctSize(p);
    SubsetSize((set x | x in p), Range(n));
    assert k in Range(n);
  }

  lemma MultisetRemove<T>(s: seq<T>, k: nat)
    requires k < |s|
    ensures multiset(s) == multiset(s[..k] + s[k + 1..]) + multiset{s[k]}
  {
    assert s == s[..k] + [s[k]] + s[k + 1..];
  }

  lemma DropLargest(p: seq<nat>, n: nat, k: nat)
    requires IsPermutation(p, n + 1) && k < |p| && p[k] == n
    ensures IsPermutation(p[..k] + p[k + 1..], n)
  {
    var q := p[..k] + p[k + 1..];
    forall i | 0 <= i < |q| ensures q[i] == p[if i < k then i else i + 1] && q[i] < n {}
    forall i, j | 0 <= i < j < |q| ensures q[i] != q[j] {}
  }

  lemma GatherDrop<T>(s: seq<T>, p: seq<nat>, k: nat, q: seq<nat>)
    requires s != [] && (forall i :: 0 <= i < |p| ==> p[i] < |s|) && k < |p| && q == p[..k] + p[k + 1..]
    requires forall i :: 0 <= i < |q| ==> q[i] < |s| - 1
    ensures Gather(s, p)[..k] + Gather(s, p)[k + 1..] == Gather(s[..|s| - 1], q)
  {
  }

  /** Gathering by a permutation keeps every element as often as it was there. */
  lemma {:induction false} GatherKeepsMultiset<T>(s: seq<T>, p: seq<nat>)
    requires IsPermutation(p, |s|)
    ensures multiset(Gather(s, p)) == multiset(s)
    decreases |s|
  {
    if s == [] {
      assert Gather(s, p) == s;
    } else {
      var n := |s| - 1;
      PermutationHits(p, |s|, n);
      var k :| 0 <= k < |p| && p[k] == n;
      var q := p[..k] + p[k + 1..];
      DropLargest(p, n, k);
      GatherKeepsMultiset(s[..n], q);
      MultisetRemove(Gather(s, p), k);
      GatherDrop(s, p, k, q);
      assert s == s[..n] + [s[n]];
    }
  }

  lemma {:induction false} DistinctByMultiset<T>(s: seq<T>)
    ensures Distinct(s) <==> forall x :: multiset(s)[x] <= 1
  {
    if s != [] {
      var n := |s| - 1;
      DistinctByMultiset(s[..n]);
      assert s == s[..n] + [s[n]];
      assert Distinct(s) <==> Distinct(s[..n]) && s[n] !in s[..n];
      if Distinct(s) {
      } else if Distinct(s[..n]) {
        assert multiset(s)[s[n]] == multiset(s[..n])[s[n]] + 1;
      } else {
        var x :| multiset(s[..n])[x] > 1;
        assert multiset(s)[x] > 1;
      }
    }
  }

  /** What holds the same elements as a permutation is one. */
  lemma PermutationByMultiset(p: seq<nat>, q: seq<nat>, n: nat)
    requires IsPermutation(p, n) && multiset(p) == multiset(q)
    ensures IsPermutation(q, n)
  {
    DistinctByMultiset(p);
    DistinctByMultiset(q);
    assert |q| == |multiset(q)| == |multiset(p)| == |p|;
    forall i | 0 <= i < |q| ensures q[i] < n {
      assert q[i] in multiset(q);
      assert q[i] in p;
    }
  }
}

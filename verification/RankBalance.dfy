/** Order of a rank's samples before they are stored: small workloads at both ends, large ones in the middle. */
module RankBalance {
  import opened Sequences

  /** Ascending by workload, earlier index first among equals. */
  predicate NotAfter(work: seq<nat>, a: nat, b: nat)
    requires a < |work| && b < |work|
  {
    work[a] < work[b] || (work[a] == work[b] && a <= b)
  }

  ghost predicate InRange(p: seq<nat>, size: nat) {
    forall i :: 0 <= i < |p| ==> p[i] < size
  }

  ghost predicate Sorted(p: seq<nat>, work: seq<nat>)
    requires InRange(p, |work|)
  {
    forall i, j :: 0 <= i < j < |p| ==> NotAfter(work, p[i], p[j])
  }

  method SortByWorkload(p: seq<nat>, work: seq<nat>) returns (sorted: seq<nat>)
    requires InRange(p, |work|)
    ensures multiset(sorted) == multiset(p) && InRange(sorted, |work|) && Sorted(sorted, work)
  {
    sorted := [];
    for i := 0 to |p|
      invariant multiset(sorted) == multiset(p[..i]) && InRange(sorted, |work|) && Sorted(sorted, work)
    {
      assert p[..i + 1] == p[..i] + [p[i]];
      sorted := Insert(sorted, p[i], work);
    }
    assert p[..|p|] == p;
  }

  method Insert(sorted: seq<nat>, x: nat, work: seq<nat>) returns (longer: seq<nat>)
    requires InRange(sorted, |work|) && Sorted(sorted, work) && x < |work|
    ensures multiset(longer) == multiset(sorted) + multiset{x} && InRange(longer, |work|) && Sorted(longer, work)
  {
    var k := |sorted|;
    while k > 0 && !NotAfter(work, sorted[k - 1], x)
      invariant 0 <= k <= |sorted|
      invariant forall b :: k <= b < |sorted| ==> NotAfter(work, x, sorted[b])
    {
      k := k - 1;
    }
    forall a | 0 <= a < k ensures NotAfter(work, sorted[a], x) {
      if a < k - 1 {
        assert NotAfter(work, sorted[a], sorted[k - 1]);
      }
    }
    InsertedIsSorted(sorted, x, k, work);
    longer := sorted[..k] + [x] + sorted[k..];
  }

  lemma InsertedIsSorted(sorted: seq<nat>, x: nat, k: nat, work: seq<nat>)
    requires InRange(sorted, |work|) && Sorted(sorted, work) && x < |work| && k <= |sorted|
    requires forall a :: 0 <= a < k ==> NotAfter(work, sorted[a], x)
    requires forall b :: k <= b < |sorted| ==> NotAfter(work, x, sorted[b])
    ensures var longer := sorted[..k] + [x] + sorted[k..];
            multiset(longer) == multiset(sorted) + multiset{x} && InRange(longer, |work|) && Sorted(longer, work)
  {
    assert sorted == sorted[..k] + sorted[k..];
    var longer := sorted[..k] + [x] + sorted[k..];
    forall a, b | 0 <= a < b < |longer|
      ensures longer[a] < |work| && longer[b] < |work| && NotAfter(work, longer[a], longer[b])
    {
      var a', b' := if a < k then a else a - 1, if b < k then b else b - 1;
      if a != k && b != k {
        assert longer[a] == sorted[a'] && longer[b] == sorted[b'];
        assert NotAfter(work, sorted[a'], sorted[b']);
      }
    }
  }

  // ----- the even places, then the odd places backwards -----

  function Evens(p: seq<nat>): seq<nat> {
    seq((|p| + 1) / 2, i requires 0 <= i < (|p| + 1) / 2 => p[2 * i])
  }

  function OddsReversed(p: seq<nat>): seq<nat> {
    seq(|p| / 2, i requires 0 <= i < |p| / 2 => p[2 * (|p| / 2 - 1 - i) + 1])
  }

  function RankOrder(p: seq<nat>): (r: seq<nat>)
    ensures |r| == |p|
  {
    Evens(p) + OddsReversed(p)
  }

  /** Where the entry at place `i` comes from. */
  function Source(m: nat, i: nat): nat
    requires i < m
  {
    if i < (m + 1) / 2 then 2 * i else 2 * (m - 1 - i) + 1
  }

  lemma RankOrderAt(p: seq<nat>, i: nat)
    requires i < |p|
    ensures Source(|p|, i) < |p| && RankOrder(p)[i] == p[Source(|p|, i)]
  {
    var m, c := |p|, (|p| + 1) / 2;
    if i >= c {
      assert m / 2 - 1 - (i - c) == m - 1 - i;
    }
  }

  /** The order is a permutation of the rank's samples. */
  lemma RankOrderKeeps(p: seq<nat>)
    ensures multiset(RankOrder(p)) == multiset(p)
  {
    var sources := seq(|p|, i requires 0 <= i < |p| => Source(|p|, i));
    forall i, j | 0 <= i < j < |p| ensures sources[i] != sources[j] {}
    forall i | 0 <= i < |p| ensures sources[i] < |p| && RankOrder(p)[i] == Gather(p, sources)[i] {
      RankOrderAt(p, i);
    }
    assert RankOrder(p) == Gather(p, sources);
    GatherKeepsMultiset(p, sources);
  }

  /** Workloads rise up to place `peak` and fall from there on. */
  ghost predicate RisesThenFalls(p: seq<nat>, work: seq<nat>, peak: nat) {
    InRange(p, |work|) && peak <= |p| &&
    (forall i, j :: 0 <= i <= j < peak ==> work[p[i]] <= work[p[j]]) &&
    (forall i, j :: peak <= i <= j < |p| ==> work[p[i]] >= work[p[j]])
  }

  lemma SortedBySource(p: seq<nat>, work: seq<nat>, i: nat, j: nat)
    requires InRange(p, |work|) && Sorted(p, work) && i < |p| && j < |p| && Source(|p|, i) <= Source(|p|, j)
    ensures RankOrder(p)[i] < |work| && RankOrder(p)[j] < |work| && work[RankOrder(p)[i]] <= work[RankOrder(p)[j]]
  {
    var x, y := Source(|p|, i), Source(|p|, j);
    RankOrderAt(p, i);
    RankOrderAt(p, j);
    if x < y {
      assert NotAfter(work, p[x], p[y]);
    }
  }

  /** The order is a hill ... */
  lemma RankOrderIsHill(p: seq<nat>, work: seq<nat>)
    requires InRange(p, |work|) && Sorted(p, work)
    ensures RisesThenFalls(RankOrder(p), work, (|p| + 1) / 2)
  {
    var r, m, peak := RankOrder(p), |p|, (|p| + 1) / 2;
    forall i | 0 <= i < m ensures r[i] < |work| {
      SortedBySource(p, work, i, i);
    }
    forall i, j | 0 <= i <= j < peak ensures work[r[i]] <= work[r[j]] {
      SortedBySource(p, work, i, j);
    }
    forall i, j | peak <= i <= j < m ensures work[r[i]] >= work[r[j]] {
      SortedBySource(p, work, j, i);
    }
  }

  /** ... whose first and last entry are the two smallest workloads. */
  lemma HillEnds(p: seq<nat>, work: seq<nat>, i: nat)
    requires InRange(p, |work|) && Sorted(p, work) && 1 <= i < |p| - 1
    ensures InRange(RankOrder(p), |work|)
    ensures work[RankOrder(p)[0]] <= work[RankOrder(p)[|p| - 1]] <= work[RankOrder(p)[i]]
  {
    RankOrderIsHill(p, work);
    SortedBySource(p, work, 0, |p| - 1);
    SortedBySource(p, work, |p| - 1, i);
  }

  /** Where the sample at place `q` by workload is put: the even places go up from the front, the odd ones down from the end. */
  function PlaceOf(m: nat, q: nat): nat
    requires q < m
  {
    if q % 2 == 0 then q / 2 else m - 1 - q / 2
  }

  /** Read that way, the samples go by workload, and by index among equals. */
  ghost predicate Alternates(p: seq<nat>, work: seq<nat>) {
    InRange(p, |work|) &&
    forall x, y :: 0 <= x < y < |p| && PlaceOf(|p|, x) < |p| && PlaceOf(|p|, y) < |p| ==>
      var a, b := p[PlaceOf(|p|, x)], p[PlaceOf(|p|, y)];
      work[a] < work[b] || (work[a] == work[b] && a <= b)
  }

  lemma PlaceAndSource(m: nat, q: nat)
    requires q < m
    ensures PlaceOf(m, q) < m && Source(m, PlaceOf(m, q)) == q
  {
  }

  lemma RankOrderAlternates(p: seq<nat>, work: seq<nat>)
    requires InRange(p, |work|) && Sorted(p, work)
    ensures Alternates(RankOrder(p), work)
  {
    RankOrderIsHill(p, work);
    forall x, y | 0 <= x < y < |p|
      ensures PlaceOf(|p|, x) < |p| && PlaceOf(|p|, y) < |p| &&
              NotAfter(work, RankOrder(p)[PlaceOf(|p|, x)], RankOrder(p)[PlaceOf(|p|, y)])
    {
      PlaceAndSource(|p|, x);
      PlaceAndSource(|p|, y);
      RankOrderAt(p, PlaceOf(|p|, x));
      RankOrderAt(p, PlaceOf(|p|, y));
      assert NotAfter(work, p[x], p[y]);
    }
  }

  // ----- all ranks -----

  lemma {:induction false} PartInRange(parts: seq<seq<nat>>, r: nat, size: nat)
    requires r < |parts| && InRange(Flatten(parts), size)
    ensures InRange(parts[r], size)
  {
    var last := |parts| - 1;
    var before := Flatten(parts[..last]);
    forall i | 0 <= i < |before| ensures before[i] < size {
      assert Flatten(parts)[i] == before[i];
    }
    if r < last {
      PartInRange(parts[..last], r, size);
    } else {
      forall i | 0 <= i < |parts[last]| ensures parts[last][i] < size {
        assert Flatten(parts)[|before| + i] == parts[last][i];
      }
    }
  }

  /** A rank's samples, as a hill with every other sample on the way up. */
  ghost predicate IsOrdered(ordered: seq<nat>, part: seq<nat>, work: seq<nat>) {
    multiset(ordered) == multiset(part) && RisesThenFalls(ordered, work, (|part| + 1) / 2) && Alternates(ordered, work)
  }

  method OrderRank(part: seq<nat>, work: seq<nat>) returns (ordered: seq<nat>)
    requires InRange(part, |work|)
    ensures IsOrdered(ordered, part, work)
  {
    var sorted := SortByWorkload(part, work);
    assert |sorted| == |multiset(sorted)| == |multiset(part)| == |part|;
    ordered := RankOrder(sorted);
    RankOrderKeeps(sorted);
    RankOrderIsHill(sorted, work);
    RankOrderAlternates(sorted, work);
  }

  lemma JoinOneMore(ordered: seq<seq<nat>>, parts: seq<seq<nat>>, r: nat, next: seq<nat>)
    requires r < |parts| && multiset(Flatten(ordered)) == multiset(Flatten(parts[..r])) && multiset(next) == multiset(parts[r])
    ensures multiset(Flatten(ordered + [next])) == multiset(Flatten(parts[..r + 1]))
  {
    assert parts[..r + 1][..r] == parts[..r];
    assert (ordered + [next])[..|ordered|] == ordered;
  }

  /** The first parts are ordered. */
  ghost predicate AreOrdered(ordered: seq<seq<nat>>, parts: seq<seq<nat>>, work: seq<nat>) {
    |ordered| <= |parts| && forall r :: 0 <= r < |ordered| ==> IsOrdered(ordered[r], parts[r], work)
  }

  lemma OrderedMore(ordered: seq<seq<nat>>, parts: seq<seq<nat>>, work: seq<nat>, next: seq<nat>)
    requires AreOrdered(ordered, parts, work) && |ordered| < |parts| && IsOrdered(next, parts[|ordered|], work)
    ensures AreOrdered(ordered + [next], parts, work)
  {
  }

  method OrderRanks(parts: seq<seq<nat>>, work: seq<nat>) returns (ordered: seq<seq<nat>>)
    requires forall r :: 0 <= r < |parts| ==> InRange(parts[r], |work|)
    ensures |ordered| == |parts| && multiset(Flatten(ordered)) == multiset(Flatten(parts))
    ensures AreOrdered(ordered, parts, work)
  {
    ordered := [];
    for r := 0 to |parts|
      invariant |ordered| == r && AreOrdered(ordered, parts, work)
      invariant multiset(Flatten(ordered)) == multiset(Flatten(parts[..r]))
    {
      var next := OrderRank(parts[r], work);
      JoinOneMore(ordered, parts, r, next);
      OrderedMore(ordered, parts, work, next);
      ordered := ordered + [next];
    }
    assert parts[..|parts|] == parts;
  }

  /** Reorders every rank's part; `balanced` lists the samples rank by rank. */
  method BalanceRanks(parts: seq<seq<nat>>, work: seq<nat>) returns (ordered: seq<seq<nat>>, balanced: seq<nat>)
    requires IsPermutation(Flatten(parts), |work|)
    ensures |ordered| == |parts| && balanced == Flatten(ordered) && IsPermutation(balanced, |work|)
    ensures AreOrdered(ordered, parts, work)
  {
    forall r | 0 <= r < |parts| ensures InRange(parts[r], |work|) {
      PartInRange(parts, r, |work|);
    }
    ordered := OrderRanks(parts, work);
    balanced := Flatten(ordered);
    PermutationByMultiset(Flatten(parts), balanced, |work|);
  }
}

/** Serpentine packing of prompts over data-parallel ranks by predicted length. */
module SnakeSort {
  import opened Sequences
  import opened Blocks
  import opened Wrappers

  datatype Error = BadSampleCount | BadWorldSize | UnevenScores
  type Result<T> = Wrappers.Result<T, Error>

  // ----- the order of the prompts -----

  /** `a` comes before `b`: higher score, or the earlier prompt among equals. */
  predicate Before(scores: seq<real>, a: nat, b: nat)
    requires a < |scores| && b < |scores|
  {
    scores[a] > scores[b] || (scores[a] == scores[b] && a < b)
  }

  ghost predicate Ordered(order: seq<nat>, scores: seq<real>)
    requires forall i :: 0 <= i < |order| ==> order[i] < |scores|
  {
    forall i, j :: 0 <= i < j < |order| ==> Before(scores, order[i], order[j])
  }

  /** What a stable sort by descending score returns. */
  ghost predicate IsStableDescending(order: seq<nat>, scores: seq<real>) {
    IsPermutation(order, |scores|) && Ordered(order, scores)
  }

  method SortDescending(scores: seq<real>) returns (order: seq<nat>)
    ensures IsStableDescending(order, scores)
  {
    order := [];
    for i := 0 to |scores|
      invariant |order| == i
      invariant forall k :: 0 <= k < i ==> order[k] < i
      invariant Ordered(order, scores)
    {
      order := Insert(order, scores, i);
    }
  }

  method Insert(order: seq<nat>, scores: seq<real>, i: nat) returns (longer: seq<nat>)
    requires |order| == i < |scores| && (forall k :: 0 <= k < i ==> order[k] < i) && Ordered(order, scores)
    ensures |longer| == i + 1 && (forall k :: 0 <= k <= i ==> longer[k] < i + 1) && Ordered(longer, scores)
  {
    var k := i;
    while k > 0 && scores[order[k - 1]] < scores[i]
      invariant 0 <= k <= i
      invariant forall b :: k <= b < i ==> Before(scores, i, order[b])
    {
      k := k - 1;
    }
    forall a | 0 <= a < k ensures Before(scores, order[a], i) {
      if a < k - 1 {
        assert Before(scores, order[a], order[k - 1]);
      }
    }
    longer := order[..k] + [i] + order[k..];
    forall a, b | 0 <= a < b < |longer| ensures Before(scores, longer[a], longer[b]) {
      var a', b' := if a < k then a else a - 1, if b < k then b else b - 1;
      if a != k && b != k {
        assert Before(scores, order[a'], order[b']);
      }
    }
  }

  // ----- the packing -----

  /** Even blocks run over the ranks forwards, odd blocks backwards. */
  function RankOf(pos: nat, ranks: nat): (rank: nat)
    requires ranks > 0
    ensures rank < ranks
  {
    var block, offset := pos / ranks, pos % ranks;
    if block % 2 == 0 then offset else ranks - 1 - offset
  }

  function Bucket<T>(sorted: seq<T>, ranks: nat, rank: nat): seq<T>
    requires ranks > 0
  {
    if sorted == [] then []
    else
      var last := |sorted| - 1;
      Bucket(sorted[..last], ranks, rank) + if RankOf(last, ranks) == rank then [sorted[last]] else []
  }

  function Buckets(order: seq<nat>, ranks: nat): seq<seq<nat>>
    requires ranks > 0
  {
    seq(ranks, r requires 0 <= r < ranks => Bucket<nat>(order, ranks, r))
  }

  lemma BucketAppend<T>(sorted: seq<T>, x: T, ranks: nat, r: nat)
    requires ranks > 0
    ensures Bucket(sorted + [x], ranks, r) == Bucket(sorted, ranks, r) + if RankOf(|sorted|, ranks) == r then [x] else []
  {
    assert (sorted + [x])[..|sorted|] == sorted;
  }

  lemma BucketsAppend(order: seq<nat>, x: nat, ranks: nat)
    requires ranks > 0
    ensures var rank := RankOf(|order|, ranks);
            Buckets(order + [x], ranks) == Buckets(order, ranks)[rank := Bucket<nat>(order, ranks, rank) + [x]]
  {
    var rank := RankOf(|order|, ranks);
    var after := Buckets(order, ranks)[rank := Bucket<nat>(order, ranks, rank) + [x]];
    forall r | 0 <= r < ranks ensures Buckets(order + [x], ranks)[r] == after[r] {
      BucketAppend(order, x, ranks, r);
    }
  }

  /** The place of `rank` in block `b`. */
  function Place(b: nat, ranks: nat, rank: nat): nat
    requires rank < ranks
  {
    if b % 2 == 0 then rank else ranks - 1 - rank
  }

  lemma RankAt(b: nat, offset: nat, ranks: nat, rank: nat)
    requires offset < ranks && rank < ranks
    ensures 0 <= b * ranks && (RankOf(b * ranks + offset, ranks) == rank <==> Place(b, ranks, rank) == offset)
  {
    DivMod(b, offset, ranks);
  }

  /** Where block `b` of the sorted order holds what `rank` gets: counted forwards in even blocks, backwards in odd ones. */
  function SnakePlace(b: nat, ranks: nat, rank: nat): nat
    requires rank < ranks
  {
    BlockStart(0, b, ranks);
    b * ranks + if b % 2 == 0 then rank else ranks - 1 - rank
  }

  /** The bucket of a rank: one entry of every block that reaches its place, in the order of the blocks. */
  ghost predicate IsSnakeBucket<T(!new)>(bucket: seq<T>, sorted: seq<T>, ranks: nat, rank: nat)
    requires rank < ranks
  {
    forall b: nat ::
      (b < |bucket| <==> SnakePlace(b, ranks, rank) < |sorted|) &&
      (b < |bucket| && SnakePlace(b, ranks, rank) < |sorted| ==> bucket[b] == sorted[SnakePlace(b, ranks, rank)])
  }

  lemma PlacesAscend(a: nat, b: nat, ranks: nat, rank: nat)
    requires rank < ranks && a < b
    ensures SnakePlace(a, ranks, rank) < b * ranks <= SnakePlace(b, ranks, rank)
  {
    BlockStart(a + 1, b, ranks);
    assert (a + 1) * ranks == a * ranks + ranks;
  }

  /** A place belongs to the rank that gets what is there. */
  lemma RankOfPlace(pos: nat, ranks: nat, rank: nat)
    requires rank < ranks
    ensures RankOf(pos, ranks) == rank <==> SnakePlace(pos / ranks, ranks, rank) == pos
    ensures RankOf(pos, ranks) != rank ==> forall b: nat :: SnakePlace(b, ranks, rank) != pos
  {
    var block, offset := pos / ranks, pos % ranks;
    assert pos == block * ranks + offset;
    RankAt(block, offset, ranks, rank);
    forall b: nat | SnakePlace(b, ranks, rank) == pos ensures RankOf(pos, ranks) == rank {
      DivMod(b, Place(b, ranks, rank), ranks);
      RankAt(b, Place(b, ranks, rank), ranks, rank);
    }
  }

  /** The next entry of the sorted order goes to the end of its rank's bucket. */
  lemma BucketSize<T(!new)>(bucket: seq<T>, sorted: seq<T>, ranks: nat, rank: nat)
    requires rank < ranks && IsSnakeBucket(bucket, sorted, ranks, rank) && RankOf(|sorted|, ranks) == rank
    ensures |bucket| == |sorted| / ranks
  {
    var b := |sorted| / ranks;
    RankOfPlace(|sorted|, ranks, rank);
    assert SnakePlace(b, ranks, rank) == |sorted|;
    if b > 0 {
      PlacesAscend(b - 1, b, ranks, rank);
    }
  }

  lemma BucketGrows<T(!new)>(bucket: seq<T>, sorted: seq<T>, x: T, ranks: nat, rank: nat)
    requires rank < ranks && IsSnakeBucket(bucket, sorted, ranks, rank)
    ensures IsSnakeBucket(bucket + if RankOf(|sorted|, ranks) == rank then [x] else [], sorted + [x], ranks, rank)
  {
    var pos := |sorted|;
    RankOfPlace(pos, ranks, rank);
    if RankOf(pos, ranks) == rank {
      BucketSize(bucket, sorted, ranks, rank);
      forall b: nat
        ensures b < |bucket + [x]| <==> SnakePlace(b, ranks, rank) < |sorted + [x]|
        ensures b < |bucket + [x]| && SnakePlace(b, ranks, rank) < |sorted + [x]| ==>
                  (bucket + [x])[b] == (sorted + [x])[SnakePlace(b, ranks, rank)]
      {
        if b > |bucket| { PlacesAscend(|bucket|, b, ranks, rank); }
      }
    } else {
      forall b: nat
        ensures b < |bucket| <==> SnakePlace(b, ranks, rank) < |sorted + [x]|
        ensures b < |bucket| && SnakePlace(b, ranks, rank) < |sorted + [x]| ==> bucket[b] == (sorted + [x])[SnakePlace(b, ranks, rank)]
      {
        assert SnakePlace(b, ranks, rank) != pos;
      }
      assert bucket + [] == bucket;
    }
  }

  lemma {:induction false} BucketIs<T(!new)>(sorted: seq<T>, ranks: nat, rank: nat)
    requires rank < ranks
    ensures IsSnakeBucket(Bucket(sorted, ranks, rank), sorted, ranks, rank)
  {
    if sorted != [] {
      var last := |sorted| - 1;
      BucketIs(sorted[..last], ranks, rank);
      BucketGrows(Bucket(sorted[..last], ranks, rank), sorted[..last], sorted[last], ranks, rank);
      assert sorted[..last] + [sorted[last]] == sorted;
    }
  }

  /** The buckets of the serpentine packing. */
  ghost predicate AreSnakeBuckets(buckets: seq<seq<nat>>, order: seq<nat>, ranks: nat) {
    |buckets| == ranks && forall r :: 0 <= r < ranks ==> IsSnakeBucket(buckets[r], order, ranks, r)
  }

  lemma BucketsAre(order: seq<nat>, ranks: nat)
    requires ranks > 0
    ensures AreSnakeBuckets(Buckets(order, ranks), order, ranks)
  {
    forall r: nat | r < ranks ensures IsSnakeBucket(Buckets(order, ranks)[r], order, ranks, r) {
      BucketIs(order, ranks, r);
    }
  }

  /** Every prompt becomes the block of its `n` consecutive samples. */
  function Expand(prompts: seq<nat>, n: nat): (samples: seq<nat>)
    ensures |samples| == |prompts| * n
  {
    if prompts == [] then []
    else
      var last := |prompts| - 1;
      assert |prompts| * n == last * n + n;
      Expand(prompts[..last], n) + Block(prompts[last], n)
  }

  function Block(prompt: nat, n: nat): (samples: seq<nat>)
    ensures |samples| == n
  {
    seq(n, j requires 0 <= j => prompt * n + j)
  }

  /** Scores are repeated per prompt; the first sample of each block speaks for the prompt. */
  function PromptScores(scores: seq<real>, n: nat): (r: seq<real>)
    requires n > 0 && |scores| % n == 0
    ensures |r| == |scores| / n
  {
    seq(|scores| / n, i requires 0 <= i < |scores| / n => FirstOfBlock(scores, i, n))
  }

  function FirstOfBlock(scores: seq<real>, i: nat, n: nat): real
    requires n > 0 && |scores| % n == 0 && i < |scores| / n
  {
    InBlock(i, 0, |scores| / n, n);
    scores[i * n]
  }

  /** The prompts by descending score of their first sample, equal ones in their order. */
  ghost predicate SortsPrompts(order: seq<nat>, scores: seq<real>, n: nat) {
    n > 0 && IsPermutation(order, |scores| / n) &&
    forall i, j :: 0 <= i < j < |order| ==> StandsBefore(scores, n, order[i], order[j])
  }

  ghost predicate StandsBefore(scores: seq<real>, n: nat, a: nat, b: nat) {
    0 <= a * n < |scores| && 0 <= b * n < |scores| &&
    (scores[a * n] > scores[b * n] || (scores[a * n] == scores[b * n] && a < b))
  }

  lemma SortedPrompts(order: seq<nat>, scores: seq<real>, n: nat)
    requires n > 0 && |scores| % n == 0 && IsStableDescending(order, PromptScores(scores, n))
    ensures SortsPrompts(order, scores, n)
  {
    forall i, j | 0 <= i < j < |order| ensures StandsBefore(scores, n, order[i], order[j]) {
      InBlock(order[i], 0, |scores| / n, n);
      InBlock(order[j], 0, |scores| / n, n);
      assert Before(PromptScores(scores, n), order[i], order[j]);
    }
  }

  method SnakeSortIndices(scores: seq<real>, samplesPerPrompt: int, worldSize: int)
    returns (r: Result<seq<nat>>, ghost order: seq<nat>)
    ensures r.Err? <==> samplesPerPrompt <= 0 || worldSize <= 0 || |scores| % samplesPerPrompt != 0
    ensures r.Ok? ==>
              IsStableDescending(order, PromptScores(scores, samplesPerPrompt)) &&
              r.value == Expand(Flatten(Buckets(order, worldSize)), samplesPerPrompt)
    ensures r.Ok? ==>
              SortsPrompts(order, scores, samplesPerPrompt) && AreSnakeBuckets(Buckets(order, worldSize), order, worldSize)
  {
    order := [];
    if samplesPerPrompt <= 0 { return Err(BadSampleCount), order; }
    if worldSize <= 0 { return Err(BadWorldSize), order; }
    if |scores| % samplesPerPrompt != 0 { return Err(UnevenScores), order; }
    var promptScores := PromptScores(scores, samplesPerPrompt);
    var sorted := SortDescending(promptScores);
    order := sorted;
    var buckets: seq<seq<nat>> := seq(worldSize, _ => []);
    for pos := 0 to |sorted|
      invariant buckets == Buckets(sorted[..pos], worldSize)
    {
      assert sorted[..pos + 1] == sorted[..pos] + [sorted[pos]];
      BucketsAppend(sorted[..pos], sorted[pos], worldSize);
      var block, offset := pos / worldSize, pos % worldSize;
      var rank := if block % 2 == 0 then offset else worldSize - 1 - offset;
      assert rank == RankOf(pos, worldSize);
      buckets := buckets[rank := buckets[rank] + [sorted[pos]]];
    }
    assert sorted[..|sorted|] == sorted;
    var ordered := Flatten(buckets);
    var samples := [];
    for k := 0 to |ordered|
      invariant samples == Expand(ordered[..k], samplesPerPrompt)
    {
      assert ordered[..k + 1][..k] == ordered[..k];
      samples := samples + Block(ordered[k], samplesPerPrompt);
    }
    assert ordered[..|ordered|] == ordered;
    BucketsAre(order, worldSize);
    SortedPrompts(order, scores, samplesPerPrompt);
    r := Ok(samples);
  }

  // ----- nothing is lost -----

  lemma {:induction false} ConcatAppend<T>(buckets: seq<seq<T>>, r: nat, x: T)
    requires r < |buckets|
    ensures multiset(Flatten(buckets[r := buckets[r] + [x]])) == multiset(Flatten(buckets)) + multiset{x}
  {
    var last := |buckets| - 1;
    var more := buckets[r := buckets[r] + [x]];
    if r < last {
      ConcatAppend(buckets[..last], r, x);
      assert more[..last] == buckets[..last][r := buckets[r] + [x]];
    } else {
      assert more[..last] == buckets[..last];
    }
  }

  lemma {:induction false} ConcatEmpty<T>(buckets: seq<seq<T>>)
    requires forall r :: 0 <= r < |buckets| ==> buckets[r] == []
    ensures Flatten(buckets) == []
  {
    if buckets != [] {
      ConcatEmpty(buckets[..|buckets| - 1]);
    }
  }

  lemma {:induction false} PackingKeepsPrompts(order: seq<nat>, ranks: nat)
    requires ranks > 0
    ensures multiset(Flatten(Buckets(order, ranks))) == multiset(order)
    decreases |order|
  {
    if order == [] {
      ConcatEmpty(Buckets(order, ranks));
    } else {
      var last := |order| - 1;
      var rank := RankOf(last, ranks);
      assert order == order[..last] + [order[last]];
      PackingKeepsPrompts(order[..last], ranks);
      BucketsAppend(order[..last], order[last], ranks);
      ConcatAppend(Buckets(order[..last], ranks), rank, order[last]);
    }
  }

  /** Sample `j` of the prompt at place `k` is at position k * n + j: a prompt's samples stay together. */
  lemma {:induction false} SamplesStayTogether(prompts: seq<nat>, n: nat, k: nat, j: nat)
    requires k < |prompts| && j < n
    ensures 0 <= k * n + j < |prompts| * n
    ensures Expand(prompts, n)[k * n + j] == prompts[k] * n + j
  {
    InBlock(k, j, |prompts|, n);
    var last := |prompts| - 1;
    assert |prompts| * n == last * n + n;
    if k < last {
      InBlock(k, j, last, n);
      SamplesStayTogether(prompts[..last], n, k, j);
    }
  }

  /** The result is a permutation of all sample indices. */
  lemma OutputIsPermutation(prompts: seq<nat>, n: nat, count: nat)
    requires IsPermutation(prompts, count)
    ensures IsPermutation(Expand(prompts, n), count * n)
  {
    var samples := Expand(prompts, n);
    forall a | 0 <= a < |samples| ensures samples[a] < count * n {
      var k, j := Locate(prompts, n, a);
      InBlock(prompts[k], j, count, n);
    }
    forall a, b | 0 <= a < b < |samples| ensures samples[a] != samples[b] {
      var k, j := Locate(prompts, n, a);
      var l, i := Locate(prompts, n, b);
      DivMod(prompts[k], j, n);
      DivMod(prompts[l], i, n);
    }
  }

  lemma Locate(prompts: seq<nat>, n: nat, a: nat) returns (k: nat, j: nat)
    requires a < |prompts| * n
    ensures k < |prompts| && j < n && a == k * n + j && Expand(prompts, n)[a] == prompts[k] * n + j
  {
    assert n == 0 ==> |prompts| * n == 0;
    k, j := a / n, a % n;
    assert a == k * n + j;
    QuotientBound(a, |prompts|, n);
    SamplesStayTogether(prompts, n, k, j);
  }

  lemma QuotientBound(a: nat, count: nat, n: nat)
    requires n > 0 && a < count * n
    ensures a / n < count
  {
    if a / n >= count {
      BlockStart(count, a / n, n);
    }
  }

  /** Main structural result: every sample occurs once, and the samples of a prompt stay together. */
  lemma SnakeOrderIsPermutation(order: seq<nat>, count: nat, ranks: nat, n: nat)
    requires ranks > 0 && IsPermutation(order, count)
    ensures IsPermutation(Expand(Flatten(Buckets(order, ranks)), n), count * n)
    ensures IsPermutation(Flatten(Buckets(order, ranks)), count)
  {
    PackingKeepsPrompts(order, ranks);
    PermutationByMultiset(order, Flatten(Buckets(order, ranks)), count);
    OutputIsPermutation(Flatten(Buckets(order, ranks)), n, count);
  }

  // ----- the load bound -----

  function Load(scores: seq<real>, ranks: nat, rank: nat): real
    requires ranks > 0
  {
    Sum(Bucket(scores, ranks, rank))
  }

  ghost predicate Descending(scores: seq<real>) {
    forall i, j :: 0 <= i <= j < |scores| ==> scores[i] >= scores[j]
  }

  /** Within a block each rank gets one score, as soon as the block has reached its place. */
  lemma {:induction false} LoadInBlock(scores: seq<real>, ranks: nat, rank: nat, b: nat, start: nat, j: nat)
    requires rank < ranks && j <= ranks && start == b * ranks && start + j <= |scores|
    ensures var place := Place(b, ranks, rank);
            Load(scores[..start + j], ranks, rank) ==
            Load(scores[..start], ranks, rank) + if place < j then scores[start + place] else 0.0
    decreases j
  {
    if j > 0 {
      var pos := start + j - 1;
      LoadInBlock(scores, ranks, rank, b, start, j - 1);
      RankAt(b, j - 1, ranks, rank);
      LoadAppend(scores, ranks, rank, pos);
    }
  }

  lemma LoadAppend(scores: seq<real>, ranks: nat, rank: nat, pos: nat)
    requires ranks > 0 && pos < |scores|
    ensures Load(scores[..pos + 1], ranks, rank) ==
            Load(scores[..pos], ranks, rank) + if RankOf(pos, ranks) == rank then scores[pos] else 0.0
  {
    assert scores[..pos + 1] == scores[..pos] + [scores[pos]];
    BucketAppend(scores[..pos], scores[pos], ranks, rank);
    var bucket := Bucket(scores[..pos], ranks, rank);
    SumAppend(bucket, scores[pos]);
    assert bucket + [] == bucket;
  }

  /** One block more: the ranks drift apart by no more than the scores fall from the last block on. */
  lemma BlockDrift(scores: seq<real>, ranks: nat, r: nat, q: nat, b: nat, start: nat)
    requires Descending(scores) && r < ranks && q < ranks && start == b * ranks && start + ranks <= |scores|
    ensures Load(scores[..start + ranks], ranks, r) - Load(scores[..start + ranks], ranks, q) <=
            Load(scores[..start], ranks, r) - Load(scores[..start], ranks, q) +
            (scores[start] - scores[start + ranks - 1])
  {
    LoadInBlock(scores, ranks, r, b, start, ranks);
    LoadInBlock(scores, ranks, q, b, start, ranks);
  }

  /** Over whole blocks the loads of two ranks drift apart by no more than the scores fall. */
  lemma {:induction false} WholeBlocksBound(scores: seq<real>, ranks: nat, r: nat, q: nat, b: nat, end: nat)
    requires Descending(scores) && r < ranks && q < ranks && 0 < b && 0 < end == b * ranks <= |scores|
    ensures Load(scores[..end], ranks, r) - Load(scores[..end], ranks, q) <= scores[0] - scores[end - 1]
    decreases b
  {
    var start := end - ranks;
    assert start == (b - 1) * ranks;
    BlockDrift(scores, ranks, r, q, b - 1, start);
    if b == 1 {
      assert scores[..start] == [];
    } else {
      BlockStart(1, b - 1, ranks);
      WholeBlocksBound(scores, ranks, r, q, b - 1, start);
    }
  }

  /** When the ranks divide the prompts, two ranks differ by at most the highest minus the lowest score. */
  lemma LoadsDifferByTheSpread(scores: seq<real>, ranks: nat, r: nat, q: nat)
    requires Descending(scores) && r < ranks && q < ranks && scores != [] && |scores| % ranks == 0
    ensures Load(scores, ranks, r) - Load(scores, ranks, q) <= scores[0] - scores[|scores| - 1]
  {
    var b := |scores| / ranks;
    assert |scores| == b * ranks;
    assert scores[..|scores|] == scores;
    WholeBlocksBound(scores, ranks, r, q, b, |scores|);
  }

  /** Missing prompts weigh nothing. */
  lemma {:induction false} PaddingWeighsNothing(scores: seq<real>, ranks: nat, rank: nat, k: nat)
    requires ranks > 0
    ensures Load(scores + Zeros(k), ranks, rank) == Load(scores, ranks, rank)
  {
    if k == 0 {
      assert scores + Zeros(0) == scores;
    } else {
      PaddingWeighsNothing(scores, ranks, rank, k - 1);
      var padded := scores + Zeros(k);
      assert padded[..|padded| - 1] == scores + Zeros(k - 1) && padded[..|padded|] == padded;
      LoadAppend(padded, ranks, rank, |padded| - 1);
    }
  }

  /** For any number of prompts with non-negative scores, two ranks differ by at most the highest score. */
  lemma LoadsDifferByTheHighest(scores: seq<real>, ranks: nat, r: nat, q: nat)
    requires Descending(scores) && r < ranks && q < ranks && scores != []
    requires scores[|scores| - 1] >= 0.0
    ensures Load(scores, ranks, r) - Load(scores, ranks, q) <= scores[0]
  {
    var missing := CompleteTheBlock(|scores|, ranks);
    PaddingWeighsNothing(scores, ranks, r, missing);
    PaddingWeighsNothing(scores, ranks, q, missing);
    PaddedStaysDescending(scores, missing);
    LoadsDifferByTheSpread(scores + Zeros(missing), ranks, r, q);
  }

  lemma PaddedStaysDescending(scores: seq<real>, missing: nat)
    requires Descending(scores) && scores != [] && scores[|scores| - 1] >= 0.0
    ensures var padded := scores + Zeros(missing);
            Descending(padded) && |padded| == |scores| + missing && padded[0] == scores[0] && padded[|padded| - 1] >= 0.0
  {
    var padded := scores + Zeros(missing);
    forall i, j | 0 <= i <= j < |padded| ensures padded[i] >= padded[j] {
      assert i < |scores| ==> scores[i] >= scores[|scores| - 1];
    }
  }

  lemma CompleteTheBlock(count: nat, ranks: nat) returns (missing: nat)
    requires ranks > 0
    ensures (count + missing) % ranks == 0
  {
    var b, o := count / ranks, count % ranks;
    assert count == b * ranks + o;
    missing := if o == 0 then 0 else ranks - o;
    if o > 0 {
      assert count + missing == (b + 1) * ranks + 0;
      DivMod(b + 1, 0, ranks);
    }
  }

  /** Whole blocks, and a last block that has `j` scores. */
  lemma LoadSplits(scores: seq<real>, ranks: nat, rank: nat, b: nat, end: nat, j: nat)
    requires rank < ranks && end == b * ranks && j < ranks && end + j == |scores|
    ensures Load(scores, ranks, rank) ==
            Load(scores[..end], ranks, rank) + LastShare(scores, end, Place(b, ranks, rank), j)
  {
    LoadInBlock(scores, ranks, rank, b, end, j);
    assert scores[..end + j] == scores;
  }

  lemma WithinRange(scores: seq<real>, i: nat)
    requires Descending(scores) && i < |scores|
    ensures scores[|scores| - 1] <= scores[i] <= scores[0]
  {
  }

  /** What rank `rank` gets of the last block. */
  function LastShare(scores: seq<real>, end: nat, place: nat, j: nat): real
    requires end + j == |scores|
  {
    if place < j then scores[end + place] else 0.0
  }

  lemma LastShareIs(scores: seq<real>, end: nat, place: nat, j: nat)
    requires Descending(scores) && end + j == |scores| && scores != []
    ensures LastShare(scores, end, place, j) == 0.0 ||
            (scores[|scores| - 1] <= LastShare(scores, end, place, j) <= scores[if end > 0 then end - 1 else 0])
  {
  }

  /** With negative scores the lowest counts twice: once as the spread of the whole blocks, once as the score that only
   *  one of the ranks gets. */
  lemma LoadsDifferByTheLowestTwice(scores: seq<real>, ranks: nat, r: nat, q: nat)
    requires Descending(scores) && r < ranks && q < ranks && scores != [] && scores[|scores| - 1] < 0.0
    ensures Load(scores, ranks, r) - Load(scores, ranks, q) <= scores[0] - 2.0 * scores[|scores| - 1]
  {
    var b, j := |scores| / ranks, |scores| % ranks;
    var end := b * ranks;
    assert end + j == |scores|;
    LoadSplits(scores, ranks, r, b, end, j);
    LoadSplits(scores, ranks, q, b, end, j);
    LastShareIs(scores, end, Place(b, ranks, r), j);
    LastShareIs(scores, end, Place(b, ranks, q), j);
    WithinRange(scores, 0);
    if b == 0 {
      assert end == 0 && scores[..end] == [];
    } else {
      BlockStart(1, b, ranks);
      WholeBlocksBound(scores, ranks, r, q, b, end);
      WithinRange(scores, end - 1);
    }
  }

  /** The bound for any prompt count and scores of any sign. */
  lemma LoadsAreBounded(scores: seq<real>, ranks: nat, r: nat, q: nat)
    requires Descending(scores) && r < ranks && q < ranks && scores != []
    ensures var low := scores[|scores| - 1];
            Load(scores, ranks, r) - Load(scores, ranks, q) <= scores[0] + if low < 0.0 then -2.0 * low else 0.0
  {
    if scores[|scores| - 1] >= 0.0 {
      LoadsDifferByTheHighest(scores, ranks, r, q);
    } else {
      LoadsDifferByTheLowestTwice(scores, ranks, r, q);
    }
  }

  lemma LoadsOfThree(a: real, b: real, c: real)
    ensures Load([a, b, c], 2, 0) == a && Load([a, b, c], 2, 1) == b + c
  {
    var scores := [a, b, c];
    assert scores[..3] == scores && scores[..0] == [];
    forall rank: nat | rank < 2 ensures Load(scores, 2, rank) == if rank == 1 then b + c else a {
      LoadAppend(scores, 2, rank, 0);
      LoadAppend(scores, 2, rank, 1);
      LoadAppend(scores, 2, rank, 2);
    }
  }

  lemma LoadsOfOne(a: real)
    ensures Load([a], 2, 0) == a && Load([a], 2, 1) == 0.0
  {
    var scores := [a];
    assert scores[..1] == scores && scores[..0] == [];
    forall rank: nat | rank < 2 ensures Load(scores, 2, rank) == if rank == 1 then 0.0 else a {
      LoadAppend(scores, 2, rank, 0);
    }
  }

  /** Both bounds are reached, whatever the range of the scores is. */
  lemma BoundsAreReached(low: real, high: real)
    requires low <= high
    ensures Descending([high, low, low]) && Load([high, low, low], 2, 0) - Load([high, low, low], 2, 1) == high - 2.0 * low
    ensures Descending([high]) && Load([high], 2, 0) - Load([high], 2, 1) == high
  {
    LoadsOfThree(high, low, low);
    LoadsOfOne(high);
  }

  ghost predicate BoundedByHighest(scores: seq<real>, ranks: nat) {
    scores != [] && ranks > 0 &&
    forall r: nat, q: nat :: r < ranks && q < ranks ==> Load(scores, ranks, r) - Load(scores, ranks, q) <= scores[0]
  }

  /** All batches with scores from `low` on, over any number of ranks. */
  ghost predicate Covers(scores: seq<real>, ranks: nat, low: real) {
    scores != [] && Descending(scores) && scores[|scores| - 1] >= low && ranks > 0
  }

  lemma HighestBounds(scores: seq<real>, ranks: nat)
    requires Covers(scores, ranks, 0.0)
    ensures BoundedByHighest(scores, ranks)
  {
    forall r: nat, q: nat | r < ranks && q < ranks ensures Load(scores, ranks, r) - Load(scores, ranks, q) <= scores[0] {
      LoadsDifferByTheHighest(scores, ranks, r, q);
    }
  }

  lemma HighestFails(low: real)
    requires low < 0.0
    ensures Covers([0.0, 0.0, low], 2, low) && !BoundedByHighest([0.0, 0.0, low], 2)
  {
    LoadsOfThree(0.0, 0.0, low);
    var scores := [0.0, 0.0, low];
    assert Load(scores, 2, 0) - Load(scores, 2, 1) > scores[0];
  }

  /** The highest score bounds the difference for all batches with scores from `low` on exactly when `low` is not
   *  negative. */
  lemma HighestBoundsLoadsIff(low: real)
    ensures (forall scores: seq<real>, ranks: nat :: Covers(scores, ranks, low) ==> BoundedByHighest(scores, ranks)) <==> low >= 0.0
  {
    if low >= 0.0 {
      forall scores: seq<real>, ranks: nat | Covers(scores, ranks, low) ensures BoundedByHighest(scores, ranks) {
        HighestBounds(scores, ranks);
      }
    } else {
      HighestFails(low);
    }
  }

  // ----- the bounds in terms of prompts -----

  lemma {:induction false} BucketGathers(scores: seq<real>, order: seq<nat>, ranks: nat, rank: nat)
    requires ranks > 0 && forall i :: 0 <= i < |order| ==> order[i] < |scores|
    ensures forall i :: 0 <= i < |Bucket<nat>(order, ranks, rank)| ==> Bucket<nat>(order, ranks, rank)[i] < |scores|
    ensures Bucket(Gather(scores, order), ranks, rank) == Gather(scores, Bucket<nat>(order, ranks, rank))
    decreases |order|
  {
    if order != [] {
      var last := |order| - 1;
      BucketGathers(scores, order[..last], ranks, rank);
      assert Gather(scores, order)[..last] == Gather(scores, order[..last]);
      var bucket := Bucket<nat>(order[..last], ranks, rank);
      assert Gather(scores, bucket + [order[last]]) == Gather(scores, bucket) + [scores[order[last]]];
    }
  }

  /** Predicted work of the prompts that a rank is given. */
  ghost function RankLoad(scores: seq<real>, order: seq<nat>, ranks: nat, rank: nat): real
    requires ranks > 0 && forall i :: 0 <= i < |order| ==> order[i] < |scores|
  {
    BucketGathers(scores, order, ranks, rank);
    Sum(Gather(scores, Bucket<nat>(order, ranks, rank)))
  }

  /** The load-balance guarantee for the order that the sort produced. */
  lemma SnakeBalancesLoads(scores: seq<real>, order: seq<nat>, ranks: nat, r: nat, q: nat, low: real, high: real)
    requires IsStableDescending(order, scores) && r < ranks && q < ranks
    requires forall p :: 0 <= p < |scores| ==> low <= scores[p] <= high
    requires scores == [] ==> low <= high
    ensures |scores| % ranks == 0 ==> RankLoad(scores, order, ranks, r) - RankLoad(scores, order, ranks, q) <= high - low
    ensures low >= 0.0 ==> RankLoad(scores, order, ranks, r) - RankLoad(scores, order, ranks, q) <= high
    ensures low < 0.0 ==> RankLoad(scores, order, ranks, r) - RankLoad(scores, order, ranks, q) <= high - 2.0 * low
  {
    var sorted := Gather(scores, order);
    BucketGathers(scores, order, ranks, r);
    BucketGathers(scores, order, ranks, q);
    if sorted != [] {
      assert Descending(sorted) by {
        forall i, j | 0 <= i <= j < |sorted| ensures sorted[i] >= sorted[j] {
          if i < j { assert Before(scores, order[i], order[j]); }
        }
      }
      if |scores| % ranks == 0 { LoadsDifferByTheSpread(sorted, ranks, r, q); }
      LoadsAreBounded(sorted, ranks, r, q);
    }
  }

  /** Rank sizes differ by at most one: the load bound again, with every prompt weighing one. */
  lemma RankSizesDifferByOne(order: seq<nat>, ranks: nat, r: nat, q: nat)
    requires r < ranks && q < ranks
    ensures |Bucket(order, ranks, r)| <= |Bucket(order, ranks, q)| + 1
  {
    var ones := seq(|order|, _ => 1.0);
    CountByOnes(order, ones, ranks, r);
    CountByOnes(order, ones, ranks, q);
    if order != [] {
      LoadsDifferByTheHighest(ones, ranks, r, q);
    }
  }

  lemma {:induction false} CountByOnes(order: seq<nat>, ones: seq<real>, ranks: nat, rank: nat)
    requires ranks > 0 && |ones| == |order| && forall i :: 0 <= i < |ones| ==> ones[i] == 1.0
    ensures Load(ones, ranks, rank) == |Bucket<nat>(order, ranks, rank)| as real
    decreases |order|
  {
    if order != [] {
      var last := |order| - 1;
      CountByOnes(order[..last], ones[..last], ranks, rank);
      assert ones[..last + 1] == ones;
      LoadAppend(ones, ranks, rank, last);
    }
  }

  /** When the ranks divide the prompts, cutting the packed order into equal consecutive chunks hands
   *  rank `r` exactly its bucket, so the loads above are the loads the ranks really get. */
  lemma EqualChunksAreBuckets(order: seq<nat>, ranks: nat, size: nat, r: nat)
    requires r < ranks && |order| == size * ranks
    ensures r * size + size <= |Flatten(Buckets(order, ranks))| == size * ranks
    ensures Flatten(Buckets(order, ranks))[r * size..r * size + size] == Bucket(order, ranks, r)
  {
    forall q | 0 <= q < ranks ensures |Buckets(order, ranks)[q]| == size {
      EvenBucket(order, ranks, q, size, |order|);
    }
    EqualPieces(Buckets(order, ranks), size, r);
  }

  lemma {:induction false} EvenBucket(order: seq<nat>, ranks: nat, rank: nat, size: nat, end: nat)
    requires rank < ranks && end == size * ranks <= |order|
    ensures |Bucket(order[..end], ranks, rank)| == size
    ensures order[..|order|] == order
    decreases size
  {
    if size == 0 {
      assert order[..end] == [];
    } else {
      var start := end - ranks;
      assert start == (size - 1) * ranks;
      EvenBucket(order, ranks, rank, size - 1, start);
      BucketInBlock(order, ranks, rank, size - 1, start, ranks);
    }
  }

  lemma {:induction false} BucketInBlock(order: seq<nat>, ranks: nat, rank: nat, b: nat, start: nat, j: nat)
    requires rank < ranks && j <= ranks && start == b * ranks && start + j <= |order|
    ensures |Bucket(order[..start + j], ranks, rank)| ==
            |Bucket(order[..start], ranks, rank)| + if Place(b, ranks, rank) < j then 1 else 0
    decreases j
  {
    if j > 0 {
      var pos := start + j - 1;
      BucketInBlock(order, ranks, rank, b, start, j - 1);
      RankAt(b, j - 1, ranks, rank);
      assert order[..pos + 1] == order[..pos] + [order[pos]];
      BucketAppend(order[..pos], order[pos], ranks, rank);
    }
  }

  lemma {:induction false} ConcatStartsWith<T>(pieces: seq<seq<T>>, k: nat)
    requires k <= |pieces|
    ensures Flatten(pieces[..k]) <= Flatten(pieces)
  {
    if k == |pieces| {
      assert pieces[..k] == pieces;
    } else {
      var last := |pieces| - 1;
      ConcatStartsWith(pieces[..last], k);
      assert pieces[..last][..k] == pieces[..k];
    }
  }

  lemma PieceOfPrefix<T>(init: seq<T>, piece: seq<T>, all: seq<T>)
    requires init + piece <= all
    ensures |init| + |piece| <= |all| && all[|init|..|init| + |piece|] == piece
  {
    var k := |init| + |piece|;
    assert all[..k] == init + piece;
    assert all[|init|..k] == all[..k][|init|..];
  }

  lemma EqualPieces<T>(pieces: seq<seq<T>>, size: nat, r: nat)
    requires r < |pieces| && forall q :: 0 <= q < |pieces| ==> |pieces[q]| == size
    ensures 0 <= r * size <= r * size + size <= |Flatten(pieces)| == size * |pieces|
    ensures Flatten(pieces)[r * size..r * size + size] == pieces[r]
  {
    var init := Flatten(pieces[..r]);
    ConcatLength(pieces[..r], size, size * r);
    ConcatLength(pieces, size, size * |pieces|);
    assert |init| == r * size;
    ConcatStartsWith(pieces, r + 1);
    assert pieces[..r + 1][..r] == pieces[..r];
    PieceOfPrefix(init, pieces[r], Flatten(pieces));
  }

  lemma {:induction false} ConcatLength<T>(pieces: seq<seq<T>>, size: nat, total: nat)
    requires total == size * |pieces| && forall q :: 0 <= q < |pieces| ==> |pieces[q]| == size
    ensures |Flatten(pieces)| == total
  {
    if pieces != [] {
      var last := |pieces| - 1;
      assert total - size == size * last;
      ConcatLength(pieces[..last], size, total - size);
    }
  }
}

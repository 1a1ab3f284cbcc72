/** Reorder, filter, truncate, balance and restore: the predictor's labels stay with their prompts. */
module PredictorOrder {
  import opened Blocks
  import opened Groups
  import opened ReverseIndex
  import opened Sequences
  import SnakeSort
  import opened Wrappers

  // ----- scores, one per prompt, broadcast to its samples -----

  /** `tensor[start : stop] = value`. */
  function SetSlice(tensor: seq<real>, start: nat, stop: nat, value: real): (r: seq<real>)
    requires start <= stop <= |tensor|
    ensures |r| == |tensor|
    ensures forall j :: 0 <= j < |r| ==> r[j] == if start <= j < stop then value else tensor[j]
  {
    seq(|tensor|, j requires 0 <= j < |tensor| => if start <= j < stop then value else tensor[j])
  }

  /** Every sample of the first `done` has its prompt's score. */
  ghost predicate Filled(tensor: seq<real>, scores: seq<real>, n: nat, done: nat)
    requires n > 0
  {
    done <= |tensor| && forall j :: 0 <= j < done ==> j / n < |scores| && tensor[j] == scores[j / n]
  }

  /** Fills each prompt's window of the zeroed score tensor; the last one may be cut short. */
  method BroadcastScores(scores: seq<real>, batchSize: nat, n: nat) returns (broadcast: seq<real>)
    requires n > 0 && |scores| == (batchSize + n - 1) / n
    ensures |broadcast| == batchSize && Filled(broadcast, scores, n, batchSize)
  {
    broadcast := seq(batchSize, _ => 0.0);
    ghost var done: nat := 0;
    for i := 0 to |scores|
      invariant |broadcast| == batchSize && Filled(broadcast, scores, n, done)
      invariant if i < |scores| then done == i * n else done == batchSize
    {
      WindowStarts(i, batchSize, n);
      var start: nat := i * n;
      var stop: nat := if start + n < batchSize then start + n else batchSize;
      FillWindow(broadcast, scores, n, i, start, stop);
      broadcast := SetSlice(broadcast, start, stop, scores[i]);
      done := stop;
      NextWindow(i, batchSize, n);
    }
    if |scores| == 0 {
      CeilingCovers(batchSize, n);
    }
  }

  lemma FillWindow(tensor: seq<real>, scores: seq<real>, n: nat, i: nat, start: nat, stop: nat)
    requires n > 0 && i < |scores| && start == i * n && start <= stop <= start + n && stop <= |tensor|
    requires Filled(tensor, scores, n, start)
    ensures Filled(SetSlice(tensor, start, stop, scores[i]), scores, n, stop)
  {
    forall j | start <= j < stop ensures j / n == i {
      DivMod(i, j - start, n);
    }
  }

  /** The window after window `i` starts where that one stops, and the last one reaches the end. */
  lemma NextWindow(i: nat, batchSize: nat, n: nat)
    requires n > 0 && i < (batchSize + n - 1) / n
    ensures i + 1 < (batchSize + n - 1) / n ==> i * n + n == (i + 1) * n < batchSize
    ensures i + 1 == (batchSize + n - 1) / n ==> i * n + n >= batchSize
  {
    assert (i + 1) * n == i * n + n;
    if i + 1 < (batchSize + n - 1) / n {
      WindowStarts(i + 1, batchSize, n);
    } else {
      CeilingCovers(batchSize, n);
    }
  }

  lemma WindowStarts(i: nat, batchSize: nat, n: nat)
    requires n > 0 && i < (batchSize + n - 1) / n
    ensures 0 <= i * n < batchSize
  {
    var q := (batchSize + n - 1) / n;
    BlockStart(i + 1, q, n);
    assert (i + 1) * n == i * n + n;
  }

  lemma CeilingCovers(batchSize: nat, n: nat)
    requires n > 0
    ensures batchSize <= ((batchSize + n - 1) / n) * n
  {
    var x := batchSize + n - 1;
    assert x == (x / n) * n + x % n;
  }

  /** A rank's output: it scores every `n`-th of its rows and lets each speak for the rows up to the next. */
  function RankScores(own: seq<real>, n: nat): (r: seq<real>)
    requires n > 0
    ensures |r| == |own|
  {
    seq(|own|, j requires 0 <= j < |own| => StrideBelow(j, n); own[(j / n) * n])
  }

  lemma StrideBelow(j: nat, n: nat)
    requires n > 0
    ensures 0 <= (j / n) * n <= j && (j / n) * n == j - j % n
  {
    assert j == (j / n) * n + j % n;
  }

  /** `compute_predictor_score` on one rank, where `own[j]` is what the scorer makes of row `j`. */
  method ComputePredictorScore(own: seq<real>, n: nat) returns (broadcast: seq<real>)
    requires n > 0
    ensures broadcast == RankScores(own, n)
  {
    var count := (|own| + n - 1) / n;
    forall i | 0 <= i < count ensures 0 <= i * n < |own| { WindowStarts(i, |own|, n); }
    var sampled := seq(count, i requires 0 <= i < count && 0 <= i * n < |own| => own[i * n]);
    broadcast := BroadcastScores(sampled, |own|, n);
  }

  // ----- the scores of all ranks -----

  function Total(sizes: seq<nat>): nat {
    if sizes == [] then 0 else Total(sizes[..|sizes| - 1]) + sizes[|sizes| - 1]
  }

  /** The rows are cut into consecutive chunks, one per rank, and the outputs are joined. */
  function JoinedScores(own: seq<real>, sizes: seq<nat>, n: nat): (r: seq<real>)
    requires n > 0 && Total(sizes) <= |own|
    ensures |r| == Total(sizes)
  {
    if sizes == [] then []
    else
      var start := Total(sizes[..|sizes| - 1]);
      JoinedScores(own, sizes[..|sizes| - 1], n) + RankScores(own[start..Total(sizes)], n)
  }

  /** Where the chunk starts that has row `p`. */
  function ChunkStart(sizes: seq<nat>, p: nat): (start: nat)
    requires p < Total(sizes)
    ensures start <= p
  {
    var before := Total(sizes[..|sizes| - 1]);
    if p >= before then before else ChunkStart(sizes[..|sizes| - 1], p)
  }

  lemma RankScoreAt(own: seq<real>, start: nat, end: nat, n: nat, p: nat)
    requires n > 0 && start <= p < end <= |own|
    ensures 0 <= p - (p - start) % n < |own|
    ensures RankScores(own[start..end], n)[p - start] == own[p - (p - start) % n]
  {
    StrideBelow(p - start, n);
  }

  lemma {:induction false} JoinedAt(own: seq<real>, sizes: seq<nat>, n: nat, p: nat)
    requires n > 0 && Total(sizes) <= |own| && p < Total(sizes)
    ensures var start := ChunkStart(sizes, p);
            0 <= p - (p - start) % n < |own| && JoinedScores(own, sizes, n)[p] == own[p - (p - start) % n]
  {
    var before := Total(sizes[..|sizes| - 1]);
    if p >= before {
      RankScoreAt(own, before, Total(sizes), n, p);
    } else {
      JoinedAt(own, sizes[..|sizes| - 1], n, p);
    }
  }

  /** Every row of a prompt looks the same to the scorer. */
  function RowScores(scores: seq<real>, n: nat): (own: seq<real>)
    requires n > 0
    ensures |own| == |scores| * n
  {
    seq(|scores| * n, j requires 0 <= j < |scores| * n => SnakeSort.QuotientBound(j, |scores|, n); scores[j / n])
  }

  lemma SampledPrompt(i: nat, start: nat, n: nat)
    requires n > 0 && start <= i * n
    ensures (i * n - start) % n == 0 <==> start % n == 0
    ensures start % n != 0 ==> i > 0 && (i * n - (i * n - start) % n) / n == i - 1
    ensures (i * n) / n == i
  {
    DivMod(i, 0, n);
    var q, r := start / n, start % n;
    assert start == q * n + r;
    if r == 0 {
      assert i * n - start == (i - q) * n + 0;
      DivMod(i - q, 0, n);
    } else {
      assert i * n - start == (i - q - 1) * n + (n - r);
      DivMod(i - q - 1, n - r, n);
      assert i * n - (n - r) == (i - 1) * n + r;
      DivMod(i - 1, r, n);
    }
  }

  /** What the snake sort reads as the score of prompt `i`: its own score if the rank that has its first row starts at
   *  a first row, and otherwise the score of the prompt before, because that rank's windows straddle the prompts. */
  lemma SnakeSortSeesScores(scores: seq<real>, sizes: seq<nat>, n: nat, i: nat)
    requires n > 0 && Total(sizes) == |scores| * n && i < |scores|
    ensures 0 <= i * n < Total(sizes)
    ensures var joined := JoinedScores(RowScores(scores, n), sizes, n);
            |joined| % n == 0 && |joined| / n == |scores| &&
            (ChunkStart(sizes, i * n) % n != 0 ==> i > 0) &&
            SnakeSort.PromptScores(joined, n)[i] == scores[if ChunkStart(sizes, i * n) % n == 0 then i else i - 1]
  {
    InBlock(i, 0, |scores|, n);
    DivMod(|scores|, 0, n);
    var own := RowScores(scores, n);
    var start := ChunkStart(sizes, i * n);
    JoinedAt(own, sizes, n, i * n);
    SampledPrompt(i, start, n);
    var at := i * n - (i * n - start) % n;
    assert own[at] == scores[at / n];
  }

  /** Every rank that has a prompt's first row starts at a first row. */
  ghost predicate ChunksStartPrompts(count: nat, sizes: seq<nat>, n: nat)
    requires n > 0
  {
    forall i: nat :: i < count && i * n < Total(sizes) ==> ChunkStart(sizes, i * n) % n == 0
  }

  lemma AlignedScoresAreSeen(scores: seq<real>, sizes: seq<nat>, n: nat)
    requires n > 0 && Total(sizes) == |scores| * n && ChunksStartPrompts(|scores|, sizes, n)
    ensures SeesScores(scores, sizes, n)
  {
    DivMod(|scores|, 0, n);
    var seen := SnakeSort.PromptScores(JoinedScores(RowScores(scores, n), sizes, n), n);
    forall i | 0 <= i < |scores| ensures seen[i] == scores[i] {
      SnakeSortSeesScores(scores, sizes, n, i);
    }
    assert seen == scores;
  }

  lemma StraddledScoresAreNot(count: nat, sizes: seq<nat>, n: nat, i: nat)
    requires n > 0 && Total(sizes) == count * n && i < count && i * n < Total(sizes) && ChunkStart(sizes, i * n) % n != 0
    ensures !SeesScores(Different(count), sizes, n)
  {
    SnakeSortSeesScores(Different(count), sizes, n, i);
  }

  /** Scores no two of which are the same. */
  function Different(count: nat): (scores: seq<real>)
    ensures |scores| == count
    ensures forall i, j :: 0 <= i < j < count ==> scores[i] != scores[j]
  {
    seq(count, k => k as real)
  }

  /** So all prompts keep their scores, whatever these are, exactly when every rank that has a first row starts at one. */
  lemma AllScoresAreSeenIff(count: nat, sizes: seq<nat>, n: nat)
    requires n > 0 && Total(sizes) == count * n
    ensures (forall scores: seq<real> :: |scores| == count ==> SeesScores(scores, sizes, n)) <==> ChunksStartPrompts(count, sizes, n)
  {
    if ChunksStartPrompts(count, sizes, n) {
      forall scores: seq<real> | |scores| == count ensures SeesScores(scores, sizes, n) {
        AlignedScoresAreSeen(scores, sizes, n);
      }
    } else {
      var i: nat :| i < count && i * n < Total(sizes) && ChunkStart(sizes, i * n) % n != 0;
      StraddledScoresAreNot(count, sizes, n, i);
      assert |Different(count)| == count;
    }
  }

  ghost predicate SeesScores(scores: seq<real>, sizes: seq<nat>, n: nat) {
    n > 0 && Total(sizes) == |scores| * n &&
    (var joined := JoinedScores(RowScores(scores, n), sizes, n);
     |joined| % n == 0 && SnakeSort.PromptScores(joined, n) == scores)
  }

  // ----- the predictor order moves whole prompts -----

  lemma MiddleSlice<T>(before: seq<T>, middle: seq<T>, after: seq<T>, all: seq<T>, start: nat, n: nat)
    requires all == before + (middle + after) && start == |before| && n == |middle|
    ensures start + n <= |all| && all[start..start + n] == middle
  {
  }

  lemma GroupSlice(groups: seq<seq<Row>>, n: nat, k: nat)
    requires k < |groups| && forall b :: 0 <= b < |groups| ==> |groups[b]| == n
    ensures k * n + n <= |Flatten(groups)| == |groups| * n
    ensures Flatten(groups)[k * n..k * n + n] == groups[k]
  {
    var before, after := groups[..k], groups[k + 1..];
    assert groups == before + ([groups[k]] + after);
    FlatAround(before, groups[k], after);
    FlatLength(before, n);
    FlatLength(groups, n);
    MiddleSlice(Flatten(before), groups[k], Flatten(after), Flatten(groups), k * n, n);
  }

  lemma GatherSlice<T>(s: seq<T>, indices: seq<nat>, start: nat, n: nat)
    requires start + n <= |s| && |indices| == n && forall j :: 0 <= j < n ==> indices[j] == start + j
    ensures Gather(s, indices) == s[start..start + n]
  {
  }

  lemma GatherGroup(groups: seq<seq<Row>>, n: nat, k: nat)
    requires k < |groups| && forall b :: 0 <= b < |groups| ==> |groups[b]| == n
    ensures forall j :: 0 <= j < n ==> SnakeSort.Block(k, n)[j] < |Flatten(groups)|
    ensures Gather(Flatten(groups), SnakeSort.Block(k, n)) == groups[k]
  {
    GroupSlice(groups, n, k);
    GatherSlice(Flatten(groups), SnakeSort.Block(k, n), k * n, n);
  }

  /** Rows reordered by the samples of `order` are the prompts' groups in that order. */
  lemma {:induction false} ReorderKeepsGroups(groups: seq<seq<Row>>, order: seq<nat>, n: nat)
    requires n > 0 && forall b :: 0 <= b < |groups| ==> |groups[b]| == n
    requires forall i :: 0 <= i < |order| ==> order[i] < |groups|
    ensures SamplesInRange(order, n, |Flatten(groups)|)
    ensures Gather(Flatten(groups), SnakeSort.Expand(order, n)) == Flatten(Gather(groups, order))
  {
    if order == [] {
      assert Gather(groups, order) == [];
    } else {
      var last := |order| - 1;
      ReorderKeepsGroups(groups, order[..last], n);
      GatherGroup(groups, n, order[last]);
      GatherConcat(Flatten(groups), SnakeSort.Expand(order[..last], n), SnakeSort.Block(order[last], n));
      assert Gather(groups, order) == Gather(groups, order[..last]) + [groups[order[last]]];
      FlatAppend(Gather(groups, order[..last]), groups[order[last]]);
    }
  }

  ghost predicate SamplesInRange(order: seq<nat>, n: nat, size: nat) {
    var samples := SnakeSort.Expand(order, n);
    forall i :: 0 <= i < |samples| ==> samples[i] < size
  }

  lemma GatherConcat<T>(s: seq<T>, a: seq<nat>, b: seq<nat>)
    requires (forall i :: 0 <= i < |a| ==> a[i] < |s|) && (forall i :: 0 <= i < |b| ==> b[i] < |s|)
    ensures Gather(s, a + b) == Gather(s, a) + Gather(s, b)
  {
  }

  /** In the new order the batch still consists of whole groups of different prompts. */
  lemma ReorderedAreGroups(groups: seq<seq<Row>>, order: seq<nat>, n: nat)
    requires AreGroups(groups, n) && IsPermutation(order, |groups|)
    ensures AreGroups(Gather(groups, order), n)
  {
    var moved: seq<seq<Row>> := Gather(groups, order);
    forall k, l | 0 <= k < l < |moved| ensures moved[k][0].uid != moved[l][0].uid {
      assert order[k] != order[l];
      var a, b := if order[k] < order[l] then order[k] else order[l], if order[k] < order[l] then order[l] else order[k];
      assert groups[a][0].uid != groups[b][0].uid;
    }
  }

  // ----- restoring the balanced batch -----

  function UidColumn(rows: seq<Row>): (uids: seq<Uid>)
    ensures |uids| == |rows| && forall i :: 0 <= i < |rows| ==> uids[i] == rows[i].uid
  {
    seq(|rows|, i requires 0 <= i < |rows| => rows[i].uid)
  }

  /** Group `k` holds rows of uid `uids[k]` only. */
  ghost predicate Owned(groups: seq<seq<Row>>, uids: seq<Uid>) {
    |groups| == |uids| && Distinct(uids) &&
    forall k, j :: 0 <= k < |groups| && 0 <= j < |groups[k]| ==> groups[k][j].uid == uids[k]
  }

  /** A row can only be found in the group of its uid. */
  lemma {:induction false} CountInGroups(groups: seq<seq<Row>>, uids: seq<Uid>, row: Row)
    requires Owned(groups, uids)
    ensures forall k :: 0 <= k < |groups| && uids[k] == row.uid ==> multiset(Flatten(groups))[row] == multiset(groups[k])[row]
    ensures row.uid !in uids ==> multiset(Flatten(groups))[row] == 0
  {
    if groups != [] {
      var last := |groups| - 1;
      CountInGroups(groups[..last], uids[..last], row);
      assert uids == uids[..last] + [uids[last]];
      assert uids[last] != row.uid ==> row !in groups[last];
      if uids[last] == row.uid {
        assert row.uid !in uids[..last];
      }
    }
  }

  lemma SameGroups(a: seq<seq<Row>>, b: seq<seq<Row>>, uids: seq<Uid>, k: nat)
    requires Owned(a, uids) && Owned(b, uids) && multiset(Flatten(a)) == multiset(Flatten(b)) && k < |uids|
    ensures multiset(a[k]) == multiset(b[k])
  {
    forall row: Row ensures multiset(a[k])[row] == multiset(b[k])[row] {
      if row.uid == uids[k] {
        CountInGroups(a, uids, row);
        CountInGroups(b, uids, row);
      } else {
        assert row !in a[k] && row !in b[k];
      }
    }
  }

  function Cut(rows: seq<Row>, n: nat, count: nat): (groups: seq<seq<Row>>)
    requires count * n <= |rows|
    ensures |groups| == count
    ensures forall k :: 0 <= k < |groups| ==> |groups[k]| == n
  {
    if count == 0 then []
    else
      assert count * n == (count - 1) * n + n;
      Cut(rows, n, count - 1) + [rows[(count - 1) * n..(count - 1) * n + n]]
  }

  lemma {:induction false} CutAt(rows: seq<Row>, n: nat, count: nat, k: nat)
    requires count * n <= |rows| && k < count
    ensures k * n + n <= |rows| && Cut(rows, n, count)[k] == rows[k * n..k * n + n]
    decreases count
  {
    assert count * n == (count - 1) * n + n;
    if k < count - 1 {
      CutAt(rows, n, count - 1, k);
    }
  }

  lemma CutOneMore(rows: seq<Row>, n: nat, count: nat, start: nat)
    requires count > 0 && start == (count - 1) * n && start + n == count * n <= |rows|
    ensures Flatten(Cut(rows, n, count)) == Flatten(Cut(rows, n, count - 1)) + rows[start..start + n]
  {
    FlatAppend(Cut(rows, n, count - 1), rows[start..start + n]);
  }

  lemma TakeMore<T>(s: seq<T>, i: nat, j: nat)
    requires i <= j <= |s|
    ensures s[..j] == s[..i] + s[i..j]
  {
  }

  lemma {:induction false} FlatOfCut(rows: seq<Row>, n: nat, count: nat, end: nat)
    requires end == count * n <= |rows|
    ensures Flatten(Cut(rows, n, count)) == rows[..end]
    decreases count
  {
    if count > 0 {
      var start := (count - 1) * n;
      assert start + n == end;
      CutOneMore(rows, n, count, start);
      FlatOfCut(rows, n, count - 1, start);
      TakeMore(rows, start, end);
    }
  }

  lemma RowOfGroup(groups: seq<seq<Row>>, n: nat, k: nat, j: nat)
    requires k < |groups| && j < n && forall b :: 0 <= b < |groups| ==> |groups[b]| == n
    ensures 0 <= k * n + j < |Flatten(groups)| && Flatten(groups)[k * n + j] == groups[k][j]
  {
    GroupSlice(groups, n, k);
    assert Flatten(groups)[k * n..k * n + n][j] == groups[k][j];
  }

  lemma BlockRowUid(groups: seq<seq<Row>>, n: nat, restored: seq<Row>, k: nat, j: nat)
    requires k < |groups| && j < n && forall b :: 0 <= b < |groups| ==> |groups[b]| == n
    requires UidColumn(restored) == UidColumn(Flatten(groups)) && |groups| * n <= |restored|
    ensures Cut(restored, n, |groups|)[k][j].uid == groups[k][j].uid
  {
    CutAt(restored, n, |groups|, k);
    RowOfGroup(groups, n, k, j);
    var at := k * n + j;
    assert UidColumn(restored)[at] == UidColumn(Flatten(groups))[at];
  }

  /** Where the uids are back, the blocks belong to the prompts again. */
  lemma BlocksAreOwned(groups: seq<seq<Row>>, n: nat, restored: seq<Row>, uids: seq<Uid>)
    requires |uids| == |groups| && Distinct(uids) && forall b :: 0 <= b < |groups| ==> |groups[b]| == n
    requires forall b, j :: 0 <= b < |groups| && 0 <= j < n ==> groups[b][j].uid == uids[b]
    requires UidColumn(restored) == UidColumn(Flatten(groups)) && |groups| * n <= |restored|
    ensures Owned(Cut(restored, n, |groups|), uids)
  {
    var blocks: seq<seq<Row>> := Cut(restored, n, |groups|);
    forall b, j | 0 <= b < |blocks| && 0 <= j < |blocks[b]| ensures blocks[b][j].uid == uids[b] {
      BlockRowUid(groups, n, restored, b, j);
    }
  }

  lemma GroupsAreOwned(groups: seq<seq<Row>>, n: nat)
    requires AreGroups(groups, n)
    ensures Owned(groups, FirstUids(groups, n)) && forall b :: 0 <= b < |groups| ==> |groups[b]| == n
  {
    forall b | 0 <= b < |groups| ensures IsGroup(groups[b], n) {}
  }

  lemma GroupsLength(groups: seq<seq<Row>>, n: nat)
    requires AreGroups(groups, n)
    ensures |Flatten(groups)| == |groups| * n
  {
    forall b | 0 <= b < |groups| ensures IsGroup(groups[b], n) {}
    FlatLength(groups, n);
  }

  /** What restoring gives: block `k` holds, in some order, the rows of the group that was there before. */
  lemma RestoredBlock(groups: seq<seq<Row>>, n: nat, restored: seq<Row>, k: nat)
    requires AreGroups(groups, n) && k < |groups|
    requires multiset(restored) == multiset(Flatten(groups)) && UidColumn(restored) == UidColumn(Flatten(groups))
    ensures k * n + n <= |restored|
    ensures multiset(restored[k * n..k * n + n]) == multiset(groups[k])
  {
    GroupsLength(groups, n);
    assert |UidColumn(restored)| == |UidColumn(Flatten(groups))|;
    var size := |restored|;
    assert size == |groups| * n;
    GroupsAreOwned(groups, n);
    BlocksAreOwned(groups, n, restored, FirstUids(groups, n));
    FlatOfCut(restored, n, |groups|, size);
    assert restored[..size] == restored;
    CutAt(restored, n, |groups|, k);
    SameGroups(Cut(restored, n, |groups|), groups, FirstUids(groups, n), k);
  }

  lemma BalancedColumn(batch: seq<Row>, balance: seq<nat>)
    requires IsPermutation(balance, |batch|)
    ensures multiset(Gather(batch, balance)) == multiset(batch)
    ensures multiset(UidColumn(Gather(batch, balance))) == multiset(UidColumn(batch))
  {
    GatherKeepsMultiset(batch, balance);
    GatherKeepsMultiset(UidColumn(batch), balance);
    assert UidColumn(Gather(batch, balance)) == Gather(UidColumn(batch), balance);
  }

  lemma RestoredRows(batch: seq<Row>, balanced: seq<Row>, reverse: seq<nat>)
    requires Restores(UidColumn(batch), UidColumn(balanced), reverse) && |balanced| == |batch|
    ensures IsPermutation(reverse, |balanced|)
    ensures multiset(Gather(balanced, reverse)) == multiset(balanced)
    ensures UidColumn(Gather(balanced, reverse)) == UidColumn(batch)
  {
    RestoredColumn(UidColumn(batch), UidColumn(balanced), reverse);
    GatherKeepsMultiset(balanced, reverse);
    assert UidColumn(Gather(balanced, reverse)) == Gather(UidColumn(balanced), reverse);
  }

  /** Balance the batch, remember how to come back, and later come back. */
  method BalanceAndRestore(batch: seq<Row>, balance: seq<nat>) returns (balanced: seq<Row>, restored: ReverseIndex.Result<seq<Row>>)
    requires IsPermutation(balance, |batch|)
    ensures balanced == Gather(batch, balance)
    ensures restored.Ok?
    ensures UidColumn(restored.value) == UidColumn(batch)
    ensures multiset(restored.value) == multiset(batch)
  {
    var uidBeforeBalance := UidColumn(batch);
    balanced := Gather(batch, balance);
    BalancedColumn(batch, balance);
    var uidAfterBalance := UidColumn(balanced);
    assert uidBeforeBalance[..|uidAfterBalance|] == uidBeforeBalance;
    var reverse := BuildReverseIdx(uidBeforeBalance, uidAfterBalance);
    RestoredRows(batch, balanced, reverse.value);
    restored := Ok(Gather(balanced, reverse.value));
  }

  // ----- prompts and labels of the predictor update -----

  function MaxLength(rows: seq<Row>): (m: nat)
    requires rows != []
    ensures forall i :: 0 <= i < |rows| ==> rows[i].length <= m
    ensures exists i :: 0 <= i < |rows| && rows[i].length == m
  {
    var last := |rows| - 1;
    if last == 0 then rows[0].length
    else
      var m := MaxLength(rows[..last]);
      assert exists i :: 0 <= i < last && rows[..last][i].length == m;
      assert forall i :: 0 <= i < last ==> rows[..last][i] == rows[i];
      if rows[last].length > m then rows[last].length else m
  }

  lemma MaxOfMultiset(a: seq<Row>, b: seq<Row>)
    requires a != [] && b != [] && multiset(a) == multiset(b)
    ensures MaxLength(a) == MaxLength(b)
  {
    var i :| 0 <= i < |a| && a[i].length == MaxLength(a);
    var j :| 0 <= j < |b| && b[j].length == MaxLength(b);
    assert a[i] in multiset(b) && b[j] in multiset(a);
    assert a[i] in b && b[j] in a;
  }

  /** Lengths are put into classes a fortieth of the response length wide. */
  function LabelWidth(responseLength: nat): (w: nat)
    ensures w >= 1
  {
    if responseLength / 40 > 1 then responseLength / 40 else 1
  }

  function BlockOf(rows: seq<Row>, n: nat, k: nat): (block: seq<Row>)
    requires n > 0 && k < |rows| / n
    ensures |block| == n
  {
    ExampleFits(|rows|, n, k);
    rows[k * n..k * n + n]
  }

  lemma ExampleFits(size: nat, n: nat, k: nat)
    requires n > 0 && k < size / n
    ensures k * n + n <= size
  {
    BlockStart(k + 1, size / n, n);
    assert (k + 1) * n == k * n + n;
    assert size == (size / n) * n + size % n;
  }

  /** One training example per block of `n` rows: the prompt of its first row and its longest response. */
  function Examples(rows: seq<Row>, n: nat, responseLength: nat): (examples: seq<(nat, nat)>)
    requires n > 0 && |rows| % n == 0
    ensures |examples| == |rows| / n
  {
    seq(|rows| / n, k requires 0 <= k < |rows| / n => ExampleOf(BlockOf(rows, n, k), responseLength))
  }

  /** The example a block is for. */
  function ExampleOf(group: seq<Row>, responseLength: nat): (nat, nat)
    requires group != []
  {
    (group[0].prompt, MaxLength(group) / LabelWidth(responseLength))
  }

  lemma JoinedBlock(a: seq<Row>, b: seq<Row>, n: nat, k: nat)
    requires n > 0 && |a| == (|a| / n) * n && k < |a + b| / n
    ensures k < |a| / n ==> BlockOf(a + b, n, k) == BlockOf(a, n, k)
    ensures k >= |a| / n ==> k - |a| / n < |b| / n && BlockOf(a + b, n, k) == BlockOf(b, n, k - |a| / n)
  {
    var p := |a| / n;
    ExampleFits(|a + b|, n, k);
    if k < p {
      ExampleFits(|a|, n, k);
    } else {
      BlockStart(p, k, n);
      FullBlock(|b|, n, k - p);
    }
  }

  lemma FullBlock(size: nat, n: nat, k: nat)
    requires n > 0 && k * n + n <= size
    ensures k < size / n
  {
    assert size == (size / n) * n + size % n;
    if size / n <= k {
      BlockStart(size / n, k, n);
    }
  }

  lemma JoinedSize(a: nat, b: nat, n: nat)
    requires n > 0 && a % n == 0 && b % n == 0
    ensures (a + b) % n == 0 && (a + b) / n == a / n + b / n
  {
    var p, q := a / n, b / n;
    assert a == p * n && b == q * n;
    assert (p + q) * n == p * n + q * n;
    DivMod(p + q, 0, n);
  }

  /** Data-parallel ranks that get whole blocks compute together what one rank would. */
  lemma RanksAgree(a: seq<Row>, b: seq<Row>, n: nat, responseLength: nat)
    requires n > 0 && |a| % n == 0 && |b| % n == 0
    ensures |a + b| % n == 0
    ensures Examples(a + b, n, responseLength) == Examples(a, n, responseLength) + Examples(b, n, responseLength)
  {
    JoinedSize(|a|, |b|, n);
    var both, parts := Examples(a + b, n, responseLength), Examples(a, n, responseLength) + Examples(b, n, responseLength);
    forall k | 0 <= k < |a + b| / n ensures both[k] == parts[k] {
      JoinedBlock(a, b, n, k);
    }
  }

  lemma ExampleOfPermuted(block: seq<Row>, group: seq<Row>, n: nat, responseLength: nat)
    requires IsGroup(group, n) && |block| == n && multiset(block) == multiset(group)
    ensures ExampleOf(block, responseLength) == ExampleOf(group, responseLength)
  {
    MaxOfMultiset(block, group);
    assert block[0] in multiset(group);
    assert block[0] in group;
  }

  ghost predicate NonEmpty(groups: seq<seq<Row>>) {
    forall k :: 0 <= k < |groups| ==> groups[k] != []
  }

  /** One example per group. */
  function GroupExamples(groups: seq<seq<Row>>, responseLength: nat): (examples: seq<(nat, nat)>)
    requires NonEmpty(groups)
    ensures |examples| == |groups|
  {
    seq(|groups|, k requires 0 <= k < |groups| => ExampleOf(groups[k], responseLength))
  }

  lemma GroupsAreNonEmpty(groups: seq<seq<Row>>, n: nat)
    requires AreGroups(groups, n)
    ensures NonEmpty(groups)
  {
    forall k | 0 <= k < |groups| ensures groups[k] != [] {
      assert IsGroup(groups[k], n);
    }
  }

  lemma LabelFollowsPrompt(groups: seq<seq<Row>>, n: nat, responseLength: nat, restored: seq<Row>, k: nat)
    requires AreGroups(groups, n) && k < |groups| == |restored| / n
    requires multiset(restored) == multiset(Flatten(groups)) && UidColumn(restored) == UidColumn(Flatten(groups))
    ensures IsGroup(groups[k], n)
    ensures ExampleOf(BlockOf(restored, n, k), responseLength) == ExampleOf(groups[k], responseLength)
  {
    RestoredBlock(groups, n, restored, k);
    ExampleOfPermuted(BlockOf(restored, n, k), groups[k], n, responseLength);
  }

  lemma SameExamples(restored: seq<Row>, groups: seq<seq<Row>>, n: nat, responseLength: nat)
    requires n > 0 && |restored| % n == 0 && |restored| / n == |groups| && NonEmpty(groups)
    requires forall k :: 0 <= k < |groups| ==> ExampleOf(BlockOf(restored, n, k), responseLength) == ExampleOf(groups[k], responseLength)
    ensures Examples(restored, n, responseLength) == GroupExamples(groups, responseLength)
  {
  }

  lemma SameSize(a: seq<Row>, b: seq<Row>)
    requires UidColumn(a) == UidColumn(b)
    ensures |a| == |b|
  {
    assert |UidColumn(a)| == |UidColumn(b)|;
  }

  lemma WholeBlocks(size: nat, count: nat, n: nat)
    requires n > 0 && size == count * n
    ensures size % n == 0 && size / n == count
  {
    DivMod(count, 0, n);
  }

  lemma RestoredSize(groups: seq<seq<Row>>, n: nat, restored: seq<Row>)
    requires AreGroups(groups, n) && UidColumn(restored) == UidColumn(Flatten(groups))
    ensures |restored| % n == 0 && |restored| / n == |groups|
  {
    GroupsLength(groups, n);
    SameSize(restored, Flatten(groups));
    WholeBlocks(|restored|, |groups|, n);
  }

  /** The example of a group: its prompt, and the class of its longest response, classes being a fortieth of the
   *  response length wide, or 1. */
  ghost predicate IsExample(example: (nat, nat), group: seq<Row>, responseLength: nat) {
    (forall j :: 0 <= j < |group| ==> group[j].prompt == example.0) &&
    exists i :: 0 <= i < |group| && IsLongest(group, i) &&
      example.1 == group[i].length / (if responseLength / 40 < 1 then 1 else responseLength / 40)
  }

  ghost predicate IsLongest(group: seq<Row>, i: nat)
    requires i < |group|
  {
    forall j :: 0 <= j < |group| ==> group[j].length <= group[i].length
  }

  lemma GroupHasItsExample(group: seq<Row>, n: nat, responseLength: nat)
    requires IsGroup(group, n)
    ensures IsExample(ExampleOf(group, responseLength), group, responseLength)
  {
    var m := MaxLength(group);
    var i :| 0 <= i < |group| && group[i].length == m;
    forall j | 0 <= j < |group| ensures group[j].length <= m {}
    assert IsLongest(group, i);
  }

  lemma GroupsHaveTheirExamples(groups: seq<seq<Row>>, n: nat, responseLength: nat)
    requires AreGroups(groups, n) && NonEmpty(groups)
    ensures forall k :: 0 <= k < |groups| ==> IsExample(GroupExamples(groups, responseLength)[k], groups[k], responseLength)
  {
    forall k | 0 <= k < |groups| ensures IsExample(GroupExamples(groups, responseLength)[k], groups[k], responseLength) {
      GroupHasItsExample(groups[k], n, responseLength);
    }
  }

  /** Main result: after any balancing and the restore, block `k` trains the predictor on the prompt of the
   *  `k`-th group, with that prompt's longest response as the label. */
  lemma LabelsFollowPrompts(groups: seq<seq<Row>>, n: nat, responseLength: nat, restored: seq<Row>)
    requires AreGroups(groups, n)
    requires multiset(restored) == multiset(Flatten(groups)) && UidColumn(restored) == UidColumn(Flatten(groups))
    ensures |restored| % n == 0 && NonEmpty(groups)
    ensures Examples(restored, n, responseLength) == GroupExamples(groups, responseLength)
    ensures forall k :: 0 <= k < |groups| ==> IsExample(Examples(restored, n, responseLength)[k], groups[k], responseLength)
  {
    RestoredSize(groups, n, restored);
    GroupsAreNonEmpty(groups, n);
    forall k | 0 <= k < |groups|
      ensures ExampleOf(BlockOf(restored, n, k), responseLength) == ExampleOf(groups[k], responseLength)
    {
      LabelFollowsPrompt(groups, n, responseLength, restored, k);
    }
    SameExamples(restored, groups, n, responseLength);
    GroupsHaveTheirExamples(groups, n, responseLength);
  }

  // ----- several generations -----

  /** A generated batch: whole groups, and the order in which the predictor packs them. */
  datatype Generation = Generation(groups: seq<seq<Row>>, order: seq<nat>)

  /** All groups that were generated, and those that survive the filter, in packing order. */
  function AllGroups(gens: seq<Generation>): seq<seq<Row>> {
    if gens == [] then [] else AllGroups(gens[..|gens| - 1]) + gens[|gens| - 1].groups
  }

  ghost predicate Ordered(g: Generation) {
    IsPermutation(g.order, |g.groups|)
  }

  ghost predicate AllOrdered(gens: seq<Generation>) {
    forall i :: 0 <= i < |gens| ==> Ordered(gens[i])
  }

  ghost function KeptGroups(gens: seq<Generation>): seq<seq<Row>>
    requires AllOrdered(gens)
  {
    if gens == [] then []
    else
      var g := gens[|gens| - 1];
      assert Ordered(g);
      KeptGroups(gens[..|gens| - 1]) + KeepGroups(Gather(g.groups, g.order))
  }

  /** The rows of a generation in packing order. */
  ghost predicate IsPacked(g: Generation, n: nat, rows: seq<Row>) {
    SamplesInRange(g.order, n, |Flatten(g.groups)|) && rows == Gather(Flatten(g.groups), SnakeSort.Expand(g.order, n))
  }

  /** The batch that the loop accumulates: each generation packed, filtered, and put behind the rows before. */
  ghost predicate IsAccumulated(gens: seq<Generation>, n: nat, batch: seq<Row>)
    decreases |gens|
  {
    if gens == [] then batch == []
    else
      exists before, rows ::
        IsAccumulated(gens[..|gens| - 1], n, before) && IsPacked(gens[|gens| - 1], n, rows) &&
        batch == before + KeepRows(rows, rows)
  }

  lemma GroupsApart(a: seq<seq<Row>>, b: seq<seq<Row>>, n: nat)
    requires AreGroups(a + b, n)
    ensures AreGroups(a, n) && AreGroups(b, n)
    ensures forall k, l :: 0 <= k < |a| && 0 <= l < |b| ==> |a[k]| > 0 && |b[l]| > 0 && a[k][0].uid != b[l][0].uid
  {
    forall k | 0 <= k < |a| ensures IsGroup(a[k], n) { assert (a + b)[k] == a[k]; }
    forall l | 0 <= l < |b| ensures IsGroup(b[l], n) { assert (a + b)[|a| + l] == b[l]; }
    forall k, l | 0 <= k < l < |a| ensures a[k][0].uid != a[l][0].uid {
      assert (a + b)[k] == a[k] && (a + b)[l] == a[l];
    }
    forall k, l | 0 <= k < l < |b| ensures b[k][0].uid != b[l][0].uid {
      assert (a + b)[|a| + k] == b[k] && (a + b)[|a| + l] == b[l];
    }
    forall k, l | 0 <= k < |a| && 0 <= l < |b| ensures a[k][0].uid != b[l][0].uid {
      assert (a + b)[k] == a[k] && (a + b)[|a| + l] == b[l];
    }
  }

  ghost predicate ComesFrom(part: seq<seq<Row>>, whole: seq<seq<Row>>) {
    forall k :: 0 <= k < |part| ==> part[k] in whole
  }

  /** Parts of two batches without a common uid. */
  lemma JoinedGroups(a: seq<seq<Row>>, b: seq<seq<Row>>, wholeA: seq<seq<Row>>, wholeB: seq<seq<Row>>, n: nat)
    requires AreGroups(wholeA + wholeB, n) && AreGroups(a, n) && AreGroups(b, n)
    requires ComesFrom(a, wholeA) && ComesFrom(b, wholeB)
    ensures AreGroups(a + b, n) && ComesFrom(a + b, wholeA + wholeB)
  {
    GroupsApart(wholeA, wholeB, n);
    forall k, l | 0 <= k < |a| && 0 <= l < |b| ensures a[k][0].uid != b[l][0].uid {
      var i :| 0 <= i < |wholeA| && wholeA[i] == a[k];
      var j :| 0 <= j < |wholeB| && wholeB[j] == b[l];
    }
    assert forall k :: 0 <= k < |a + b| ==> (a + b)[k] == if k < |a| then a[k] else b[k - |a|];
  }

  lemma KeptComeFrom(moved: seq<seq<Row>>, g: Generation, n: nat)
    requires Ordered(g) && moved == Gather(g.groups, g.order) && AreGroups(moved, n)
    ensures AreGroups(KeepGroups(moved), n) && ComesFrom(KeepGroups(moved), g.groups)
  {
    KeepGroupsAre(moved, n);
    forall k | 0 <= k < |KeepGroups(moved)| ensures KeepGroups(moved)[k] in g.groups {
      var i :| 0 <= i < |moved| && moved[i] == KeepGroups(moved)[k];
      assert moved[i] == g.groups[g.order[i]];
    }
  }

  lemma GenerationKeeps(g: Generation, n: nat, rows: seq<Row>)
    requires AreGroups(g.groups, n) && Ordered(g)
    ensures AreGroups(KeepGroups(Gather(g.groups, g.order)), n) && ComesFrom(KeepGroups(Gather(g.groups, g.order)), g.groups)
    ensures IsPacked(g, n, rows) ==> KeepRows(rows, rows) == Flatten(KeepGroups(Gather(g.groups, g.order)))
  {
    var moved := Gather(g.groups, g.order);
    GroupsAreOwned(g.groups, n);
    ReorderKeepsGroups(g.groups, g.order, n);
    ReorderedAreGroups(g.groups, g.order, n);
    FilterOnGroups(moved, n);
    KeptComeFrom(moved, g, n);
  }

  lemma LastGeneration(gens: seq<Generation>)
    requires gens != [] && AllOrdered(gens)
    ensures AllOrdered(gens[..|gens| - 1]) && Ordered(gens[|gens| - 1])
    ensures KeptGroups(gens) ==
            KeptGroups(gens[..|gens| - 1]) + KeepGroups(Gather(gens[|gens| - 1].groups, gens[|gens| - 1].order))
  {
    assert Ordered(gens[|gens| - 1]);
  }

  /** Over all generations the batch holds whole groups of different prompts: those that survive, in packing order. */
  lemma {:induction false} AccumulatedAre(gens: seq<Generation>, n: nat, batch: seq<Row>)
    requires AllOrdered(gens) && AreGroups(AllGroups(gens), n) && IsAccumulated(gens, n, batch)
    ensures AreGroups(KeptGroups(gens), n) && ComesFrom(KeptGroups(gens), AllGroups(gens))
    ensures batch == Flatten(KeptGroups(gens))
    decreases |gens|
  {
    if gens != [] {
      var init, g := gens[..|gens| - 1], gens[|gens| - 1];
      var before, rows :| IsAccumulated(init, n, before) && IsPacked(g, n, rows) && batch == before + KeepRows(rows, rows);
      LastGeneration(gens);
      GroupsApart(AllGroups(init), g.groups, n);
      AccumulatedAre(init, n, before);
      GenerationKeeps(g, n, rows);
      JoinedGroups(KeptGroups(init), KeepGroups(Gather(g.groups, g.order)), AllGroups(init), g.groups, n);
      FlattenConcat(KeptGroups(init), KeepGroups(Gather(g.groups, g.order)));
    }
  }

  lemma CutFits(m: nat, count: nat, n: nat)
    requires n > 0 && m * n <= count * n
    ensures m <= count
  {
    if m > count { InBlock(count, 0, m, n); }
  }

  lemma FirstGroups(groups: seq<seq<Row>>, n: nat, m: nat)
    requires AreGroups(groups, n) && m <= |groups|
    ensures AreGroups(groups[..m], n)
  {
  }

  /** Main result, from the snake orders to the update: whatever the generations that filled the batch, each packed in
   *  its own order, and whatever the balancing, the predictor is trained on the first `m` surviving prompts, each
   *  with its own longest response as the label. */
  lemma PredictorSeesItsPrompts(gens: seq<Generation>, n: nat, batch: seq<Row>, m: nat, balance: seq<nat>,
                                reverse: seq<nat>, responseLength: nat)
    requires n > 0 && AllOrdered(gens) && AreGroups(AllGroups(gens), n) && IsAccumulated(gens, n, batch)
    requires 0 <= m * n <= |batch| && IsPermutation(balance, m * n)
    requires Restores(UidColumn(batch[..m * n]), UidColumn(Gather(batch[..m * n], balance)), reverse)
    ensures IsPermutation(reverse, m * n) && m <= |KeptGroups(gens)| && NonEmpty(KeptGroups(gens)[..m])
    ensures var restored := Gather(Gather(batch[..m * n], balance), reverse);
            |restored| % n == 0 && |Examples(restored, n, responseLength)| == m &&
            forall k :: 0 <= k < m ==> IsExample(Examples(restored, n, responseLength)[k], KeptGroups(gens)[k], responseLength)
  {
    AccumulatedAre(gens, n, batch);
    var kept := KeptGroups(gens);
    GroupsLength(kept, n);
    CutFits(m, |kept|, n);
    GroupsAreOwned(kept, n);
    CutAtGroups(kept, n, m);
    FirstGroups(kept, n, m);
    var cut := batch[..m * n];
    BalancedColumn(cut, balance);
    RestoredRows(cut, Gather(cut, balance), reverse);
    LabelsFollowPrompts(kept[..m], n, responseLength, Gather(Gather(cut, balance), reverse));
  }
}

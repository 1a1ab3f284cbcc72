/** Undoing a reordering from a column of repeated uids: the k-th row of a uid afterwards stands for the
 *  k-th row of that uid before. */
module ReverseIndex {
  import opened Groups
  import opened Sequences
  import opened Wrappers

  datatype Error = MissingKey | IndexOutOfRange
  type Result<T> = Wrappers.Result<T, Error>

  /** A row is found again by its uid and how many rows of that uid came before it. */
  datatype Key = Key(uid: Uid, occurrence: nat)

  function KeyOf(column: seq<Uid>, i: nat): Key
    requires i < |column|
  {
    Key(column[i], multiset(column[..i])[column[i]])
  }

  // ----- keys name rows -----

  lemma CountExtend(column: seq<Uid>, i: nat, uid: Uid)
    requires i < |column|
    ensures multiset(column[..i + 1])[uid] == multiset(column[..i])[uid] + if column[i] == uid then 1 else 0
  {
    assert column[..i + 1] == column[..i] + [column[i]];
  }

  lemma {:induction false} CountGrows(column: seq<Uid>, i: nat, j: nat, uid: Uid)
    requires i <= j <= |column|
    ensures multiset(column[..i])[uid] <= multiset(column[..j])[uid]
    decreases j
  {
    if i < j {
      CountGrows(column, i, j - 1, uid);
      CountExtend(column, j - 1, uid);
    }
  }

  lemma KeysDiffer(column: seq<Uid>, i: nat, j: nat)
    requires i < j < |column|
    ensures KeyOf(column, i) != KeyOf(column, j)
  {
    CountExtend(column, i, column[i]);
    CountGrows(column, i + 1, j, column[i]);
  }

  lemma KeysAreUnique(column: seq<Uid>, i: nat, j: nat)
    requires i < |column| && j < |column| && KeyOf(column, i) == KeyOf(column, j)
    ensures i == j
  {
    if i < j { KeysDiffer(column, i, j); }
    if j < i { KeysDiffer(column, j, i); }
  }

  lemma KeyBound(column: seq<Uid>, i: nat, m: nat)
    requires i < m <= |column|
    ensures KeyOf(column, i).occurrence < multiset(column[..m])[column[i]]
  {
    CountExtend(column, i, column[i]);
    CountGrows(column, i + 1, m, column[i]);
  }

  lemma {:induction false} KeyExists(column: seq<Uid>, m: nat, key: Key) returns (i: nat)
    requires m <= |column| && key.occurrence < multiset(column[..m])[key.uid]
    ensures i < m && KeyOf(column, i) == key
  {
    CountExtend(column, m - 1, key.uid);
    if key.occurrence < multiset(column[..m - 1])[key.uid] {
      i := KeyExists(column, m - 1, key);
    } else {
      i := m - 1;
    }
  }

  // ----- the positions found for the reordered rows -----

  ghost predicate Located(before: seq<Uid>, after: seq<Uid>, positions: seq<nat>) {
    |positions| == |after| &&
    forall j :: 0 <= j < |after| ==> positions[j] < |before| && KeyOf(before, positions[j]) == KeyOf(after, j)
  }

  lemma LocatedIsDistinct(before: seq<Uid>, after: seq<Uid>, positions: seq<nat>)
    requires Located(before, after, positions)
    ensures Distinct(positions)
  {
    forall i, j | 0 <= i < j < |positions| ensures positions[i] != positions[j] {
      KeysDiffer(after, i, j);
    }
  }

  lemma LocatedMeansContained(before: seq<Uid>, after: seq<Uid>, positions: seq<nat>)
    requires Located(before, after, positions)
    ensures multiset(after) <= multiset(before)
  {
    assert before[..|before|] == before && after[..|after|] == after;
    forall uid ensures multiset(after)[uid] <= multiset(before)[uid] {
      if multiset(after)[uid] > multiset(before)[uid] {
        var j := KeyExists(after, |after|, Key(uid, multiset(after)[uid] - 1));
        KeyBound(before, positions[j], |before|);
      }
    }
  }

  lemma MissingMeansNotContained(before: seq<Uid>, after: seq<Uid>, j: nat)
    requires j < |after| && forall i :: 0 <= i < |before| ==> KeyOf(before, i) != KeyOf(after, j)
    ensures !(multiset(after) <= multiset(before))
  {
    assert before[..|before|] == before && after[..|after|] == after;
    var key := KeyOf(after, j);
    KeyBound(after, j, |after|);
    if key.occurrence < multiset(before)[key.uid] {
      var i := KeyExists(before, |before|, key);
    }
  }

  ghost predicate Fits(positions: seq<nat>) {
    forall j :: 0 <= j < |positions| ==> positions[j] < |positions|
  }

  /** The positions fit into a result as long as `after` when `after` permutes a prefix of `before`. */
  lemma FitsWhenPrefix(before: seq<Uid>, after: seq<Uid>, positions: seq<nat>)
    requires Located(before, after, positions)
    requires |after| <= |before| && multiset(after) == multiset(before[..|after|])
    ensures Fits(positions)
  {
    var m := |after|;
    assert after[..m] == after;
    forall j | 0 <= j < m ensures positions[j] < m {
      KeyBound(after, j, m);
      var i := KeyExists(before, m, KeyOf(after, j));
      KeysAreUnique(before, i, positions[j]);
    }
  }

  lemma PrefixWhenFits(before: seq<Uid>, after: seq<Uid>, positions: seq<nat>)
    requires Located(before, after, positions) && Fits(positions)
    ensures |after| <= |before| && multiset(after) == multiset(before[..|after|])
  {
    var m := |after|;
    LocatedIsDistinct(before, after, positions);
    if m > 0 {
      PermutationHits(positions, m, m - 1);
    }
    GatherKeepsMultiset(before[..m], positions);
    forall j | 0 <= j < m ensures Gather(before[..m], positions)[j] == after[j] {
      assert KeyOf(before, positions[j]).uid == after[j];
    }
    assert Gather(before[..m], positions) == after;
  }

  // ----- the algorithm -----

  method IndexSlots(column: seq<Uid>) returns (slots: map<Key, nat>)
    ensures forall i :: 0 <= i < |column| ==> KeyOf(column, i) in slots
    ensures forall key :: key in slots ==> slots[key] < |column| && KeyOf(column, slots[key]) == key
  {
    slots := map[];
    var counts: map<Uid, nat> := map[];
    for i := 0 to |column|
      invariant forall uid :: multiset(column[..i])[uid] == if uid in counts then counts[uid] else 0
      invariant forall k :: 0 <= k < i ==> KeyOf(column, k) in slots
      invariant forall key :: key in slots ==> slots[key] < i && KeyOf(column, slots[key]) == key
    {
      var uid := column[i];
      var count := if uid in counts then counts[uid] else 0;
      slots := slots[Key(uid, count) := i];
      counts := counts[uid := count + 1];
      forall u ensures multiset(column[..i + 1])[u] == if u in counts then counts[u] else 0 {
        CountExtend(column, i, u);
      }
    }
  }

  method LocateRows(ghost before: seq<Uid>, slots: map<Key, nat>, after: seq<Uid>) returns (r: Result<seq<nat>>)
    requires forall i :: 0 <= i < |before| ==> KeyOf(before, i) in slots
    requires forall key :: key in slots ==> slots[key] < |before| && KeyOf(before, slots[key]) == key
    ensures r.Ok? ==> Located(before, after, r.value)
    ensures r.Err? ==> r.error == MissingKey && !(multiset(after) <= multiset(before))
  {
    var counts: map<Uid, nat> := map[];
    var positions: seq<nat> := [];
    for j := 0 to |after|
      invariant forall uid :: multiset(after[..j])[uid] == if uid in counts then counts[uid] else 0
      invariant |positions| == j
      invariant forall k :: 0 <= k < j ==> positions[k] < |before| && KeyOf(before, positions[k]) == KeyOf(after, k)
    {
      var uid := after[j];
      var count := if uid in counts then counts[uid] else 0;
      var key := Key(uid, count);
      assert key == KeyOf(after, j);
      if key !in slots {
        MissingMeansNotContained(before, after, j);
        return Err(MissingKey);
      }
      positions := positions + [slots[key]];
      counts := counts[uid := count + 1];
      forall u ensures multiset(after[..j + 1])[u] == if u in counts then counts[u] else 0 {
        CountExtend(after, j, u);
      }
    }
    r := Ok(positions);
  }

  /** Scatter of 0, 1, 2, ... to `positions`, in a tensor whose entries start out arbitrary. */
  method Invert(positions: seq<nat>) returns (r: Result<seq<nat>>)
    requires Distinct(positions)
    ensures r.Ok? <==> Fits(positions)
    ensures r.Err? ==> r.error == IndexOutOfRange
    ensures r.Ok? ==> |r.value| == |positions| && forall j :: 0 <= j < |positions| ==> r.value[positions[j]] == j
  {
    var reverse := new nat[|positions|];
    for j := 0 to |positions|
      invariant forall k :: 0 <= k < j ==> positions[k] < |positions| && reverse[positions[k]] == k
    {
      if positions[j] >= |positions| {
        return Err(IndexOutOfRange);
      }
      reverse[positions[j]] := j;
    }
    r := Ok(reverse[..]);
  }

  /** `reverse` takes the rows of `after` back: entry `i` is where the row with the key of row `i` of `before` went. */
  ghost predicate Restores(before: seq<Uid>, after: seq<Uid>, reverse: seq<nat>) {
    |reverse| == |after| <= |before| &&
    forall i :: 0 <= i < |reverse| ==> reverse[i] < |after| && KeyOf(after, reverse[i]) == KeyOf(before, i)
  }

  lemma InverseRestores(before: seq<Uid>, after: seq<Uid>, positions: seq<nat>, reverse: seq<nat>)
    requires Located(before, after, positions) && Fits(positions) && |reverse| == |after| <= |before|
    requires forall j :: 0 <= j < |positions| ==> reverse[positions[j]] == j
    ensures Restores(before, after, reverse)
  {
    LocatedIsDistinct(before, after, positions);
    forall i | 0 <= i < |reverse| ensures reverse[i] < |after| && KeyOf(after, reverse[i]) == KeyOf(before, i) {
      PermutationHits(positions, |positions|, i);
      var j :| 0 <= j < |positions| && positions[j] == i;
      assert reverse[i] == j;
    }
  }

  /** The reverse index exists exactly when the new column is a permutation of a prefix of the old one. */
  method BuildReverseIdx(before: seq<Uid>, after: seq<Uid>) returns (r: Result<seq<nat>>)
    ensures r == Err(MissingKey) <==> !(multiset(after) <= multiset(before))
    ensures r.Ok? <==> |after| <= |before| && multiset(after) == multiset(before[..|after|])
    ensures r.Ok? ==> Restores(before, after, r.value)
  {
    var slots := IndexSlots(before);
    var located := LocateRows(before, slots, after);
    if located.Err? {
      PrefixIsContained(before, |after|);
      return Err(located.error);
    }
    var positions := located.value;
    LocatedMeansContained(before, after, positions);
    LocatedIsDistinct(before, after, positions);
    r := Invert(positions);
    if r.Ok? {
      PrefixWhenFits(before, after, positions);
      InverseRestores(before, after, positions, r.value);
    } else if |after| <= |before| && multiset(after) == multiset(before[..|after|]) {
      FitsWhenPrefix(before, after, positions);
    }
  }

  lemma PrefixIsContained(column: seq<Uid>, m: nat)
    ensures m <= |column| ==> multiset(column[..m]) <= multiset(column)
  {
    if m <= |column| {
      assert column == column[..m] + column[m..];
    }
  }

  /** What a reverse index does: it is a permutation and puts the column back. */
  lemma RestoredColumn(before: seq<Uid>, after: seq<Uid>, reverse: seq<nat>)
    requires Restores(before, after, reverse) && |after| == |before|
    ensures IsPermutation(reverse, |after|)
    ensures Gather(after, reverse) == before
  {
    forall i, j | 0 <= i < j < |reverse| ensures reverse[i] != reverse[j] {
      KeysDiffer(before, i, j);
    }
    forall i | 0 <= i < |before| ensures Gather(after, reverse)[i] == before[i] {
      assert KeyOf(after, reverse[i]).uid == before[i];
    }
  }

  /** There is only one: equal rows of a uid come back in the order they have afterwards. */
  lemma ReverseIsUnique(before: seq<Uid>, after: seq<Uid>, a: seq<nat>, b: seq<nat>)
    requires Restores(before, after, a) && Restores(before, after, b)
    ensures a == b
  {
    forall i | 0 <= i < |a| ensures a[i] == b[i] {
      KeysAreUnique(after, a[i], b[i]);
    }
  }
}

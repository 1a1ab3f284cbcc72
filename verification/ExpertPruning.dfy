/** Pruning the routed experts of a mixture-of-experts checkpoint. */
module ExpertPruning {
  import opened Sequences
  import opened Wrappers

  datatype Error = WrongCount | ExpertOutOfRange | DivisionByZero | UnknownLayer | NoExpertDimension
  type Result<T> = Wrappers.Result<T, Error>

  /** The names of the weights the pruning distinguishes; everything else is `Other`. */
  datatype Family = Ffn | Mlp
  datatype Part = First | Second | Third
  datatype Key =
    | Expert(prefix: bool, layer: nat, family: Family, expert: nat, part: Part)
    | Gate(prefix: bool, layer: nat, family: Family, bias: bool)
    | Other(name: string)

  datatype Tensor = Vector(values: seq<real>) | Matrix(rows: seq<seq<real>>, columns: nat)

  predicate Skipped(layer: nat) {
    layer <= 2
  }

  // ----- the experts to keep -----

  ghost predicate Ascending(keep: seq<nat>) {
    forall i, j :: 0 <= i < j < |keep| ==> keep[i] < keep[j]
  }

  ghost predicate Below(keep: seq<nat>, size: nat) {
    forall i :: 0 <= i < |keep| ==> keep[i] < size
  }

  function Firsts(n: nat): (r: seq<nat>)
    ensures |r| == n && forall i :: 0 <= i < n ==> r[i] == i
  {
    seq(n, i requires 0 <= i => i)
  }

  /** The checks on a layer that comes with its own list. */
  ghost predicate ListIsGood(experts: seq<int>, oldN: nat, target: nat) {
    |set e | e in experts| == target && forall e :: e in experts ==> 0 <= e < oldN
  }

  ghost predicate KeepMeans(keep: seq<nat>, layer: nat, oldN: nat, keepDict: map<nat, seq<int>>, target: nat) {
    if Skipped(layer) then keep == Firsts(oldN)
    else if layer in keepDict then
      Ascending(keep) && Below(keep, oldN) && |keep| == target && forall e: int :: e in keepDict[layer] <==> e in keep
    else keep == Firsts(target)
  }

  ghost predicate IsSortedSet(sorted: seq<int>, experts: seq<int>) {
    (forall i, j :: 0 <= i < j < |sorted| ==> sorted[i] < sorted[j]) && forall e :: e in sorted <==> e in experts
  }

  lemma InsertedElements(before: seq<int>, e: int, after: seq<int>, sorted: seq<int>)
    requires sorted == before + after
    ensures forall x :: x in before + [e] + after <==> x in sorted || x == e
  {
  }

  lemma InsertedOrder(before: seq<int>, e: int, after: seq<int>, sorted: seq<int>)
    requires sorted == before + after && forall i, j :: 0 <= i < j < |sorted| ==> sorted[i] < sorted[j]
    requires (forall a :: 0 <= a < |before| ==> before[a] < e) && forall a :: 0 <= a < |after| ==> e < after[a]
    ensures var longer := before + [e] + after; forall i, j :: 0 <= i < j < |longer| ==> longer[i] < longer[j]
  {
    var longer, k := before + [e] + after, |before|;
    forall i, j | 0 <= i < j < |longer| ensures longer[i] < longer[j] {
      if i != k && j != k {
        assert longer[i] == sorted[if i < k then i else i - 1] && longer[j] == sorted[if j < k then j else j - 1];
      }
    }
  }

  lemma InsertedAt(sorted: seq<int>, e: int, k: nat)
    requires k <= |sorted| && forall i, j :: 0 <= i < j < |sorted| ==> sorted[i] < sorted[j]
    requires (forall a :: 0 <= a < k ==> sorted[a] < e) && (k < |sorted| ==> e < sorted[k])
    ensures var longer := sorted[..k] + [e] + sorted[k..];
            (forall i, j :: 0 <= i < j < |longer| ==> longer[i] < longer[j]) && forall x :: x in longer <==> x in sorted || x == e
  {
    assert sorted == sorted[..k] + sorted[k..];
    InsertedElements(sorted[..k], e, sorted[k..], sorted);
    InsertedOrder(sorted[..k], e, sorted[k..], sorted);
  }

  /** Puts `e` into an ascending list unless it is there. */
  method InsertNew(sorted: seq<int>, e: int) returns (longer: seq<int>)
    requires forall i, j :: 0 <= i < j < |sorted| ==> sorted[i] < sorted[j]
    ensures forall i, j :: 0 <= i < j < |longer| ==> longer[i] < longer[j]
    ensures forall x :: x in longer <==> x in sorted || x == e
  {
    var k := 0;
    while k < |sorted| && sorted[k] < e
      invariant k <= |sorted| && forall a :: 0 <= a < k ==> sorted[a] < e
    {
      k := k + 1;
    }
    if k < |sorted| && sorted[k] == e {
      return sorted;
    }
    InsertedAt(sorted, e, k);
    longer := sorted[..k] + [e] + sorted[k..];
  }

  /** `sorted(set(experts))`. */
  method SortedSet(experts: seq<int>) returns (sorted: seq<int>)
    ensures IsSortedSet(sorted, experts)
  {
    sorted := [];
    for i := 0 to |experts|
      invariant IsSortedSet(sorted, experts[..i])
    {
      assert experts[..i + 1] == experts[..i] + [experts[i]];
      sorted := InsertNew(sorted, experts[i]);
    }
    assert experts[..|experts|] == experts;
  }

  lemma SortedSetSize(experts: seq<int>, sorted: seq<int>)
    requires IsSortedSet(sorted, experts)
    ensures |set e | e in experts| == |sorted|
  {
    DistinctSize(sorted);
    var all, listed := set e | e in experts, set e | e in sorted;
    forall e ensures e in all <==> e in listed {
      assert e in sorted <==> e in experts;
    }
    assert all == listed;
  }

  method KeepFromList(experts: seq<int>, oldN: nat, target: nat) returns (r: Result<seq<nat>>)
    ensures r.Ok? <==> ListIsGood(experts, oldN, target)
    ensures r.Ok? ==> Ascending(r.value) && Below(r.value, oldN) && |r.value| == target
    ensures r.Ok? ==> forall e: int :: e in experts <==> e in r.value
  {
    var sorted := SortedSet(experts);
    SortedSetSize(experts, sorted);
    if |sorted| != target {
      return Err(WrongCount);
    }
    var keep: seq<nat> := [];
    for i := 0 to |sorted|
      invariant |keep| == i && forall k :: 0 <= k < i ==> keep[k] == sorted[k] < oldN
    {
      if !(0 <= sorted[i] < oldN) {
        assert sorted[i] in experts;
        return Err(ExpertOutOfRange);
      }
      keep := keep + [sorted[i]];
    }
    forall e | e in experts ensures 0 <= e < oldN {
      assert e in sorted;
    }
    assert forall e: int :: e in sorted <==> e in keep by {
      forall e: int | e in sorted ensures e in keep {
        var i :| 0 <= i < |sorted| && sorted[i] == e;
        assert keep[i] == e;
      }
    }
    r := Ok(keep);
  }

  method FullKeep(numLayers: nat, oldN: nat, keepDict: map<nat, seq<int>>, target: nat) returns (r: Result<seq<seq<nat>>>)
    ensures r.Ok? <==> forall i :: 3 <= i < numLayers && i in keepDict ==> ListIsGood(keepDict[i], oldN, target)
    ensures r.Ok? ==> |r.value| == numLayers
    ensures r.Ok? ==> forall i :: 0 <= i < numLayers ==> KeepMeans(r.value[i], i, oldN, keepDict, target)
  {
    var fullKeep: seq<seq<nat>> := [];
    for i := 0 to numLayers
      invariant |fullKeep| == i
      invariant forall k :: 0 <= k < i ==> KeepMeans(fullKeep[k], k, oldN, keepDict, target)
      invariant forall k :: 3 <= k < i && k in keepDict ==> ListIsGood(keepDict[k], oldN, target)
    {
      if Skipped(i) {
        fullKeep := fullKeep + [Firsts(oldN)];
      } else if i in keepDict {
        var kept := KeepFromList(keepDict[i], oldN, target);
        if kept.Err? {
          return Err(kept.error);
        }
        fullKeep := fullKeep + [kept.value];
      } else {
        fullKeep := fullKeep + [Firsts(target)];
      }
    }
    r := Ok(fullKeep);
  }

  /** The number of experts that is written into the configuration is that of every layer exactly when there is no
   *  layer or nothing is pruned, because the first layers keep all of theirs. */
  lemma ConfiguredCountIsRightIff(fullKeep: seq<seq<nat>>, oldN: nat, keepDict: map<nat, seq<int>>, target: nat)
    requires forall i :: 0 <= i < |fullKeep| ==> KeepMeans(fullKeep[i], i, oldN, keepDict, target)
    ensures (forall i :: 0 <= i < |fullKeep| ==> |fullKeep[i]| == target) <==> |fullKeep| == 0 || oldN == target
  {
    if |fullKeep| > 0 {
      assert |fullKeep[0]| == oldN;
    }
  }

  /** The map from old experts to new ones: kept experts to their place, the others folded onto some place. */
  ghost predicate MapMeans(mapping: seq<int>, keep: seq<nat>, oldN: nat, target: nat)
    requires target > 0
  {
    |mapping| == oldN &&
    (forall e :: 0 <= e < oldN ==> 0 <= mapping[e] < target) &&
    (forall j :: 0 <= j < |keep| ==> keep[j] < oldN && mapping[keep[j]] == j) &&
    (forall e: nat :: e < oldN && e !in keep ==> mapping[e] == e % target)
  }

  /** Every kept expert has its place, all others are unset. */
  ghost predicate Placed(mapping: seq<int>, keep: seq<nat>) {
    (forall j :: 0 <= j < |keep| ==> keep[j] < |mapping| && mapping[keep[j]] == j) &&
    forall e: nat :: e < |mapping| && e !in keep ==> mapping[e] == -1
  }

  method PlaceKept(keep: seq<nat>, oldN: nat) returns (r: Result<seq<int>>)
    requires Ascending(keep)
    ensures r.Ok? <==> Below(keep, oldN)
    ensures r.Ok? ==> |r.value| == oldN && Placed(r.value, keep)
  {
    var mapping := new int[oldN](_ => -1);
    for j := 0 to |keep|
      invariant forall i :: 0 <= i < j ==> keep[i] < oldN && mapping[keep[i]] == i
      invariant forall e: nat :: e < oldN && e !in keep[..j] ==> mapping[e] == -1
    {
      assert keep[..j + 1] == keep[..j] + [keep[j]];
      if keep[j] >= oldN {
        return Err(ExpertOutOfRange);
      }
      mapping[keep[j]] := j;
    }
    assert keep[..|keep|] == keep;
    r := Ok(mapping[..]);
  }

  method FoldRest(placed: seq<int>, ghost keep: seq<nat>, target: nat) returns (mapping: seq<int>)
    requires Placed(placed, keep) && |keep| == target > 0
    ensures MapMeans(mapping, keep, |placed|, target)
  {
    mapping := placed;
    for e := 0 to |placed|
      invariant |mapping| == |placed|
      invariant forall i :: 0 <= i < |keep| ==> mapping[keep[i]] == i
      invariant forall k: nat :: k < |placed| && k !in keep ==> mapping[k] == if k < e then k % target else -1
    {
      if mapping[e] == -1 {
        mapping := mapping[e := e % target];
      }
    }
    forall k: nat | k < |placed| ensures 0 <= mapping[k] < target {
      if k in keep {
        var i :| 0 <= i < |keep| && keep[i] == k;
        assert mapping[keep[i]] == i;
      }
    }
  }

  method OldToNew(keep: seq<nat>, oldN: nat, target: nat) returns (r: Result<seq<int>>)
    requires Ascending(keep) && |keep| == target
    ensures r.Ok? <==> Below(keep, oldN) && (target > 0 || oldN == 0)
    ensures r.Ok? && target > 0 ==> MapMeans(r.value, keep, oldN, target)
  {
    r := PlaceKept(keep, oldN);
    if r.Err? { return; }
    if target == 0 {
      // every expert is unset, and folding the first one divides by zero
      if oldN > 0 { r := Err(DivisionByZero); }
      return;
    }
    var mapping := FoldRest(r.value, keep, target);
    r := Ok(mapping);
  }

  // ----- one weight -----

  function IndexOf(keep: seq<nat>, expert: nat): (j: nat)
    requires expert in keep
    ensures j < |keep| && keep[j] == expert && expert !in keep[..j]
  {
    var last := |keep| - 1;
    assert keep == keep[..last] + [keep[last]];
    if expert in keep[..last] then
      assert forall j :: 0 <= j < last ==> keep[..last][..j] == keep[..j];
      IndexOf(keep[..last], expert)
    else last
  }

  function GatherColumns(rows: seq<seq<real>>, columns: nat, keep: seq<nat>): (r: seq<seq<real>>)
    requires (forall i :: 0 <= i < |rows| ==> |rows[i]| == columns) && Below(keep, columns)
    ensures |r| == |rows| && forall i, j :: 0 <= i < |rows| && 0 <= j < |keep| ==> |r[i]| == |keep| && r[i][j] == rows[i][keep[j]]
  {
    seq(|rows|, i requires 0 <= i < |rows| => Gather(rows[i], keep))
  }

  ghost predicate WellShaped(t: Tensor) {
    t.Matrix? ==> forall i :: 0 <= i < |t.rows| ==> |t.rows[i]| == t.columns
  }

  predicate Fits(keep: seq<nat>, size: nat) {
    forall i :: 0 <= i < |keep| ==> keep[i] < size
  }

  /** The entries of the kept experts along the first dimension as long as there were experts. */
  function SliceExperts(t: Tensor, keep: seq<nat>, oldN: nat): Result<Tensor>
    requires WellShaped(t) && Below(keep, oldN)
  {
    match t
    case Vector(values) => if |values| == oldN then Ok(Vector(Gather(values, keep))) else Err(NoExpertDimension)
    case Matrix(rows, columns) =>
      if |rows| == oldN then Ok(Matrix(Gather(rows, keep), columns))
      else if columns == oldN then Ok(Matrix(GatherColumns(rows, columns, keep), |keep|))
      else if |rows| * columns == oldN then
        if Fits(keep, |rows|) then Ok(Matrix(Gather(rows, keep), columns)) else Err(ExpertOutOfRange)
      else Err(NoExpertDimension)
  }

  /** `None`: the weight belongs to a dropped expert. */
  function ProcessKey(key: Key, t: Tensor, fullKeep: seq<seq<nat>>, oldN: nat): (r: Result<Option<(Key, Tensor)>>)
    requires WellShaped(t) && forall i :: 3 <= i < |fullKeep| ==> Below(fullKeep[i], oldN)
  {
    match key
    case Other(_) => Ok(Some((key, t)))
    case Expert(_, layer, _, expert, _) =>
      if Skipped(layer) then Ok(Some((key, t)))
      else if layer >= |fullKeep| then Err(UnknownLayer)
      else if expert !in fullKeep[layer] then Ok(None)
      else Ok(Some((key.(expert := IndexOf(fullKeep[layer], expert)), t)))
    case Gate(_, layer, _, _) =>
      if Skipped(layer) then Ok(Some((key, t)))
      else if layer >= |fullKeep| then Err(UnknownLayer)
      else
        var sliced := SliceExperts(t, fullKeep[layer], oldN);
        if sliced.Err? then Err(sliced.error) else Ok(Some((key, sliced.value)))
  }

  /** Renaming is injective: two weights never get the same new name. */
  lemma RenamingIsInjective(a: Key, s: Tensor, b: Key, t: Tensor, fullKeep: seq<seq<nat>>, oldN: nat)
    requires WellShaped(s) && WellShaped(t) && forall i :: 3 <= i < |fullKeep| ==> Below(fullKeep[i], oldN)
    requires ProcessKey(a, s, fullKeep, oldN).Ok? && ProcessKey(a, s, fullKeep, oldN).value.Some?
    requires ProcessKey(b, t, fullKeep, oldN).Ok? && ProcessKey(b, t, fullKeep, oldN).value.Some?
    requires ProcessKey(a, s, fullKeep, oldN).value.value.0 == ProcessKey(b, t, fullKeep, oldN).value.value.0
    ensures a == b
  {
  }

  // ----- the checkpoint -----

  datatype Entry = Entry(key: Key, file: string, tensor: Tensor)

  ghost predicate IsCheckpoint(entries: seq<Entry>) {
    (forall i :: 0 <= i < |entries| ==> WellShaped(entries[i].tensor)) &&
    forall i, j :: 0 <= i < j < |entries| ==> entries[i].key != entries[j].key
  }

  /** What became of entry `e`. */
  ghost predicate Survives(e: Entry, fullKeep: seq<seq<nat>>, oldN: nat, tensors: map<(string, Key), Tensor>,
                           weightMap: map<Key, string>)
    requires WellShaped(e.tensor) && forall i :: 3 <= i < |fullKeep| ==> Below(fullKeep[i], oldN)
  {
    var r := ProcessKey(e.key, e.tensor, fullKeep, oldN);
    r.Ok? &&
    (r.value.Some? ==>
       r.value.value.0 in weightMap && weightMap[r.value.value.0] == e.file &&
       (e.file, r.value.value.0) in tensors && tensors[(e.file, r.value.value.0)] == r.value.value.1)
  }

  ghost predicate KeepsBelow(fullKeep: seq<seq<nat>>, oldN: nat) {
    forall i :: 3 <= i < |fullKeep| ==> Below(fullKeep[i], oldN)
  }

  /** Writing one more entry under its new name destroys none of the earlier ones. */
  lemma NothingIsOverwritten(entries: seq<Entry>, k: nat, i: nat, fullKeep: seq<seq<nat>>, oldN: nat,
                             tensors: map<(string, Key), Tensor>, weightMap: map<Key, string>)
    requires IsCheckpoint(entries) && i < k < |entries| && KeepsBelow(fullKeep, oldN)
    requires Survives(entries[i], fullKeep, oldN, tensors, weightMap)
    requires ProcessKey(entries[k].key, entries[k].tensor, fullKeep, oldN).Ok?
    requires ProcessKey(entries[k].key, entries[k].tensor, fullKeep, oldN).value.Some?
    ensures var (newKey, t) := ProcessKey(entries[k].key, entries[k].tensor, fullKeep, oldN).value.value;
            Survives(entries[i], fullKeep, oldN, tensors[(entries[k].file, newKey) := t], weightMap[newKey := entries[k].file])
  {
    var a, b := entries[i], entries[k];
    assert a.key != b.key;
    var r := ProcessKey(a.key, a.tensor, fullKeep, oldN);
    if r.value.Some? && r.value.value.0 == ProcessKey(b.key, b.tensor, fullKeep, oldN).value.value.0 {
      RenamingIsInjective(a.key, a.tensor, b.key, b.tensor, fullKeep, oldN);
    }
  }

  ghost predicate BecomesKey(e: Entry, newKey: Key, fullKeep: seq<seq<nat>>, oldN: nat)
    requires WellShaped(e.tensor) && KeepsBelow(fullKeep, oldN)
  {
    var r := ProcessKey(e.key, e.tensor, fullKeep, oldN);
    r.Ok? && r.value.Some? && r.value.value.0 == newKey
  }

  // ----- what pruning makes of a checkpoint -----

  /** Experts of a pruned layer move to their place in the keep list; every other weight keeps its name. */
  ghost predicate IsNewName(old_: Key, new_: Key, fullKeep: seq<seq<nat>>) {
    if old_.Expert? && old_.layer > 2 then
      new_.Expert? && old_ == new_.(expert := old_.expert) && old_.layer < |fullKeep| &&
      new_.expert < |fullKeep[old_.layer]| && fullKeep[old_.layer][new_.expert] == old_.expert
    else new_ == old_
  }

  /** Along the first dimension of length `oldN` exactly the entries of the kept experts are left; a tensor with as many
   *  elements in all loses rows. */
  ghost predicate IsSlice(t: Tensor, u: Tensor, keep: seq<nat>, oldN: nat)
    requires WellShaped(t) && Below(keep, oldN)
  {
    match t
    case Vector(values) =>
      |values| == oldN && u.Vector? && |u.values| == |keep| && forall j :: 0 <= j < |keep| ==> u.values[j] == values[keep[j]]
    case Matrix(rows, columns) =>
      u.Matrix? &&
      if |rows| == oldN || (columns != oldN && |rows| * columns == oldN) then
        u.columns == columns && |u.rows| == |keep| &&
        forall j :: 0 <= j < |keep| ==> keep[j] < |rows| && u.rows[j] == rows[keep[j]]
      else
        columns == oldN && u.columns == |keep| && |u.rows| == |rows| &&
        forall i, j :: 0 <= i < |rows| && 0 <= j < |keep| ==> |u.rows[i]| == |keep| && u.rows[i][j] == rows[i][keep[j]]
  }

  /** Only the gate weights of pruned layers change. */
  ghost predicate IsNewTensor(e: Entry, u: Tensor, fullKeep: seq<seq<nat>>, oldN: nat)
    requires WellShaped(e.tensor) && KeepsBelow(fullKeep, oldN)
  {
    if e.key.Gate? && e.key.layer > 2 then e.key.layer < |fullKeep| && IsSlice(e.tensor, u, fullKeep[e.key.layer], oldN)
    else u == e.tensor
  }

  /** Every weight is found under each new name it has, in the file it was in. */
  ghost predicate IsWritten(e: Entry, fullKeep: seq<seq<nat>>, oldN: nat, tensors: map<(string, Key), Tensor>, weightMap: map<Key, string>)
    requires WellShaped(e.tensor) && KeepsBelow(fullKeep, oldN)
  {
    forall key :: IsNewName(e.key, key, fullKeep) ==>
      key in weightMap && weightMap[key] == e.file && (e.file, key) in tensors && IsNewTensor(e, tensors[(e.file, key)], fullKeep, oldN)
  }

  /** Every tensor is in the file that the weight map names. */
  ghost predicate InItsFile(tensors: map<(string, Key), Tensor>, weightMap: map<Key, string>) {
    forall place :: place in tensors ==> place.1 in weightMap && weightMap[place.1] == place.0
  }

  /** Every weight is written under its new name with its new tensor, and nothing else is. */
  ghost predicate IsPruned(entries: seq<Entry>, fullKeep: seq<seq<nat>>, oldN: nat, tensors: map<(string, Key), Tensor>,
                           weightMap: map<Key, string>)
    requires IsCheckpoint(entries) && KeepsBelow(fullKeep, oldN)
  {
    (forall i :: 0 <= i < |entries| ==> IsWritten(entries[i], fullKeep, oldN, tensors, weightMap)) &&
    (forall key :: key in weightMap ==> exists i :: 0 <= i < |entries| && IsNewName(entries[i].key, key, fullKeep)) &&
    InItsFile(tensors, weightMap)
  }

  /** A weight that pruning can handle: its layer has a keep list, and a gate has a dimension for the experts, or as
   *  many elements in all and rows for the kept ones. */
  ghost predicate CanBePruned(e: Entry, fullKeep: seq<seq<nat>>, oldN: nat)
    requires WellShaped(e.tensor) && KeepsBelow(fullKeep, oldN)
  {
    (e.key.Expert? || e.key.Gate?) && e.key.layer > 2 ==>
      e.key.layer < |fullKeep| && (e.key.Gate? ==> HasExpertDimension(e.tensor, fullKeep[e.key.layer], oldN))
  }

  ghost predicate HasExpertDimension(t: Tensor, keep: seq<nat>, oldN: nat) {
    match t
    case Vector(values) => |values| == oldN
    case Matrix(rows, columns) =>
      |rows| == oldN || columns == oldN || (|rows| * columns == oldN && forall j :: 0 <= j < |keep| ==> keep[j] < |rows|)
  }

  lemma SliceIs(t: Tensor, keep: seq<nat>, oldN: nat)
    requires WellShaped(t) && Below(keep, oldN)
    ensures SliceExperts(t, keep, oldN).Ok? <==> HasExpertDimension(t, keep, oldN)
    ensures SliceExperts(t, keep, oldN).Ok? ==> IsSlice(t, SliceExperts(t, keep, oldN).value, keep, oldN)
  {
  }

  /** The renaming of one weight, in these terms. */
  lemma ProcessedIs(e: Entry, fullKeep: seq<seq<nat>>, oldN: nat)
    requires WellShaped(e.tensor) && KeepsBelow(fullKeep, oldN)
    ensures var r := ProcessKey(e.key, e.tensor, fullKeep, oldN);
            (r.Ok? <==> CanBePruned(e, fullKeep, oldN)) &&
            (r.Ok? && r.value.Some? ==>
               IsNewName(e.key, r.value.value.0, fullKeep) && IsNewTensor(e, r.value.value.1, fullKeep, oldN)) &&
            (r.Ok? && r.value.None? ==> forall key :: !IsNewName(e.key, key, fullKeep))
  {
    if e.key.Gate? && 2 < e.key.layer < |fullKeep| {
      SliceIs(e.tensor, fullKeep[e.key.layer], oldN);
    }
  }

  ghost predicate NoRepeats(fullKeep: seq<seq<nat>>) {
    forall i :: 3 <= i < |fullKeep| ==> Distinct(fullKeep[i])
  }

  lemma OnlyOneName(key: Key, a: Key, b: Key, fullKeep: seq<seq<nat>>)
    requires NoRepeats(fullKeep) && IsNewName(key, a, fullKeep) && IsNewName(key, b, fullKeep)
    ensures a == b
  {
    if key.Expert? && key.layer > 2 {
      var keep := fullKeep[key.layer];
      assert Distinct(keep);
      assert a.expert == b.expert;
    }
  }

  lemma SurvivorIsWritten(e: Entry, fullKeep: seq<seq<nat>>, oldN: nat, tensors: map<(string, Key), Tensor>, weightMap: map<Key, string>)
    requires WellShaped(e.tensor) && KeepsBelow(fullKeep, oldN) && NoRepeats(fullKeep) && Survives(e, fullKeep, oldN, tensors, weightMap)
    ensures IsWritten(e, fullKeep, oldN, tensors, weightMap)
  {
    ProcessedIs(e, fullKeep, oldN);
    var r := ProcessKey(e.key, e.tensor, fullKeep, oldN);
    forall key | IsNewName(e.key, key, fullKeep)
      ensures key in weightMap && weightMap[key] == e.file && (e.file, key) in tensors && IsNewTensor(e, tensors[(e.file, key)], fullKeep, oldN)
    {
      OnlyOneName(e.key, key, r.value.value.0, fullKeep);
    }
  }

  /** The names written so far are those of the first `k` entries. */
  ghost predicate NamedByFirst(entries: seq<Entry>, k: nat, fullKeep: seq<seq<nat>>, oldN: nat, weightMap: map<Key, string>)
    requires IsCheckpoint(entries) && KeepsBelow(fullKeep, oldN) && k <= |entries|
  {
    forall key :: key in weightMap ==> exists i :: 0 <= i < k && BecomesKey(entries[i], key, fullKeep, oldN)
  }

  ghost predicate FirstSurvive(entries: seq<Entry>, k: nat, fullKeep: seq<seq<nat>>, oldN: nat,
                               tensors: map<(string, Key), Tensor>, weightMap: map<Key, string>)
    requires IsCheckpoint(entries) && KeepsBelow(fullKeep, oldN) && k <= |entries|
  {
    forall i :: 0 <= i < k ==> Survives(entries[i], fullKeep, oldN, tensors, weightMap)
  }

  lemma RenamedIsPruned(entries: seq<Entry>, fullKeep: seq<seq<nat>>, oldN: nat, tensors: map<(string, Key), Tensor>,
                        weightMap: map<Key, string>)
    requires IsCheckpoint(entries) && KeepsBelow(fullKeep, oldN) && NoRepeats(fullKeep)
    requires FirstSurvive(entries, |entries|, fullKeep, oldN, tensors, weightMap)
    requires NamedByFirst(entries, |entries|, fullKeep, oldN, weightMap)
    requires InItsFile(tensors, weightMap)
    ensures IsPruned(entries, fullKeep, oldN, tensors, weightMap)
  {
    forall i | 0 <= i < |entries| ensures IsWritten(entries[i], fullKeep, oldN, tensors, weightMap) {
      SurvivorIsWritten(entries[i], fullKeep, oldN, tensors, weightMap);
    }
    forall key | key in weightMap ensures exists i :: 0 <= i < |entries| && IsNewName(entries[i].key, key, fullKeep) {
      var i :| 0 <= i < |entries| && BecomesKey(entries[i], key, fullKeep, oldN);
      ProcessedIs(entries[i], fullKeep, oldN);
    }
  }

  /** What is there after pruning: everything outside the experts and gates of pruned layers under its own name with its
   *  own tensor, every gate weight, and an expert weight exactly if its layer is not pruned or its expert is kept. */
  lemma PrunedHolds(entries: seq<Entry>, fullKeep: seq<seq<nat>>, oldN: nat, tensors: map<(string, Key), Tensor>,
                    weightMap: map<Key, string>, i: nat)
    requires IsCheckpoint(entries) && KeepsBelow(fullKeep, oldN) && IsPruned(entries, fullKeep, oldN, tensors, weightMap)
    requires i < |entries| && CanBePruned(entries[i], fullKeep, oldN)
    ensures var e := entries[i];
            e.key.Other? || e.key.layer <= 2 ==>
              e.key in weightMap && weightMap[e.key] == e.file && (e.file, e.key) in tensors && tensors[(e.file, e.key)] == e.tensor
    ensures entries[i].key.Gate? ==> entries[i].key in weightMap
    ensures entries[i].key.Expert? ==>
              ((exists key :: key in weightMap && IsNewName(entries[i].key, key, fullKeep)) <==>
               entries[i].key.layer <= 2 || entries[i].key.expert in fullKeep[entries[i].key.layer])
  {
    var e := entries[i];
    assert IsWritten(e, fullKeep, oldN, tensors, weightMap);
    if !e.key.Expert? || e.key.layer <= 2 {
      assert IsNewName(e.key, e.key, fullKeep);
    } else if e.key.expert in fullKeep[e.key.layer] {
      var j :| 0 <= j < |fullKeep[e.key.layer]| && fullKeep[e.key.layer][j] == e.key.expert;
      assert IsNewName(e.key, e.key.(expert := j), fullKeep);
    }
  }

  /** The next new name has not been used. */
  lemma NameIsNew(entries: seq<Entry>, k: nat, newKey: Key, fullKeep: seq<seq<nat>>, oldN: nat, weightMap: map<Key, string>)
    requires IsCheckpoint(entries) && KeepsBelow(fullKeep, oldN) && k < |entries|
    requires NamedByFirst(entries, k, fullKeep, oldN, weightMap) && BecomesKey(entries[k], newKey, fullKeep, oldN)
    ensures newKey !in weightMap
  {
    if newKey in weightMap {
      var i :| 0 <= i < k && BecomesKey(entries[i], newKey, fullKeep, oldN);
      RenamingIsInjective(entries[i].key, entries[i].tensor, entries[k].key, entries[k].tensor, fullKeep, oldN);
      assert false;
    }
  }

  lemma OneMoreWritten(entries: seq<Entry>, k: nat, newKey: Key, t: Tensor, fullKeep: seq<seq<nat>>, oldN: nat,
                       tensors: map<(string, Key), Tensor>, weightMap: map<Key, string>)
    requires IsCheckpoint(entries) && KeepsBelow(fullKeep, oldN) && k < |entries|
    requires FirstSurvive(entries, k, fullKeep, oldN, tensors, weightMap) && NamedByFirst(entries, k, fullKeep, oldN, weightMap)
    requires InItsFile(tensors, weightMap)
    requires ProcessKey(entries[k].key, entries[k].tensor, fullKeep, oldN) == Ok(Some((newKey, t)))
    ensures var tensors', weightMap' := tensors[(entries[k].file, newKey) := t], weightMap[newKey := entries[k].file];
            FirstSurvive(entries, k + 1, fullKeep, oldN, tensors', weightMap') && InItsFile(tensors', weightMap') &&
            NamedByFirst(entries, k + 1, fullKeep, oldN, weightMap')
  {
    var e := entries[k];
    assert BecomesKey(e, newKey, fullKeep, oldN);
    NameIsNew(entries, k, newKey, fullKeep, oldN, weightMap);
    forall i | 0 <= i < k
      ensures Survives(entries[i], fullKeep, oldN, tensors[(e.file, newKey) := t], weightMap[newKey := e.file])
    {
      NothingIsOverwritten(entries, k, i, fullKeep, oldN, tensors, weightMap);
    }
  }

  lemma OneMoreDropped(entries: seq<Entry>, k: nat, fullKeep: seq<seq<nat>>, oldN: nat,
                       tensors: map<(string, Key), Tensor>, weightMap: map<Key, string>)
    requires IsCheckpoint(entries) && KeepsBelow(fullKeep, oldN) && k < |entries|
    requires FirstSurvive(entries, k, fullKeep, oldN, tensors, weightMap) && NamedByFirst(entries, k, fullKeep, oldN, weightMap)
    requires ProcessKey(entries[k].key, entries[k].tensor, fullKeep, oldN) == Ok(None)
    ensures FirstSurvive(entries, k + 1, fullKeep, oldN, tensors, weightMap) && NamedByFirst(entries, k + 1, fullKeep, oldN, weightMap)
  {
  }

  ghost predicate FirstCanBePruned(entries: seq<Entry>, k: nat, fullKeep: seq<seq<nat>>, oldN: nat)
    requires IsCheckpoint(entries) && KeepsBelow(fullKeep, oldN) && k <= |entries|
  {
    forall i :: 0 <= i < k ==> CanBePruned(entries[i], fullKeep, oldN)
  }

  /** The loop over the weights: every one is written under its new name unless it belongs to a dropped expert. */
  method RenameAll(entries: seq<Entry>, fullKeep: seq<seq<nat>>, oldN: nat)
    returns (r: Result<map<(string, Key), Tensor>>, weightMap: map<Key, string>)
    requires IsCheckpoint(entries) && KeepsBelow(fullKeep, oldN)
    ensures r.Ok? <==> forall i :: 0 <= i < |entries| ==> CanBePruned(entries[i], fullKeep, oldN)
    ensures r.Ok? && NoRepeats(fullKeep) ==> IsPruned(entries, fullKeep, oldN, r.value, weightMap)
  {
    var tensors: map<(string, Key), Tensor> := map[];
    weightMap := map[];
    for k := 0 to |entries|
      invariant FirstSurvive(entries, k, fullKeep, oldN, tensors, weightMap)
      invariant NamedByFirst(entries, k, fullKeep, oldN, weightMap) && InItsFile(tensors, weightMap)
      invariant FirstCanBePruned(entries, k, fullKeep, oldN)
    {
      var e := entries[k];
      ProcessedIs(e, fullKeep, oldN);
      var processed := ProcessKey(e.key, e.tensor, fullKeep, oldN);
      if processed.Err? {
        return Err(processed.error), weightMap;
      }
      if processed.value.Some? {
        var (newKey, t) := processed.value.value;
        OneMoreWritten(entries, k, newKey, t, fullKeep, oldN, tensors, weightMap);
        tensors := tensors[(e.file, newKey) := t];
        weightMap := weightMap[newKey := e.file];
      } else {
        OneMoreDropped(entries, k, fullKeep, oldN, tensors, weightMap);
      }
    }
    r := Ok(tensors);
    if NoRepeats(fullKeep) {
      RenamedIsPruned(entries, fullKeep, oldN, tensors, weightMap);
    }
  }

  ghost predicate ListsAreGood(numLayers: nat, oldN: nat, keepDict: map<nat, seq<int>>, target: nat) {
    forall i :: 3 <= i < numLayers && i in keepDict ==> ListIsGood(keepDict[i], oldN, target)
  }

  /** A layer without a list keeps the first `target` experts, which have to exist. */
  ghost predicate MapsExist(numLayers: nat, oldN: nat, keepDict: map<nat, seq<int>>, target: nat) {
    (numLayers > 3 ==> target > 0 || oldN == 0) &&
    forall i :: 3 <= i < numLayers && i !in keepDict ==> target <= oldN
  }

  ghost predicate AllCanBePruned(entries: seq<Entry>, fullKeep: seq<seq<nat>>, oldN: nat)
    requires IsCheckpoint(entries)
  {
    KeepsBelow(fullKeep, oldN) && forall i :: 0 <= i < |entries| ==> CanBePruned(entries[i], fullKeep, oldN)
  }

  lemma KeepsHaveNoRepeats(fullKeep: seq<seq<nat>>, oldN: nat, keepDict: map<nat, seq<int>>, target: nat)
    requires forall i :: 0 <= i < |fullKeep| ==> KeepMeans(fullKeep[i], i, oldN, keepDict, target)
    ensures NoRepeats(fullKeep)
  {
    forall i | 3 <= i < |fullKeep| ensures Distinct(fullKeep[i]) {
      assert KeepMeans(fullKeep[i], i, oldN, keepDict, target);
    }
  }

  /** The maps are built for every pruned layer; the renaming below looks the experts up in the keep lists. */
  method BuildMaps(numLayers: nat, oldN: nat, keepDict: map<nat, seq<int>>, target: nat, fullKeep: seq<seq<nat>>)
    returns (r: Result<map<nat, seq<int>>>)
    requires |fullKeep| == numLayers && forall i :: 0 <= i < numLayers ==> KeepMeans(fullKeep[i], i, oldN, keepDict, target)
    ensures r.Ok? <==> MapsExist(numLayers, oldN, keepDict, target)
    ensures r.Ok? ==> KeepsBelow(fullKeep, oldN)
    ensures r.Ok? && target > 0 ==> forall i :: 3 <= i < numLayers ==> i in r.value && MapMeans(r.value[i], fullKeep[i], oldN, target)
  {
    var maps: map<nat, seq<int>> := map[];
    for layer := 0 to numLayers
      invariant forall i :: 3 <= i < layer ==> Below(fullKeep[i], oldN)
      invariant layer > 3 ==> target > 0 || oldN == 0
      invariant forall i :: 3 <= i < layer && i !in keepDict ==> target <= oldN
      invariant target > 0 ==> forall i :: 3 <= i < layer ==> i in maps && MapMeans(maps[i], fullKeep[i], oldN, target)
    {
      if !Skipped(layer) {
        assert KeepMeans(fullKeep[layer], layer, oldN, keepDict, target);
        FirstsBelow(target, oldN);
        var mapping := OldToNew(fullKeep[layer], oldN, target);
        if mapping.Err? {
          assert !((layer in keepDict || target <= oldN) && (target > 0 || oldN == 0));
          return Err(mapping.error);
        }
        maps := maps[layer := mapping.value];
      }
    }
    r := Ok(maps);
  }

  lemma FirstsBelow(target: nat, oldN: nat)
    ensures Below(Firsts(target), oldN) <==> target <= oldN
  {
    if target > oldN {
      assert Firsts(target)[oldN] == oldN;
    }
  }

  /** The whole pruning: keep lists, maps, then every weight. */
  method Prune(numLayers: nat, oldN: nat, keepDict: map<nat, seq<int>>, target: nat, entries: seq<Entry>)
    returns (r: Result<map<(string, Key), Tensor>>, weightMap: map<Key, string>, fullKeep: seq<seq<nat>>)
    requires IsCheckpoint(entries)
    ensures r.Ok? <==> ListsAreGood(numLayers, oldN, keepDict, target) && MapsExist(numLayers, oldN, keepDict, target) &&
                       AllCanBePruned(entries, fullKeep, oldN)
    ensures ListsAreGood(numLayers, oldN, keepDict, target) ==>
              |fullKeep| == numLayers && forall i :: 0 <= i < numLayers ==> KeepMeans(fullKeep[i], i, oldN, keepDict, target)
    ensures r.Ok? ==> IsPruned(entries, fullKeep, oldN, r.value, weightMap)
  {
    weightMap, fullKeep := map[], [];
    var keeps := FullKeep(numLayers, oldN, keepDict, target);
    if keeps.Err? {
      return Err(keeps.error), weightMap, fullKeep;
    }
    fullKeep := keeps.value;
    var oldToNewMaps := BuildMaps(numLayers, oldN, keepDict, target, fullKeep);
    if oldToNewMaps.Err? {
      return Err(oldToNewMaps.error), weightMap, fullKeep;
    }
    KeepsHaveNoRepeats(fullKeep, oldN, keepDict, target);
    r, weightMap := RenameAll(entries, fullKeep, oldN);
  }

  // ----- what the pruned model computes -----

  /** `a` is routed to before `b`: higher score, or the lower index among equals. */
  predicate Ahead(scores: seq<real>, a: nat, b: nat)
    requires a < |scores| && b < |scores|
  {
    scores[a] > scores[b] || (scores[a] == scores[b] && a < b)
  }

  ghost predicate IsTopK(chosen: seq<nat>, scores: seq<real>) {
    Below(chosen, |scores|) &&
    (forall i, j :: 0 <= i < j < |chosen| ==> Ahead(scores, chosen[i], chosen[j])) &&
    (forall i, e: nat :: 0 <= i < |chosen| && e < |scores| && e !in chosen ==> Ahead(scores, chosen[i], e))
  }

  lemma {:induction false} TopKIsUnique(a: seq<nat>, b: seq<nat>, scores: seq<real>, i: nat)
    requires IsTopK(a, scores) && IsTopK(b, scores) && |a| == |b| && i <= |a|
    ensures a[..i] == b[..i]
  {
    if i > 0 {
      TopKIsUnique(a, b, scores, i - 1);
      var k := i - 1;
      NotAheadOfOther(a, b, scores, k);
      NotAheadOfOther(b, a, scores, k);
      assert a[..i] == a[..k] + [a[k]] && b[..i] == b[..k] + [b[k]];
    }
  }

  lemma NotAheadOfOther(a: seq<nat>, b: seq<nat>, scores: seq<real>, k: nat)
    requires IsTopK(a, scores) && IsTopK(b, scores) && k < |a| && k < |b| && a[..k] == b[..k]
    ensures !Ahead(scores, a[k], b[k])
  {
    forall j | 0 <= j < k ensures b[j] != a[k] {
      assert a[j] == a[..k][j] && b[j] == b[..k][j];
      assert Ahead(scores, a[j], a[k]);
    }
    if a[k] in b {
      var j :| 0 <= j < |b| && b[j] == a[k];
      assert j > k ==> Ahead(scores, b[k], b[j]);
    } else {
      assert Ahead(scores, b[k], a[k]);
    }
  }

  lemma IndexInAscending(keep: seq<nat>, a: nat, b: nat)
    requires Ascending(keep) && a in keep && b in keep
    ensures a < b <==> IndexOf(keep, a) < IndexOf(keep, b)
  {
  }

  /** The places of the chosen experts among the kept ones. */
  function Places(chosen: seq<nat>, keep: seq<nat>): (r: seq<nat>)
    requires forall i :: 0 <= i < |chosen| ==> chosen[i] in keep
    ensures |r| == |chosen| && forall i :: 0 <= i < |r| ==> r[i] < |keep| && keep[r[i]] == chosen[i]
  {
    seq(|chosen|, i requires 0 <= i < |chosen| => IndexOf(keep, chosen[i]))
  }

  /** Routing inside the kept experts is routing among them. */
  lemma TopKInsideKeep(chosen: seq<nat>, scores: seq<real>, keep: seq<nat>)
    requires IsTopK(chosen, scores) && Ascending(keep) && Below(keep, |scores|)
    requires forall i :: 0 <= i < |chosen| ==> chosen[i] in keep
    ensures IsTopK(Places(chosen, keep), Gather(scores, keep))
  {
    var places, pruned := Places(chosen, keep), Gather(scores, keep);
    forall i, j | 0 <= i < j < |places| ensures Ahead(pruned, places[i], places[j]) {
      assert Ahead(scores, chosen[i], chosen[j]);
      IndexInAscending(keep, chosen[i], chosen[j]);
    }
    forall i, e: nat | 0 <= i < |places| && e < |pruned| && e !in places ensures Ahead(pruned, places[i], e) {
      forall k | 0 <= k < |chosen| ensures chosen[k] != keep[e] {
        assert places[k] in places;
        assert places[k] < e || places[k] > e;
      }
      var x := keep[e];
      assert x < |scores| && x !in chosen;
      assert Ahead(scores, chosen[i], x);
      IndexInAscending(keep, chosen[i], keep[e]);
    }
  }

  /** Main routing result: the pruned router picks the same experts in the same order exactly when the
   *  original router's choice lies inside the kept experts. */
  lemma RoutingIsPreservedIff(chosen: seq<nat>, pruned: seq<nat>, scores: seq<real>, keep: seq<nat>)
    requires Ascending(keep) && Below(keep, |scores|)
    requires IsTopK(chosen, scores) && IsTopK(pruned, Gather(scores, keep)) && |pruned| == |chosen|
    ensures Gather(keep, pruned) == chosen <==> forall i :: 0 <= i < |chosen| ==> chosen[i] in keep
  {
    if forall i :: 0 <= i < |chosen| ==> chosen[i] in keep {
      TopKInsideKeep(chosen, scores, keep);
      TopKIsUnique(Places(chosen, keep), pruned, Gather(scores, keep), |pruned|);
      assert pruned[..|pruned|] == pruned && Places(chosen, keep)[..|pruned|] == Places(chosen, keep);
    }
    if Gather(keep, pruned) == chosen {
      forall i | 0 <= i < |chosen| ensures chosen[i] in keep {
        assert chosen[i] == keep[pruned[i]];
      }
    }
  }

  function Dot(a: seq<real>, b: seq<real>): real
    requires |a| == |b|
  {
    if a == [] then 0.0 else Dot(a[..|a| - 1], b[..|b| - 1]) + a[|a| - 1] * b[|b| - 1]
  }

  /** The router: one score per expert from its gate row and bias. */
  function Scores(gate: seq<seq<real>>, bias: seq<real>, x: seq<real>): (scores: seq<real>)
    requires |bias| == |gate| && forall i :: 0 <= i < |gate| ==> |gate[i]| == |x|
    ensures |scores| == |gate|
  {
    seq(|gate|, i requires 0 <= i < |gate| => Dot(gate[i], x) + bias[i])
  }

  /** After pruning, new expert `j` of layer `layer` has the weights and the gate row of expert `keep[j]`. */
  lemma ExpertsStayWithRouter(key: Key, t: Tensor, gateKey: Key, gate: Tensor, fullKeep: seq<seq<nat>>, oldN: nat, j: nat)
    requires KeepsBelow(fullKeep, oldN) && WellShaped(t) && WellShaped(gate)
    requires key.Expert? && gateKey.Gate? && key.layer == gateKey.layer && 3 <= key.layer < |fullKeep|
    requires Ascending(fullKeep[key.layer]) && j < |fullKeep[key.layer]| && key.expert == fullKeep[key.layer][j]
    requires gate.Matrix? && |gate.rows| == oldN
    ensures ProcessKey(key, t, fullKeep, oldN) == Ok(Some((key.(expert := j), t)))
    ensures var r := ProcessKey(gateKey, gate, fullKeep, oldN);
            r.Ok? && r.value.Some? && r.value.value.0 == gateKey && r.value.value.1.Matrix? &&
            |r.value.value.1.rows| == |fullKeep[key.layer]| && r.value.value.1.rows[j] == gate.rows[key.expert]
  {
    assert key.expert in fullKeep[key.layer];
  }

  /** End to end: with the sliced gate the pruned layer routes a token to the same experts, in the same order,
   *  exactly when the original layer routes it to kept experts only. */
  lemma PrunedLayerRoutesTheSame(gate: Tensor, bias: Tensor, x: seq<real>, keep: seq<nat>, oldN: nat,
                                 chosen: seq<nat>, pruned: seq<nat>)
    requires gate.Matrix? && bias.Vector? && |gate.rows| == |bias.values| == oldN && gate.columns == |x| && WellShaped(gate)
    requires Ascending(keep) && Below(keep, oldN)
    requires IsTopK(chosen, Scores(gate.rows, bias.values, x)) && |pruned| == |chosen|
    requires var g, b := SliceExperts(gate, keep, oldN), SliceExperts(bias, keep, oldN);
             g.Ok? && b.Ok? ==> IsTopK(pruned, Scores(g.value.rows, b.value.values, x))
    ensures SliceExperts(gate, keep, oldN).Ok? && SliceExperts(bias, keep, oldN).Ok?
    ensures Gather(keep, pruned) == chosen <==> forall i :: 0 <= i < |chosen| ==> chosen[i] in keep
  {
    var scores := Scores(gate.rows, bias.values, x);
    assert Scores(Gather(gate.rows, keep), Gather(bias.values, keep), x) == Gather(scores, keep);
    RoutingIsPreservedIff(chosen, pruned, scores, keep);
  }
}

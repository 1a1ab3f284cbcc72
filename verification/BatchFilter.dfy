/** The staged batch filter: gate, group checks, reward threshold, choice of groups, choice of samples. */
module BatchFilter {
  import opened Groups
  import opened SampleSelection
  import opened Sequences
  import opened Wrappers

  datatype Error = BadMinGroupSize | LengthMismatch
  type Result<T> = Wrappers.Result<T, Error>

  datatype Config = Config(strategy: Strategy, targetGroupSize: nat, minGroupSize: nat, targetNumGroups: Option<nat>,
                           rewardThreshold: Option<real>, maxResponseLength: Option<nat>, rejectLowVariance: bool,
                           removeClip: bool, minRolloutN: Option<int>)
  {
    /** What `PostInit` guarantees, for groups of at least one sample. */
    predicate Valid() {
      targetGroupSize > 0 && minGroupSize > targetGroupSize / 2
    }
  }

  /** Derives or checks the minimum group size: padding a group to its target never doubles it. */
  method PostInit(targetGroupSize: nat, minGroupSize: Option<int>) returns (r: Result<nat>)
    ensures r.Ok? <==> minGroupSize.None? || 2 * minGroupSize.value > targetGroupSize
    ensures r.Ok? ==> 2 * r.value > targetGroupSize && r.value > targetGroupSize / 2
    ensures r.Ok? && minGroupSize.Some? ==> r.value == minGroupSize.value
    ensures r.Ok? && minGroupSize.None? ==> 2 * (r.value - 1) <= targetGroupSize
  {
    var size := if minGroupSize.None? then targetGroupSize / 2 + 1 else minGroupSize.value;
    if size <= targetGroupSize / 2 {
      return Err(BadMinGroupSize);
    }
    r := Ok(size);
  }

  /** `gate`: the indices the two-gate filter returns for this batch, if one is configured. */
  datatype Batch = Batch(uids: seq<Uid>, rewards: seq<real>, lengths: seq<nat>, gate: Option<seq<nat>>) {
    ghost predicate Valid() {
      |rewards| == |lengths| == |uids|
    }
  }

  // ----- groups -----

  /** The samples of `uid`, in batch order. */
  function Members(uids: seq<Uid>, uid: Uid): (r: seq<nat>)
    ensures Distinct(r)
    ensures forall i: nat :: i in r <==> i < |uids| && uids[i] == uid
  {
    if uids == [] then []
    else
      var last := |uids| - 1;
      var before := Members(uids[..last], uid);
      assert forall i :: 0 <= i < |before| ==> before[i] in before;
      if uids[last] == uid then before + [last] else before
  }

  /** Uids in order of first occurrence. */
  function Unique(uids: seq<Uid>): (r: seq<Uid>)
    ensures Distinct(r)
    ensures forall uid :: uid in r <==> uid in uids
  {
    if uids == [] then []
    else
      var last := |uids| - 1;
      var before := Unique(uids[..last]);
      assert uids == uids[..last] + [uids[last]];
      if uids[last] in before then before else before + [uids[last]]
  }

  /** `a` occurs before the first `b`. */
  ghost predicate OccursBefore(uids: seq<Uid>, a: Uid, b: Uid) {
    exists i :: 0 <= i < |uids| && uids[i] == a && b !in uids[..i]
  }

  lemma {:induction false} UniqueInOrder(uids: seq<Uid>, k: nat, l: nat)
    requires k < l < |Unique(uids)|
    ensures OccursBefore(uids, Unique(uids)[k], Unique(uids)[l])
  {
    var last := |uids| - 1;
    var before := Unique(uids[..last]);
    if l < |before| {
      UniqueInOrder(uids[..last], k, l);
      var i :| 0 <= i < last && uids[..last][i] == before[k] && before[l] !in uids[..last][..i];
      assert uids[..last][..i] == uids[..i];
    } else {
      assert before[k] in before;
      var i :| 0 <= i < last && uids[i] == before[k];
      assert uids[last] !in uids[..last];
      forall x | 0 <= x < i ensures uids[..i][x] != uids[last] {
        assert uids[..last][x] == uids[x];
      }
    }
  }

  ghost predicate IsOrder(unique: seq<Uid>, groups: map<Uid, seq<nat>>, uids: seq<Uid>) {
    unique == Unique(uids) && forall uid :: uid in groups <==> uid in unique
  }

  ghost predicate HasMembers(groups: map<Uid, seq<nat>>, uids: seq<Uid>) {
    forall uid :: uid in groups ==> groups[uid] == Members(uids, uid)
  }

  /** The uids in order of first occurrence, and the samples of each. */
  ghost predicate IsIndex(unique: seq<Uid>, groups: map<Uid, seq<nat>>, uids: seq<Uid>) {
    IsOrder(unique, groups, uids) && HasMembers(groups, uids)
  }

  lemma MembersAppend(uids: seq<Uid>, next: Uid, uid: Uid)
    ensures Members(uids + [next], uid) == if uid == next then Members(uids, uid) + [|uids|] else Members(uids, uid)
    ensures Unique(uids + [next]) == if next in Unique(uids) then Unique(uids) else Unique(uids) + [next]
  {
    assert (uids + [next])[..|uids|] == uids;
  }

  /** The next sample joins the group of its uid, and the other groups stay. */
  lemma MembersMore(groups: map<Uid, seq<nat>>, uids: seq<Uid>, next: Uid, members: seq<nat>)
    requires HasMembers(groups, uids) && members == Members(uids, next) + [|uids|]
    ensures HasMembers(groups[next := members], uids + [next])
  {
    var more := groups[next := members];
    forall uid | uid in more ensures more[uid] == Members(uids + [next], uid) {
      MembersAppend(uids, next, uid);
    }
  }

  lemma KnownOrder(unique: seq<Uid>, groups: map<Uid, seq<nat>>, uids: seq<Uid>, next: Uid, members: seq<nat>)
    requires IsOrder(unique, groups, uids) && next in groups
    ensures IsOrder(unique, groups[next := members], uids + [next])
  {
    MembersAppend(uids, next, next);
    assert groups[next := members].Keys == groups.Keys;
  }

  lemma NewOrder(unique: seq<Uid>, groups: map<Uid, seq<nat>>, uids: seq<Uid>, next: Uid, members: seq<nat>)
    requires IsOrder(unique, groups, uids) && next !in groups
    ensures IsOrder(unique + [next], groups[next := members], uids + [next]) && Members(uids, next) == []
  {
    MembersAppend(uids, next, next);
    NoMembers(uids, next);
  }

  lemma IndexKnown(unique: seq<Uid>, groups: map<Uid, seq<nat>>, uids: seq<Uid>, next: Uid)
    requires IsIndex(unique, groups, uids) && next in groups
    ensures IsIndex(unique, groups[next := groups[next] + [|uids|]], uids + [next])
  {
    var members := groups[next] + [|uids|];
    KnownOrder(unique, groups, uids, next, members);
    MembersMore(groups, uids, next, members);
  }

  lemma IndexNew(unique: seq<Uid>, groups: map<Uid, seq<nat>>, uids: seq<Uid>, next: Uid)
    requires IsIndex(unique, groups, uids) && next !in groups
    ensures IsIndex(unique + [next], groups[next := [|uids|]], uids + [next])
  {
    NewOrder(unique, groups, uids, next, [|uids|]);
    MembersMore(groups, uids, next, [|uids|]);
  }

  method IndexGroups(uids: seq<Uid>) returns (unique: seq<Uid>, groups: map<Uid, seq<nat>>)
    ensures IsIndex(unique, groups, uids)
  {
    unique, groups := [], map[];
    for i := 0 to |uids|
      invariant IsIndex(unique, groups, uids[..i])
    {
      assert uids[..i + 1] == uids[..i] + [uids[i]];
      if uids[i] in groups {
        IndexKnown(unique, groups, uids[..i], uids[i]);
        groups := groups[uids[i] := groups[uids[i]] + [i]];
      } else {
        IndexNew(unique, groups, uids[..i], uids[i]);
        unique := unique + [uids[i]];
        groups := groups[uids[i] := [i]];
      }
    }
    assert uids[..|uids|] == uids;
  }

  lemma {:induction false} NoMembers(uids: seq<Uid>, uid: Uid)
    requires uid !in uids
    ensures Members(uids, uid) == []
  {
    if uids != [] {
      NoMembers(uids[..|uids| - 1], uid);
    }
  }

  /** Those of `indices` the mask lets through. */
  function Filtered(indices: seq<nat>, mask: seq<bool>): (r: seq<nat>)
    requires forall i :: 0 <= i < |indices| ==> indices[i] < |mask|
    ensures |r| <= |indices|
    ensures forall i: nat :: i in r <==> i in indices && i < |mask| && mask[i]
    ensures Distinct(indices) ==> Distinct(r)
  {
    if indices == [] then []
    else
      var last := |indices| - 1;
      assert indices == indices[..last] + [indices[last]];
      var before := Filtered(indices[..last], mask);
      assert forall i :: 0 <= i < |before| ==> before[i] in before;
      if mask[indices[last]] then before + [indices[last]] else before
  }

  lemma {:induction false} FilteredAgrees(indices: seq<nat>, a: seq<bool>, b: seq<bool>)
    requires |a| == |b| && forall i :: 0 <= i < |indices| ==> indices[i] < |a| && a[indices[i]] == b[indices[i]]
    ensures Filtered(indices, a) == Filtered(indices, b)
  {
    if indices != [] {
      FilteredAgrees(indices[..|indices| - 1], a, b);
    }
  }

  lemma MembersInRange(uids: seq<Uid>, uid: Uid)
    ensures forall i :: 0 <= i < |Members(uids, uid)| ==> Members(uids, uid)[i] < |uids| && uids[Members(uids, uid)[i]] == uid
  {
    var r := Members(uids, uid);
    forall i | 0 <= i < |r| ensures r[i] < |uids| && uids[r[i]] == uid {
      assert r[i] in r;
    }
  }

  /** The samples of `uid` under a mask. */
  function Survivors(uids: seq<Uid>, uid: Uid, mask: seq<bool>): (r: seq<nat>)
    requires |mask| == |uids|
    ensures Distinct(r)
    ensures forall i: nat :: i in r <==> i < |uids| && uids[i] == uid && mask[i]
  {
    MembersInRange(uids, uid);
    Filtered(Members(uids, uid), mask)
  }

  lemma {:induction false} MembersAscend(uids: seq<Uid>, uid: Uid)
    ensures Ascends(Members(uids, uid))
  {
    if uids != [] {
      var last := |uids| - 1;
      MembersAscend(uids[..last], uid);
      MembersInRange(uids[..last], uid);
    }
  }

  lemma {:induction false} FilteredAscends(indices: seq<nat>, mask: seq<bool>)
    requires Ascends(indices) && forall i :: 0 <= i < |indices| ==> indices[i] < |mask|
    ensures Ascends(Filtered(indices, mask))
  {
    if indices != [] {
      var last := |indices| - 1;
      FilteredAscends(indices[..last], mask);
      var before := Filtered(indices[..last], mask);
      forall x | 0 <= x < |before| ensures before[x] < indices[last] {
        assert before[x] in before;
      }
    }
  }

  lemma SurvivorsAscend(uids: seq<Uid>, uid: Uid, mask: seq<bool>)
    requires |mask| == |uids|
    ensures Ascends(Survivors(uids, uid, mask))
  {
    MembersAscend(uids, uid);
    MembersInRange(uids, uid);
    FilteredAscends(Members(uids, uid), mask);
  }

  lemma SurvivorsAgree(uids: seq<Uid>, uid: Uid, a: seq<bool>, b: seq<bool>)
    requires |a| == |b| == |uids| && forall i :: 0 <= i < |uids| && uids[i] == uid ==> a[i] == b[i]
    ensures Survivors(uids, uid, a) == Survivors(uids, uid, b)
  {
    MembersInRange(uids, uid);
    FilteredAgrees(Members(uids, uid), a, b);
  }

  // ----- the masks -----

  ghost predicate Oversampled(uids: seq<Uid>, target: nat) {
    exists uid :: uid in uids && |Members(uids, uid)| > target
  }

  function GateMask(b: Batch, size: nat): (mask: seq<bool>)
    ensures |mask| == size
  {
    seq(size, i requires 0 <= i => b.gate.None? || i in b.gate.value)
  }

  /** The gate leaves enough samples of `uid`. */
  predicate GateKeeps(c: Config, b: Batch, uid: Uid) {
    |Survivors(b.uids, uid, GateMask(b, |b.uids|))| >= c.minGroupSize
  }

  /** Stage 0: samples the gate rejects go, and so does every group it leaves too small. */
  function GateStage(c: Config, b: Batch): (mask: seq<bool>)
    ensures |mask| == |b.uids|
    ensures forall i :: 0 <= i < |mask| ==> mask[i] == (GateMask(b, |b.uids|)[i] && GateKeeps(c, b, b.uids[i]))
  {
    seq(|b.uids|, i requires 0 <= i < |b.uids| => GateMask(b, |b.uids|)[i] && GateKeeps(c, b, b.uids[i]))
  }

  function ValuesAt<T>(values: seq<T>, indices: seq<nat>): (r: seq<T>)
    requires forall i :: 0 <= i < |indices| ==> indices[i] < |values|
    ensures |r| == |indices|
  {
    Gather(values, indices)
  }

  /** The sample variance of at least two values; its root is the standard deviation the code compares. */
  function SampleVariance(vals: seq<real>): real
    requires |vals| > 1
  {
    Sum(Squares(vals, Mean(vals))) / (|vals| - 1) as real
  }

  /** A standard deviation below 1e-3 over the whole group, whatever the gate did. */
  predicate LowVariance(c: Config, b: Batch, uid: Uid)
    requires b.Valid()
  {
    MembersInRange(b.uids, uid);
    c.rejectLowVariance && |Members(b.uids, uid)| > 1 &&
    SampleVariance(ValuesAt(b.rewards, Members(b.uids, uid))) < 0.000001
  }

  function CountAtLeast(vals: seq<nat>, bound: nat): (n: nat)
    ensures n <= |vals|
  {
    if vals == [] then 0
    else CountAtLeast(vals[..|vals| - 1], bound) + if vals[|vals| - 1] >= bound then 1 else 0
  }

  /** Only with `removeClip`: all responses too long, or too few below the limit. */
  predicate OverLong(c: Config, b: Batch, uid: Uid)
    requires b.Valid()
  {
    MembersInRange(b.uids, uid);
    var lengths := ValuesAt(b.lengths, Members(b.uids, uid));
    c.removeClip && c.maxResponseLength.Some? &&
    (CountAtLeast(lengths, c.maxResponseLength.value) == |lengths| ||
     (c.minRolloutN.Some? && |lengths| - CountAtLeast(lengths, c.maxResponseLength.value) < c.minRolloutN.value))
  }

  predicate PoorGroup(c: Config, b: Batch, uid: Uid)
    requires b.Valid()
  {
    LowVariance(c, b, uid) || OverLong(c, b, uid)
  }

  ghost predicate AllExceed(b: Batch, uid: Uid, limit: nat)
    requires b.Valid()
  {
    forall i :: 0 <= i < |b.uids| && b.uids[i] == uid ==> b.lengths[i] > limit
  }

  lemma {:induction false} AllAtLeast(vals: seq<nat>, bound: nat)
    requires forall i :: 0 <= i < |vals| ==> vals[i] >= bound
    ensures CountAtLeast(vals, bound) == |vals|
  {
    if vals != [] {
      AllAtLeast(vals[..|vals| - 1], bound);
    }
  }

  lemma ExceedingIsOverLong(c: Config, b: Batch, uid: Uid)
    requires c.removeClip && c.maxResponseLength.Some? && b.Valid() && AllExceed(b, uid, c.maxResponseLength.value)
    ensures OverLong(c, b, uid)
  {
    MembersInRange(b.uids, uid);
    AllAtLeast(ValuesAt(b.lengths, Members(b.uids, uid)), c.maxResponseLength.value);
  }

  lemma LongGroupStays(c: Config)
    requires c.maxResponseLength.Some? && !c.removeClip
    ensures exists b: Batch, uid: Uid ::
              b.Valid() && uid in b.uids && AllExceed(b, uid, c.maxResponseLength.value) && !PoorGroup(c, b, uid)
  {
    var b := Batch([0], [0.0], [c.maxResponseLength.value + 1], None);
    assert |Members(b.uids, 0)| == 1 by { assert [0][..0] == []; }
    SingleStays(c, b, 0);
    assert 0 in b.uids && AllExceed(b, 0, c.maxResponseLength.value);
  }

  lemma SingleStays(c: Config, b: Batch, uid: Uid)
    requires b.Valid() && !c.removeClip && |Members(b.uids, uid)| <= 1
    ensures !PoorGroup(c, b, uid)
  {
  }

  /** Groups whose responses all exceed the limit are cleared, whatever the batch, exactly under `removeClip`. */
  lemma OverLongGroupsArePoorIff(c: Config)
    requires c.maxResponseLength.Some?
    ensures (forall b: Batch, uid: Uid ::
               b.Valid() && uid in b.uids && AllExceed(b, uid, c.maxResponseLength.value) ==> PoorGroup(c, b, uid)) <==> c.removeClip
  {
    var limit := c.maxResponseLength.value;
    if c.removeClip {
      forall b: Batch, uid: Uid | b.Valid() && uid in b.uids && AllExceed(b, uid, limit) ensures PoorGroup(c, b, uid) {
        ExceedingIsOverLong(c, b, uid);
      }
    } else {
      LongGroupStays(c);
    }
  }

  /** All masks together; `oversampled` decides whether the gate is asked. */
  predicate Passes(c: Config, b: Batch, oversampled: bool, i: nat)
    requires b.Valid() && i < |b.uids|
  {
    (b.gate.Some? && oversampled ==> GateStage(c, b)[i]) && !PoorGroup(c, b, b.uids[i]) &&
    (c.rewardThreshold.Some? ==> b.rewards[i] >= c.rewardThreshold.value)
  }

  function FinalMask(c: Config, b: Batch, oversampled: bool): (mask: seq<bool>)
    requires b.Valid()
    ensures |mask| == |b.uids| && forall i :: 0 <= i < |mask| ==> mask[i] == Passes(c, b, oversampled, i)
  {
    seq(|b.uids|, i requires 0 <= i < |b.uids| => Passes(c, b, oversampled, i))
  }

  /** Clears the mask on a whole group. */
  method ClearGroup(mask: seq<bool>, group: seq<nat>) returns (cleared: seq<bool>)
    requires forall i :: 0 <= i < |group| ==> group[i] < |mask|
    ensures |cleared| == |mask|
    ensures forall i :: 0 <= i < |mask| ==> cleared[i] == (mask[i] && i !in group)
  {
    cleared := mask;
    for k := 0 to |group|
      invariant |cleared| == |mask|
      invariant forall i :: 0 <= i < |mask| ==> cleared[i] == (mask[i] && i !in group[..k])
    {
      assert group[..k + 1] == group[..k] + [group[k]];
      cleared := cleared[group[k] := false];
    }
    assert group[..|group|] == group;
  }

  /** Whether a group survives the gate does not depend on the groups cleared before it. */
  lemma GateSeesItsGroup(c: Config, b: Batch, uid: Uid, group: seq<nat>, mask: seq<bool>)
    requires group == Members(b.uids, uid) && |mask| == |b.uids|
    requires forall i :: 0 <= i < |mask| && b.uids[i] == uid ==> mask[i] == GateMask(b, |b.uids|)[i]
    ensures forall i :: 0 <= i < |group| ==> group[i] < |mask|
    ensures |Filtered(group, mask)| >= c.minGroupSize <==> GateKeeps(c, b, uid)
  {
    MembersInRange(b.uids, uid);
    SurvivorsAgree(b.uids, uid, mask, GateMask(b, |b.uids|));
  }

  method GateGroup(c: Config, b: Batch, uid: Uid, group: seq<nat>, start: seq<bool>) returns (mask: seq<bool>)
    requires group == Members(b.uids, uid) && |start| == |b.uids|
    requires forall i :: 0 <= i < |start| && b.uids[i] == uid ==> start[i] == GateMask(b, |b.uids|)[i]
    ensures |mask| == |start|
    ensures forall i :: 0 <= i < |mask| ==> mask[i] == (start[i] && (b.uids[i] == uid ==> GateKeeps(c, b, uid)))
  {
    GateSeesItsGroup(c, b, uid, group, start);
    mask := start;
    if |Filtered(group, start)| < c.minGroupSize {
      mask := ClearGroup(start, group);
    }
  }

  method ApplyGate(c: Config, b: Batch, unique: seq<Uid>, groups: map<Uid, seq<nat>>) returns (mask: seq<bool>)
    requires b.gate.Some? && unique == Unique(b.uids)
    requires forall uid :: uid in unique ==> uid in groups && groups[uid] == Members(b.uids, uid)
    ensures mask == GateStage(c, b)
  {
    ghost var gate := GateMask(b, |b.uids|);
    mask := GateMask(b, |b.uids|);
    for k := 0 to |unique|
      invariant |mask| == |b.uids|
      invariant forall i :: 0 <= i < |mask| ==> mask[i] == (gate[i] && (b.uids[i] in unique[..k] ==> GateKeeps(c, b, b.uids[i])))
    {
      var uid := unique[k];
      assert unique[..k + 1] == unique[..k] + [uid];
      assert uid !in unique[..k] && uid in unique;
      mask := GateGroup(c, b, uid, groups[uid], mask);
    }
    assert unique[..|unique|] == unique;
  }

  /** Stage 1 on one group. */
  method CheckGroup(c: Config, b: Batch, uid: Uid, group: seq<nat>, start: seq<bool>) returns (mask: seq<bool>, poor: bool)
    requires b.Valid() && group == Members(b.uids, uid) && |start| == |b.uids|
    ensures |mask| == |start| && poor == PoorGroup(c, b, uid)
    ensures forall i :: 0 <= i < |mask| ==> mask[i] == (start[i] && !(b.uids[i] == uid && poor))
  {
    MembersInRange(b.uids, uid);
    mask, poor := start, false;
    if LowVariance(c, b, uid) {
      mask := ClearGroup(mask, group);
      poor := true;
    }
    if OverLong(c, b, uid) {
      mask := ClearGroup(mask, group);
      poor := true;
    }
  }

  method CheckGroups(c: Config, b: Batch, unique: seq<Uid>, groups: map<Uid, seq<nat>>, start: seq<bool>)
    returns (mask: seq<bool>, poor: set<Uid>)
    requires b.Valid() && |start| == |b.uids|
    requires forall uid :: uid in unique ==> uid in groups && groups[uid] == Members(b.uids, uid)
    ensures |mask| == |b.uids|
    ensures forall i :: 0 <= i < |mask| ==> mask[i] == (start[i] && !(b.uids[i] in unique && PoorGroup(c, b, b.uids[i])))
    ensures forall uid :: uid in poor <==> uid in unique && PoorGroup(c, b, uid)
  {
    mask, poor := start, {};
    for k := 0 to |unique|
      invariant |mask| == |b.uids|
      invariant forall i :: 0 <= i < |mask| ==> mask[i] == (start[i] && !(b.uids[i] in unique[..k] && PoorGroup(c, b, b.uids[i])))
      invariant forall uid :: uid in poor <==> uid in unique[..k] && PoorGroup(c, b, uid)
    {
      var uid := unique[k];
      assert uid in unique;
      assert unique[..k + 1] == unique[..k] + [uid];
      var isPoor;
      mask, isPoor := CheckGroup(c, b, uid, groups[uid], mask);
      if isPoor {
        poor := poor + {uid};
      }
    }
    assert unique[..|unique|] == unique;
  }

  /** Stage 2. */
  method CheckRewards(c: Config, b: Batch, start: seq<bool>) returns (mask: seq<bool>)
    requires b.Valid() && |start| == |b.uids|
    ensures |mask| == |b.uids|
    ensures forall i :: 0 <= i < |mask| ==> mask[i] == (start[i] && (c.rewardThreshold.Some? ==> b.rewards[i] >= c.rewardThreshold.value))
  {
    mask := seq(|start|, i requires 0 <= i < |start| == |b.rewards| =>
      start[i] && (c.rewardThreshold.None? || b.rewards[i] >= c.rewardThreshold.value));
  }
}

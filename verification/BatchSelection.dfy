/** Second half of the batch filter: which groups survive, which are chosen, and what each contributes. */
module BatchSelection {
  import opened BatchFilter
  import opened BatchStages
  import opened Groups
  import opened SampleSelection
  import opened Sequences
  import opened Wrappers

  datatype Group = Group(uid: Uid, indices: seq<nat>)
  datatype Category = Usable | Poor | Single

  // ----- what becomes of a group -----

  function Surviving(c: Config, b: Batch, oversampled: bool, uid: Uid): (r: seq<nat>)
    requires b.Valid()
    ensures Distinct(r)
    ensures forall i: nat :: i in r <==> i < |b.uids| && b.uids[i] == uid && Passes(c, b, oversampled, i)
  {
    Survivors(b.uids, uid, FinalMask(c, b, oversampled))
  }

  function CategoryOf(c: Config, b: Batch, oversampled: bool, uid: Uid): Category
    requires b.Valid()
  {
    if PoorGroup(c, b, uid) then Poor
    else
      var count := |Surviving(c, b, oversampled, uid)|;
      if count >= c.minGroupSize then Usable else if count == 1 then Single else Poor
  }

  function CountOf(c: Config, b: Batch, oversampled: bool, uids: seq<Uid>, category: Category): nat
    requires b.Valid()
  {
    if uids == [] then 0
    else
      var last := |uids| - 1;
      CountOf(c, b, oversampled, uids[..last], category) +
      if CategoryOf(c, b, oversampled, uids[last]) == category then 1 else 0
  }

  function UsableGroups(c: Config, b: Batch, oversampled: bool, uids: seq<Uid>): seq<Group>
    requires b.Valid()
  {
    if uids == [] then []
    else
      var last := |uids| - 1;
      UsableGroups(c, b, oversampled, uids[..last]) +
      if CategoryOf(c, b, oversampled, uids[last]) == Usable
      then [Group(uids[last], Surviving(c, b, oversampled, uids[last]))] else []
  }

  /** Usable, poor and single-sample groups are all the groups. */
  lemma {:induction false} EveryGroupIsCounted(c: Config, b: Batch, oversampled: bool, uids: seq<Uid>)
    requires b.Valid()
    ensures |UsableGroups(c, b, oversampled, uids)| == CountOf(c, b, oversampled, uids, Usable)
    ensures CountOf(c, b, oversampled, uids, Usable) + CountOf(c, b, oversampled, uids, Poor) +
            CountOf(c, b, oversampled, uids, Single) == |uids|
  {
    if uids != [] {
      EveryGroupIsCounted(c, b, oversampled, uids[..|uids| - 1]);
    }
  }

  ghost predicate DistinctUids(groups: seq<Group>) {
    forall k, l :: 0 <= k < l < |groups| ==> groups[k].uid != groups[l].uid
  }

  ghost predicate IsUsable(c: Config, b: Batch, oversampled: bool, g: Group)
    requires b.Valid()
  {
    g.uid in b.uids && CategoryOf(c, b, oversampled, g.uid) == Usable && g.indices == Surviving(c, b, oversampled, g.uid)
  }

  /** Usable groups with different uids, all of them from `uids`. */
  ghost predicate AreUsable(c: Config, b: Batch, oversampled: bool, groups: seq<Group>, uids: seq<Uid>)
    requires b.Valid()
  {
    DistinctUids(groups) && forall k :: 0 <= k < |groups| ==> groups[k].uid in uids && IsUsable(c, b, oversampled, groups[k])
  }

  lemma AddUsable(c: Config, b: Batch, oversampled: bool, groups: seq<Group>, g: Group, uids: seq<Uid>)
    requires b.Valid() && AreUsable(c, b, oversampled, groups, uids) && IsUsable(c, b, oversampled, g) && g.uid !in uids
    ensures AreUsable(c, b, oversampled, groups + [g], uids + [g.uid])
  {
  }

  lemma SkipUid(c: Config, b: Batch, oversampled: bool, groups: seq<Group>, uids: seq<Uid>, uid: Uid)
    requires b.Valid() && AreUsable(c, b, oversampled, groups, uids)
    ensures AreUsable(c, b, oversampled, groups + [], uids + [uid])
  {
  }

  lemma {:induction false} UsableGroupsAre(c: Config, b: Batch, oversampled: bool, uids: seq<Uid>)
    requires b.Valid() && Distinct(uids) && forall k :: 0 <= k < |uids| ==> uids[k] in b.uids
    ensures AreUsable(c, b, oversampled, UsableGroups(c, b, oversampled, uids), uids)
  {
    if uids != [] {
      var last := |uids| - 1;
      var uid := uids[last];
      UsableGroupsAre(c, b, oversampled, uids[..last]);
      var before := UsableGroups(c, b, oversampled, uids[..last]);
      assert uids == uids[..last] + [uid] && uid !in uids[..last];
      if CategoryOf(c, b, oversampled, uid) == Usable {
        AddUsable(c, b, oversampled, before, Group(uid, Surviving(c, b, oversampled, uid)), uids[..last]);
      } else {
        SkipUid(c, b, oversampled, before, uids[..last], uid);
      }
    }
  }

  method Categorize(c: Config, b: Batch, ghost oversampled: bool, uid: Uid, group: seq<nat>, mask: seq<bool>, isPoor: bool)
    returns (category: Category, indices: seq<nat>)
    requires b.Valid() && mask == FinalMask(c, b, oversampled)
    requires group == Members(b.uids, uid) && isPoor == PoorGroup(c, b, uid)
    ensures category == CategoryOf(c, b, oversampled, uid) && indices == Surviving(c, b, oversampled, uid)
  {
    MembersInRange(b.uids, uid);
    indices := Filtered(group, mask);
    if isPoor {
      category := Poor;
    } else if |indices| < c.minGroupSize {
      category := if |indices| == 1 then Single else Poor;
    } else {
      category := Usable;
    }
  }

  lemma OneMoreGroup(c: Config, b: Batch, oversampled: bool, uids: seq<Uid>, uid: Uid)
    requires b.Valid()
    ensures forall category :: CountOf(c, b, oversampled, uids + [uid], category) ==
              CountOf(c, b, oversampled, uids, category) + if CategoryOf(c, b, oversampled, uid) == category then 1 else 0
    ensures UsableGroups(c, b, oversampled, uids + [uid]) ==
            UsableGroups(c, b, oversampled, uids) +
            if CategoryOf(c, b, oversampled, uid) == Usable then [Group(uid, Surviving(c, b, oversampled, uid))] else []
  {
    assert (uids + [uid])[..|uids|] == uids;
  }

  method CollectGroups(c: Config, b: Batch, ghost oversampled: bool, unique: seq<Uid>, groups: map<Uid, seq<nat>>,
                       mask: seq<bool>, poor: set<Uid>)
    returns (usable: seq<Group>, poorCount: nat, singleCount: nat)
    requires b.Valid() && mask == FinalMask(c, b, oversampled)
    requires forall uid :: uid in unique ==> uid in groups && groups[uid] == Members(b.uids, uid)
    requires forall uid :: uid in unique ==> (uid in poor <==> PoorGroup(c, b, uid))
    ensures usable == UsableGroups(c, b, oversampled, unique)
    ensures poorCount == CountOf(c, b, oversampled, unique, Poor)
    ensures singleCount == CountOf(c, b, oversampled, unique, Single)
  {
    usable, poorCount, singleCount := [], 0, 0;
    for k := 0 to |unique|
      invariant usable == UsableGroups(c, b, oversampled, unique[..k])
      invariant poorCount == CountOf(c, b, oversampled, unique[..k], Poor)
      invariant singleCount == CountOf(c, b, oversampled, unique[..k], Single)
    {
      var uid := unique[k];
      assert uid in unique;
      assert unique[..k + 1] == unique[..k] + [uid];
      OneMoreGroup(c, b, oversampled, unique[..k], uid);
      var category, indices := Categorize(c, b, oversampled, uid, groups[uid], mask, uid in poor);
      match category
      case Usable => usable := usable + [Group(uid, indices)];
      case Poor => poorCount := poorCount + 1;
      case Single => singleCount := singleCount + 1;
    }
    assert unique[..|unique|] == unique;
  }

  // ----- choosing groups -----

  predicate IsComplete(c: Config, g: Group) {
    |g.indices| == c.targetGroupSize
  }

  function WithSize(c: Config, groups: seq<Group>, complete: bool): (r: seq<Group>)
    ensures forall g :: g in r <==> g in groups && IsComplete(c, g) == complete
    ensures Distinct(groups) ==> Distinct(r)
  {
    if groups == [] then []
    else
      var last := |groups| - 1;
      assert groups == groups[..last] + [groups[last]];
      var before := WithSize(c, groups[..last], complete);
      assert forall i :: 0 <= i < |before| ==> before[i] in before;
      if IsComplete(c, groups[last]) == complete then before + [groups[last]] else before
  }

  lemma {:induction false} SizesCover(c: Config, groups: seq<Group>)
    ensures |WithSize(c, groups, true)| + |WithSize(c, groups, false)| == |groups|
  {
    if groups != [] {
      SizesCover(c, groups[..|groups| - 1]);
    }
  }

  /** What the choice of groups promises. */
  ghost predicate IsChoice(c: Config, usable: seq<Group>, chosen: seq<Group>) {
    Distinct(chosen) && (forall k :: 0 <= k < |chosen| ==> chosen[k] in usable) &&
    |chosen| == (if c.targetNumGroups.Some? && c.targetNumGroups.value < |usable| then c.targetNumGroups.value else |usable|) &&
    CompleteFirst(c, usable, chosen) && (|chosen| == |usable| ==> chosen == usable)
  }

  /** A group that is not complete is chosen only if every complete one is. */
  ghost predicate CompleteFirst(c: Config, usable: seq<Group>, chosen: seq<Group>) {
    (forall k :: 0 <= k < |chosen| ==> IsComplete(c, chosen[k])) ||
    (forall k :: 0 <= k < |usable| && IsComplete(c, usable[k]) ==> usable[k] in chosen)
  }

  method PickRandom(groups: seq<Group>, count: nat, gen: Generator) returns (picked: seq<Group>)
    requires count <= |groups| && Distinct(groups)
    modifies gen
    ensures |picked| == count && Distinct(picked) && forall k :: 0 <= k < count ==> picked[k] in groups
  {
    var perm := gen.RandPerm(|groups|);
    picked := seq(count, i requires 0 <= i < count && count <= |perm| && forall j :: 0 <= j < |perm| ==> perm[j] < |groups| =>
      groups[perm[i]]);
    forall i, j | 0 <= i < j < count ensures picked[i] != picked[j] {
      var x, y := perm[i], perm[j];
      assert x != y;
      assert groups[if x < y then x else y] != groups[if x < y then y else x];
    }
  }

  method ChooseGroups(c: Config, usable: seq<Group>, gen: Generator) returns (chosen: seq<Group>)
    requires Distinct(usable)
    modifies gen
    ensures IsChoice(c, usable, chosen)
  {
    if c.targetNumGroups.None? || |usable| <= c.targetNumGroups.value {
      return usable;
    }
    var target := c.targetNumGroups.value;
    var complete, incomplete := WithSize(c, usable, true), WithSize(c, usable, false);
    SizesCover(c, usable);
    if |complete| >= target {
      chosen := PickRandom(complete, target, gen);
    } else {
      var picked := PickRandom(incomplete, target - |complete|, gen);
      chosen := complete + picked;
      FilledChoice(c, usable, complete, picked);
    }
  }

  lemma FilledChoice(c: Config, usable: seq<Group>, complete: seq<Group>, picked: seq<Group>)
    requires complete == WithSize(c, usable, true) && Distinct(usable) && Distinct(picked)
    requires forall k :: 0 <= k < |picked| ==> picked[k] in WithSize(c, usable, false)
    ensures Distinct(complete + picked) && (forall k :: 0 <= k < |complete + picked| ==> (complete + picked)[k] in usable)
    ensures CompleteFirst(c, usable, complete + picked)
  {
    forall k | 0 <= k < |complete| ensures complete[k] in usable && IsComplete(c, complete[k]) {
      assert complete[k] in complete;
    }
    forall k | 0 <= k < |usable| && IsComplete(c, usable[k]) ensures usable[k] in complete + picked {
      assert usable[k] in complete;
    }
  }

  // ----- choosing samples -----

  ghost predicate IsPick(c: Config, g: Group, pick: seq<nat>) {
    Distinct(pick) && (forall i :: 0 <= i < |pick| ==> pick[i] in g.indices) && |pick| == Min(|g.indices|, c.targetGroupSize)
  }

  function Signs(rewards: seq<real>, positive: bool): seq<bool> {
    seq(|rewards|, k requires 0 <= k < |rewards| => (rewards[k] > 0.0) == positive)
  }

  /** How many of the samples have a positive reward, or have not. */
  function HowMany(b: Batch, indices: seq<nat>, positive: bool): nat
    requires b.Valid() && forall i :: 0 <= i < |indices| ==> indices[i] < |b.uids|
  {
    Count(Signs(Gather(b.rewards, indices), positive))
  }

  /** For both efficiency strategies: the allocated number of positive samples comes first, and then the negative ones. */
  ghost predicate IsProportional(c: Config, b: Batch, g: Group, pick: seq<nat>)
    requires b.Valid() && forall i :: 0 <= i < |g.indices| ==> g.indices[i] < |b.uids|
  {
    0 < c.targetGroupSize < HowMany(b, g.indices, true) + HowMany(b, g.indices, false) &&
    forall k :: 0 <= k < |pick| ==>
      pick[k] < |b.uids| &&
      (b.rewards[pick[k]] > 0.0 <==>
       k < Allocate(HowMany(b, g.indices, true), HowMany(b, g.indices, false), c.targetGroupSize))
  }

  /** `i` has at least the reward per token of `j`. */
  ghost predicate AtLeastPerToken(b: Batch, i: nat, j: nat)
    requires b.Valid() && i < |b.uids| && j < |b.uids|
  {
    b.rewards[i] / (b.lengths[i] as real + 0.000001) >= b.rewards[j] / (b.lengths[j] as real + 0.000001)
  }

  /** No positive survivor left out has a higher reward per token than a picked one, and no other survivor left out is
   *  shorter than a picked one. */
  ghost predicate IsEfficient(b: Batch, g: Group, pick: seq<nat>)
    requires b.Valid()
  {
    forall i, j :: i in pick && j in g.indices && j !in pick && i < |b.uids| && j < |b.uids| ==>
      (b.rewards[i] > 0.0 && b.rewards[j] > 0.0 ==> AtLeastPerToken(b, i, j)) &&
      (b.rewards[i] <= 0.0 && b.rewards[j] <= 0.0 ==> b.lengths[i] <= b.lengths[j])
  }

  /** What the strategy makes of a group. */
  ghost predicate IsPreferred(c: Config, b: Batch, oversampled: bool, g: Group, pick: seq<nat>)
    requires b.Valid() && forall i :: 0 <= i < |g.indices| ==> g.indices[i] < |b.uids|
  {
    if oversampled && |g.indices| > c.targetGroupSize then
      (c.strategy != Uniform ==> IsProportional(c, b, g, pick)) && (c.strategy == Efficiency ==> IsEfficient(b, g, pick))
    else pick == g.indices
  }

  lemma {:induction false} WhereCounts(rewards: seq<real>, positive: bool)
    ensures |Where(rewards, positive)| == Count(Signs(rewards, positive))
  {
    if rewards != [] {
      var last := |rewards| - 1;
      WhereCounts(rewards[..last], positive);
      assert Signs(rewards, positive)[..last] == Signs(rewards[..last], positive);
    }
  }

  lemma PickIsProportional(c: Config, b: Batch, g: Group, local: seq<nat>, positive: seq<nat>, negative: seq<nat>)
    requires b.Valid() && forall i :: 0 <= i < |g.indices| ==> g.indices[i] < |b.uids|
    requires local == positive + negative && IsAllocated(positive, negative, Gather(b.rewards, g.indices), c.targetGroupSize)
    requires forall i :: 0 <= i < |local| ==> local[i] < |g.indices|
    ensures IsProportional(c, b, g, Gather(g.indices, local))
  {
    WhereCounts(Gather(b.rewards, g.indices), true);
    WhereCounts(Gather(b.rewards, g.indices), false);
    AllocatedIsSelection(positive, negative, Gather(b.rewards, g.indices), c.targetGroupSize);
  }

  /** Positions of a group's samples and the samples. */
  lemma PickedAt(indices: seq<nat>, local: seq<nat>, i: nat) returns (k: nat)
    requires (forall x :: 0 <= x < |local| ==> local[x] < |indices|) && i in Gather(indices, local)
    ensures k < |local| && indices[local[k]] == i
  {
    var pick := Gather(indices, local);
    k :| 0 <= k < |pick| && pick[k] == i;
  }

  lemma LeftOutAt(indices: seq<nat>, local: seq<nat>, j: nat) returns (k: nat)
    requires (forall x :: 0 <= x < |local| ==> local[x] < |indices|) && j in indices && j !in Gather(indices, local)
    ensures k < |indices| && indices[k] == j && k !in local
  {
    k :| 0 <= k < |indices| && indices[k] == j;
    forall x | 0 <= x < |local| ensures local[x] != k {
      assert Gather(indices, local)[x] == indices[local[x]];
    }
  }

  lemma BestInClass(rewards: seq<real>, score: seq<real>, positive: seq<nat>, negative: seq<nat>, class_: bool, a: nat, k: nat)
    requires |score| == |rewards| && NoneBetterIn(if class_ then positive else negative, rewards, class_, score)
    requires (forall x :: 0 <= x < |positive| ==> positive[x] in Where(rewards, true)) &&
             (forall x :: 0 <= x < |negative| ==> negative[x] in Where(rewards, false))
    requires a in positive + negative && k !in positive + negative && a < |rewards| && k < |rewards|
    requires (rewards[a] > 0.0) == class_ && (rewards[k] > 0.0) == class_
    ensures score[a] >= score[k]
  {
    var chosen, candidates := if class_ then positive else negative, Where(rewards, class_);
    assert a in chosen;
    var x :| 0 <= x < |chosen| && chosen[x] == a;
    assert k in candidates && k !in chosen;
    var y :| 0 <= y < |candidates| && candidates[y] == k;
  }

  lemma PositivePair(b: Batch, indices: seq<nat>, x: nat, y: nat)
    requires b.Valid() && x < |indices| && y < |indices| && forall i :: 0 <= i < |indices| ==> indices[i] < |b.uids|
    requires var score := Efficiencies(Gather(b.rewards, indices), Gather(b.lengths, indices));
             score[x] >= score[y]
    ensures AtLeastPerToken(b, indices[x], indices[y])
  {
  }

  lemma PositivesAreEfficient(b: Batch, g: Group, positive: seq<nat>, negative: seq<nat>, x: nat, y: nat)
    requires b.Valid() && forall i :: 0 <= i < |g.indices| ==> g.indices[i] < |b.uids|
    requires x in positive + negative && y !in positive + negative && x < |g.indices| && y < |g.indices|
    requires b.rewards[g.indices[x]] > 0.0 && b.rewards[g.indices[y]] > 0.0
    requires var rewards, lengths := Gather(b.rewards, g.indices), Gather(b.lengths, g.indices);
             NoneBetterIn(positive, rewards, true, Efficiencies(rewards, lengths)) &&
             NoneBetterIn(negative, rewards, false, NegatedLengths(lengths))
    ensures AtLeastPerToken(b, g.indices[x], g.indices[y])
  {
    var rewards, lengths := Gather(b.rewards, g.indices), Gather(b.lengths, g.indices);
    BestInClass(rewards, Efficiencies(rewards, lengths), positive, negative, true, x, y);
    PositivePair(b, g.indices, x, y);
  }

  lemma OthersAreShort(b: Batch, g: Group, positive: seq<nat>, negative: seq<nat>, x: nat, y: nat)
    requires b.Valid() && forall i :: 0 <= i < |g.indices| ==> g.indices[i] < |b.uids|
    requires x in positive + negative && y !in positive + negative && x < |g.indices| && y < |g.indices|
    requires b.rewards[g.indices[x]] <= 0.0 && b.rewards[g.indices[y]] <= 0.0
    requires var rewards, lengths := Gather(b.rewards, g.indices), Gather(b.lengths, g.indices);
             NoneBetterIn(positive, rewards, true, Efficiencies(rewards, lengths)) &&
             NoneBetterIn(negative, rewards, false, NegatedLengths(lengths))
    ensures b.lengths[g.indices[x]] <= b.lengths[g.indices[y]]
  {
    var rewards, lengths := Gather(b.rewards, g.indices), Gather(b.lengths, g.indices);
    BestInClass(rewards, NegatedLengths(lengths), positive, negative, false, x, y);
  }

  lemma PickIsEfficient(b: Batch, g: Group, local: seq<nat>, positive: seq<nat>, negative: seq<nat>)
    requires b.Valid() && forall i :: 0 <= i < |g.indices| ==> g.indices[i] < |b.uids|
    requires local == positive + negative && forall i :: 0 <= i < |local| ==> local[i] < |g.indices|
    requires var rewards, lengths := Gather(b.rewards, g.indices), Gather(b.lengths, g.indices);
             NoneBetterIn(positive, rewards, true, Efficiencies(rewards, lengths)) &&
             NoneBetterIn(negative, rewards, false, NegatedLengths(lengths))
    ensures IsEfficient(b, g, Gather(g.indices, local))
  {
    var pick := Gather(g.indices, local);
    forall i, j | i in pick && j in g.indices && j !in pick && i < |b.uids| && j < |b.uids|
      ensures b.rewards[i] > 0.0 && b.rewards[j] > 0.0 ==> AtLeastPerToken(b, i, j)
      ensures b.rewards[i] <= 0.0 && b.rewards[j] <= 0.0 ==> b.lengths[i] <= b.lengths[j]
    {
      var a := PickedAt(g.indices, local, i);
      var k := LeftOutAt(g.indices, local, j);
      if b.rewards[i] > 0.0 && b.rewards[j] > 0.0 {
        PositivesAreEfficient(b, g, positive, negative, local[a], k);
      } else if b.rewards[i] <= 0.0 && b.rewards[j] <= 0.0 {
        OthersAreShort(b, g, positive, negative, local[a], k);
      }
    }
  }

  method PickSamples(c: Config, b: Batch, oversampled: bool, g: Group, gen: Generator) returns (pick: seq<nat>)
    requires b.Valid() && c.Valid() && Distinct(g.indices) && forall i :: 0 <= i < |g.indices| ==> g.indices[i] < |b.uids|
    requires !oversampled ==> |g.indices| <= c.targetGroupSize
    modifies gen
    ensures IsPick(c, g, pick) && IsPreferred(c, b, oversampled, g, pick)
  {
    if oversampled && |g.indices| > c.targetGroupSize {
      var local, positive, negative :=
        SelectSamples(Gather(b.rewards, g.indices), Gather(b.lengths, g.indices), c.targetGroupSize, c.strategy, gen);
      pick := Gather(g.indices, local);
      GatherChooses(g.indices, local);
      if c.strategy != Uniform {
        PickIsProportional(c, b, g, local, positive, negative);
      }
      if c.strategy == Efficiency {
        PickIsEfficient(b, g, local, positive, negative);
      }
    } else {
      pick := g.indices;
    }
  }

  datatype Selection = Selection(indices: seq<nat>, groups: seq<Group>, picks: seq<seq<nat>>)

  /** The outcome of a filter run: a choice of the usable groups and a pick from each. */
  ghost predicate IsOutcome(c: Config, b: Batch, oversampled: bool, s: Selection)
    requires b.Valid()
  {
    IsChoice(c, UsableGroups(c, b, oversampled, Unique(b.uids)), s.groups) && ArePicks(c, s.groups, s.picks) &&
    ArePreferred(c, b, oversampled, s.groups, s.picks) && s.indices == Flatten(s.picks)
  }

  ghost predicate ArePreferred(c: Config, b: Batch, oversampled: bool, groups: seq<Group>, picks: seq<seq<nat>>)
    requires b.Valid()
  {
    |picks| == |groups| &&
    forall k :: 0 <= k < |picks| ==>
      (forall i :: 0 <= i < |groups[k].indices| ==> groups[k].indices[i] < |b.uids|) &&
      IsPreferred(c, b, oversampled, groups[k], picks[k])
  }

  ghost predicate ArePicks(c: Config, groups: seq<Group>, picks: seq<seq<nat>>) {
    |picks| == |groups| && forall k :: 0 <= k < |picks| ==> IsPick(c, groups[k], picks[k])
  }

  lemma {:induction false} JoinedMembers(picks: seq<seq<nat>>, i: nat) returns (k: nat)
    requires i in Flatten(picks)
    ensures k < |picks| && i in picks[k]
  {
    var last := |picks| - 1;
    if i in picks[last] {
      k := last;
    } else {
      k := JoinedMembers(picks[..last], i);
    }
  }

  lemma {:induction false} JoinedDistinct(picks: seq<seq<nat>>)
    requires forall k :: 0 <= k < |picks| ==> Distinct(picks[k])
    requires forall k, l, i :: 0 <= k < l < |picks| && i in picks[k] ==> i !in picks[l]
    ensures Distinct(Flatten(picks))
  {
    if picks != [] {
      var last := |picks| - 1;
      JoinedDistinct(picks[..last]);
      var before := Flatten(picks[..last]);
      forall x | 0 <= x < |before| ensures before[x] !in picks[last] {
        var k := JoinedMembers(picks[..last], before[x]);
        assert before[x] in picks[k];
      }
    }
  }

  lemma {:induction false} JoinedSize(picks: seq<seq<nat>>, low: nat, high: nat)
    requires forall k :: 0 <= k < |picks| ==> low <= |picks[k]| <= high
    ensures |picks| * low <= |Flatten(picks)| <= |picks| * high
  {
    if picks != [] {
      var last := |picks| - 1;
      JoinedSize(picks[..last], low, high);
      NextMultiple(last, low);
      NextMultiple(last, high);
    }
  }

  lemma NextMultiple(count: nat, size: nat)
    ensures (count + 1) * size == count * size + size
  {
  }

  lemma ChosenHaveDistinctUids(usable: seq<Group>, chosen: seq<Group>)
    requires DistinctUids(usable) && Distinct(chosen) && forall k :: 0 <= k < |chosen| ==> chosen[k] in usable
    ensures DistinctUids(chosen)
  {
    forall k, l | 0 <= k < l < |chosen| ensures chosen[k].uid != chosen[l].uid {
      var x :| 0 <= x < |usable| && usable[x] == chosen[k];
      var y :| 0 <= y < |usable| && usable[y] == chosen[l];
      assert x < y || y < x;
    }
  }

  lemma ChosenAreUsable(c: Config, b: Batch, oversampled: bool, s: Selection)
    requires b.Valid() && IsOutcome(c, b, oversampled, s)
    ensures forall k :: 0 <= k < |s.groups| ==> IsUsable(c, b, oversampled, s.groups[k])
    ensures DistinctUids(s.groups)
  {
    var unique := Unique(b.uids);
    forall k | 0 <= k < |unique| ensures unique[k] in b.uids {
      assert unique[k] in unique;
    }
    UsableGroupsAre(c, b, oversampled, unique);
    ChosenHaveDistinctUids(UsableGroups(c, b, oversampled, unique), s.groups);
  }

  lemma PicksStayInGroups(c: Config, b: Batch, oversampled: bool, s: Selection, k: nat, i: nat)
    requires b.Valid() && IsOutcome(c, b, oversampled, s) && k < |s.picks| && i in s.picks[k]
    requires IsUsable(c, b, oversampled, s.groups[k])
    ensures i < |b.uids| && b.uids[i] == s.groups[k].uid && Passes(c, b, oversampled, i)
  {
    var pick, indices := s.picks[k], s.groups[k].indices;
    assert IsPick(c, s.groups[k], pick);
    var x :| 0 <= x < |pick| && pick[x] == i;
    assert pick[x] in indices;
  }

  lemma PicksAreDisjoint(c: Config, b: Batch, oversampled: bool, s: Selection)
    requires b.Valid() && IsOutcome(c, b, oversampled, s) && DistinctUids(s.groups)
    requires forall k :: 0 <= k < |s.groups| ==> IsUsable(c, b, oversampled, s.groups[k])
    ensures forall k :: 0 <= k < |s.picks| ==> Distinct(s.picks[k])
    ensures forall k, l, i :: 0 <= k < l < |s.picks| && i in s.picks[k] ==> i !in s.picks[l]
  {
    forall k, l, i | 0 <= k < l < |s.picks| && i in s.picks[k] ensures i !in s.picks[l] {
      PicksStayInGroups(c, b, oversampled, s, k, i);
      if i in s.picks[l] {
        PicksStayInGroups(c, b, oversampled, s, l, i);
      }
    }
    forall k | 0 <= k < |s.picks| ensures Distinct(s.picks[k]) {
      assert IsPick(c, s.groups[k], s.picks[k]);
    }
  }

  lemma PickSize(c: Config, b: Batch, oversampled: bool, g: Group, pick: seq<nat>)
    requires b.Valid() && IsUsable(c, b, oversampled, g) && IsPick(c, g, pick)
    ensures Min(c.minGroupSize, c.targetGroupSize) <= |pick| <= c.targetGroupSize
  {
  }

  lemma PickSizes(c: Config, b: Batch, oversampled: bool, s: Selection)
    requires b.Valid() && ArePicks(c, s.groups, s.picks)
    requires forall k :: 0 <= k < |s.groups| ==> IsUsable(c, b, oversampled, s.groups[k])
    ensures forall k :: 0 <= k < |s.picks| ==> Min(c.minGroupSize, c.targetGroupSize) <= |s.picks[k]| <= c.targetGroupSize
  {
    forall k | 0 <= k < |s.picks|
      ensures Min(c.minGroupSize, c.targetGroupSize) <= |s.picks[k]| <= c.targetGroupSize
    {
      PickSize(c, b, oversampled, s.groups[k], s.picks[k]);
    }
  }

  lemma SelectedPass(c: Config, b: Batch, oversampled: bool, s: Selection)
    requires b.Valid() && IsOutcome(c, b, oversampled, s)
    requires forall k :: 0 <= k < |s.groups| ==> IsUsable(c, b, oversampled, s.groups[k])
    ensures forall i :: i in s.indices ==> i < |b.uids| && Passes(c, b, oversampled, i)
  {
    forall i | i in s.indices ensures i < |b.uids| && Passes(c, b, oversampled, i) {
      var k := JoinedMembers(s.picks, i);
      PicksStayInGroups(c, b, oversampled, s, k, i);
    }
  }

  lemma TotalWithinTarget(groups: nat, target: nat, size: nat)
    requires groups <= target
    ensures groups * size <= target * size
  {
    var spare := target - groups;
    assert target * size == groups * size + spare * size;
  }

  lemma ChosenCount(c: Config, b: Batch, oversampled: bool, s: Selection)
    requires b.Valid() && IsOutcome(c, b, oversampled, s)
    ensures |s.groups| == |s.picks|
    ensures c.targetNumGroups.Some? ==>
              |s.groups| == Min(CountOf(c, b, oversampled, Unique(b.uids), Usable), c.targetNumGroups.value)
  {
    EveryGroupIsCounted(c, b, oversampled, Unique(b.uids));
  }

  /** Main guarantee of the filter: the indices are distinct, in range and pass every mask; every chosen group
   *  gives min(its survivors, target size) samples, and the total stays within the expected batch. */
  lemma FilterGuarantee(c: Config, b: Batch, oversampled: bool, s: Selection)
    requires b.Valid() && c.Valid() && IsOutcome(c, b, oversampled, s)
    ensures Distinct(s.indices)
    ensures forall i :: i in s.indices ==> i < |b.uids| && Passes(c, b, oversampled, i)
    ensures forall k :: 0 <= k < |s.picks| ==> Min(c.minGroupSize, c.targetGroupSize) <= |s.picks[k]| <= c.targetGroupSize
    ensures |s.groups| * Min(c.minGroupSize, c.targetGroupSize) <= |s.indices| <= |s.groups| * c.targetGroupSize
    ensures c.targetNumGroups.Some? ==>
              |s.groups| == Min(CountOf(c, b, oversampled, Unique(b.uids), Usable), c.targetNumGroups.value) &&
              |s.indices| <= c.targetNumGroups.value * c.targetGroupSize
  {
    ChosenAreUsable(c, b, oversampled, s);
    PicksAreDisjoint(c, b, oversampled, s);
    JoinedDistinct(s.picks);
    SelectedPass(c, b, oversampled, s);
    PickSizes(c, b, oversampled, s);
    JoinedSize(s.picks, Min(c.minGroupSize, c.targetGroupSize), c.targetGroupSize);
    ChosenCount(c, b, oversampled, s);
    if c.targetNumGroups.Some? {
      TotalWithinTarget(|s.groups|, c.targetNumGroups.value, c.targetGroupSize);
    }
  }

  // ----- the filter -----

  datatype Stats = Stats(usable: nat, poor: nat, single: nat, complete: nat)

  function CompletePicks(c: Config, picks: seq<seq<nat>>): nat {
    if picks == [] then 0
    else CompletePicks(c, picks[..|picks| - 1]) + if |picks[|picks| - 1]| == c.targetGroupSize then 1 else 0
  }

  ghost predicate StatsMean(c: Config, b: Batch, oversampled: bool, s: Selection, stats: Stats)
    requires b.Valid()
  {
    stats.usable == CountOf(c, b, oversampled, Unique(b.uids), Usable) &&
    stats.poor == CountOf(c, b, oversampled, Unique(b.uids), Poor) &&
    stats.single == CountOf(c, b, oversampled, Unique(b.uids), Single) &&
    stats.complete == CompletePicks(c, s.picks) &&
    stats.usable + stats.poor + stats.single == |Unique(b.uids)|
  }

  // ----- the outcome in terms of the batch -----

  /** The group has all its kept samples, in batch order. */
  ghost predicate HoldsKept(c: Config, b: Batch, g: Group)
    requires b.Valid()
  {
    g.uid in UsableUids(c, b) && Ascends(g.indices) &&
    forall i: nat :: i in g.indices <==> i < |b.uids| && b.uids[i] == g.uid && IsKept(c, b, i)
  }

  ghost predicate InBatchOrder(b: Batch, groups: seq<Group>) {
    forall k, l :: 0 <= k < l < |groups| ==> OccursBefore(b.uids, groups[k].uid, groups[l].uid)
  }

  /** As many of the usable groups as are asked for, each once, in batch order if that is all of them; one that is not
   *  complete only with all complete ones. */
  ghost predicate AreChosen(c: Config, b: Batch, groups: seq<Group>)
    requires b.Valid()
  {
    DistinctUids(groups) && (forall k :: 0 <= k < |groups| ==> HoldsKept(c, b, groups[k])) &&
    |groups| == (if c.targetNumGroups.Some? && c.targetNumGroups.value < |UsableUids(c, b)| then c.targetNumGroups.value
                 else |UsableUids(c, b)|) &&
    (|groups| == |UsableUids(c, b)| ==> InBatchOrder(b, groups)) &&
    ((forall k :: 0 <= k < |groups| ==> |groups[k].indices| == c.targetGroupSize) ||
     (forall uid :: uid in UsableUids(c, b) && Count(KeptIn(c, b, uid)) == c.targetGroupSize ==>
        exists k :: 0 <= k < |groups| && groups[k].uid == uid))
  }

  /** The statistics count the usable groups, the single samples, the other groups and the picks of the target size. */
  ghost predicate AreCounted(c: Config, b: Batch, picks: seq<seq<nat>>, stats: Stats)
    requires b.Valid()
  {
    stats.usable == |UsableUids(c, b)| && stats.single == |SingleUids(c, b)| &&
    stats.usable + stats.single + stats.poor == |Elements(b.uids)| &&
    stats.complete == Count(seq(|picks|, k requires 0 <= k < |picks| => |picks[k]| == c.targetGroupSize))
  }

  lemma SurvivingAre(c: Config, b: Batch, uid: Uid)
    requires b.Valid()
    ensures var indices := Surviving(c, b, Oversampled(b.uids, c.targetGroupSize), uid);
            Ascends(indices) && |indices| == Count(KeptIn(c, b, uid)) &&
            forall i: nat :: i in indices <==> i < |b.uids| && b.uids[i] == uid && IsKept(c, b, i)
  {
    var oversampled := Oversampled(b.uids, c.targetGroupSize);
    SurvivorsAscend(b.uids, uid, FinalMask(c, b, oversampled));
    PassingCount(c, b, uid, Surviving(c, b, oversampled, uid));
    forall i: nat | i < |b.uids| ensures Passes(c, b, oversampled, i) <==> IsKept(c, b, i) {
      PassesIs(c, b, i);
    }
  }

  lemma CategoryIs(c: Config, b: Batch, uid: Uid)
    requires b.Valid() && uid in b.uids
    ensures var category := CategoryOf(c, b, Oversampled(b.uids, c.targetGroupSize), uid);
            (category == Usable <==> uid in UsableUids(c, b)) && (category == Single <==> uid in SingleUids(c, b))
  {
    PoorIs(c, b, uid);
    SurvivingAre(c, b, uid);
  }

  ghost function UidsOf(c: Config, b: Batch, oversampled: bool, uids: seq<Uid>, category: Category): set<Uid>
    requires b.Valid()
  {
    set uid | uid in uids && CategoryOf(c, b, oversampled, uid) == category
  }

  lemma OneMoreOf(c: Config, b: Batch, oversampled: bool, uids: seq<Uid>, uid: Uid, category: Category)
    requires b.Valid() && uid !in uids
    ensures |UidsOf(c, b, oversampled, uids + [uid], category)| ==
            |UidsOf(c, b, oversampled, uids, category)| + if CategoryOf(c, b, oversampled, uid) == category then 1 else 0
  {
    var before := UidsOf(c, b, oversampled, uids, category);
    assert uid !in before;
    if CategoryOf(c, b, oversampled, uid) == category {
      assert UidsOf(c, b, oversampled, uids + [uid], category) == before + {uid};
    } else {
      assert UidsOf(c, b, oversampled, uids + [uid], category) == before;
    }
  }

  lemma OneMoreCounts(c: Config, b: Batch, oversampled: bool, uids: seq<Uid>, uid: Uid, category: Category)
    requires b.Valid() && uid !in uids
    requires CountOf(c, b, oversampled, uids, category) == |UidsOf(c, b, oversampled, uids, category)|
    ensures CountOf(c, b, oversampled, uids + [uid], category) == |UidsOf(c, b, oversampled, uids + [uid], category)|
  {
    OneMoreOf(c, b, oversampled, uids, uid, category);
    OneMoreGroup(c, b, oversampled, uids, uid);
  }

  lemma {:induction false} CategoriesCount(c: Config, b: Batch, oversampled: bool, uids: seq<Uid>, category: Category)
    requires b.Valid() && Distinct(uids)
    ensures CountOf(c, b, oversampled, uids, category) == |UidsOf(c, b, oversampled, uids, category)|
  {
    if uids == [] {
      assert UidsOf(c, b, oversampled, uids, category) == {};
    } else {
      var before, uid := uids[..|uids| - 1], uids[|uids| - 1];
      CategoriesCount(c, b, oversampled, before, category);
      assert uids == before + [uid];
      OneMoreCounts(c, b, oversampled, before, uid, category);
    }
  }

  lemma CategorySizes(c: Config, b: Batch)
    requires b.Valid()
    ensures var oversampled := Oversampled(b.uids, c.targetGroupSize);
            CountOf(c, b, oversampled, Unique(b.uids), Usable) == |UsableUids(c, b)| &&
            CountOf(c, b, oversampled, Unique(b.uids), Single) == |SingleUids(c, b)|
  {
    var oversampled, unique := Oversampled(b.uids, c.targetGroupSize), Unique(b.uids);
    forall uid | uid in b.uids
      ensures CategoryOf(c, b, oversampled, uid) == Usable <==> uid in UsableUids(c, b)
      ensures CategoryOf(c, b, oversampled, uid) == Single <==> uid in SingleUids(c, b)
    {
      CategoryIs(c, b, uid);
    }
    CategoriesCount(c, b, oversampled, unique, Usable);
    CategoriesCount(c, b, oversampled, unique, Single);
    assert UidsOf(c, b, oversampled, unique, Usable) == UsableUids(c, b);
    assert UidsOf(c, b, oversampled, unique, Single) == SingleUids(c, b);
  }

  lemma UniqueSize(uids: seq<Uid>)
    ensures |Unique(uids)| == |Elements(uids)|
  {
    ListedOnce(Unique(uids), Elements(uids));
  }

  lemma {:induction false} CompletePicksCount(c: Config, picks: seq<seq<nat>>)
    ensures CompletePicks(c, picks) == Count(seq(|picks|, k requires 0 <= k < |picks| => |picks[k]| == c.targetGroupSize))
  {
    if picks != [] {
      var last := |picks| - 1;
      CompletePicksCount(c, picks[..last]);
      assert seq(|picks|, k requires 0 <= k < |picks| => |picks[k]| == c.targetGroupSize)[..last] ==
             seq(last, k requires 0 <= k < last => |picks[..last][k]| == c.targetGroupSize);
    }
  }

  lemma StatsAre(c: Config, b: Batch, s: Selection, stats: Stats)
    requires b.Valid() && StatsMean(c, b, Oversampled(b.uids, c.targetGroupSize), s, stats)
    ensures AreCounted(c, b, s.picks, stats)
  {
    CategorySizes(c, b);
    UniqueSize(b.uids);
    CompletePicksCount(c, s.picks);
  }

  lemma UsableHoldKept(c: Config, b: Batch, g: Group)
    requires b.Valid() && IsUsable(c, b, Oversampled(b.uids, c.targetGroupSize), g)
    ensures HoldsKept(c, b, g) && |g.indices| == Count(KeptIn(c, b, g.uid))
  {
    CategoryIs(c, b, g.uid);
    SurvivingAre(c, b, g.uid);
  }

  /** A usable uid has its group in the list. */
  lemma {:induction false} UsableIsListed(c: Config, b: Batch, oversampled: bool, uids: seq<Uid>, uid: Uid)
    requires b.Valid() && uid in uids && CategoryOf(c, b, oversampled, uid) == Usable
    ensures Group(uid, Surviving(c, b, oversampled, uid)) in UsableGroups(c, b, oversampled, uids)
  {
    var last := |uids| - 1;
    if uids[last] != uid {
      assert uid in uids[..last];
      UsableIsListed(c, b, oversampled, uids[..last], uid);
    }
  }

  lemma CompleteIsListed(c: Config, b: Batch, uid: Uid) returns (g: Group)
    requires b.Valid() && uid in UsableUids(c, b) && Count(KeptIn(c, b, uid)) == c.targetGroupSize
    ensures g in UsableGroups(c, b, Oversampled(b.uids, c.targetGroupSize), Unique(b.uids)) && g.uid == uid && IsComplete(c, g)
  {
    var oversampled := Oversampled(b.uids, c.targetGroupSize);
    CategoryIs(c, b, uid);
    SurvivingAre(c, b, uid);
    UsableIsListed(c, b, oversampled, Unique(b.uids), uid);
    g := Group(uid, Surviving(c, b, oversampled, uid));
  }

  lemma CompleteIsChosen(c: Config, usable: seq<Group>, chosen: seq<Group>, g: Group)
    requires g in usable && IsComplete(c, g)
    requires forall k :: 0 <= k < |usable| && IsComplete(c, usable[k]) ==> usable[k] in chosen
    ensures exists k :: 0 <= k < |chosen| && chosen[k].uid == g.uid
  {
    var k :| 0 <= k < |usable| && usable[k] == g;
    var l :| 0 <= l < |chosen| && chosen[l] == usable[k];
    assert chosen[l].uid == g.uid;
  }

  lemma CompleteAreChosen(c: Config, b: Batch, chosen: seq<Group>)
    requires b.Valid() && CompleteFirst(c, UsableGroups(c, b, Oversampled(b.uids, c.targetGroupSize), Unique(b.uids)), chosen)
    ensures (forall k :: 0 <= k < |chosen| ==> |chosen[k].indices| == c.targetGroupSize) ||
            (forall uid :: uid in UsableUids(c, b) && Count(KeptIn(c, b, uid)) == c.targetGroupSize ==>
               exists k :: 0 <= k < |chosen| && chosen[k].uid == uid)
  {
    if !(forall k :: 0 <= k < |chosen| ==> IsComplete(c, chosen[k])) {
      forall uid | uid in UsableUids(c, b) && Count(KeptIn(c, b, uid)) == c.targetGroupSize
        ensures exists k :: 0 <= k < |chosen| && chosen[k].uid == uid
      {
        var g := CompleteIsListed(c, b, uid);
        CompleteIsChosen(c, UsableGroups(c, b, Oversampled(b.uids, c.targetGroupSize), Unique(b.uids)), chosen, g);
      }
    }
  }

  lemma {:induction false} UsableInOrder(c: Config, b: Batch, oversampled: bool, uids: seq<Uid>)
    requires b.Valid() && forall k, l :: 0 <= k < l < |uids| ==> OccursBefore(b.uids, uids[k], uids[l])
    ensures InBatchOrder(b, UsableGroups(c, b, oversampled, uids))
    ensures forall k :: 0 <= k < |UsableGroups(c, b, oversampled, uids)| ==> UsableGroups(c, b, oversampled, uids)[k].uid in uids
  {
    if uids != [] {
      var last := |uids| - 1;
      UsableInOrder(c, b, oversampled, uids[..last]);
      var before := UsableGroups(c, b, oversampled, uids[..last]);
      forall k | 0 <= k < |before| ensures OccursBefore(b.uids, before[k].uid, uids[last]) {
        var x :| 0 <= x < last && uids[..last][x] == before[k].uid;
        assert OccursBefore(b.uids, uids[x], uids[last]);
      }
    }
  }

  lemma ChosenInOrder(c: Config, b: Batch, s: Selection)
    requires b.Valid() && IsOutcome(c, b, Oversampled(b.uids, c.targetGroupSize), s)
    requires |s.groups| == |UsableGroups(c, b, Oversampled(b.uids, c.targetGroupSize), Unique(b.uids))|
    ensures InBatchOrder(b, s.groups)
  {
    forall k, l | 0 <= k < l < |Unique(b.uids)| ensures OccursBefore(b.uids, Unique(b.uids)[k], Unique(b.uids)[l]) {
      UniqueInOrder(b.uids, k, l);
    }
    UsableInOrder(c, b, Oversampled(b.uids, c.targetGroupSize), Unique(b.uids));
  }

  lemma ChosenSize(c: Config, b: Batch)
    requires b.Valid()
    ensures |UsableGroups(c, b, Oversampled(b.uids, c.targetGroupSize), Unique(b.uids))| == |UsableUids(c, b)|
  {
    EveryGroupIsCounted(c, b, Oversampled(b.uids, c.targetGroupSize), Unique(b.uids));
    CategorySizes(c, b);
  }

  lemma ChosenHoldKept(c: Config, b: Batch, s: Selection)
    requires b.Valid() && IsOutcome(c, b, Oversampled(b.uids, c.targetGroupSize), s)
    ensures DistinctUids(s.groups) && forall k :: 0 <= k < |s.groups| ==> HoldsKept(c, b, s.groups[k])
  {
    ChosenAreUsable(c, b, Oversampled(b.uids, c.targetGroupSize), s);
    forall k | 0 <= k < |s.groups| ensures HoldsKept(c, b, s.groups[k]) {
      UsableHoldKept(c, b, s.groups[k]);
    }
  }

  lemma ChoiceIsChosen(c: Config, b: Batch, s: Selection)
    requires b.Valid() && IsOutcome(c, b, Oversampled(b.uids, c.targetGroupSize), s)
    ensures AreChosen(c, b, s.groups)
  {
    ChosenHoldKept(c, b, s);
    ChosenSize(c, b);
    CompleteAreChosen(c, b, s.groups);
    if |s.groups| == |UsableUids(c, b)| {
      ChosenInOrder(c, b, s);
    }
  }

  class PPOBatchFilter {
    const config: Config
    const generator: Generator
    var metrics: Stats

    constructor (config: Config)
      requires config.Valid()
      ensures this.config == config && fresh(generator)
    {
      this.config := config;
      generator := new Generator();
      metrics := Stats(0, 0, 0, 0);
    }

    method HasOversampling(unique: seq<Uid>, groups: map<Uid, seq<nat>>, uids: seq<Uid>) returns (oversampled: bool)
      requires unique == Unique(uids)
      requires forall uid :: uid in unique ==> uid in groups && groups[uid] == Members(uids, uid)
      ensures oversampled == Oversampled(uids, config.targetGroupSize)
    {
      oversampled := false;
      for k := 0 to |unique|
        invariant oversampled ==> Oversampled(uids, config.targetGroupSize)
        invariant !oversampled ==> forall uid :: uid in unique[..k] ==> |Members(uids, uid)| <= config.targetGroupSize
      {
        assert unique[..k + 1] == unique[..k] + [unique[k]];
        assert unique[k] in unique;
        if |groups[unique[k]]| > config.targetGroupSize {
          oversampled := true;
        }
      }
      assert unique[..|unique|] == unique;
    }

    /** The masks of stages 0 to 2. */
    method ComputeMask(b: Batch, unique: seq<Uid>, groups: map<Uid, seq<nat>>, oversampled: bool)
      returns (mask: seq<bool>, poor: set<Uid>)
      requires b.Valid() && unique == Unique(b.uids)
      requires forall uid :: uid in unique ==> uid in groups && groups[uid] == Members(b.uids, uid)
      ensures mask == FinalMask(config, b, oversampled)
      ensures forall uid :: uid in unique ==> (uid in poor <==> PoorGroup(config, b, uid))
    {
      var start := seq(|b.uids|, _ => true);
      if b.gate.Some? && oversampled {
        start := ApplyGate(config, b, unique, groups);
      }
      mask, poor := CheckGroups(config, b, unique, groups, start);
      mask := CheckRewards(config, b, mask);
      assert mask == FinalMask(config, b, oversampled);
    }

    method PickAll(b: Batch, oversampled: bool, chosen: seq<Group>)
      returns (indices: seq<nat>, picks: seq<seq<nat>>, complete: nat)
      requires b.Valid() && config.Valid()
      requires forall k :: 0 <= k < |chosen| ==> Distinct(chosen[k].indices) && (!oversampled ==> |chosen[k].indices| <= config.targetGroupSize)
      requires forall k, i :: 0 <= k < |chosen| && 0 <= i < |chosen[k].indices| ==> chosen[k].indices[i] < |b.uids|
      modifies generator
      ensures ArePicks(config, chosen, picks) && ArePreferred(config, b, oversampled, chosen, picks)
      ensures indices == Flatten(picks) && complete == CompletePicks(config, picks)
    {
      indices, picks, complete := [], [], 0;
      for k := 0 to |chosen|
        invariant |picks| == k && forall l :: 0 <= l < k ==> IsPick(config, chosen[l], picks[l])
        invariant forall l :: 0 <= l < k ==> IsPreferred(config, b, oversampled, chosen[l], picks[l])
        invariant indices == Flatten(picks) && complete == CompletePicks(config, picks)
      {
        var pick := PickSamples(config, b, oversampled, chosen[k], generator);
        assert (picks + [pick])[..k] == picks;
        indices, picks := indices + pick, picks + [pick];
        if |pick| == config.targetGroupSize {
          complete := complete + 1;
        }
      }
    }

    /** The whole filter. */
    method FilterBatch(b: Batch) returns (r: BatchFilter.Result<Selection>)
      requires config.Valid() && |b.rewards| == |b.lengths|
      modifies this`metrics, generator
      ensures r.Err? <==> |b.uids| != |b.rewards|
      ensures r.Ok? ==>
                var oversampled := Oversampled(b.uids, config.targetGroupSize);
                IsOutcome(config, b, oversampled, r.value) && StatsMean(config, b, oversampled, r.value, metrics)
      ensures r.Ok? ==> AreChosen(config, b, r.value.groups) && AreCounted(config, b, r.value.picks, metrics)
    {
      if |b.uids| != |b.rewards| {
        return Err(LengthMismatch);
      }
      var unique, groups := IndexGroups(b.uids);
      var oversampled := HasOversampling(unique, groups, b.uids);
      var mask, poor := ComputeMask(b, unique, groups, oversampled);
      var usable, poorCount, singleCount := CollectGroups(config, b, oversampled, unique, groups, mask, poor);
      UsableAreReady(config, b, oversampled);
      var chosen := ChooseGroups(config, usable, generator);
      var indices, picks, complete := PickAll(b, oversampled, chosen);
      EveryGroupIsCounted(config, b, oversampled, unique);
      metrics := Stats(|usable|, poorCount, singleCount, complete);
      var selection := Selection(indices, chosen, picks);
      ChoiceIsChosen(config, b, selection);
      StatsAre(config, b, selection, metrics);
      r := Ok(selection);
    }
  }

  lemma {:induction false} FilteredShrinks(c: Config, b: Batch, oversampled: bool, uid: Uid)
    requires b.Valid()
    ensures |Surviving(c, b, oversampled, uid)| <= |Members(b.uids, uid)|
  {
    MembersInRange(b.uids, uid);
  }

  /** What picking needs to know about the usable groups. */
  lemma UsableAreReady(c: Config, b: Batch, oversampled: bool)
    requires b.Valid() && oversampled == Oversampled(b.uids, c.targetGroupSize)
    ensures var usable := UsableGroups(c, b, oversampled, Unique(b.uids));
            Distinct(usable) &&
            (forall g :: g in usable ==> Distinct(g.indices) && (!oversampled ==> |g.indices| <= c.targetGroupSize)) &&
            forall g, i :: g in usable && 0 <= i < |g.indices| ==> g.indices[i] < |b.uids|
  {
    var usable := UsableGroups(c, b, oversampled, Unique(b.uids));
    forall k | 0 <= k < |Unique(b.uids)| ensures Unique(b.uids)[k] in b.uids {
      assert Unique(b.uids)[k] in Unique(b.uids);
    }
    UsableGroupsAre(c, b, oversampled, Unique(b.uids));
    forall g | g in usable ensures Distinct(g.indices) && (!oversampled ==> |g.indices| <= c.targetGroupSize) {
      FilteredShrinks(c, b, oversampled, g.uid);
    }
    forall g, i | g in usable && 0 <= i < |g.indices| ensures g.indices[i] < |b.uids| {
      assert g.indices[i] in g.indices;
    }
  }
}

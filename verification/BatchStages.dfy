/** The stages of the batch filter in terms of the batch: which samples stay, and which groups can be used. */
module BatchStages {
  import opened BatchFilter
  import opened Groups
  import opened SampleSelection
  import opened Sequences
  import opened Wrappers

  // ----- counting and adding over a group -----

  function InGroup(b: Batch, uid: Uid): (r: seq<bool>)
    ensures |r| == |b.uids|
  {
    seq(|b.uids|, i requires 0 <= i < |b.uids| => b.uids[i] == uid)
  }

  /** The samples of the group that are marked. */
  function MarkedIn(b: Batch, uid: Uid, marks: seq<bool>): (r: seq<bool>)
    requires |marks| == |b.uids|
    ensures |r| == |b.uids|
  {
    seq(|b.uids|, i requires 0 <= i < |b.uids| => b.uids[i] == uid && marks[i])
  }

  lemma MembersCount(b: Batch, uid: Uid)
    ensures |Members(b.uids, uid)| == Count(InGroup(b, uid))
  {
    ListedAreCounted(Members(b.uids, uid), InGroup(b, uid));
  }

  lemma SurvivorsCount(b: Batch, uid: Uid, mask: seq<bool>)
    requires |mask| == |b.uids|
    ensures |Survivors(b.uids, uid, mask)| == Count(MarkedIn(b, uid, mask))
  {
    ListedAreCounted(Survivors(b.uids, uid, mask), MarkedIn(b, uid, mask));
  }

  /** The values of the group, and zero for the other samples. */
  function Within(uids: seq<Uid>, uid: Uid, values: seq<real>): (r: seq<real>)
    requires |values| == |uids|
    ensures |r| == |uids|
  {
    seq(|uids|, i requires 0 <= i < |uids| => if uids[i] == uid then values[i] else 0.0)
  }

  lemma {:induction false} GatheredSum(uids: seq<Uid>, uid: Uid, values: seq<real>)
    requires |values| == |uids|
    ensures forall i :: 0 <= i < |Members(uids, uid)| ==> Members(uids, uid)[i] < |uids|
    ensures Sum(Gather(values, Members(uids, uid))) == Sum(Within(uids, uid, values))
  {
    MembersInRange(uids, uid);
    if uids != [] {
      var last := |uids| - 1;
      GatheredSum(uids[..last], uid, values[..last]);
      MembersInRange(uids[..last], uid);
      var before := Gather(values[..last], Members(uids[..last], uid));
      assert Within(uids, uid, values)[..last] == Within(uids[..last], uid, values[..last]);
      if uids[last] == uid {
        assert Gather(values, Members(uids, uid)) == before + [values[last]];
        SumAppend(before, values[last]);
      } else {
        assert Gather(values, Members(uids, uid)) == before;
      }
    }
  }

  // ----- a group whose rewards barely vary -----

  function MeanOf(b: Batch, uid: Uid): real
    requires b.Valid() && Count(InGroup(b, uid)) > 0
  {
    Sum(Within(b.uids, uid, b.rewards)) / Count(InGroup(b, uid)) as real
  }

  function SquaredFrom(rewards: seq<real>, mean: real): (r: seq<real>)
    ensures |r| == |rewards|
  {
    seq(|rewards|, i requires 0 <= i < |rewards| => (rewards[i] - mean) * (rewards[i] - mean))
  }

  /** Over the whole group, the squares of the distances to the mean add up to less than n - 1 millionths: the standard
   *  deviation of a sample is below a thousandth. */
  ghost predicate BarelyVaries(c: Config, b: Batch, uid: Uid)
    requires b.Valid()
  {
    var n := Count(InGroup(b, uid));
    c.rejectLowVariance && n >= 2 &&
    Sum(Within(b.uids, uid, SquaredFrom(b.rewards, MeanOf(b, uid)))) / (n - 1) as real < 0.000001
  }

  lemma GatheredSquares(rewards: seq<real>, members: seq<nat>, mean: real)
    requires forall i :: 0 <= i < |members| ==> members[i] < |rewards|
    ensures Squares(Gather(rewards, members), mean) == Gather(SquaredFrom(rewards, mean), members)
  {
    var squares := Squares(Gather(rewards, members), mean);
    forall i | 0 <= i < |members| ensures squares[i] == SquaredFrom(rewards, mean)[members[i]] {
      assert Gather(rewards, members)[i] == rewards[members[i]];
    }
  }

  lemma LowVarianceIs(c: Config, b: Batch, uid: Uid)
    requires b.Valid()
    ensures LowVariance(c, b, uid) <==> BarelyVaries(c, b, uid)
  {
    var members := Members(b.uids, uid);
    MembersInRange(b.uids, uid);
    MembersCount(b, uid);
    if |members| > 1 {
      var mean := MeanOf(b, uid);
      GatheredSum(b.uids, uid, b.rewards);
      assert Mean(ValuesAt(b.rewards, members)) == mean;
      GatheredSquares(b.rewards, members, mean);
      GatheredSum(b.uids, uid, SquaredFrom(b.rewards, mean));
    }
  }

  // ----- a group of long responses -----

  function BelowLimit(b: Batch, limit: nat): (r: seq<bool>)
    requires b.Valid()
    ensures |r| == |b.uids|
  {
    seq(|b.uids|, i requires 0 <= i < |b.uids| && b.Valid() => b.lengths[i] < limit)
  }

  /** With `removeClip` and a limit: no response of the group stays below the limit, or fewer than asked for do. */
  ghost predicate TooLong(c: Config, b: Batch, uid: Uid)
    requires b.Valid()
  {
    c.removeClip && c.maxResponseLength.Some? &&
    var n := Count(MarkedIn(b, uid, BelowLimit(b, c.maxResponseLength.value)));
    n == 0 || (c.minRolloutN.Some? && n < c.minRolloutN.value)
  }

  lemma {:induction false} RestIsBelow(vals: seq<nat>, marks: seq<bool>, bound: nat)
    requires |marks| == |vals| && forall i :: 0 <= i < |vals| ==> marks[i] == (vals[i] < bound)
    ensures |vals| - CountAtLeast(vals, bound) == Count(marks)
  {
    if vals != [] {
      RestIsBelow(vals[..|vals| - 1], marks[..|vals| - 1], bound);
    }
  }

  lemma {:induction false} GatheredCount(uids: seq<Uid>, uid: Uid, marks: seq<bool>, within: seq<bool>)
    requires |marks| == |uids| == |within| && forall i :: 0 <= i < |uids| ==> within[i] == (uids[i] == uid && marks[i])
    ensures forall i :: 0 <= i < |Members(uids, uid)| ==> Members(uids, uid)[i] < |uids|
    ensures Count(Gather(marks, Members(uids, uid))) == Count(within)
  {
    MembersInRange(uids, uid);
    if uids != [] {
      var last := |uids| - 1;
      GatheredCount(uids[..last], uid, marks[..last], within[..last]);
      MembersInRange(uids[..last], uid);
      var before := Gather(marks[..last], Members(uids[..last], uid));
      if uids[last] == uid {
        assert Gather(marks, Members(uids, uid)) == before + [marks[last]];
        assert (before + [marks[last]])[..|before|] == before;
      } else {
        assert Gather(marks, Members(uids, uid)) == before;
      }
    }
  }

  lemma OverLongIs(c: Config, b: Batch, uid: Uid)
    requires b.Valid()
    ensures OverLong(c, b, uid) <==> TooLong(c, b, uid)
  {
    MembersInRange(b.uids, uid);
    if c.removeClip && c.maxResponseLength.Some? {
      var limit := c.maxResponseLength.value;
      var marks := BelowLimit(b, limit);
      GatheredCount(b.uids, uid, marks, MarkedIn(b, uid, marks));
      RestIsBelow(ValuesAt(b.lengths, Members(b.uids, uid)), Gather(marks, Members(b.uids, uid)), limit);
    }
  }

  // ----- the samples that stay -----

  /** Some group has more samples than the target. */
  ghost predicate HasSpareSamples(c: Config, b: Batch) {
    exists uid :: uid in b.uids && Count(InGroup(b, uid)) > c.targetGroupSize
  }

  /** With spare samples the gate must let the sample through, and enough others of its group. */
  ghost predicate IsLetThrough(c: Config, b: Batch, i: nat)
    requires i < |b.uids|
  {
    b.gate.Some? && HasSpareSamples(c, b) ==>
      i in b.gate.value &&
      Count(seq(|b.uids|, j requires 0 <= j < |b.uids| => b.uids[j] == b.uids[i] && j in b.gate.value)) >= c.minGroupSize
  }

  /** The sample is let through, its group is good enough, and so is its reward. */
  ghost predicate IsKept(c: Config, b: Batch, i: nat)
    requires b.Valid() && i < |b.uids|
  {
    IsLetThrough(c, b, i) && !BarelyVaries(c, b, b.uids[i]) && !TooLong(c, b, b.uids[i]) &&
    (c.rewardThreshold.Some? ==> b.rewards[i] >= c.rewardThreshold.value)
  }

  lemma OversampledIs(c: Config, b: Batch)
    ensures Oversampled(b.uids, c.targetGroupSize) <==> HasSpareSamples(c, b)
  {
    forall uid | uid in b.uids ensures |Members(b.uids, uid)| == Count(InGroup(b, uid)) {
      MembersCount(b, uid);
    }
    if uid :| uid in b.uids && |Members(b.uids, uid)| > c.targetGroupSize {
      assert Count(InGroup(b, uid)) > c.targetGroupSize;
    }
  }

  lemma GateKeepsIs(c: Config, b: Batch, i: nat)
    requires i < |b.uids| && b.gate.Some?
    ensures GateKeeps(c, b, b.uids[i]) <==>
            Count(seq(|b.uids|, j requires 0 <= j < |b.uids| => b.uids[j] == b.uids[i] && j in b.gate.value)) >= c.minGroupSize
  {
    var mask := GateMask(b, |b.uids|);
    SurvivorsCount(b, b.uids[i], mask);
    assert MarkedIn(b, b.uids[i], mask) ==
           seq(|b.uids|, j requires 0 <= j < |b.uids| => b.uids[j] == b.uids[i] && j in b.gate.value);
  }

  lemma PoorIs(c: Config, b: Batch, uid: Uid)
    requires b.Valid()
    ensures PoorGroup(c, b, uid) <==> BarelyVaries(c, b, uid) || TooLong(c, b, uid)
  {
    LowVarianceIs(c, b, uid);
    OverLongIs(c, b, uid);
  }

  /** The masks let exactly these samples through. */
  lemma PassesIs(c: Config, b: Batch, i: nat)
    requires b.Valid() && i < |b.uids|
    ensures Passes(c, b, Oversampled(b.uids, c.targetGroupSize), i) <==> IsKept(c, b, i)
  {
    OversampledIs(c, b);
    PoorIs(c, b, b.uids[i]);
    if b.gate.Some? {
      GateKeepsIs(c, b, i);
    }
  }

  // ----- the groups that can be used -----

  ghost function KeptIn(c: Config, b: Batch, uid: Uid): (r: seq<bool>)
    requires b.Valid()
    ensures |r| == |b.uids|
  {
    seq(|b.uids|, i requires 0 <= i < |b.uids| && b.Valid() => b.uids[i] == uid && IsKept(c, b, i))
  }

  ghost predicate IsGood(c: Config, b: Batch, uid: Uid)
    requires b.Valid()
  {
    uid in b.uids && !BarelyVaries(c, b, uid) && !TooLong(c, b, uid)
  }

  /** Good groups that keep enough samples. */
  ghost function UsableUids(c: Config, b: Batch): set<Uid>
    requires b.Valid()
  {
    set uid | uid in b.uids && IsGood(c, b, uid) && Count(KeptIn(c, b, uid)) >= c.minGroupSize
  }

  /** Good groups that keep one sample, where one is too few. */
  ghost function SingleUids(c: Config, b: Batch): set<Uid>
    requires b.Valid()
  {
    set uid | uid in b.uids && IsGood(c, b, uid) && Count(KeptIn(c, b, uid)) == 1 < c.minGroupSize
  }

  lemma PassingCount(c: Config, b: Batch, uid: Uid, kept: seq<nat>)
    requires b.Valid() && Distinct(kept)
    requires forall i: nat :: i in kept <==> i < |b.uids| && b.uids[i] == uid && Passes(c, b, Oversampled(b.uids, c.targetGroupSize), i)
    ensures |kept| == Count(KeptIn(c, b, uid))
  {
    forall i: nat | i < |b.uids| ensures Passes(c, b, Oversampled(b.uids, c.targetGroupSize), i) <==> IsKept(c, b, i) {
      PassesIs(c, b, i);
    }
    ListedAreCounted(kept, KeptIn(c, b, uid));
  }
}

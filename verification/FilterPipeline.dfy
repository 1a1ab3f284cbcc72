/** The two filters together, and what preferring complete groups is worth. */
module FilterPipeline {
  import opened BatchFilter
  import opened BatchSelection
  import opened Groups
  import opened Sequences
  import opened Wrappers
  import TwoGate

  // ----- the precision gates as stage 0 -----

  /** The gate of the batch is what the precision filter returned for it. */
  ghost predicate IsGatedBy(b: Batch, tc: TwoGate.Config, stats: TwoGate.Stats, tb: TwoGate.Batch) {
    b.Valid() && |tb.mask| == |b.uids| && TwoGate.AfterBatch(tc, stats, tb).1.Ok? &&
    b.gate == Some(TwoGate.AfterBatch(tc, stats, tb).1.value)
  }

  ghost predicate PassesGates(tc: TwoGate.Config, tb: TwoGate.Batch, i: nat) {
    TwoGate.Gate1Fits(tc, tb) && TwoGate.Gate2Fits(tc, tb) && i < |tb.mask| &&
    TwoGate.PassesGate1(tc, tb, i) && TwoGate.PassesGate2(tc, tb, i)
  }

  /** With oversampling a sample survives all masks exactly when it passes both precision gates, its group keeps enough
   *  samples that do, and the group and the reward are good enough. */
  lemma GatedPassesIff(c: Config, b: Batch, tc: TwoGate.Config, stats: TwoGate.Stats, tb: TwoGate.Batch, i: nat)
    requires IsGatedBy(b, tc, stats, tb) && i < |b.uids|
    ensures Passes(c, b, true, i) <==>
            PassesGates(tc, tb, i) && GateKeeps(c, b, b.uids[i]) && !PoorGroup(c, b, b.uids[i]) &&
            (c.rewardThreshold.Some? ==> b.rewards[i] >= c.rewardThreshold.value)
  {
    TwoGate.ReturnsWhatPasses(tc, stats, tb);
  }

  /** Whatever is drawn from an oversampled batch has passed both gates. */
  lemma SelectedPassTheGates(c: Config, b: Batch, tc: TwoGate.Config, stats: TwoGate.Stats, tb: TwoGate.Batch, s: Selection)
    requires IsGatedBy(b, tc, stats, tb) && c.Valid()
    requires Oversampled(b.uids, c.targetGroupSize) && IsOutcome(c, b, true, s)
    ensures forall i :: i in s.indices ==> PassesGates(tc, tb, i)
  {
    FilterGuarantee(c, b, true, s);
    forall i | i in s.indices ensures PassesGates(tc, tb, i) {
      GatedPassesIff(c, b, tc, stats, tb, i);
    }
  }

  // ----- full picks -----

  /** A group that yields a pick of the target size: a complete one, or one with more survivors than that. */
  predicate IsFull(c: Config, g: Group) {
    |g.indices| >= c.targetGroupSize
  }

  function FullGroups(c: Config, groups: seq<Group>): set<Group> {
    set g | g in groups && IsFull(c, g)
  }

  lemma FullGroupsMore(c: Config, groups: seq<Group>, g: Group)
    requires g !in groups
    ensures FullGroups(c, groups + [g]) == FullGroups(c, groups) + if IsFull(c, g) then {g} else {}
    ensures |FullGroups(c, groups + [g])| == |FullGroups(c, groups)| + if IsFull(c, g) then 1 else 0
  {
    assert FullGroups(c, groups + [g]) == FullGroups(c, groups) + if IsFull(c, g) then {g} else {};
    assert g !in FullGroups(c, groups);
  }

  /** The picks of the target size are those of the full groups. */
  lemma {:induction false} CompletePicksAreFull(c: Config, groups: seq<Group>, picks: seq<seq<nat>>)
    requires ArePicks(c, groups, picks) && Distinct(groups)
    ensures CompletePicks(c, picks) == |FullGroups(c, groups)|
  {
    if picks == [] {
      assert FullGroups(c, groups) == {};
    } else {
      var last := |picks| - 1;
      assert groups == groups[..last] + [groups[last]] && groups[last] !in groups[..last];
      CompletePicksAreFull(c, groups[..last], picks[..last]);
      FullGroupsMore(c, groups[..last], groups[last]);
      assert IsPick(c, groups[last], picks[last]);
    }
  }

  lemma {:induction false} FullGroupsAreFew(c: Config, groups: seq<Group>)
    ensures |FullGroups(c, groups)| <= |groups|
    ensures (exists g :: g in groups && !IsFull(c, g)) ==> |FullGroups(c, groups)| < |groups|
  {
    if groups == [] {
      assert FullGroups(c, groups) == {};
    } else {
      var init, g := groups[..|groups| - 1], groups[|groups| - 1];
      assert groups == init + [g];
      FullGroupsAreFew(c, init);
      assert FullGroups(c, groups) == FullGroups(c, init) + if IsFull(c, g) then {g} else {};
    }
  }

  lemma {:induction false} AllFull(c: Config, groups: seq<Group>)
    requires Distinct(groups) && forall g :: g in groups ==> IsFull(c, g)
    ensures |FullGroups(c, groups)| == |groups|
  {
    if groups == [] {
      assert FullGroups(c, groups) == {};
    } else {
      var init, g := groups[..|groups| - 1], groups[|groups| - 1];
      assert groups == init + [g] && g !in init;
      AllFull(c, init);
      FullGroupsMore(c, init, g);
    }
  }

  lemma SmallerSet<T>(a: set<T>, b: set<T>)
    requires a <= b
    ensures |a| <= |b| && (|a| == |b| <==> a == b)
  {
    assert b == a + (b - a);
  }

  ghost predicate Within(chosen: seq<Group>, usable: seq<Group>) {
    forall g :: g in chosen ==> g in usable
  }

  /** No choice of as many groups yields more full picks. */
  ghost predicate IsBest(c: Config, usable: seq<Group>, chosen: seq<Group>) {
    |FullGroups(c, chosen)| == Min(|chosen|, |FullGroups(c, usable)|)
  }

  lemma BestIsBest(c: Config, usable: seq<Group>, chosen: seq<Group>, other: seq<Group>)
    requires IsBest(c, usable, chosen) && Within(other, usable) && |other| == |chosen|
    ensures |FullGroups(c, other)| <= |FullGroups(c, chosen)|
  {
    FullGroupsAreFew(c, other);
    SmallerSet(FullGroups(c, other), FullGroups(c, usable));
  }

  /** A choice is best exactly when it has full groups only, or all of them. */
  lemma BestIff(c: Config, usable: seq<Group>, chosen: seq<Group>)
    requires Distinct(chosen) && Within(chosen, usable)
    ensures IsBest(c, usable, chosen) <==>
            (forall g :: g in chosen ==> IsFull(c, g)) || (forall g :: g in usable && IsFull(c, g) ==> g in chosen)
  {
    SmallerSet(FullGroups(c, chosen), FullGroups(c, usable));
    FullGroupsAreFew(c, chosen);
    if forall g :: g in chosen ==> IsFull(c, g) {
      AllFull(c, chosen);
    }
    if forall g :: g in usable && IsFull(c, g) ==> g in chosen {
      assert FullGroups(c, chosen) == FullGroups(c, usable);
    }
    if g :| g in usable && IsFull(c, g) && g !in chosen {
      assert g in FullGroups(c, usable) && g !in FullGroups(c, chosen);
    }
  }

  /** Complete means exactly the target size: a group with more survivors is drawn with the ones that have too few. */
  ghost predicate HasOversized(c: Config, usable: seq<Group>) {
    exists g :: g in usable && IsFull(c, g) && !IsComplete(c, g)
  }

  ghost predicate HasUndersized(c: Config, usable: seq<Group>) {
    exists g :: g in usable && !IsFull(c, g)
  }

  /** Groups have to be drawn, and the complete ones are not enough. */
  predicate DrawsIncomplete(c: Config, usable: seq<Group>) {
    c.targetNumGroups.Some? && |WithSize(c, usable, true)| < c.targetNumGroups.value < |usable|
  }

  lemma ChoiceIsBest(c: Config, usable: seq<Group>, chosen: seq<Group>)
    requires Distinct(usable) && IsChoice(c, usable, chosen)
    requires !DrawsIncomplete(c, usable) || !HasOversized(c, usable) || !HasUndersized(c, usable)
    ensures IsBest(c, usable, chosen)
  {
    assert Within(chosen, usable) by {
      forall g | g in chosen ensures g in usable {}
    }
    BestIff(c, usable, chosen);
    if c.targetNumGroups.None? || c.targetNumGroups.value >= |usable| {
      AllAreChosen(usable, chosen);
    } else if |WithSize(c, usable, true)| >= c.targetNumGroups.value {
      EnoughComplete(c, usable, chosen);
    } else if !HasUndersized(c, usable) {
      forall g | g in chosen ensures IsFull(c, g) {}
    } else {
      assert forall g :: g in usable && IsFull(c, g) ==> IsComplete(c, g);
      if forall k :: 0 <= k < |chosen| ==> IsComplete(c, chosen[k]) {
        forall g | g in chosen ensures IsFull(c, g) {}
      } else {
        forall g | g in usable && IsFull(c, g) ensures g in chosen {
          var k :| 0 <= k < |usable| && usable[k] == g;
        }
      }
    }
  }

  lemma AllAreChosen(usable: seq<Group>, chosen: seq<Group>)
    requires Distinct(usable) && Distinct(chosen) && Within(chosen, usable) && |chosen| == |usable|
    ensures forall g :: g in usable ==> g in chosen
  {
    DistinctSize(usable);
    DistinctSize(chosen);
    var a, b := set g | g in chosen, set g | g in usable;
    SmallerSet(a, b);
    forall g | g in usable ensures g in chosen { assert g in b; }
  }

  lemma EnoughComplete(c: Config, usable: seq<Group>, chosen: seq<Group>)
    requires Distinct(usable) && IsChoice(c, usable, chosen) && c.targetNumGroups.Some?
    requires |WithSize(c, usable, true)| >= c.targetNumGroups.value && c.targetNumGroups.value < |usable|
    ensures forall g :: g in chosen ==> IsFull(c, g)
  {
    if !(forall k :: 0 <= k < |chosen| ==> IsComplete(c, chosen[k])) {
      var complete := WithSize(c, usable, true);
      forall g | g in complete ensures g in chosen {
        assert g in usable && IsComplete(c, g);
        var k :| 0 <= k < |usable| && usable[k] == g;
      }
      DistinctSize(complete);
      DistinctSize(chosen);
      var a, b := set g | g in complete, set g | g in chosen;
      SmallerSet(a, b);
      forall g | g in chosen ensures g in complete { assert g in b; }
    }
    forall g | g in chosen ensures IsComplete(c, g) {
      var k :| 0 <= k < |chosen| && chosen[k] == g;
    }
  }

  // ----- a draw that is not best -----

  function Without(groups: seq<Group>, g: Group): (r: seq<Group>)
    ensures forall h :: h in r <==> h in groups && h != g
    ensures Distinct(groups) ==> Distinct(r) && |r| == |groups| - if g in groups then 1 else 0
  {
    if groups == [] then []
    else
      var init, last := groups[..|groups| - 1], groups[|groups| - 1];
      assert groups == init + [last];
      var before := Without(init, g);
      assert forall i :: 0 <= i < |before| ==> before[i] in before;
      if last == g then before else before + [last]
  }

  lemma DistinctFront(g: Group, rest: seq<Group>)
    requires Distinct(rest) && g !in rest
    ensures Distinct([g] + rest)
  {
  }

  /** A draw of `k + 1` groups that takes one and leaves another. */
  lemma DrawWithout(groups: seq<Group>, taken: Group, left: Group, k: nat) returns (picked: seq<Group>)
    requires Distinct(groups) && taken in groups && left in groups && taken != left && k + 2 <= |groups|
    ensures |picked| == k + 1 && Distinct(picked) && picked[0] == taken
    ensures forall i :: 0 <= i < |picked| ==> picked[i] in groups && picked[i] != left
  {
    var rest := Without(Without(groups, left), taken);
    picked := [taken] + rest[..k];
    forall i | 0 <= i < k ensures rest[i] in groups && rest[i] != taken && rest[i] != left {
      assert rest[i] in rest;
    }
    DistinctFront(taken, rest[..k]);
  }

  lemma LeftOut(complete: seq<Group>, picked: seq<Group>, left: Group)
    requires left !in complete && forall i :: 0 <= i < |picked| ==> picked[i] != left
    ensures left !in complete + picked
  {
  }

  /** The draw may take an undersized group and leave an oversized one. */
  lemma SomeChoiceIsWorse(c: Config, usable: seq<Group>) returns (chosen: seq<Group>)
    requires Distinct(usable) && DrawsIncomplete(c, usable) && HasOversized(c, usable) && HasUndersized(c, usable)
    ensures IsChoice(c, usable, chosen) && !IsBest(c, usable, chosen)
  {
    var over: Group :| over in usable && IsFull(c, over) && !IsComplete(c, over);
    var under: Group :| under in usable && !IsFull(c, under);
    var complete, incomplete := WithSize(c, usable, true), WithSize(c, usable, false);
    SizesCover(c, usable);
    var picked := DrawWithout(incomplete, under, over, c.targetNumGroups.value - |complete| - 1);
    chosen := complete + picked;
    FilledChoice(c, usable, complete, picked);
    LeftOut(complete, picked, over);
    assert chosen[|complete|] == under && under in chosen;
    BestIff(c, usable, chosen);
  }

  /** The choice yields as many full picks as any of its size, whatever is drawn, exactly when nothing incomplete has
   *  to be drawn, or the incomplete groups are all oversized or all undersized. */
  lemma EveryChoiceIsBestIff(c: Config, usable: seq<Group>)
    requires Distinct(usable)
    ensures (forall chosen :: IsChoice(c, usable, chosen) ==> IsBest(c, usable, chosen)) <==>
            !DrawsIncomplete(c, usable) || !HasOversized(c, usable) || !HasUndersized(c, usable)
  {
    if !DrawsIncomplete(c, usable) || !HasOversized(c, usable) || !HasUndersized(c, usable) {
      forall chosen | IsChoice(c, usable, chosen) ensures IsBest(c, usable, chosen) {
        ChoiceIsBest(c, usable, chosen);
      }
    } else {
      var chosen := SomeChoiceIsWorse(c, usable);
    }
  }
}

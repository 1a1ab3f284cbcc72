/** Choosing the samples of an oversampled group: proportional slots for positive and negative rewards. */
module SampleSelection {
  import opened Blocks
  import opened Sequences
  import SnakeSort

  datatype Strategy = Uniform | Efficiency | EfficiencyStochastic

  /** The random generator of the filter: whatever its state, it draws distinct indices. */
  class Generator {
    var draws: nat

    constructor () {
      draws := 0;
    }

    method RandPerm(n: nat) returns (p: seq<nat>)
      modifies this
      ensures IsPermutation(p, n)
    {
      draws := draws + 1;
      p := seq(n, i requires 0 <= i => i);
    }

    /** Sampling without replacement; the weights only shape the distribution. */
    method Multinomial(n: nat, k: nat) returns (p: seq<nat>)
      requires k <= n
      modifies this
      ensures |p| == k && Distinct(p) && forall i :: 0 <= i < k ==> p[i] < n
    {
      draws := draws + 1;
      p := seq(k, i requires 0 <= i => n - k + i);
    }
  }

  // ----- rounding and allocation -----

  /** `round(a / b)`: to the nearest integer, ties to the even one. */
  function RoundHalfEven(a: nat, b: nat): nat
    requires b > 0
  {
    var q, r := a / b, a % b;
    if 2 * r < b then q
    else if 2 * r > b then q + 1
    else if q % 2 == 0 then q
    else q + 1
  }

  function Distance(m: int, a: nat, b: nat): nat {
    if m * b >= a then m * b - a else a - m * b
  }

  lemma SpreadUp(m: int, q: int, b: nat)
    requires m >= q + 1
    ensures m * b >= q * b + b
  {
    var d := m - q - 1;
    assert d * b >= 0;
    assert m == q + 1 + d;
    assert m * b == q * b + b + d * b;
  }

  lemma Spread(m: int, q: int, b: nat)
    ensures m >= q + 1 ==> m * b >= q * b + b
    ensures m <= q - 1 ==> m * b <= q * b - b
  {
    if m >= q + 1 { SpreadUp(m, q, b); }
    if m <= q - 1 { SpreadUp(q, m, b); }
  }

  /** No integer is closer, and of two equally close ones it is the even one. */
  lemma RoundIsNearest(a: nat, b: nat, m: int)
    requires b > 0
    ensures Distance(RoundHalfEven(a, b), a, b) <= Distance(m, a, b)
    ensures m != RoundHalfEven(a, b) && Distance(RoundHalfEven(a, b), a, b) == Distance(m, a, b) ==>
              RoundHalfEven(a, b) % 2 == 0
  {
    var q := a / b;
    assert a == q * b + a % b;
    assert (q + 1) * b == q * b + b;
    Spread(m, q, b);
    Spread(m, q + 1, b);
  }

  /** Rounding does not cross an integer. */
  lemma RoundIsBetween(a: nat, b: nat, lo: int, hi: int)
    requires b > 0 && lo * b <= a <= hi * b
    ensures lo <= RoundHalfEven(a, b) <= hi
  {
    var q := a / b;
    assert a == q * b + a % b;
    assert (q + 1) * b == q * b + b;
    Spread(lo, q, b);
    Spread(lo, q + 1, b);
    Spread(hi, q, b);
  }

  /** Slots for the positive samples; the rest of the `target` slots go to the negative ones. */
  function Allocate(positives: nat, negatives: nat, target: nat): (slots: nat)
    requires 0 < target < positives + negatives
    ensures slots <= target
  {
    if positives > 0 && negatives > 0 then
      var rounded := RoundHalfEven(target * positives, positives + negatives);
      var capped := if rounded < target - 1 then rounded else target - 1;
      var slots := if capped > 1 then capped else 1;
      if target - slots == 0 then target - 1 else slots
    else if positives > 0 then target
    else 0
  }

  lemma ShareBounds(p: nat, q: nat, t: nat)
    requires 0 < t < p + q
    ensures t * p <= p * (p + q)
    ensures (t - q) * (p + q) <= t * p
  {
    var total := p + q;
    assert p * total - t * p == p * (total - t);
    assert t * p - (t - q) * total == t * p - t * total + q * total;
    assert t * total == t * p + t * q;
    assert q * total - t * q == q * (total - t);
  }

  /** The slots never ask for more samples than a class has, so exactly `target` samples come out. */
  lemma AllocationFits(positives: nat, negatives: nat, target: nat)
    requires 0 < target < positives + negatives
    ensures Allocate(positives, negatives, target) <= positives
    ensures target - Allocate(positives, negatives, target) <= negatives
  {
    if positives > 0 && negatives > 0 {
      ShareBounds(positives, negatives, target);
      RoundIsBetween(target * positives, positives + negatives, target - negatives, positives);
    }
  }

  /** With two slots or more both classes are represented, as close to their share as that allows. */
  lemma AllocationIsProportional(positives: nat, negatives: nat, target: nat, m: nat)
    requires 2 <= target < positives + negatives && positives > 0 && negatives > 0 && 1 <= m <= target - 1
    ensures var slots := Allocate(positives, negatives, target);
            1 <= slots <= target - 1 &&
            Distance(slots, target * positives, positives + negatives) <= Distance(m, target * positives, positives + negatives)
  {
    var a, b := target * positives, positives + negatives;
    var rounded := RoundHalfEven(a, b);
    RoundIsNearest(a, b, m);
    if rounded < 1 {
      assert rounded == 0;
      NearestFromBelow(a, b, 1, m);
    } else if rounded > target - 1 {
      NearestFromAbove(a, b, target - 1, m);
    }
  }

  lemma FloorOf(a: nat, b: nat)
    requires b > 0
    ensures (a / b) * b <= a < (a / b) * b + b
  {
    assert a == (a / b) * b + a % b;
  }

  lemma NearestFromBelow(a: nat, b: nat, bound: nat, m: nat)
    requires b > 0 && RoundHalfEven(a, b) < bound <= m
    ensures Distance(bound, a, b) <= Distance(m, a, b)
  {
    FloorOf(a, b);
    Spread(bound, a / b, b);
    BlockStart(bound, m, b);
  }

  lemma NearestFromAbove(a: nat, b: nat, bound: nat, m: nat)
    requires b > 0 && RoundHalfEven(a, b) > bound >= m
    ensures Distance(bound, a, b) <= Distance(m, a, b)
  {
    FloorOf(a, b);
    BlockStart(bound, a / b, b);
    BlockStart(m, bound, b);
  }

  /** With one slot the share of the positives is rounded away: a negative sample is taken whatever the ratio. */
  lemma SingleSlotIsNegative(positives: nat, negatives: nat)
    requires positives > 0 && negatives > 0
    ensures Allocate(positives, negatives, 1) == 0
  {
  }

  // ----- the two classes -----

  /** Indices of the samples with a positive reward, or of the others, in ascending order. */
  function Where(rewards: seq<real>, positive: bool): (r: seq<nat>)
    ensures Distinct(r)
    ensures forall i: nat :: i in r <==> i < |rewards| && (rewards[i] > 0.0) == positive
  {
    if rewards == [] then []
    else
      var last := |rewards| - 1;
      var before := Where(rewards[..last], positive);
      assert forall i :: 0 <= i < |before| ==> before[i] in before;
      if (rewards[last] > 0.0) == positive then before + [last] else before
  }

  lemma {:induction false} ClassesCover(rewards: seq<real>)
    ensures |Where(rewards, true)| + |Where(rewards, false)| == |rewards|
  {
    if rewards != [] {
      ClassesCover(rewards[..|rewards| - 1]);
    }
  }

  ghost predicate ChosenFrom(chosen: seq<nat>, candidates: seq<nat>, k: nat) {
    |chosen| == k && Distinct(chosen) && forall i :: 0 <= i < |chosen| ==> chosen[i] in candidates
  }

  lemma GatherChooses(candidates: seq<nat>, order: seq<nat>)
    requires Distinct(candidates) && Distinct(order) && forall i :: 0 <= i < |order| ==> order[i] < |candidates|
    ensures ChosenFrom(Gather(candidates, order), candidates, |order|)
  {
    var chosen := Gather(candidates, order);
    forall i, j | 0 <= i < j < |chosen| ensures chosen[i] != chosen[j] {
      var a, b := order[i], order[j];
      assert a != b;
      assert candidates[if a < b then a else b] != candidates[if a < b then b else a];
    }
  }

  /** No candidate left out scores higher than a chosen one. */
  ghost predicate NoneBetter(chosen: seq<nat>, candidates: seq<nat>, score: seq<real>)
    requires forall i :: 0 <= i < |candidates| ==> candidates[i] < |score|
    requires forall i :: 0 <= i < |chosen| ==> chosen[i] in candidates
  {
    forall i, j :: 0 <= i < |chosen| && 0 <= j < |candidates| && candidates[j] !in chosen ==>
      score[chosen[i]] >= score[candidates[j]]
  }

  ghost predicate BestFirst(chosen: seq<nat>, score: seq<real>) {
    forall i, j :: 0 <= i < j < |chosen| && chosen[i] < |score| && chosen[j] < |score| ==> score[chosen[i]] >= score[chosen[j]]
  }

  /** The first `k` candidates by descending score, as `argsort` orders them. */
  method BestBy(candidates: seq<nat>, score: seq<real>, k: nat) returns (chosen: seq<nat>)
    requires Distinct(candidates) && k <= |candidates| && forall i :: 0 <= i < |candidates| ==> candidates[i] < |score|
    ensures ChosenFrom(chosen, candidates, k) && NoneBetter(chosen, candidates, score) && BestFirst(chosen, score)
  {
    var keys := seq(|candidates|, i requires 0 <= i < |candidates| => score[candidates[i]]);
    var order := SnakeSort.SortDescending(keys);
    chosen := Gather(candidates, order[..k]);
    GatherChooses(candidates, order[..k]);
    FirstAreBest(candidates, score, keys, order, k);
  }

  lemma FirstAreBest(candidates: seq<nat>, score: seq<real>, keys: seq<real>, order: seq<nat>, k: nat)
    requires (forall i :: 0 <= i < |candidates| ==> candidates[i] < |score|) && k <= |candidates| == |keys|
    requires forall i :: 0 <= i < |candidates| ==> keys[i] == score[candidates[i]]
    requires SnakeSort.IsStableDescending(order, keys)
    ensures NoneBetter(Gather(candidates, order[..k]), candidates, score) && BestFirst(Gather(candidates, order[..k]), score)
  {
    var chosen := Gather(candidates, order[..k]);
    forall i, j | 0 <= i < j < |chosen| ensures score[chosen[i]] >= score[chosen[j]] {
      assert SnakeSort.Before(keys, order[i], order[j]);
    }
    forall i, j | 0 <= i < |chosen| && 0 <= j < |candidates| && candidates[j] !in chosen
      ensures score[chosen[i]] >= score[candidates[j]]
    {
      PermutationHits(order, |candidates|, j);
      var at :| 0 <= at < |order| && order[at] == j;
      forall a | 0 <= a < k ensures order[a] != j {
        assert chosen[a] == candidates[order[a]] && chosen[a] in chosen;
      }
      assert SnakeSort.Before(keys, order[i], order[at]);
    }
  }

  const EPSILON := 0.000001

  function Efficiencies(rewards: seq<real>, lengths: seq<nat>): seq<real>
    requires |rewards| == |lengths|
  {
    seq(|rewards|, i requires 0 <= i < |rewards| => rewards[i] / (lengths[i] as real + EPSILON))
  }

  function NegatedLengths(lengths: seq<nat>): seq<real> {
    seq(|lengths|, i requires 0 <= i < |lengths| => -(lengths[i] as real))
  }

  /** Fills the slots of one class: all of it, the best ones, or a random draw. */
  method FillSlots(candidates: seq<nat>, score: seq<real>, slots: nat, deterministic: bool, gen: Generator)
    returns (chosen: seq<nat>)
    requires Distinct(candidates) && slots <= |candidates| && forall i :: 0 <= i < |candidates| ==> candidates[i] < |score|
    modifies gen
    ensures ChosenFrom(chosen, candidates, slots)
    ensures slots == |candidates| ==> chosen == candidates
    ensures deterministic ==> NoneBetter(chosen, candidates, score) && (slots < |candidates| ==> BestFirst(chosen, score))
  {
    if slots == 0 {
      chosen := [];
    } else if |candidates| <= slots {
      chosen := candidates;
    } else if deterministic {
      chosen := BestBy(candidates, score, slots);
    } else {
      var sampled := gen.Multinomial(|candidates|, slots);
      chosen := Gather(candidates, sampled);
      GatherChooses(candidates, sampled);
    }
  }

  /** What selection promises: exactly `target` distinct samples, the allocated number of positive ones first. */
  ghost predicate IsSelection(selected: seq<nat>, rewards: seq<real>, target: nat, slots: nat) {
    |selected| == target && Distinct(selected) && slots <= target &&
    forall i :: 0 <= i < |selected| ==> selected[i] < |rewards| && (rewards[selected[i]] > 0.0 <==> i < slots)
  }

  lemma JoinClasses(rewards: seq<real>, positive: seq<nat>, negative: seq<nat>)
    requires ChosenFrom(positive, Where(rewards, true), |positive|) && ChosenFrom(negative, Where(rewards, false), |negative|)
    ensures IsSelection(positive + negative, rewards, |positive| + |negative|, |positive|)
  {
    var both := positive + negative;
    forall i | 0 <= i < |both| ensures both[i] < |rewards| && (rewards[both[i]] > 0.0 <==> i < |positive|) {
      assert i < |positive| ==> both[i] == positive[i];
      assert i >= |positive| ==> both[i] == negative[i - |positive|];
    }
  }

  lemma WhereInRange(rewards: seq<real>, positive: bool)
    ensures forall i :: 0 <= i < |Where(rewards, positive)| ==> Where(rewards, positive)[i] < |rewards|
  {
    var r := Where(rewards, positive);
    forall i | 0 <= i < |r| ensures r[i] < |rewards| {
      assert r[i] in r;
    }
  }

  /** `positive` and `negative` hold the allocated numbers of samples of the two classes. */
  ghost predicate IsAllocated(positive: seq<nat>, negative: seq<nat>, rewards: seq<real>, target: nat) {
    0 < target < |Where(rewards, true)| + |Where(rewards, false)| &&
    ChosenFrom(positive, Where(rewards, true), Allocate(|Where(rewards, true)|, |Where(rewards, false)|, target)) &&
    ChosenFrom(negative, Where(rewards, false), target - |positive|)
  }

  method SelectByClass(rewards: seq<real>, lengths: seq<nat>, target: nat, deterministic: bool, gen: Generator)
    returns (positive: seq<nat>, negative: seq<nat>)
    requires |rewards| == |lengths| && 0 < target < |rewards|
    modifies gen
    ensures IsAllocated(positive, negative, rewards, target)
    ensures deterministic ==>
              NoneBetterIn(positive, rewards, true, Efficiencies(rewards, lengths)) &&
              NoneBetterIn(negative, rewards, false, NegatedLengths(lengths))
  {
    var efficiency := Efficiencies(rewards, lengths);
    var positiveIndices, negativeIndices := Where(rewards, true), Where(rewards, false);
    ClassesCover(rewards);
    WhereInRange(rewards, true);
    WhereInRange(rewards, false);
    var slots := Allocate(|positiveIndices|, |negativeIndices|, target);
    AllocationFits(|positiveIndices|, |negativeIndices|, target);
    positive := FillSlots(positiveIndices, efficiency, slots, deterministic, gen);
    negative := FillSlots(negativeIndices, NegatedLengths(lengths), target - slots, deterministic, gen);
  }

  /** Within its class, no sample left out scores higher than a chosen one. */
  ghost predicate NoneBetterIn(chosen: seq<nat>, rewards: seq<real>, positive: bool, score: seq<real>) {
    |score| == |rewards| && (forall i :: 0 <= i < |chosen| ==> chosen[i] in Where(rewards, positive)) &&
    (forall i :: 0 <= i < |Where(rewards, positive)| ==> Where(rewards, positive)[i] < |rewards|) &&
    NoneBetter(chosen, Where(rewards, positive), score)
  }

  lemma AllocatedIsSelection(positive: seq<nat>, negative: seq<nat>, rewards: seq<real>, target: nat)
    requires IsAllocated(positive, negative, rewards, target)
    ensures IsSelection(positive + negative, rewards, target, |positive|)
  {
    JoinClasses(rewards, positive, negative);
  }

  /** Exactly `target` samples of an oversampled group, in whatever way the strategy prefers them. */
  method SelectSamples(rewards: seq<real>, lengths: seq<nat>, target: nat, strategy: Strategy, gen: Generator)
    returns (selected: seq<nat>, ghost positive: seq<nat>, ghost negative: seq<nat>)
    requires |rewards| == |lengths| && 0 < target < |rewards|
    modifies gen
    ensures |selected| == target && Distinct(selected) && forall i :: 0 <= i < target ==> selected[i] < |rewards|
    ensures strategy != Uniform ==> selected == positive + negative && IsAllocated(positive, negative, rewards, target)
    ensures strategy == Efficiency ==>
              NoneBetterIn(positive, rewards, true, Efficiencies(rewards, lengths)) &&
              NoneBetterIn(negative, rewards, false, NegatedLengths(lengths))
  {
    if strategy == Uniform {
      var perm := gen.RandPerm(|rewards|);
      selected, positive, negative := perm[..target], [], [];
    } else {
      var chosenPositive, chosenNegative := SelectByClass(rewards, lengths, target, strategy == Efficiency, gen);
      AllocatedIsSelection(chosenPositive, chosenNegative, rewards, target);
      selected, positive, negative := chosenPositive + chosenNegative, chosenPositive, chosenNegative;
    }
  }
}

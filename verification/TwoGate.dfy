/** The two-gate precision filter and its running rejection statistics. */
module TwoGate {
  import opened Reals
  import opened Sequences
  import opened Wrappers

  datatype Error = ShapeMismatch
  type Result<T> = Wrappers.Result<T, Error>

  datatype Config = Config(enableGate1: bool, biasEpsilon: real, enableGate2: bool, instabilityThreshold: real,
                           saveRejectionStats: bool)

  /** One row per sample; the log-probabilities may be missing. */
  datatype Batch = Batch(mask: seq<seq<bool>>, oldLogProbs: Option<seq<seq<real>>>, rolloutLogProbs: Option<seq<seq<real>>>,
                         topLogProbs: Option<seq<seq<real>>>)

  datatype Bucket = Short | Medium | Long | VeryLong

  function LengthBucket(length: nat): Bucket {
    if length < 512 then Short else if length < 2048 then Medium else if length < 8192 then Long else VeryLong
  }

  // ----- the gates on one sample -----

  function MaskedSum(values: seq<real>, mask: seq<bool>): real
    requires |values| == |mask|
  {
    if values == [] then 0.0
    else
      var last := |values| - 1;
      MaskedSum(values[..last], mask[..last]) + if mask[last] then values[last] else 0.0
  }

  /** The mean over the valid tokens, with the guard against an empty mask. */
  function MaskedMean(values: seq<real>, mask: seq<bool>): real
    requires |values| == |mask|
  {
    MaskedSum(values, mask) / (Count(mask) as real + 0.00000001)
  }

  function Abs(x: real): real {
    if x < 0.0 then -x else x
  }

  function Bias(actor: seq<real>, rollout: seq<real>, mask: seq<bool>): real
    requires |actor| == |rollout| == |mask|
  {
    Abs(MaskedMean(actor, mask) - MaskedMean(rollout, mask))
  }

  /** The smallest difference over the valid tokens; `None` stands for infinity. */
  function MinDiff(rollout: seq<real>, top: seq<real>, mask: seq<bool>): Option<real>
    requires |rollout| == |top| == |mask|
  {
    if mask == [] then None
    else
      var last := |mask| - 1;
      var before := MinDiff(rollout[..last], top[..last], mask[..last]);
      var diff := rollout[last] - top[last];
      if !mask[last] || (before.Some? && before.value <= diff) then before else Some(diff)
  }

  predicate IsStable(rollout: seq<real>, top: seq<real>, mask: seq<bool>, threshold: real)
    requires |rollout| == |top| == |mask|
  {
    var least := MinDiff(rollout, top, mask);
    least.None? || least.value > threshold
  }

  /** The tokens the statistics call unstable. */
  function UnstableTokens(rollout: seq<real>, top: seq<real>, mask: seq<bool>, threshold: real): nat
    requires |rollout| == |top| == |mask|
  {
    if mask == [] then 0
    else
      var last := |mask| - 1;
      UnstableTokens(rollout[..last], top[..last], mask[..last], threshold) +
      if mask[last] && rollout[last] - top[last] < threshold then 1 else 0
  }

  /** A sample passes gate 2 exactly when every valid token lies above the threshold. */
  lemma {:induction false} StableMeans(rollout: seq<real>, top: seq<real>, mask: seq<bool>, threshold: real)
    requires |rollout| == |top| == |mask|
    ensures IsStable(rollout, top, mask, threshold) <==>
            forall j :: 0 <= j < |mask| && mask[j] ==> rollout[j] - top[j] > threshold
  {
    if mask != [] {
      var last := |mask| - 1;
      StableMeans(rollout[..last], top[..last], mask[..last], threshold);
      assert (forall j :: 0 <= j < |mask| && mask[j] ==> rollout[j] - top[j] > threshold) <==>
             (forall j :: 0 <= j < last && mask[..last][j] ==> rollout[..last][j] - top[..last][j] > threshold) &&
             (mask[last] ==> rollout[last] - top[last] > threshold);
    }
  }

  /** The count and the gate disagree on exactly one case: a sample whose smallest difference is the threshold
   *  itself is rejected although no token of it is counted as unstable. */
  lemma {:induction false} RejectedWithoutUnstableTokens(rollout: seq<real>, top: seq<real>, mask: seq<bool>, threshold: real)
    requires |rollout| == |top| == |mask|
    ensures !IsStable(rollout, top, mask, threshold) && UnstableTokens(rollout, top, mask, threshold) == 0 <==>
            MinDiff(rollout, top, mask) == Some(threshold)
    ensures UnstableTokens(rollout, top, mask, threshold) == 0 <==>
            (MinDiff(rollout, top, mask).Some? ==> MinDiff(rollout, top, mask).value >= threshold)
  {
    if mask != [] {
      var last := |mask| - 1;
      RejectedWithoutUnstableTokens(rollout[..last], top[..last], mask[..last], threshold);
    }
  }

  // ----- the gates on a batch -----

  predicate SameShape(t: seq<seq<real>>, mask: seq<seq<bool>>) {
    |t| == |mask| && forall i :: 0 <= i < |t| ==> |t[i]| == |mask[i]|
  }

  predicate Gate1Active(cfg: Config, b: Batch) {
    cfg.enableGate1 && b.oldLogProbs.Some? && b.rolloutLogProbs.Some?
  }

  predicate Gate2Active(cfg: Config, b: Batch) {
    cfg.enableGate2 && b.rolloutLogProbs.Some? && b.topLogProbs.Some?
  }

  predicate Gate1Fits(cfg: Config, b: Batch) {
    Gate1Active(cfg, b) ==> SameShape(b.oldLogProbs.value, b.mask) && SameShape(b.rolloutLogProbs.value, b.mask)
  }

  predicate Gate2Fits(cfg: Config, b: Batch) {
    Gate2Active(cfg, b) ==> SameShape(b.rolloutLogProbs.value, b.mask) && SameShape(b.topLogProbs.value, b.mask)
  }

  predicate PassesGate1(cfg: Config, b: Batch, i: nat)
    requires Gate1Fits(cfg, b) && i < |b.mask|
  {
    Gate1Active(cfg, b) ==> Bias(b.oldLogProbs.value[i], b.rolloutLogProbs.value[i], b.mask[i]) < cfg.biasEpsilon
  }

  predicate PassesGate2(cfg: Config, b: Batch, i: nat)
    requires Gate2Fits(cfg, b) && i < |b.mask|
  {
    Gate2Active(cfg, b) ==>
      IsStable(b.rolloutLogProbs.value[i], b.topLogProbs.value[i], b.mask[i], cfg.instabilityThreshold)
  }

  function Rejected1(cfg: Config, b: Batch): (r: seq<bool>)
    requires Gate1Fits(cfg, b)
    ensures |r| == |b.mask|
  {
    seq(|b.mask|, i requires 0 <= i < |b.mask| => !PassesGate1(cfg, b, i))
  }

  function Rejected2(cfg: Config, b: Batch): (r: seq<bool>)
    requires Gate2Fits(cfg, b)
    ensures |r| == |b.mask|
  {
    seq(|b.mask|, i requires 0 <= i < |b.mask| => !PassesGate2(cfg, b, i))
  }

  function Both(a: seq<bool>, b: seq<bool>): (r: seq<bool>)
    requires |a| == |b|
    ensures |r| == |a|
  {
    seq(|a|, i requires 0 <= i < |a| => a[i] && b[i])
  }

  function Neither(a: seq<bool>, b: seq<bool>): (r: seq<bool>)
    requires |a| == |b|
    ensures |r| == |a|
  {
    seq(|a|, i requires 0 <= i < |a| => !a[i] && !b[i])
  }

  function Where(mask: seq<bool>): (r: seq<nat>)
    ensures |r| == Count(mask)
    ensures forall i: nat :: i in r <==> i < |mask| && mask[i]
    ensures Distinct(r)
  {
    if mask == [] then []
    else
      var last := |mask| - 1;
      var before := Where(mask[..last]);
      assert forall i :: 0 <= i < |before| ==> before[i] in before;
      if mask[last] then before + [last] else before
  }

  // ----- the statistics -----

  datatype Stats = Stats(total: nat, gate1: nat, gate2: nat, both: nat, biases: seq<real>, unstable: seq<nat>,
                         buckets: map<Bucket, (nat, nat)>, history: seq<real>)

  const EMPTY := Stats(0, 0, 0, 0, [], [], map[], [])
  const MAX_BATCH_HISTORY := 100

  function At(buckets: map<Bucket, (nat, nat)>, bucket: Bucket): (nat, nat) {
    if bucket in buckets then buckets[bucket] else (0, 0)
  }

  /** One sample of the given length more, rejected or not. */
  function Bucketed(buckets: map<Bucket, (nat, nat)>, lengths: seq<nat>, rejected: seq<bool>): map<Bucket, (nat, nat)>
    requires |lengths| == |rejected|
  {
    if lengths == [] then buckets
    else
      var last := |lengths| - 1;
      var before := Bucketed(buckets, lengths[..last], rejected[..last]);
      OneMoreIn(before, LengthBucket(lengths[last]), rejected[last])
  }

  function OneMoreIn(buckets: map<Bucket, (nat, nat)>, bucket: Bucket, rejected: bool): map<Bucket, (nat, nat)> {
    buckets[bucket := (At(buckets, bucket).0 + (if rejected then 1 else 0), At(buckets, bucket).1 + 1)]
  }

  function Lengths(b: Batch): (r: seq<nat>)
    ensures |r| == |b.mask|
  {
    seq(|b.mask|, i requires 0 <= i < |b.mask| => Count(b.mask[i]))
  }

  function Biases(b: Batch): (r: seq<real>)
    requires b.oldLogProbs.Some? && b.rolloutLogProbs.Some?
    requires SameShape(b.oldLogProbs.value, b.mask) && SameShape(b.rolloutLogProbs.value, b.mask)
    ensures |r| == |b.mask|
  {
    seq(|b.mask|, i requires 0 <= i < |b.mask| => Bias(b.oldLogProbs.value[i], b.rolloutLogProbs.value[i], b.mask[i]))
  }

  function UnstableCounts(b: Batch, threshold: real): (r: seq<nat>)
    requires b.rolloutLogProbs.Some? && b.topLogProbs.Some?
    requires SameShape(b.rolloutLogProbs.value, b.mask) && SameShape(b.topLogProbs.value, b.mask)
    ensures |r| == |b.mask|
  {
    seq(|b.mask|, i requires 0 <= i < |b.mask| =>
      UnstableTokens(b.rolloutLogProbs.value[i], b.topLogProbs.value[i], b.mask[i], threshold))
  }

  function AfterGate1(cfg: Config, s: Stats, b: Batch): Stats
    requires Gate1Fits(cfg, b)
  {
    if Gate1Active(cfg, b) && cfg.saveRejectionStats then
      s.(biases := s.biases + Biases(b), buckets := Bucketed(s.buckets, Lengths(b), Rejected1(cfg, b)))
    else s
  }

  function AfterGate2(cfg: Config, s: Stats, b: Batch): Stats
    requires Gate2Fits(cfg, b)
  {
    if Gate2Active(cfg, b) && cfg.saveRejectionStats then
      s.(unstable := s.unstable + UnstableCounts(b, cfg.instabilityThreshold))
    else s
  }

  function Counted(s: Stats, size: nat, rejected1: seq<bool>, rejected2: seq<bool>): Stats
    requires |rejected1| == |rejected2|
  {
    s.(total := s.total + size, gate1 := s.gate1 + Count(rejected1), gate2 := s.gate2 + Count(rejected2),
       both := s.both + Count(Both(rejected1, rejected2)))
  }

  function Rate(accepted: seq<bool>): real
    requires accepted != []
  {
    1.0 - Count(accepted) as real / |accepted| as real
  }

  function Pushed(history: seq<real>, rate: real): seq<real> {
    var longer := history + [rate];
    if |longer| > MAX_BATCH_HISTORY then longer[1..] else longer
  }

  function AcceptMask(cfg: Config, b: Batch): (r: seq<bool>)
    requires Gate1Fits(cfg, b) && Gate2Fits(cfg, b)
    ensures |r| == |b.mask|
  {
    Neither(Rejected1(cfg, b), Rejected2(cfg, b))
  }

  /** The statistics after a batch and the indices it returns. A batch that fails at gate 2 has already left
   *  its traces of gate 1. */
  function AfterBatch(cfg: Config, s: Stats, b: Batch): (Stats, Result<seq<nat>>) {
    if b.mask == [] then (s, Ok([]))
    else if !Gate1Fits(cfg, b) then (s, Err(ShapeMismatch))
    else if !Gate2Fits(cfg, b) then (AfterGate1(cfg, s, b), Err(ShapeMismatch))
    else
      var checked := AfterGate2(cfg, AfterGate1(cfg, s, b), b);
      var counted := Counted(checked, |b.mask|, Rejected1(cfg, b), Rejected2(cfg, b));
      (counted.(history := Pushed(counted.history, Rate(AcceptMask(cfg, b)))), Ok(Where(AcceptMask(cfg, b))))
  }

  // ----- the verdicts, token by token -----

  /** The differences of two log-probabilities on the valid tokens. */
  function ValidDiffs(a: seq<real>, b: seq<real>, mask: seq<bool>): (r: seq<real>)
    requires |a| == |b| == |mask|
    ensures |r| == |mask|
  {
    seq(|mask|, j requires 0 <= j < |mask| => if mask[j] then a[j] - b[j] else 0.0)
  }

  /** Their mean, with the guard against an empty mask. */
  function MeanDiff(a: seq<real>, b: seq<real>, mask: seq<bool>): real
    requires |a| == |b| == |mask|
  {
    Sum(ValidDiffs(a, b, mask)) / (Count(mask) as real + 0.00000001)
  }

  lemma {:induction false} SumOfDiffs(a: seq<real>, b: seq<real>, mask: seq<bool>)
    requires |a| == |b| == |mask|
    ensures MaskedSum(a, mask) - MaskedSum(b, mask) == Sum(ValidDiffs(a, b, mask))
  {
    if mask != [] {
      var last := |mask| - 1;
      SumOfDiffs(a[..last], b[..last], mask[..last]);
      assert ValidDiffs(a, b, mask)[..last] == ValidDiffs(a[..last], b[..last], mask[..last]);
    }
  }

  lemma DiffOfQuotients(x: real, y: real, d: real)
    requires d > 0.0
    ensures x / d - y / d == (x - y) / d
  {
    var p, q := x / d, y / d;
    assert p * d == x && q * d == y;
    assert (p - q) * d == x - y;
    QuotientIs(x - y, d, p - q);
  }

  /** The bias is how far the mean difference is from zero. */
  lemma BiasIs(actor: seq<real>, rollout: seq<real>, mask: seq<bool>)
    requires |actor| == |rollout| == |mask|
    ensures var d := MeanDiff(actor, rollout, mask);
            Bias(actor, rollout, mask) == if d >= 0.0 then d else -d
  {
    SumOfDiffs(actor, rollout, mask);
    DiffOfQuotients(MaskedSum(actor, mask), MaskedSum(rollout, mask), Count(mask) as real + 0.00000001);
  }

  /** Gate 1 is on, and the mean difference reaches the bound on either side. */
  ghost predicate IsBiased(cfg: Config, b: Batch, i: nat)
    requires Gate1Fits(cfg, b) && i < |b.mask|
  {
    cfg.enableGate1 && b.oldLogProbs.Some? && b.rolloutLogProbs.Some? &&
    var d := MeanDiff(b.oldLogProbs.value[i], b.rolloutLogProbs.value[i], b.mask[i]);
    d >= cfg.biasEpsilon || -d >= cfg.biasEpsilon
  }

  /** Gate 2 is on, and some valid token does not lie above the threshold. */
  ghost predicate IsUnstable(cfg: Config, b: Batch, i: nat)
    requires Gate2Fits(cfg, b) && i < |b.mask|
  {
    cfg.enableGate2 && b.rolloutLogProbs.Some? && b.topLogProbs.Some? &&
    exists j :: 0 <= j < |b.mask[i]| && b.mask[i][j] &&
      b.rolloutLogProbs.value[i][j] - b.topLogProbs.value[i][j] <= cfg.instabilityThreshold
  }

  lemma BiasedFails(cfg: Config, b: Batch, i: nat)
    requires Gate1Fits(cfg, b) && i < |b.mask|
    ensures Rejected1(cfg, b)[i] <==> IsBiased(cfg, b, i)
  {
    if Gate1Active(cfg, b) {
      BiasIs(b.oldLogProbs.value[i], b.rolloutLogProbs.value[i], b.mask[i]);
    }
  }

  lemma UnstableFails(cfg: Config, b: Batch, i: nat)
    requires Gate2Fits(cfg, b) && i < |b.mask|
    ensures Rejected2(cfg, b)[i] <==> IsUnstable(cfg, b, i)
  {
    if Gate2Active(cfg, b) {
      StableMeans(b.rolloutLogProbs.value[i], b.topLogProbs.value[i], b.mask[i], cfg.instabilityThreshold);
    }
  }

  lemma {:induction false} WhereAscends(mask: seq<bool>)
    ensures forall i, j :: 0 <= i < j < |Where(mask)| ==> Where(mask)[i] < Where(mask)[j]
  {
    if mask != [] {
      var last := |mask| - 1;
      WhereAscends(mask[..last]);
      var before := Where(mask[..last]);
      forall i | 0 <= i < |before| ensures before[i] < last { assert before[i] in before; }
    }
  }

  /** The filter returns, in ascending order, the samples that are neither biased nor unstable. */
  ghost predicate AreAccepted(cfg: Config, b: Batch, indices: seq<nat>)
    requires Gate1Fits(cfg, b) && Gate2Fits(cfg, b)
  {
    (forall i, j :: 0 <= i < j < |indices| ==> indices[i] < indices[j]) &&
    forall i: nat :: i in indices <==> i < |b.mask| && !IsBiased(cfg, b, i) && !IsUnstable(cfg, b, i)
  }

  lemma AcceptedAre(cfg: Config, b: Batch)
    requires Gate1Fits(cfg, b) && Gate2Fits(cfg, b)
    ensures AreAccepted(cfg, b, Where(AcceptMask(cfg, b)))
  {
    WhereAscends(AcceptMask(cfg, b));
    forall i: nat | i < |b.mask| ensures AcceptMask(cfg, b)[i] <==> !IsBiased(cfg, b, i) && !IsUnstable(cfg, b, i) {
      BiasedFails(cfg, b, i);
      UnstableFails(cfg, b, i);
    }
  }

  // ----- what a batch adds to the statistics -----

  ghost function Biased(cfg: Config, b: Batch): (r: seq<bool>)
    requires Gate1Fits(cfg, b)
    ensures |r| == |b.mask|
  {
    seq(|b.mask|, i requires 0 <= i < |b.mask| => IsBiased(cfg, b, i))
  }

  ghost function Unstable(cfg: Config, b: Batch): (r: seq<bool>)
    requires Gate2Fits(cfg, b)
    ensures |r| == |b.mask|
  {
    seq(|b.mask|, i requires 0 <= i < |b.mask| => IsUnstable(cfg, b, i))
  }

  lemma VerdictsAre(cfg: Config, b: Batch)
    ensures Gate1Fits(cfg, b) ==> Rejected1(cfg, b) == Biased(cfg, b)
    ensures Gate2Fits(cfg, b) ==> Rejected2(cfg, b) == Unstable(cfg, b)
  {
    forall i: nat | i < |b.mask| && Gate1Fits(cfg, b) ensures Rejected1(cfg, b)[i] == Biased(cfg, b)[i] {
      BiasedFails(cfg, b, i);
    }
    forall i: nat | i < |b.mask| && Gate2Fits(cfg, b) ensures Rejected2(cfg, b)[i] == Unstable(cfg, b)[i] {
      UnstableFails(cfg, b, i);
    }
  }

  /** A batch that goes through both gates counts its samples, the biased, the unstable and those that are both, and its
   *  share of rejected samples is the last entry of the history. */
  ghost predicate Counts(cfg: Config, s: Stats, b: Batch, t: Stats) {
    if b.mask != [] && Gate1Fits(cfg, b) && Gate2Fits(cfg, b) then
      var biased, unstable := Biased(cfg, b), Unstable(cfg, b);
      t.total == s.total + |b.mask| && t.gate1 == s.gate1 + Count(biased) && t.gate2 == s.gate2 + Count(unstable) &&
      t.both == s.both + Count(seq(|b.mask|, i requires 0 <= i < |b.mask| => biased[i] && unstable[i])) &&
      t.history != [] &&
      t.history[|t.history| - 1] ==
        Count(seq(|b.mask|, i requires 0 <= i < |b.mask| => biased[i] || unstable[i])) as real / |b.mask| as real
    else
      t.total == s.total && t.gate1 == s.gate1 && t.gate2 == s.gate2 && t.both == s.both && t.history == s.history
  }

  lemma {:induction false} OthersCount(accepted: seq<bool>, rejected: seq<bool>)
    requires |accepted| == |rejected| && forall i :: 0 <= i < |accepted| ==> accepted[i] == !rejected[i]
    ensures Count(accepted) + Count(rejected) == |accepted|
  {
    if accepted != [] {
      OthersCount(accepted[..|accepted| - 1], rejected[..|rejected| - 1]);
    }
  }

  /** The rate is the rejected share. */
  lemma RateMeans(accepted: seq<bool>, rejected: seq<bool>)
    requires accepted != [] && |accepted| == |rejected| && forall i :: 0 <= i < |accepted| ==> accepted[i] == !rejected[i]
    ensures Rate(accepted) == Count(rejected) as real / |rejected| as real
  {
    OthersCount(accepted, rejected);
    ComplementOf(|accepted|, Count(accepted), Count(rejected));
  }

  lemma ComplementOf(all: nat, part: nat, rest: nat)
    requires all > 0 && part + rest == all
    ensures 1.0 - part as real / all as real == rest as real / all as real
  {
    Complement(all as real, part as real);
    assert rest as real == all as real - part as real;
  }

  lemma BatchCounts(cfg: Config, s: Stats, b: Batch)
    ensures Counts(cfg, s, b, AfterBatch(cfg, s, b).0)
  {
    VerdictsAre(cfg, b);
    if b.mask != [] && Gate1Fits(cfg, b) && Gate2Fits(cfg, b) {
      var biased, unstable := Biased(cfg, b), Unstable(cfg, b);
      var either := seq(|b.mask|, i requires 0 <= i < |b.mask| => biased[i] || unstable[i]);
      assert Both(biased, unstable) == seq(|b.mask|, i requires 0 <= i < |b.mask| => biased[i] && unstable[i]);
      RateMeans(AcceptMask(cfg, b), either);
    }
  }

  /** The samples whose number of valid tokens lies in [low, high); no `high` is no bound. */
  function InRange(b: Batch, low: nat, high: Option<nat>): (r: seq<bool>)
    ensures |r| == |b.mask|
  {
    seq(|b.mask|, i requires 0 <= i < |b.mask| => low <= Count(b.mask[i]) && (high.Some? ==> Count(b.mask[i]) < high.value))
  }

  ghost predicate BucketGrows(cfg: Config, s: Stats, b: Batch, t: Stats, bucket: Bucket, low: nat, high: Option<nat>)
    requires Gate1Fits(cfg, b)
  {
    At(t.buckets, bucket).1 == At(s.buckets, bucket).1 + Count(InRange(b, low, high)) &&
    At(t.buckets, bucket).0 == At(s.buckets, bucket).0 + Count(Both(InRange(b, low, high), Biased(cfg, b)))
  }

  /** What gate 1 leaves, if it is on and statistics are saved: how far each sample's mean difference is from zero, and in
   *  the bucket of its length the sample and its verdict. */
  ghost predicate Gate1Leaves(cfg: Config, s: Stats, b: Batch, t: Stats) {
    if b.mask != [] && Gate1Fits(cfg, b) && cfg.enableGate1 && b.oldLogProbs.Some? && b.rolloutLogProbs.Some? && cfg.saveRejectionStats then
      |t.biases| == |s.biases| + |b.mask| && s.biases <= t.biases &&
      (forall i :: 0 <= i < |b.mask| ==>
         var d := MeanDiff(b.oldLogProbs.value[i], b.rolloutLogProbs.value[i], b.mask[i]);
         t.biases[|s.biases| + i] == if d >= 0.0 then d else -d) &&
      BucketGrows(cfg, s, b, t, Short, 0, Some(512)) && BucketGrows(cfg, s, b, t, Medium, 512, Some(2048)) &&
      BucketGrows(cfg, s, b, t, Long, 2048, Some(8192)) && BucketGrows(cfg, s, b, t, VeryLong, 8192, None)
    else t.biases == s.biases && t.buckets == s.buckets
  }

  /** What gate 2 leaves: how many valid tokens of each sample lie below the threshold. */
  ghost predicate Gate2Leaves(cfg: Config, s: Stats, b: Batch, t: Stats) {
    if b.mask != [] && Gate1Fits(cfg, b) && Gate2Fits(cfg, b) && cfg.enableGate2 && b.rolloutLogProbs.Some? && b.topLogProbs.Some? &&
       cfg.saveRejectionStats then
      |t.unstable| == |s.unstable| + |b.mask| && s.unstable <= t.unstable &&
      forall i :: 0 <= i < |b.mask| ==>
        t.unstable[|s.unstable| + i] ==
        Count(TokensBelow(b.rolloutLogProbs.value[i], b.topLogProbs.value[i], b.mask[i], cfg.instabilityThreshold))
    else t.unstable == s.unstable
  }

  function TokensBelow(rollout: seq<real>, top: seq<real>, mask: seq<bool>, threshold: real): seq<bool>
    requires |rollout| == |top| == |mask|
  {
    seq(|mask|, j requires 0 <= j < |mask| => mask[j] && rollout[j] - top[j] < threshold)
  }

  lemma {:induction false} UnstableTokensCount(rollout: seq<real>, top: seq<real>, mask: seq<bool>, threshold: real)
    requires |rollout| == |top| == |mask|
    ensures UnstableTokens(rollout, top, mask, threshold) == Count(TokensBelow(rollout, top, mask, threshold))
  {
    if mask != [] {
      var last := |mask| - 1;
      UnstableTokensCount(rollout[..last], top[..last], mask[..last], threshold);
      assert TokensBelow(rollout, top, mask, threshold)[..last] == TokensBelow(rollout[..last], top[..last], mask[..last], threshold);
    }
  }

  function OfBucket(lengths: seq<nat>, bucket: Bucket): (r: seq<bool>)
    ensures |r| == |lengths|
  {
    seq(|lengths|, i requires 0 <= i < |lengths| => LengthBucket(lengths[i]) == bucket)
  }

  lemma {:induction false} BucketedCounts(buckets: map<Bucket, (nat, nat)>, lengths: seq<nat>, rejected: seq<bool>, bucket: Bucket)
    requires |lengths| == |rejected|
    ensures var after, before := At(Bucketed(buckets, lengths, rejected), bucket), At(buckets, bucket);
            after.1 == before.1 + Count(OfBucket(lengths, bucket)) &&
            after.0 == before.0 + Count(Both(OfBucket(lengths, bucket), rejected))
  {
    if lengths != [] {
      var last := |lengths| - 1;
      BucketedCounts(buckets, lengths[..last], rejected[..last], bucket);
      assert OfBucket(lengths, bucket)[..last] == OfBucket(lengths[..last], bucket);
      assert Both(OfBucket(lengths, bucket), rejected)[..last] == Both(OfBucket(lengths[..last], bucket), rejected[..last]);
    }
  }

  lemma BatchFillsBucket(cfg: Config, s: Stats, b: Batch, t: Stats, bucket: Bucket, low: nat, high: Option<nat>)
    requires Gate1Fits(cfg, b) && t.buckets == Bucketed(s.buckets, Lengths(b), Rejected1(cfg, b))
    requires forall n: nat :: LengthBucket(n) == bucket <==> low <= n && (high.Some? ==> n < high.value)
    ensures BucketGrows(cfg, s, b, t, bucket, low, high)
  {
    VerdictsAre(cfg, b);
    BucketedCounts(s.buckets, Lengths(b), Rejected1(cfg, b), bucket);
    assert OfBucket(Lengths(b), bucket) == InRange(b, low, high);
  }

  lemma AfterGate1Is(cfg: Config, s: Stats, b: Batch)
    requires b.mask != [] && Gate1Fits(cfg, b)
    ensures Gate1Leaves(cfg, s, b, AfterGate1(cfg, s, b))
  {
    if Gate1Active(cfg, b) && cfg.saveRejectionStats {
      var t := AfterGate1(cfg, s, b);
      forall i | 0 <= i < |b.mask|
        ensures var d := MeanDiff(b.oldLogProbs.value[i], b.rolloutLogProbs.value[i], b.mask[i]);
                t.biases[|s.biases| + i] == if d >= 0.0 then d else -d
      {
        BiasIs(b.oldLogProbs.value[i], b.rolloutLogProbs.value[i], b.mask[i]);
      }
      BatchFillsBucket(cfg, s, b, t, Short, 0, Some(512));
      BatchFillsBucket(cfg, s, b, t, Medium, 512, Some(2048));
      BatchFillsBucket(cfg, s, b, t, Long, 2048, Some(8192));
      BatchFillsBucket(cfg, s, b, t, VeryLong, 8192, None);
    }
  }

  lemma AfterGate2Is(cfg: Config, s: Stats, b: Batch)
    requires b.mask != [] && Gate1Fits(cfg, b) && Gate2Fits(cfg, b)
    ensures Gate2Leaves(cfg, s, b, AfterGate2(cfg, s, b))
  {
    if Gate2Active(cfg, b) && cfg.saveRejectionStats {
      var t := AfterGate2(cfg, s, b);
      forall i | 0 <= i < |b.mask|
        ensures t.unstable[|s.unstable| + i] ==
                Count(TokensBelow(b.rolloutLogProbs.value[i], b.topLogProbs.value[i], b.mask[i], cfg.instabilityThreshold))
      {
        UnstableTokensCount(b.rolloutLogProbs.value[i], b.topLogProbs.value[i], b.mask[i], cfg.instabilityThreshold);
      }
    }
  }

  lemma BatchLeaves(cfg: Config, s: Stats, b: Batch)
    ensures var t := AfterBatch(cfg, s, b).0;
            Gate1Leaves(cfg, s, b, t) && Gate2Leaves(cfg, s, b, t)
  {
    BatchKeeps(cfg, s, b);
    var t := AfterBatch(cfg, s, b).0;
    if b.mask != [] && Gate1Fits(cfg, b) {
      AfterGate1Is(cfg, s, b);
      SameAfterGate1(cfg, s, b, AfterGate1(cfg, s, b), t);
      if Gate2Fits(cfg, b) {
        AfterGate2Is(cfg, AfterGate1(cfg, s, b), b);
        SameAfterGate2(cfg, s, b, AfterGate1(cfg, s, b), AfterGate2(cfg, AfterGate1(cfg, s, b), b), t);
      }
    }
  }

  lemma SameAfterGate1(cfg: Config, s: Stats, b: Batch, t: Stats, u: Stats)
    requires Gate1Leaves(cfg, s, b, t) && t.biases == u.biases && t.buckets == u.buckets
    ensures Gate1Leaves(cfg, s, b, u)
  {
  }

  lemma SameAfterGate2(cfg: Config, s: Stats, b: Batch, s': Stats, t: Stats, u: Stats)
    requires Gate2Leaves(cfg, s', b, t) && s'.unstable == s.unstable && t.unstable == u.unstable
    ensures Gate2Leaves(cfg, s, b, u)
  {
  }

  /** Which gate the lists and buckets come from. */
  lemma BatchKeeps(cfg: Config, s: Stats, b: Batch)
    ensures var t := AfterBatch(cfg, s, b).0;
            if b.mask != [] && Gate1Fits(cfg, b) then
              t.biases == AfterGate1(cfg, s, b).biases && t.buckets == AfterGate1(cfg, s, b).buckets &&
              AfterGate1(cfg, s, b).unstable == s.unstable &&
              t.unstable == if Gate2Fits(cfg, b) then AfterGate2(cfg, AfterGate1(cfg, s, b), b).unstable else s.unstable
            else t == s
  {
  }

  /** A shape error, or the accepted samples and the statistics of the batch. */
  ghost predicate IsFiltered(cfg: Config, s: Stats, b: Batch, t: Stats, r: Result<seq<nat>>) {
    (if b.mask == [] then r == Ok([])
     else if Gate1Fits(cfg, b) && Gate2Fits(cfg, b) then r.Ok? && AreAccepted(cfg, b, r.value)
     else r == Err(ShapeMismatch)) &&
    Counts(cfg, s, b, t) && Gate1Leaves(cfg, s, b, t) && Gate2Leaves(cfg, s, b, t)
  }

  lemma BatchIsFiltered(cfg: Config, s: Stats, b: Batch)
    ensures IsFiltered(cfg, s, b, AfterBatch(cfg, s, b).0, AfterBatch(cfg, s, b).1)
  {
    BatchCounts(cfg, s, b);
    BatchLeaves(cfg, s, b);
    if Gate1Fits(cfg, b) && Gate2Fits(cfg, b) {
      AcceptedAre(cfg, b);
    }
  }

  class RejectionStats {
    var totalSamples: nat
    var gate1Rejections: nat
    var gate2Rejections: nat
    var bothGatesRejections: nat
    var biasValues: seq<real>
    var instabilityCounts: seq<nat>
    var rejectionsByLength: map<Bucket, (nat, nat)>
    var batchRejectionHistory: seq<real>

    constructor ()
      ensures View() == EMPTY
    {
      totalSamples, gate1Rejections, gate2Rejections, bothGatesRejections := 0, 0, 0, 0;
      biasValues, instabilityCounts, rejectionsByLength, batchRejectionHistory := [], [], map[], [];
    }

    function View(): Stats
      reads this
    {
      Stats(totalSamples, gate1Rejections, gate2Rejections, bothGatesRejections, biasValues, instabilityCounts,
            rejectionsByLength, batchRejectionHistory)
    }

    method Update(batchSize: nat, gate1Rejected: seq<bool>, gate2Rejected: seq<bool>)
      requires |gate1Rejected| == |gate2Rejected|
      modifies this
      ensures View() == Counted(old(View()), batchSize, gate1Rejected, gate2Rejected)
    {
      totalSamples := totalSamples + batchSize;
      gate1Rejections := gate1Rejections + Count(gate1Rejected);
      gate2Rejections := gate2Rejections + Count(gate2Rejected);
      bothGatesRejections := bothGatesRejections + Count(Both(gate1Rejected, gate2Rejected));
    }

    method TrackLengths(lengths: seq<nat>, rejected: seq<bool>)
      requires |lengths| == |rejected|
      modifies this`rejectionsByLength
      ensures rejectionsByLength == Bucketed(old(rejectionsByLength), lengths, rejected)
    {
      ghost var start := rejectionsByLength;
      for i := 0 to |lengths|
        invariant rejectionsByLength == Bucketed(start, lengths[..i], rejected[..i])
      {
        assert lengths[..i + 1][..i] == lengths[..i] && rejected[..i + 1][..i] == rejected[..i];
        var bucket := LengthBucket(lengths[i]);
        if bucket !in rejectionsByLength {
          rejectionsByLength := rejectionsByLength[bucket := (0, 0)];
        }
        var entry := rejectionsByLength[bucket];
        entry := (entry.0, entry.1 + 1);
        if rejected[i] {
          entry := (entry.0 + 1, entry.1);
        }
        rejectionsByLength := rejectionsByLength[bucket := entry];
      }
      assert lengths[..|lengths|] == lengths && rejected[..|lengths|] == rejected;
    }

    method TrackRate(rate: real)
      modifies this`batchRejectionHistory
      ensures batchRejectionHistory == Pushed(old(batchRejectionHistory), rate)
    {
      batchRejectionHistory := batchRejectionHistory + [rate];
      if |batchRejectionHistory| > MAX_BATCH_HISTORY {
        batchRejectionHistory := batchRejectionHistory[1..];
      }
    }
  }

  class TwoGateRejectionFilter {
    const config: Config
    const stats: RejectionStats

    constructor (config: Config)
      ensures this.config == config && fresh(stats) && stats.View() == EMPTY
    {
      this.config := config;
      stats := new RejectionStats();
    }

    method Gate1(b: Batch) returns (r: Result<seq<bool>>)
      modifies stats
      ensures r.Ok? <==> Gate1Fits(config, b)
      ensures r.Ok? ==> r.value == Rejected1(config, b) && stats.View() == AfterGate1(config, old(stats.View()), b)
      ensures r.Err? ==> r.error == ShapeMismatch && stats.View() == old(stats.View())
    {
      if !Gate1Fits(config, b) {
        return Err(ShapeMismatch);
      }
      var rejected := Rejected1(config, b);
      if Gate1Active(config, b) && config.saveRejectionStats {
        stats.biasValues := stats.biasValues + Biases(b);
        stats.TrackLengths(Lengths(b), rejected);
      }
      r := Ok(rejected);
    }

    method Gate2(b: Batch) returns (r: Result<seq<bool>>)
      modifies stats
      ensures r.Ok? <==> Gate2Fits(config, b)
      ensures r.Ok? ==> r.value == Rejected2(config, b) && stats.View() == AfterGate2(config, old(stats.View()), b)
      ensures r.Err? ==> r.error == ShapeMismatch && stats.View() == old(stats.View())
    {
      if !Gate2Fits(config, b) {
        return Err(ShapeMismatch);
      }
      if Gate2Active(config, b) && config.saveRejectionStats {
        stats.instabilityCounts := stats.instabilityCounts + UnstableCounts(b, config.instabilityThreshold);
      }
      r := Ok(Rejected2(config, b));
    }

    method FilterBatch(b: Batch) returns (r: Result<seq<nat>>)
      modifies stats
      ensures (stats.View(), r) == AfterBatch(config, old(stats.View()), b)
      ensures IsFiltered(config, old(stats.View()), b, stats.View(), r)
    {
      BatchIsFiltered(config, stats.View(), b);
      if b.mask == [] {
        return Ok([]);
      }
      var gate1Rejected := Gate1(b);
      if gate1Rejected.Err? {
        return Err(gate1Rejected.error);
      }
      var gate2Rejected := Gate2(b);
      if gate2Rejected.Err? {
        return Err(gate2Rejected.error);
      }
      var accepted := Neither(gate1Rejected.value, gate2Rejected.value);
      stats.Update(|b.mask|, gate1Rejected.value, gate2Rejected.value);
      stats.TrackRate(Rate(accepted));
      r := Ok(Where(accepted));
    }
  }

  // ----- what one batch returns -----

  /** The returned indices are exactly the samples that pass every active gate. */
  lemma ReturnsWhatPasses(cfg: Config, s: Stats, b: Batch)
    requires AfterBatch(cfg, s, b).1.Ok? && b.mask != []
    ensures Gate1Fits(cfg, b) && Gate2Fits(cfg, b) && Distinct(AfterBatch(cfg, s, b).1.value)
    ensures forall i: nat :: i in AfterBatch(cfg, s, b).1.value <==>
              i < |b.mask| && PassesGate1(cfg, b, i) && PassesGate2(cfg, b, i)
  {
  }

  lemma {:induction false} InclusionExclusion(a: seq<bool>, b: seq<bool>)
    requires |a| == |b|
    ensures Count(a) + Count(b) - Count(Both(a, b)) + Count(Neither(a, b)) == |a|
  {
    if a != [] {
      var last := |a| - 1;
      InclusionExclusion(a[..last], b[..last]);
      assert Both(a, b)[..last] == Both(a[..last], b[..last]);
      assert Neither(a, b)[..last] == Neither(a[..last], b[..last]);
    }
  }

  // ----- what a run of batches leaves -----

  function Run(cfg: Config, batches: seq<Batch>): Stats {
    if batches == [] then EMPTY
    else
      var last := |batches| - 1;
      AfterBatch(cfg, Run(cfg, batches[..last]), batches[last]).0
  }

  /** Number of indices a batch returns, which does not depend on the statistics. */
  function Returned(cfg: Config, b: Batch): nat {
    if AfterBatch(cfg, EMPTY, b).1.Ok? then |AfterBatch(cfg, EMPTY, b).1.value| else 0
  }

  function ReturnedInAll(cfg: Config, batches: seq<Batch>): nat {
    if batches == [] then 0
    else ReturnedInAll(cfg, batches[..|batches| - 1]) + Returned(cfg, batches[|batches| - 1])
  }

  /** Samples rejected so far. */
  function Rejections(s: Stats): int {
    s.gate1 + s.gate2 - s.both
  }

  lemma BatchBalances(cfg: Config, s: Stats, b: Batch)
    ensures Rejections(AfterBatch(cfg, s, b).0) - Rejections(s) + Returned(cfg, b) == AfterBatch(cfg, s, b).0.total - s.total
  {
    if b.mask != [] && Gate1Fits(cfg, b) && Gate2Fits(cfg, b) {
      InclusionExclusion(Rejected1(cfg, b), Rejected2(cfg, b));
    }
  }

  /** Main accounting result: over any run, gate1 + gate2 - both samples were rejected, and the rest of the
   *  processed samples are the indices that were returned. */
  lemma {:induction false} RejectionsBalance(cfg: Config, batches: seq<Batch>)
    ensures Run(cfg, batches).total - Rejections(Run(cfg, batches)) == ReturnedInAll(cfg, batches)
  {
    if batches != [] {
      var last := |batches| - 1;
      RejectionsBalance(cfg, batches[..last]);
      BatchBalances(cfg, Run(cfg, batches[..last]), batches[last]);
    }
  }

  function AcceptanceRate(s: Stats): real {
    if s.total == 0 then 1.0 else 1.0 - Rejections(s) as real / s.total as real
  }

  /** The reported acceptance rate is the share of the processed samples that was returned. */
  lemma AcceptanceRateMeans(cfg: Config, batches: seq<Batch>)
    requires Run(cfg, batches).total > 0
    ensures AcceptanceRate(Run(cfg, batches)) == ReturnedInAll(cfg, batches) as real / Run(cfg, batches).total as real
  {
    RejectionsBalance(cfg, batches);
    var s := Run(cfg, batches);
    Complement(s.total as real, Rejections(s) as real);
  }

  // ----- the length buckets -----

  function Totals(buckets: map<Bucket, (nat, nat)>): nat {
    At(buckets, Short).1 + At(buckets, Medium).1 + At(buckets, Long).1 + At(buckets, VeryLong).1
  }

  function RejectedTotals(buckets: map<Bucket, (nat, nat)>): nat {
    At(buckets, Short).0 + At(buckets, Medium).0 + At(buckets, Long).0 + At(buckets, VeryLong).0
  }

  lemma OneMoreCounts(buckets: map<Bucket, (nat, nat)>, bucket: Bucket, rejected: bool)
    ensures Totals(OneMoreIn(buckets, bucket, rejected)) == Totals(buckets) + 1
    ensures RejectedTotals(OneMoreIn(buckets, bucket, rejected)) == RejectedTotals(buckets) + if rejected then 1 else 0
  {
  }

  lemma {:induction false} BucketsCount(buckets: map<Bucket, (nat, nat)>, lengths: seq<nat>, rejected: seq<bool>)
    requires |lengths| == |rejected|
    ensures Totals(Bucketed(buckets, lengths, rejected)) == Totals(buckets) + |lengths|
    ensures RejectedTotals(Bucketed(buckets, lengths, rejected)) == RejectedTotals(buckets) + Count(rejected)
  {
    if lengths != [] {
      var last := |lengths| - 1;
      BucketsCount(buckets, lengths[..last], rejected[..last]);
      OneMoreCounts(Bucketed(buckets, lengths[..last], rejected[..last]), LengthBucket(lengths[last]), rejected[last]);
    }
  }

  /** Samples that went through gate 1, whether or not gate 2 then failed. */
  function CheckedByGate1(cfg: Config, b: Batch): nat {
    if b.mask != [] && Gate1Active(cfg, b) && Gate1Fits(cfg, b) then |b.mask| else 0
  }

  function CheckedInAll(cfg: Config, batches: seq<Batch>): nat {
    if batches == [] then 0
    else CheckedInAll(cfg, batches[..|batches| - 1]) + CheckedByGate1(cfg, batches[|batches| - 1])
  }

  lemma BucketsOfBatch(cfg: Config, s: Stats, b: Batch)
    requires cfg.saveRejectionStats
    ensures Totals(AfterBatch(cfg, s, b).0.buckets) == Totals(s.buckets) + CheckedByGate1(cfg, b)
    ensures AfterBatch(cfg, s, b).1.Ok? ==>
              RejectedTotals(AfterBatch(cfg, s, b).0.buckets) - RejectedTotals(s.buckets) == AfterBatch(cfg, s, b).0.gate1 - s.gate1
  {
    if b.mask != [] && Gate1Fits(cfg, b) {
      if Gate1Active(cfg, b) {
        BucketsCount(s.buckets, Lengths(b), Rejected1(cfg, b));
      } else {
        NoneRejected(Rejected1(cfg, b));
      }
    }
  }

  lemma {:induction false} NoneRejected(rejected: seq<bool>)
    requires forall i :: 0 <= i < |rejected| ==> !rejected[i]
    ensures Count(rejected) == 0
  {
    if rejected != [] {
      NoneRejected(rejected[..|rejected| - 1]);
    }
  }

  /** With statistics saved, the bucket totals are the samples gate 1 checked, and as long as no batch failed
   *  the rejections in the buckets are the gate-1 rejections. */
  lemma {:induction false} BucketsBalance(cfg: Config, batches: seq<Batch>)
    requires cfg.saveRejectionStats
    ensures Totals(Run(cfg, batches).buckets) == CheckedInAll(cfg, batches)
    ensures (forall i :: 0 <= i < |batches| ==> Gate1Fits(cfg, batches[i]) && Gate2Fits(cfg, batches[i])) ==>
              RejectedTotals(Run(cfg, batches).buckets) == Run(cfg, batches).gate1
  {
    if batches != [] {
      var last := |batches| - 1;
      BucketsBalance(cfg, batches[..last]);
      BucketsOfBatch(cfg, Run(cfg, batches[..last]), batches[last]);
    }
  }

  // ----- the history -----

  function Rates(cfg: Config, batches: seq<Batch>): seq<real> {
    if batches == [] then []
    else
      var b := batches[|batches| - 1];
      Rates(cfg, batches[..|batches| - 1]) +
      if b.mask != [] && Gate1Fits(cfg, b) && Gate2Fits(cfg, b) then [Rate(AcceptMask(cfg, b))] else []
  }

  function LastOf(rates: seq<real>, count: nat): seq<real> {
    if |rates| <= count then rates else rates[|rates| - count..]
  }

  /** The history holds the rates of the last hundred processed batches. */
  lemma {:induction false} HistoryIsRecent(cfg: Config, batches: seq<Batch>)
    ensures Run(cfg, batches).history == LastOf(Rates(cfg, batches), 100)
  {
    if batches != [] {
      var last := |batches| - 1;
      HistoryIsRecent(cfg, batches[..last]);
      var rates, b := Rates(cfg, batches[..last]), batches[last];
      if b.mask != [] && Gate1Fits(cfg, b) && Gate2Fits(cfg, b) {
        PushedIsRecent(rates, Rate(AcceptMask(cfg, b)));
      }
    }
  }

  lemma PushedIsRecent(rates: seq<real>, rate: real)
    ensures Pushed(LastOf(rates, MAX_BATCH_HISTORY), rate) == LastOf(rates + [rate], MAX_BATCH_HISTORY)
  {
  }
}

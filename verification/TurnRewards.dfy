/** Putting each turn's reward on the last token of its mask span, and reading it back as span sums. */
module TurnRewards {
  import opened Sequences
  import opened MaskSpans
  import opened Wrappers

  /** The first `n` rewards, each on the last token of its span, over a row of zeros. */
  function Placed(width: nat, spans: seq<Span>, rewards: seq<real>, n: nat): (row: seq<real>)
    requires n <= |spans| && n <= |rewards|
    requires forall i :: 0 <= i < |spans| ==> spans[i].0 < spans[i].1 <= width
    ensures |row| == width
  {
    if n == 0 then Zeros(width) else Placed(width, spans, rewards, n - 1)[spans[n - 1].1 - 1 := rewards[n - 1]]
  }

  function Overlap(mask: seq<bool>, rewards: seq<real>): nat {
    Min(|Runs(mask)|, |rewards|)
  }

  function PlacedRow(mask: seq<bool>, rewards: seq<real>): (row: seq<real>)
    ensures |row| == |mask|
  {
    Placed(|mask|, Runs(mask), rewards, Overlap(mask, rewards))
  }

  /** A row is rewritten when it carries a reward and has a span to put it on. */
  predicate Rewritten(mask: seq<bool>, rewards: Option<seq<real>>) {
    rewards.Some? && rewards.value != [] && Runs(mask) != []
  }

  function NewRow(mask: seq<bool>, rewards: Option<seq<real>>): seq<real> {
    if Rewritten(mask, rewards) then PlacedRow(mask, rewards.value) else Zeros(|mask|)
  }

  ghost predicate AnyRewritten(masks: seq<seq<bool>>, field: seq<Option<seq<real>>>, n: nat)
    requires n <= |masks| == |field|
  {
    exists i :: 0 <= i < n && Rewritten(masks[i], field[i])
  }

  ghost predicate LeftToRight(width: nat, spans: seq<Span>) {
    (forall i :: 0 <= i < |spans| ==> spans[i].0 < spans[i].1 <= width) &&
    (forall i, j :: 0 <= i < j < |spans| ==> spans[i].1 < spans[j].0)
  }

  lemma {:induction false} PlacedElsewhere(width: nat, spans: seq<Span>, rewards: seq<real>, n: nat, p: nat)
    requires n <= |spans| && n <= |rewards| && p < width && LeftToRight(width, spans)
    requires forall t :: 0 <= t < n ==> spans[t].1 - 1 != p
    ensures Placed(width, spans, rewards, n)[p] == 0.0
  {
    if n > 0 {
      PlacedElsewhere(width, spans, rewards, n - 1, p);
    }
  }

  lemma {:induction false} PlacedAt(width: nat, spans: seq<Span>, rewards: seq<real>, n: nat, t: nat)
    requires t < n <= |spans| && n <= |rewards| && LeftToRight(width, spans)
    ensures Placed(width, spans, rewards, n)[spans[t].1 - 1] == rewards[t]
  {
    if t < n - 1 {
      PlacedAt(width, spans, rewards, n - 1, t);
      assert spans[t].1 < spans[n - 1].0;
    }
  }

  lemma RunsAreLeftToRight(mask: seq<bool>)
    ensures LeftToRight(|mask|, Runs(mask))
  {
    RunsAreRuns(mask);
  }

  /** Span `t` has reward `t`, if there is one, on its last token, and nothing else is anywhere. */
  ghost predicate HoldsRewards(row: seq<real>, mask: seq<bool>, rewards: seq<real>) {
    var spans := Runs(mask);
    |row| == |mask| &&
    (forall t :: 0 <= t < |spans| && t < |rewards| ==> row[spans[t].1 - 1] == rewards[t]) &&
    (forall p :: 0 <= p < |mask| && IsNoLastToken(p, spans, |rewards|) ==> row[p] == 0.0)
  }

  /** `p` is not the last token of one of the first `count` spans. */
  ghost predicate IsNoLastToken(p: int, spans: seq<Span>, count: nat) {
    forall t :: 0 <= t < |spans| && t < count ==> p + 1 != spans[t].1
  }

  lemma RewardIsAt(mask: seq<bool>, rewards: seq<real>, t: nat)
    requires t < |Runs(mask)| && t < |rewards|
    ensures PlacedRow(mask, rewards)[Runs(mask)[t].1 - 1] == rewards[t]
  {
    RunsAreLeftToRight(mask);
    PlacedAt(|mask|, Runs(mask), rewards, Overlap(mask, rewards), t);
  }

  lemma NoRewardIsAt(mask: seq<bool>, rewards: seq<real>, p: nat)
    requires p < |mask| && IsNoLastToken(p, Runs(mask), |rewards|)
    ensures PlacedRow(mask, rewards)[p] == 0.0
  {
    RunsAreLeftToRight(mask);
    PlacedElsewhere(|mask|, Runs(mask), rewards, Overlap(mask, rewards), p);
  }

  lemma PlacedRowHolds(mask: seq<bool>, rewards: seq<real>)
    ensures HoldsRewards(PlacedRow(mask, rewards), mask, rewards)
  {
    var spans := Runs(mask);
    forall t: nat | t < |spans| && t < |rewards| ensures PlacedRow(mask, rewards)[spans[t].1 - 1] == rewards[t] {
      RewardIsAt(mask, rewards, t);
    }
    forall p: nat | p < |mask| && IsNoLastToken(p, spans, |rewards|) ensures PlacedRow(mask, rewards)[p] == 0.0 {
      NoRewardIsAt(mask, rewards, p);
    }
  }

  lemma NewRowHolds(mask: seq<bool>, rewards: Option<seq<real>>)
    ensures HoldsRewards(NewRow(mask, rewards), mask, if rewards.Some? then rewards.value else [])
  {
    if Rewritten(mask, rewards) {
      PlacedRowHolds(mask, rewards.value);
    }
  }

  /** Some row has a reward and a span to put it on. */
  ghost predicate HasReward(masks: seq<seq<bool>>, field: seq<Option<seq<real>>>)
    requires |masks| == |field|
  {
    exists i :: 0 <= i < |masks| && field[i].Some? && field[i].value != [] && Runs(masks[i]) != []
  }

  /** `_redistribute_per_turn_rewards`.  A batch in which no row can be rewritten keeps its scores; as
   *  soon as one row is rewritten, every other row loses its old score. */
  method Redistribute(scores: seq<seq<real>>, masks: seq<seq<bool>>, turnRewards: Option<seq<Option<seq<real>>>>)
    returns (newScores: seq<seq<real>>)
    requires |scores| == |masks| && forall i :: 0 <= i < |scores| ==> |scores[i]| == |masks[i]|
    requires turnRewards.Some? ==> |turnRewards.value| == |masks|
    ensures |newScores| == |scores|
    ensures if turnRewards.Some? && AnyRewritten(masks, turnRewards.value, |masks|)
            then forall i :: 0 <= i < |masks| ==> newScores[i] == NewRow(masks[i], turnRewards.value[i])
            else newScores == scores
    ensures if turnRewards.Some? && HasReward(masks, turnRewards.value)
            then forall i :: 0 <= i < |masks| ==>
                   HoldsRewards(newScores[i], masks[i], if turnRewards.value[i].Some? then turnRewards.value[i].value else [])
            else newScores == scores
  {
    if turnRewards.None? { return scores; }
    var rewrote;
    newScores, rewrote := RewriteRows(masks, turnRewards.value);
    if rewrote == 0 { return scores; }
    forall i | 0 <= i < |masks|
      ensures HoldsRewards(newScores[i], masks[i], if turnRewards.value[i].Some? then turnRewards.value[i].value else [])
    {
      NewRowHolds(masks[i], turnRewards.value[i]);
    }
  }

  method RewriteRows(masks: seq<seq<bool>>, field: seq<Option<seq<real>>>) returns (rows: seq<seq<real>>, rewrote: nat)
    requires |field| == |masks|
    ensures rewrote > 0 <==> AnyRewritten(masks, field, |masks|)
    ensures |rows| == |masks| && forall i :: 0 <= i < |masks| ==> rows[i] == NewRow(masks[i], field[i])
  {
    rows, rewrote := seq(|masks|, i requires 0 <= i < |masks| => Zeros(|masks[i]|)), 0;
    for i := 0 to |masks|
      invariant |rows| == |masks|
      invariant rewrote > 0 <==> AnyRewritten(masks, field, i)
      invariant forall j :: 0 <= j < i ==> rows[j] == NewRow(masks[j], field[j])
    {
      var wrote, row := RewriteRow(masks[i], field[i]);
      rows := rows[i := row];
      if wrote {
        rewrote := rewrote + 1;
      }
    }
  }

  method RewriteRow(mask: seq<bool>, rewards: Option<seq<real>>) returns (wrote: bool, row: seq<real>)
    ensures wrote == Rewritten(mask, rewards)
    ensures row == NewRow(mask, rewards)
  {
    row := Zeros(|mask|);
    if rewards.None? || |rewards.value| == 0 { return false, row; }
    var spans := MaskRuns(mask, |mask|);
    if |spans| == 0 { return false, row; }
    var n := Min(|spans|, |rewards.value|);
    for t := 0 to n
      invariant row == Placed(|mask|, spans, rewards.value, t)
    {
      var (s, e) := spans[t];
      if e > s {
        row := row[e - 1 := rewards.value[t]];
      }
    }
    wrote := true;
  }

  // ----- reading the rewards back -----

  /** The last token of a span lies in no other span. */
  lemma LastTokensAreSeparate(width: nat, spans: seq<Span>, t: nat, u: nat)
    requires t < |spans| && u < |spans| && t != u && LeftToRight(width, spans)
    ensures !Within(spans[u].1 - 1, spans[t])
  {
    if u < t {
      assert spans[u].1 < spans[t].0;
    } else {
      assert spans[t].1 < spans[u].0;
    }
  }

  /** `token_level_rewards[s:e].sum()`. */
  function SpanSum(row: seq<real>, span: Span): real
    requires span.0 <= span.1 <= |row|
  {
    Sum(row[span.0..span.1])
  }

  /** The sum over span `t` is exactly reward `t`, and nothing for a span beyond the rewards. */
  lemma SpanSumIsReward(width: nat, spans: seq<Span>, rewards: seq<real>, n: nat, t: nat)
    requires n <= |spans| && n <= |rewards| && t < |spans| && LeftToRight(width, spans)
    ensures SpanSum(Placed(width, spans, rewards, n), spans[t]) == if t < n then rewards[t] else 0.0
  {
    var row := Placed(width, spans, rewards, n);
    var (s, e) := spans[t];
    var window := row[s..e];
    forall j | 0 <= j < |window| && (j != e - s - 1 || t >= n) ensures window[j] == 0.0 {
      forall u: nat | u < n ensures spans[u].1 - 1 != s + j {
        if u != t { LastTokensAreSeparate(width, spans, t, u); }
      }
      PlacedElsewhere(width, spans, rewards, n, s + j);
    }
    if t < n {
      PlacedAt(width, spans, rewards, n, t);
      SumSingle(window, e - s - 1);
    } else {
      SumZeros(window);
    }
  }

  lemma {:induction false} PlacedTotal(width: nat, spans: seq<Span>, rewards: seq<real>, n: nat)
    requires n <= |spans| && n <= |rewards| && LeftToRight(width, spans)
    ensures Sum(Placed(width, spans, rewards, n)) == Sum(rewards[..n])
  {
    if n == 0 {
      SumZeros(Zeros(width));
    } else {
      PlacedTotal(width, spans, rewards, n - 1);
      var before, p := Placed(width, spans, rewards, n - 1), spans[n - 1].1 - 1;
      forall t: nat | t < n - 1 ensures spans[t].1 - 1 != p { LastTokensAreSeparate(width, spans, n - 1, t); }
      PlacedElsewhere(width, spans, rewards, n - 1, p);
      SumUpdate(before, p, rewards[n - 1]);
      assert rewards[..n][..n - 1] == rewards[..n - 1];
    }
  }

  /** What TRLOO reads as the rewards of a row: one span sum per run of its mask. */
  function TurnSums(row: seq<real>, mask: seq<bool>): (sums: seq<real>)
    requires |row| == |mask|
    ensures |sums| == |Runs(mask)|
  {
    var spans := Runs(mask);
    seq(|spans|, t requires 0 <= t < |spans| => SpanSum(row, spans[t]))
  }

  lemma TurnSumIsReward(mask: seq<bool>, rewards: seq<real>, t: nat)
    requires t < |Runs(mask)|
    ensures TurnSums(PlacedRow(mask, rewards), mask)[t] == if t < |rewards| then rewards[t] else 0.0
  {
    RunsAreLeftToRight(mask);
    SpanSumIsReward(|mask|, Runs(mask), rewards, Overlap(mask, rewards), t);
  }

  lemma NothingOffTheSpans(mask: seq<bool>, rewards: seq<real>, p: nat)
    requires p < |mask| && !mask[p]
    ensures PlacedRow(mask, rewards)[p] == 0.0
  {
    var spans := Runs(mask);
    RunsAreLeftToRight(mask);
    RunsAreRuns(mask);
    forall t: nat | t < |spans| ensures spans[t].1 - 1 != p { assert IsRun(mask, spans[t]); }
    PlacedElsewhere(|mask|, spans, rewards, Overlap(mask, rewards), p);
  }

  /** The reward round trip: a row with as many rewards as spans reads back as exactly those rewards;
   *  its total is their sum and no token off the spans carries anything.  With a count mismatch the
   *  first rewards go to the first spans and the rest is lost. */
  lemma RewardsRoundTrip(mask: seq<bool>, rewards: seq<real>)
    ensures forall t :: 0 <= t < |Runs(mask)| ==>
              TurnSums(PlacedRow(mask, rewards), mask)[t] == if t < |rewards| then rewards[t] else 0.0
    ensures Sum(PlacedRow(mask, rewards)) == Sum(rewards[..Overlap(mask, rewards)])
    ensures |rewards| == |Runs(mask)| ==> TurnSums(PlacedRow(mask, rewards), mask) == rewards
    ensures forall p :: 0 <= p < |mask| && !mask[p] ==> PlacedRow(mask, rewards)[p] == 0.0
  {
    forall t: nat | t < |Runs(mask)| { TurnSumIsReward(mask, rewards, t); }
    forall p: nat | p < |mask| && !mask[p] { NothingOffTheSpans(mask, rewards, p); }
    RunsAreLeftToRight(mask);
    PlacedTotal(|mask|, Runs(mask), rewards, Overlap(mask, rewards));
  }
}

/** Plain REINFORCE leave-one-out, one score per row, and when the turn-level estimator falls back to it. */
module PlainRloo {
  import opened Reals
  import opened Sequences
  import opened MaskSpans
  import opened TurnRewards
  import opened Trloo

  // ----- the plain estimator -----

  /** A row's score: all that its tokens got. */
  function Score(b: Batch, i: nat): real
    requires WellShaped(b) && i < |b.masks|
  {
    Sum(b.rewards[i])
  }

  /** The other rows of the row's prompt. */
  function Others(b: Batch, i: nat): seq<bool>
    requires WellShaped(b) && i < |b.masks|
  {
    seq(|b.masks|, j requires 0 <= j < |b.masks| => j != i && b.index[j] == b.index[i])
  }

  function OthersScores(b: Batch, i: nat): (r: seq<real>)
    requires WellShaped(b) && i < |b.masks|
    ensures |r| == |b.masks|
  {
    seq(|b.masks|, j requires 0 <= j < |b.masks| => if Others(b, i)[j] then Score(b, j) else 0.0)
  }

  function OthersTotal(b: Batch, i: nat): real
    requires WellShaped(b) && i < |b.masks|
  {
    Sum(OthersScores(b, i))
  }

  /** The row's score against the mean score of the other rows of its prompt. */
  function PlainAdvantage(b: Batch, i: nat): real
    requires WellShaped(b) && i < |b.masks|
  {
    var n := Count(Others(b, i));
    if n == 0 then Score(b, i) else Score(b, i) - OthersTotal(b, i) / n as real
  }

  /** The plain estimator's output for a row: its advantage on every generated token. */
  function PlainRow(b: Batch, i: nat): seq<real>
    requires WellShaped(b) && i < |b.masks|
  {
    seq(b.width, p requires 0 <= p < b.width => if b.masks[i][p] then PlainAdvantage(b, i) else 0.0)
  }

  // ----- one turn per row -----

  ghost predicate AtMostOneTurn(b: Batch) {
    forall i :: 0 <= i < |b.masks| ==> |Runs(b.masks[i])| <= 1
  }

  /** The rewards on generated tokens, or else those on all others. */
  function Part(row: seq<real>, mask: seq<bool>, on: bool): (r: seq<real>)
    requires |row| == |mask|
    ensures |r| == |row|
  {
    seq(|row|, p requires 0 <= p < |row| => if mask[p] == on then row[p] else 0.0)
  }

  function PartOf(b: Batch, on: bool): (r: Batch)
    requires WellShaped(b)
    ensures WellShaped(r)
  {
    b.(rewards := seq(|b.masks|, i requires 0 <= i < |b.masks| => Part(b.rewards[i], b.masks[i], on)))
  }

  /** The batch with the rewards that its spans hold. */
  function OnSpans(b: Batch): (r: Batch)
    requires WellShaped(b)
    ensures WellShaped(r)
  {
    PartOf(b, true)
  }

  /** The batch with the rewards that lie off all spans. */
  function OffSpans(b: Batch): (r: Batch)
    requires WellShaped(b)
    ensures WellShaped(r)
  {
    PartOf(b, false)
  }

  lemma {:induction false} SumOfParts(row: seq<real>, on: seq<real>, off: seq<real>)
    requires |row| == |on| == |off| && forall p :: 0 <= p < |row| ==> row[p] == on[p] + off[p]
    ensures Sum(row) == Sum(on) + Sum(off)
    decreases |row|
  {
    if row != [] {
      var n := |row| - 1;
      SumOfParts(row[..n], on[..n], off[..n]);
    }
  }

  lemma ScoreOfParts(b: Batch, i: nat)
    requires WellShaped(b) && i < |b.masks|
    ensures Score(b, i) == Score(OnSpans(b), i) + Score(OffSpans(b), i)
  {
    var row, mask := b.rewards[i], b.masks[i];
    SumOfParts(row, Part(row, mask, true), Part(row, mask, false));
  }

  lemma OthersOfParts(b: Batch, i: nat)
    requires WellShaped(b) && i < |b.masks|
    ensures OthersTotal(b, i) == OthersTotal(OnSpans(b), i) + OthersTotal(OffSpans(b), i)
  {
    forall j: nat | j < |b.masks| ensures OthersScores(b, i)[j] == OthersScores(OnSpans(b), i)[j] + OthersScores(OffSpans(b), i)[j] {
      ScoreOfParts(b, j);
    }
    SumOfParts(OthersScores(b, i), OthersScores(OnSpans(b), i), OthersScores(OffSpans(b), i));
  }

  lemma RunIsMasked(mask: seq<bool>, t: nat)
    requires t < |Runs(mask)|
    ensures var (s, e) := Runs(mask)[t];
            s <= e <= |mask| && forall p :: s <= p < e ==> mask[p]
  {
    RunsAreRuns(mask);
    RunsAreLeftToRight(mask);
    var span := Runs(mask)[t];
    forall p | span.0 <= p < span.1 ensures mask[p] {
      assert Within(p, span);
      CoverIsMask(mask, Runs(mask), p);
    }
  }

  lemma SpanSumOfPart(row: seq<real>, mask: seq<bool>, t: nat)
    requires |row| == |mask| && t < |Runs(mask)|
    ensures TurnSums(row, mask)[t] == TurnSums(Part(row, mask, true), mask)[t]
  {
    RunIsMasked(mask, t);
    var (s, e) := Runs(mask)[t];
    assert row[s..e] == Part(row, mask, true)[s..e];
  }

  /** The turn-level estimator does not see what lies off the spans. */
  lemma OffSpansIsUnseen(b: Batch, gamma: real)
    requires WellShaped(b)
    ensures ReturnsOf(b, gamma) == ReturnsOf(OnSpans(b), gamma)
  {
    forall i | 0 <= i < |b.masks| ensures ReturnsOf(b, gamma)[i] == ReturnsOf(OnSpans(b), gamma)[i] {
      forall t: nat | t < |Runs(b.masks[i])| ensures TurnSums(b.rewards[i], b.masks[i])[t] == TurnSums(OnSpans(b).rewards[i], b.masks[i])[t] {
        SpanSumOfPart(b.rewards[i], b.masks[i], t);
      }
      assert TurnSums(b.rewards[i], b.masks[i]) == TurnSums(OnSpans(b).rewards[i], b.masks[i]);
    }
  }

  ghost predicate RowIsCovered(row: seq<real>, mask: seq<bool>)
    requires |row| == |mask|
  {
    forall p :: 0 <= p < |mask| && !mask[p] ==> row[p] == 0.0
  }

  lemma NoTurnNoScore(row: seq<real>, mask: seq<bool>)
    requires |row| == |mask| && RowIsCovered(row, mask) && Runs(mask) == []
    ensures Sum(row) == 0.0
  {
    forall p: nat | p < |mask| ensures !mask[p] {
      RunsAreRuns(mask);
      CoverIsMask(mask, Runs(mask), p);
    }
    SumZeros(row);
  }

  lemma OneTurnHasTheScore(row: seq<real>, mask: seq<bool>)
    requires |row| == |mask| && RowIsCovered(row, mask) && |Runs(mask)| == 1
    ensures TurnSums(row, mask)[0] == Sum(row)
  {
    RunsAreLeftToRight(mask);
    var (s, e) := Runs(mask)[0];
    forall p: nat | p < |mask| && !(s <= p < e) ensures row[p] == 0.0 {
      RunsAreRuns(mask);
      CoverIsMask(mask, Runs(mask), p);
      assert !Within(p, Runs(mask)[0]);
    }
    SumSplit(row, e);
    SumSplit(row[..e], s);
    assert row[..e][s..] == row[s..e];
    SumZeros(row[e..]);
    SumZeros(row[..e][..s]);
  }

  /** The prompt's group of turn 0, row by row: its members carry their scores, and the other rows have none. */
  lemma SharesAreScores(b: Batch, gamma: real, i: nat)
    requires WellShaped(b) && AtMostOneTurn(b) && i < |b.masks|
    ensures forall j :: 0 <= j < |b.masks| ==>
              Shares(ReturnsOf(OnSpans(b), gamma), b.index, (b.index[i], 0))[j] == if b.index[j] == b.index[i] then Score(OnSpans(b), j) else 0.0
  {
    forall j | 0 <= j < |b.masks|
      ensures Shares(ReturnsOf(OnSpans(b), gamma), b.index, (b.index[i], 0))[j] == if b.index[j] == b.index[i] then Score(OnSpans(b), j) else 0.0
    {
      var row, mask := OnSpans(b).rewards[j], b.masks[j];
      assert RowIsCovered(row, mask);
      assert ReturnsOf(OnSpans(b), gamma)[j] == TurnSums(row, mask);
      if Runs(mask) == [] {
        NoTurnNoScore(row, mask);
      } else {
        OneTurnHasTheScore(row, mask);
      }
    }
  }

  lemma SharesTotal(b: Batch, gamma: real, i: nat)
    requires WellShaped(b) && AtMostOneTurn(b) && i < |b.masks|
    ensures Sum(Shares(ReturnsOf(OnSpans(b), gamma), b.index, (b.index[i], 0))) == OthersTotal(OnSpans(b), i) + Score(OnSpans(b), i)
  {
    SharesAreScores(b, gamma, i);
    var shares := Shares(ReturnsOf(OnSpans(b), gamma), b.index, (b.index[i], 0));
    SumUpdate(shares, i, 0.0);
    assert shares[i := 0.0] == OthersScores(OnSpans(b), i);
  }

  lemma GroupTotal(b: Batch, gamma: real, i: nat)
    requires WellShaped(b) && AtMostOneTurn(b) && i < |b.masks|
    ensures Sum(Values(Members(ReturnsOf(b, gamma), b.index, (b.index[i], 0)))) == OthersTotal(OnSpans(b), i) + Score(OnSpans(b), i)
  {
    OffSpansIsUnseen(b, gamma);
    GroupTotals(ReturnsOf(OnSpans(b), gamma), b.index, (b.index[i], 0));
    SharesTotal(b, gamma, i);
  }

  // ----- how many rows there are -----

  /** The other rows of the prompt with a generated token, or else those without one. */
  function OthersWith(b: Batch, i: nat, token: bool): (r: seq<bool>)
    requires WellShaped(b) && i < |b.masks|
    ensures |r| == |b.masks|
  {
    seq(|b.masks|, j requires 0 <= j < |b.masks| => j != i && b.index[j] == b.index[i] && (Runs(b.masks[j]) != []) == token)
  }

  function FullOthers(b: Batch, i: nat): nat
    requires WellShaped(b) && i < |b.masks|
  {
    Count(OthersWith(b, i, true))
  }

  function EmptyOthers(b: Batch, i: nat): nat
    requires WellShaped(b) && i < |b.masks|
  {
    Count(OthersWith(b, i, false))
  }

  lemma {:induction false} CountOfParts(s: seq<bool>, a: seq<bool>, b: seq<bool>)
    requires |s| == |a| == |b| && forall j :: 0 <= j < |s| ==> !(a[j] && b[j]) && s[j] == (a[j] || b[j])
    ensures Count(s) == Count(a) + Count(b)
    decreases |s|
  {
    if s != [] {
      var n := |s| - 1;
      CountOfParts(s[..n], a[..n], b[..n]);
    }
  }

  lemma OthersCount(b: Batch, i: nat)
    requires WellShaped(b) && i < |b.masks|
    ensures Count(Others(b, i)) == FullOthers(b, i) + EmptyOthers(b, i)
  {
    CountOfParts(Others(b, i), OthersWith(b, i, true), OthersWith(b, i, false));
  }

  lemma FlagsOfPrompt(b: Batch, gamma: real, i: nat, j: nat)
    requires WellShaped(b) && i < |b.masks| && j < |b.masks|
    ensures |Flags(ReturnsOf(b, gamma), b.index, (b.index[i], 0))| == |b.masks|
    ensures Flags(ReturnsOf(b, gamma), b.index, (b.index[i], 0))[j] == (b.index[j] == b.index[i] && Runs(b.masks[j]) != [])
  {
  }

  lemma FlagsCount(b: Batch, gamma: real, i: nat)
    requires WellShaped(b) && i < |b.masks| && |Runs(b.masks[i])| == 1
    ensures Count(Flags(ReturnsOf(b, gamma), b.index, (b.index[i], 0))) == FullOthers(b, i) + 1
  {
    var flags := Flags(ReturnsOf(b, gamma), b.index, (b.index[i], 0));
    FlagsOfPrompt(b, gamma, i, i);
    CountUpdate(flags, i);
    forall j: nat | j < |b.masks| ensures flags[i := false][j] == OthersWith(b, i, true)[j] {
      FlagsOfPrompt(b, gamma, i, j);
    }
    assert flags[i := false] == OthersWith(b, i, true);
  }

  /** The row's group at turn 0 has the row and the others of its prompt but the empty ones. */
  lemma GroupSize(b: Batch, gamma: real, i: nat)
    requires WellShaped(b) && i < |b.masks| && |Runs(b.masks[i])| == 1
    ensures |Members(ReturnsOf(b, gamma), b.index, (b.index[i], 0))| == FullOthers(b, i) + 1
  {
    FlagsCount(b, gamma, i);
    GroupTotals(ReturnsOf(b, gamma), b.index, (b.index[i], 0));
  }

  lemma OneMember(members: seq<Member>, i: nat, ret: real)
    requires |members| == 1 && (i, ret) in members
    ensures Sum(Values(members)) == ret
  {
    assert members[0] == (i, ret);
    assert Values(members) == [ret] && [ret][..0] == [];
  }

  lemma LoneMember(b: Batch, gamma: real, i: nat)
    requires WellShaped(b) && i < |b.masks| && |Runs(b.masks[i])| == 1
    requires |Members(ReturnsOf(b, gamma), b.index, (b.index[i], 0))| == 1
    ensures Sum(Values(Members(ReturnsOf(b, gamma), b.index, (b.index[i], 0)))) == ReturnsOf(b, gamma)[i][0]
  {
    MemberOfItsGroup(ReturnsOf(b, gamma), b.index, i, 0);
    OneMember(Members(ReturnsOf(b, gamma), b.index, (b.index[i], 0)), i, ReturnsOf(b, gamma)[i][0]);
  }

  lemma ReturnIsScore(b: Batch, gamma: real, i: nat)
    requires WellShaped(b) && i < |b.masks| && |Runs(b.masks[i])| == 1
    ensures |ReturnsOf(b, gamma)[i]| == 1 && ReturnsOf(b, gamma)[i][0] == Score(OnSpans(b), i)
  {
    OffSpansIsUnseen(b, gamma);
    OneTurnHasTheScore(OnSpans(b).rewards[i], b.masks[i]);
  }

  /** `k` other rows with a span and `e` without: the rewards `y` of the row off its span weigh as much as `l`, the
   *  others' rewards off theirs, once every empty row is credited with the mean of `s`, what the others got on
   *  their spans; a row alone must have no rewards off its span. */
  ghost predicate Balanced(k: nat, e: nat, y: real, s: real, l: real) {
    if k + e == 0 then y == 0.0
    else y * (k + e) as real + e as real * (if k == 0 then 0.0 else s / k as real) == l
  }

  ghost predicate FallsBack(b: Batch, i: nat)
    requires WellShaped(b) && i < |b.masks|
  {
    Balanced(FullOthers(b, i), EmptyOthers(b, i), Score(OffSpans(b), i), OthersTotal(OnSpans(b), i), OthersTotal(OffSpans(b), i))
  }

  function AgainstMean(m: nat, score: real, total: real): real {
    if m == 0 then score else score - total / m as real
  }

  lemma QuotientsAgreeIff(k: real, e: real, x: real, y: real, s: real, l: real)
    requires k > 0.0 && e >= 0.0
    ensures x - s / k == x + y - (s + l) / (k + e) <==> y * (k + e) + e * (s / k) == l
  {
    var q, t := s / k, (s + l) / (k + e);
    assert q * k == s && t * (k + e) == s + l;
    assert (q + y) * (k + e) == q * k + q * e + y * (k + e);
    if q * e + y * (k + e) == l {
      Cancel(t, q + y, k + e);
    }
  }

  lemma SpannedOthersAgreeIff(k: nat, e: nat, x: real, y: real, s: real, l: real)
    requires k > 0
    ensures AgainstOthers(k + 1, s + x, x) == AgainstMean(k + e, x + y, s + l) <==> Balanced(k, e, y, s, l)
  {
    assert s + x - x == s;
    assert AgainstOthers(k + 1, s + x, x) == x - s / k as real;
    assert (k + e) as real == k as real + e as real;
    QuotientsAgreeIff(k as real, e as real, x, y, s, l);
  }

  lemma EmptyOthersAgreeIff(e: real, x: real, y: real, l: real)
    requires e > 0.0
    ensures x == x + y - l / e <==> y * e == l
  {
    var t := l / e;
    assert t * e == l;
    if y * e == l { Cancel(t, y, e); }
  }

  lemma LeaveOneOutAgreesIff(k: nat, e: nat, x: real, y: real, s: real, l: real)
    requires k == 0 ==> s == 0.0
    ensures AgainstOthers(k + 1, s + x, x) == AgainstMean(k + e, x + y, s + l) <==> Balanced(k, e, y, s, l)
  {
    if k > 0 {
      SpannedOthersAgreeIff(k, e, x, y, s, l);
    } else if e > 0 {
      EmptyOthersAgreeIff(e as real, x, y, l);
    }
  }

  lemma NoFullOthersNoTotal(b: Batch, gamma: real, i: nat)
    requires WellShaped(b) && AtMostOneTurn(b) && i < |b.masks| && |Runs(b.masks[i])| == 1 && FullOthers(b, i) == 0
    ensures OthersTotal(OnSpans(b), i) == 0.0
  {
    GroupSize(b, gamma, i);
    GroupTotal(b, gamma, i);
    LoneMember(b, gamma, i);
    ReturnIsScore(b, gamma, i);
  }

  lemma TurnAdvantageIs(b: Batch, gamma: real, i: nat)
    requires WellShaped(b) && AtMostOneTurn(b) && i < |b.masks| && |Runs(b.masks[i])| == 1
    ensures |ReturnsOf(b, gamma)[i]| == 1
    ensures Advantage(ReturnsOf(b, gamma), b.index, i, 0) ==
            AgainstOthers(FullOthers(b, i) + 1, OthersTotal(OnSpans(b), i) + Score(OnSpans(b), i), Score(OnSpans(b), i))
  {
    ReturnIsScore(b, gamma, i);
    GroupTotal(b, gamma, i);
    GroupSize(b, gamma, i);
  }

  lemma PlainAdvantageIs(b: Batch, i: nat)
    requires WellShaped(b) && i < |b.masks|
    ensures PlainAdvantage(b, i) ==
            AgainstMean(FullOthers(b, i) + EmptyOthers(b, i), Score(OnSpans(b), i) + Score(OffSpans(b), i),
                        OthersTotal(OnSpans(b), i) + OthersTotal(OffSpans(b), i))
  {
    ScoreOfParts(b, i);
    OthersOfParts(b, i);
    OthersCount(b, i);
  }

  lemma AdvantagesAgreeIff(b: Batch, gamma: real, i: nat)
    requires WellShaped(b) && AtMostOneTurn(b) && i < |b.masks| && |Runs(b.masks[i])| == 1
    ensures |ReturnsOf(b, gamma)[i]| == 1
    ensures Advantage(ReturnsOf(b, gamma), b.index, i, 0) == PlainAdvantage(b, i) <==> FallsBack(b, i)
  {
    TurnAdvantageIs(b, gamma, i);
    PlainAdvantageIs(b, i);
    var k, e := FullOthers(b, i), EmptyOthers(b, i);
    if k == 0 { NoFullOthersNoTotal(b, gamma, i); }
    LeaveOneOutAgreesIff(k, e, Score(OnSpans(b), i), Score(OffSpans(b), i), OthersTotal(OnSpans(b), i), OthersTotal(OffSpans(b), i));
  }

  lemma OnlySpan(mask: seq<bool>, p: nat)
    requires |Runs(mask)| <= 1 && p < |mask| && mask[p]
    ensures |Runs(mask)| == 1 && Within(p, Runs(mask)[0])
  {
    RunsAreRuns(mask);
    CoverIsMask(mask, Runs(mask), p);
  }

  lemma PlainRowIs(b: Batch, gamma: real, i: nat, p: nat)
    requires WellShaped(b) && AtMostOneTurn(b) && i < |b.masks| && p < b.width
    ensures b.masks[i][p] ==> |Runs(b.masks[i])| == |ReturnsOf(b, gamma)[i]| == 1 &&
                              AdvantageTensor(b, gamma)[i][p] == Advantage(ReturnsOf(b, gamma), b.index, i, 0)
    ensures !b.masks[i][p] ==> AdvantageTensor(b, gamma)[i][p] == 0.0
  {
    SpreadIsConstantOnSpans(b, Advantages(ReturnsOf(b, gamma), b.index), i, p);
    if b.masks[i][p] {
      OnlySpan(b.masks[i], p);
      assert (i, 0) in SlotsOf(ReturnsOf(b, gamma));
    }
  }

  lemma RunHasToken(mask: seq<bool>) returns (p: nat)
    requires |Runs(mask)| == 1
    ensures p < |mask| && mask[p]
  {
    RunsAreRuns(mask);
    p := Runs(mask)[0].0;
    assert IsRun(mask, Runs(mask)[0]);
    assert Within(p, Runs(mask)[0]);
    CoverIsMask(mask, Runs(mask), p);
  }

  /** Main result: with at most one turn per row, the turn-level estimator's output for a row is that of plain
   *  leave-one-out exactly when the row is empty, or what lies off the spans and the empty rows of its prompt make up
   *  for each other. */
  lemma SingleTurnIsPlainRlooIff(b: Batch, gamma: real, i: nat)
    requires WellShaped(b) && AtMostOneTurn(b) && i < |b.masks|
    ensures AdvantageTensor(b, gamma)[i] == PlainRow(b, i) <==> Runs(b.masks[i]) == [] || FallsBack(b, i)
  {
    var row, plain := AdvantageTensor(b, gamma)[i], PlainRow(b, i);
    forall p: nat | p < b.width
      ensures !b.masks[i][p] ==> row[p] == plain[p]
      ensures b.masks[i][p] ==> |ReturnsOf(b, gamma)[i]| == 1 &&
                                row[p] == Advantage(ReturnsOf(b, gamma), b.index, i, 0) && plain[p] == PlainAdvantage(b, i)
    {
      PlainRowIs(b, gamma, i, p);
    }
    if Runs(b.masks[i]) != [] {
      AdvantagesAgreeIff(b, gamma, i);
      var p := RunHasToken(b.masks[i]);
      if row == plain { assert row[p] == plain[p]; }
    } else {
      forall p: nat | p < b.width ensures !b.masks[i][p] {
        RunsAreRuns(b.masks[i]);
        CoverIsMask(b.masks[i], Runs(b.masks[i]), p);
      }
    }
  }

  // ----- where the fallback fails -----

  /** Three rows of one prompt with scores 1 and 3 and no generated token. */
  function WithEmptyRow(): Batch {
    Batch([[1.0], [3.0], [0.0]], [[true], [true], [false]], [7, 7, 7], 1)
  }

  /** Two rows of one prompt, with a reward on a token that was not generated. */
  function WithRewardOffSpan(): Batch {
    Batch([[1.0, 1.0], [0.0, 0.0]], [[true, false], [true, false]], [7, 7], 2)
  }

  lemma TinyRuns()
    ensures Runs([true]) == [(0, 1)] && Runs([false]) == [] && Runs([true, false]) == [(0, 1)]
  {
    assert [true][..0] == [] && [false][..0] == [] && [true, false][..1] == [true];
  }

  lemma TinySum(x: real, y: real)
    ensures Sum([x]) == x && Sum([x, y]) == x + y
  {
    assert [x][..0] == [] && [x, y][..1] == [x];
  }

  lemma TinyCounts()
    ensures Count([false, true]) == 1 && Count([true, true]) == 2
    ensures Count([false, true, true]) == 2 && Count([true, true, false]) == 2
  {
    assert [false][..0] == [] && [true][..0] == [];
    assert [false, true][..1] == [false] && [true, true][..1] == [true];
    assert [false, true, true][..2] == [false, true] && [true, true, false][..2] == [true, true];
  }

  lemma EmptyRowTurns()
    ensures WellShaped(WithEmptyRow()) && AtMostOneTurn(WithEmptyRow())
  {
    TinyRuns();
    var masks := WithEmptyRow().masks;
    forall i | 0 <= i < |masks| ensures |Runs(masks[i])| <= 1 {
      assert masks[i] == [true] || masks[i] == [false];
    }
  }

  lemma EmptyRowScores(b: Batch)
    requires b == WithEmptyRow() && WellShaped(b)
    ensures Score(b, 0) == 1.0 && Score(b, 1) == 3.0 && Score(b, 2) == 0.0 && OthersTotal(b, 0) == 3.0
    ensures Others(b, 0) == [false, true, true]
  {
    TinySum(1.0, 0.0);
    TinySum(3.0, 0.0);
    TinySum(0.0, 3.0);
    assert Others(b, 0) == [false, true, true];
    SumAppend([0.0, 3.0], 0.0);
    assert OthersScores(b, 0) == [0.0, 3.0] + [0.0];
  }

  lemma OneTurnReturn(b: Batch, gamma: real, i: nat)
    requires WellShaped(b) && i < |b.masks| && Runs(b.masks[i]) == [(0, 1)]
    ensures ReturnsOf(b, gamma)[i] == [b.rewards[i][0]]
  {
    assert b.rewards[i][0..1] == [b.rewards[i][0]];
    TinySum(b.rewards[i][0], 0.0);
  }

  lemma EmptyRowReturns(b: Batch, gamma: real)
    requires b == WithEmptyRow() && WellShaped(b)
    ensures ReturnsOf(b, gamma) == [[1.0], [3.0], []]
  {
    TinyRuns();
    OneTurnReturn(b, gamma, 0);
    OneTurnReturn(b, gamma, 1);
    assert ReturnsOf(b, gamma)[2] == [];
  }

  lemma EmptyRowAdvantage()
    ensures Advantage([[1.0], [3.0], []], [7, 7, 7], 0, 0) == -2.0
  {
    var rets, index := [[1.0], [3.0], []], [7, 7, 7];
    TinyCounts();
    GroupTotals(rets, index, (7, 0));
    TinySum(1.0, 3.0);
    SumAppend([1.0, 3.0], 0.0);
    assert Flags(rets, index, (7, 0)) == [true, true, false];
    assert Shares(rets, index, (7, 0)) == [1.0, 3.0] + [0.0];
  }

  /** The empty row joins no group, but plain leave-one-out counts it. */
  lemma EmptyRowChangesTheMean(gamma: real)
    ensures WellShaped(WithEmptyRow()) && AtMostOneTurn(WithEmptyRow())
    ensures |ReturnsOf(WithEmptyRow(), gamma)[0]| == 1
    ensures Advantage(ReturnsOf(WithEmptyRow(), gamma), WithEmptyRow().index, 0, 0) == -2.0
    ensures PlainAdvantage(WithEmptyRow(), 0) == -0.5
  {
    EmptyRowTurns();
    TinyCounts();
    EmptyRowScores(WithEmptyRow());
    EmptyRowReturns(WithEmptyRow(), gamma);
    EmptyRowAdvantage();
  }

  lemma OffSpanAdvantage(b: Batch, gamma: real)
    requires b == WithRewardOffSpan() && WellShaped(b)
    ensures |ReturnsOf(b, gamma)[0]| == 1 && Advantage(ReturnsOf(b, gamma), b.index, 0, 0) == 1.0
  {
    TinyRuns();
    TinyCounts();
    TinySum(1.0, 0.0);
    OneTurnReturn(b, gamma, 0);
    OneTurnReturn(b, gamma, 1);
    var rets := ReturnsOf(b, gamma);
    GroupTotals(rets, b.index, (7, 0));
    assert Flags(rets, b.index, (7, 0)) == [true, true] && Shares(rets, b.index, (7, 0)) == [1.0, 0.0];
  }

  lemma OffSpanPlain(b: Batch)
    requires b == WithRewardOffSpan() && WellShaped(b)
    ensures PlainAdvantage(b, 0) == 2.0
  {
    TinyCounts();
    TinySum(1.0, 1.0);
    TinySum(0.0, 0.0);
    assert Others(b, 0) == [false, true];
    assert OthersScores(b, 0) == [0.0, 0.0];
  }

  lemma OffSpanShape()
    ensures WellShaped(WithRewardOffSpan()) && AtMostOneTurn(WithRewardOffSpan())
  {
    TinyRuns();
    var masks := WithRewardOffSpan().masks;
    forall i | 0 <= i < |masks| ensures |Runs(masks[i])| <= 1 {
      assert masks[i] == [true, false];
    }
  }

  /** A reward off the spans is in no turn, but in the row's score. */
  lemma RewardOffSpanIsLost(gamma: real)
    ensures WellShaped(WithRewardOffSpan()) && AtMostOneTurn(WithRewardOffSpan())
    ensures |ReturnsOf(WithRewardOffSpan(), gamma)[0]| == 1
    ensures Advantage(ReturnsOf(WithRewardOffSpan(), gamma), WithRewardOffSpan().index, 0, 0) == 1.0
    ensures PlainAdvantage(WithRewardOffSpan(), 0) == 2.0
  {
    OffSpanShape();
    OffSpanAdvantage(WithRewardOffSpan(), gamma);
    OffSpanPlain(WithRewardOffSpan());
  }
}

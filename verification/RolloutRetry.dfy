/** The retry loop around a rollout: one attempt, then a bounded number of rebuild rounds. */
module RolloutRetry {
  import opened Sequences

  /** What one pass through the rebuild loop meets. */
  datatype Round =
    | Refused          // `_pre_rebuild` reports a lost checkpoint or missing resources
    | RebuildFails     // an exception before the rollout is retried
    | RolloutFaults
    | RolloutSucceeds

  datatype Outcome = Returned | Raised | Undecided

  /** The rounds that get as far as another rollout. */
  function Tries(rounds: seq<Round>): (r: seq<bool>)
    ensures |r| == |rounds|
  {
    seq(|rounds|, i requires 0 <= i < |rounds| => rounds[i].RolloutFaults? || rounds[i].RolloutSucceeds?)
  }

  /** The first `n` rounds fail and call for another one. */
  predicate AllFail(rounds: seq<Round>, n: int)
    requires n <= |rounds|
  {
    forall j :: 0 <= j < n ==> !rounds[j].Refused? && !rounds[j].RolloutSucceeds?
  }

  /** The loop reaches round `i`: every earlier one failed and the bound leaves room. */
  predicate Reached(rounds: seq<Round>, maxRebuildTimes: int, i: int) {
    0 <= i < |rounds| && (maxRebuildTimes < 0 || i < maxRebuildTimes) && AllFail(rounds, i)
  }

  /** Some round that the loop reaches succeeds. */
  ghost predicate Succeeds(rounds: seq<Round>, maxRebuildTimes: int) {
    exists i :: Reached(rounds, maxRebuildTimes, i) && rounds[i].RolloutSucceeds?
  }

  /** Some round that the loop reaches is refused, or all that the bound allows have failed. */
  ghost predicate GivesUp(rounds: seq<Round>, maxRebuildTimes: int) {
    (exists i :: Reached(rounds, maxRebuildTimes, i) && rounds[i].Refused?) ||
    (0 <= maxRebuildTimes <= |rounds| && AllFail(rounds, maxRebuildTimes))
  }

  /** The loop stops at the first round that does not call for another one. */
  lemma StopsAt(rounds: seq<Round>, maxRebuildTimes: int, i: nat)
    requires i < |rounds| && (maxRebuildTimes < 0 || i < maxRebuildTimes)
    requires forall j :: 0 <= j < i ==> rounds[j].RebuildFails? || rounds[j].RolloutFaults?
    requires rounds[i].Refused? || rounds[i].RolloutSucceeds?
    ensures Succeeds(rounds, maxRebuildTimes) <==> rounds[i].RolloutSucceeds?
    ensures GivesUp(rounds, maxRebuildTimes) <==> rounds[i].Refused?
    ensures Reached(rounds, maxRebuildTimes, i) && !Reached(rounds, maxRebuildTimes, i + 1)
  {
    forall k | Reached(rounds, maxRebuildTimes, k) && (rounds[k].Refused? || rounds[k].RolloutSucceeds?) ensures k == i {}
    assert Reached(rounds, maxRebuildTimes, i);
  }

  /** Or it runs out of rounds, by its bound or because the environment has no more. */
  lemma RunsOut(rounds: seq<Round>, maxRebuildTimes: int, n: nat)
    requires n <= |rounds| && forall j :: 0 <= j < n ==> rounds[j].RebuildFails? || rounds[j].RolloutFaults?
    requires n == |rounds| || n == maxRebuildTimes
    requires maxRebuildTimes >= 0 ==> n <= maxRebuildTimes
    ensures !Succeeds(rounds, maxRebuildTimes)
    ensures GivesUp(rounds, maxRebuildTimes) <==> n == maxRebuildTimes
    ensures n < |rounds| ==> !Reached(rounds, maxRebuildTimes, n)
    ensures n > 0 ==> Reached(rounds, maxRebuildTimes, n - 1)
  {
    forall k | Reached(rounds, maxRebuildTimes, k) ensures k < n {}
  }

  /** The loop made `passes` passes. */
  ghost predicate Passes(rounds: seq<Round>, maxRebuildTimes: int, passes: nat, attempts: nat) {
    passes <= |rounds| && attempts == 1 + Count(Tries(rounds[..passes])) &&
    (passes < |rounds| ==> !Reached(rounds, maxRebuildTimes, passes)) &&
    (passes > 0 ==> Reached(rounds, maxRebuildTimes, passes - 1))
  }

  lemma OnePassMore(rounds: seq<Round>, i: nat)
    requires i < |rounds|
    ensures Count(Tries(rounds[..i + 1])) ==
            Count(Tries(rounds[..i])) + if rounds[i].RolloutFaults? || rounds[i].RolloutSucceeds? then 1 else 0
  {
    assert Tries(rounds[..i + 1])[..i] == Tries(rounds[..i]);
  }


  /** `rounds` is what the environment would answer to successive passes; when it runs out the loop
   *  would still be waiting and the outcome is `Undecided`. */
  method Rollout(firstSucceeds: bool, rounds: seq<Round>, maxRebuildTimes: int)
    returns (outcome: Outcome, attempts: nat)
    ensures maxRebuildTimes >= 0 ==> attempts <= 1 + maxRebuildTimes
    ensures outcome.Returned? <==> firstSucceeds || Succeeds(rounds, maxRebuildTimes)
    ensures outcome.Raised? <==> !firstSucceeds && GivesUp(rounds, maxRebuildTimes)
    ensures firstSucceeds ==> attempts == 1
    ensures !firstSucceeds ==> exists passes: nat :: Passes(rounds, maxRebuildTimes, passes, attempts)
  {
    attempts := 1;
    if firstSucceeds { return Returned, attempts; }
    var rebuildTimes := 0;
    while (maxRebuildTimes < 0 || rebuildTimes < maxRebuildTimes) && rebuildTimes < |rounds|
      invariant 0 <= rebuildTimes <= |rounds|
      invariant maxRebuildTimes >= 0 ==> rebuildTimes <= maxRebuildTimes
      invariant forall j :: 0 <= j < rebuildTimes ==> rounds[j].RebuildFails? || rounds[j].RolloutFaults?
      invariant attempts == 1 + Count(Tries(rounds[..rebuildTimes]))
    {
      OnePassMore(rounds, rebuildTimes);
      if rounds[rebuildTimes].Refused? || rounds[rebuildTimes].RolloutSucceeds? {
        StopsAt(rounds, maxRebuildTimes, rebuildTimes);
        outcome := if rounds[rebuildTimes].Refused? then Raised else Returned;
        attempts := if rounds[rebuildTimes].Refused? then attempts else attempts + 1;
        assert Passes(rounds, maxRebuildTimes, rebuildTimes + 1, attempts);
        return;
      }
      if rounds[rebuildTimes].RolloutFaults? {
        attempts := attempts + 1;
      }
      rebuildTimes := rebuildTimes + 1;
    }
    RunsOut(rounds, maxRebuildTimes, rebuildTimes);
    outcome := if rebuildTimes == maxRebuildTimes then Raised else Undecided;
    assert Passes(rounds, maxRebuildTimes, rebuildTimes, attempts);
  }
}

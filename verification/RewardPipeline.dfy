/** From the agent loop through redistribution to TRLOO: three files that must agree on what a turn is. */
module RewardPipeline {
  import opened Sequences
  import opened MaskSpans
  import AgentLoop
  import TurnRewards
  import Trloo
  import Wrappers

  /** One reward per turn: the evaluation's, or the penalty when no kernel was found. */
  lemma {:induction false} RewardOfTurn(config: AgentLoop.Config, turns: seq<AgentLoop.Turn>, t: nat)
    requires t < |turns|
    ensures AgentLoop.RewardsOf(config, turns)[t] == if turns[t].kernel then turns[t].reward else config.penalty
  {
    if t < |turns| - 1 {
      RewardOfTurn(config, turns[..|turns| - 1], t);
    }
  }

  /** End to end: the rewards that TRLOO reads off the padded mask are those of the assistant turns, turn by turn, exactly
   *  when no generation and no feedback of the run was empty; the return it then computes for a turn is the discounted
   *  sum of the rewards of that turn and of the turns after it. */
  lemma TurnRewardsReachTrloo(config: AgentLoop.Config, prompt: seq<AgentLoop.Token>, script: seq<AgentLoop.Turn>, k: nat,
                              padding: nat, gamma: real)
    requires AgentLoop.EndsAt(config, script, k) && config.evalEnabled && config.responseLength > 0
    ensures var output := AgentLoop.OutputOf(config, prompt, script, k);
            var mask := output.responseMask + Repeat(false, padding);
            var row := TurnRewards.NewRow(mask, Wrappers.Some(output.turnRewards));
            var sums := TurnRewards.TurnSums(row, mask);
            |output.turnRewards| == k + 1 &&
            (forall t :: 0 <= t <= k ==> output.turnRewards[t] == if script[t].kernel then script[t].reward else config.penalty) &&
            (sums == output.turnRewards <==> AgentLoop.NothingEmpty(script, k)) &&
            (AgentLoop.NothingEmpty(script, k) ==>
               forall t :: 0 <= t <= k ==> Trloo.Returns(sums, gamma)[t] == Sum(Trloo.Terms(output.turnRewards, gamma, t)))
  {
    var output := AgentLoop.OutputOf(config, prompt, script, k);
    var mask := output.responseMask + Repeat(false, padding);
    AgentLoop.SpansMatchRewards(config, prompt, script, k, padding);
    forall t | 0 <= t <= k ensures output.turnRewards[t] == if script[t].kernel then script[t].reward else config.penalty {
      RewardOfTurn(config, script[..k + 1], t);
    }
    if AgentLoop.NothingEmpty(script, k) {
      TurnRewards.RewardsRoundTrip(mask, output.turnRewards);
      forall t | 0 <= t <= k
        ensures Trloo.Returns(output.turnRewards, gamma)[t] == Sum(Trloo.Terms(output.turnRewards, gamma, t))
      {
        Trloo.ReturnsAreDiscountedSums(output.turnRewards, gamma, t);
      }
    }
  }
}

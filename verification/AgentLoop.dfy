/** The multi-turn agent loop: a state machine that generates, evaluates and feeds back, building the
 *  0/1 response mask and the list of per-turn rewards the trainer later pairs up again.
 */
module AgentLoop {
  import opened MaskSpans
  import opened Sequences

  type Token = nat

  /** What the environment contributes to one assistant turn: the generation, what is found in it, the
   *  reward of its evaluation and the tokens of the feedback that would follow. */
  datatype Turn = Turn(tokens: seq<Token>, answer: bool, kernel: bool, reward: real, feedback: seq<Token>)

  /** Zero turns means no limit, as in the source. */
  datatype Config = Config(maxAssistantTurns: nat, maxUserTurns: nat, responseLength: nat, evalEnabled: bool, penalty: real)

  datatype Output = Output(promptIds: seq<Token>, responseIds: seq<Token>, responseMask: seq<bool>, numTurns: nat,
                           turnRewards: seq<real>)

  // ----- what a run looks like from outside -----

  /** Mask and tokens after `turns`, each followed by its feedback. */
  function MaskOf(turns: seq<Turn>): seq<bool> {
    if turns == [] then []
    else
      var last := turns[|turns| - 1];
      MaskOf(turns[..|turns| - 1]) + Repeat(true, |last.tokens|) + Repeat(false, |last.feedback|)
  }

  function TokensOf(turns: seq<Turn>): seq<Token> {
    if turns == [] then []
    else
      var last := turns[|turns| - 1];
      TokensOf(turns[..|turns| - 1]) + last.tokens + last.feedback
  }

  function RewardsOf(config: Config, turns: seq<Turn>): (r: seq<real>)
    ensures |r| == |turns|
  {
    if turns == [] then []
    else
      var last := turns[|turns| - 1];
      RewardsOf(config, turns[..|turns| - 1]) + [if last.kernel then last.reward else config.penalty]
  }

  /** The loop ends with turn `k`, given that it got there. */
  predicate Ends(config: Config, script: seq<Turn>, k: nat)
    requires k < |script|
  {
    var turn, used := script[k], |MaskOf(script[..k])| + |script[k].tokens|;
    !config.evalEnabled || !turn.kernel || turn.answer || used >= config.responseLength ||
    (config.maxAssistantTurns > 0 && k + 1 >= config.maxAssistantTurns) ||
    (config.maxUserTurns > 0 && k >= config.maxUserTurns) ||
    used + |turn.feedback| >= config.responseLength
  }

  /** Turn `k` is the last one. */
  predicate EndsAt(config: Config, script: seq<Turn>, k: nat) {
    k < |script| && Ends(config, script, k) && forall j: nat :: j < k ==> !Ends(config, script, j)
  }

  function FinalMask(script: seq<Turn>, k: nat): seq<bool>
    requires k < |script|
  {
    MaskOf(script[..k]) + Repeat(true, |script[k].tokens|)
  }

  function FinalTokens(script: seq<Turn>, k: nat): seq<Token>
    requires k < |script|
  {
    TokensOf(script[..k]) + script[k].tokens
  }

  /** The output of a run whose last turn is `k`.  Python's `ids[-0:]` is the whole list, so a run that
   *  generated nothing hands back its prompt as the response. */
  function OutputOf(config: Config, prompt: seq<Token>, script: seq<Turn>, k: nat): Output
    requires k < |script|
  {
    var tokens, mask := FinalTokens(script, k), FinalMask(script, k);
    Output(prompt, Cut(if mask == [] then prompt + tokens else tokens, config.responseLength), Cut(mask, config.responseLength),
           2 * k + 2, RewardsOf(config, script[..if config.evalEnabled then k + 1 else k]))
  }

  lemma {:induction false} PlayedLengths(turns: seq<Turn>)
    ensures |TokensOf(turns)| == |MaskOf(turns)|
  {
    if turns != [] {
      PlayedLengths(turns[..|turns| - 1]);
    }
  }

  /** One mask entry per token. */
  lemma FinalLengths(script: seq<Turn>, k: nat)
    requires k < |script|
    ensures |FinalTokens(script, k)| == |FinalMask(script, k)|
  {
    PlayedLengths(script[..k]);
  }

  // ----- the same, token by token -----

  /** How many tokens the first `j` turns and their feedback have. */
  function TokensBefore(script: seq<Turn>, j: nat): nat
    requires j <= |script|
  {
    if j == 0 then 0 else TokensBefore(script, j - 1) + |script[j - 1].tokens| + |script[j - 1].feedback|
  }

  /** Another turn follows turn `j`: it was evaluated, was not the answer and hit no cap, and with its feedback the
   *  response budget is not used up. */
  ghost predicate GoesOn(config: Config, script: seq<Turn>, j: nat)
    requires j < |script|
  {
    config.evalEnabled && script[j].kernel && !script[j].answer && TokensBefore(script, j + 1) < config.responseLength &&
    (config.maxAssistantTurns == 0 || j + 1 < config.maxAssistantTurns) && (config.maxUserTurns == 0 || j < config.maxUserTurns)
  }

  /** Token `q` of turn `j` in the response, and in the mask. */
  ghost predicate StandsAt(ids: seq<Token>, mask: seq<bool>, limit: nat, start: nat, tokens: seq<Token>, generated: bool) {
    forall q :: 0 <= q < |tokens| && start + q < limit ==>
      start + q < |ids| && start + q < |mask| && ids[start + q] == tokens[q] && mask[start + q] == generated
  }

  /** What the loop returns after turn `k`: generated tokens are marked in the mask and feedback is not, up to the response
   *  length; every evaluated turn has its reward and every other the penalty; a response without a token is the prompt. */
  ghost predicate IsOutput(config: Config, prompt: seq<Token>, script: seq<Turn>, k: nat, output: Output)
    requires k < |script|
  {
    var total := TokensBefore(script, k) + |script[k].tokens|;
    output.promptIds == prompt && output.numTurns == (k + 1) + k + 1 &&
    |output.responseMask| == Min(total, config.responseLength) &&
    (if total == 0 then output.responseIds == Cut(prompt, config.responseLength)
     else |output.responseIds| == |output.responseMask| && AreInPlace(config, script, k, output)) &&
    |output.turnRewards| == (if config.evalEnabled then k + 1 else k) &&
    (forall t :: 0 <= t < |output.turnRewards| ==>
       output.turnRewards[t] == if script[t].kernel then script[t].reward else config.penalty)
  }

  ghost predicate AreInPlace(config: Config, script: seq<Turn>, k: nat, output: Output)
    requires k < |script|
  {
    forall j: nat :: j <= k ==>
      StandsAt(output.responseIds, output.responseMask, config.responseLength, TokensBefore(script, j), script[j].tokens, true) &&
      (j < k ==> StandsAt(output.responseIds, output.responseMask, config.responseLength,
                          TokensBefore(script, j) + |script[j].tokens|, script[j].feedback, false))
  }

  lemma {:induction false} PlayedSize(script: seq<Turn>, k: nat)
    requires k <= |script|
    ensures |MaskOf(script[..k])| == |TokensOf(script[..k])| == TokensBefore(script, k)
  {
    PlayedLengths(script[..k]);
    if k > 0 {
      PlayedSize(script, k - 1);
      assert script[..k][..k - 1] == script[..k - 1];
    }
  }

  lemma EndsUnlessItGoesOn(config: Config, script: seq<Turn>, j: nat)
    requires j < |script|
    ensures Ends(config, script, j) <==> !GoesOn(config, script, j)
  {
    PlayedSize(script, j);
  }

  /** `tokens` are there as a whole, all marked or none. */
  ghost predicate Holds(ids: seq<Token>, mask: seq<bool>, start: nat, tokens: seq<Token>, generated: bool) {
    start + |tokens| <= |ids| == |mask| &&
    forall q :: 0 <= q < |tokens| ==> ids[start + q] == tokens[q] && mask[start + q] == generated
  }

  lemma StillHolds(ids: seq<Token>, mask: seq<bool>, more: seq<Token>, moreMask: seq<bool>, start: nat, tokens: seq<Token>, generated: bool)
    requires |more| == |moreMask| && Holds(ids, mask, start, tokens, generated)
    ensures Holds(ids + more, mask + moreMask, start, tokens, generated)
  {
    forall q | 0 <= q < |tokens| ensures (ids + more)[start + q] == tokens[q] && (mask + moreMask)[start + q] == generated {
      assert ids[start + q] == tokens[q];
    }
  }

  lemma HoldsLast(ids: seq<Token>, mask: seq<bool>, tokens: seq<Token>, generated: bool)
    requires |ids| == |mask|
    ensures Holds(ids + tokens, mask + Repeat(generated, |tokens|), |ids|, tokens, generated)
  {
  }

  lemma HoldsTurn(ids: seq<Token>, mask: seq<bool>, turn: Turn)
    requires |ids| == |mask|
    ensures var ids', mask' := ids + turn.tokens + turn.feedback,
                               mask + Repeat(true, |turn.tokens|) + Repeat(false, |turn.feedback|);
            Holds(ids', mask', |ids|, turn.tokens, true) && Holds(ids', mask', |ids| + |turn.tokens|, turn.feedback, false)
  {
    var ids', mask' := ids + turn.tokens, mask + Repeat(true, |turn.tokens|);
    HoldsLast(ids, mask, turn.tokens, true);
    StillHolds(ids', mask', turn.feedback, Repeat(false, |turn.feedback|), |ids|, turn.tokens, true);
    HoldsLast(ids', mask', turn.feedback, false);
  }

  /** What a turn and its feedback add. */
  function TurnTokens(turn: Turn): seq<Token> {
    turn.tokens + turn.feedback
  }

  function TurnMask(turn: Turn): (m: seq<bool>)
    ensures |m| == |TurnTokens(turn)|
  {
    Repeat(true, |turn.tokens|) + Repeat(false, |turn.feedback|)
  }

  lemma PlayedTurn(script: seq<Turn>, k: nat)
    requires k < |script|
    ensures TokensOf(script[..k + 1]) == TokensOf(script[..k]) + TurnTokens(script[k])
    ensures MaskOf(script[..k + 1]) == MaskOf(script[..k]) + TurnMask(script[k])
  {
    assert script[..k + 1][..k] == script[..k];
  }

  ghost predicate HoldTurn(ids: seq<Token>, mask: seq<bool>, script: seq<Turn>, j: nat)
    requires j < |script|
  {
    Holds(ids, mask, TokensBefore(script, j), script[j].tokens, true) &&
    Holds(ids, mask, TokensBefore(script, j) + |script[j].tokens|, script[j].feedback, false)
  }

  lemma StillHoldTurn(ids: seq<Token>, mask: seq<bool>, more: seq<Token>, moreMask: seq<bool>, script: seq<Turn>, j: nat)
    requires j < |script| && |more| == |moreMask| && HoldTurn(ids, mask, script, j)
    ensures HoldTurn(ids + more, mask + moreMask, script, j)
  {
    StillHolds(ids, mask, more, moreMask, TokensBefore(script, j), script[j].tokens, true);
    StillHolds(ids, mask, more, moreMask, TokensBefore(script, j) + |script[j].tokens|, script[j].feedback, false);
  }

  lemma LastTurnHolds(script: seq<Turn>, j: nat)
    requires j < |script|
    ensures HoldTurn(TokensOf(script[..j + 1]), MaskOf(script[..j + 1]), script, j)
  {
    var ids, mask, turn := TokensOf(script[..j]), MaskOf(script[..j]), script[j];
    PlayedTurn(script, j);
    PlayedSize(script, j);
    HoldsTurn(ids, mask, turn);
    assert ids + turn.tokens + turn.feedback == ids + TurnTokens(turn);
    assert mask + Repeat(true, |turn.tokens|) + Repeat(false, |turn.feedback|) == mask + TurnMask(turn);
  }

  lemma {:induction false} PlayedHolds(script: seq<Turn>, k: nat, j: nat)
    requires j < k <= |script|
    ensures HoldTurn(TokensOf(script[..k]), MaskOf(script[..k]), script, j)
  {
    if j == k - 1 {
      LastTurnHolds(script, j);
    } else {
      PlayedHolds(script, k - 1, j);
      PlayedTurn(script, k - 1);
      StillHoldTurn(TokensOf(script[..k - 1]), MaskOf(script[..k - 1]), TurnTokens(script[k - 1]), TurnMask(script[k - 1]), script, j);
    }
  }

  lemma FinalHolds(script: seq<Turn>, k: nat, j: nat)
    requires j <= k < |script|
    ensures Holds(FinalTokens(script, k), FinalMask(script, k), TokensBefore(script, j), script[j].tokens, true)
    ensures j < k ==> HoldTurn(FinalTokens(script, k), FinalMask(script, k), script, j)
  {
    var ids, mask, last := TokensOf(script[..k]), MaskOf(script[..k]), script[k].tokens;
    PlayedSize(script, k);
    if j < k {
      PlayedHolds(script, k, j);
      StillHoldTurn(ids, mask, last, Repeat(true, |last|), script, j);
    } else {
      HoldsLast(ids, mask, last, true);
    }
  }

  lemma CutStands(ids: seq<Token>, mask: seq<bool>, limit: nat, start: nat, tokens: seq<Token>, generated: bool)
    requires Holds(ids, mask, start, tokens, generated)
    ensures StandsAt(Cut(ids, limit), Cut(mask, limit), limit, start, tokens, generated)
  {
    forall q | 0 <= q < |tokens| && start + q < limit
      ensures start + q < |Cut(ids, limit)| && start + q < |Cut(mask, limit)|
      ensures Cut(ids, limit)[start + q] == tokens[q] && Cut(mask, limit)[start + q] == generated
    {
      assert ids[start + q] == tokens[q];
    }
  }

  lemma {:induction false} RewardsAre(config: Config, script: seq<Turn>, n: nat)
    requires n <= |script|
    ensures forall t :: 0 <= t < n ==>
              RewardsOf(config, script[..n])[t] == if script[t].kernel then script[t].reward else config.penalty
  {
    if n > 0 {
      RewardsAre(config, script, n - 1);
      assert script[..n][..n - 1] == script[..n - 1];
    }
  }

  lemma OutputIsInPlace(config: Config, prompt: seq<Token>, script: seq<Turn>, k: nat)
    requires k < |script| && FinalMask(script, k) != []
    ensures AreInPlace(config, script, k, OutputOf(config, prompt, script, k))
  {
    var ids, mask, limit := FinalTokens(script, k), FinalMask(script, k), config.responseLength;
    forall j: nat | j <= k
      ensures StandsAt(Cut(ids, limit), Cut(mask, limit), limit, TokensBefore(script, j), script[j].tokens, true)
      ensures j < k ==> StandsAt(Cut(ids, limit), Cut(mask, limit), limit, TokensBefore(script, j) + |script[j].tokens|,
                                 script[j].feedback, false)
    {
      FinalHolds(script, k, j);
      CutStands(ids, mask, limit, TokensBefore(script, j), script[j].tokens, true);
      if j < k {
        CutStands(ids, mask, limit, TokensBefore(script, j) + |script[j].tokens|, script[j].feedback, false);
      }
    }
  }

  lemma OutputIs(config: Config, prompt: seq<Token>, script: seq<Turn>, k: nat)
    requires k < |script|
    ensures IsOutput(config, prompt, script, k, OutputOf(config, prompt, script, k))
  {
    PlayedSize(script, k);
    FinalLengths(script, k);
    RewardsAre(config, script, if config.evalEnabled then k + 1 else k);
    if FinalMask(script, k) != [] {
      OutputIsInPlace(config, prompt, script, k);
    } else {
      assert prompt + FinalTokens(script, k) == prompt;
    }
  }

  // ----- the loop -----

  datatype Phase = Pending | Generating | Evaluating | Terminated

  class Trajectory {
    const config: Config
    var promptIds: seq<Token>
    var responseMask: seq<bool>
    var turnRewards: seq<real>
    var assistantTurns: nat
    var userTurns: nat
    var shouldTerminateAfterEval: bool

    constructor (config: Config)
      ensures this.config == config
      ensures promptIds == [] && responseMask == [] && turnRewards == [] && assistantTurns == userTurns == 0
      ensures !shouldTerminateAfterEval
    {
      this.config := config;
      promptIds, responseMask, turnRewards := [], [], [];
      assistantTurns, userTurns, shouldTerminateAfterEval := 0, 0, false;
    }

    /** `script[..k]` has been played, each turn with its feedback. */
    ghost predicate Before(prompt: seq<Token>, script: seq<Turn>, k: nat)
      requires k <= |script|
      reads this
    {
      promptIds == prompt + TokensOf(script[..k]) && responseMask == MaskOf(script[..k]) &&
      turnRewards == RewardsOf(config, script[..k]) && assistantTurns == userTurns == k
    }

    /** Turn `k` has been generated as well, and `rewarded` turns have their reward. */
    ghost predicate During(prompt: seq<Token>, script: seq<Turn>, k: nat, rewarded: nat)
      requires k < |script| && rewarded <= |script|
      reads this
    {
      promptIds == prompt + FinalTokens(script, k) && responseMask == FinalMask(script, k) &&
      turnRewards == RewardsOf(config, script[..rewarded]) && assistantTurns == k + 1 && userTurns == k
    }

    predicate Capped(turn: Turn)
      reads this
    {
      turn.answer || |responseMask| >= config.responseLength ||
      (config.maxAssistantTurns > 0 && assistantTurns >= config.maxAssistantTurns) ||
      (config.maxUserTurns > 0 && userTurns >= config.maxUserTurns)
    }

    method HandlePending(prompt: seq<Token>, ghost script: seq<Turn>) returns (next: Phase)
      requires responseMask == [] && turnRewards == [] && assistantTurns == userTurns == 0
      modifies this
      ensures next == Generating && Before(prompt, script, 0)
    {
      promptIds := prompt;
      assert prompt + [] == prompt;
      next := Generating;
    }

    method HandleGenerating(turn: Turn, ghost prompt: seq<Token>, ghost script: seq<Turn>, ghost k: nat) returns (next: Phase)
      requires k < |script| && turn == script[k] && Before(prompt, script, k)
      modifies this
      ensures During(prompt, script, k, if config.evalEnabled && !turn.kernel then k + 1 else k)
      ensures next == if config.evalEnabled && turn.kernel then Evaluating else Terminated
      ensures shouldTerminateAfterEval == Capped(turn)
    {
      assistantTurns := assistantTurns + 1;
      promptIds := promptIds + turn.tokens;
      responseMask := responseMask + Repeat(true, |turn.tokens|);
      assert prompt + TokensOf(script[..k]) + turn.tokens == prompt + FinalTokens(script, k);
      shouldTerminateAfterEval := Capped(turn);
      if !config.evalEnabled {
        return Terminated;
      }
      if !turn.kernel {
        turnRewards := turnRewards + [config.penalty];
        assert script[..k + 1][..k] == script[..k];
        return Terminated;
      }
      return Evaluating;
    }

    method HandleEvaluating(turn: Turn, ghost prompt: seq<Token>, ghost script: seq<Turn>, ghost k: nat) returns (next: Phase)
      requires k < |script| && turn == script[k] && turn.kernel && During(prompt, script, k, k)
      requires shouldTerminateAfterEval == Capped(turn)
      modifies this
      ensures old(Capped(turn)) || |old(responseMask)| + |turn.feedback| >= config.responseLength
              ==> next == Terminated && During(prompt, script, k, k + 1)
      ensures !(old(Capped(turn)) || |old(responseMask)| + |turn.feedback| >= config.responseLength)
              ==> next == Generating && Before(prompt, script, k + 1)
    {
      assert script[..k + 1][..k] == script[..k];
      turnRewards := turnRewards + [turn.reward];
      if shouldTerminateAfterEval {
        return Terminated;
      }
      if |responseMask| + |turn.feedback| >= config.responseLength {
        return Terminated;
      }
      promptIds := promptIds + turn.feedback;
      responseMask := responseMask + Repeat(false, |turn.feedback|);
      assert prompt + FinalTokens(script, k) + turn.feedback == prompt + TokensOf(script[..k + 1]);
      userTurns := userTurns + 1;
      return Generating;
    }

    /** Slices prompt and response from what was accumulated. */
    method Finish(ghost prompt: seq<Token>, ghost script: seq<Turn>, ghost k: nat) returns (output: Output)
      requires k < |script| && During(prompt, script, k, if config.evalEnabled then k + 1 else k)
      ensures output == OutputOf(config, prompt, script, k)
    {
      FinalLengths(script, k);
      var size := |responseMask|;
      var responseIds := if size == 0 then promptIds else promptIds[|promptIds| - size..];
      output := Output(promptIds[..|promptIds| - size], Cut(responseIds, config.responseLength),
                       Cut(responseMask, config.responseLength), userTurns + assistantTurns + 1, turnRewards);
      assert (prompt + FinalTokens(script, k))[..|prompt|] == prompt;
      assert (prompt + FinalTokens(script, k))[|prompt|..] == FinalTokens(script, k);
    }

    /** The state machine, played against `script`.  `done` is false when the script stops short of the
     *  end of the run. */
    method Run(prompt: seq<Token>, script: seq<Turn>) returns (done: bool, output: Output, ghost last: nat)
      requires responseMask == [] && turnRewards == [] && assistantTurns == userTurns == 0
      modifies this
      ensures done ==> EndsAt(config, script, last) && output == OutputOf(config, prompt, script, last)
      ensures !done ==> forall j: nat :: j < |script| ==> !Ends(config, script, j)
      ensures done ==>
                last < |script| && !GoesOn(config, script, last) && (forall j: nat :: j < last ==> GoesOn(config, script, j)) &&
                IsOutput(config, prompt, script, last, output)
      ensures !done ==> forall j: nat :: j < |script| ==> GoesOn(config, script, j)
    {
      var phase := Pending;
      var k := 0;
      phase := HandlePending(prompt, script);
      while phase != Terminated
        invariant k <= |script| && phase != Pending
        invariant forall j: nat :: j < k ==> !Ends(config, script, j)
        invariant phase == Generating ==> Before(prompt, script, k)
        invariant phase == Evaluating ==>
                    k < |script| && script[k].kernel && config.evalEnabled && During(prompt, script, k, k) &&
                    shouldTerminateAfterEval == Capped(script[k])
        invariant phase == Terminated ==>
                    k < |script| && Ends(config, script, k) && During(prompt, script, k, if config.evalEnabled then k + 1 else k)
        decreases |script| - k, if phase == Generating then 2 else if phase == Evaluating then 1 else 0
      {
        if phase == Generating {
          if k == |script| {
            forall j: nat | j < |script| ensures GoesOn(config, script, j) {
              EndsUnlessItGoesOn(config, script, j);
            }
            return false, Output([], [], [], 0, []), 0;
          }
          phase := HandleGenerating(script[k], prompt, script, k);
        } else {
          phase := HandleEvaluating(script[k], prompt, script, k);
          if phase == Generating {
            k := k + 1;
          }
        }
      }
      output := Finish(prompt, script, k);
      OutputIs(config, prompt, script, k);
      forall j: nat | j < |script| ensures Ends(config, script, j) <==> !GoesOn(config, script, j) {
        EndsUnlessItGoesOn(config, script, j);
      }
      done, last := true, k;
    }
  }

  // ----- what the trainer relies on -----

  /** Every generation up to turn `k` and every feedback between two of them has a token. */
  ghost predicate NothingEmpty(script: seq<Turn>, k: nat)
    requires k < |script|
  {
    forall j :: 0 <= j <= k ==> script[j].tokens != [] && (j < k ==> script[j].feedback != [])
  }

  /** Feedback never fills the response budget, so a run that goes on has room for another token. */
  lemma RoomBeforeLastTurn(config: Config, script: seq<Turn>, k: nat)
    requires EndsAt(config, script, k) && config.responseLength > 0
    ensures |MaskOf(script[..k])| < config.responseLength
  {
    if k > 0 {
      assert !Ends(config, script, k - 1);
      assert script[..k][..k - 1] == script[..k - 1];
    }
  }

  /** What a turn of `tokens` generated and `feedback` fed-back tokens does to the runs. */
  lemma RunsOfTurn(before: seq<bool>, tokens: nat, feedback: nat)
    ensures var after := before + Repeat(true, tokens) + Repeat(false, feedback);
            |Runs(after)| == |Runs(before)| + (if tokens > 0 && !EndsInRun(before) then 1 else 0) &&
            (EndsInRun(after) <==> feedback == 0 && (tokens > 0 || EndsInRun(before)))
  {
    var generated := before + Repeat(true, tokens);
    OnesAddOneRun(before, tokens);
    ZerosAddNoRun(generated, feedback);
    assert tokens == 0 ==> generated == before;
    assert feedback == 0 ==> generated + Repeat(false, feedback) == generated;
  }

  lemma LastTurn(script: seq<Turn>, k: nat)
    requires 0 < k <= |script|
    ensures MaskOf(script[..k]) ==
            MaskOf(script[..k - 1]) + Repeat(true, |script[k - 1].tokens|) + Repeat(false, |script[k - 1].feedback|)
  {
    assert script[..k][..k - 1] == script[..k - 1];
  }

  lemma {:induction false} RunsOfTurns(script: seq<Turn>, k: nat)
    requires k <= |script|
    ensures |Runs(MaskOf(script[..k]))| <= k
    ensures |Runs(MaskOf(script[..k]))| == k <==> k == 0 || RunsPerTurn(script, k - 1)
    ensures k > 0 && RunsPerTurn(script, k - 1) ==> (EndsInRun(MaskOf(script[..k])) <==> script[k - 1].feedback == [])
    ensures MaskOf(script[..k]) == [] ==> !EndsInRun(MaskOf(script[..k]))
  {
    if k > 0 {
      RunsOfTurns(script, k - 1);
      LastTurn(script, k);
      RunsOfTurn(MaskOf(script[..k - 1]), |script[k - 1].tokens|, |script[k - 1].feedback|);
    }
  }

  /** `NothingEmpty`, one turn at a time. */
  ghost predicate RunsPerTurn(script: seq<Turn>, k: nat)
    requires k < |script|
  {
    script[k].tokens != [] && (k > 0 ==> script[k - 1].feedback != [] && RunsPerTurn(script, k - 1))
  }

  lemma {:induction false} RunsPerTurnMeans(script: seq<Turn>, k: nat)
    requires k < |script|
    ensures RunsPerTurn(script, k) <==> NothingEmpty(script, k)
  {
    if k > 0 {
      RunsPerTurnMeans(script, k - 1);
    }
  }

  /** Span/reward agreement.  With kernel evaluation on, the padded mask that reaches the trainer has
   *  one run of ones per assistant turn and per reward exactly when no generation and no feedback on
   *  the way was empty; truncation to the response length never costs a run. */
  lemma SpansMatchRewards(config: Config, prompt: seq<Token>, script: seq<Turn>, k: nat, padding: nat)
    requires EndsAt(config, script, k) && config.evalEnabled && config.responseLength > 0
    ensures var output := OutputOf(config, prompt, script, k);
            var spans := Runs(output.responseMask + Repeat(false, padding));
            |output.turnRewards| == k + 1 &&
            (|spans| == |output.turnRewards| <==> NothingEmpty(script, k))
  {
    var before, n := MaskOf(script[..k]), |script[k].tokens|;
    RoomBeforeLastTurn(config, script, k);
    var kept := if |before| + n <= config.responseLength then n else config.responseLength - |before|;
    assert Cut(FinalMask(script, k), config.responseLength) == before + Repeat(true, kept);
    ZerosAddNoRun(before + Repeat(true, kept), padding);
    OnesAddOneRun(before, kept);
    RunsOfTurns(script, k);
    RunsPerTurnMeans(script, k);
  }

  /** The prompt comes back unchanged, and the response is the generated and fed-back tokens, one per
   *  mask entry, unless the run produced no token at all. */
  lemma ResponseFollowsPrompt(config: Config, prompt: seq<Token>, script: seq<Turn>, k: nat)
    requires EndsAt(config, script, k) && config.responseLength > 0
    ensures var output := OutputOf(config, prompt, script, k);
            output.promptIds == prompt &&
            (output.responseIds == Cut(FinalTokens(script, k), config.responseLength) <==>
             FinalTokens(script, k) != [] || prompt == []) &&
            (FinalTokens(script, k) != [] ==> |output.responseIds| == |output.responseMask|)
  {
    FinalLengths(script, k);
  }
}

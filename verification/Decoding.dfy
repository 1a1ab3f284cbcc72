/** Decoding with a deterministic next-token oracle, and what makes a saved prefix resumable.
 *
 * The engine extends a context one token at a time until a token ends the sequence or the token
 * budget of the request is used up.  A rebuilt engine is given prompt + saved tokens as its prompt
 * (fault_recover_single_turn_agent_loop.py), so everything rests on how two such runs compose.
 */
module Decoding {
  import opened Sequences

  type Token = nat

  datatype Model = Model(next: seq<Token> -> Token, ends: Token -> bool)

  /** What the engine appends to `context` when it may emit at most `budget` tokens. */
  ghost function Generate(m: Model, context: seq<Token>, budget: nat): seq<Token>
    decreases budget
  {
    if budget == 0 then []
    else
      var t := m.next(context);
      if m.ends(t) then [t] else [t] + Generate(m, context + [t], budget - 1)
  }

  ghost predicate Ended(m: Model, tokens: seq<Token>) {
    tokens != [] && m.ends(tokens[|tokens| - 1])
  }

  /** `tokens` is what an uninterrupted run from `prompt` emits first. */
  ghost predicate OnTrack(m: Model, prompt: seq<Token>, tokens: seq<Token>) {
    tokens == Generate(m, prompt, |tokens|)
  }

  lemma {:induction false} GenerateLength(m: Model, context: seq<Token>, budget: nat)
    ensures |Generate(m, context, budget)| <= budget
    ensures |Generate(m, context, budget)| < budget ==> Ended(m, Generate(m, context, budget))
    decreases budget
  {
    if budget > 0 && !m.ends(m.next(context)) {
      GenerateLength(m, context + [m.next(context)], budget - 1);
    }
  }

  /** A smaller budget cuts the run short and changes nothing else. */
  lemma {:induction false} SmallerBudgetCuts(m: Model, context: seq<Token>, small: nat, large: nat)
    requires small <= large
    ensures Generate(m, context, small) == Cut(Generate(m, context, large), small)
    decreases large
  {
    if small > 0 && !m.ends(m.next(context)) {
      SmallerBudgetCuts(m, context + [m.next(context)], small - 1, large - 1);
    }
  }

  lemma OnTrackRun(m: Model, context: seq<Token>, budget: nat)
    ensures OnTrack(m, context, Generate(m, context, budget))
  {
    var g := Generate(m, context, budget);
    GenerateLength(m, context, budget);
    SmallerBudgetCuts(m, context, |g|, budget);
  }

  /** Generating from prompt + saved tokens continues the uninterrupted run exactly where the saved
   *  tokens stop, provided they do not already hold the end of the sequence. */
  lemma {:induction false} ResumeContinues(m: Model, prompt: seq<Token>, saved: seq<Token>, budget: nat)
    requires OnTrack(m, prompt, saved) && !Ended(m, saved)
    ensures saved + Generate(m, prompt + saved, budget) == Generate(m, prompt, |saved| + budget)
    decreases |saved|
  {
    if saved == [] {
      assert prompt + saved == prompt;
    } else {
      var t := m.next(prompt);
      if m.ends(t) {
        assert false;
      } else {
        var rest := saved[1..];
        assert saved == [t] + Generate(m, prompt + [t], |saved| - 1);
        assert rest == Generate(m, prompt + [t], |rest|);
        assert Ended(m, rest) ==> Ended(m, saved);
        ResumeContinues(m, prompt + [t], rest, budget);
        assert prompt + [t] + rest == prompt + saved;
        assert saved + Generate(m, prompt + saved, budget) == [t] + (rest + Generate(m, prompt + saved, budget));
      }
    }
  }

  /** Tokens that are on track and either ended or reach the limit give the uninterrupted answer. */
  lemma CompleteIsExact(m: Model, prompt: seq<Token>, tokens: seq<Token>, limit: nat)
    requires OnTrack(m, prompt, tokens)
    requires Ended(m, tokens) || |tokens| >= limit
    ensures Cut(tokens, limit) == Generate(m, prompt, limit)
  {
    if |tokens| >= limit {
      SmallerBudgetCuts(m, prompt, limit, |tokens|);
    } else {
      EndedAbsorbsBudget(m, prompt, |tokens|, limit);
    }
  }

  /** Once the sequence has ended a larger budget adds nothing. */
  lemma {:induction false} EndedAbsorbsBudget(m: Model, prompt: seq<Token>, small: nat, large: nat)
    requires small <= large
    requires Ended(m, Generate(m, prompt, small))
    ensures Generate(m, prompt, large) == Generate(m, prompt, small)
    decreases small
  {
    var t := m.next(prompt);
    if !m.ends(t) {
      var rest := Generate(m, prompt + [t], small - 1);
      assert Generate(m, prompt, small) == [t] + rest;
      assert rest == [] ==> Generate(m, prompt, small) == [t];
      EndedAbsorbsBudget(m, prompt + [t], small - 1, large - 1);
    }
  }

  /** Resume exactness for one request: cutting saved + resumed tokens to the response length gives
   *  the uninterrupted response, whatever was saved and whatever larger budget the retry was given. */
  lemma ResumeIsExact(m: Model, prompt: seq<Token>, saved: seq<Token>, budget: nat, limit: nat)
    requires OnTrack(m, prompt, saved) && !Ended(m, saved)
    requires |saved| + budget >= limit
    ensures Cut(saved + Generate(m, prompt + saved, budget), limit) == Generate(m, prompt, limit)
  {
    ResumeContinues(m, prompt, saved, budget);
    SmallerBudgetCuts(m, prompt, limit, |saved| + budget);
  }

  /** One more chunk of an unfinished request keeps the request's tokens on track. */
  lemma ChunkStaysOnTrack(m: Model, prompt: seq<Token>, done: seq<Token>, chunk: seq<Token>)
    requires OnTrack(m, prompt, done) && !Ended(m, done)
    requires OnTrack(m, prompt + done, chunk)
    ensures OnTrack(m, prompt, done + chunk)
  {
    ResumeContinues(m, prompt, done, |chunk|);
  }
}

/** The end of a validation run: the length check and the division of every reward by its turns. After a resume both
 *  depend on what the dump could not give back. */
module TurnDivision {
  import opened Reals
  import opened Sequences
  import opened Wrappers
  import opened ResumableValidation

  // ----- the length check -----

  predicate GuardPasses(acc: Accumulators) {
    forall key :: key in acc.extra ==> |acc.extra[key]| == 0 || |acc.extra[key]| == |acc.rows|
  }

  lemma GuardByLists(acc: Accumulators)
    ensures GuardPasses(acc) <==> forall key :: |ListOf(acc.extra, key)| == 0 || |ListOf(acc.extra, key)| == |acc.rows|
  {
    if GuardPasses(acc) {
      forall key ensures |ListOf(acc.extra, key)| == 0 || |ListOf(acc.extra, key)| == |acc.rows| {}
    } else {
      var key :| key in acc.extra && |acc.extra[key]| != 0 && |acc.extra[key]| != |acc.rows|;
      assert ListOf(acc.extra, key) == acc.extra[key];
    }
  }

  lemma AllFollowJoin(o: Oracle, a: seq<Sample>, b: seq<Sample>)
    requires AllFollow(o, a) && AllFollow(o, b)
    ensures AllFollow(o, a + b)
  {
  }

  lemma ColumnLength(o: Oracle, samples: seq<Sample>, key: string)
    requires AllFollow(o, samples)
    ensures |Column(samples, key)| == if key == "reward" || key in o.schema then |samples| else 0
  {
    forall i | 0 <= i < |samples| ensures key in Fields(samples[i]) <==> key == "reward" || key in o.schema {
      assert o.FollowsSchema(samples[i]);
    }
    if key == "reward" || key in o.schema {
      FullColumn(samples, key);
    } else {
      EmptyColumn(samples, key);
    }
  }

  /** A run that reloaded the samples `a` and then did `b`. */
  lemma SeenLengths(o: Oracle, a: seq<Sample>, b: seq<Sample>, key: string)
    requires o.schema !! STRUCTURAL && AllFollow(o, a) && AllFollow(o, b)
    ensures |ListOf(Folded(NOTHING, ReloadedAll(a) + b).extra, key)| ==
            if key == "reward" || key in o.schema then |a| + |b| else if key == "score" then |a| else 0
  {
    FoldedColumn(ReloadedAll(a) + b, key);
    SeenColumn(o, a, b, key);
    AllFollowJoin(o, a, b);
    ColumnLength(o, a + b, key);
  }

  lemma SeenGuardIff(o: Oracle, a: seq<Sample>, b: seq<Sample>)
    requires o.schema !! STRUCTURAL && AllFollow(o, a) && AllFollow(o, b)
    ensures GuardPasses(Folded(NOTHING, ReloadedAll(a) + b)) <==> "score" in o.schema || a == [] || b == []
  {
    var acc := Folded(NOTHING, ReloadedAll(a) + b);
    FoldedRows(NOTHING, ReloadedAll(a) + b);
    GuardByLists(acc);
    forall key ensures |ListOf(acc.extra, key)| ==
                       if key == "reward" || key in o.schema then |a| + |b| else if key == "score" then |a| else 0
    {
      SeenLengths(o, a, b, key);
    }
    SeenLengths(o, a, b, "score");
  }

  /** Reloading turns the score into a reward field: the check passes exactly when it was one anyway, or nothing was
   *  reloaded, or nothing was left to do. */
  lemma GuardAfterCrashesIff(o: Oracle, prompts: seq<Prompt>, crashes: seq<Crash>, chunks: seq<seq<Prompt>>)
    requires o.Valid() && DistinctKeys(prompts) && AreCrashes(prompts, crashes) && Flatten(chunks) == prompts
    ensures GuardPasses(Resumed(o, prompts, crashes, chunks).acc) <==>
            "score" in o.schema || |DumpAfter(o, prompts, crashes)| in {0, |prompts| * o.n}
  {
    var m := ResumedStands(o, prompts, crashes, chunks);
    var a, b := SplitSamples(o, prompts, m);
    SeenGuardIff(o, a, b);
  }

  lemma UninterruptedPasses(o: Oracle, prompts: seq<Prompt>)
    requires o.Valid() && DistinctKeys(prompts)
    ensures GuardPasses(Uninterrupted(o, prompts).acc)
  {
    UninterruptedStands(o, prompts);
    SamplesFollow(o, prompts);
    SeenGuardIff(o, [], SamplesOf(o, prompts));
    assert ReloadedAll([]) + SamplesOf(o, prompts) == SamplesOf(o, prompts);
  }

  // ----- the division -----

  /** A trajectory without turns counts as one turn. */
  function Divisor(turns: real): (d: real)
    ensures d > 0.0
  {
    if turns > 0.0 then turns else 1.0
  }

  /** The mean reward per turn. */
  function PerTurn(reward: real, turns: real): real {
    reward / Divisor(turns)
  }

  lemma ZeroFactor(w: real, e: real)
    requires e != 0.0 && w * e == 0.0
    ensures w == 0.0
  {
    Cancel(w, 0.0, e);
  }

  lemma QuotientFixed(q: real, d: real, w: real)
    requires d > 0.0 && q * d == w
    ensures q == w <==> d == 1.0 || w == 0.0
  {
    if q == w && d != 1.0 {
      var e := d - 1.0;
      assert w * (e + 1.0) == w * e + w;
      ZeroFactor(w, e);
    }
    if w == 0.0 { ZeroFactor(q, d); }
  }

  lemma PerTurnMeans(reward: real, turns: real)
    ensures PerTurn(reward, turns) * Divisor(turns) == reward
    ensures PerTurn(reward, turns) == reward <==> Divisor(turns) == 1.0 || reward == 0.0
  {
    QuotientFixed(PerTurn(reward, turns), Divisor(turns), reward);
  }

  function NumberOf(v: Value): real {
    if v.Number? then v.number else 0.0
  }

  function Numbers(values: seq<Value>): (r: seq<real>)
    ensures |r| == |values|
  {
    seq(|values|, i requires 0 <= i < |values| => NumberOf(values[i]))
  }

  function AsReals(turns: seq<int>): (r: seq<real>)
    ensures |r| == |turns|
  {
    seq(|turns|, i requires 0 <= i < |turns| => turns[i] as real)
  }

  /** The denominators: the field of the reward function if it has the right length, else the turn counts
   *  collected on the side, else none. */
  function Denominators(count: nat, numTurns: Option<seq<real>>, sampleTurns: seq<int>): (d: Option<seq<real>>)
    ensures d.Some? ==> |d.value| == count
  {
    if numTurns.Some? && |numTurns.value| == count then numTurns
    else if |sampleTurns| == count then Some(AsReals(sampleTurns))
    else None
  }

  function Divided(rewards: seq<real>, turns: Option<seq<real>>): (r: seq<real>)
    requires turns.Some? ==> |turns.value| == |rewards|
    ensures |r| == |rewards|
  {
    if turns.None? then rewards
    else seq(|rewards|, i requires 0 <= i < |rewards| => PerTurn(rewards[i], turns.value[i]))
  }

  function NumTurnsField(acc: Accumulators): Option<seq<real>> {
    if "num_turns" in acc.extra then Some(Numbers(acc.extra["num_turns"])) else None
  }

  /** The rewards per turn that the accumulators end in. */
  function PerTurnRewards(acc: Accumulators): (r: seq<real>)
    ensures |r| == |ListOf(acc.extra, "reward")|
  {
    var rewards := Numbers(ListOf(acc.extra, "reward"));
    Divided(rewards, Denominators(|rewards|, NumTurnsField(acc), acc.turns))
  }

  method DivideRewards(acc: Accumulators) returns (r: seq<real>)
    ensures r == PerTurnRewards(acc)
  {
    r := Numbers(ListOf(acc.extra, "reward"));
    if r == [] {
      return;
    }
    var turns := NumTurnsField(acc);
    if turns.None? || |turns.value| != |r| {
      turns := None;
      if acc.turns != [] && |acc.turns| == |r| {
        turns := Some(AsReals(acc.turns));
      }
    }
    if turns.Some? {
      var i, divided := 0, [];
      while i < |r|
        invariant 0 <= i <= |r| && |divided| == i
        invariant forall k :: 0 <= k < i ==> divided[k] == PerTurn(r[k], turns.value[k])
      {
        divided := divided + [PerTurn(r[i], turns.value[i])];
        i := i + 1;
      }
      r := divided;
    }
  }

  /** The end of a run: the check fails, or there are rewards per turn. */
  function FinalRewards(acc: Accumulators): Option<seq<real>> {
    if GuardPasses(acc) then Some(PerTurnRewards(acc)) else None
  }

  function RewardOf(s: Sample): real {
    NumberOf(Fields(s)["reward"])
  }

  /** The turns a row's reward is divided by: the reward field of that name; without it the turns its batch counted,
   *  which a reloaded row has lost. */
  function TurnsUsed(s: Sample, reloaded: bool): real {
    if "num_turns" in s.extra then NumberOf(s.extra["num_turns"])
    else if s.turns.Some? && !reloaded then s.turns.value as real
    else 1.0
  }

  /** The rewards per turn of the samples, of which the first `reloaded` come from the dump. */
  function PerTurnOf(samples: seq<Sample>, reloaded: nat): (r: seq<real>)
    ensures |r| == |samples|
  {
    seq(|samples|, k requires 0 <= k < |samples| => PerTurn(RewardOf(samples[k]), TurnsUsed(samples[k], k < reloaded)))
  }

  lemma RewardColumn(samples: seq<Sample>)
    ensures |Column(samples, "reward")| == |samples|
    ensures forall k :: 0 <= k < |samples| ==> Numbers(Column(samples, "reward"))[k] == RewardOf(samples[k])
  {
    FullColumn(samples, "reward");
  }

  lemma TurnsFieldColumn(o: Oracle, samples: seq<Sample>, reloaded: nat)
    requires AllFollow(o, samples) && "num_turns" in o.schema
    ensures |Column(samples, "num_turns")| == |samples|
    ensures forall k :: 0 <= k < |samples| ==> Numbers(Column(samples, "num_turns"))[k] == TurnsUsed(samples[k], k < reloaded)
  {
    FullColumn(samples, "num_turns");
    forall k | 0 <= k < |samples| ensures Fields(samples[k])["num_turns"] == samples[k].extra["num_turns"] {
      assert o.FollowsSchema(samples[k]);
    }
  }

  lemma ColumnsOf(o: Oracle, a: seq<Sample>, b: seq<Sample>, key: string)
    requires o.schema !! STRUCTURAL && AllFollow(o, a) && AllFollow(o, b) && key != "score"
    ensures var extra := Folded(NOTHING, ReloadedAll(a) + b).extra;
            ListOf(extra, key) == Column(a + b, key) && (key in extra <==> Column(a + b, key) != [])
  {
    FoldedColumn(ReloadedAll(a) + b, key);
    SeenColumn(o, a, b, key);
  }

  lemma DividedByField(acc: Accumulators)
    requires "num_turns" in acc.extra && |acc.extra["num_turns"]| == |ListOf(acc.extra, "reward")|
    ensures PerTurnRewards(acc) == Divided(Numbers(ListOf(acc.extra, "reward")), Some(Numbers(acc.extra["num_turns"])))
  {
  }

  lemma NothingToDivide(acc: Accumulators)
    requires ListOf(acc.extra, "reward") == []
    ensures PerTurnRewards(acc) == []
  {
  }

  lemma DividedColumns(o: Oracle, samples: seq<Sample>, reloaded: nat)
    requires AllFollow(o, samples) && "num_turns" in o.schema
    ensures |Column(samples, "reward")| == |Column(samples, "num_turns")|
    ensures Divided(Numbers(Column(samples, "reward")), Some(Numbers(Column(samples, "num_turns")))) == PerTurnOf(samples, reloaded)
  {
    RewardColumn(samples);
    TurnsFieldColumn(o, samples, reloaded);
  }

  lemma RewardsWithField(o: Oracle, a: seq<Sample>, b: seq<Sample>)
    requires o.schema !! STRUCTURAL && AllFollow(o, a) && AllFollow(o, b) && "num_turns" in o.schema
    ensures PerTurnRewards(Folded(NOTHING, ReloadedAll(a) + b)) == PerTurnOf(a + b, |a|)
  {
    var acc := Folded(NOTHING, ReloadedAll(a) + b);
    AllFollowJoin(o, a, b);
    ColumnsOf(o, a, b, "reward");
    ColumnsOf(o, a, b, "num_turns");
    DividedColumns(o, a + b, |a|);
    RewardColumn(a + b);
    if a + b == [] {
      NothingToDivide(acc);
    } else {
      DividedByField(acc);
    }
  }

  /** Without the field: the counts of the side list, where the reloaded ones are zero. */
  lemma SideTurns(o: Oracle, a: seq<Sample>, b: seq<Sample>, k: nat)
    requires AllFollow(o, a) && AllFollow(o, b) && "num_turns" !in o.schema && k < |a + b|
    ensures var turns := Folded(NOTHING, ReloadedAll(a) + b).turns;
            if |turns| == |a + b| then Divisor(turns[k] as real) == Divisor(TurnsUsed((a + b)[k], k < |a|))
            else Divisor(TurnsUsed((a + b)[k], k < |a|)) == 1.0
  {
    SeenTurns(o, a, b);
    AllFollowJoin(o, a, b);
    assert o.FollowsSchema((a + b)[k]);
    var turns := Folded(NOTHING, ReloadedAll(a) + b).turns;
    if k < |a| {
      assert turns[k] == TurnsIn(a[k].extra);
    } else if o.counted {
      assert turns[|a| + (k - |a|)] == b[k - |a|].turns.value;
    }
  }

  lemma RowWithoutField(acc: Accumulators, k: nat)
    requires NumTurnsField(acc) == None && k < |ListOf(acc.extra, "reward")|
    ensures var list := ListOf(acc.extra, "reward");
            PerTurnRewards(acc)[k] == PerTurn(NumberOf(list[k]), if |acc.turns| == |list| then acc.turns[k] as real else 1.0)
  {
    PerTurnMeans(NumberOf(ListOf(acc.extra, "reward")[k]), 1.0);
  }

  /** Row `k` of the rewards without the field. */
  lemma ExpectedRow(o: Oracle, a: seq<Sample>, b: seq<Sample>, k: nat)
    requires o.schema !! STRUCTURAL && AllFollow(o, a) && AllFollow(o, b) && "num_turns" !in o.schema && k < |a + b|
    requires var acc := Folded(NOTHING, ReloadedAll(a) + b);
             NumTurnsField(acc) == None && ListOf(acc.extra, "reward") == Column(a + b, "reward")
    ensures |PerTurnRewards(Folded(NOTHING, ReloadedAll(a) + b))| == |a + b|
    ensures PerTurnRewards(Folded(NOTHING, ReloadedAll(a) + b))[k] == PerTurnOf(a + b, |a|)[k]
  {
    RewardColumn(a + b);
    SideTurns(o, a, b, k);
    RowWithoutField(Folded(NOTHING, ReloadedAll(a) + b), k);
  }

  lemma NoTurnsField(o: Oracle, a: seq<Sample>, b: seq<Sample>)
    requires o.schema !! STRUCTURAL && AllFollow(o, a) && AllFollow(o, b) && "num_turns" !in o.schema
    ensures NumTurnsField(Folded(NOTHING, ReloadedAll(a) + b)) == None
  {
    AllFollowJoin(o, a, b);
    ColumnsOf(o, a, b, "num_turns");
    EmptyColumn(a + b, "num_turns");
  }

  lemma RewardsWithoutField(o: Oracle, a: seq<Sample>, b: seq<Sample>)
    requires o.schema !! STRUCTURAL && AllFollow(o, a) && AllFollow(o, b) && "num_turns" !in o.schema
    ensures PerTurnRewards(Folded(NOTHING, ReloadedAll(a) + b)) == PerTurnOf(a + b, |a|)
  {
    ColumnsOf(o, a, b, "reward");
    NoTurnsField(o, a, b);
    RewardColumn(a + b);
    var r, expected := PerTurnRewards(Folded(NOTHING, ReloadedAll(a) + b)), PerTurnOf(a + b, |a|);
    forall k | 0 <= k < |a + b| ensures |r| == |expected| && r[k] == expected[k] {
      ExpectedRow(o, a, b, k);
    }
  }

  lemma SeenRewards(o: Oracle, a: seq<Sample>, b: seq<Sample>)
    requires o.schema !! STRUCTURAL && AllFollow(o, a) && AllFollow(o, b)
    ensures PerTurnRewards(Folded(NOTHING, ReloadedAll(a) + b)) == PerTurnOf(a + b, |a|)
  {
    if "num_turns" in o.schema {
      RewardsWithField(o, a, b);
    } else {
      RewardsWithoutField(o, a, b);
    }
  }

  /** After any crashes every row's undivided reward is divided once, by the turns that the row still tells. */
  lemma RewardsAreDividedOnce(o: Oracle, prompts: seq<Prompt>, crashes: seq<Crash>, chunks: seq<seq<Prompt>>)
    requires o.Valid() && DistinctKeys(prompts) && AreCrashes(prompts, crashes) && Flatten(chunks) == prompts
    ensures PerTurnRewards(Resumed(o, prompts, crashes, chunks).acc) ==
            PerTurnOf(SamplesOf(o, prompts), |DumpAfter(o, prompts, crashes)|)
  {
    var m := ResumedStands(o, prompts, crashes, chunks);
    var a, b := SplitSamples(o, prompts, m);
    SeenRewards(o, a, b);
  }

  lemma UninterruptedRewards(o: Oracle, prompts: seq<Prompt>)
    requires o.Valid() && DistinctKeys(prompts)
    ensures PerTurnRewards(Uninterrupted(o, prompts).acc) == PerTurnOf(SamplesOf(o, prompts), 0)
  {
    UninterruptedStands(o, prompts);
    SamplesFollow(o, prompts);
    assert ReloadedAll([]) + SamplesOf(o, prompts) == SamplesOf(o, prompts);
    assert [] + SamplesOf(o, prompts) == SamplesOf(o, prompts);
    SeenRewards(o, [], SamplesOf(o, prompts));
  }

  // ----- when the resumed rewards are the uninterrupted ones -----

  /** Losing the turn count does not matter: at most one turn, or no reward. */
  ghost predicate Insensitive(s: Sample) {
    (s.turns.Some? ==> s.turns.value <= 1) || RewardOf(s) == 0.0
  }

  lemma RowAgreesIff(o: Oracle, s: Sample)
    requires o.FollowsSchema(s)
    ensures PerTurn(RewardOf(s), TurnsUsed(s, true)) == PerTurn(RewardOf(s), TurnsUsed(s, false)) <==>
            "num_turns" in o.schema || !o.counted || Insensitive(s)
  {
    if !("num_turns" in o.schema || !o.counted) {
      PerTurnMeans(RewardOf(s), 1.0);
      PerTurnMeans(RewardOf(s), s.turns.value as real);
    }
  }

  lemma PerTurnAgreesIff(o: Oracle, samples: seq<Sample>, reloaded: nat)
    requires AllFollow(o, samples) && reloaded <= |samples|
    ensures PerTurnOf(samples, reloaded) == PerTurnOf(samples, 0) <==>
            "num_turns" in o.schema || !o.counted || forall k :: 0 <= k < reloaded ==> Insensitive(samples[k])
  {
    var r, u := PerTurnOf(samples, reloaded), PerTurnOf(samples, 0);
    forall k | 0 <= k < |samples|
      ensures r[k] == u[k] <==> k >= reloaded || "num_turns" in o.schema || !o.counted || Insensitive(samples[k])
    {
      RowAgreesIff(o, samples[k]);
    }
    assert r == u <==> forall k :: 0 <= k < |samples| ==> r[k] == u[k];
  }

  lemma DumpFits(o: Oracle, prompts: seq<Prompt>, crashes: seq<Crash>)
    requires o.Valid() && DistinctKeys(prompts) && AreCrashes(prompts, crashes)
    ensures |DumpAfter(o, prompts, crashes)| <= |SamplesOf(o, prompts)|
  {
    var m := DumpIsPrefix(o, prompts, crashes);
    var a, b := SplitSamples(o, prompts, m);
  }

  /** Main result: after any crashes a run ends in the rewards per turn of an uninterrupted run exactly when the check
   *  passes and the reward function tells the turns, or the batches do not count them, or no dumped row needs them. */
  lemma ResumedRewardsIff(o: Oracle, prompts: seq<Prompt>, crashes: seq<Crash>, chunks: seq<seq<Prompt>>)
    requires o.Valid() && DistinctKeys(prompts) && AreCrashes(prompts, crashes) && Flatten(chunks) == prompts
    ensures |DumpAfter(o, prompts, crashes)| <= |SamplesOf(o, prompts)|
    ensures FinalRewards(Resumed(o, prompts, crashes, chunks).acc) == FinalRewards(Uninterrupted(o, prompts).acc) <==>
            ("score" in o.schema || |DumpAfter(o, prompts, crashes)| in {0, |prompts| * o.n}) &&
            ("num_turns" in o.schema || !o.counted ||
             forall k :: 0 <= k < |DumpAfter(o, prompts, crashes)| ==> Insensitive(SamplesOf(o, prompts)[k]))
  {
    GuardAfterCrashesIff(o, prompts, crashes, chunks);
    UninterruptedPasses(o, prompts);
    RewardsAreDividedOnce(o, prompts, crashes, chunks);
    UninterruptedRewards(o, prompts);
    DumpFits(o, prompts, crashes);
    SamplesFollow(o, prompts);
    PerTurnAgreesIff(o, SamplesOf(o, prompts), |DumpAfter(o, prompts, crashes)|);
  }

  // ----- a run whose turn counts are lost -----

  /** Every prompt has one rollout of reward 1 in three counted turns, and the reward function gives no fields. */
  function CountedOracle(): Oracle {
    Oracle(_ => [CountedSample()], 1, {}, true, 0)
  }

  function CountedSample(): Sample {
    Sample("math", "u", "", "", "", 1.0, Some(3), map[])
  }

  lemma OneChunk(p: Prompt)
    ensures Flatten([[p]]) == [p] && AreCrashes([p], [Crash([[p]], 1)])
  {
    assert [[p]][..0] == [] && Flatten([[p]]) == Flatten([]) + [p];
  }

  lemma CountedSamples(p: Prompt)
    ensures CountedOracle().Valid() && SamplesOf(CountedOracle(), [p]) == [CountedSample()]
  {
    var o := CountedOracle();
    assert [p][..0] == [] && SamplesOf(o, [p]) == SamplesOf(o, []) + o.rollouts(p);
    forall q: Prompt ensures o.Answers(q) {}
  }

  /** After its only chunk the dump of a run is that of an uninterrupted run. */
  lemma OneChunkDump(o: Oracle, p: Prompt)
    requires o.Valid()
    ensures AreCrashes([p], [Crash([[p]], 1)]) && |DumpAfter(o, [p], [Crash([[p]], 1)])| == o.n
  {
    OneChunk(p);
    var crashes := [Crash([[p]], 1)];
    assert crashes[..0] == [] && crashes[0].chunks[..1] == [[p]];
    assert DumpAfter(o, [p], crashes[..0]) == [];
    assert DumpAfter(o, [p], crashes) == Uninterrupted(o, [p]).file;
    UninterruptedStands(o, [p]);
    assert [p][..1] == [p];
    RecordsSize(o, [p]);
  }

  lemma CountedRewards()
    ensures PerTurnOf([CountedSample()], 1) == [1.0] && PerTurnOf([CountedSample()], 0) == [1.0 / 3.0]
  {
    assert Fields(CountedSample())["reward"] == Number(1.0);
  }

  /** The run crashed after its only chunk: resumed it ends in a reward of 1, uninterrupted in a third of it. */
  lemma TurnCountsAreLost(p: Prompt)
    ensures AreCrashes([p], [Crash([[p]], 1)])
    ensures FinalRewards(Resumed(CountedOracle(), [p], [Crash([[p]], 1)], [[p]]).acc) == Some([1.0])
    ensures FinalRewards(Uninterrupted(CountedOracle(), [p]).acc) == Some([1.0 / 3.0])
  {
    var o, crashes := CountedOracle(), [Crash([[p]], 1)];
    OneChunk(p);
    CountedSamples(p);
    OneChunkDump(o, p);
    GuardAfterCrashesIff(o, [p], crashes, [[p]]);
    UninterruptedPasses(o, [p]);
    RewardsAreDividedOnce(o, [p], crashes, [[p]]);
    UninterruptedRewards(o, [p]);
    CountedRewards();
  }
}

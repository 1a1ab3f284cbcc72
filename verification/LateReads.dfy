/** Exactly which late reads of the token dictionary do harm.
 *
 * A rebuild finds the queue empty, and kills and reads only afterwards, so it may read while tokens of an id are still
 * queued.  The first answer after that can still be right; it is the next retry, planned from the late tokens followed
 * by those that were generated again, that shows the damage.
 */
module LateReads {
  import opened Decoding
  import opened ResumeExactness
  import opened Sequences
  import opened TokensDict
  import opened TokenProtocol

  ghost predicate AnswersRight(s: State, gid: Gid)
    requires gid in s.task.prompts
  {
    gid in s.jobs && s.jobs[gid].Answered? ==> s.jobs[gid].response == Generate(s.task.model, s.task.prompts[gid], s.task.limit)
  }

  /** However the step goes on, as long as later reads are in time for the id, it gets the uninterrupted answer. */
  ghost predicate StaysRight(s: State, gid: Gid)
    requires gid in s.task.prompts
  {
    forall steps: seq<Step> :: Executes(s, steps) && ReadsOnTime(s, steps, gid) ==>
      gid in Final(s, steps).task.prompts && AnswersRight(Final(s, steps), gid)
  }

  // ----- one way in which the step may go on -----

  function Consumptions(n: nat): seq<Step> {
    if n == 0 then [] else [Consume] + Consumptions(n - 1)
  }

  lemma {:induction false} ConsumingApplies(s: State, gid: Gid)
    ensures Executes(s, Consumptions(|s.queue|)) && ReadsOnTime(s, Consumptions(|s.queue|), gid)
    ensures Final(s, Consumptions(|s.queue|)) == s.(store := ApplyAll(s.store, s.queue), queue := [])
    decreases |s.queue|
  {
    if s.queue != [] {
      ConsumingApplies(AfterConsume(s), gid);
      assert Consumptions(|s.queue|)[1..] == Consumptions(|s.queue| - 1);
    }
  }

  lemma ConsumingEmpties(s: State, gid: Gid)
    requires Inv(s) && gid in s.task.prompts
    ensures Executes(s, Consumptions(|s.queue|)) && ReadsOnTime(s, Consumptions(|s.queue|), gid)
    ensures var t := Final(s, Consumptions(|s.queue|));
            t == s.(store := t.store, queue := []) && Inv(t) && Lookup(t.store.dict, gid) == Landing(s, gid)
  {
    ConsumingApplies(s, gid);
    RunKeepsInv(s, Consumptions(|s.queue|));
    ConsumingDrains(s.store, s.queue, s.owner, gid);
  }

  lemma {:induction false} OnTimeAppends(s: State, first: seq<Step>, second: seq<Step>, gid: Gid)
    requires Executes(s, first) && Executes(Final(s, first), second)
    requires ReadsOnTime(s, first, gid) && ReadsOnTime(Final(s, first), second, gid)
    ensures Executes(s, first + second) && Final(s, first + second) == Final(Final(s, first), second)
    ensures ReadsOnTime(s, first + second, gid)
    decreases |first|
  {
    if first == [] {
      assert first + second == second;
    } else {
      assert (first + second)[1..] == first[1..] + second;
      OnTimeAppends(Do(s, first[0]), first[1..], second, gid);
    }
  }

  lemma OneStep(s: State, step: Step, gid: Gid)
    requires Enabled(s, step) && !step.NextTask? && (step.Read? ==> Quiet(s.queue, s.owner, gid))
    ensures Executes(s, [step]) && ReadsOnTime(s, [step], gid) && Final(s, [step]) == Do(s, step)
  {
    assert [step][1..] == [];
    assert Executes(Do(s, step), []);
  }

  lemma {:induction false} FreshRid(used: set<Rid>) returns (rid: Rid)
    ensures forall r :: r in used ==> r < rid
    decreases |used|
  {
    if used == {} {
      rid := 0;
    } else {
      var r :| r in used;
      var rest := FreshRid(used - {r});
      rid := if r < rest then rest else r + 1;
      assert used == (used - {r}) + {r};
    }
  }

  /** What the engine makes of the plan of an id when it emits everything at once. */
  ghost function Regenerated(s: State, gid: Gid): seq<Token>
    requires gid in s.task.prompts && gid in s.plan
  {
    Generate(s.task.model, s.task.prompts[gid] + s.plan[gid].tokens, s.task.limit)
  }

  lemma WholeOutputServes(s: State, gid: Gid, rid: Rid)
    requires Inv(s) && gid in s.task.prompts && gid in s.jobs && s.jobs[gid] == Job.Decoding(rid, [], s.task.limit)
    ensures Enabled(s, Emit([Output(rid, Regenerated(s, gid), true)]))
  {
    assert Booked(s, gid);
    var chunk := Regenerated(s, gid);
    GenerateLength(s.task.model, s.task.prompts[gid] + s.plan[gid].tokens, s.task.limit);
    assert Context(s, gid, []) == s.task.prompts[gid] + s.plan[gid].tokens;
    OnTrackRun(s.task.model, Context(s, gid, []), s.task.limit);
    assert Serves(s, Output(rid, chunk, true));
  }

  /** The attempt generates the id again and puts it all on the queue. */
  lemma GeneratesAgain(s: State, gid: Gid) returns (steps: seq<Step>)
    requires Inv(s) && s.alive && gid in s.task.prompts && gid in s.plan && gid !in s.jobs && !s.plan[gid].finished
    ensures Executes(s, steps) && ReadsOnTime(s, steps, gid)
    ensures var t := Final(s, steps);
            t.task == s.task && Inv(t) && Landing(t, gid) == Entry(Landing(s, gid).tokens + Regenerated(s, gid), true)
  {
    var rid := FreshRid(s.used);
    OneStep(s, Announce(gid, rid), gid);
    AnnounceKeepsInv(s, gid, rid);
    UnmentionedFresh(s, rid);
    AnnounceLands(s, gid, rid, gid);
    var a := Do(s, Announce(gid, rid));
    OneStep(a, Submit(gid, s.task.limit), gid);
    SubmitKeepsInv(a, gid, s.task.limit);
    var b := Do(a, Submit(gid, s.task.limit));
    var outputs := [Output(rid, Regenerated(s, gid), true)];
    WholeOutputServes(b, gid, rid);
    OneStep(b, Emit(outputs), gid);
    EmitKeepsInv(b, outputs);
    ServedLands(b, outputs, 0, gid);
    OnTimeAppends(s, [Announce(gid, rid)], [Submit(gid, s.task.limit)], gid);
    steps := [Announce(gid, rid)] + [Submit(gid, s.task.limit)];
    OnTimeAppends(s, steps, [Emit(outputs)], gid);
    steps := steps + [Emit(outputs)];
  }

  /** A rebuild in which nothing is enqueued after the queue was found empty. */
  lemma RebuildsOnTime(s: State, gid: Gid) returns (steps: seq<Step>)
    requires Inv(s) && gid in s.task.prompts
    ensures Executes(s, steps) && ReadsOnTime(s, steps, gid)
    ensures var t := Final(s, steps);
            t.task == s.task && Inv(t) && t.alive && t.jobs == map[] && t.queue == [] &&
            t.plan == Planned(t.task.prompts, t.store.dict) && Lookup(t.store.dict, gid) == Landing(s, gid)
  {
    OneStep(s, Fault, gid);
    NoticeKeepsInv(s, Failed);
    var a := Do(s, Fault);
    ConsumingEmpties(a, gid);
    var b := Final(a, Consumptions(|a.queue|));
    OnTimeAppends(s, [Fault], Consumptions(|a.queue|), gid);
    steps := [Fault] + Consumptions(|a.queue|);
    var rest := EmptyRebuild(b, gid);
    OnTimeAppends(s, steps, rest, gid);
    steps := steps + rest;
  }

  lemma EmptyRebuild(s: State, gid: Gid) returns (steps: seq<Step>)
    requires Inv(s) && gid in s.task.prompts && s.stage == Failed && s.queue == []
    ensures Executes(s, steps) && ReadsOnTime(s, steps, gid)
    ensures var t := Final(s, steps);
            t.task == s.task && Inv(t) && t.alive && t.jobs == map[] && t.queue == [] && t.store == s.store &&
            t.plan == Planned(t.task.prompts, t.store.dict)
  {
    OneStep(s, FindEmpty, gid);
    NoticeKeepsInv(s, Emptied);
    var a := Do(s, FindEmpty);
    OneStep(a, Kill, gid);
    KillKeepsInv(a);
    var b := Do(a, Kill);
    OneStep(b, Read, gid);
    ReadKeepsInv(b);
    OnTimeAppends(s, [FindEmpty], [Kill], gid);
    OnTimeAppends(s, [FindEmpty] + [Kill], [Read], gid);
    steps := [FindEmpty] + [Kill] + [Read];
  }

  lemma RegeneratedIsNotEmpty(s: State, gid: Gid)
    requires gid in s.task.prompts && gid in s.plan && s.task.limit > 0
    ensures Regenerated(s, gid) != []
  {
  }

  /** What is saved and flagged as finished is answered without a request. */
  lemma SavedAnswers(s: State, gid: Gid)
    requires s.alive && gid in s.task.prompts && s.jobs == map[] && s.plan == Planned(s.task.prompts, s.store.dict)
    requires Lookup(s.store.dict, gid).finished && Lookup(s.store.dict, gid).tokens != []
    ensures Executes(s, [AnswerSaved(gid)]) && ReadsOnTime(s, [AnswerSaved(gid)], gid)
    ensures var t := Final(s, [AnswerSaved(gid)]);
            t.task == s.task &&
            t.jobs == map[gid := Answered(Cut(Lookup(s.store.dict, gid).tokens, s.task.limit), [])]
  {
    assert s.plan[gid] == Lookup(s.store.dict, gid);
    OneStep(s, AnswerSaved(gid), gid);
  }

  /** The id is generated again, the rollout fails again, and the next plan answers from what has been saved. */
  lemma NextRetryAnswers(s: State, gid: Gid) returns (steps: seq<Step>)
    requires Inv(s) && s.alive && gid in s.task.prompts && gid in s.plan && gid !in s.jobs && !s.plan[gid].finished
    ensures Executes(s, steps) && ReadsOnTime(s, steps, gid)
    ensures var t := Final(s, steps);
            t.task == s.task && gid in t.jobs && t.jobs[gid].Answered? &&
            t.jobs[gid].response == Cut(Landing(s, gid).tokens + Regenerated(s, gid), s.task.limit)
  {
    var first := GeneratesAgain(s, gid);
    var a := Final(s, first);
    var second := RebuildsOnTime(a, gid);
    var b := Final(a, second);
    RegeneratedIsNotEmpty(s, gid);
    SavedAnswers(b, gid);
    OnTimeAppends(a, second, [AnswerSaved(gid)], gid);
    OnTimeAppends(s, first, second + [AnswerSaved(gid)], gid);
    steps := first + (second + [AnswerSaved(gid)]);
  }

  // ----- the damage -----

  /** Tokens that are generated again where they do not belong do not add up to the uninterrupted answer. */
  lemma MisplacedTokensAreWrong(task: Task, gid: Gid, context: seq<Token>, landing: seq<Token>)
    requires gid in task.prompts && OnTrack(task.model, task.prompts[gid], Cut(landing, task.limit))
    requires !Continues(task, gid, context, landing)
    ensures Cut(landing + Generate(task.model, context, task.limit), task.limit) != Generate(task.model, task.prompts[gid], task.limit)
  {
    var m, prompt, r := task.model, task.prompts[gid], task.limit - |landing|;
    var again := Generate(m, context, task.limit);
    CutSum(landing, again, task.limit);
    SmallerBudgetCuts(m, context, r, task.limit);
    if Ended(m, landing) {
      EndedAbsorbsBudget(m, prompt, |landing|, task.limit);
      assert |Cut(again, r)| > 0;
    } else {
      ResumeContinues(m, prompt, landing, r);
      if landing + Cut(again, r) == landing + Generate(m, prompt + landing, r) {
        SameSuffix(landing, Cut(again, r), Generate(m, prompt + landing, r));
      }
    }
  }

  lemma HarmlessStaysRight(s: State, steps: seq<Step>, gid: Gid)
    requires Exact(s) && gid in s.task.prompts && gid !in s.spoiled && Executes(s, steps) && ReadsOnTime(s, steps, gid)
    ensures gid in Final(s, steps).task.prompts && AnswersRight(Final(s, steps), gid)
  {
    OnTimeReadsDoNoHarm(s, steps, gid);
    RunKeepsExact(s, steps);
    var t := Final(s, steps);
    assert Unharmed(t, gid) && Booked(t, gid);
    if gid in t.jobs && t.jobs[gid].Answered? {
      AnswerFromPlan(t, gid);
    }
  }

  lemma HarmlessReadStaysRight(s: State, gid: Gid)
    requires Exact(s) && gid in s.task.prompts && gid !in s.spoiled
    ensures StaysRight(s, gid)
  {
    forall steps | Executes(s, steps) && ReadsOnTime(s, steps, gid)
      ensures gid in Final(s, steps).task.prompts && AnswersRight(Final(s, steps), gid)
    {
      HarmlessStaysRight(s, steps, gid);
    }
  }

  lemma HarmfulReadGoesWrong(s: State, gid: Gid, landing: seq<Token>)
    requires Inv(s) && s.alive && gid in s.task.prompts && gid in s.plan && gid !in s.jobs && landing == Landing(s, gid).tokens
    requires OnTrack(s.task.model, s.task.prompts[gid], Cut(landing, s.task.limit))
    requires !Harmless(s.task, gid, s.plan[gid], landing)
    ensures !StaysRight(s, gid)
  {
    MisplacedTokensAreWrong(s.task, gid, s.task.prompts[gid] + s.plan[gid].tokens, landing);
    var more := NextRetryAnswers(s, gid);
    assert !AnswersRight(Final(s, more), gid);
  }

  lemma ReadLeaves(s: State, gid: Gid)
    requires Enabled(s, Read)
    ensures var t := Do(s, Read);
            t.alive && t.task == s.task && t.jobs == map[] && Landing(t, gid) == Landing(s, gid) &&
            t.plan == Planned(s.task.prompts, s.store.dict) &&
            (gid in t.spoiled <==> gid in s.spoiled || gid in Harmed(s.task, s.store.dict, s.queue, s.owner))
  {
  }

  /** A read does an unharmed id no harm exactly when the step, however it goes on, can only answer it right as long as
   *  later reads are in time: it is finished in the plan, or enough tokens are on their way, or what the plan generates
   *  again is what would have come behind them. */
  lemma LateReadIsHarmlessIff(start: State, steps: seq<Step>, gid: Gid)
    requires Initial(start) && Executes(start, steps) && Enabled(Final(start, steps), Read)
    requires gid in Final(start, steps).task.prompts && gid !in Final(start, steps).spoiled
    ensures var s := Final(start, steps);
            gid in Do(s, Read).plan &&
            (Harmless(s.task, gid, Do(s, Read).plan[gid], Landing(s, gid).tokens) <==> StaysRight(Do(s, Read), gid))
  {
    ReachableExact(start, steps);
    var s := Final(start, steps);
    assert Unharmed(s, gid);
    StepKeepsExact(s, Read);
    ReadLeaves(s, gid);
    if Harmless(s.task, gid, Do(s, Read).plan[gid], Landing(s, gid).tokens) {
      HarmlessReadStaysRight(Do(s, Read), gid);
    } else {
      SettlesLands(s.task, gid, Lookup(s.store.dict, gid), s.queue, s.owner);
      HarmfulReadGoesWrong(Do(s, Read), gid, Landing(s, gid).tokens);
    }
  }

  // ----- a run in which it happens -----

  /** A model that never ends and counts its context, a single empty prompt and two tokens to answer. */
  ghost function CountingTask(): Task {
    Task(Model((context: seq<Token>) => |context|, (t: Token) => false), map[0 := []], 2)
  }

  lemma CountingGenerates()
    ensures Generate(CountingTask().model, [], 1) == [0] && Generate(CountingTask().model, [], 2) == [0, 1]
  {
    var m := CountingTask().model;
    assert Generate(m, [] + [0], 1) == [1] + Generate(m, [0] + [1], 0);
    assert Generate(m, [], 2) == [0] + Generate(m, [] + [0], 1);
  }

  lemma CountingSubmits(s: State)
    requires s == Started(CountingTask(), map[])
    ensures s.plan == map[0 := Entry([], false)] && s.late == map[0 := []] && s.log == map[0 := []]
    ensures Enabled(s, Announce(0, 0)) && Enabled(Do(s, Announce(0, 0)), Submit(0, 2))
    ensures var t := Do(Do(s, Announce(0, 0)), Submit(0, 2));
            t == s.(queue := [Mapping(0, 0)], owner := map[0 := 0], used := {0}, jobs := map[0 := Job.Decoding(0, [], 2)])
  {
  }

  /** The request is under way and its mapping consumed; the fault has been noticed and the queue found empty. */
  lemma FoundEmpty() returns (start: State, steps: seq<Step>)
    ensures start == Started(CountingTask(), map[]) && Executes(start, steps)
    ensures var s := Final(start, steps);
            s.task == CountingTask() && s.store == Store(map[0 := 0], map[]) && s.queue == [] && s.owner == map[0 := 0] &&
            s.stage == Emptied && s.plan == map[0 := Entry([], false)] && s.late == map[0 := []] && s.log == map[0 := []] &&
            s.jobs == map[0 := Job.Decoding(0, [], 2)]
  {
    start := Started(CountingTask(), map[]);
    CountingSubmits(start);
    RunExtends(start, [], Announce(0, 0));
    steps := [] + [Announce(0, 0)];
    RunExtends(start, steps, Submit(0, 2));
    steps := steps + [Submit(0, 2)];
    RunExtends(start, steps, Fault);
    steps := steps + [Fault];
    RunExtends(start, steps, Consume);
    steps := steps + [Consume];
    RunExtends(start, steps, FindEmpty);
    steps := steps + [FindEmpty];
  }

  lemma CountingServes(s: State)
    requires s.task == CountingTask() && s.owner == map[0 := 0] && s.jobs == map[0 := Job.Decoding(0, [], 2)]
    requires s.plan == map[0 := Entry([], false)]
    ensures Enabled(s, Emit([Output(0, [0], false)]))
  {
    CountingGenerates();
    assert Context(s, 0, []) == [];
    assert Serves(s, Output(0, [0], false));
  }

  lemma CountingEmits(s: State)
    requires Inv(s) && s.task == CountingTask() && s.owner == map[0 := 0] && s.log == map[0 := []]
    requires Enabled(s, Emit([Output(0, [0], false)]))
    ensures AfterEmit(s, [Output(0, [0], false)]).log == map[0 := [0]]
  {
    ServedOutput(s, [Output(0, [0], false)], 0);
  }

  /** A token is enqueued after the queue was found empty, and engines are killed before it is consumed. */
  lemma OneTokenIsLate() returns (start: State, steps: seq<Step>)
    ensures start == Started(CountingTask(), map[]) && Executes(start, steps)
    ensures var s := Final(start, steps);
            s.task == CountingTask() && s.store.dict == map[] && s.log == map[0 := [0]] && Enabled(s, Read)
  {
    start, steps := FoundEmpty();
    assert Initial(start);
    ReachableInv(start, steps);
    CountingServes(Final(start, steps));
    CountingEmits(Final(start, steps));
    RunExtends(start, steps, Emit([Output(0, [0], false)]));
    steps := steps + [Emit([Output(0, [0], false)])];
    RunExtends(start, steps, Kill);
    steps := steps + [Kill];
  }

  /** What the next retry answers after the late read. */
  lemma CountingRetries(s: State) returns (more: seq<Step>)
    requires Inv(s) && s.task == CountingTask() && s.log == map[0 := [0]] && s.alive && s.jobs == map[] && s.plan == map[0 := Entry([], false)]
    ensures Executes(s, more)
    ensures var t := Final(s, more);
            t.task == s.task && 0 in t.jobs && t.jobs[0].Answered? && t.jobs[0].response == [0, 0]
  {
    assert Booked(s, 0);
    CountingGenerates();
    assert s.task.prompts[0] + s.plan[0].tokens == [];
    more := NextRetryAnswers(s, 0);
    assert Cut([0] + [0, 1], 2) == [0, 0];
  }

  lemma CountingReads(s: State)
    requires Enabled(s, Read) && s.task == CountingTask() && s.store.dict == map[]
    ensures var t := Do(s, Read);
            t.task == s.task && t.log == s.log && t.alive && t.jobs == map[] && t.plan == map[0 := Entry([], false)]
  {
  }

  /** The plan is made before the late token is saved. */
  lemma PlannedWithout() returns (start: State, steps: seq<Step>)
    ensures Initial(start) && Executes(start, steps)
    ensures var s := Final(start, steps);
            Inv(s) && s.task == CountingTask() && s.log == map[0 := [0]] && s.alive && s.jobs == map[] && s.plan == map[0 := Entry([], false)]
  {
    start, steps := OneTokenIsLate();
    assert Initial(start);
    CountingReads(Final(start, steps));
    RunExtends(start, steps, Read);
    steps := steps + [Read];
    ReachableInv(start, steps);
  }

  /** The late token is saved in front of the same token generated again: a run that answers [0, 0] where the
   *  uninterrupted answer is [0, 1]. */
  lemma LateReadIsReachable() returns (start: State, steps: seq<Step>)
    ensures Initial(start) && Executes(start, steps)
    ensures var s := Final(start, steps);
            s.task == CountingTask() && 0 in s.jobs && s.jobs[0].Answered? && s.jobs[0].response == [0, 0]
    ensures Generate(CountingTask().model, CountingTask().prompts[0], CountingTask().limit) == [0, 1]
  {
    start, steps := PlannedWithout();
    var more := CountingRetries(Final(start, steps));
    RunAppends(start, steps, more);
    steps := steps + more;
    CountingGenerates();
  }
}

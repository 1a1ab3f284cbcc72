/** Whether a training step leaves tokens to the next one.
 *
 * `clear` waits until every saved entry is flagged as finished, and then empties the dictionary; the queue it does not
 * look at.  That is right when nothing of an id follows its finished entry on the queue, and when the wait is not over
 * before it began because nothing has been saved yet.
 */
module StepSeparation {
  import opened Decoding
  import opened ResumeExactness
  import opened TokensDict
  import opened TokenProtocol

  /** Once the entry is finished nothing of `gid` follows on the queue. */
  ghost predicate FinishesLast(entry: Entry, queue: seq<Message>, owner: map<Rid, Gid>, gid: Gid)
    decreases |queue|
  {
    (entry.finished ==> Quiet(queue, owner, gid)) &&
    (queue != [] ==>
       FinishesLast(if queue[0].Update? then Deliver(entry, owner, queue[0].infos, gid) else entry, queue[1..], owner, gid))
  }

  /** The flag on its way to the dictionary tells whether the attempt is through with the id. */
  ghost predicate FlagFits(s: State, gid: Gid)
    requires gid in s.plan
  {
    Landing(s, gid).finished <==> if gid in s.jobs then s.jobs[gid].Decoded? || s.jobs[gid].Answered? else s.plan[gid].finished
  }

  ghost predicate Orderly(s: State, gid: Gid)
    requires gid in s.plan
  {
    FinishesLast(Lookup(s.store.dict, gid), s.queue, s.owner, gid) && (s.alive ==> FlagFits(s, gid))
  }

  /** An id for which every read of the step came in time. */
  ghost predicate OnTime(s: State, gid: Gid) {
    gid in s.task.prompts && gid !in s.missed && gid !in s.spoiled
  }

  ghost predicate Separating(s: State) {
    Exact(s) && forall gid :: OnTime(s, gid) ==> Orderly(s, gid)
  }

  // ----- how the queue ends -----

  lemma QuietTail(queue: seq<Message>, owner: map<Rid, Gid>, gid: Gid)
    requires queue != [] && Quiet(queue, owner, gid)
    ensures Quiet(queue[1..], owner, gid)
  {
    forall i | 0 <= i < |queue| - 1 ensures Silent(queue[1..][i], owner, gid) { assert queue[1..][i] == queue[i + 1]; }
  }

  lemma {:induction false} QuietFinishesLast(entry: Entry, queue: seq<Message>, owner: map<Rid, Gid>, gid: Gid)
    requires Quiet(queue, owner, gid)
    ensures FinishesLast(entry, queue, owner, gid)
    decreases |queue|
  {
    if queue != [] {
      QuietTail(queue, owner, gid);
      QuietFinishesLast(if queue[0].Update? then Deliver(entry, owner, queue[0].infos, gid) else entry, queue[1..], owner, gid);
    }
  }

  lemma QuietSnoc(queue: seq<Message>, message: Message, owner: map<Rid, Gid>, gid: Gid)
    requires Quiet(queue, owner, gid) && Silent(message, owner, gid)
    ensures Quiet(queue + [message], owner, gid)
  {
    forall i | 0 <= i < |queue| + 1 ensures Silent((queue + [message])[i], owner, gid) {
      if i < |queue| { assert Silent(queue[i], owner, gid); }
    }
  }

  lemma {:induction false} FinishesLastSnoc(entry: Entry, queue: seq<Message>, message: Message, owner: map<Rid, Gid>, gid: Gid)
    requires FinishesLast(entry, queue, owner, gid)
    requires Drained(entry, queue, owner, gid).finished ==> Silent(message, owner, gid)
    ensures FinishesLast(entry, queue + [message], owner, gid)
    decreases |queue|
  {
    if entry.finished {
      QuietDrains(entry, queue, owner, gid);
      QuietSnoc(queue, message, owner, gid);
    }
    if queue == [] {
      var next := if message.Update? then Deliver(entry, owner, message.infos, gid) else entry;
      assert queue + [message] == [message];
      assert FinishesLast(next, [], owner, gid);
    } else {
      assert (queue + [message])[1..] == queue[1..] + [message];
      FinishesLastSnoc(if queue[0].Update? then Deliver(entry, owner, queue[0].infos, gid) else entry, queue[1..], message, owner, gid);
    }
  }

  lemma FreshQuiet(queue: seq<Message>, owner: map<Rid, Gid>, rid: Rid, to: Gid, gid: Gid)
    requires Unmentioned(queue, rid) && Quiet(queue, owner, gid)
    ensures Quiet(queue, owner[rid := to], gid)
  {
    forall i | 0 <= i < |queue| ensures Silent(queue[i], owner[rid := to], gid) { assert Silent(queue[i], owner, gid); }
  }

  lemma {:induction false} FreshFinishesLast(entry: Entry, queue: seq<Message>, owner: map<Rid, Gid>, rid: Rid, to: Gid, gid: Gid)
    requires Unmentioned(queue, rid) && FinishesLast(entry, queue, owner, gid)
    ensures FinishesLast(entry, queue, owner[rid := to], gid)
    decreases |queue|
  {
    if entry.finished {
      FreshQuiet(queue, owner, rid, to, gid);
    }
    if queue != [] {
      if queue[0].Update? {
        FreshDelivers(entry, owner, queue[0].infos, rid, to, gid);
      }
      FreshFinishesLast(if queue[0].Update? then Deliver(entry, owner, queue[0].infos, gid) else entry, queue[1..], owner, rid, to, gid);
    }
  }

  // ----- every step keeps it -----

  lemma AnnounceKeepsOrderly(s: State, gid: Gid, rid: Rid, g: Gid)
    requires Inv(s) && Enabled(s, Announce(gid, rid)) && g in s.task.prompts && Orderly(s, g)
    ensures Orderly(Do(s, Announce(gid, rid)), g)
  {
    var t := Do(s, Announce(gid, rid));
    UnmentionedFresh(s, rid);
    AnnounceLands(s, gid, rid, g);
    var entry := Lookup(s.store.dict, g);
    FreshFinishesLast(entry, s.queue, s.owner, rid, gid, g);
    FreshDrains(entry, s.queue, s.owner, rid, gid, g);
    FinishesLastSnoc(entry, s.queue, Mapping(rid, gid), t.owner, g);
  }

  lemma OthersAreSilent(s: State, outputs: seq<Output>, gid: Gid)
    requires NotServed(s, outputs, gid)
    ensures Silent(Update(InfosOf(outputs)), s.owner, gid)
  {
    forall i | 0 <= i < |outputs| ensures !(InfosOf(outputs)[i].0 in s.owner && s.owner[InfosOf(outputs)[i].0] == gid) {
      assert InfosOf(outputs)[i].0 == outputs[i].rid;
    }
  }

  lemma EmitKeepsOrderly(s: State, outputs: seq<Output>, gid: Gid)
    requires Inv(s) && Enabled(s, Emit(outputs)) && gid in s.task.prompts && Orderly(s, gid)
    ensures Orderly(Do(s, Emit(outputs)), gid)
  {
    var t := Do(s, Emit(outputs));
    if k: nat :| k < |outputs| && outputs[k].rid in s.owner && s.owner[outputs[k].rid] == gid {
      ServedLands(s, outputs, k, gid);
    } else {
      OthersAreSilent(s, outputs, gid);
      OtherLands(s, outputs, gid, t);
      if gid in s.jobs {
        OtherJob(s, outputs, gid);
      }
    }
    FinishesLastSnoc(Lookup(s.store.dict, gid), s.queue, Update(InfosOf(outputs)), s.owner, gid);
  }

  lemma AnswerKeepsOrderly(s: State, gid: Gid, g: Gid)
    requires Inv(s) && Enabled(s, Answer(gid)) && g in s.task.prompts && Orderly(s, g)
    ensures Orderly(Do(s, Answer(gid)), g)
  {
    AnswerLands(s, gid, g);
    FinishesLastSnoc(Lookup(s.store.dict, g), s.queue, Update([(s.jobs[gid].rid, Extras)]), s.owner, g);
  }

  lemma ConsumeKeepsOrderly(s: State, gid: Gid)
    requires Inv(s) && Enabled(s, Consume) && gid in s.task.prompts && Orderly(s, gid)
    ensures Orderly(Do(s, Consume), gid)
  {
    ConsumeLands(s, gid);
  }

  /** A plan that is made in time. */
  lemma PlanIsOrderly(t: State, gid: Gid)
    requires t.task.limit > 0 && t.jobs == map[] && t.plan == Planned(t.task.prompts, t.store.dict)
    requires gid in t.task.prompts && Sound(t.task, gid, Lookup(t.store.dict, gid)) && Quiet(t.queue, t.owner, gid)
    ensures gid in t.plan && Orderly(t, gid)
  {
    PlannedIsSound(t.task, t.store.dict, gid);
    QuietDrains(Lookup(t.store.dict, gid), t.queue, t.owner, gid);
    QuietFinishesLast(Lookup(t.store.dict, gid), t.queue, t.owner, gid);
  }

  lemma SameOrderly(s: State, t: State, gid: Gid)
    requires gid in s.plan && Orderly(s, gid)
    requires t.plan == s.plan && t.store == s.store && t.queue == s.queue && t.owner == s.owner
    requires t.alive ==> s.alive && (gid in t.jobs <==> gid in s.jobs) && (gid in s.jobs ==> t.jobs[gid] == s.jobs[gid])
    ensures Orderly(t, gid)
  {
  }

  lemma AnswerSavedKeepsOrderly(s: State, gid: Gid, g: Gid)
    requires Inv(s) && Enabled(s, AnswerSaved(gid)) && g in s.task.prompts && Orderly(s, g)
    ensures Orderly(Do(s, AnswerSaved(gid)), g)
  {
    if g != gid { SameOrderly(s, Do(s, AnswerSaved(gid)), g); }
  }

  lemma SubmitKeepsOrderly(s: State, gid: Gid, budget: nat, g: Gid)
    requires Inv(s) && Enabled(s, Submit(gid, budget)) && g in s.task.prompts && Orderly(s, g)
    ensures Orderly(Do(s, Submit(gid, budget)), g)
  {
    if g != gid { SameOrderly(s, Do(s, Submit(gid, budget)), g); }
  }

  lemma ReadKeepsOrderly(s: State, gid: Gid)
    requires Exact(s) && Enabled(s, Read) && OnTime(Do(s, Read), gid)
    ensures gid in Do(s, Read).plan && Orderly(Do(s, Read), gid)
  {
    assert Unharmed(s, gid);
    PlanIsOrderly(Do(s, Read), gid);
  }

  lemma IdleKeepsOrderly(s: State, step: Step, gid: Gid)
    requires Enabled(s, step) && IsIdle(step) && gid in s.plan && Orderly(s, gid)
    ensures gid in Do(s, step).plan && Orderly(Do(s, step), gid)
  {
    IdleMovesNothing(s, step);
    SameOrderly(s, Do(s, step), gid);
  }

  lemma MessageStepKeepsOrderly(s: State, step: Step, gid: Gid)
    requires Inv(s) && Enabled(s, step) && (step.Announce? || step.Answer?) && gid in s.task.prompts && Orderly(s, gid)
    ensures gid in Do(s, step).plan && Orderly(Do(s, step), gid)
  {
    match step
    case Announce(g, rid) => AnnounceKeepsOrderly(s, g, rid, gid);
    case Answer(g) => AnswerKeepsOrderly(s, g, gid);
  }

  lemma JobStepKeepsOrderly(s: State, step: Step, gid: Gid)
    requires Inv(s) && Enabled(s, step) && (step.AnswerSaved? || step.Submit?) && gid in s.task.prompts && Orderly(s, gid)
    ensures gid in Do(s, step).plan && Orderly(Do(s, step), gid)
  {
    match step
    case AnswerSaved(g) => AnswerSavedKeepsOrderly(s, g, gid);
    case Submit(g, budget) => SubmitKeepsOrderly(s, g, budget, gid);
  }

  lemma TokenStepKeepsOrderly(s: State, step: Step, gid: Gid)
    requires Exact(s) && Enabled(s, step) && (step.Emit? || step.Consume? || step.Read?)
    requires OnTime(s, gid) && Orderly(s, gid) && OnTime(Do(s, step), gid)
    ensures gid in Do(s, step).plan && Orderly(Do(s, step), gid)
  {
    match step
    case Emit(outputs) => EmitKeepsOrderly(s, outputs, gid);
    case Consume => ConsumeKeepsOrderly(s, gid);
    case Read => ReadKeepsOrderly(s, gid);
  }

  lemma StepKeepsOrderly(s: State, step: Step, gid: Gid)
    requires Exact(s) && Enabled(s, step) && !step.NextTask? && OnTime(s, gid) && Orderly(s, gid) && OnTime(Do(s, step), gid)
    ensures gid in Do(s, step).plan && Orderly(Do(s, step), gid)
  {
    if IsIdle(step) {
      IdleKeepsOrderly(s, step, gid);
    } else if step.Announce? || step.Answer? {
      MessageStepKeepsOrderly(s, step, gid);
    } else if step.AnswerSaved? || step.Submit? {
      JobStepKeepsOrderly(s, step, gid);
    } else {
      TokenStepKeepsOrderly(s, step, gid);
    }
  }

  lemma BeginSeparates(s: State, task: Task, loaded: Dict, keepsMap: bool)
    requires Inv(s) && task.limit > 0
    ensures Separating(Begin(s, task, loaded, keepsMap))
  {
    BeginIsExact(s, task, loaded, keepsMap);
    var t := Begin(s, task, loaded, keepsMap);
    forall gid | OnTime(t, gid) ensures Orderly(t, gid) {
      assert Unharmed(t, gid);
      PlanIsOrderly(t, gid);
    }
  }

  lemma StaysOnTime(s: State, step: Step, gid: Gid)
    requires Enabled(s, step) && !step.NextTask? && OnTime(Do(s, step), gid)
    ensures OnTime(s, gid)
  {
  }

  lemma StepKeepsSeparating(s: State, step: Step)
    requires Separating(s) && Enabled(s, step)
    ensures Separating(Do(s, step))
  {
    if step.NextTask? {
      BeginSeparates(s, step.task, step.loaded, step.keepsMap);
    } else {
      var t := Do(s, step);
      StepKeepsExact(s, step);
      forall gid | OnTime(t, gid) ensures Orderly(t, gid) {
        StaysOnTime(s, step, gid);
        StepKeepsOrderly(s, step, gid);
      }
    }
  }

  lemma {:induction false} RunKeepsSeparating(s: State, steps: seq<Step>)
    requires Separating(s) && Executes(s, steps)
    ensures Separating(Final(s, steps))
    decreases |steps|
  {
    if steps != [] {
      StepKeepsSeparating(s, steps[0]);
      RunKeepsSeparating(Do(s, steps[0]), steps[1..]);
    }
  }

  lemma ReachableSeparates(start: State, steps: seq<Step>)
    requires Initial(start) && Executes(start, steps)
    ensures Separating(Final(start, steps))
  {
    var task: Task, loaded: Dict :| task.limit > 0 && start == Started(task, loaded);
    BlankInv(task);
    BeginSeparates(Blank(task), task, loaded, false);
    RunKeepsSeparating(start, steps);
  }

  // ----- what the next step inherits -----

  /** The next step saves tokens of `gid` that it neither loaded nor generated. */
  ghost predicate Inherits(s: State, task: Task, loaded: Dict, keepsMap: bool, gid: Gid) {
    var t := Begin(s, task, loaded, keepsMap);
    Lookup(ApplyAll(t.store, t.queue).dict, gid).tokens != Lookup(loaded, gid).tokens
  }

  lemma NothingAdded(before: seq<Token>, more: seq<Token>)
    ensures before + more != before <==> more != []
  {
    assert before + [] == before;
    if more != [] { assert |before + more| > |before|; }
  }

  /** What the consumer makes of the old queue. */
  lemma InheritedTokens(ids: map<Rid, Gid>, queue: seq<Message>, loaded: Dict, gid: Gid)
    requires Timely(ids, queue, IdsAfter(ids, queue))
    ensures Lookup(ApplyAll(Store(ids, loaded), queue).dict, gid).tokens ==
            Lookup(loaded, gid).tokens + Queued(queue, IdsAfter(ids, queue), gid)
  {
    ConsumingDrains(Store(ids, loaded), queue, IdsAfter(ids, queue), gid);
    DrainedTokens(Lookup(loaded, gid), queue, IdsAfter(ids, queue), gid);
  }

  /** In general, whatever the consumer had missed at reads: tokens are inherited exactly when they are queued under a
   *  request whose id the consumer still knows, or has yet to learn from the queue. */
  lemma InheritsIff(start: State, steps: seq<Step>, task: Task, loaded: Dict, keepsMap: bool, gid: Gid)
    requires Initial(start) && Executes(start, steps)
    ensures var s := Final(start, steps);
            Inherits(s, task, loaded, keepsMap, gid) <==>
            Queued(s.queue, if keepsMap then s.owner else IdsAfter(map[], s.queue), gid) != []
  {
    ReachableInv(start, steps);
    var s := Final(start, steps);
    var ids := if keepsMap then s.store.ids else map[];
    NextIds(s, keepsMap);
    InheritedTokens(ids, s.queue, loaded, gid);
    NothingAdded(Lookup(loaded, gid).tokens, Queued(s.queue, IdsAfter(ids, s.queue), gid));
  }

  /** Every answered id has enqueued something, or had something saved. */
  lemma AnsweredHasTokens(s: State, gid: Gid)
    requires Exact(s) && s.alive && gid in s.task.prompts && gid !in s.spoiled && gid in s.jobs && s.jobs[gid].Answered?
    ensures gid in s.log && s.log[gid] != []
  {
    assert Unharmed(s, gid) && Booked(s, gid);
  }

  lemma AllSavedIsQuiet(s: State, gid: Gid)
    requires Separating(s) && OnTime(s, gid) && gid in s.store.dict && s.store.dict[gid].finished
    ensures Queued(s.queue, s.owner, gid) == []
  {
    assert Orderly(s, gid);
    var entry := Lookup(s.store.dict, gid);
    QuietDrains(entry, s.queue, s.owner, gid);
    DrainedTokens(entry, s.queue, s.owner, gid);
    assert entry.tokens + [] == entry.tokens;
    SameSuffix(entry.tokens, Queued(s.queue, s.owner, gid), []);
  }

  /** `clear` keeps the tokens of an id out of the next step exactly when something had been saved by then, provided
   *  the reads of the step came in time for it. */
  lemma ClearSeparatesStepsIff(start: State, steps: seq<Step>, task: Task, loaded: Dict, gid: Gid)
    requires Initial(start) && Executes(start, steps)
    requires Final(start, steps).alive && AllAnswered(Final(start, steps)) && ClearPasses(Final(start, steps))
    requires OnTime(Final(start, steps), gid)
    ensures var s := Final(start, steps);
            !Inherits(s, task, loaded, true, gid) <==> s.store.dict != map[]
  {
    ReachableSeparates(start, steps);
    var s := Final(start, steps);
    InheritsIff(start, steps, task, loaded, true, gid);
    if s.store.dict == map[] {
      AnsweredHasTokens(s, gid);
      assert Booked(s, gid);
      DrainedTokens(Lookup(s.store.dict, gid), s.queue, s.owner, gid);
      assert [] + Queued(s.queue, s.owner, gid) == Queued(s.queue, s.owner, gid);
    } else {
      AllSavedIsQuiet(s, gid);
    }
  }

  // ----- runs in which tokens are left to the next step -----

  /** A model that ends with its first token, and a single empty prompt. */
  ghost function OneTokenTask(): Task {
    Task(Model((context: seq<Token>) => 1, (t: Token) => true), map[0 := []], 1)
  }

  function OneTokenBatch(rid: Rid): seq<Output> {
    [Output(rid, [1], true)]
  }

  lemma OneTokenIsServed(s: State, rid: Rid)
    requires Inv(s) && s.task == OneTokenTask() && Owns(s, rid, 0) && s.jobs == map[0 := Job.Decoding(rid, [], 1)]
    ensures Enabled(s, Emit(OneTokenBatch(rid)))
  {
    assert Generate(s.task.model, Context(s, 0, []), 1) == [1];
    assert Serves(s, Output(rid, [1], true));
  }

  lemma OneTokenIsLogged(s: State, rid: Rid)
    requires Inv(s) && s.task == OneTokenTask() && Owns(s, rid, 0) && s.jobs == map[0 := Job.Decoding(rid, [], 1)]
    requires Enabled(s, Emit(OneTokenBatch(rid)))
    ensures AfterEmit(s, OneTokenBatch(rid)).log == map[0 := s.log[0] + [1]]
  {
    ServedOutput(s, OneTokenBatch(rid), 0);
    assert s.log.Keys == {0};
  }

  lemma OneTokenAdvances(s: State, rid: Rid)
    requires Inv(s) && s.task == OneTokenTask() && Owns(s, rid, 0) && s.jobs == map[0 := Job.Decoding(rid, [], 1)]
    requires Enabled(s, Emit(OneTokenBatch(rid)))
    ensures Advance(s.jobs[0], OneTokenBatch(rid), s.owner, 0) == Decoded(rid, [1])
  {
    var outputs := OneTokenBatch(rid);
    assert s.owner[outputs[0].rid] == 0;
    ServedAdvances(s, outputs, 0);
    assert [] + [1] == [1];
  }

  lemma OnlyJob(s: State, outputs: seq<Output>, before: Job, after: Job)
    requires s.jobs == map[0 := before] && Advance(before, outputs, s.owner, 0) == after
    ensures AfterEmit(s, outputs).jobs == map[0 := after]
  {
  }

  lemma OneTokenEmits(s: State, rid: Rid)
    requires Inv(s) && s.task == OneTokenTask() && Owns(s, rid, 0) && s.jobs == map[0 := Job.Decoding(rid, [], 1)]
    requires Enabled(s, Emit(OneTokenBatch(rid)))
    ensures Do(s, Emit(OneTokenBatch(rid))) ==
            s.(queue := s.queue + [Update([(rid, Delta([1], true))])], log := map[0 := s.log[0] + [1]], jobs := map[0 := Decoded(rid, [1])])
  {
    OneTokenIsLogged(s, rid);
    OneTokenAdvances(s, rid);
    OnlyJob(s, OneTokenBatch(rid), s.jobs[0], Decoded(rid, [1]));
    assert InfosOf(OneTokenBatch(rid)) == [(rid, Delta([1], true))];
  }

  lemma ReachableEmits(start: State, steps: seq<Step>, rid: Rid)
    requires Initial(start) && Executes(start, steps)
    requires var s := Final(start, steps);
             s.task == OneTokenTask() && Owns(s, rid, 0) && s.jobs == map[0 := Job.Decoding(rid, [], 1)]
    ensures var s := Final(start, steps);
            0 in s.log && Enabled(s, Emit(OneTokenBatch(rid))) &&
            Do(s, Emit(OneTokenBatch(rid))) ==
            s.(queue := s.queue + [Update([(rid, Delta([1], true))])], log := map[0 := s.log[0] + [1]], jobs := map[0 := Decoded(rid, [1])])
  {
    ReachableInv(start, steps);
    OneTokenIsServed(Final(start, steps), rid);
    OneTokenEmits(Final(start, steps), rid);
  }

  lemma OneTokenSubmits(s: State, rid: Rid)
    requires s.alive && s.task == OneTokenTask() && s.jobs == map[] && s.plan == map[0 := Entry([], false)] && rid !in s.used
    ensures Enabled(s, Announce(0, rid)) && Enabled(Do(s, Announce(0, rid)), Submit(0, 1))
    ensures Do(Do(s, Announce(0, rid)), Submit(0, 1)) ==
            s.(queue := s.queue + [Mapping(rid, 0)], owner := s.owner[rid := 0], used := s.used + {rid},
               jobs := map[0 := Job.Decoding(rid, [], 1)])
  {
  }

  lemma OneTokenAnswers(s: State, rid: Rid)
    requires s.task == OneTokenTask() && s.jobs == map[0 := Decoded(rid, [1])] && s.plan == map[0 := Entry([], false)]
    ensures Enabled(s, Answer(0))
    ensures Do(s, Answer(0)) == s.(queue := s.queue + [Update([(rid, Extras)])], jobs := map[0 := Answered([1], [1])])
  {
    assert [] + [1] == [1];
  }

  /** Announced, submitted, decoded and answered in one go. */
  lemma OneTokenRound(start: State, before: seq<Step>, rid: Rid) returns (steps: seq<Step>)
    requires Initial(start) && Executes(start, before)
    requires var s := Final(start, before);
             s.alive && s.task == OneTokenTask() && s.jobs == map[] && s.plan == map[0 := Entry([], false)] && rid !in s.used
    ensures Executes(start, steps)
    ensures var s, t := Final(start, before), Final(start, steps);
            0 in s.log && t == s.(queue := s.queue + [Mapping(rid, 0)] + [Update([(rid, Delta([1], true))])] + [Update([(rid, Extras)])],
                    owner := s.owner[rid := 0], used := s.used + {rid}, log := map[0 := s.log[0] + [1]],
                    jobs := map[0 := Answered([1], [1])])
  {
    var s := Final(start, before);
    ReachableInv(start, before);
    OneTokenSubmits(s, rid);
    RunExtends(start, before, Announce(0, rid));
    steps := before + [Announce(0, rid)];
    RunExtends(start, steps, Submit(0, 1));
    steps := steps + [Submit(0, 1)];
    steps := OneTokenRest(start, steps, rid);
  }

  lemma OneTokenRest(start: State, before: seq<Step>, rid: Rid) returns (steps: seq<Step>)
    requires Initial(start) && Executes(start, before)
    requires var s := Final(start, before);
             s.task == OneTokenTask() && Owns(s, rid, 0) && s.jobs == map[0 := Job.Decoding(rid, [], 1)] && s.plan == map[0 := Entry([], false)]
    ensures Executes(start, steps)
    ensures var s, t := Final(start, before), Final(start, steps);
            0 in s.log && t == s.(queue := s.queue + [Update([(rid, Delta([1], true))])] + [Update([(rid, Extras)])],
                    log := map[0 := s.log[0] + [1]], jobs := map[0 := Answered([1], [1])])
  {
    ReachableEmits(start, before, rid);
    RunExtends(start, before, Emit(OneTokenBatch(rid)));
    steps := before + [Emit(OneTokenBatch(rid))];
    OneTokenAnswers(Final(start, steps), rid);
    RunExtends(start, steps, Answer(0));
    steps := steps + [Answer(0)];
  }

  lemma OneTokenStarts(start: State)
    requires start == Started(OneTokenTask(), map[])
    ensures Initial(start) && start.plan == map[0 := Entry([], false)] && start.log == map[0 := []] && OnTime(start, 0)
  {
    RightSnapshotStarts(OneTokenTask(), map[], 0);
  }

  /** The rollout is over before the consumer has applied anything, so that `clear` passes on an empty dictionary and
   *  the tokens of step one end up in step two. */
  lemma EarlyClearIsReachable() returns (start: State, steps: seq<Step>)
    ensures Initial(start) && Executes(start, steps)
    ensures var s := Final(start, steps);
            Enabled(s, NextTask(s.task, map[], true)) && OnTime(s, 0) && Inherits(s, s.task, map[], true, 0)
  {
    start := Started(OneTokenTask(), map[]);
    OneTokenStarts(start);
    steps := OneTokenRound(start, [], 0);
    ClearSeparatesStepsIff(start, steps, OneTokenTask(), map[], 0);
  }

  /** The request is under way and its mapping consumed; the fault has been noticed and the queue found empty. */
  lemma FoundEmptyWhileDecoding() returns (start: State, steps: seq<Step>)
    ensures Initial(start) && Executes(start, steps)
    ensures var s := Final(start, steps);
            s.alive && s.stage == Emptied && s.task == OneTokenTask() && s.plan == map[0 := Entry([], false)] &&
            s.jobs == map[0 := Job.Decoding(0, [], 1)] && s.store == Store(map[0 := 0], map[]) && s.queue == [] &&
            s.owner == map[0 := 0] && s.log == map[0 := []] && s.used == {0}
  {
    start := Started(OneTokenTask(), map[]);
    OneTokenStarts(start);
    OneTokenSubmits(start, 0);
    RunExtends(start, [], Announce(0, 0));
    steps := [] + [Announce(0, 0)];
    RunExtends(start, steps, Submit(0, 1));
    steps := steps + [Submit(0, 1)];
    RunExtends(start, steps, Fault);
    steps := steps + [Fault];
    RunExtends(start, steps, Consume);
    steps := steps + [Consume];
    RunExtends(start, steps, FindEmpty);
    steps := steps + [FindEmpty];
  }

  lemma KilledAndRead(s: State)
    requires s.stage == Emptied && s.task == OneTokenTask() && s.store.dict == map[]
    ensures Enabled(s, Kill) && Enabled(Do(s, Kill), Read)
    ensures var t := Do(Do(s, Kill), Read);
            t.alive && t.stage == Rolling && t.task == s.task && t.plan == map[0 := Entry([], false)] && t.jobs == map[] &&
            t.store == s.store && t.queue == s.queue && t.owner == s.owner && t.log == s.log && t.used == s.used
  {
  }

  /** The request is decoded after the queue was found empty. */
  lemma DecodedWhileEmptied() returns (start: State, steps: seq<Step>)
    ensures Initial(start) && Executes(start, steps)
    ensures var s := Final(start, steps);
            s.stage == Emptied && s.task == OneTokenTask() && s.store == Store(map[0 := 0], map[]) &&
            s.queue == [Update([(0, Delta([1], true))])] && s.owner == map[0 := 0] && s.log == map[0 := [1]] && s.used == {0}
  {
    start, steps := FoundEmptyWhileDecoding();
    ReachableEmits(start, steps, 0);
    RunExtends(start, steps, Emit(OneTokenBatch(0)));
    steps := steps + [Emit(OneTokenBatch(0))];
  }

  /** And the dictionary is read before that is consumed. */
  lemma WholeAnswerIsLate() returns (start: State, steps: seq<Step>)
    ensures Initial(start) && Executes(start, steps)
    ensures var s := Final(start, steps);
            s.alive && s.stage == Rolling && s.task == OneTokenTask() && s.plan == map[0 := Entry([], false)] && s.jobs == map[] &&
            s.store == Store(map[0 := 0], map[]) && s.queue == [Update([(0, Delta([1], true))])] && s.owner == map[0 := 0] &&
            s.log == map[0 := [1]] && s.used == {0}
  {
    start, steps := DecodedWhileEmptied();
    KilledAndRead(Final(start, steps));
    RunExtends(start, steps, Kill);
    steps := steps + [Kill];
    RunExtends(start, steps, Read);
    steps := steps + [Read];
  }

  lemma OneTokenIsSaved(store: Store)
    requires store == Store(map[0 := 0], map[])
    ensures Apply(store, Update([(0, Delta([1], true))])).dict == map[0 := Entry([1], true)]
  {
    var infos: seq<(Rid, Info)> := [(0, Delta([1], true))];
    assert infos[..|infos| - 1] == [];
    assert ApplyInfos(store.ids, store.dict, []) == map[];
    assert ApplyInfos(store.ids, store.dict, infos) == ApplyInfo(store.ids, map[], infos[0]);
    assert [] + [1] == [1];
  }

  lemma NextMayStart(s: State)
    requires s.alive && s.stage == Rolling && s.task == OneTokenTask() && s.jobs == map[0 := Answered([1], [1])]
    requires s.store.dict == map[0 := Entry([1], true)]
    ensures Enabled(s, NextTask(s.task, map[], true))
  {
  }

  /** A second whole answer follows the late one; only the late one has been consumed. */
  lemma SecondAnswerIsQueued() returns (start: State, steps: seq<Step>)
    ensures Initial(start) && Executes(start, steps)
    ensures var s := Final(start, steps);
            s.alive && s.stage == Rolling && s.task == OneTokenTask() && s.jobs == map[0 := Answered([1], [1])] &&
            s.store.dict == map[0 := Entry([1], true)] && s.log == map[0 := [1, 1]]
  {
    start, steps := WholeAnswerIsLate();
    OneTokenIsSaved(Final(start, steps).store);
    steps := OneTokenRound(start, steps, 1);
    assert [1] + [1] == [1, 1];
    RunExtends(start, steps, Consume);
    steps := steps + [Consume];
  }

  /** After a late read the finished entry need not be the last of its id, so the next step inherits tokens though the
   *  dictionary was not empty. */
  lemma LateReadIsInherited() returns (start: State, steps: seq<Step>)
    ensures Initial(start) && Executes(start, steps)
    ensures var s := Final(start, steps);
            Enabled(s, NextTask(s.task, map[], true)) && s.store.dict != map[] && Inherits(s, s.task, map[], true, 0)
  {
    start, steps := SecondAnswerIsQueued();
    var s := Final(start, steps);
    NextMayStart(s);
    TokensAreConserved(start, steps, 0);
    InheritsIff(start, steps, s.task, map[], true, 0);
    assert |[1] + Queued(s.queue, s.owner, 0)| == 2;
  }
}

/** What the retries of the rollout owe to the reads of the token dictionary.
 *
 * An answer is the uninterrupted generation exactly when the entry its attempt was planned from was right.  An
 * attempt keeps the entry of its id right as long as no read of the dictionary did harm, and a read does harm exactly
 * when tokens that were still queued are generated again in a place where they do not belong.
 */
module ResumeExactness {
  import opened Decoding
  import opened Sequences
  import opened TokensDict
  import opened TokenProtocol

  // ----- how a right entry grows -----

  /** An oracle that agrees for `count` tokens agrees for fewer, and the first of them may be taken for granted. */
  lemma AlignedAdvances(m: Model, a: seq<Token>, b: seq<Token>, count: nat, chunk: seq<Token>)
    requires Aligned(m, a, b, count) && OnTrack(m, a, chunk)
    ensures Cut(chunk, count) == Generate(m, b, |Cut(chunk, count)|)
    ensures |chunk| <= count && !Ended(m, chunk) ==> Aligned(m, a + chunk, b + chunk, count - |chunk|)
  {
    var n := |Cut(chunk, count)|;
    SmallerBudgetCuts(m, a, n, |chunk|);
    SmallerBudgetCuts(m, a, n, count);
    SmallerBudgetCuts(m, b, n, count);
    if |chunk| <= count && !Ended(m, chunk) {
      ResumeContinues(m, a, chunk, count - |chunk|);
      ResumeContinues(m, b, chunk, count - |chunk|);
      SameSuffix(chunk, Generate(m, a + chunk, count - |chunk|), Generate(m, b + chunk, count - |chunk|));
    }
  }

  lemma CutSum(a: seq<Token>, b: seq<Token>, limit: nat)
    ensures Cut(a + b, limit) == if |a| >= limit then Cut(a, limit) else a + Cut(b, limit - |a|)
  {
  }

  /** A chunk that is generated where it belongs leaves a right entry right. */
  lemma ChunkStaysSound(task: Task, gid: Gid, context: seq<Token>, landing: Entry, chunk: seq<Token>, finished: bool)
    requires gid in task.prompts && Sound(task, gid, landing) && Continues(task, gid, context, landing.tokens)
    requires OnTrack(task.model, context, chunk)
    requires |landing.tokens + chunk| < task.limit ==> (finished <==> Ended(task.model, chunk))
    ensures Sound(task, gid, Entry(landing.tokens + chunk, finished))
  {
    var e, m, prompt := landing.tokens, task.model, task.prompts[gid];
    CutSum(e, chunk, task.limit);
    if |e| < task.limit {
      var r := task.limit - |e|;
      AlignedAdvances(m, context, prompt + e, r, chunk);
      ChunkStaysOnTrack(m, prompt, e, Cut(chunk, r));
      EndedSum(m, e, chunk);
    }
  }

  lemma EndedSum(m: Model, a: seq<Token>, b: seq<Token>)
    ensures Ended(m, a + b) == if b == [] then Ended(m, a) else Ended(m, b)
  {
    if b == [] { assert a + b == a; }
  }

  lemma ChunkStillContinues(task: Task, gid: Gid, context: seq<Token>, landing: seq<Token>, chunk: seq<Token>)
    requires gid in task.prompts && Continues(task, gid, context, landing)
    requires OnTrack(task.model, context, chunk) && !Ended(task.model, chunk)
    ensures Continues(task, gid, context + chunk, landing + chunk)
  {
    if |landing + chunk| < task.limit {
      AlignedAdvances(task.model, context, task.prompts[gid] + landing, task.limit - |landing|, chunk);
      EndedSum(task.model, landing, chunk);
      assert task.prompts[gid] + landing + chunk == task.prompts[gid] + (landing + chunk);
    }
  }

  // ----- how the queue settles -----

  lemma {:induction false} SettlesLands(task: Task, gid: Gid, entry: Entry, queue: seq<Message>, owner: map<Rid, Gid>)
    requires gid in task.prompts && Settles(task, gid, entry, queue, owner)
    ensures Sound(task, gid, Drained(entry, queue, owner, gid))
    decreases |queue|
  {
    if queue != [] {
      SettlesLands(task, gid, if queue[0].Update? then Deliver(entry, owner, queue[0].infos, gid) else entry, queue[1..], owner);
    }
  }

  lemma {:induction false} SettlesSnoc(task: Task, gid: Gid, entry: Entry, queue: seq<Message>, message: Message, owner: map<Rid, Gid>)
    requires gid in task.prompts && Settles(task, gid, entry, queue, owner)
    requires Sound(task, gid, Drained(entry, queue + [message], owner, gid))
    ensures Settles(task, gid, entry, queue + [message], owner)
    decreases |queue|
  {
    if queue == [] {
      assert queue + [message] == [message];
      var next := if message.Update? then Deliver(entry, owner, message.infos, gid) else entry;
      assert Drained(next, [], owner, gid) == next;
      assert Settles(task, gid, next, [], owner);
    } else {
      assert (queue + [message])[1..] == queue[1..] + [message];
      SettlesSnoc(task, gid, if queue[0].Update? then Deliver(entry, owner, queue[0].infos, gid) else entry, queue[1..], message, owner);
    }
  }

  lemma {:induction false} FreshSettles(task: Task, gid: Gid, entry: Entry, queue: seq<Message>, owner: map<Rid, Gid>, rid: Rid, to: Gid)
    requires gid in task.prompts && Unmentioned(queue, rid) && Settles(task, gid, entry, queue, owner)
    ensures Settles(task, gid, entry, queue, owner[rid := to])
    decreases |queue|
  {
    if queue != [] {
      if queue[0].Update? {
        FreshDelivers(entry, owner, queue[0].infos, rid, to, gid);
      }
      FreshSettles(task, gid, if queue[0].Update? then Deliver(entry, owner, queue[0].infos, gid) else entry, queue[1..], owner, rid, to);
    }
  }

  // ----- an id that no read has harmed -----

  /** The current attempt was planned from a right entry, and whatever it still has to generate belongs where it lands. */
  ghost predicate PlanFits(s: State, gid: Gid)
    requires gid in s.task.prompts && gid in s.plan
  {
    Sound(s.task, gid, s.plan[gid]) &&
    if gid !in s.jobs then s.plan[gid].finished || Continues(s.task, gid, Context(s, gid, []), Landing(s, gid).tokens)
    else match s.jobs[gid]
      case Announced(_) => Continues(s.task, gid, Context(s, gid, []), Landing(s, gid).tokens)
      case Decoding(_, sent, _) => Continues(s.task, gid, Context(s, gid, sent), Landing(s, gid).tokens)
      case _ => true
  }

  /** Every entry the dictionary holds, or will hold, for the id is right. */
  ghost predicate Unharmed(s: State, gid: Gid)
    requires gid in s.task.prompts && gid in s.plan
  {
    Settles(s.task, gid, Lookup(s.store.dict, gid), s.queue, s.owner) && (s.alive ==> PlanFits(s, gid))
  }

  ghost predicate Exact(s: State) {
    Inv(s) && forall gid :: gid in s.task.prompts && gid !in s.spoiled ==> Unharmed(s, gid)
  }

  lemma SettlesAppended(s: State, t: State, message: Message, gid: Gid)
    requires gid in s.task.prompts && t.task == s.task && Settles(s.task, gid, Lookup(s.store.dict, gid), s.queue, s.owner)
    requires t.store == s.store && t.queue == s.queue + [message] && t.owner == s.owner
    requires Sound(s.task, gid, Landing(t, gid))
    ensures Settles(t.task, gid, Lookup(t.store.dict, gid), t.queue, t.owner)
  {
    SettlesSnoc(s.task, gid, Lookup(s.store.dict, gid), s.queue, message, s.owner);
  }

  lemma AnnounceSettles(s: State, gid: Gid, rid: Rid, g: Gid)
    requires Inv(s) && Enabled(s, Announce(gid, rid)) && g in s.task.prompts && Unharmed(s, g) && Unmentioned(s.queue, rid)
    ensures var t := Do(s, Announce(gid, rid));
            Settles(t.task, g, Lookup(t.store.dict, g), t.queue, t.owner)
  {
    AnnounceLands(s, gid, rid, g);
    var entry, owner := Lookup(s.store.dict, g), s.owner[rid := gid];
    FreshSettles(s.task, g, entry, s.queue, s.owner, rid, gid);
    SettlesLands(s.task, g, entry, s.queue, s.owner);
    SettlesSnoc(s.task, g, entry, s.queue, Mapping(rid, gid), owner);
  }

  lemma AnnounceKeepsUnharmed(s: State, gid: Gid, rid: Rid, g: Gid)
    requires Inv(s) && Enabled(s, Announce(gid, rid)) && g in s.task.prompts && Unharmed(s, g)
    ensures Unharmed(Do(s, Announce(gid, rid)), g)
  {
    UnmentionedFresh(s, rid);
    AnnounceLands(s, gid, rid, g);
    AnnounceSettles(s, gid, rid, g);
  }

  /** The flag of an output tells whether the answer has ended, below the response length. */
  lemma FlagIsRight(s: State, output: Output)
    requires Inv(s) && output.rid in s.owner && Serves(s, output)
    ensures var gid := s.owner[output.rid];
            |Landing(s, gid).tokens + output.tokens| < s.task.limit ==> (output.finished <==> Ended(s.task.model, output.tokens))
  {
    var gid := s.owner[output.rid];
    assert Booked(s, gid);
  }

  /** What is known of a served id before and after the batch. */
  lemma ServedLands(s: State, outputs: seq<Output>, k: nat, gid: Gid)
    requires Inv(s) && Enabled(s, Emit(outputs)) && k < |outputs| && outputs[k].rid in s.owner && s.owner[outputs[k].rid] == gid
    ensures Serves(s, outputs[k]) && gid in s.task.prompts && gid in s.plan && gid in s.jobs && s.jobs[gid].Decoding?
    ensures var t := Do(s, Emit(outputs));
            gid in t.jobs && t.jobs[gid] == Served(s.jobs[gid], outputs[k]) &&
            Landing(t, gid) == Entry(Landing(s, gid).tokens + outputs[k].tokens, outputs[k].finished)
  {
    ServedOutput(s, outputs, k);
    ServedAdvances(s, outputs, k);
    QueueSnoc(s, Do(s, Emit(outputs)), Update(InfosOf(outputs)), gid);
  }

  lemma ServedSettles(s: State, outputs: seq<Output>, k: nat, gid: Gid)
    requires Inv(s) && Enabled(s, Emit(outputs)) && k < |outputs| && outputs[k].rid in s.owner && s.owner[outputs[k].rid] == gid
    requires gid in s.task.prompts && gid in s.plan && Settles(s.task, gid, Lookup(s.store.dict, gid), s.queue, s.owner)
    requires gid in s.jobs && s.jobs[gid].Decoding? && Serves(s, outputs[k])
    requires Continues(s.task, gid, Context(s, gid, s.jobs[gid].sent), Landing(s, gid).tokens)
    ensures var t := Do(s, Emit(outputs));
            Settles(t.task, gid, Lookup(t.store.dict, gid), t.queue, t.owner)
  {
    ServedLands(s, outputs, k, gid);
    FlagIsRight(s, outputs[k]);
    SettlesLands(s.task, gid, Lookup(s.store.dict, gid), s.queue, s.owner);
    ChunkStaysSound(s.task, gid, Context(s, gid, s.jobs[gid].sent), Landing(s, gid), outputs[k].tokens, outputs[k].finished);
    SettlesAppended(s, Do(s, Emit(outputs)), Update(InfosOf(outputs)), gid);
  }

  lemma ServedPlanFits(s: State, output: Output, gid: Gid, t: State)
    requires output.rid in s.owner && s.owner[output.rid] == gid && Serves(s, output) && PlanFits(s, gid)
    requires t.task == s.task && t.plan == s.plan && gid in t.jobs && t.jobs[gid] == Served(s.jobs[gid], output)
    requires Landing(t, gid).tokens == Landing(s, gid).tokens + output.tokens
    ensures PlanFits(t, gid)
  {
    if !output.finished {
      var sent := s.jobs[gid].sent;
      ChunkStillContinues(s.task, gid, Context(s, gid, sent), Landing(s, gid).tokens, output.tokens);
      assert Context(s, gid, sent) + output.tokens == Context(t, gid, sent + output.tokens);
    }
  }

  lemma EmitKeepsServedUnharmed(s: State, outputs: seq<Output>, k: nat, gid: Gid)
    requires Inv(s) && Enabled(s, Emit(outputs)) && k < |outputs| && outputs[k].rid in s.owner && s.owner[outputs[k].rid] == gid
    requires gid in s.task.prompts && Unharmed(s, gid)
    ensures Unharmed(Do(s, Emit(outputs)), gid)
  {
    ServedLands(s, outputs, k, gid);
    ServedSettles(s, outputs, k, gid);
    ServedPlanFits(s, outputs[k], gid, Do(s, Emit(outputs)));
  }

  lemma EmitKeepsOtherUnharmed(s: State, outputs: seq<Output>, gid: Gid)
    requires Inv(s) && Enabled(s, Emit(outputs)) && gid in s.task.prompts && NotServed(s, outputs, gid) && Unharmed(s, gid)
    ensures Unharmed(Do(s, Emit(outputs)), gid)
  {
    var t := Do(s, Emit(outputs));
    OtherLands(s, outputs, gid, t);
    SettlesLands(s.task, gid, Lookup(s.store.dict, gid), s.queue, s.owner);
    SettlesAppended(s, t, Update(InfosOf(outputs)), gid);
    if gid in s.jobs {
      OtherJob(s, outputs, gid);
    }
  }

  lemma EmitKeepsUnharmed(s: State, outputs: seq<Output>, gid: Gid)
    requires Inv(s) && Enabled(s, Emit(outputs)) && gid in s.task.prompts && Unharmed(s, gid)
    ensures Unharmed(Do(s, Emit(outputs)), gid)
  {
    if k: nat :| k < |outputs| && outputs[k].rid in s.owner && s.owner[outputs[k].rid] == gid {
      EmitKeepsServedUnharmed(s, outputs, k, gid);
    } else {
      EmitKeepsOtherUnharmed(s, outputs, gid);
    }
  }

  lemma AnswerKeepsUnharmed(s: State, gid: Gid, g: Gid)
    requires Inv(s) && Enabled(s, Answer(gid)) && g in s.task.prompts && Unharmed(s, g)
    ensures Unharmed(Do(s, Answer(gid)), g)
  {
    AnswerLands(s, gid, g);
    SettlesLands(s.task, g, Lookup(s.store.dict, g), s.queue, s.owner);
    SettlesAppended(s, Do(s, Answer(gid)), Update([(s.jobs[gid].rid, Extras)]), g);
  }

  lemma ConsumeKeepsUnharmed(s: State, gid: Gid)
    requires Inv(s) && Enabled(s, Consume) && gid in s.task.prompts && Unharmed(s, gid)
    ensures Unharmed(Do(s, Consume), gid)
  {
    ConsumeLands(s, gid);
  }

  lemma PlannedIsSound(task: Task, dict: Dict, gid: Gid)
    requires gid in task.prompts && task.limit > 0 && Sound(task, gid, Lookup(dict, gid))
    ensures gid in Planned(task.prompts, dict) && Planned(task.prompts, dict)[gid] == Lookup(dict, gid)
  {
    PlannedTokens(task.prompts, dict, gid);
  }

  /** A plan that does no harm when it is made keeps the id unharmed. */
  lemma HarmlessFits(t: State, gid: Gid)
    requires t.task.limit > 0 && gid in t.task.prompts && t.jobs == map[] && t.plan == Planned(t.task.prompts, t.store.dict)
    requires Settles(t.task, gid, Lookup(t.store.dict, gid), t.queue, t.owner)
    requires gid !in Harmed(t.task, t.store.dict, t.queue, t.owner)
    ensures gid in t.plan && Unharmed(t, gid)
  {
    PlannedIsSound(t.task, t.store.dict, gid);
    assert t.task.prompts[gid] + t.plan[gid].tokens + [] == t.task.prompts[gid] + t.plan[gid].tokens;
  }

  lemma WithinTheStep(s: State, step: Step)
    requires Enabled(s, step) && !step.NextTask?
    ensures Do(s, step).task == s.task && s.spoiled <= Do(s, step).spoiled
  {
  }

  /** A step that leaves dictionary, queue and the job of an id alone leaves it unharmed. */
  lemma SameUnharmed(s: State, t: State, gid: Gid)
    requires gid in s.task.prompts && gid in s.plan && Unharmed(s, gid)
    requires t.task == s.task && t.plan == s.plan && t.store == s.store && t.queue == s.queue && t.owner == s.owner
    requires t.alive ==> s.alive && (gid in t.jobs <==> gid in s.jobs) && (gid in s.jobs ==> t.jobs[gid] == s.jobs[gid])
    ensures Unharmed(t, gid)
  {
  }

  lemma AnswerSavedKeepsUnharmed(s: State, gid: Gid, g: Gid)
    requires Inv(s) && Enabled(s, AnswerSaved(gid)) && g in s.task.prompts && Unharmed(s, g)
    ensures Unharmed(Do(s, AnswerSaved(gid)), g)
  {
    if g != gid { SameUnharmed(s, Do(s, AnswerSaved(gid)), g); }
  }

  lemma SubmitKeepsUnharmed(s: State, gid: Gid, budget: nat, g: Gid)
    requires Inv(s) && Enabled(s, Submit(gid, budget)) && g in s.task.prompts && Unharmed(s, g)
    ensures Unharmed(Do(s, Submit(gid, budget)), g)
  {
    if g != gid { SameUnharmed(s, Do(s, Submit(gid, budget)), g); }
  }

  lemma ReadKeepsUnharmed(s: State, gid: Gid)
    requires Inv(s) && Enabled(s, Read) && gid in s.task.prompts && Unharmed(s, gid) && gid !in Do(s, Read).spoiled
    ensures gid in Do(s, Read).plan && Unharmed(Do(s, Read), gid)
  {
    HarmlessFits(Do(s, Read), gid);
  }

  /** The steps that move no token, plan or job. */
  predicate IsIdle(step: Step) {
    step.SubmitStray? || step.Fault? || step.FindEmpty? || step.Kill?
  }

  lemma IdleMovesNothing(s: State, step: Step)
    requires Enabled(s, step) && IsIdle(step)
    ensures var t := Do(s, step);
            t.task == s.task && t.plan == s.plan && t.store == s.store && t.queue == s.queue && t.owner == s.owner &&
            (t.alive ==> s.alive && t.jobs == s.jobs)
  {
  }

  lemma IdleKeepsUnharmed(s: State, step: Step, gid: Gid)
    requires Enabled(s, step) && IsIdle(step) && gid in s.task.prompts && gid in s.plan && Unharmed(s, gid)
    ensures gid in Do(s, step).task.prompts && gid in Do(s, step).plan && Unharmed(Do(s, step), gid)
  {
    IdleMovesNothing(s, step);
    SameUnharmed(s, Do(s, step), gid);
  }

  lemma MessageStepKeepsUnharmed(s: State, step: Step, gid: Gid)
    requires Inv(s) && Enabled(s, step) && (step.Announce? || step.Answer?) && gid in s.task.prompts && Unharmed(s, gid)
    ensures gid in Do(s, step).task.prompts && gid in Do(s, step).plan && Unharmed(Do(s, step), gid)
  {
    match step
    case Announce(g, rid) => AnnounceKeepsUnharmed(s, g, rid, gid);
    case Answer(g) => AnswerKeepsUnharmed(s, g, gid);
  }

  lemma JobStepKeepsUnharmed(s: State, step: Step, gid: Gid)
    requires Inv(s) && Enabled(s, step) && (step.AnswerSaved? || step.Submit?) && gid in s.task.prompts && Unharmed(s, gid)
    ensures gid in Do(s, step).task.prompts && gid in Do(s, step).plan && Unharmed(Do(s, step), gid)
  {
    match step
    case AnswerSaved(g) => AnswerSavedKeepsUnharmed(s, g, gid);
    case Submit(g, budget) => SubmitKeepsUnharmed(s, g, budget, gid);
  }

  /** Only a read can do harm. */
  lemma TokenStepKeepsUnharmed(s: State, step: Step, gid: Gid)
    requires Inv(s) && Enabled(s, step) && (step.Emit? || step.Consume? || step.Read?) && gid in s.task.prompts && Unharmed(s, gid)
    requires gid !in Do(s, step).spoiled
    ensures gid in Do(s, step).task.prompts && gid in Do(s, step).plan && Unharmed(Do(s, step), gid)
  {
    match step
    case Emit(outputs) => EmitKeepsUnharmed(s, outputs, gid);
    case Consume => ConsumeKeepsUnharmed(s, gid);
    case Read => ReadKeepsUnharmed(s, gid);
  }

  /** Every step but the start of the next one. */
  lemma StepKeepsUnharmed(s: State, step: Step, gid: Gid)
    requires Inv(s) && Enabled(s, step) && !step.NextTask? && gid in s.task.prompts && Unharmed(s, gid)
    requires gid !in Do(s, step).spoiled
    ensures gid in Do(s, step).task.prompts && gid in Do(s, step).plan && Unharmed(Do(s, step), gid)
  {
    if IsIdle(step) {
      IdleKeepsUnharmed(s, step, gid);
    } else if step.Announce? || step.Answer? {
      MessageStepKeepsUnharmed(s, step, gid);
    } else if step.AnswerSaved? || step.Submit? {
      JobStepKeepsUnharmed(s, step, gid);
    } else {
      TokenStepKeepsUnharmed(s, step, gid);
    }
  }

  lemma BeginIsExact(s: State, task: Task, loaded: Dict, keepsMap: bool)
    requires Inv(s) && task.limit > 0
    ensures Exact(Begin(s, task, loaded, keepsMap))
  {
    BeginKeepsInv(s, task, loaded, keepsMap);
    var t := Begin(s, task, loaded, keepsMap);
    forall gid | gid in task.prompts && gid !in t.spoiled ensures Unharmed(t, gid) {
      HarmlessFits(t, gid);
    }
  }

  lemma StepKeepsExact(s: State, step: Step)
    requires Exact(s) && Enabled(s, step)
    ensures Exact(Do(s, step))
  {
    if step.NextTask? {
      BeginIsExact(s, step.task, step.loaded, step.keepsMap);
    } else {
      var t := Do(s, step);
      StepKeepsInv(s, step);
      WithinTheStep(s, step);
      forall gid | gid in t.task.prompts && gid !in t.spoiled ensures Unharmed(t, gid) {
        StepKeepsUnharmed(s, step, gid);
      }
    }
  }

  lemma {:induction false} RunKeepsExact(s: State, steps: seq<Step>)
    requires Exact(s) && Executes(s, steps)
    ensures Exact(Final(s, steps))
    decreases |steps|
  {
    if steps != [] {
      StepKeepsExact(s, steps[0]);
      RunKeepsExact(Do(s, steps[0]), steps[1..]);
    }
  }

  lemma ReachableExact(start: State, steps: seq<Step>)
    requires Initial(start) && Executes(start, steps)
    ensures Exact(Final(start, steps))
  {
    var task: Task, loaded: Dict :| task.limit > 0 && start == Started(task, loaded);
    BlankInv(task);
    BeginIsExact(Blank(task), task, loaded, false);
    RunKeepsExact(start, steps);
  }

  // ----- the answers -----

  /** A prefix of the uninterrupted answer is on track, and has not ended unless it is all of it. */
  lemma PrefixIsOnTrack(m: Model, prompt: seq<Token>, tokens: seq<Token>, limit: nat)
    requires tokens <= Generate(m, prompt, limit)
    ensures OnTrack(m, prompt, tokens)
    ensures Ended(m, tokens) ==> tokens == Generate(m, prompt, limit)
  {
    GenerateLength(m, prompt, limit);
    SmallerBudgetCuts(m, prompt, |tokens|, limit);
    if Ended(m, tokens) {
      EndedAbsorbsBudget(m, prompt, |tokens|, limit);
    }
  }

  /** What an attempt answers from `saved`: nothing more when that is flagged as finished, else a whole continuation. */
  lemma SoundPlanAnswers(task: Task, gid: Gid, saved: Entry, sent: seq<Token>)
    requires gid in task.prompts && Sound(task, gid, saved)
    requires if saved.finished then sent == []
             else OnTrack(task.model, task.prompts[gid] + saved.tokens, sent) && sent != [] &&
                  (Ended(task.model, sent) || |saved.tokens| + |sent| >= task.limit)
    ensures Cut(saved.tokens + sent, task.limit) == Generate(task.model, task.prompts[gid], task.limit)
  {
    var m, prompt, tokens := task.model, task.prompts[gid], saved.tokens;
    CutSum(tokens, sent, task.limit);
    if |tokens| >= task.limit {
      CompleteIsExact(m, prompt, Cut(tokens, task.limit), task.limit);
    } else if saved.finished {
      assert tokens + sent == tokens;
      CompleteIsExact(m, prompt, tokens, task.limit);
    } else {
      ChunkStaysOnTrack(m, prompt, tokens, sent);
      EndedSum(m, tokens, sent);
      CompleteIsExact(m, prompt, tokens + sent, task.limit);
    }
  }

  lemma ExactAnswerNeedsSoundPlan(task: Task, gid: Gid, saved: Entry, sent: seq<Token>)
    requires gid in task.prompts && saved.finished == (sent == [])
    requires Cut(saved.tokens + sent, task.limit) == Generate(task.model, task.prompts[gid], task.limit)
    ensures Sound(task, gid, saved)
  {
    var m, prompt, tokens := task.model, task.prompts[gid], saved.tokens;
    CutSum(tokens, sent, task.limit);
    PrefixIsOnTrack(m, prompt, Cut(tokens, task.limit), task.limit);
    GenerateLength(m, prompt, task.limit);
    if |tokens| < task.limit && saved.finished {
      assert tokens + sent == tokens;
    }
  }

  lemma AnswerFromPlan(s: State, gid: Gid)
    requires Inv(s) && gid in s.jobs && s.jobs[gid].Answered?
    ensures gid in s.task.prompts && gid in s.plan &&
            (s.jobs[gid].response == Generate(s.task.model, s.task.prompts[gid], s.task.limit) <==> Sound(s.task, gid, s.plan[gid]))
  {
    assert Booked(s, gid);
    var sent := s.jobs[gid].sent;
    assert Context(s, gid, []) == s.task.prompts[gid] + s.plan[gid].tokens;
    if Sound(s.task, gid, s.plan[gid]) {
      SoundPlanAnswers(s.task, gid, s.plan[gid], sent);
    } else if s.jobs[gid].response == Generate(s.task.model, s.task.prompts[gid], s.task.limit) {
      ExactAnswerNeedsSoundPlan(s.task, gid, s.plan[gid], sent);
    }
  }

  /** Resume exactness, in every reachable state: an answered id got the uninterrupted generation from its prompt, cut
   *  to the response length, exactly when what its attempt was planned from was right. */
  lemma AnswerIsExactIff(start: State, steps: seq<Step>, gid: Gid)
    requires Initial(start) && Executes(start, steps)
    requires gid in Final(start, steps).jobs && Final(start, steps).jobs[gid].Answered?
    ensures var s := Final(start, steps);
            gid in s.task.prompts && gid in s.plan &&
            (s.jobs[gid].response == Generate(s.task.model, s.task.prompts[gid], s.task.limit) <==> Sound(s.task, gid, s.plan[gid]))
  {
    ReachableInv(start, steps);
    AnswerFromPlan(Final(start, steps), gid);
  }

  /** Whatever faults, rebuilds and restarts from disk came before: as long as no read of this step did harm to an id,
   *  its answer is the uninterrupted one. */
  lemma AnswersAreUninterrupted(start: State, steps: seq<Step>, gid: Gid)
    requires Initial(start) && Executes(start, steps)
    requires gid in Final(start, steps).jobs && Final(start, steps).jobs[gid].Answered? && gid !in Final(start, steps).spoiled
    ensures var s := Final(start, steps);
            gid in s.task.prompts &&
            s.jobs[gid].response == Generate(s.task.model, s.task.prompts[gid], s.task.limit)
  {
    ReachableExact(start, steps);
    AnswerIsExactIff(start, steps, gid);
    assert Unharmed(Final(start, steps), gid);
  }

  // ----- which reads do harm -----

  /** A read with nothing of the id on the queue does it no harm. */
  lemma OnTimeIsHarmless(task: Task, dict: Dict, queue: seq<Message>, owner: map<Rid, Gid>, gid: Gid)
    requires gid in task.prompts && task.limit > 0 && Sound(task, gid, Lookup(dict, gid)) && Quiet(queue, owner, gid)
    ensures gid !in Harmed(task, dict, queue, owner)
  {
    PlannedIsSound(task, dict, gid);
    QuietDrains(Lookup(dict, gid), queue, owner, gid);
  }

  /** Nothing of `gid` is queued whenever a rebuild reads the dictionary, and the step is not over. */
  ghost predicate ReadsOnTime(s: State, steps: seq<Step>, gid: Gid)
    requires Executes(s, steps)
    decreases |steps|
  {
    steps == [] ||
    (!steps[0].NextTask? && (steps[0].Read? ==> Quiet(s.queue, s.owner, gid)) && ReadsOnTime(Do(s, steps[0]), steps[1..], gid))
  }

  lemma OnTimeStepDoesNoHarm(s: State, step: Step, gid: Gid)
    requires Exact(s) && Enabled(s, step) && !step.NextTask? && (step.Read? ==> Quiet(s.queue, s.owner, gid))
    requires gid in s.task.prompts && gid !in s.spoiled
    ensures Do(s, step).task == s.task && gid !in Do(s, step).spoiled
  {
    if step.Read? {
      assert Unharmed(s, gid);
      OnTimeIsHarmless(s.task, s.store.dict, s.queue, s.owner, gid);
    }
  }

  lemma {:induction false} OnTimeReadsDoNoHarm(s: State, steps: seq<Step>, gid: Gid)
    requires Exact(s) && Executes(s, steps) && ReadsOnTime(s, steps, gid) && gid in s.task.prompts && gid !in s.spoiled
    ensures Final(s, steps).task == s.task && gid !in Final(s, steps).spoiled
    decreases |steps|
  {
    if steps != [] {
      OnTimeStepDoesNoHarm(s, steps[0], gid);
      StepKeepsExact(s, steps[0]);
      OnTimeReadsDoNoHarm(Do(s, steps[0]), steps[1..], gid);
    }
  }

  /** Whatever the saving thread snapshots for an unharmed id, at any moment of any run, can be resumed for its step:
   *  a process that dies and reloads the snapshot starts in an initial state in which the id is unharmed again, so all
   *  of this holds across restarts too. */
  lemma SnapshotsAreResumable(start: State, steps: seq<Step>, gid: Gid)
    requires Initial(start) && Executes(start, steps)
    requires gid in Final(start, steps).task.prompts && gid !in Final(start, steps).spoiled
    ensures var s := Final(start, steps);
            Sound(s.task, gid, Lookup(s.store.dict, gid)) &&
            Initial(Started(s.task, s.store.dict)) && gid !in Started(s.task, s.store.dict).spoiled
  {
    ReachableExact(start, steps);
    var s := Final(start, steps);
    assert Unharmed(s, gid);
    OnTimeIsHarmless(s.task, s.store.dict, [], map[], gid);
  }

  lemma RightSnapshotStarts(task: Task, loaded: Dict, gid: Gid)
    requires task.limit > 0 && gid in task.prompts && Sound(task, gid, Lookup(loaded, gid))
    ensures Exact(Started(task, loaded)) && gid !in Started(task, loaded).spoiled
  {
    BlankInv(task);
    BeginIsExact(Blank(task), task, loaded, false);
    OnTimeIsHarmless(task, loaded, [], map[], gid);
  }

  /** A step that starts from a right snapshot, or from nothing, and in which every read finds nothing of the id on the
   *  queue, answers the id as one uninterrupted run would, through any number of faults. */
  lemma OnTimeAnswersAreUninterrupted(task: Task, loaded: Dict, steps: seq<Step>, gid: Gid)
    requires task.limit > 0 && gid in task.prompts && Sound(task, gid, Lookup(loaded, gid))
    requires Executes(Started(task, loaded), steps) && ReadsOnTime(Started(task, loaded), steps, gid)
    requires gid in Final(Started(task, loaded), steps).jobs && Final(Started(task, loaded), steps).jobs[gid].Answered?
    ensures Final(Started(task, loaded), steps).jobs[gid].response == Generate(task.model, task.prompts[gid], task.limit)
  {
    RightSnapshotStarts(task, loaded, gid);
    OnTimeReadsDoNoHarm(Started(task, loaded), steps, gid);
    assert Initial(Started(task, loaded));
    AnswersAreUninterrupted(Started(task, loaded), steps, gid);
  }
}

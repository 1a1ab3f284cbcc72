/** A step of the recovery protocol as a run of the durable machine.
 *
 * The durable machine takes for granted that the dictionary only grows, that finished entries stay as they are and that
 * it grows into what the trainer got.  The protocol gives all three as long as the reads of the step come in time.
 */
module DurableRuns {
  import opened Decoding
  import opened ResumeExactness
  import opened Sequences
  import opened StepSeparation
  import opened TokensDict
  import opened TokenProtocol
  import Durable = TokenCheckpoint

  /** What happens while a step is rolled out and trained on. */
  datatype Event =
    | Moves(step: Step)             // of the protocol
    | Saves(part: Durable.Step)     // a part of a round of the saving thread, a model checkpoint, or the step count
    | Returns                       // every id is answered, and the trainer gets the outputs

  /** What is on its way to the dictionary, for every id. */
  ghost function Landings(s: State): Dict {
    map gid | gid in s.task.prompts :: Landing(s, gid)
  }

  predicate IsSaving(part: Durable.Step) {
    part.Write? || part.Count? || part.Copy? || part.SaveModel? || part.NextStep?
  }

  /** The step that the durable machine takes for an event, if any. */
  ghost function Shadow(s: State, e: Event): seq<Durable.Step>
    requires e.Moves? ==> Enabled(s, e.step)
  {
    match e
    case Moves(step) => if step.Consume? then [Durable.Progress(Do(s, step).store.dict)] else []
    case Saves(part) => [part]
    case Returns => [Durable.RolloutReturns(Landings(s))]
  }

  /** The durable machine after a step that it may or may not take. */
  ghost function Tried(d: Durable.State, parts: seq<Durable.Step>): Durable.State {
    if parts != [] && Durable.Enabled(d, parts[0]) then Durable.Do(d, parts[0]) else d
  }

  ghost predicate AllOnTime(s: State) {
    forall gid :: gid in s.task.prompts ==> OnTime(s, gid)
  }

  /** What decides whether an event may happen; that the durable machine takes its step is not among it, except for the
   *  lock of the saving thread and for that thread's own parts. */
  ghost predicate MayHappen(d: Durable.State, s: State, e: Event) {
    match e
    case Moves(step) =>
      Enabled(s, step) && !step.NextTask? && (step.Consume? ==> d.round == Durable.Idle) && (step.Read? ==> AllOnTime(Do(s, step)))
    case Saves(part) => IsSaving(part) && Durable.Enabled(d, part)
    case Returns => d.phase == Durable.Rolling && s.alive && AllAnswered(s)
  }

  ghost function Moved(s: State, e: Event): State
    requires e.Moves? ==> Enabled(s, e.step)
  {
    if e.Moves? then Do(s, e.step) else s
  }

  ghost predicate Plays(d: Durable.State, s: State, events: seq<Event>)
    decreases |events|
  {
    events == [] ||
    (MayHappen(d, s, events[0]) && Plays(Tried(d, Shadow(s, events[0])), Moved(s, events[0]), events[1..]))
  }

  ghost function Shadows(d: Durable.State, s: State, events: seq<Event>): seq<Durable.Step>
    requires Plays(d, s, events)
    decreases |events|
  {
    if events == [] then []
    else Shadow(s, events[0]) + Shadows(Tried(d, Shadow(s, events[0])), Moved(s, events[0]), events[1..])
  }

  ghost function LastMoved(d: Durable.State, s: State, events: seq<Event>): State
    requires Plays(d, s, events)
    decreases |events|
  {
    if events == [] then s
    else LastMoved(Tried(d, Shadow(s, events[0])), Moved(s, events[0]), events[1..])
  }

  // ----- how the two states agree -----

  ghost predicate OwnIds(s: State) {
    (forall rid :: rid in s.owner ==> s.owner[rid] in s.task.prompts) && s.store.dict.Keys <= s.task.prompts.Keys
  }

  ghost predicate AllLanded(s: State) {
    forall gid :: gid in s.task.prompts ==> Landing(s, gid).finished
  }

  ghost predicate Mirrors(d: Durable.State, s: State) {
    d.saving && Durable.Holding(d) && d.batch == s.task.prompts.Keys && d.memory.dict == s.store.dict && OwnIds(s) &&
    (d.phase != Durable.Rolling ==> d.outputs == Landings(s) && AllLanded(s))
  }

  ghost predicate Sane(s: State) {
    Separating(s) && AllOnTime(s)
  }

  // ----- the dictionary grows -----

  lemma {:induction false} IdsStay(ids: map<Rid, Gid>, queue: seq<Message>, owner: map<Rid, Gid>, rid: Rid)
    requires Timely(ids, queue, owner) && rid in ids
    ensures rid in IdsAfter(ids, queue) && IdsAfter(ids, queue)[rid] == ids[rid]
    decreases |queue|
  {
    if queue != [] {
      IdsStay(if queue[0].Mapping? then ids[queue[0].rid := queue[0].gid] else ids, queue[1..], owner, rid);
    }
  }

  lemma {:induction false} KeysGrow(ids: map<Rid, Gid>, dict: Dict, infos: seq<(Rid, Info)>, gids: set<Gid>)
    requires dict.Keys <= gids && forall rid :: rid in ids ==> ids[rid] in gids
    ensures dict.Keys <= ApplyInfos(ids, dict, infos).Keys <= gids
    decreases |infos|
  {
    if infos != [] {
      KeysGrow(ids, dict, infos[..|infos| - 1], gids);
    }
  }

  lemma ConsumeKeepsOwnIds(s: State)
    requires Inv(s) && OwnIds(s) && Enabled(s, Consume)
    ensures OwnIds(Do(s, Consume)) && s.store.dict.Keys <= Do(s, Consume).store.dict.Keys
  {
    forall rid | rid in s.store.ids ensures s.store.ids[rid] in s.task.prompts {
      IdsStay(s.store.ids, s.queue, s.owner, rid);
    }
    if s.queue[0].Update? {
      KeysGrow(s.store.ids, s.store.dict, s.queue[0].infos, s.task.prompts.Keys);
    }
  }

  lemma EntryGrows(s: State, gid: Gid)
    requires Separating(s) && OnTime(s, gid) && Enabled(s, Consume)
    ensures var before, after := Lookup(s.store.dict, gid), Lookup(Do(s, Consume).store.dict, gid);
            before.tokens <= after.tokens && (before.finished ==> after == before)
  {
    ConsumeLands(s, gid);
    assert Orderly(s, gid);
    var before := Lookup(s.store.dict, gid);
    if before.finished && s.queue[0].Update? {
      assert Silent(s.queue[0], s.owner, gid);
      SilentDelivers(before, s.owner, s.queue[0].infos, gid);
    }
  }

  /** Consuming a message lets entries grow and leaves finished ones alone. */
  lemma ConsumeGrows(s: State)
    requires Sane(s) && OwnIds(s) && Enabled(s, Consume)
    ensures Durable.Grows(s.store.dict, Do(s, Consume).store.dict)
  {
    ConsumeKeepsOwnIds(s);
    forall gid | gid in s.store.dict
      ensures var before, after := s.store.dict, Do(s, Consume).store.dict;
              gid in after && before[gid].tokens <= after[gid].tokens && (before[gid].finished ==> after[gid] == before[gid])
    {
      EntryGrows(s, gid);
    }
  }

  lemma EntryLands(s: State, gid: Gid)
    requires Separating(s) && OnTime(s, gid)
    ensures var entry := Lookup(s.store.dict, gid);
            entry.tokens <= Landing(s, gid).tokens && (entry.finished ==> Landing(s, gid) == entry)
  {
    var entry := Lookup(s.store.dict, gid);
    DrainedTokens(entry, s.queue, s.owner, gid);
    assert Orderly(s, gid);
    if entry.finished {
      QuietDrains(entry, s.queue, s.owner, gid);
    }
  }

  /** The dictionary grows into what is on its way to it. */
  lemma DictLands(s: State)
    requires Sane(s) && OwnIds(s)
    ensures Durable.Grows(s.store.dict, Landings(s))
  {
    forall gid | gid in s.store.dict
      ensures var before, after := s.store.dict, Landings(s);
              gid in after && before[gid].tokens <= after[gid].tokens && (before[gid].finished ==> after[gid] == before[gid])
    {
      EntryLands(s, gid);
    }
  }

  // ----- what has landed stays -----

  lemma EmitKeepsLanded(s: State, outputs: seq<Output>, gid: Gid)
    requires Separating(s) && OnTime(s, gid) && Enabled(s, Emit(outputs)) && Landing(s, gid).finished
    ensures Landing(Do(s, Emit(outputs)), gid) == Landing(s, gid)
  {
    assert Orderly(s, gid);
    if k: nat :| k < |outputs| && outputs[k].rid in s.owner && s.owner[outputs[k].rid] == gid {
      ServedLands(s, outputs, k, gid);
      assert false;
    } else {
      OtherLands(s, outputs, gid, Do(s, Emit(outputs)));
    }
  }

  /** The steps that touch neither dictionary nor queue. */
  lemma StillLands(s: State, step: Step, gid: Gid)
    requires Enabled(s, step) && (IsIdle(step) || step.AnswerSaved? || step.Submit? || step.Read?)
    ensures var t := Do(s, step);
            t.task == s.task && t.store == s.store && t.owner == s.owner && Landing(t, gid) == Landing(s, gid)
  {
  }

  lemma StepKeepsLanded(s: State, step: Step, gid: Gid)
    requires Separating(s) && OnTime(s, gid) && Enabled(s, step) && !step.NextTask? && Landing(s, gid).finished
    ensures Landing(Do(s, step), gid) == Landing(s, gid)
  {
    match step
    case Announce(g, rid) =>
      UnmentionedFresh(s, rid);
      AnnounceLands(s, g, rid, gid);
    case Emit(outputs) => EmitKeepsLanded(s, outputs, gid);
    case Answer(g) => AnswerLands(s, g, gid);
    case Consume => ConsumeLands(s, gid);
    case _ => StillLands(s, step, gid);
  }

  lemma LandingsStay(s: State, step: Step)
    requires Sane(s) && AllLanded(s) && Enabled(s, step) && !step.NextTask?
    ensures Landings(Do(s, step)) == Landings(s) && AllLanded(Do(s, step))
  {
    WithinTheStep(s, step);
    forall gid | gid in s.task.prompts ensures Landing(Do(s, step), gid) == Landing(s, gid) && Landing(s, gid).finished {
      StepKeepsLanded(s, step, gid);
    }
  }

  lemma StepKeepsOwnIds(s: State, step: Step)
    requires Inv(s) && OwnIds(s) && Enabled(s, step) && !step.NextTask? && !step.Consume?
    ensures OwnIds(Do(s, step)) && Do(s, step).store == s.store && Do(s, step).task == s.task
  {
  }

  lemma StepKeepsSane(s: State, step: Step)
    requires Sane(s) && Enabled(s, step) && !step.NextTask? && (step.Read? ==> AllOnTime(Do(s, step)))
    ensures Sane(Do(s, step))
  {
    StepKeepsSeparating(s, step);
    if !step.Read? {
      KeepsHistory(s, step);
      forall gid | gid in Do(s, step).task.prompts ensures OnTime(Do(s, step), gid) {
        assert OnTime(s, gid);
      }
    }
  }

  lemma KeepsHistory(s: State, step: Step)
    requires Enabled(s, step) && !step.NextTask? && !step.Read?
    ensures Do(s, step).task == s.task && Do(s, step).missed == s.missed && Do(s, step).spoiled == s.spoiled
  {
  }

  // ----- event by event -----

  lemma ConsumeIsProgress(d: Durable.State, s: State)
    requires Mirrors(d, s) && Sane(s) && Enabled(s, Consume) && d.round == Durable.Idle
    ensures var progress := Durable.Progress(Do(s, Consume).store.dict);
            Durable.Enabled(d, progress) && Mirrors(Durable.Do(d, progress), Do(s, Consume))
  {
    var t := Do(s, Consume);
    ConsumeGrows(s);
    ConsumeKeepsOwnIds(s);
    if d.phase != Durable.Rolling {
      LandingsStay(s, Consume);
      StepKeepsSane(s, Consume);
      DictLands(t);
    }
  }

  lemma OtherStepsAreUnseen(d: Durable.State, s: State, step: Step)
    requires Mirrors(d, s) && Sane(s) && Enabled(s, step) && !step.NextTask? && !step.Consume?
    ensures Mirrors(d, Do(s, step))
  {
    StepKeepsOwnIds(s, step);
    if d.phase != Durable.Rolling {
      LandingsStay(s, step);
    }
  }

  lemma SavingKeepsMirrors(d: Durable.State, s: State, part: Durable.Step)
    requires Mirrors(d, s) && IsSaving(part) && Durable.Enabled(d, part)
    ensures Mirrors(Durable.Do(d, part), s)
  {
  }

  lemma AnsweredHasLanded(s: State, gid: Gid)
    requires Separating(s) && s.alive && OnTime(s, gid) && gid in s.jobs && s.jobs[gid].Answered?
    ensures Landing(s, gid).finished
  {
    assert Orderly(s, gid);
  }

  /** The trainer gets whole finished outputs that the dictionary will grow into. */
  lemma AnsweredIsReturned(d: Durable.State, s: State)
    requires Mirrors(d, s) && Sane(s) && d.phase == Durable.Rolling && s.alive && AllAnswered(s)
    ensures var returns_ := Durable.RolloutReturns(Landings(s));
            Durable.Enabled(d, returns_) && Mirrors(Durable.Do(d, returns_), s)
  {
    DictLands(s);
    forall gid | gid in s.task.prompts ensures Landing(s, gid).finished {
      AnsweredHasLanded(s, gid);
    }
    assert Landings(s).Keys == d.batch;
  }

  lemma EventKeepsMirrors(d: Durable.State, s: State, e: Event)
    requires Mirrors(d, s) && Sane(s) && MayHappen(d, s, e)
    ensures forall part :: part in Shadow(s, e) ==> Durable.Enabled(d, part)
    ensures Mirrors(Tried(d, Shadow(s, e)), Moved(s, e)) && Sane(Moved(s, e))
  {
    match e
    case Moves(step) =>
      StepKeepsSane(s, step);
      if step.Consume? {
        ConsumeIsProgress(d, s);
      } else {
        OtherStepsAreUnseen(d, s, step);
      }
    case Saves(part) => SavingKeepsMirrors(d, s, part);
    case Returns => AnsweredIsReturned(d, s);
  }

  // ----- the main results -----

  /** A step of the protocol whose reads come in time, with rounds of the saving thread anywhere in between, is a legal
   *  run of the durable machine: every dictionary it shows grows out of the one before, and into the outputs. */
  lemma {:induction false} ProtocolRunsDurably(d: Durable.State, s: State, events: seq<Event>)
    requires Mirrors(d, s) && Sane(s) && Plays(d, s, events)
    ensures Durable.Executes(d, Shadows(d, s, events))
    ensures Mirrors(Durable.Final(d, Shadows(d, s, events)), LastMoved(d, s, events)) && Sane(LastMoved(d, s, events))
    decreases |events|
  {
    if events != [] {
      var shadow := Shadow(s, events[0]);
      var next := Tried(d, shadow);
      EventKeepsMirrors(d, s, events[0]);
      ProtocolRunsDurably(next, Moved(s, events[0]), events[1..]);
      var rest := Shadows(next, Moved(s, events[0]), events[1..]);
      if shadow == [] {
        assert shadow + rest == rest;
      } else {
        assert shadow[0] in shadow && (shadow + rest)[1..] == rest;
      }
    }
  }

  /** And it starts as one: whenever the durable machine has loaded a right dictionary for a step, or none. */
  lemma LoadedStepMirrors(d: Durable.State, task: Task)
    requires d.saving && d.phase == Durable.Rolling && d.batch == task.prompts.Keys && task.limit > 0
    requires d.memory.dict.Keys <= d.batch
    requires forall gid :: gid in task.prompts ==> Sound(task, gid, Lookup(d.memory.dict, gid))
    ensures Mirrors(d, Started(task, d.memory.dict)) && Sane(Started(task, d.memory.dict))
  {
    BlankInv(task);
    BeginSeparates(Blank(task), task, d.memory.dict, false);
    forall gid | gid in task.prompts ensures OnTime(Started(task, d.memory.dict), gid) {
      RightSnapshotStarts(task, d.memory.dict, gid);
    }
  }

  lemma LandedIsTheAnswer(s: State, gid: Gid)
    requires Exact(s) && s.alive && gid in s.task.prompts && gid !in s.spoiled && gid in s.jobs && s.jobs[gid].Answered?
    requires Landing(s, gid).finished
    ensures Cut(Landing(s, gid).tokens, s.task.limit) == s.jobs[gid].response
    ensures s.jobs[gid].response == Generate(s.task.model, s.task.prompts[gid], s.task.limit)
  {
    assert Unharmed(s, gid);
    AnswerFromPlan(s, gid);
    SettlesLands(s.task, gid, Lookup(s.store.dict, gid), s.queue, s.owner);
    CompleteIsExact(s.task.model, s.task.prompts[gid], Cut(Landing(s, gid).tokens, s.task.limit), s.task.limit);
  }

  /** The outputs the trainer got, cut to the response length, are the answers, which are uninterrupted. */
  lemma OutputsAreAnswers(d: Durable.State, s: State, events: seq<Event>, gid: Gid)
    requires Mirrors(d, s) && Sane(s) && Plays(d, s, events)
    requires var t := LastMoved(d, s, events); t.alive && gid in t.jobs && t.jobs[gid].Answered?
    requires Durable.Executes(d, Shadows(d, s, events)) && Durable.Final(d, Shadows(d, s, events)).phase != Durable.Rolling
    ensures var t := LastMoved(d, s, events);
            var outputs := Durable.Final(d, Shadows(d, s, events)).outputs;
            gid in t.task.prompts && gid in outputs && Cut(outputs[gid].tokens, t.task.limit) == t.jobs[gid].response &&
            t.jobs[gid].response == Generate(t.task.model, t.task.prompts[gid], t.task.limit)
  {
    ProtocolRunsDurably(d, s, events);
    var t := LastMoved(d, s, events);
    assert OnTime(t, gid);
    LandedIsTheAnswer(t, gid);
  }
}

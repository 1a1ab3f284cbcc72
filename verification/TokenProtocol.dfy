/** The rollout fault-recovery protocol as a state machine over its steps.
 *
 * Workers announce (request, id) on a shared queue before they submit the request; the engine puts
 * the tokens of a request on the same queue before any caller sees them; one consumer folds the
 * queue into the token dictionary.  When the rollout fails, a rebuild first waits until it finds the
 * queue empty, kills workers and engines only later, and then reads the dictionary without looking at
 * the queue again; until the kill everything goes on.  The next training step likewise starts on
 * whatever the queue still holds.
 */
module TokenProtocol {
  import opened Decoding
  import opened Sequences
  import opened TokensDict

  /** One training step: the rollout weights, the prompt of every id and `response_length`. */
  datatype Task = Task(model: Model, prompts: map<Gid, seq<Token>>, limit: nat)

  /** Where the current attempt stands with one id; `sent` is what this attempt's request has enqueued. */
  datatype Job =
    | Announced(rid: Rid)                             // mapping on the queue, request not yet submitted
    | Decoding(rid: Rid, sent: seq<Token>, left: nat) // running in the engine with `left` tokens to go
    | Decoded(rid: Rid, sent: seq<Token>)             // last tokens are on the queue, caller not yet served
    | Answered(response: seq<Token>, sent: seq<Token>)

  datatype Stage =
    | Rolling   // the rollout is under way
    | Failed    // the fault has been noticed
    | Emptied   // the queue was found empty once since then

  datatype State = State(
    task: Task,
    store: Store,
    queue: seq<Message>,
    owner: map<Rid, Gid>,        // the consumer's request map once it has reached the end of the queue
    used: set<Rid>,
    strays: set<Rid>,            // live requests without a global id, such as validation
    log: map<Gid, seq<Token>>,   // history: what is on its way to the dictionary or in it, in the order enqueued
    alive: bool,                 // workers and engines of the current attempt exist
    stage: Stage,
    plan: Dict,                  // what `_update_gen_batch` gave the current attempt
    late: map<Gid, seq<Token>>,  // history: what was still queued when that was read
    missed: set<Gid>,            // history: ids with a message queued at some read of this step
    spoiled: set<Gid>,           // history: ids for which some read of this step did harm
    jobs: map<Gid, Job>)

  datatype Output = Output(rid: Rid, tokens: seq<Token>, finished: bool)

  datatype Step =
    | Announce(gid: Gid, rid: Rid)
    | AnswerSaved(gid: Gid)
    | Submit(gid: Gid, budget: nat)
    | SubmitStray(rid: Rid)
    | Emit(outputs: seq<Output>)
    | Answer(gid: Gid)
    | Consume
    | Fault                      // in the rollout, or in a rebuild round
    | FindEmpty                  // once, by a rebuild
    | Kill
    | Read
    | NextTask(task: Task, loaded: Dict, keepsMap: bool)

  // ----- what makes an entry, and a read, right -----

  /** As far as the response length goes the entry is what the uninterrupted generation emits first, and below it
   *  the flag tells whether that has ended. */
  ghost predicate Sound(task: Task, gid: Gid, entry: Entry)
    requires gid in task.prompts
  {
    OnTrack(task.model, task.prompts[gid], Cut(entry.tokens, task.limit)) &&
    (|entry.tokens| < task.limit ==> (entry.finished <==> Ended(task.model, entry.tokens)))
  }

  /** The next `count` tokens are the same after both contexts. */
  ghost predicate Aligned(m: Model, a: seq<Token>, b: seq<Token>, count: nat) {
    Generate(m, a, count) == Generate(m, b, count)
  }

  /** Continuing after `context` puts the right tokens behind those that are on their way to the dictionary. */
  ghost predicate Continues(task: Task, gid: Gid, context: seq<Token>, landing: seq<Token>)
    requires gid in task.prompts
  {
    |landing| >= task.limit ||
    (!Ended(task.model, landing) && Aligned(task.model, context, task.prompts[gid] + landing, task.limit - |landing|))
  }

  /** An attempt that is planned from `saved` does no harm though `landing` is on its way to the dictionary: it needs
   *  no request, or there are enough tokens already, or what it generates again is what would have come next. */
  ghost predicate Harmless(task: Task, gid: Gid, saved: Entry, landing: seq<Token>)
    requires gid in task.prompts
  {
    saved.finished || Continues(task, gid, task.prompts[gid] + saved.tokens, landing)
  }

  function Deliver(entry: Entry, owner: map<Rid, Gid>, infos: seq<(Rid, Info)>, gid: Gid): Entry {
    Entry(entry.tokens + TokensFor(owner, infos, gid), FlagAfter(owner, infos, gid, entry.finished))
  }

  /** Tokens on the queue for `gid`, oldest first. */
  function Queued(queue: seq<Message>, owner: map<Rid, Gid>, gid: Gid): seq<Token> {
    if queue == [] then []
    else (if queue[0].Update? then TokensFor(owner, queue[0].infos, gid) else []) + Queued(queue[1..], owner, gid)
  }

  /** The entry of `gid` once the queue has been consumed. */
  function Drained(entry: Entry, queue: seq<Message>, owner: map<Rid, Gid>, gid: Gid): Entry
    decreases |queue|
  {
    if queue == [] then entry
    else Drained(if queue[0].Update? then Deliver(entry, owner, queue[0].infos, gid) else entry, queue[1..], owner, gid)
  }

  /** The consumer's request map once the queue has been consumed. */
  function IdsAfter(ids: map<Rid, Gid>, queue: seq<Message>): map<Rid, Gid>
    decreases |queue|
  {
    if queue == [] then ids
    else IdsAfter(if queue[0].Mapping? then ids[queue[0].rid := queue[0].gid] else ids, queue[1..])
  }

  /** Whenever the consumer reaches a message it knows the id of every request in it that it will ever know, and no
   *  request is announced twice. */
  ghost predicate Timely(ids: map<Rid, Gid>, queue: seq<Message>, owner: map<Rid, Gid>)
    decreases |queue|
  {
    queue == [] ||
    match queue[0]
    case Mapping(rid, gid) => rid !in ids && rid in owner && owner[rid] == gid && Timely(ids[rid := gid], queue[1..], owner)
    case Update(infos) => Resolves(ids, owner, infos) && Timely(ids, queue[1..], owner)
  }

  /** Nothing of `gid` is left in the message. */
  ghost predicate Silent(message: Message, owner: map<Rid, Gid>, gid: Gid) {
    match message
    case Mapping(_, g) => g != gid
    case Update(infos) =>
      forall i :: 0 <= i < |infos| && infos[i].1.Delta? ==> !(infos[i].0 in owner && owner[infos[i].0] == gid)
  }

  ghost predicate Quiet(queue: seq<Message>, owner: map<Rid, Gid>, gid: Gid) {
    forall i :: 0 <= i < |queue| ==> Silent(queue[i], owner, gid)
  }

  /** Every entry the dictionary will hold for `gid` while the queue drains is sound. */
  ghost predicate Settles(task: Task, gid: Gid, entry: Entry, queue: seq<Message>, owner: map<Rid, Gid>)
    requires gid in task.prompts
    decreases |queue|
  {
    Sound(task, gid, entry) &&
    (queue != [] ==>
       Settles(task, gid, if queue[0].Update? then Deliver(entry, owner, queue[0].infos, gid) else entry, queue[1..], owner))
  }

  ghost function Landing(s: State, gid: Gid): Entry {
    Drained(Lookup(s.store.dict, gid), s.queue, s.owner, gid)
  }

  // ----- the steps -----

  /** `_update_gen_batch`: saved tokens and flags per id, or nothing at all when no id has a token. */
  function Planned(prompts: map<Gid, seq<Token>>, dict: Dict): Dict {
    if forall gid | gid in prompts :: Lookup(dict, gid).tokens == []
    then map gid | gid in prompts :: Entry([], false)
    else map gid | gid in prompts :: Lookup(dict, gid)
  }

  function InfoOf(output: Output): (Rid, Info) {
    (output.rid, Delta(output.tokens, output.finished))
  }

  function InfosOf(outputs: seq<Output>): seq<(Rid, Info)> {
    seq(|outputs|, i requires 0 <= i < |outputs| => InfoOf(outputs[i]))
  }

  /** A request after the engine's batch: `chunk` is what the batch carried for its id. */
  function Advance(job: Job, outputs: seq<Output>, owner: map<Rid, Gid>, gid: Gid): Job {
    if job.Decoding? && exists i :: 0 <= i < |outputs| && outputs[i].rid == job.rid then
      var chunk := TokensFor(owner, InfosOf(outputs), gid);
      if FlagAfter(owner, InfosOf(outputs), gid, false) then Decoded(job.rid, job.sent + chunk)
      else Decoding(job.rid, job.sent + chunk, if |chunk| <= job.left then job.left - |chunk| else 0)
    else job
  }

  /** What the engine was given for the id, and what it has made of it so far. */
  function Context(s: State, gid: Gid, sent: seq<Token>): seq<Token>
    requires gid in s.task.prompts && gid in s.plan
  {
    s.task.prompts[gid] + s.plan[gid].tokens + sent
  }

  ghost predicate Serves(s: State, output: Output) {
    if output.rid in s.owner then
      var gid := s.owner[output.rid];
      gid in s.jobs && s.jobs[gid].Decoding? && s.jobs[gid].rid == output.rid && gid in s.task.prompts && gid in s.plan &&
      var job := s.jobs[gid];
      OnTrack(s.task.model, Context(s, gid, job.sent), output.tokens) &&
      |output.tokens| <= job.left &&
      (output.finished <==> Ended(s.task.model, output.tokens) || |output.tokens| == job.left)
    else output.rid in s.strays
  }

  ghost predicate AllAnswered(s: State) {
    forall gid :: gid in s.task.prompts ==> gid in s.jobs && s.jobs[gid].Answered?
  }

  /** What ends the wait in `clear`: no entry at all, or every entry finished and the file that holds all
   *  `batch_size` of them. */
  ghost predicate ClearPasses(s: State) {
    s.store.dict == map[] ||
    ((forall gid :: gid in s.store.dict ==> s.store.dict[gid].finished) && s.task.prompts.Keys <= s.store.dict.Keys)
  }

  ghost predicate Enabled(s: State, step: Step) {
    match step
    case Announce(gid, rid) =>
      s.alive && gid in s.task.prompts && gid in s.plan && gid !in s.jobs && !s.plan[gid].finished && rid !in s.used
    case AnswerSaved(gid) =>
      s.alive && gid in s.task.prompts && gid in s.plan && gid !in s.jobs && s.plan[gid].finished
    case Submit(gid, budget) =>
      gid in s.jobs && s.jobs[gid].Announced? && gid in s.plan && budget > 0 && |s.plan[gid].tokens| + budget >= s.task.limit
    case SubmitStray(rid) => rid !in s.used
    case Emit(outputs) =>
      (forall i :: 0 <= i < |outputs| ==> Serves(s, outputs[i])) &&
      (forall i, j :: 0 <= i < j < |outputs| ==> outputs[i].rid != outputs[j].rid)
    case Answer(gid) => gid in s.jobs && s.jobs[gid].Decoded? && gid in s.plan
    case Consume => s.queue != []
    case Fault => true
    case FindEmpty => s.stage == Failed && |s.queue| <= 1  // the consumer may hold one message that it has popped
    case Kill => s.stage == Emptied
    case Read => s.stage == Emptied && !s.alive
    case NextTask(task, _, _) => s.alive && s.stage == Rolling && AllAnswered(s) && ClearPasses(s) && task.limit > 0
  }

  /** The ids of which a message is queued. */
  ghost function Waiting(task: Task, queue: seq<Message>, owner: map<Rid, Gid>): set<Gid> {
    set gid | gid in task.prompts && !Quiet(queue, owner, gid)
  }

  /** The ids that the read of `dict` harms. */
  ghost function Harmed(task: Task, dict: Dict, queue: seq<Message>, owner: map<Rid, Gid>): set<Gid> {
    set gid | gid in task.prompts &&
      !Harmless(task, gid, Planned(task.prompts, dict)[gid], Drained(Lookup(dict, gid), queue, owner, gid).tokens)
  }

  /** The ids of which the dictionary holds, or will hold, something that is not right. */
  ghost function Unsound(task: Task, dict: Dict, queue: seq<Message>, owner: map<Rid, Gid>): set<Gid> {
    set gid | gid in task.prompts && !Settles(task, gid, Lookup(dict, gid), queue, owner)
  }

  ghost function AfterAnnounce(s: State, gid: Gid, rid: Rid): State {
    s.(queue := s.queue + [Mapping(rid, gid)], owner := s.owner[rid := gid], used := s.used + {rid},
       jobs := s.jobs[gid := Announced(rid)])
  }

  ghost function AfterAnswerSaved(s: State, gid: Gid): State
    requires gid in s.plan
  {
    s.(jobs := s.jobs[gid := Answered(Cut(s.plan[gid].tokens, s.task.limit), [])])
  }

  ghost function AfterSubmit(s: State, gid: Gid, budget: nat): State
    requires gid in s.jobs && s.jobs[gid].Announced?
  {
    s.(jobs := s.jobs[gid := Job.Decoding(s.jobs[gid].rid, [], budget)])
  }

  ghost function AfterEmit(s: State, outputs: seq<Output>): State {
    s.(queue := s.queue + [Update(InfosOf(outputs))],
       log := map gid | gid in s.log :: s.log[gid] + TokensFor(s.owner, InfosOf(outputs), gid),
       jobs := map gid | gid in s.jobs :: Advance(s.jobs[gid], outputs, s.owner, gid))
  }

  ghost function AfterAnswer(s: State, gid: Gid): State
    requires gid in s.jobs && s.jobs[gid].Decoded? && gid in s.plan
  {
    var job := s.jobs[gid];
    s.(queue := s.queue + [Update([(job.rid, Extras)])],
       jobs := s.jobs[gid := Answered(Cut(s.plan[gid].tokens + job.sent, s.task.limit), job.sent)])
  }

  ghost function AfterConsume(s: State): State
    requires s.queue != []
  {
    s.(store := Apply(s.store, s.queue[0]), queue := s.queue[1..])
  }

  /** Actors are killed together with what they were doing; the queue survives. */
  ghost function AfterKill(s: State): State {
    s.(alive := false, jobs := map[], strays := {})
  }

  ghost function AfterRead(s: State): State {
    s.(alive := true, stage := Rolling, plan := Planned(s.task.prompts, s.store.dict),
       late := map gid | gid in s.task.prompts :: Queued(s.queue, s.owner, gid),
       missed := s.missed + Waiting(s.task, s.queue, s.owner),
       spoiled := s.spoiled + Harmed(s.task, s.store.dict, s.queue, s.owner), jobs := map[])
  }

  /** `init_index_prompt_tokens` and the first `_update_gen_batch`.  Whether clearing the request map
   *  reaches the consumer's copy of it is left open. */
  ghost function Begin(s: State, task: Task, loaded: Dict, keepsMap: bool): State {
    var ids := if keepsMap then s.store.ids else map[];
    var owner := IdsAfter(ids, s.queue);
    s.(task := task, store := Store(ids, loaded), owner := owner,
       log := map gid | gid in task.prompts :: Lookup(loaded, gid).tokens + Queued(s.queue, owner, gid),
       alive := true, stage := Rolling, plan := Planned(task.prompts, loaded),
       late := map gid | gid in task.prompts :: Queued(s.queue, owner, gid),
       missed := Waiting(task, s.queue, owner),
       spoiled := Harmed(task, loaded, s.queue, owner) + Unsound(task, loaded, s.queue, owner), jobs := map[])
  }

  ghost function Do(s: State, step: Step): State
    requires Enabled(s, step)
  {
    match step
    case Announce(gid, rid) => AfterAnnounce(s, gid, rid)
    case AnswerSaved(gid) => AfterAnswerSaved(s, gid)
    case Submit(gid, budget) => AfterSubmit(s, gid, budget)
    case SubmitStray(rid) => s.(used := s.used + {rid}, strays := s.strays + {rid})
    case Emit(outputs) => AfterEmit(s, outputs)
    case Answer(gid) => AfterAnswer(s, gid)
    case Consume => AfterConsume(s)
    case Fault => s.(stage := Failed)
    case FindEmpty => s.(stage := Emptied)
    case Kill => AfterKill(s)
    case Read => AfterRead(s)
    case NextTask(task, loaded, keepsMap) => Begin(s, task, loaded, keepsMap)
  }

  /** A new process before its first step. */
  function Blank(task: Task): State {
    State(task, Store(map[], map[]), [], map[], {}, {}, map gid | gid in task.prompts :: [], false, Rolling,
          map gid | gid in task.prompts :: Entry([], false), map gid | gid in task.prompts :: [], {}, {}, map[])
  }

  /** It has loaded a snapshot, or nothing. */
  ghost function Started(task: Task, loaded: Dict): State {
    Begin(Blank(task), task, loaded, false)
  }

  ghost predicate Initial(s: State) {
    exists task: Task, loaded: Dict :: task.limit > 0 && s == Started(task, loaded)
  }

  ghost predicate Executes(s: State, steps: seq<Step>)
    decreases |steps|
  {
    steps == [] || (Enabled(s, steps[0]) && Executes(Do(s, steps[0]), steps[1..]))
  }

  ghost function Final(s: State, steps: seq<Step>): State
    requires Executes(s, steps)
    decreases |steps|
  {
    if steps == [] then s else Final(Do(s, steps[0]), steps[1..])
  }

  // ----- what every step keeps -----

  ghost predicate Owns(s: State, rid: Rid, gid: Gid) {
    rid in s.owner && s.owner[rid] == gid
  }

  function Sent(s: State, gid: Gid): seq<Token> {
    if gid in s.jobs && !s.jobs[gid].Announced? then s.jobs[gid].sent else []
  }

  /** The request has sent all it was asked for. */
  ghost predicate IsWhole(s: State, gid: Gid, sent: seq<Token>)
    requires gid in s.task.prompts && gid in s.plan
  {
    OnTrack(s.task.model, Context(s, gid, []), sent) && sent != [] && !s.plan[gid].finished &&
    (Ended(s.task.model, sent) || |s.plan[gid].tokens| + |sent| >= s.task.limit)
  }

  /** What the job of `gid` has done with its plan. */
  ghost predicate JobFits(s: State, gid: Gid)
    requires gid in s.task.prompts && gid in s.plan && gid in s.jobs
  {
    var saved := s.plan[gid];
    match s.jobs[gid]
    case Announced(rid) => Owns(s, rid, gid) && !saved.finished
    case Decoding(rid, sent, left) =>
      Owns(s, rid, gid) && !saved.finished && left > 0 && |saved.tokens| + |sent| + left >= s.task.limit &&
      OnTrack(s.task.model, Context(s, gid, []), sent) && !Ended(s.task.model, sent)
    case Decoded(rid, sent) => Owns(s, rid, gid) && IsWhole(s, gid, sent)
    case Answered(response, sent) =>
      response == Cut(saved.tokens + sent, s.task.limit) && (if saved.finished then sent == [] else IsWhole(s, gid, sent))
  }

  ghost predicate Mentions(message: Message, used: set<Rid>) {
    match message
    case Mapping(rid, _) => rid in used
    case Update(infos) => forall i :: 0 <= i < |infos| ==> infos[i].0 in used
  }

  ghost predicate Names(s: State) {
    s.task.limit > 0 && (!s.alive ==> s.jobs == map[]) &&
    s.log.Keys == s.task.prompts.Keys && s.plan.Keys == s.task.prompts.Keys && s.late.Keys == s.task.prompts.Keys &&
    s.jobs.Keys <= s.task.prompts.Keys && s.owner.Keys <= s.used && s.strays <= s.used &&
    (forall rid :: rid in s.strays ==> rid !in s.owner) &&
    (forall i :: 0 <= i < |s.queue| ==> Mentions(s.queue[i], s.used))
  }

  /** The books of one id: what was enqueued is on its way, and is what was planned, what came late and what was sent. */
  ghost predicate Booked(s: State, gid: Gid)
    requires gid in s.task.prompts && gid in s.log && gid in s.plan && gid in s.late
  {
    Landing(s, gid).tokens == s.log[gid] &&
    (s.alive ==> s.log[gid] == s.plan[gid].tokens + s.late[gid] + Sent(s, gid) && (gid in s.jobs ==> JobFits(s, gid)))
  }

  ghost predicate Inv(s: State) {
    Names(s) && Timely(s.store.ids, s.queue, s.owner) && s.owner == IdsAfter(s.store.ids, s.queue) &&
    (forall gid :: gid in s.task.prompts ==> Booked(s, gid))
  }

  // ----- how the queue folds -----

  lemma {:induction false} DrainedTokens(entry: Entry, queue: seq<Message>, owner: map<Rid, Gid>, gid: Gid)
    ensures Drained(entry, queue, owner, gid).tokens == entry.tokens + Queued(queue, owner, gid)
    decreases |queue|
  {
    if queue == [] {
      assert entry.tokens + [] == entry.tokens;
    } else {
      var next := if queue[0].Update? then Deliver(entry, owner, queue[0].infos, gid) else entry;
      DrainedTokens(next, queue[1..], owner, gid);
      assert next.tokens + Queued(queue[1..], owner, gid) == entry.tokens + Queued(queue, owner, gid);
    }
  }

  lemma {:induction false} DrainedSnoc(entry: Entry, queue: seq<Message>, message: Message, owner: map<Rid, Gid>, gid: Gid)
    ensures Drained(entry, queue + [message], owner, gid) ==
            var e := Drained(entry, queue, owner, gid);
            if message.Update? then Deliver(e, owner, message.infos, gid) else e
    decreases |queue|
  {
    if queue == [] {
      assert (queue + [message])[1..] == [];
    } else {
      assert (queue + [message])[1..] == queue[1..] + [message];
      DrainedSnoc(if queue[0].Update? then Deliver(entry, owner, queue[0].infos, gid) else entry, queue[1..], message, owner, gid);
    }
  }

  lemma {:induction false} IdsAfterSnoc(ids: map<Rid, Gid>, queue: seq<Message>, message: Message)
    ensures IdsAfter(ids, queue + [message]) ==
            var after := IdsAfter(ids, queue);
            if message.Mapping? then after[message.rid := message.gid] else after
    decreases |queue|
  {
    if queue == [] {
      assert (queue + [message])[1..] == [];
    } else {
      assert (queue + [message])[1..] == queue[1..] + [message];
      IdsAfterSnoc(if queue[0].Mapping? then ids[queue[0].rid := queue[0].gid] else ids, queue[1..], message);
    }
  }

  lemma {:induction false} TimelySnoc(ids: map<Rid, Gid>, queue: seq<Message>, message: Message, owner: map<Rid, Gid>)
    requires Timely(ids, queue, owner)
    requires Timely(IdsAfter(ids, queue), [message], owner)
    ensures Timely(ids, queue + [message], owner)
    decreases |queue|
  {
    if queue == [] {
      assert queue + [message] == [message];
    } else {
      assert (queue + [message])[1..] == queue[1..] + [message];
      TimelySnoc(if queue[0].Mapping? then ids[queue[0].rid := queue[0].gid] else ids, queue[1..], message, owner);
    }
  }

  lemma {:induction false} SilentDelivers(entry: Entry, owner: map<Rid, Gid>, infos: seq<(Rid, Info)>, gid: Gid)
    requires Silent(Update(infos), owner, gid)
    ensures Deliver(entry, owner, infos, gid) == entry
    decreases |infos|
  {
    if infos == [] {
      assert entry.tokens + [] == entry.tokens;
    } else {
      var init := infos[..|infos| - 1];
      assert Silent(Update(init), owner, gid) by {
        forall i | 0 <= i < |init| ensures init[i] == infos[i] {}
      }
      SilentDelivers(entry, owner, init, gid);
      assert TokensFor(owner, infos, gid) == TokensFor(owner, init, gid) + [];
    }
  }

  lemma {:induction false} QuietDrains(entry: Entry, queue: seq<Message>, owner: map<Rid, Gid>, gid: Gid)
    requires Quiet(queue, owner, gid)
    ensures Drained(entry, queue, owner, gid) == entry
  {
    if queue != [] {
      assert Silent(queue[0], owner, gid);
      if queue[0].Update? {
        SilentDelivers(entry, owner, queue[0].infos, gid);
      }
      assert Quiet(queue[1..], owner, gid) by {
        forall i | 0 <= i < |queue| - 1 ensures Silent(queue[1..][i], owner, gid) { assert queue[1..][i] == queue[i + 1]; }
      }
      QuietDrains(entry, queue[1..], owner, gid);
    }
  }

  /** A well-ordered queue is folded without loss: consuming it gives every id the drained entry. */
  lemma {:induction false} ConsumingDrains(store: Store, queue: seq<Message>, owner: map<Rid, Gid>, gid: Gid)
    requires Timely(store.ids, queue, owner)
    ensures Lookup(ApplyAll(store, queue).dict, gid) == Drained(Lookup(store.dict, gid), queue, owner, gid)
    decreases |queue|
  {
    if queue != [] {
      if queue[0].Update? {
        FoldAppends(store.ids, owner, store.dict, queue[0].infos, gid);
      }
      ConsumingDrains(Apply(store, queue[0]), queue[1..], owner, gid);
    }
  }

  lemma {:induction false} FreshDelivers(entry: Entry, owner: map<Rid, Gid>, infos: seq<(Rid, Info)>, rid: Rid, to: Gid, gid: Gid)
    requires forall i :: 0 <= i < |infos| ==> infos[i].0 != rid
    ensures Deliver(entry, owner[rid := to], infos, gid) == Deliver(entry, owner, infos, gid)
    decreases |infos|
  {
    if infos != [] {
      var init := infos[..|infos| - 1];
      assert forall i :: 0 <= i < |init| ==> init[i] == infos[i];
      FreshDelivers(entry, owner, init, rid, to, gid);
      assert forall o: map<Rid, Gid> :: Deliver(entry, o, init, gid).tokens == entry.tokens + TokensFor(o, init, gid);
      assert TokensFor(owner[rid := to], init, gid) == TokensFor(owner, init, gid) by {
        SameSuffix(entry.tokens, TokensFor(owner[rid := to], init, gid), TokensFor(owner, init, gid));
      }
    }
  }

  lemma SameSuffix<T>(prefix: seq<T>, a: seq<T>, b: seq<T>)
    requires prefix + a == prefix + b
    ensures a == b
  {
    assert a == (prefix + a)[|prefix|..];
    assert b == (prefix + b)[|prefix|..];
  }

  ghost predicate Unmentioned(queue: seq<Message>, rid: Rid) {
    forall i :: 0 <= i < |queue| ==>
      match queue[i]
      case Mapping(r, _) => r != rid
      case Update(infos) => forall j :: 0 <= j < |infos| ==> infos[j].0 != rid
  }

  lemma {:induction false} FreshDrains(entry: Entry, queue: seq<Message>, owner: map<Rid, Gid>, rid: Rid, to: Gid, gid: Gid)
    requires Unmentioned(queue, rid)
    ensures Drained(entry, queue, owner[rid := to], gid) == Drained(entry, queue, owner, gid)
    decreases |queue|
  {
    if queue != [] {
      if queue[0].Update? {
        FreshDelivers(entry, owner, queue[0].infos, rid, to, gid);
      }
      FreshDrains(if queue[0].Update? then Deliver(entry, owner, queue[0].infos, gid) else entry, queue[1..], owner, rid, to, gid);
    }
  }

  lemma {:induction false} FreshTimely(ids: map<Rid, Gid>, queue: seq<Message>, owner: map<Rid, Gid>, rid: Rid, to: Gid)
    requires Unmentioned(queue, rid) && rid !in owner && Timely(ids, queue, owner)
    ensures Timely(ids, queue, owner[rid := to])
    decreases |queue|
  {
    if queue != [] {
      FreshTimely(if queue[0].Mapping? then ids[queue[0].rid := queue[0].gid] else ids, queue[1..], owner, rid, to);
    }
  }

  /** A batch holds one output per request, so an id gets exactly its request's output. */
  lemma {:induction false} OutputDelivers(entry: Entry, owner: map<Rid, Gid>, outputs: seq<Output>, k: nat, gid: Gid)
    requires k < |outputs| && outputs[k].rid in owner && owner[outputs[k].rid] == gid
    requires forall i :: 0 <= i < |outputs| && i != k ==> !(outputs[i].rid in owner && owner[outputs[i].rid] == gid)
    ensures TokensFor(owner, InfosOf(outputs), gid) == outputs[k].tokens
    ensures FlagAfter(owner, InfosOf(outputs), gid, entry.finished) == outputs[k].finished
    decreases |outputs|
  {
    var n := |outputs| - 1;
    var init := outputs[..n];
    assert InfosOf(outputs)[..n] == InfosOf(init);
    if k == n {
      OthersDeliverNothing(entry, owner, init, gid);
    } else {
      OutputDelivers(entry, owner, init, k, gid);
      assert TokensFor(owner, InfosOf(outputs), gid) == TokensFor(owner, InfosOf(init), gid) + [];
    }
  }

  lemma {:induction false} OthersDeliverNothing(entry: Entry, owner: map<Rid, Gid>, outputs: seq<Output>, gid: Gid)
    requires forall i :: 0 <= i < |outputs| ==> !(outputs[i].rid in owner && owner[outputs[i].rid] == gid)
    ensures TokensFor(owner, InfosOf(outputs), gid) == []
    ensures FlagAfter(owner, InfosOf(outputs), gid, entry.finished) == entry.finished
    decreases |outputs|
  {
    if outputs != [] {
      var n := |outputs| - 1;
      assert InfosOf(outputs)[..n] == InfosOf(outputs[..n]);
      OthersDeliverNothing(entry, owner, outputs[..n], gid);
    }
  }

  lemma QueueSnoc(s: State, t: State, message: Message, gid: Gid)
    requires t.store == s.store && t.queue == s.queue + [message] && t.owner == s.owner
    ensures Landing(t, gid) == if message.Update? then Deliver(Landing(s, gid), s.owner, message.infos, gid) else Landing(s, gid)
    ensures IdsAfter(t.store.ids, t.queue) ==
            var ids := IdsAfter(s.store.ids, s.queue); if message.Mapping? then ids[message.rid := message.gid] else ids
  {
    DrainedSnoc(Lookup(s.store.dict, gid), s.queue, message, s.owner, gid);
    IdsAfterSnoc(s.store.ids, s.queue, message);
  }

  /** A message about known requests is resolved in time. */
  lemma UpdateIsTimely(s: State, infos: seq<(Rid, Info)>)
    requires Timely(s.store.ids, s.queue, s.owner) && s.owner == IdsAfter(s.store.ids, s.queue)
    ensures Timely(s.store.ids, s.queue + [Update(infos)], s.owner)
  {
    assert Resolves(s.owner, s.owner, infos);
    assert Timely(s.owner, [Update(infos)], s.owner);
    TimelySnoc(s.store.ids, s.queue, Update(infos), s.owner);
  }

  // ----- every step keeps the invariant -----

  lemma UnmentionedFresh(s: State, rid: Rid)
    requires Inv(s) && rid !in s.used
    ensures Unmentioned(s.queue, rid)
  {
    forall i | 0 <= i < |s.queue|
      ensures match s.queue[i]
              case Mapping(r, _) => r != rid
              case Update(infos) => forall j :: 0 <= j < |infos| ==> infos[j].0 != rid
    {
      assert Mentions(s.queue[i], s.used);
    }
  }

  /** A step that leaves the job and the landing of an id alone leaves its books alone. */
  lemma SameBooks(s: State, t: State, g: Gid)
    requires g in s.task.prompts && g in s.log && g in s.plan && g in s.late && Booked(s, g)
    requires t.task == s.task && t.plan == s.plan && t.late == s.late && g in t.log && t.log[g] == s.log[g]
    requires Landing(t, g) == Landing(s, g) && forall rid :: Owns(s, rid, g) ==> Owns(t, rid, g)
    requires t.alive ==> s.alive && (g in t.jobs <==> g in s.jobs) && (g in s.jobs ==> t.jobs[g] == s.jobs[g])
    ensures Booked(t, g)
  {
  }

  lemma AnnounceLands(s: State, gid: Gid, rid: Rid, g: Gid)
    requires Inv(s) && Enabled(s, Announce(gid, rid)) && Unmentioned(s.queue, rid)
    ensures Landing(Do(s, Announce(gid, rid)), g) == Landing(s, g)
  {
    var entry := Lookup(s.store.dict, g);
    FreshDrains(entry, s.queue, s.owner, rid, gid, g);
    DrainedSnoc(entry, s.queue, Mapping(rid, gid), s.owner[rid := gid], g);
  }

  lemma AnnounceKeepsBooked(s: State, gid: Gid, rid: Rid, g: Gid)
    requires Inv(s) && Enabled(s, Announce(gid, rid)) && g in s.task.prompts && Unmentioned(s.queue, rid)
    ensures Booked(Do(s, Announce(gid, rid)), g)
  {
    AnnounceLands(s, gid, rid, g);
    assert Booked(s, g);
    if g != gid {
      SameBooks(s, Do(s, Announce(gid, rid)), g);
    }
  }

  lemma AnnounceIsTimely(s: State, gid: Gid, rid: Rid)
    requires Inv(s) && Enabled(s, Announce(gid, rid)) && Unmentioned(s.queue, rid)
    ensures var t := Do(s, Announce(gid, rid));
            Timely(t.store.ids, t.queue, t.owner) && t.owner == IdsAfter(t.store.ids, t.queue)
  {
    IdsAfterSnoc(s.store.ids, s.queue, Mapping(rid, gid));
    FreshTimely(s.store.ids, s.queue, s.owner, rid, gid);
    var owner := s.owner[rid := gid];
    assert rid !in s.owner;
    assert Timely(s.owner, [Mapping(rid, gid)], owner) by { assert [Mapping(rid, gid)][1..] == []; }
    TimelySnoc(s.store.ids, s.queue, Mapping(rid, gid), owner);
  }

  lemma AnnounceKeepsNames(s: State, gid: Gid, rid: Rid)
    requires Inv(s) && Enabled(s, Announce(gid, rid))
    ensures Names(Do(s, Announce(gid, rid)))
  {
    var t := Do(s, Announce(gid, rid));
    forall i | 0 <= i < |t.queue| ensures Mentions(t.queue[i], t.used) {
      if i < |s.queue| { assert Mentions(s.queue[i], s.used); }
    }
  }

  lemma AnnounceKeepsInv(s: State, gid: Gid, rid: Rid)
    requires Inv(s) && Enabled(s, Announce(gid, rid))
    ensures Inv(Do(s, Announce(gid, rid)))
  {
    UnmentionedFresh(s, rid);
    AnnounceKeepsNames(s, gid, rid);
    AnnounceIsTimely(s, gid, rid);
    forall g | g in s.task.prompts ensures Booked(Do(s, Announce(gid, rid)), g) {
      AnnounceKeepsBooked(s, gid, rid, g);
    }
  }

  lemma AnswerSavedKeepsBooked(s: State, gid: Gid, g: Gid)
    requires Inv(s) && Enabled(s, AnswerSaved(gid)) && g in s.task.prompts
    ensures Booked(Do(s, AnswerSaved(gid)), g)
  {
    assert Booked(s, g);
    if g == gid {
      assert s.plan[gid].tokens + [] == s.plan[gid].tokens;
    } else {
      SameBooks(s, Do(s, AnswerSaved(gid)), g);
    }
  }

  lemma AnswerSavedKeepsInv(s: State, gid: Gid)
    requires Inv(s) && Enabled(s, AnswerSaved(gid))
    ensures Inv(Do(s, AnswerSaved(gid)))
  {
    forall g | g in s.task.prompts ensures Booked(Do(s, AnswerSaved(gid)), g) {
      AnswerSavedKeepsBooked(s, gid, g);
    }
  }

  lemma SubmitKeepsBooked(s: State, gid: Gid, budget: nat, g: Gid)
    requires Inv(s) && Enabled(s, Submit(gid, budget)) && g in s.task.prompts
    ensures Booked(Do(s, Submit(gid, budget)), g)
  {
    assert Booked(s, g);
    if g != gid {
      SameBooks(s, Do(s, Submit(gid, budget)), g);
    }
  }

  lemma SubmitKeepsInv(s: State, gid: Gid, budget: nat)
    requires Inv(s) && Enabled(s, Submit(gid, budget))
    ensures Inv(Do(s, Submit(gid, budget)))
  {
    forall g | g in s.task.prompts ensures Booked(Do(s, Submit(gid, budget)), g) {
      SubmitKeepsBooked(s, gid, budget, g);
    }
  }

  lemma SubmitStrayKeepsNames(s: State, rid: Rid)
    requires Inv(s) && Enabled(s, SubmitStray(rid))
    ensures Names(Do(s, SubmitStray(rid)))
  {
    var t := Do(s, SubmitStray(rid));
    forall i | 0 <= i < |t.queue| ensures Mentions(t.queue[i], t.used) { assert Mentions(s.queue[i], s.used); }
  }

  lemma SubmitStrayKeepsInv(s: State, rid: Rid)
    requires Inv(s) && Enabled(s, SubmitStray(rid))
    ensures Inv(Do(s, SubmitStray(rid)))
  {
    SubmitStrayKeepsNames(s, rid);
    forall g | g in s.task.prompts ensures Booked(Do(s, SubmitStray(rid)), g) {
      assert Booked(s, g);
      SameBooks(s, Do(s, SubmitStray(rid)), g);
    }
  }

  /** What a batch carries for an id that it serves: the output of its request. */
  lemma ServedOutput(s: State, outputs: seq<Output>, k: nat)
    requires Inv(s) && Enabled(s, Emit(outputs)) && k < |outputs| && outputs[k].rid in s.owner
    ensures var gid := s.owner[outputs[k].rid];
            Serves(s, outputs[k]) && TokensFor(s.owner, InfosOf(outputs), gid) == outputs[k].tokens &&
            forall before :: FlagAfter(s.owner, InfosOf(outputs), gid, before) == outputs[k].finished
  {
    var gid := s.owner[outputs[k].rid];
    assert Serves(s, outputs[k]);
    forall i | 0 <= i < |outputs| && i != k
      ensures !(outputs[i].rid in s.owner && s.owner[outputs[i].rid] == gid)
    {
      assert Serves(s, outputs[i]);
    }
    forall before ensures FlagAfter(s.owner, InfosOf(outputs), gid, before) == outputs[k].finished {
      OutputDelivers(Entry([], before), s.owner, outputs, k, gid);
    }
    OutputDelivers(Entry([], false), s.owner, outputs, k, gid);
  }

  /** What the batch makes of the job of an id it serves. */
  function Served(job: Job, output: Output): Job
    requires job.Decoding? && |output.tokens| <= job.left
  {
    if output.finished then Decoded(job.rid, job.sent + output.tokens)
    else Job.Decoding(job.rid, job.sent + output.tokens, job.left - |output.tokens|)
  }

  lemma ServedAdvances(s: State, outputs: seq<Output>, k: nat)
    requires Inv(s) && Enabled(s, Emit(outputs)) && k < |outputs| && outputs[k].rid in s.owner
    ensures var gid := s.owner[outputs[k].rid];
            Serves(s, outputs[k]) && Advance(s.jobs[gid], outputs, s.owner, gid) == Served(s.jobs[gid], outputs[k])
  {
    ServedOutput(s, outputs, k);
  }

  lemma Longer(a: seq<Token>, b: seq<Token>, c: seq<Token>)
    ensures (a + b) + c == a + (b + c)
  {
  }

  /** The job of a served id has sent the output as well. */
  lemma ServedFits(s: State, gid: Gid, output: Output, t: State)
    requires gid in s.task.prompts && gid in s.plan && gid in s.jobs && gid in t.jobs && JobFits(s, gid)
    requires output.rid in s.owner && s.owner[output.rid] == gid && Serves(s, output)
    requires t.task == s.task && t.plan == s.plan && t.owner == s.owner && t.jobs[gid] == Served(s.jobs[gid], output)
    ensures JobFits(t, gid) && Sent(t, gid) == Sent(s, gid) + output.tokens
  {
    var job := s.jobs[gid];
    var context := Context(s, gid, []);
    assert context + job.sent == Context(s, gid, job.sent);
    ChunkStaysOnTrack(s.task.model, context, job.sent, output.tokens);
    assert output.tokens != [] ==> Ended(s.task.model, job.sent + output.tokens) == Ended(s.task.model, output.tokens);
    assert output.tokens == [] ==> job.sent + output.tokens == job.sent;
  }

  lemma EmitKeepsServed(s: State, outputs: seq<Output>, k: nat, t: State)
    requires Inv(s) && Enabled(s, Emit(outputs)) && k < |outputs| && outputs[k].rid in s.owner && t == Do(s, Emit(outputs))
    ensures s.owner[outputs[k].rid] in s.task.prompts && Booked(t, s.owner[outputs[k].rid])
  {
    var gid := s.owner[outputs[k].rid];
    ServedOutput(s, outputs, k);
    ServedAdvances(s, outputs, k);
    assert Booked(s, gid);
    QueueSnoc(s, t, Update(InfosOf(outputs)), gid);
    ServedFits(s, gid, outputs[k], t);
    Longer(s.plan[gid].tokens + s.late[gid], Sent(s, gid), outputs[k].tokens);
  }

  ghost predicate NotServed(s: State, outputs: seq<Output>, gid: Gid) {
    forall i :: 0 <= i < |outputs| ==> !(outputs[i].rid in s.owner && s.owner[outputs[i].rid] == gid)
  }

  /** An id that the batch does not serve. */
  lemma OtherLands(s: State, outputs: seq<Output>, gid: Gid, t: State)
    requires NotServed(s, outputs, gid)
    requires t.store == s.store && t.queue == s.queue + [Update(InfosOf(outputs))] && t.owner == s.owner
    ensures Landing(t, gid) == Landing(s, gid) && TokensFor(s.owner, InfosOf(outputs), gid) == []
  {
    QueueSnoc(s, t, Update(InfosOf(outputs)), gid);
    OthersDeliverNothing(Landing(s, gid), s.owner, outputs, gid);
    assert Landing(s, gid).tokens + [] == Landing(s, gid).tokens;
  }

  lemma OtherJob(s: State, outputs: seq<Output>, gid: Gid)
    requires Inv(s) && gid in s.task.prompts && gid in s.jobs && NotServed(s, outputs, gid)
    ensures Advance(s.jobs[gid], outputs, s.owner, gid) == s.jobs[gid]
  {
    assert Booked(s, gid);
    if s.jobs[gid].Decoding? {
      assert forall i :: 0 <= i < |outputs| ==> outputs[i].rid != s.jobs[gid].rid;
    }
  }

  lemma EmitKeepsOther(s: State, outputs: seq<Output>, gid: Gid, t: State)
    requires Inv(s) && Enabled(s, Emit(outputs)) && gid in s.task.prompts && NotServed(s, outputs, gid)
    requires t == Do(s, Emit(outputs))
    ensures Booked(t, gid)
  {
    assert Booked(s, gid);
    OtherLands(s, outputs, gid, t);
    assert s.log[gid] + [] == s.log[gid];
    if gid in s.jobs {
      OtherJob(s, outputs, gid);
    }
    SameBooks(s, t, gid);
  }

  lemma EmitKeepsNames(s: State, outputs: seq<Output>)
    requires Inv(s) && Enabled(s, Emit(outputs))
    ensures Names(Do(s, Emit(outputs)))
  {
    var t := Do(s, Emit(outputs));
    assert Mentions(Update(InfosOf(outputs)), s.used) by {
      forall i | 0 <= i < |outputs| ensures outputs[i].rid in s.used { assert Serves(s, outputs[i]); }
    }
    forall i | 0 <= i < |t.queue| ensures Mentions(t.queue[i], t.used) {
      if i < |s.queue| { assert Mentions(s.queue[i], s.used); }
    }
    assert !s.alive ==> t.jobs.Keys == {};
  }

  lemma EmitKeepsInv(s: State, outputs: seq<Output>)
    requires Inv(s) && Enabled(s, Emit(outputs))
    ensures Inv(Do(s, Emit(outputs)))
  {
    var t := Do(s, Emit(outputs));
    EmitKeepsNames(s, outputs);
    UpdateIsTimely(s, InfosOf(outputs));
    IdsAfterSnoc(s.store.ids, s.queue, Update(InfosOf(outputs)));
    forall gid | gid in s.task.prompts ensures Booked(t, gid) {
      if k: nat :| k < |outputs| && outputs[k].rid in s.owner && s.owner[outputs[k].rid] == gid {
        EmitKeepsServed(s, outputs, k, t);
      } else {
        EmitKeepsOther(s, outputs, gid, t);
      }
    }
  }

  lemma AnswerLands(s: State, gid: Gid, g: Gid)
    requires Inv(s) && Enabled(s, Answer(gid))
    ensures Landing(Do(s, Answer(gid)), g) == Landing(s, g)
  {
    var message := Update([(s.jobs[gid].rid, Extras)]);
    QueueSnoc(s, Do(s, Answer(gid)), message, g);
    SilentDelivers(Landing(s, g), s.owner, message.infos, g);
  }

  lemma AnswerKeepsNames(s: State, gid: Gid)
    requires Inv(s) && Enabled(s, Answer(gid))
    ensures Names(Do(s, Answer(gid)))
  {
    var t := Do(s, Answer(gid));
    assert Booked(s, gid);
    forall i | 0 <= i < |t.queue| ensures Mentions(t.queue[i], t.used) {
      if i < |s.queue| { assert Mentions(s.queue[i], s.used); }
    }
  }

  lemma AnswerKeepsBooked(s: State, gid: Gid, g: Gid)
    requires Inv(s) && Enabled(s, Answer(gid)) && g in s.task.prompts
    ensures Booked(Do(s, Answer(gid)), g)
  {
    assert Booked(s, g);
    AnswerLands(s, gid, g);
    if g != gid {
      SameBooks(s, Do(s, Answer(gid)), g);
    }
  }

  lemma AnswerKeepsInv(s: State, gid: Gid)
    requires Inv(s) && Enabled(s, Answer(gid))
    ensures Inv(Do(s, Answer(gid)))
  {
    var message := Update([(s.jobs[gid].rid, Extras)]);
    AnswerKeepsNames(s, gid);
    UpdateIsTimely(s, message.infos);
    IdsAfterSnoc(s.store.ids, s.queue, message);
    forall g | g in s.task.prompts ensures Booked(Do(s, Answer(gid)), g) {
      AnswerKeepsBooked(s, gid, g);
    }
  }

  lemma ConsumeLands(s: State, gid: Gid)
    requires Inv(s) && Enabled(s, Consume)
    ensures Landing(Do(s, Consume), gid) == Landing(s, gid)
    ensures Lookup(Do(s, Consume).store.dict, gid) ==
            if s.queue[0].Update? then Deliver(Lookup(s.store.dict, gid), s.owner, s.queue[0].infos, gid) else Lookup(s.store.dict, gid)
  {
    if s.queue[0].Update? {
      FoldAppends(s.store.ids, s.owner, s.store.dict, s.queue[0].infos, gid);
    }
  }

  lemma ConsumeKeepsInv(s: State)
    requires Inv(s) && Enabled(s, Consume)
    ensures Inv(Do(s, Consume))
  {
    var t := Do(s, Consume);
    forall i | 0 <= i < |t.queue| ensures Mentions(t.queue[i], t.used) { assert Mentions(s.queue[i + 1], s.used); }
    forall g | g in s.task.prompts ensures Booked(t, g) {
      assert Booked(s, g);
      ConsumeLands(s, g);
      SameBooks(s, t, g);
    }
  }

  /** Noticing the fault or the empty queue moves nothing. */
  lemma NoticeKeepsInv(s: State, stage: Stage)
    requires Inv(s)
    ensures Inv(s.(stage := stage))
  {
    forall g | g in s.task.prompts ensures Booked(s.(stage := stage), g) {
      assert Booked(s, g);
      SameBooks(s, s.(stage := stage), g);
    }
  }

  /** The jobs are gone; what they have enqueued stays. */
  lemma KillKeepsInv(s: State)
    requires Inv(s) && Enabled(s, Kill)
    ensures Inv(Do(s, Kill))
  {
    forall g | g in s.task.prompts ensures Booked(Do(s, Kill), g) {
      assert Booked(s, g);
      SameBooks(s, Do(s, Kill), g);
    }
  }

  lemma PlannedTokens(prompts: map<Gid, seq<Token>>, dict: Dict, gid: Gid)
    requires gid in prompts
    ensures gid in Planned(prompts, dict) && Planned(prompts, dict)[gid].tokens == Lookup(dict, gid).tokens
    ensures Planned(prompts, dict)[gid] == Lookup(dict, gid) || Planned(prompts, dict)[gid] == Entry([], false)
  {
  }

  /** A read takes what is saved; what is queued at that moment comes late. */
  lemma ReadKeepsBooked(s: State, g: Gid)
    requires Inv(s) && Enabled(s, Read) && g in s.task.prompts
    ensures Booked(Do(s, Read), g)
  {
    assert Booked(s, g);
    PlannedTokens(s.task.prompts, s.store.dict, g);
    DrainedTokens(Lookup(s.store.dict, g), s.queue, s.owner, g);
    assert s.log[g] + [] == s.log[g];
  }

  lemma ReadKeepsNames(s: State)
    requires Inv(s) && Enabled(s, Read)
    ensures var t := Do(s, Read);
            Names(t) && t.task == s.task && t.store == s.store && t.queue == s.queue && t.owner == s.owner
  {
  }

  lemma ReadKeepsInv(s: State)
    requires Inv(s) && Enabled(s, Read)
    ensures Inv(Do(s, Read))
  {
    ReadKeepsNames(s);
    forall g | g in s.task.prompts ensures Booked(Do(s, Read), g) {
      ReadKeepsBooked(s, g);
    }
  }

  /** When the consumer's map is cleared, it still learns the requests whose mapping is queued. */
  lemma {:induction false} ClearedTimely(ids: map<Rid, Gid>, queue: seq<Message>, owner: map<Rid, Gid>, gone: set<Rid>)
    requires Timely(ids, queue, owner) && owner == IdsAfter(ids, queue) && gone <= ids.Keys
    ensures IdsAfter(ids - gone, queue) == owner - gone
    ensures Timely(ids - gone, queue, owner - gone)
    decreases |queue|
  {
    if queue != [] {
      match queue[0]
      case Mapping(rid, gid) =>
        ClearedTimely(ids[rid := gid], queue[1..], owner, gone);
        assert ids[rid := gid] - gone == (ids - gone)[rid := gid];
      case Update(infos) =>
        ClearedTimely(ids, queue[1..], owner, gone);
        ClearedResolves(ids, owner, infos, gone);
    }
  }

  lemma ClearedResolves(ids: map<Rid, Gid>, owner: map<Rid, Gid>, infos: seq<(Rid, Info)>, gone: set<Rid>)
    requires Resolves(ids, owner, infos) && gone <= ids.Keys
    ensures Resolves(ids - gone, owner - gone, infos)
  {
    forall i | 0 <= i < |infos|
      ensures var (rid, info) := infos[i];
              if rid in owner - gone then rid in ids - gone && (ids - gone)[rid] == (owner - gone)[rid]
              else info.Delta? ==> rid !in ids - gone
    {
      var (rid, info) := infos[i];
      assert rid in owner - gone <==> rid in owner && rid !in gone;
    }
  }

  /** The requests the consumer knows in the next step. */
  lemma NextIds(s: State, keepsMap: bool)
    requires Inv(s)
    ensures var ids := if keepsMap then s.store.ids else map[];
            Timely(ids, s.queue, IdsAfter(ids, s.queue)) && IdsAfter(ids, s.queue).Keys <= s.owner.Keys
  {
    if !keepsMap {
      ClearedTimely(s.store.ids, s.queue, s.owner, s.store.ids.Keys);
      assert s.store.ids - s.store.ids.Keys == map[];
    }
  }

  lemma BeginKeepsBooked(s: State, task: Task, loaded: Dict, keepsMap: bool, g: Gid)
    requires g in task.prompts
    ensures var t := Begin(s, task, loaded, keepsMap);
            g in t.log && g in t.plan && g in t.late && Booked(t, g)
  {
    var t := Begin(s, task, loaded, keepsMap);
    PlannedTokens(task.prompts, loaded, g);
    DrainedTokens(Lookup(loaded, g), s.queue, t.owner, g);
    assert t.log[g] + [] == t.log[g];
  }

  /** A new step starts with whatever is still queued: the books say so. */
  lemma BeginKeepsInv(s: State, task: Task, loaded: Dict, keepsMap: bool)
    requires Inv(s) && task.limit > 0
    ensures Inv(Begin(s, task, loaded, keepsMap))
  {
    var t := Begin(s, task, loaded, keepsMap);
    NextIds(s, keepsMap);
    forall g | g in task.prompts ensures Booked(t, g) {
      BeginKeepsBooked(s, task, loaded, keepsMap, g);
    }
  }

  lemma StepKeepsInv(s: State, step: Step)
    requires Inv(s) && Enabled(s, step)
    ensures Inv(Do(s, step))
  {
    match step
    case Announce(gid, rid) => AnnounceKeepsInv(s, gid, rid);
    case AnswerSaved(gid) => AnswerSavedKeepsInv(s, gid);
    case Submit(gid, budget) => SubmitKeepsInv(s, gid, budget);
    case SubmitStray(rid) => SubmitStrayKeepsInv(s, rid);
    case Emit(outputs) => EmitKeepsInv(s, outputs);
    case Answer(gid) => AnswerKeepsInv(s, gid);
    case Consume => ConsumeKeepsInv(s);
    case Fault => NoticeKeepsInv(s, Failed);
    case FindEmpty => NoticeKeepsInv(s, Emptied);
    case Kill => KillKeepsInv(s);
    case Read => ReadKeepsInv(s);
    case NextTask(task, loaded, keepsMap) => BeginKeepsInv(s, task, loaded, keepsMap);
  }

  lemma BlankInv(task: Task)
    requires task.limit > 0
    ensures Inv(Blank(task))
  {
    forall gid | gid in task.prompts ensures Booked(Blank(task), gid) {}
  }

  lemma InitialInv(s: State)
    requires Initial(s)
    ensures Inv(s)
  {
    var task: Task, loaded: Dict :| task.limit > 0 && s == Started(task, loaded);
    BlankInv(task);
    BeginKeepsInv(Blank(task), task, loaded, false);
  }

  lemma {:induction false} RunKeepsInv(s: State, steps: seq<Step>)
    requires Inv(s) && Executes(s, steps)
    ensures Inv(Final(s, steps))
    decreases |steps|
  {
    if steps != [] {
      StepKeepsInv(s, steps[0]);
      RunKeepsInv(Do(s, steps[0]), steps[1..]);
    }
  }

  lemma ReachableInv(start: State, steps: seq<Step>)
    requires Initial(start) && Executes(start, steps)
    ensures Inv(Final(start, steps))
  {
    InitialInv(start);
    RunKeepsInv(start, steps);
  }

  // ----- the main results -----

  /** Token conservation, in every reachable state, however late the consumer was at reads and at the start of the
   *  step: what is saved for an id followed by what is still queued for it is exactly what was enqueued for it, and
   *  letting the consumer finish the queue saves all of it, so no token is dropped for lack of a mapping and none is
   *  counted twice. */
  lemma TokensAreConserved(start: State, steps: seq<Step>, gid: Gid)
    requires Initial(start) && Executes(start, steps)
    requires gid in Final(start, steps).task.prompts
    ensures var s := Final(start, steps);
            gid in s.log &&
            Lookup(s.store.dict, gid).tokens + Queued(s.queue, s.owner, gid) == s.log[gid] &&
            Lookup(ApplyAll(s.store, s.queue).dict, gid).tokens == s.log[gid]
  {
    ReachableInv(start, steps);
    var s := Final(start, steps);
    assert Booked(s, gid);
    DrainedTokens(Lookup(s.store.dict, gid), s.queue, s.owner, gid);
    ConsumingDrains(s.store, s.queue, s.owner, gid);
  }

  /** While workers and engines live, what was enqueued is what the attempt was planned from, what came late for the
   *  plan, and what the attempt sent; so tokens that came late are generated and enqueued once more. */
  lemma EnqueuedIs(start: State, steps: seq<Step>, gid: Gid)
    requires Initial(start) && Executes(start, steps)
    requires gid in Final(start, steps).task.prompts && Final(start, steps).alive
    ensures var s := Final(start, steps);
            gid in s.log && gid in s.plan && gid in s.late && s.log[gid] == s.plan[gid].tokens + s.late[gid] + Sent(s, gid)
  {
    ReachableInv(start, steps);
    assert Booked(Final(start, steps), gid);
  }

  lemma SavedIsEverythingIff(s: State, gid: Gid)
    requires gid in s.task.prompts && gid in s.log && Landing(s, gid).tokens == s.log[gid]
    ensures Lookup(s.store.dict, gid).tokens == s.log[gid] <==> Queued(s.queue, s.owner, gid) == []
  {
    var saved := Lookup(s.store.dict, gid).tokens;
    DrainedTokens(Lookup(s.store.dict, gid), s.queue, s.owner, gid);
    assert saved + [] == saved;
  }

  /** A rebuilt attempt is planned from everything that was enqueued exactly when no token of the id is queued at the
   *  moment of the read; that the queue was found empty before the kill does not ensure it. */
  lemma RetryPlansEverythingIff(start: State, steps: seq<Step>, gid: Gid)
    requires Initial(start) && Executes(start, steps) && Enabled(Final(start, steps), Read)
    requires gid in Final(start, steps).task.prompts
    ensures var s := Final(start, steps);
            var t := Do(s, Read);
            gid in t.plan && gid in s.log && (t.plan[gid].tokens == s.log[gid] <==> Queued(s.queue, s.owner, gid) == [])
  {
    ReachableInv(start, steps);
    var s := Final(start, steps);
    assert Booked(s, gid);
    PlannedTokens(s.task.prompts, s.store.dict, gid);
    SavedIsEverythingIff(s, gid);
  }

  lemma {:induction false} UnresolvedIsIgnored(ids: map<Rid, Gid>, dict: Dict, infos: seq<(Rid, Info)>)
    requires forall i :: 0 <= i < |infos| ==> infos[i].0 !in ids
    ensures ApplyInfos(ids, dict, infos) == dict
    decreases |infos|
  {
    if infos != [] {
      assert infos[|infos| - 1].0 !in ids;
      UnresolvedIsIgnored(ids, dict, infos[..|infos| - 1]);
    }
  }

  lemma StrayMessageIsIgnored(s: State)
    requires Inv(s) && s.queue != [] && s.queue[0].Update?
    requires forall i :: 0 <= i < |s.queue[0].infos| ==> s.queue[0].infos[i].0 !in s.owner && s.queue[0].infos[i].1.Delta?
    ensures Do(s, Consume).store == s.store
  {
    UnresolvedIsIgnored(s.store.ids, s.store.dict, s.queue[0].infos);
  }

  /** Traffic without a global id never changes the dictionary, not even in later steps. */
  lemma StrayTokensAreIgnored(start: State, steps: seq<Step>)
    requires Initial(start) && Executes(start, steps)
    requires var s := Final(start, steps);
             s.queue != [] && s.queue[0].Update? &&
             forall i :: 0 <= i < |s.queue[0].infos| ==> s.queue[0].infos[i].0 !in s.owner && s.queue[0].infos[i].1.Delta?
    ensures var s := Final(start, steps);
            Do(s, Consume).store == s.store
  {
    ReachableInv(start, steps);
    StrayMessageIsIgnored(Final(start, steps));
  }

  lemma {:induction false} RunAppends(s: State, first: seq<Step>, second: seq<Step>)
    requires Executes(s, first) && Executes(Final(s, first), second)
    ensures Executes(s, first + second) && Final(s, first + second) == Final(Final(s, first), second)
    decreases |first|
  {
    if first == [] {
      assert first + second == second;
    } else {
      assert (first + second)[1..] == first[1..] + second;
      RunAppends(Do(s, first[0]), first[1..], second);
    }
  }

  lemma RunExtends(s: State, steps: seq<Step>, step: Step)
    requires Executes(s, steps) && Enabled(Final(s, steps), step)
    ensures Executes(s, steps + [step]) && Final(s, steps + [step]) == Do(Final(s, steps), step)
  {
    assert [step][1..] == [];
    assert Executes(Do(Final(s, steps), step), []);
    RunAppends(s, steps, [step]);
  }
}

/** The durable half of the token dictionary: the auto-save file, one file per finished step, and
 *  what a restarted process finds in them.
 */
module TokenCheckpoint {
  import opened Decoding
  import opened TokensDict

  // ----- the actor and its two kinds of file -----

  datatype SaveFile = NoFile | Saved(iter: nat, tokens: Dict)

  /** `tokens.pt` and the files `global_step_<i>.pt`. */
  datatype Disk = Disk(auto: SaveFile, steps: map<nat, Dict>)

  /** The fields of `TokensDict` that matter here. */
  datatype Memory = Memory(iteration: nat, dict: Dict, savedSteps: set<nat>, finishedStep: bool)

  predicate AllFinished(dict: Dict) {
    forall gid | gid in dict :: dict[gid].finished
  }

  function CountFinished(dict: Dict): nat {
    |set gid | gid in dict && dict[gid].finished|
  }

  /** The condition on which `clear` stops waiting. */
  predicate ClearReady(memory: Memory, disk: Disk) {
    memory.dict == map[] || (AllFinished(memory.dict) && memory.iteration in disk.steps)
  }

  function AfterClear(memory: Memory, disk: Disk, latest: nat): (Memory, Disk) {
    (memory.(dict := map[], savedSteps := set i | i in memory.savedSteps && i > latest),
     disk.(steps := map i | i in disk.steps && !(i in memory.savedSteps && i <= latest) :: disk.steps[i]))
  }

  function AfterTryLoad(memory: Memory, disk: Disk): Memory {
    if memory.iteration in disk.steps then memory.(dict := disk.steps[memory.iteration], finishedStep := true)
    else if disk.auto.Saved? && disk.auto.iter == memory.iteration then
      memory.(dict := disk.auto.tokens, finishedStep := false)
    else memory.(finishedStep := false)
  }

  /** One round of the saving thread: replace the auto-save file, then copy it once all is finished. */
  function AfterTick(memory: Memory, disk: Disk, batchSize: nat): (Memory, Disk) {
    if memory.finishedStep then (memory, disk)
    else
      var saved := disk.(auto := Saved(memory.iteration, memory.dict));
      if AllFinished(memory.dict) && CountFinished(memory.dict) == batchSize then
        (memory.(savedSteps := memory.savedSteps + {memory.iteration}),
         saved.(steps := saved.steps[memory.iteration := memory.dict]))
      else (memory, saved)
  }

  lemma AllCounted(dict: Dict)
    requires forall gid :: gid in dict ==> dict[gid].finished
    ensures AllFinished(dict) && CountFinished(dict) == |dict|
  {
    assert (set gid | gid in dict && dict[gid].finished) == dict.Keys;
  }

  class Volume {
    var tokens_pt: SaveFile
    var global_steps: map<nat, Dict>

    ghost function Contents(): Disk
      reads this
    {
      Disk(tokens_pt, global_steps)
    }

    constructor ()
      ensures Contents() == Disk(NoFile, map[])
    {
      tokens_pt, global_steps := NoFile, map[];
    }
  }

  class Actor {
    const volume: Volume
    const batch_size: nat
    var iteration: nat
    var index_prompt_tokens: Dict
    var saved_step_ckpt: set<nat>
    var is_rollout_finished_step: bool

    ghost function Fields(): Memory
      reads this
    {
      Memory(iteration, index_prompt_tokens, saved_step_ckpt, is_rollout_finished_step)
    }

    constructor (volume: Volume, batchSize: nat)
      ensures this.volume == volume && batch_size == batchSize
      ensures Fields() == Memory(0, map[], {}, false)
    {
      this.volume, batch_size := volume, batchSize;
      iteration, index_prompt_tokens, saved_step_ckpt, is_rollout_finished_step := 0, map[], {}, false;
    }

    /** `clear` after its wait, which ends when `ClearReady` holds. */
    method Clear(latestModelCkptStep: nat)
      requires ClearReady(Fields(), volume.Contents())
      modifies this, volume
      ensures (Fields(), volume.Contents()) == AfterClear(old(Fields()), old(volume.Contents()), latestModelCkptStep)
      ensures index_prompt_tokens == map[] && iteration == old(iteration) && volume.tokens_pt == old(volume.tokens_pt)
      ensures forall i :: i in saved_step_ckpt <==> i in old(saved_step_ckpt) && latestModelCkptStep < i
      ensures forall i :: i in volume.global_steps <==>
                          i in old(volume.global_steps) && (i in old(saved_step_ckpt) ==> latestModelCkptStep < i)
      ensures forall i :: i in volume.global_steps ==> volume.global_steps[i] == old(volume.global_steps[i])
    {
      index_prompt_tokens := map[];
      var todo := saved_step_ckpt;
      while todo != {}
        invariant todo <= old(saved_step_ckpt)
        invariant iteration == old(iteration) && index_prompt_tokens == map[]
        invariant is_rollout_finished_step == old(is_rollout_finished_step)
        invariant volume.tokens_pt == old(volume.tokens_pt)
        invariant forall i :: i in saved_step_ckpt <==> i in old(saved_step_ckpt) && (i in todo || i > latestModelCkptStep)
        invariant forall i :: i in volume.global_steps <==>
                    i in old(volume.global_steps) && !(i in old(saved_step_ckpt) - todo && i <= latestModelCkptStep)
        invariant forall i :: i in volume.global_steps ==> volume.global_steps[i] == old(volume.global_steps)[i]
      {
        var i :| i in todo;
        todo := todo - {i};
        if i <= latestModelCkptStep {
          if i in volume.global_steps {
            volume.global_steps := volume.global_steps - {i};
          }
          saved_step_ckpt := saved_step_ckpt - {i};
        }
      }
      ghost var (memory, disk) := AfterClear(old(Fields()), old(volume.Contents()), latestModelCkptStep);
      assert saved_step_ckpt == memory.savedSteps;
      assert volume.global_steps == disk.steps;
    }

    method UpdateIter(iteration: nat)
      modifies this`iteration
      ensures Fields() == old(Fields()).(iteration := iteration)
    {
      this.iteration := iteration;
    }

    method TryLoad() returns (found: bool)
      modifies this`index_prompt_tokens, this`is_rollout_finished_step
      ensures Fields() == AfterTryLoad(old(Fields()), volume.Contents())
      ensures found <==> iteration in volume.global_steps ||
                         (volume.tokens_pt.Saved? && volume.tokens_pt.iter == iteration)
      ensures is_rollout_finished_step <==> iteration in volume.global_steps
      ensures index_prompt_tokens == (if iteration in volume.global_steps then volume.global_steps[iteration]
                                      else if found then volume.tokens_pt.tokens else old(index_prompt_tokens))
    {
      if iteration in volume.global_steps {
        index_prompt_tokens := volume.global_steps[iteration];
        is_rollout_finished_step := true;
        return true;
      }
      is_rollout_finished_step := false;
      if volume.tokens_pt.Saved? {
        if volume.tokens_pt.iter == iteration {
          index_prompt_tokens := volume.tokens_pt.tokens;
          return true;
        }
      }
      return false;
    }

    method AutoSave()
      modifies this`saved_step_ckpt, volume
      ensures (Fields(), volume.Contents()) == AfterTick(old(Fields()), old(volume.Contents()), batch_size)
      ensures old(is_rollout_finished_step) ==> volume.Contents() == old(volume.Contents()) && saved_step_ckpt == old(saved_step_ckpt)
      ensures !is_rollout_finished_step ==> volume.tokens_pt == Saved(iteration, index_prompt_tokens)
      ensures !is_rollout_finished_step ==>
                if |index_prompt_tokens| == batch_size && forall gid :: gid in index_prompt_tokens ==> index_prompt_tokens[gid].finished then
                  volume.global_steps == old(volume.global_steps)[iteration := index_prompt_tokens] &&
                  saved_step_ckpt == old(saved_step_ckpt) + {iteration}
                else volume.global_steps == old(volume.global_steps) && saved_step_ckpt == old(saved_step_ckpt)
    {
      if AllFinished(index_prompt_tokens) {
        AllCounted(index_prompt_tokens);
      }
      if !is_rollout_finished_step {
        volume.tokens_pt := Saved(iteration, index_prompt_tokens);
        var finished := CountFinished(index_prompt_tokens);
        if AllFinished(index_prompt_tokens) && finished == batch_size {
          volume.global_steps := volume.global_steps[iteration := index_prompt_tokens];
          saved_step_ckpt := saved_step_ckpt + {iteration};
        }
      }
    }
  }

  // ----- a training run with crashes -----

  datatype Phase =
    | Entering   // `init_index_prompt_tokens` of `step` has not started
    | Passed     // the wait in `clear` is over
    | Cleared
    | Renamed    // `update_iter` done, nothing loaded yet
    | Rolling
    | Trained    // the rollout of `step` has returned `outputs`

  /** How far the saving thread is in its round; while it is not idle it holds the lock. */
  datatype Round =
    | Idle
    | Written    // the auto-save file has been replaced
    | Counted    // all entries were finished and as many as the batch has: the copy is next

  /** History: the steps whose rollouts produced the tokens of an entry. */
  type Origin = map<Gid, set<nat>>

  datatype Origins = Origins(memory: Origin, auto: Origin, files: map<nat, Origin>)

  datatype State = State(
    batch: set<Gid>,
    disk: Disk,
    checkpoint: nat,             // latest model checkpoint, 0 when there is none
    memory: Memory,
    saving: bool,                // the saving thread of this process is alive
    round: Round,
    phase: Phase,
    step: nat,
    outputs: Dict,               // what the trainer got for the step it trained last
    trained: map<nat, Dict>,     // history: what each step since the checkpoint was trained on
    snapshots: map<nat, Dict>,   // history: what the saving thread last saw of each step's rollout
    origins: Origins,            // history: where the tokens in memory and in the files come from
    process: nat,                // history: how many processes died
    authors: map<nat, nat>)      // history: the process that wrote a step's file

  datatype Step =
    | PassClear                  // `clear` looks under the lock ...
    | Empty                      // ... and empties without it
    | UpdateIter                 // without the lock
    | TryLoad
    | Progress(dict: Dict)       // the consumer applies messages
    | Write
    | Count
    | Copy                       // to the file of the step that the tag names by now
    | RolloutReturns(outputs: Dict)
    | SaveModel
    | NextStep
    | Crash

  /** Tokens only grow, and a finished entry stays as it is. */
  ghost predicate Grows(before: Dict, after: Dict) {
    forall gid :: gid in before ==>
      gid in after && before[gid].tokens <= after[gid].tokens && (before[gid].finished ==> after[gid] == before[gid])
  }

  ghost predicate Full(s: State, dict: Dict) {
    dict.Keys == s.batch && AllFinished(dict)
  }

  ghost predicate Enabled(s: State, step: Step) {
    match step
    case PassClear => s.phase == Entering && s.round == Idle && ClearReady(s.memory, s.disk) && (s.saving ==> s.memory.dict != map[])
    case Empty => s.phase == Passed
    case UpdateIter => s.phase == Cleared
    case TryLoad => s.phase == Renamed && s.round == Idle
    case Progress(dict) =>
      s.saving && s.round == Idle && Holding(s) && dict.Keys <= s.batch && Grows(s.memory.dict, dict) &&
      (s.phase != Rolling ==> Grows(dict, s.outputs))
    case Write => s.saving && s.round == Idle && !s.memory.finishedStep
    case Count => s.round == Written
    case Copy => s.round == Counted
    case RolloutReturns(outputs) => s.phase == Rolling && Full(s, outputs) && Grows(s.memory.dict, outputs)
    case SaveModel => s.phase == Trained
    case NextStep => s.phase == Trained
    case Crash => true
  }

  /** Whether the dictionary currently holds tokens of the step its tag names. */
  predicate Holding(s: State) {
    s.phase == Rolling || s.phase == Trained || s.phase == Entering || s.phase == Passed
  }

  /** The step whose rollout sends the messages that the consumer applies, whatever the tag says. */
  function Producing(s: State): nat {
    if (s.phase == Entering || s.phase == Passed) && s.step > 0 then s.step - 1 else s.step
  }

  /** The origins once `dict` has replaced `before`: what changed comes from step `from`. */
  function Applied(origin: Origin, before: Dict, dict: Dict, from: nat): Origin {
    map gid | gid in dict ::
      (if gid in origin then origin[gid] else {}) + if gid in before && before[gid] == dict[gid] then {} else {from}
  }

  /** An entry is from two steps if the second one changes it, and an entry that stays stays from its own. */
  lemma MixingIsSeen(origin: Origin, before: Dict, dict: Dict, from: nat, gid: Gid, own: nat)
    requires gid in before && gid in dict && gid in origin && origin[gid] == {own}
    ensures Applied(origin, before, dict, from)[gid] == if before[gid] == dict[gid] then {own} else {own, from}
  {
  }

  /** The auto-save file is replaced. */
  function AutoSaved(s: State): State {
    s.(disk := s.disk.(auto := Saved(s.memory.iteration, s.memory.dict)), round := Written,
       snapshots := if Holding(s) then s.snapshots[Producing(s) := s.memory.dict] else s.snapshots,
       origins := s.origins.(auto := s.origins.memory))
  }

  predicate CompletesStep(s: State) {
    AllFinished(s.memory.dict) && CountFinished(s.memory.dict) == |s.batch|
  }

  /** The finished entries are counted. */
  function AfterCount(s: State): State {
    s.(round := if CompletesStep(s) then Counted else Idle)
  }

  /** The auto-save file is copied to the file of the step. */
  function Copied(s: State): State {
    var i, tokens := s.memory.iteration, if s.disk.auto.Saved? then s.disk.auto.tokens else map[];
    s.(disk := s.disk.(steps := s.disk.steps[i := tokens]), memory := s.memory.(savedSteps := s.memory.savedSteps + {i}), round := Idle,
       origins := s.origins.(files := s.origins.files[i := s.origins.auto]), authors := s.authors[i := s.process])
  }

  /** A round in which nothing comes between. */
  function WholeRound(s: State): State {
    if s.memory.finishedStep then s
    else
      var counted := AfterCount(AutoSaved(s));
      if counted.round == Counted then Copied(counted) else counted
  }

  /** The three parts are the round of the saving thread. */
  lemma WholeRoundIsAfterTick(s: State)
    ensures (WholeRound(s).memory, WholeRound(s).disk) == AfterTick(s.memory, s.disk, |s.batch|)
  {
  }

  /** A new process starts from the model checkpoint with an empty actor. */
  function Restarted(s: State): State {
    s.(memory := Memory(0, map[], {}, false), saving := false, round := Idle, phase := Entering, step := s.checkpoint + 1, outputs := map[],
       origins := s.origins.(memory := map[]), process := s.process + 1)
  }

  /** Where the tokens in memory come from after `try_load`. */
  function LoadedOrigin(s: State): Origin {
    if s.memory.iteration in s.disk.steps then
      if s.memory.iteration in s.origins.files then s.origins.files[s.memory.iteration] else map[]
    else if s.disk.auto.Saved? && s.disk.auto.iter == s.memory.iteration then s.origins.auto
    else s.origins.memory
  }

  function Emptied(s: State): State {
    var (memory, disk) := AfterClear(s.memory, s.disk, s.checkpoint);
    s.(memory := memory, disk := disk, phase := Cleared, origins := s.origins.(memory := map[]))
  }

  function Loaded(s: State): State {
    s.(memory := AfterTryLoad(s.memory, s.disk), saving := true, phase := Rolling,
       trained := if s.step in s.disk.steps then s.trained else s.trained - {s.step},
       origins := s.origins.(memory := LoadedOrigin(s)))
  }

  ghost function Do(s: State, step: Step): State
    requires Enabled(s, step)
  {
    match step
    case PassClear => s.(phase := Passed)
    case Empty => Emptied(s)
    case UpdateIter => s.(memory := s.memory.(iteration := s.step), phase := Renamed)
    case TryLoad => Loaded(s)
    case Progress(dict) =>
      s.(memory := s.memory.(dict := dict),
         origins := s.origins.(memory := Applied(s.origins.memory, s.memory.dict, dict, Producing(s))))
    case Write => AutoSaved(s)
    case Count => AfterCount(s)
    case Copy => Copied(s)
    case RolloutReturns(outputs) => s.(phase := Trained, outputs := outputs, trained := s.trained[s.step := outputs])
    case SaveModel => s.(checkpoint := s.step)
    case NextStep => s.(phase := Entering, step := s.step + 1)
    case Crash => Restarted(s)
  }

  ghost predicate Initial(s: State) {
    s.batch != {} &&
    s == State(s.batch, Disk(NoFile, map[]), 0, Memory(0, map[], {}, false), false, Idle, Entering, 1, map[], map[], map[],
               Origins(map[], map[], map[]), 0, map[])
  }

  ghost predicate Executes(s: State, steps: seq<Step>)
    decreases |steps|
  {
    steps == [] || (Enabled(s, steps[0]) && Executes(Do(s, steps[0]), steps[1..]))
  }

  ghost function Final(s: State, steps: seq<Step>): State
    requires Executes(s, steps)
    decreases |steps|
  {
    if steps == [] then s else Final(Do(s, steps[0]), steps[1..])
  }

  /** The tag never changes between the count and the copy of a round. */
  ghost predicate RenamesInTime(s: State, steps: seq<Step>)
    requires Executes(s, steps)
    decreases |steps|
  {
    steps == [] || ((steps[0].UpdateIter? ==> s.round != Counted) && RenamesInTime(Do(s, steps[0]), steps[1..]))
  }

  // ----- what every step keeps -----

  /** Files hold whole finished steps, and the tokens those steps were trained on. */
  ghost predicate FilesFinal(s: State) {
    forall i :: i in s.disk.steps ==>
      Full(s, s.disk.steps[i]) && (i in s.trained ==> s.trained[i] == s.disk.steps[i])
  }

  /** No step since the checkpoint is missing a file before `bound`. */
  ghost predicate FiledUpTo(s: State, bound: nat) {
    forall i :: s.checkpoint < i < bound ==> i in s.disk.steps
  }

  /** The auto-save file holds a snapshot of the step it is tagged with, or nothing. */
  ghost predicate AutoIsSnapshot(s: State) {
    s.disk.auto.Saved? ==>
      s.disk.auto.tokens.Keys <= s.batch &&
      (s.disk.auto.tokens == map[] ||
       (s.disk.auto.iter in s.snapshots && s.disk.auto.tokens == s.snapshots[s.disk.auto.iter]))
  }

  /** A step that was interrupted before it got its own file is the one the auto-save file holds. */
  ghost predicate UnfiledIsSaved(s: State) {
    forall i :: i in s.snapshots && i > s.checkpoint && i !in s.disk.steps ==> s.disk.auto == Saved(i, s.snapshots[i])
  }

  ghost predicate SnapshotsFollowFiles(s: State) {
    forall i :: i in s.snapshots ==> FiledUpTo(s, i)
  }

  ghost predicate AutoSaveTagged(s: State) {
    AutoIsSnapshot(s) && UnfiledIsSaved(s) && SnapshotsFollowFiles(s)
  }

  ghost predicate Clock(s: State) {
    s.batch != {} && s.memory.dict.Keys <= s.batch &&
    s.checkpoint <= s.step && (s.phase != Trained ==> s.checkpoint < s.step) &&
    (s.saving ==> s.memory.iteration == (if s.phase == Entering || s.phase == Passed || s.phase == Cleared then s.step - 1 else s.step)) &&
    (s.phase == Renamed ==> s.memory.iteration == s.step) &&
    (s.phase == Rolling || s.phase == Trained || s.round != Idle ==> s.saving) &&
    (!s.saving || s.phase == Cleared || s.phase == Renamed ==> s.memory.dict == map[]) &&
    FiledUpTo(s, if s.saving && s.phase == Entering then s.step - 1 else s.step)
  }

  /** What is on disk for the step in memory, when this process produced or replayed it. */
  ghost predicate Current(s: State) {
    var i := s.memory.iteration;
    (Holding(s) && s.saving ==>
       (i in s.disk.steps ==> s.disk.steps[i] == s.memory.dict) &&
       (s.memory.finishedStep ==> i in s.disk.steps)) &&
    (s.saving && Holding(s) && s.phase != Rolling ==>
       Full(s, s.outputs) && Grows(s.memory.dict, s.outputs) && i in s.trained && s.trained[i] == s.outputs) &&
    (s.phase == Rolling && i !in s.disk.steps ==> i !in s.trained) &&
    (s.saving && !s.memory.finishedStep ==>
       forall k :: k in s.snapshots ==> k <= i && (s.phase == Renamed ==> k < i))
  }

  /** What a round has in hand: the dictionary as long as that is there, and whole once it is counted. */
  ghost predicate InHand(s: State) {
    var i, auto := s.memory.iteration, s.disk.auto;
    (s.round != Idle ==> !s.memory.finishedStep && auto.Saved? && (Holding(s) ==> auto == Saved(i, s.memory.dict))) &&
    (s.round == Counted ==>
       s.phase != Renamed && auto.iter == i && Full(s, auto.tokens) &&
       (i in s.disk.steps ==> s.disk.steps[i] == auto.tokens) && (i in s.trained ==> s.trained[i] == auto.tokens))
  }

  ghost predicate Inv(s: State) {
    Clock(s) && FilesFinal(s) && AutoSaveTagged(s) && Current(s) && InHand(s)
  }

  lemma FullStays(s: State, before: Dict, after: Dict)
    requires Full(s, before) && Grows(before, after) && after.Keys <= s.batch
    ensures after == before
  {
    assert after.Keys == before.Keys;
  }

  lemma CountsFull(s: State, dict: Dict)
    requires dict.Keys <= s.batch && AllFinished(dict)
    ensures CountFinished(dict) == |s.batch| <==> dict.Keys == s.batch
  {
    assert (set gid | gid in dict && dict[gid].finished) == dict.Keys;
    SubsetOfSameSize(dict.Keys, s.batch);
  }

  lemma SubsetOfSameSize<T>(small: set<T>, large: set<T>)
    requires small <= large
    ensures |small| == |large| <==> small == large
  {
    assert |large| == |small| + |large - small| by { assert large == small + (large - small); }
  }

  lemma AutoSaveIsSnapshot(s: State)
    requires Inv(s) && s.saving && !s.memory.finishedStep
    ensures AutoIsSnapshot(AutoSaved(s))
  {
  }

  lemma AutoSaveKeepsUnfiled(s: State)
    requires Inv(s) && s.saving && !s.memory.finishedStep
    ensures UnfiledIsSaved(AutoSaved(s))
  {
    assert forall i :: i in s.snapshots && i > s.checkpoint && i !in s.disk.steps ==> i == s.memory.iteration;
  }

  lemma AutoSaveFollowsFiles(s: State)
    requires Inv(s) && s.saving
    ensures SnapshotsFollowFiles(AutoSaved(s))
  {
    forall i | i in AutoSaved(s).snapshots ensures FiledUpTo(AutoSaved(s), i) {}
  }

  lemma WriteKeepsTag(s: State)
    requires Inv(s) && s.saving && !s.memory.finishedStep
    ensures AutoSaveTagged(AutoSaved(s))
  {
    AutoSaveIsSnapshot(s);
    AutoSaveKeepsUnfiled(s);
    AutoSaveFollowsFiles(s);
  }

  lemma WriteKeepsInv(s: State)
    requires Inv(s) && Enabled(s, Write)
    ensures Inv(AutoSaved(s))
  {
    WriteKeepsTag(s);
  }

  lemma CountKeepsInv(s: State)
    requires Inv(s) && Enabled(s, Count)
    ensures Inv(AfterCount(s))
  {
    if CompletesStep(s) {
      CountsFull(s, s.memory.dict);
      assert Full(s, s.memory.dict);
      if s.phase != Rolling {
        FullStays(s, s.memory.dict, s.outputs);
      }
    }
  }

  lemma CopyKeepsInv(s: State)
    requires Inv(s) && Enabled(s, Copy)
    ensures Inv(Copied(s))
  {
  }

  lemma RestartKeepsInv(s: State)
    requires Inv(s)
    ensures Inv(Restarted(s))
  {
  }

  lemma PassClearKeepsInv(s: State)
    requires Inv(s) && Enabled(s, PassClear)
    ensures Inv(Do(s, PassClear))
  {
  }

  lemma EmptyKeepsInv(s: State)
    requires Inv(s) && Enabled(s, Empty)
    ensures Inv(Emptied(s))
  {
  }

  lemma TryLoadKeepsInv(s: State)
    requires Inv(s) && Enabled(s, TryLoad)
    ensures Inv(Loaded(s))
  {
  }

  lemma UpdateIterKeepsInv(s: State)
    requires Inv(s) && Enabled(s, UpdateIter) && s.round != Counted
    ensures Inv(Do(s, UpdateIter))
  {
  }

  lemma ProgressKeepsInv(s: State, dict: Dict)
    requires Inv(s) && Enabled(s, Progress(dict))
    ensures Inv(Do(s, Progress(dict)))
  {
    if s.memory.iteration in s.disk.steps {
      FullStays(s, s.memory.dict, dict);
    }
  }

  lemma RolloutReturnsKeepsInv(s: State, outputs: Dict)
    requires Inv(s) && Enabled(s, RolloutReturns(outputs))
    ensures Inv(Do(s, RolloutReturns(outputs)))
  {
    if s.memory.iteration in s.disk.steps || s.round == Counted {
      FullStays(s, s.memory.dict, outputs);
    }
  }

  lemma SaveModelKeepsInv(s: State)
    requires Inv(s) && Enabled(s, SaveModel)
    ensures Inv(Do(s, SaveModel))
  {
  }

  lemma NextStepKeepsInv(s: State)
    requires Inv(s) && Enabled(s, NextStep)
    ensures Inv(Do(s, NextStep))
  {
  }

  lemma StepKeepsInv(s: State, step: Step)
    requires Inv(s) && Enabled(s, step) && (step.UpdateIter? ==> s.round != Counted)
    ensures Inv(Do(s, step))
  {
    match step
    case PassClear => PassClearKeepsInv(s);
    case Empty => EmptyKeepsInv(s);
    case UpdateIter => UpdateIterKeepsInv(s);
    case TryLoad => TryLoadKeepsInv(s);
    case Progress(dict) => ProgressKeepsInv(s, dict);
    case Write => WriteKeepsInv(s);
    case Count => CountKeepsInv(s);
    case Copy => CopyKeepsInv(s);
    case RolloutReturns(outputs) => RolloutReturnsKeepsInv(s, outputs);
    case SaveModel => SaveModelKeepsInv(s);
    case NextStep => NextStepKeepsInv(s);
    case Crash => RestartKeepsInv(s);
  }

  lemma {:induction false} RunKeepsInv(s: State, steps: seq<Step>)
    requires Inv(s) && Executes(s, steps) && RenamesInTime(s, steps)
    ensures Inv(Final(s, steps))
    decreases |steps|
  {
    if steps != [] {
      StepKeepsInv(s, steps[0]);
      RunKeepsInv(Do(s, steps[0]), steps[1..]);
    }
  }

  // ----- where tokens and files come from -----

  /** Every entry was produced by the rollout of `step`, and by no other. */
  ghost predicate IsFrom(origin: Origin, dict: Dict, step: nat) {
    origin.Keys == dict.Keys && forall gid :: gid in origin ==> origin[gid] == {step}
  }

  /** The tags in memory and on disk name the steps that produced the tokens. */
  ghost predicate Sourced(s: State) {
    IsFrom(s.origins.memory, s.memory.dict, s.memory.iteration) &&
    (s.disk.auto.Saved? ==> IsFrom(s.origins.auto, s.disk.auto.tokens, s.disk.auto.iter)) &&
    forall i :: i in s.disk.steps ==> i in s.origins.files && IsFrom(s.origins.files[i], s.disk.steps[i], i)
  }

  lemma AppliedIsFrom(origin: Origin, before: Dict, dict: Dict, step: nat)
    requires IsFrom(origin, before, step) && Grows(before, dict)
    ensures IsFrom(Applied(origin, before, dict, step), dict, step)
  {
  }

  /** While the consumer runs, the tag is the step that produces: an invariant of the clock. */
  lemma TagIsProducing(s: State)
    requires Inv(s) && s.saving && Holding(s)
    ensures s.memory.iteration == Producing(s)
  {
  }

  lemma WriteKeepsSourced(s: State)
    requires Sourced(s)
    ensures Sourced(AutoSaved(s))
  {
  }

  lemma CopyKeepsSourced(s: State)
    requires Inv(s) && Sourced(s) && Enabled(s, Copy)
    ensures Sourced(Copied(s))
  {
  }

  lemma EmptyKeepsSourced(s: State)
    requires Sourced(s)
    ensures Sourced(Emptied(s))
  {
  }

  lemma TryLoadKeepsSourced(s: State)
    requires Sourced(s)
    ensures Sourced(Loaded(s))
  {
  }

  lemma StepKeepsSourced(s: State, step: Step)
    requires Inv(s) && Sourced(s) && Enabled(s, step)
    ensures Sourced(Do(s, step))
  {
    match step
    case Progress(dict) =>
      TagIsProducing(s);
      AppliedIsFrom(s.origins.memory, s.memory.dict, dict, Producing(s));
    case Write => WriteKeepsSourced(s);
    case Copy => CopyKeepsSourced(s);
    case Empty => EmptyKeepsSourced(s);
    case TryLoad => TryLoadKeepsSourced(s);
    case _ =>
  }

  /** The saved steps of the actor are the files that this process wrote. */
  ghost predicate Authored(s: State) {
    (forall i :: i in s.disk.steps ==> i in s.authors && s.authors[i] <= s.process) &&
    forall i :: i in s.memory.savedSteps <==> i in s.disk.steps && i in s.authors && s.authors[i] == s.process
  }

  lemma RestartKeepsAuthored(s: State)
    requires Authored(s)
    ensures Authored(Restarted(s))
  {
  }

  lemma EmptyKeepsAuthored(s: State)
    requires Authored(s)
    ensures Authored(Emptied(s))
  {
  }

  lemma CopyKeepsAuthored(s: State)
    requires Authored(s)
    ensures Authored(Copied(s))
  {
  }

  lemma StepKeepsAuthored(s: State, step: Step)
    requires Authored(s) && Enabled(s, step)
    ensures Authored(Do(s, step))
  {
    match step
    case Empty => EmptyKeepsAuthored(s);
    case Copy => CopyKeepsAuthored(s);
    case Crash => RestartKeepsAuthored(s);
    case _ =>
      assert Do(s, step).disk.steps == s.disk.steps && Do(s, step).memory.savedSteps == s.memory.savedSteps;
      assert Do(s, step).authors == s.authors && Do(s, step).process == s.process;
  }

  lemma {:induction false} RunKeepsHistory(s: State, steps: seq<Step>)
    requires Inv(s) && Sourced(s) && Authored(s) && Executes(s, steps) && RenamesInTime(s, steps)
    ensures Sourced(Final(s, steps)) && Authored(Final(s, steps))
    decreases |steps|
  {
    if steps != [] {
      StepKeepsInv(s, steps[0]);
      StepKeepsSourced(s, steps[0]);
      StepKeepsAuthored(s, steps[0]);
      RunKeepsHistory(Do(s, steps[0]), steps[1..]);
    }
  }

  lemma EmptyKeepsFiles(s: State, i: nat)
    requires i in s.disk.steps && i > s.checkpoint
    ensures i in Emptied(s).disk.steps && Emptied(s).disk.steps[i] == s.disk.steps[i]
  {
  }

  /** A step may change or remove a file only up to the checkpoint it leaves, which never moves back. */
  lemma FileSurvivesStep(s: State, step: Step, i: nat)
    requires Inv(s) && Enabled(s, step) && i in s.disk.steps
    ensures i > Do(s, step).checkpoint ==> i in Do(s, step).disk.steps && Do(s, step).disk.steps[i] == s.disk.steps[i]
  {
    match step
    case Copy =>
    case Empty => if i > s.checkpoint { EmptyKeepsFiles(s, i); }
    case _ => assert Do(s, step).disk.steps == s.disk.steps;
  }

  lemma CheckpointStep(s: State, step: Step)
    requires Inv(s) && Enabled(s, step)
    ensures s.checkpoint <= Do(s, step).checkpoint
  {
  }

  lemma {:induction false} CheckpointGrows(s: State, steps: seq<Step>)
    requires Inv(s) && Executes(s, steps) && RenamesInTime(s, steps)
    ensures s.checkpoint <= Final(s, steps).checkpoint
    decreases |steps|
  {
    if steps != [] {
      StepKeepsInv(s, steps[0]);
      CheckpointStep(s, steps[0]);
      CheckpointGrows(Do(s, steps[0]), steps[1..]);
    }
  }

  lemma {:induction false} FileSurvivesRun(s: State, steps: seq<Step>, i: nat)
    requires Inv(s) && Executes(s, steps) && RenamesInTime(s, steps) && i in s.disk.steps && i > Final(s, steps).checkpoint
    ensures i in Final(s, steps).disk.steps && Final(s, steps).disk.steps[i] == s.disk.steps[i]
    decreases |steps|
  {
    if steps != [] {
      var next := Do(s, steps[0]);
      StepKeepsInv(s, steps[0]);
      CheckpointGrows(next, steps[1..]);
      FileSurvivesStep(s, steps[0], i);
      FileSurvivesRun(next, steps[1..], i);
    }
  }

  // ----- the main results -----

  /** A file of a finished step holds all `batch_size` entries, each finished, and exactly the tokens
   *  that step was trained on. */
  lemma StepFilesAreFinal(start: State, steps: seq<Step>, i: nat)
    requires Initial(start) && Executes(start, steps) && RenamesInTime(start, steps)
    requires i in Final(start, steps).disk.steps
    ensures var s := Final(start, steps);
            s.disk.steps[i].Keys == s.batch && AllFinished(s.disk.steps[i]) &&
            (i in s.trained ==> s.disk.steps[i] == s.trained[i])
  {
    RunKeepsInv(start, steps);
  }

  /** Main result: the tag of the auto-save file, and the name of every step file, is the step whose rollout produced
   *  the tokens in it, every single entry's, whatever crashed and was reloaded in between. */
  lemma AutoSaveMatchesItsTag(start: State, steps: seq<Step>)
    requires Initial(start) && Executes(start, steps) && RenamesInTime(start, steps)
    ensures var s := Final(start, steps);
            (s.disk.auto.Saved? ==> s.origins.auto.Keys == s.disk.auto.tokens.Keys &&
                                    forall gid :: gid in s.origins.auto ==> s.origins.auto[gid] == {s.disk.auto.iter}) &&
            (forall i :: i in s.disk.steps ==>
               i in s.origins.files && s.origins.files[i].Keys == s.batch &&
               forall gid :: gid in s.batch ==> s.origins.files[i][gid] == {i})
  {
    RunKeepsInv(start, steps);
    RunKeepsHistory(start, steps);
  }

  /** And it holds the last snapshot taken of that step's rollout, or nothing. */
  lemma AutoSaveIsLastSnapshot(start: State, steps: seq<Step>)
    requires Initial(start) && Executes(start, steps) && RenamesInTime(start, steps)
    requires Final(start, steps).disk.auto.Saved?
    ensures var s := Final(start, steps);
            s.disk.auto.tokens == map[] ||
            (s.disk.auto.iter in s.snapshots && s.disk.auto.tokens == s.snapshots[s.disk.auto.iter])
  {
    RunKeepsInv(start, steps);
  }

  /** Main result: a step's file that is there at any moment of a run is there at every later one, with the same
   *  tokens, until the model checkpoint has reached the step: no clear, save, crash or reload takes it away. */
  lemma ClearKeepsUncheckpointed(start: State, steps: seq<Step>, more: seq<Step>, i: nat)
    requires Initial(start) && Executes(start, steps) && RenamesInTime(start, steps)
    requires Executes(Final(start, steps), more) && RenamesInTime(Final(start, steps), more)
    requires i in Final(start, steps).disk.steps && i > Final(Final(start, steps), more).checkpoint
    ensures var s, t := Final(start, steps), Final(Final(start, steps), more);
            i in t.disk.steps && t.disk.steps[i] == s.disk.steps[i]
  {
    RunKeepsInv(start, steps);
    FileSurvivesRun(Final(start, steps), more, i);
  }

  /** What a clear leaves: the files after the checkpoint, and older ones exactly if a process wrote them that has
   *  died since, because a new process does not know them. */
  lemma ClearLeaves(start: State, steps: seq<Step>, i: nat)
    requires Initial(start) && Executes(start, steps) && RenamesInTime(start, steps) && Enabled(Final(start, steps), Empty)
    ensures var s := Final(start, steps);
            i in Do(s, Empty).disk.steps <==>
            i in s.disk.steps && (i > s.checkpoint || (i in s.authors && s.authors[i] < s.process))
  {
    RunKeepsHistory(start, steps);
  }

  /** What a step finds when it starts: the tokens it was trained on when it has a file, and otherwise
   *  the last snapshot the saving thread took of it, which is nothing for a step never entered. */
  lemma StepsReloadWhatTheyHad(start: State, steps: seq<Step>)
    requires Initial(start) && Executes(start, steps) && RenamesInTime(start, steps) && Enabled(Final(start, steps), TryLoad)
    ensures var s := Final(start, steps);
            var t := Do(s, TryLoad);
            if s.step in s.disk.steps then
              t.memory.finishedStep && t.memory.dict == s.disk.steps[s.step] &&
              (s.step in s.trained ==> t.memory.dict == s.trained[s.step])
            else
              !t.memory.finishedStep &&
              t.memory.dict == if s.step in s.snapshots then s.snapshots[s.step] else map[]
  {
    RunKeepsInv(start, steps);
  }

  /** A process that dies loses no completed step: from the checkpoint up to the step it was in, every
   *  step has its file, so the restart at checkpoint + 1 replays all of them and then resumes. */
  lemma RestartReplaysCompletedSteps(start: State, steps: seq<Step>, i: nat)
    requires Initial(start) && Executes(start, steps) && RenamesInTime(start, steps)
    requires var s := Final(start, steps);
             s.checkpoint < i < s.step && (s.phase == Entering ==> i < s.step - 1)
    ensures var s := Final(start, steps);
            var t := Do(s, Crash);
            t.step == s.checkpoint + 1 <= i && i in t.disk.steps &&
            (i in s.trained ==> t.disk.steps[i] == s.trained[i])
  {
    RunKeepsInv(start, steps);
  }

  /** While finished steps are replayed the saving thread writes nothing, so the snapshot of the
   *  interrupted step is still on disk when the replay reaches it. */
  lemma ReplayKeepsTheSnapshot(start: State, steps: seq<Step>, i: nat)
    requires Initial(start) && Executes(start, steps) && RenamesInTime(start, steps)
    requires var s := Final(start, steps);
             s.saving && s.memory.iteration < i && i in s.snapshots && i > s.checkpoint && i !in s.disk.steps
    ensures var s := Final(start, steps);
            s.disk.auto == Saved(i, s.snapshots[i]) && !Enabled(s, Write) && s.round == Idle
  {
    RunKeepsInv(start, steps);
  }

  // ----- a tag that changes between the count and the copy -----

  /** Every file holds what the step it is named after produced. */
  ghost predicate FilesMatchNames(s: State) {
    forall i :: i in s.disk.steps ==>
      i in s.origins.files && s.origins.files[i].Keys == s.disk.steps[i].Keys &&
      forall gid :: gid in s.disk.steps[i] ==> s.origins.files[i][gid] == {i}
  }

  lemma CountedIsFromTheStep(s: State, gid: Gid)
    requires Inv(s) && Sourced(s) && s.round == Counted && s.phase == Cleared && gid in s.batch
    ensures s.disk.auto.Saved? && gid in s.disk.auto.tokens && gid in s.origins.auto && s.origins.auto[gid] == {s.step - 1}
  {
  }

  lemma CopyOfAnotherStep(s: State, step: nat, gid: Gid)
    requires s.disk.auto.Saved? && gid in s.disk.auto.tokens && gid in s.origins.auto && s.origins.auto[gid] == {step}
    requires s.memory.iteration != step
    ensures !FilesMatchNames(Copied(s))
  {
    var t := Copied(s);
    assert t.disk.steps[s.memory.iteration] == s.disk.auto.tokens && t.origins.files[s.memory.iteration] == s.origins.auto;
    assert step in t.origins.files[s.memory.iteration][gid];
  }

  lemma SomeId(s: State) returns (gid: Gid)
    requires Inv(s)
    ensures gid in s.batch
  {
    gid :| gid in s.batch;
  }

  lemma LateCopyIsWrong(s: State)
    requires Inv(s) && Sourced(s) && s.round == Counted && Enabled(s, UpdateIter)
    ensures !FilesMatchNames(Copied(Do(s, UpdateIter)))
  {
    var gid := SomeId(s);
    CountedIsFromTheStep(s, gid);
    RenamedKeepsFiles(s);
    CopyOfAnotherStep(Do(s, UpdateIter), s.step - 1, gid);
  }

  lemma RenamedKeepsFiles(s: State)
    requires Inv(s) && Enabled(s, UpdateIter)
    ensures var t := Do(s, UpdateIter);
            t.disk == s.disk && t.origins == s.origins && t.memory.iteration == s.step && s.step > 0
  {
  }

  /** `update_iter` takes no lock, so it may come between the count and the copy of a round: the copy is right exactly
   *  when it does not. */
  lemma LateCopyIff(start: State, steps: seq<Step>, late: bool)
    requires Initial(start) && Executes(start, steps) && RenamesInTime(start, steps) && Final(start, steps).round == Counted
    requires late ==> Enabled(Final(start, steps), UpdateIter)
    ensures var s := Final(start, steps);
            FilesMatchNames(Copied(if late then Do(s, UpdateIter) else s)) <==> !late
  {
    RunKeepsInv(start, steps);
    RunKeepsHistory(start, steps);
    var s := Final(start, steps);
    if late {
      LateCopyIsWrong(s);
    } else {
      CopyKeepsSourced(s);
    }
  }

  lemma {:induction false} RunAppends(s: State, first: seq<Step>, second: seq<Step>)
    requires Executes(s, first) && Executes(Final(s, first), second)
    ensures Executes(s, first + second) && Final(s, first + second) == Final(Final(s, first), second)
    decreases |first|
  {
    if first == [] {
      assert first + second == second;
    } else {
      assert (first + second)[1..] == first[1..] + second;
      RunAppends(Do(s, first[0]), first[1..], second);
    }
  }

  lemma RunExtends(s: State, steps: seq<Step>, step: Step)
    requires Executes(s, steps) && Enabled(Final(s, steps), step)
    ensures Executes(s, steps + [step]) && Final(s, steps + [step]) == Do(Final(s, steps), step)
  {
    assert [step][1..] == [];
    assert Executes(Do(Final(s, steps), step), []);
    RunAppends(s, steps, [step]);
  }

  /** The only entry of a batch of one. */
  function OneToken(): Dict {
    map[0 := Entry([1], true)]
  }

  lemma OneTokenIsFull(s: State)
    requires s.batch == {0} && s.memory.dict == OneToken()
    ensures Full(s, OneToken()) && CompletesStep(s)
  {
    assert (set gid | gid in OneToken() && OneToken()[gid].finished) == {0};
  }

  lemma FirstStepRolls() returns (start: State, steps: seq<Step>)
    ensures Initial(start) && Executes(start, steps)
    ensures Final(start, steps) ==
            State({0}, Disk(NoFile, map[]), 0, Memory(1, map[], {}, false), true, Idle, Rolling, 1, map[], map[], map[],
                  Origins(map[], map[], map[]), 0, map[])
  {
    start := State({0}, Disk(NoFile, map[]), 0, Memory(0, map[], {}, false), false, Idle, Entering, 1, map[], map[], map[],
                   Origins(map[], map[], map[]), 0, map[]);
    RunExtends(start, [], PassClear);
    steps := [] + [PassClear];
    RunExtends(start, steps, Empty);
    steps := steps + [Empty];
    RunExtends(start, steps, UpdateIter);
    steps := steps + [UpdateIter];
    RunExtends(start, steps, TryLoad);
    steps := steps + [TryLoad];
    var s := Final(start, steps);
    assert s.trained == map[] && s.memory.savedSteps == {} && s.disk.steps == map[];
  }

  lemma FirstStepReturns() returns (start: State, steps: seq<Step>)
    ensures Initial(start) && Executes(start, steps)
    ensures Final(start, steps) ==
            State({0}, Disk(NoFile, map[]), 0, Memory(1, OneToken(), {}, false), true, Idle, Trained, 1, OneToken(),
                  map[1 := OneToken()], map[], Origins(map[0 := {1}], map[], map[]), 0, map[])
  {
    start, steps := FirstStepRolls();
    RunExtends(start, steps, Progress(OneToken()));
    steps := steps + [Progress(OneToken())];
    OneTokenIsFull(Final(start, steps));
    assert Final(start, steps).origins.memory == map[0 := {1}];
    RunExtends(start, steps, RolloutReturns(OneToken()));
    steps := steps + [RolloutReturns(OneToken())];
  }

  lemma FirstStepIsFiled() returns (start: State, steps: seq<Step>)
    ensures Initial(start) && Executes(start, steps)
    ensures var s := Final(start, steps);
            s.batch == {0} && s.disk == Disk(Saved(1, OneToken()), map[1 := OneToken()]) && s.checkpoint == 0 &&
            s.memory == Memory(1, OneToken(), {1}, false) && s.saving && s.round == Idle && s.phase == Trained && s.step == 1 &&
            s.origins.memory == map[0 := {1}]
  {
    start, steps := FirstStepReturns();
    RunExtends(start, steps, Write);
    steps := steps + [Write];
    OneTokenIsFull(Final(start, steps));
    RunExtends(start, steps, Count);
    steps := steps + [Count];
    RunExtends(start, steps, Copy);
    steps := steps + [Copy];
  }

  /** The wait in `clear` is over, and another round has counted. */
  lemma CountedAfterTheWait() returns (start: State, steps: seq<Step>)
    ensures Initial(start) && Executes(start, steps)
    ensures var s := Final(start, steps);
            s.batch == {0} && s.disk == Disk(Saved(1, OneToken()), map[1 := OneToken()]) && s.checkpoint == 0 &&
            s.memory == Memory(1, OneToken(), {1}, false) && s.round == Counted && s.phase == Passed && s.step == 2 &&
            s.origins.auto == map[0 := {1}]
  {
    start, steps := FirstStepIsFiled();
    RunExtends(start, steps, NextStep);
    steps := steps + [NextStep];
    assert 0 in OneToken();
    RunExtends(start, steps, PassClear);
    steps := steps + [PassClear];
    RunExtends(start, steps, Write);
    steps := steps + [Write];
    OneTokenIsFull(Final(start, steps));
    RunExtends(start, steps, Count);
    steps := steps + [Count];
  }

  /** A copy after the renaming puts the old step's tokens into the new step's file, and that is then loaded as the
   *  finished rollout of the new step. */
  lemma LateCopyIsReachable() returns (start: State, steps: seq<Step>)
    ensures Initial(start) && Executes(start, steps)
    ensures var s := Final(start, steps);
            s.phase == Rolling && s.step == 2 && s.memory.finishedStep && s.memory.dict == OneToken() &&
            s.origins.memory == map[0 := {1}]
  {
    start, steps := CountedAfterTheWait();
    RunExtends(start, steps, Empty);
    steps := steps + [Empty];
    RunExtends(start, steps, UpdateIter);
    steps := steps + [UpdateIter];
    RunExtends(start, steps, Copy);
    steps := steps + [Copy];
    RunExtends(start, steps, TryLoad);
    steps := steps + [TryLoad];
  }
}

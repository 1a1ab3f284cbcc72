/** The dynamic sampling loop: generate, keep the informative groups, train as soon as there are enough. */
module DynamicSampling {
  import opened Groups
  import opened Sequences
  import opened Wrappers

  datatype Config = Config(filter: bool, trainBatchSize: nat, n: nat, maxGenBatches: int, totalSteps: int) {
    function Rows(): nat {
      trainBatchSize * n
    }

    ghost predicate Valid() {
      trainBatchSize > 0 && n > 0
    }
  }

  datatype Status = Running | Finished | Failed

  /** A training step: its number, the generation counter, the generations it took and the rows it used. */
  datatype Step = Step(globalStep: nat, genStep: nat, numGens: nat, rows: seq<Row>)

  datatype State = State(batch: seq<Row>, numPrompts: nat, numGens: nat, globalSteps: nat, genSteps: nat,
                         trained: seq<Step>, status: Status)

  function Start(globalSteps: nat): State {
    State([], 0, 0, globalSteps, 1, [], Running)
  }

  function Take<T>(s: seq<T>, k: nat): seq<T> {
    if k <= |s| then s[..k] else s
  }

  // ----- one generation -----

  function Accumulated(s: State, rows: seq<Row>): State {
    s.(batch := s.batch + KeepRows(rows, rows), numPrompts := s.numPrompts + |KeepUids(Uids(rows), rows)|,
       numGens := s.numGens + 1)
  }

  function Trained(cfg: Config, s: State, rows: seq<Row>): State {
    var done := s.(batch := [], numPrompts := 0, numGens := 0,
                   trained := s.trained + [Step(s.globalSteps, s.genSteps, s.numGens, rows)]);
    if s.globalSteps >= cfg.totalSteps then done.(status := Finished)
    else done.(globalSteps := s.globalSteps + 1, genSteps := s.genSteps + 1)
  }

  /** What becomes of a generation that leaves too few prompts. */
  function TooFew(cfg: Config, s: State): State {
    if cfg.maxGenBatches <= 0 || s.numGens < cfg.maxGenBatches then s.(genSteps := s.genSteps + 1)
    else s.(status := Failed)
  }

  function Settled(cfg: Config, s: State): State {
    if s.numPrompts < cfg.trainBatchSize then TooFew(cfg, s)
    else Trained(cfg, s, Take(s.batch, cfg.Rows()))
  }

  function Next(cfg: Config, s: State, rows: seq<Row>): State {
    if s.status != Running then s
    else if !cfg.filter then Trained(cfg, s.(numGens := s.numGens + 1), rows)
    else Settled(cfg, Accumulated(s, rows))
  }

  function Run(cfg: Config, start: State, generations: seq<seq<Row>>): State {
    if generations == [] then start
    else Next(cfg, Run(cfg, start, generations[..|generations| - 1]), generations[|generations| - 1])
  }

  lemma {:induction false} StoppedStays(cfg: Config, start: State, generations: seq<seq<Row>>, i: nat)
    requires i <= |generations| && Run(cfg, start, generations[..i]).status != Running
    ensures Run(cfg, start, generations) == Run(cfg, start, generations[..i])
    decreases |generations|
  {
    if i == |generations| {
      assert generations[..i] == generations;
    } else {
      assert generations[..|generations| - 1][..i] == generations[..i];
      StoppedStays(cfg, start, generations[..|generations| - 1], i);
    }
  }

  lemma {:induction false} RunConcat(cfg: Config, start: State, a: seq<seq<Row>>, b: seq<seq<Row>>)
    ensures Run(cfg, start, a + b) == Run(cfg, Run(cfg, start, a), b)
    decreases |b|
  {
    if b == [] {
      assert a + b == a;
    } else {
      assert (a + b)[..|a| + |b| - 1] == a + b[..|b| - 1];
      RunConcat(cfg, start, a, b[..|b| - 1]);
    }
  }

  // ----- the epochs -----

  /** What is generated from batch `i` of epoch `e`. */
  type Data = (nat, nat) -> seq<Row>

  function EpochOf(data: Data, epoch: nat, count: nat): (r: seq<seq<Row>>)
    ensures |r| == count
  {
    seq(count, i requires 0 <= i => data(epoch, i))
  }

  /** The generations of the epochs from `first` on, `count` batches each. */
  function Fed(data: Data, first: nat, epochs: nat, count: nat): seq<seq<Row>> {
    if epochs <= first then [] else Fed(data, first, epochs - 1, count) + EpochOf(data, epochs - 1, count)
  }

  /** The epoch at which the loop takes up: computed from the step to come, not from the last one done. */
  function CurrentEpoch(globalSteps: nat, count: nat): nat
    requires count > 0
  {
    globalSteps / count
  }

  lemma {:induction false} FedStartsWith(data: Data, first: nat, epoch: nat, epochs: nat, count: nat)
    requires epoch <= epochs
    ensures Fed(data, first, epoch, count) <= Fed(data, first, epochs, count)
    decreases epochs
  {
    if epoch < epochs {
      FedStartsWith(data, first, epoch, epochs - 1, count);
    }
  }

  lemma {:induction false} FedSize(data: Data, first: nat, epochs: nat, count: nat)
    ensures |Fed(data, first, epochs, count)| == (if epochs <= first then 0 else epochs - first) * count
  {
    if epochs > first {
      FedSize(data, first, epochs - 1, count);
      assert (epochs - first) * count == (epochs - 1 - first) * count + count;
    }
  }

  /** Once the loop has stopped, the epochs that were left make no difference. */
  lemma StoppedEpochs(cfg: Config, start: State, data: Data, first: nat, epoch: nat, epochs: nat, count: nat)
    requires epoch <= epochs && Run(cfg, start, Fed(data, first, epoch, count)).status != Running
    ensures Run(cfg, start, Fed(data, first, epochs, count)) == Run(cfg, start, Fed(data, first, epoch, count))
  {
    var all, seen := Fed(data, first, epochs, count), Fed(data, first, epoch, count);
    FedStartsWith(data, first, epoch, epochs, count);
    assert all[..|seen|] == seen;
    StoppedStays(cfg, start, all, |seen|);
  }

  // ----- when a run stops -----

  /** No step but the last has reached the last step number, and the run is finished as soon as one has. */
  ghost predicate StopsInTime(cfg: Config, trained: seq<Step>, status: Status) {
    (forall i :: 0 <= i < |trained| - 1 ==> trained[i].globalStep < cfg.totalSteps) &&
    (status == Finished <==> trained != [] && trained[|trained| - 1].globalStep >= cfg.totalSteps)
  }

  lemma OneMoreInTime(cfg: Config, before: seq<Step>, t: Step, status: Status)
    requires StopsInTime(cfg, before, Running)
    requires status == if t.globalStep >= cfg.totalSteps then Finished else Running
    ensures StopsInTime(cfg, before + [t], status)
  {
  }

  lemma NextStopsInTime(cfg: Config, s: State, rows: seq<Row>)
    requires StopsInTime(cfg, s.trained, s.status)
    ensures StopsInTime(cfg, Next(cfg, s, rows).trained, Next(cfg, s, rows).status)
  {
    var t := Next(cfg, s, rows);
    if s.status == Running && t.trained != s.trained {
      OneMoreInTime(cfg, s.trained, t.trained[|s.trained|], t.status);
    }
  }

  lemma {:induction false} RunStopsInTime(cfg: Config, start: State, generations: seq<seq<Row>>)
    requires StopsInTime(cfg, start.trained, start.status)
    ensures StopsInTime(cfg, Run(cfg, start, generations).trained, Run(cfg, start, generations).status)
  {
    if generations != [] {
      RunStopsInTime(cfg, start, generations[..|generations| - 1]);
      NextStopsInTime(cfg, Run(cfg, start, generations[..|generations| - 1]), generations[|generations| - 1]);
    }
  }

  class Trainer {
    const cfg: Config
    var batch: Option<seq<Row>>
    var numPromptInBatch: nat
    var numGenBatches: nat
    var globalSteps: nat
    var genSteps: nat
    var trained: seq<Step>
    var status: Status

    constructor (cfg: Config, loadedSteps: nat)
      ensures this.cfg == cfg && View() == Start(loadedSteps + 1)
    {
      this.cfg := cfg;
      batch, numPromptInBatch, numGenBatches := None, 0, 0;
      globalSteps, genSteps := loadedSteps + 1, 1;
      trained, status := [], Running;
    }

    function View(): State
      reads this
    {
      State(if batch.Some? then batch.value else [], numPromptInBatch, numGenBatches, globalSteps, genSteps, trained, status)
    }

    method Accumulate(newBatch: seq<Row>)
      modifies this`batch, this`numPromptInBatch, this`numGenBatches
      ensures batch.Some? && View() == Accumulated(old(View()), newBatch)
    {
      numGenBatches := numGenBatches + 1;
      var kept, keptPrompts := FilterGroups(newBatch);
      numPromptInBatch := numPromptInBatch + keptPrompts;
      batch := if batch.None? then Some(kept) else Some(batch.value + kept);
      assert [] + kept == kept;
    }

    method Train(isLastStep: bool)
      requires batch.Some? && status == Running && isLastStep == (globalSteps >= cfg.totalSteps)
      modifies this
      ensures View() == Trained(cfg, old(View()), old(batch).value)
    {
      trained := trained + [Step(globalSteps, genSteps, numGenBatches, batch.value)];
      batch, numPromptInBatch, numGenBatches := None, 0, 0;
      if isLastStep {
        status := Finished;
      } else {
        globalSteps, genSteps := globalSteps + 1, genSteps + 1;
      }
    }

    /** Train on what is there, ask for another generation, or give up. */
    method Settle(isLastStep: bool)
      requires batch.Some? && status == Running && isLastStep == (globalSteps >= cfg.totalSteps)
      modifies this
      ensures View() == Settled(cfg, old(View()))
    {
      if numPromptInBatch < cfg.trainBatchSize {
        if cfg.maxGenBatches <= 0 || numGenBatches < cfg.maxGenBatches {
          genSteps := genSteps + 1;
        } else {
          status := Failed;
        }
        return;
      }
      batch := Some(Take(batch.value, cfg.trainBatchSize * cfg.n));
      Train(isLastStep);
    }

    /** One pass of the loop body over a generated and rewarded batch. */
    method Generation(newBatch: seq<Row>)
      requires status == Running
      modifies this
      ensures View() == Next(cfg, old(View()), newBatch)
    {
      var isLastStep := globalSteps >= cfg.totalSteps;
      if cfg.filter {
        Accumulate(newBatch);
        Settle(isLastStep);
      } else {
        numGenBatches := numGenBatches + 1;
        batch := Some(newBatch);
        Train(isLastStep);
      }
    }

    /** The batches of one epoch; the last step or the error leaves the loop. */
    method FitEpoch(generations: seq<seq<Row>>)
      requires status == Running
      modifies this
      ensures View() == Run(cfg, old(View()), generations)
    {
      ghost var start := View();
      var i := 0;
      while i < |generations| && status == Running
        invariant i <= |generations|
        invariant View() == Run(cfg, start, generations[..i])
      {
        assert generations[..i + 1][..i] == generations[..i];
        Generation(generations[i]);
        i := i + 1;
      }
      if i < |generations| {
        StoppedStays(cfg, start, generations, i);
      } else {
        assert generations[..i] == generations;
      }
    }

    /** One epoch more, after the generations `fed`. */
    method FitNext(ghost start: State, ghost fed: seq<seq<Row>>, generations: seq<seq<Row>>)
      requires status == Running && View() == Run(cfg, start, fed)
      modifies this
      ensures View() == Run(cfg, start, fed + generations)
    {
      FitEpoch(generations);
      RunConcat(cfg, start, fed, generations);
    }

    /** The epochs from `first` on. */
    method FitFrom(data: Data, first: nat, batchesPerEpoch: nat, totalEpochs: nat)
      requires status == Running
      modifies this
      ensures View() == Run(cfg, old(View()), Fed(data, first, totalEpochs, batchesPerEpoch))
    {
      ghost var start, fed := View(), [];
      var epoch := first;
      while epoch < totalEpochs && status == Running
        invariant first <= epoch && (epoch <= totalEpochs || epoch == first)
        invariant fed == Fed(data, first, epoch, batchesPerEpoch) && View() == Run(cfg, start, fed)
      {
        FitNext(start, fed, EpochOf(data, epoch, batchesPerEpoch));
        fed := fed + EpochOf(data, epoch, batchesPerEpoch);
        epoch := epoch + 1;
      }
      if epoch < totalEpochs {
        StoppedEpochs(cfg, start, data, first, epoch, totalEpochs, batchesPerEpoch);
      }
    }

    /** The loop over the epochs that are left; the step that reaches the last number is the last. */
    method Fit(data: Data, batchesPerEpoch: nat, totalEpochs: nat)
      requires status == Running && batchesPerEpoch > 0
      modifies this
      ensures View() == Run(cfg, old(View()), Fed(data, CurrentEpoch(old(globalSteps), batchesPerEpoch), totalEpochs, batchesPerEpoch))
      ensures old(StopsInTime(cfg, trained, status)) ==> StopsInTime(cfg, trained, status)
    {
      ghost var start := View();
      FitFrom(data, globalSteps / batchesPerEpoch, batchesPerEpoch, totalEpochs);
      if StopsInTime(cfg, start.trained, start.status) {
        RunStopsInTime(cfg, start, Fed(data, start.globalSteps / batchesPerEpoch, totalEpochs, batchesPerEpoch));
      }
    }
  }

  // ----- what the generations consist of -----

  /** The rows the loop sees: every generation is a list of groups. */
  function Generated(gens: seq<seq<seq<Row>>>): seq<seq<Row>> {
    seq(|gens|, i requires 0 <= i < |gens| => Flatten(gens[i]))
  }

  /** The groups a run of generations leaves after the filter. */
  function Kept(gens: seq<seq<seq<Row>>>): seq<seq<Row>> {
    KeepGroups(Flatten(gens))
  }

  lemma {:induction false} KeepGroupsConcat(a: seq<seq<Row>>, b: seq<seq<Row>>)
    ensures KeepGroups(a + b) == KeepGroups(a) + KeepGroups(b)
    decreases |b|
  {
    if b == [] {
      assert a + b == a;
    } else {
      var last := |b| - 1;
      assert (a + b)[..|a| + last] == a + b[..last];
      KeepGroupsConcat(a, b[..last]);
    }
  }

  lemma KeptAppend(gens: seq<seq<seq<Row>>>, groups: seq<seq<Row>>)
    ensures Flatten(gens + [groups]) == Flatten(gens) + groups
    ensures Kept(gens + [groups]) == Kept(gens) + KeepGroups(groups)
  {
    assert (gens + [groups])[..|gens|] == gens;
    KeepGroupsConcat(Flatten(gens), groups);
  }

  lemma PartsAreGroups(a: seq<seq<Row>>, b: seq<seq<Row>>, c: seq<seq<Row>>, n: nat)
    requires AreGroups(a + (b + c), n)
    ensures AreGroups(b, n)
  {
    var all := a + (b + c);
    forall k | 0 <= k < |b| ensures b[k] == all[|a| + k] && IsGroup(b[k], n) {}
    forall k, l | 0 <= k < l < |b| ensures b[k][0].uid != b[l][0].uid {
      assert b[k] == all[|a| + k] && b[l] == all[|a| + l];
    }
  }

  lemma SplitInThree<T>(s: seq<T>, i: nat, j: nat)
    requires i <= j <= |s|
    ensures s == s[..i] + (s[i..j] + s[j..])
  {
  }

  lemma PromptsAround(gens: seq<seq<seq<Row>>>, i: nat, j: nat)
    requires i <= j <= |gens|
    ensures Flatten(gens) == Flatten(gens[..i]) + (Flatten(gens[i..j]) + Flatten(gens[j..]))
  {
    SplitInThree(gens, i, j);
    FlattenConcat(gens[..i], gens[i..j] + gens[j..]);
    FlattenConcat(gens[i..j], gens[j..]);
  }

  /** Any stretch of the generations consists of groups of different prompts too. */
  lemma StretchIsGroups(gens: seq<seq<seq<Row>>>, n: nat, i: nat, j: nat)
    requires i <= j <= |gens| && AreGroups(Flatten(gens), n)
    ensures AreGroups(Flatten(gens[i..j]), n)
  {
    PromptsAround(gens, i, j);
    PartsAreGroups(Flatten(gens[..i]), Flatten(gens[i..j]), Flatten(gens[j..]), n);
  }

  // ----- what a run means -----

  /** Step `t` trained on the first `trainBatchSize` informative groups of its own generations, and its last
   *  generation was the first to bring enough of them. */
  ghost predicate StepMeans(cfg: Config, gens: seq<seq<seq<Row>>>, t: Step) {
    1 <= t.numGens <= t.genStep <= |gens| &&
    StepUses(cfg, gens[t.genStep - t.numGens..t.genStep], t.rows) &&
    |Kept(gens[t.genStep - t.numGens..t.genStep - 1])| < cfg.trainBatchSize &&
    (cfg.maxGenBatches > 0 ==> t.numGens <= cfg.maxGenBatches)
  }

  ghost predicate StepUses(cfg: Config, window: seq<seq<seq<Row>>>, rows: seq<Row>) {
    var kept := Kept(window);
    cfg.trainBatchSize <= |kept| && rows == Flatten(kept[..cfg.trainBatchSize]) && |rows| == cfg.Rows()
  }

  /** Generation from which step `i` takes its rows: the one after the previous step's. */
  function FirstGen(trained: seq<Step>, i: nat): nat
    requires i <= |trained|
  {
    if i == 0 then 0 else trained[i - 1].genStep
  }

  ghost predicate StepsMean(cfg: Config, start: nat, gens: seq<seq<seq<Row>>>, trained: seq<Step>) {
    trained == [] ||
    (var last := |trained| - 1;
     StepsMean(cfg, start, gens, trained[..last]) && StepMeans(cfg, gens, trained[last]) &&
     trained[last].globalStep == start + last && trained[last].genStep - trained[last].numGens == FirstGen(trained, last))
  }

  /** Every step of a run has its meaning, its number, and takes up the generations where the last one stopped. */
  lemma {:induction false} StepMeansAt(cfg: Config, start: nat, gens: seq<seq<seq<Row>>>, trained: seq<Step>, i: nat)
    requires StepsMean(cfg, start, gens, trained) && i < |trained|
    ensures StepMeans(cfg, gens, trained[i]) && trained[i].globalStep == start + i
    ensures trained[i].genStep - trained[i].numGens == FirstGen(trained, i)
    decreases |trained|
  {
    var last := |trained| - 1;
    if i < last {
      StepMeansAt(cfg, start, gens, trained[..last], i);
      assert FirstGen(trained[..last], i) == FirstGen(trained, i);
    }
  }

  /** What is accumulated but not yet used. */
  ghost predicate WindowMeans(cfg: Config, window: seq<seq<seq<Row>>>, s: State) {
    s.numGens == |window| && s.batch == Flatten(Kept(window)) && s.numPrompts == |Kept(window)| < cfg.trainBatchSize &&
    |s.batch| == s.numPrompts * cfg.n
  }

  ghost predicate RunMeans(cfg: Config, start: nat, gens: seq<seq<seq<Row>>>, s: State) {
    StepsMean(cfg, start, gens, s.trained) &&
    match s.status
    case Running =>
      s.genSteps == |gens| + 1 && s.globalSteps == start + |s.trained| &&
      FirstGen(s.trained, |s.trained|) + s.numGens == |gens| &&
      WindowMeans(cfg, gens[|gens| - s.numGens..], s) && (cfg.maxGenBatches > 0 ==> s.numGens < cfg.maxGenBatches)
    case Failed =>
      s.numGens == cfg.maxGenBatches > 0 && s.numGens <= s.genSteps <= |gens| &&
      FirstGen(s.trained, |s.trained|) + s.numGens == s.genSteps &&
      WindowMeans(cfg, gens[s.genSteps - s.numGens..s.genSteps], s)
    case Finished =>
      s.trained != [] && s.genSteps == s.trained[|s.trained| - 1].genStep &&
      s.globalSteps == s.trained[|s.trained| - 1].globalStep >= cfg.totalSteps
  }

  lemma StepMeansLonger(cfg: Config, gens: seq<seq<seq<Row>>>, groups: seq<seq<Row>>, t: Step)
    requires StepMeans(cfg, gens, t)
    ensures StepMeans(cfg, gens + [groups], t)
  {
    var more := gens + [groups];
    assert more[t.genStep - t.numGens..t.genStep] == gens[t.genStep - t.numGens..t.genStep];
    assert more[t.genStep - t.numGens..t.genStep - 1] == gens[t.genStep - t.numGens..t.genStep - 1];
  }

  lemma {:induction false} StepsMeanLonger(cfg: Config, start: nat, gens: seq<seq<seq<Row>>>, groups: seq<seq<Row>>,
                                           trained: seq<Step>)
    requires StepsMean(cfg, start, gens, trained)
    ensures StepsMean(cfg, start, gens + [groups], trained)
    decreases |trained|
  {
    if trained != [] {
      var last := |trained| - 1;
      StepsMeanLonger(cfg, start, gens, groups, trained[..last]);
      StepMeansLonger(cfg, gens, groups, trained[last]);
    }
  }

  lemma KeptLength(groups: seq<seq<Row>>, n: nat)
    requires AreGroups(groups, n)
    ensures |Flatten(KeepGroups(groups))| == |KeepGroups(groups)| * n
  {
    KeepGroupsAre(groups, n);
    var kept := KeepGroups(groups);
    forall k | 0 <= k < |kept| ensures IsGroup(kept[k], n) {}
    FlatLength(kept, n);
  }

  /** The filter turns a generation into its informative groups. */
  lemma AccumulatedIs(s: State, groups: seq<seq<Row>>, n: nat)
    requires AreGroups(groups, n)
    ensures Accumulated(s, Flatten(groups)).batch == s.batch + Flatten(KeepGroups(groups))
    ensures Accumulated(s, Flatten(groups)).numPrompts == s.numPrompts + |KeepGroups(groups)|
  {
    FilterOnGroups(groups, n);
  }

  lemma FlatOfKept(window: seq<seq<seq<Row>>>, groups: seq<seq<Row>>)
    ensures Flatten(Kept(window + [groups])) == Flatten(Kept(window)) + Flatten(KeepGroups(groups))
    ensures |Kept(window + [groups])| == |Kept(window)| + |KeepGroups(groups)|
  {
    KeptAppend(window, groups);
    FlattenConcat(Kept(window), KeepGroups(groups));
  }

  lemma AccumulatedMeans(cfg: Config, window: seq<seq<seq<Row>>>, groups: seq<seq<Row>>, s: State, a: State)
    requires WindowMeans(cfg, window, s) && AreGroups(groups, cfg.n) && a == Accumulated(s, Flatten(groups))
    ensures a.batch == Flatten(Kept(window + [groups])) && a.numPrompts == |Kept(window + [groups])|
    ensures |a.batch| == a.numPrompts * cfg.n
  {
    AccumulatedIs(s, groups, cfg.n);
    FlatOfKept(window, groups);
    KeptLength(groups, cfg.n);
    JoinedLength(s.batch, Flatten(KeepGroups(groups)), s.numPrompts, |KeepGroups(groups)|, a.numPrompts, cfg.n);
  }

  lemma JoinedLength(a: seq<Row>, b: seq<Row>, p: nat, q: nat, sum: nat, n: nat)
    requires |a| == p * n && |b| == q * n && sum == p + q
    ensures |a + b| == sum * n
  {
    assert sum * n == p * n + q * n;
  }

  lemma UsesFirstGroups(cfg: Config, window: seq<seq<seq<Row>>>, batch: seq<Row>)
    requires AreGroups(Flatten(window), cfg.n) && batch == Flatten(Kept(window)) && cfg.trainBatchSize <= |Kept(window)|
    ensures StepUses(cfg, window, Take(batch, cfg.Rows()))
  {
    KeepGroupsAre(Flatten(window), cfg.n);
    var kept := Kept(window);
    forall k | 0 <= k < |kept| ensures IsGroup(kept[k], cfg.n) {}
    CutAtGroups(kept, cfg.n, cfg.trainBatchSize);
  }

  lemma LastIsGroups(gens: seq<seq<seq<Row>>>, groups: seq<seq<Row>>, n: nat)
    requires AreGroups(Flatten(gens + [groups]), n)
    ensures AreGroups(groups, n)
  {
    StretchIsGroups(gens + [groups], n, |gens|, |gens| + 1);
    assert (gens + [groups])[|gens|..|gens| + 1] == [groups];
    assert Flatten([groups]) == groups by { assert [groups][..0] == []; }
  }

  /** The state after the filter: the last generation of the window has just been added. */
  ghost predicate Unsettled(cfg: Config, start: nat, gens: seq<seq<seq<Row>>>, a: State, first: nat) {
    a.status == Running && StepsMean(cfg, start, gens, a.trained) &&
    a.genSteps == |gens| > first && a.globalSteps == start + |a.trained| &&
    first == FirstGen(a.trained, |a.trained|) && first + a.numGens == |gens| &&
    a.batch == Flatten(Kept(gens[first..])) && a.numPrompts == |Kept(gens[first..])| &&
    |a.batch| == a.numPrompts * cfg.n &&
    |Kept(gens[first..|gens| - 1])| < cfg.trainBatchSize &&
    (cfg.maxGenBatches > 0 ==> a.numGens <= cfg.maxGenBatches)
  }

  lemma TooFewMeans(cfg: Config, start: nat, gens: seq<seq<seq<Row>>>, a: State, first: nat)
    requires Unsettled(cfg, start, gens, a, first) && a.numPrompts < cfg.trainBatchSize
    ensures RunMeans(cfg, start, gens, TooFew(cfg, a))
  {
    assert gens[first..|gens|] == gens[first..];
  }

  lemma TrainedMeans(cfg: Config, start: nat, gens: seq<seq<seq<Row>>>, a: State, first: nat)
    requires cfg.Valid() && Unsettled(cfg, start, gens, a, first)
    requires StepUses(cfg, gens[first..], Take(a.batch, cfg.Rows()))
    ensures RunMeans(cfg, start, gens, Trained(cfg, a, Take(a.batch, cfg.Rows())))
  {
    var t := Step(a.globalSteps, a.genSteps, a.numGens, Take(a.batch, cfg.Rows()));
    assert gens[first..|gens|] == gens[first..];
    OneMoreStep(cfg, start, gens, a.trained, t);
    AfterStep(cfg, start, gens, a, t);
  }

  /** Once the step is recorded, the next window starts empty. */
  lemma AfterStep(cfg: Config, start: nat, gens: seq<seq<seq<Row>>>, a: State, t: Step)
    requires cfg.Valid() && a.status == Running && StepsMean(cfg, start, gens, a.trained + [t])
    requires a.genSteps == |gens| == t.genStep && a.globalSteps == t.globalStep == start + |a.trained|
    requires t == Step(a.globalSteps, a.genSteps, a.numGens, t.rows)
    ensures RunMeans(cfg, start, gens, Trained(cfg, a, t.rows))
  {
    var s := Trained(cfg, a, t.rows);
    assert s.trained == a.trained + [t] && s.trained[|s.trained| - 1] == t;
    assert FirstGen(s.trained, |s.trained|) == t.genStep;
    EmptyWindow(cfg, gens[|gens|..], s);
  }

  lemma OneMoreStep(cfg: Config, start: nat, gens: seq<seq<seq<Row>>>, trained: seq<Step>, t: Step)
    requires StepsMean(cfg, start, gens, trained) && StepMeans(cfg, gens, t)
    requires t.globalStep == start + |trained| && t.genStep - t.numGens == FirstGen(trained, |trained|)
    ensures StepsMean(cfg, start, gens, trained + [t])
  {
    assert (trained + [t])[..|trained|] == trained;
  }

  lemma EmptyWindow(cfg: Config, window: seq<seq<seq<Row>>>, s: State)
    requires cfg.Valid() && window == [] && s.batch == [] && s.numGens == s.numPrompts == 0
    ensures WindowMeans(cfg, window, s)
  {
    assert Flatten(window) == [];
    assert KeepGroups([]) == [];
  }

  /** The generations since the last step, once there is one more. */
  lemma WindowGrows(gens: seq<seq<seq<Row>>>, groups: seq<seq<Row>>, first: nat)
    requires first <= |gens|
    ensures (gens + [groups])[first..] == gens[first..] + [groups]
    ensures (gens + [groups])[first..|gens|] == gens[first..]
  {
  }

  lemma UnsettledFrom(cfg: Config, start: nat, more: seq<seq<seq<Row>>>, s: State, a: State, first: nat,
                      window: seq<seq<seq<Row>>>, longer: seq<seq<seq<Row>>>)
    requires |more| == first + s.numGens + 1 && first == FirstGen(s.trained, |s.trained|)
    requires more[first..] == longer && more[first..|more| - 1] == window
    requires s.status == Running && StepsMean(cfg, start, more, s.trained)
    requires s.genSteps == |more| && s.globalSteps == start + |s.trained|
    requires a == s.(batch := a.batch, numPrompts := a.numPrompts, numGens := s.numGens + 1)
    requires a.batch == Flatten(Kept(longer)) && a.numPrompts == |Kept(longer)| && |a.batch| == a.numPrompts * cfg.n
    requires |Kept(window)| < cfg.trainBatchSize && (cfg.maxGenBatches > 0 ==> s.numGens < cfg.maxGenBatches)
    ensures Unsettled(cfg, start, more, a, first)
  {
  }

  /** One generation keeps the meaning. */
  lemma NextMeans(cfg: Config, start: nat, gens: seq<seq<seq<Row>>>, groups: seq<seq<Row>>, s: State)
    requires cfg.Valid() && cfg.filter && AreGroups(Flatten(gens + [groups]), cfg.n)
    requires RunMeans(cfg, start, gens, s) && s.status == Running
    ensures RunMeans(cfg, start, gens + [groups], Next(cfg, s, Flatten(groups)))
  {
    var first := |gens| - s.numGens;
    var window, a := gens[first..], Accumulated(s, Flatten(groups));
    WindowGrows(gens, groups, first);
    LastIsGroups(gens, groups, cfg.n);
    StepsMeanLonger(cfg, start, gens, groups, s.trained);
    AccumulatedMeans(cfg, window, groups, s, a);
    UnsettledFrom(cfg, start, gens + [groups], s, a, first, window, window + [groups]);
    SettledMeans(cfg, start, gens + [groups], a, first);
  }

  lemma SettledMeans(cfg: Config, start: nat, gens: seq<seq<seq<Row>>>, a: State, first: nat)
    requires cfg.Valid() && AreGroups(Flatten(gens), cfg.n) && Unsettled(cfg, start, gens, a, first)
    ensures RunMeans(cfg, start, gens, Settled(cfg, a))
  {
    if a.numPrompts >= cfg.trainBatchSize {
      StretchIsGroups(gens, cfg.n, first, |gens|);
      assert gens[first..|gens|] == gens[first..];
      UsesFirstGroups(cfg, gens[first..], a.batch);
      TrainedMeans(cfg, start, gens, a, first);
    } else {
      TooFewMeans(cfg, start, gens, a, first);
    }
  }

  /** Main result: whatever was generated, every step of every run used exactly the first informative groups
   *  of its generations, the generation counter counts all of them, and the limit is respected. */
  lemma {:induction false} RunsMean(cfg: Config, start: nat, gens: seq<seq<seq<Row>>>)
    requires cfg.Valid() && cfg.filter && AreGroups(Flatten(gens), cfg.n)
    ensures RunMeans(cfg, start, gens, Run(cfg, Start(start), Generated(gens)))
  {
    if gens == [] {
      assert Kept([]) == [];
    } else {
      var last := |gens| - 1;
      assert gens == gens[..last] + [gens[last]];
      StretchIsGroups(gens, cfg.n, 0, last);
      RunsMean(cfg, start, gens[..last]);
      assert Generated(gens)[..last] == Generated(gens[..last]);
      var s := Run(cfg, Start(start), Generated(gens[..last]));
      if s.status == Running {
        NextMeans(cfg, start, gens[..last], gens[last], s);
      } else {
        StoppedMeans(cfg, start, gens[..last], gens[last], s);
      }
    }
  }

  lemma StoppedMeans(cfg: Config, start: nat, gens: seq<seq<seq<Row>>>, groups: seq<seq<Row>>, s: State)
    requires RunMeans(cfg, start, gens, s) && s.status != Running
    ensures RunMeans(cfg, start, gens + [groups], s)
  {
    StepsMeanLonger(cfg, start, gens, groups, s.trained);
    if s.status == Failed {
      assert (gens + [groups])[s.genSteps - s.numGens..s.genSteps] == gens[s.genSteps - s.numGens..s.genSteps];
    }
  }

  /** Over every run, with and without the filter. */
  lemma RunsStopInTime(cfg: Config, start: nat, generations: seq<seq<Row>>)
    ensures StopsInTime(cfg, Run(cfg, Start(start), generations).trained, Run(cfg, Start(start), generations).status)
  {
    RunStopsInTime(cfg, Start(start), generations);
  }

  /** Without the filter every generation is a step on all its rows, until the run is finished. */
  lemma {:induction false} UnfilteredRunsMean(cfg: Config, start: nat, generations: seq<seq<Row>>)
    requires !cfg.filter
    ensures var s := Run(cfg, Start(start), generations);
            |s.trained| <= |generations| && (s.status == Running ==> |s.trained| == |generations|) && s.status != Failed &&
            (forall i :: 0 <= i < |s.trained| ==> s.trained[i] == Step(start + i, i + 1, 1, generations[i])) &&
            (s.status == Running ==> s.globalSteps == start + |s.trained| && s.genSteps == |s.trained| + 1 && s.numGens == 0)
  {
    if generations != [] {
      UnfilteredRunsMean(cfg, start, generations[..|generations| - 1]);
    }
  }

  /** What a training step sees: whole groups of different prompts, each worth training on. */
  lemma StepsAreInformative(cfg: Config, gens: seq<seq<seq<Row>>>, t: Step)
    requires AreGroups(Flatten(gens), cfg.n) && StepMeans(cfg, gens, t)
    ensures exists groups: seq<seq<Row>> ::
              |groups| == cfg.trainBatchSize && t.rows == Flatten(groups) && AreGroups(groups, cfg.n) &&
              forall k :: 0 <= k < |groups| ==> Informative(Metrics(groups[k]))
  {
    var window := gens[t.genStep - t.numGens..t.genStep];
    StretchIsGroups(gens, cfg.n, t.genStep - t.numGens, t.genStep);
    KeepGroupsAre(Flatten(window), cfg.n);
    var groups := Kept(window)[..cfg.trainBatchSize];
    assert AreGroups(groups, cfg.n);
    assert t.rows == Flatten(groups);
  }
}

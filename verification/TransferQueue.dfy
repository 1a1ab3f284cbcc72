/** The dynamic sampling loop over a transfer queue: batches are listed and concatenated at the end, rows live
 *  in named partitions that are cleared after the step. */
module TransferQueue {
  import opened Blocks
  import opened DynamicSampling
  import opened Groups
  import opened RankBalance
  import opened Sequences

  /** The partitions a step fills: one per generation and one for the update. */
  datatype Partition = Gen(step: int, index: nat) | Update(step: int)

  datatype Queue = Queue(puts: seq<Partition>, cleared: seq<Partition>, toClear: seq<Partition>)

  datatype ListState = ListState(batches: seq<seq<Row>>, numPrompts: nat, numGens: nat, globalSteps: nat, genSteps: nat,
                                 trained: seq<Step>, status: Status, queue: Queue)

  function ListStart(globalSteps: nat): ListState {
    ListState([], 0, 0, globalSteps, 1, [], Running, Queue([], [], []))
  }

  // ----- one generation -----

  function Put(q: Queue, p: Partition): Queue {
    q.(puts := q.puts + [p], toClear := q.toClear + [p])
  }

  /** The partition that the balanced batch of the step goes into. */
  function PutUpdate(s: ListState): ListState {
    s.(queue := s.queue.(puts := s.queue.puts + [Update(s.globalSteps - 1)]))
  }

  /** After the step the generations' partitions are cleared in order, the update's last. */
  function Cleared(q: Queue, p: Partition): Queue {
    Queue(q.puts, q.cleared + q.toClear + [p], [])
  }

  function Listed(s: ListState, rows: seq<Row>): ListState {
    s.(batches := s.batches + [KeepRows(rows, rows)], numPrompts := s.numPrompts + |KeepUids(Uids(rows), rows)|)
  }

  /** The end of a step that trained on `rows`. */
  function Completed(cfg: Config, s: ListState, rows: seq<Row>): ListState {
    var done := s.(batches := [], numPrompts := 0, numGens := 0,
                   trained := s.trained + [Step(s.globalSteps, s.genSteps, s.numGens, rows)],
                   queue := Cleared(s.queue, Update(s.globalSteps - 1)));
    if s.globalSteps >= cfg.totalSteps then done.(status := Finished)
    else done.(globalSteps := s.globalSteps + 1, genSteps := s.genSteps + 1)
  }

  function ListTrained(cfg: Config, s: ListState): ListState {
    Completed(cfg, PutUpdate(s), Take(Flatten(s.batches), cfg.Rows()))
  }

  function ListTooFew(cfg: Config, s: ListState): ListState {
    if cfg.maxGenBatches <= 0 || s.numGens < cfg.maxGenBatches then s.(genSteps := s.genSteps + 1)
    else s.(status := Failed)
  }

  function Opened(s: ListState): ListState {
    s.(queue := Put(s.queue, Gen(s.globalSteps - 1, s.numGens)), numGens := s.numGens + 1)
  }

  function ListSettled(cfg: Config, s: ListState): ListState {
    if s.numPrompts < cfg.trainBatchSize then ListTooFew(cfg, s) else ListTrained(cfg, s)
  }

  /** Without the filter the generation replaces the list. */
  function Replaced(cfg: Config, s: ListState, rows: seq<Row>): ListState {
    s.(batches := [rows], numPrompts := cfg.trainBatchSize)
  }

  function ListNext(cfg: Config, s: ListState, rows: seq<Row>): ListState {
    if s.status != Running then s
    else if !cfg.filter then ListTrained(cfg, Replaced(cfg, Opened(s), rows))
    else ListSettled(cfg, Listed(Opened(s), rows))
  }

  function ListRun(cfg: Config, start: ListState, generations: seq<seq<Row>>): ListState {
    if generations == [] then start
    else ListNext(cfg, ListRun(cfg, start, generations[..|generations| - 1]), generations[|generations| - 1])
  }

  lemma {:induction false} ListStoppedStays(cfg: Config, start: ListState, generations: seq<seq<Row>>, i: nat)
    requires i <= |generations| && ListRun(cfg, start, generations[..i]).status != Running
    ensures ListRun(cfg, start, generations) == ListRun(cfg, start, generations[..i])
    decreases |generations|
  {
    if i == |generations| {
      assert generations[..i] == generations;
    } else {
      assert generations[..|generations| - 1][..i] == generations[..i];
      ListStoppedStays(cfg, start, generations[..|generations| - 1], i);
    }
  }

  lemma {:induction false} ListRunConcat(cfg: Config, start: ListState, a: seq<seq<Row>>, b: seq<seq<Row>>)
    ensures ListRun(cfg, start, a + b) == ListRun(cfg, ListRun(cfg, start, a), b)
    decreases |b|
  {
    if b == [] {
      assert a + b == a;
    } else {
      assert (a + b)[..|a| + |b| - 1] == a + b[..|b| - 1];
      ListRunConcat(cfg, start, a, b[..|b| - 1]);
    }
  }

  lemma ListStoppedEpochs(cfg: Config, start: ListState, data: Data, first: nat, epoch: nat, epochs: nat, count: nat)
    requires epoch <= epochs && ListRun(cfg, start, Fed(data, first, epoch, count)).status != Running
    ensures ListRun(cfg, start, Fed(data, first, epochs, count)) == ListRun(cfg, start, Fed(data, first, epoch, count))
  {
    var all, seen := Fed(data, first, epochs, count), Fed(data, first, epoch, count);
    FedStartsWith(data, first, epoch, epochs, count);
    assert all[..|seen|] == seen;
    ListStoppedStays(cfg, start, all, |seen|);
  }

  // ----- balancing before storing -----

  function Workloads(rows: seq<Row>, workload: Row -> nat): (work: seq<nat>)
    ensures |work| == |rows|
  {
    seq(|rows|, i requires 0 <= i < |rows| => workload(rows[i]))
  }

  /** How a batch is balanced: over how many ranks, if at all, and by which workload. */
  datatype Balance = Balance(enabled: bool, worldSize: nat, workload: Row -> nat)

  /** The samples are dealt out to the ranks, evenly when the ranks divide them. */
  ghost predicate IsPartition(parts: seq<seq<nat>>, size: nat, worldSize: nat) {
    worldSize > 0 && |parts| == worldSize && IsPermutation(Flatten(parts), size) &&
    (size % worldSize == 0 ==> forall r :: 0 <= r < worldSize ==> |parts[r]| == size / worldSize)
  }

  ghost predicate IsBalancedBy(stored: seq<Row>, rows: seq<Row>, b: Balance, parts: seq<seq<nat>>, ordered: seq<seq<nat>>) {
    IsPartition(parts, |rows|, b.worldSize) && |ordered| == |parts| &&
    AreOrdered(ordered, parts, Workloads(rows, b.workload)) &&
    IsPermutation(Flatten(ordered), |rows|) && stored == Gather(rows, Flatten(ordered))
  }

  /** The stored rows are the rows, rank by rank, and on each rank small workloads are at both ends. */
  ghost predicate IsBalanced(stored: seq<Row>, rows: seq<Row>, b: Balance) {
    if b.enabled then exists parts, ordered :: IsBalancedBy(stored, rows, b, parts, ordered) else stored == rows
  }

  /** Storing in balanced order loses nothing. */
  lemma BalancedKeepsRows(stored: seq<Row>, rows: seq<Row>, b: Balance)
    requires IsBalanced(stored, rows, b)
    ensures multiset(stored) == multiset(rows)
  {
    if b.enabled {
      var parts, ordered :| IsBalancedBy(stored, rows, b, parts, ordered);
      GatherKeepsMultiset(rows, Flatten(ordered));
    }
  }

  function Stretch(from: nat, to: nat): (s: seq<nat>)
    requires from <= to
    ensures |s| == to - from
  {
    seq(to - from, i requires 0 <= i => from + i)
  }

  lemma DealOut(parts: seq<seq<nat>>, from: nat, to: nat)
    requires Flatten(parts) == Stretch(0, from) && from <= to
    ensures Flatten(parts + [Stretch(from, to)]) == Stretch(0, to)
  {
    assert (parts + [Stretch(from, to)])[..|parts|] == parts;
  }

  lemma StretchIsPermutation(size: nat)
    ensures IsPermutation(Stretch(0, size), size)
  {
  }

  lemma OneMoreShare(r: nat, share: nat)
    ensures (r + 1) * share == r * share + share
  {
  }

  method DealShares(count: nat, share: nat) returns (parts: seq<seq<nat>>, done: nat)
    ensures |parts| == count && done == count * share && Flatten(parts) == Stretch(0, done)
    ensures forall q :: 0 <= q < |parts| ==> |parts[q]| == share
  {
    parts, done := [], 0;
    for r := 0 to count
      invariant |parts| == r && done == r * share && Flatten(parts) == Stretch(0, done)
      invariant forall q :: 0 <= q < |parts| ==> |parts[q]| == share
    {
      OneMoreShare(r, share);
      DealOut(parts, done, done + share);
      parts, done := parts + [Stretch(done, done + share)], done + share;
    }
  }

  lemma DealtIsPartition(dealt: seq<seq<nat>>, share: nat, done: nat, size: nat, worldSize: nat)
    requires worldSize > 0 && |dealt| == worldSize - 1 && done <= size && Flatten(dealt) == Stretch(0, done)
    requires share == size / worldSize && forall q :: 0 <= q < |dealt| ==> |dealt[q]| == share
    requires size % worldSize == 0 ==> size - done == share
    ensures IsPartition(dealt + [Stretch(done, size)], size, worldSize)
  {
    DealOut(dealt, done, size);
    StretchIsPermutation(size);
  }

  /** Some partition of the samples over the ranks; the heuristic that evens out the workloads is not modelled. */
  method PartitionSamples(size: nat, worldSize: nat) returns (parts: seq<seq<nat>>)
    requires worldSize > 0
    ensures IsPartition(parts, size, worldSize)
  {
    var dealt, done := DealShares(worldSize - 1, size / worldSize);
    ShareFits(size, worldSize, worldSize - 1);
    parts := dealt + [Stretch(done, size)];
    DealtIsPartition(dealt, size / worldSize, done, size, worldSize);
  }

  lemma ShareFits(size: nat, worldSize: nat, k: nat)
    requires worldSize > 0 && k <= worldSize
    ensures 0 <= k * (size / worldSize) <= size
    ensures k == worldSize - 1 && size % worldSize == 0 ==> size - k * (size / worldSize) == size / worldSize
  {
    var share := size / worldSize;
    assert size == worldSize * share + size % worldSize;
    BlockStart(k, worldSize, share);
  }

  method BalanceBatch(batch: seq<Row>, b: Balance) returns (balanced: seq<Row>)
    requires b.worldSize > 0
    ensures IsBalanced(balanced, batch, b)
  {
    if !b.enabled {
      return batch;
    }
    var work := Workloads(batch, b.workload);
    var parts := PartitionSamples(|batch|, b.worldSize);
    var ordered, indices := BalanceRanks(parts, work);
    balanced := Gather(batch, indices);
    assert IsBalancedBy(balanced, batch, b, parts, ordered);
  }

  /** What is stored for the steps: the rows each was trained on, in balanced order. */
  ghost predicate Stores(stored: seq<seq<Row>>, trained: seq<Step>, b: Balance) {
    |stored| == |trained| && forall i :: 0 <= i < |stored| ==> IsBalanced(stored[i], trained[i].rows, b)
  }

  lemma TrainedStores(cfg: Config, s: ListState, rows: seq<Row>, stored: seq<seq<Row>>, balanced: seq<Row>, b: Balance)
    requires Stores(stored, s.trained, b) && IsBalanced(balanced, rows, b)
    ensures Stores(stored + [balanced], Completed(cfg, s, rows).trained, b)
  {
  }

  // ----- when a run stops -----

  lemma ListNextStopsInTime(cfg: Config, s: ListState, rows: seq<Row>)
    requires StopsInTime(cfg, s.trained, s.status)
    ensures StopsInTime(cfg, ListNext(cfg, s, rows).trained, ListNext(cfg, s, rows).status)
  {
    var t := ListNext(cfg, s, rows);
    if s.status == Running && t.trained != s.trained {
      OneMoreInTime(cfg, s.trained, t.trained[|s.trained|], t.status);
    }
  }

  lemma {:induction false} ListRunStopsInTime(cfg: Config, start: ListState, generations: seq<seq<Row>>)
    requires StopsInTime(cfg, start.trained, start.status)
    ensures StopsInTime(cfg, ListRun(cfg, start, generations).trained, ListRun(cfg, start, generations).status)
  {
    if generations != [] {
      ListRunStopsInTime(cfg, start, generations[..|generations| - 1]);
      ListNextStopsInTime(cfg, ListRun(cfg, start, generations[..|generations| - 1]), generations[|generations| - 1]);
    }
  }

  /** Over every run, with and without the filter. */
  lemma ListRunsStopInTime(cfg: Config, start: nat, generations: seq<seq<Row>>)
    ensures StopsInTime(cfg, ListRun(cfg, ListStart(start), generations).trained, ListRun(cfg, ListStart(start), generations).status)
  {
    ListRunStopsInTime(cfg, ListStart(start), generations);
  }

  /** A step on the first rows of its generation. */
  ghost predicate TakesFirstRows(cfg: Config, t: Step, rows: seq<Row>, start: nat, i: nat) {
    t.rows <= rows && |t.rows| == Min(|rows|, cfg.trainBatchSize * cfg.n) && t == Step(start + i, i + 1, 1, t.rows)
  }

  lemma UnfilteredListNext(cfg: Config, s: ListState, rows: seq<Row>, start: nat, i: nat)
    requires !cfg.filter && s.status == Running && s.globalSteps == start + i && s.genSteps == i + 1 && s.numGens == 0
    ensures var t := ListNext(cfg, s, rows);
            t.trained != [] && t.trained == s.trained + [t.trained[|t.trained| - 1]] && t.status != Failed &&
            TakesFirstRows(cfg, t.trained[|t.trained| - 1], rows, start, i) &&
            (t.status == Running ==> t.globalSteps == start + i + 1 && t.genSteps == i + 2 && t.numGens == 0)
  {
    FlattenSingle(rows);
  }

  ghost predicate AllTakeFirstRows(cfg: Config, trained: seq<Step>, generations: seq<seq<Row>>, start: nat) {
    |trained| <= |generations| &&
    forall i :: 0 <= i < |trained| ==> TakesFirstRows(cfg, trained[i], generations[i], start, i)
  }

  lemma OneMoreTakes(cfg: Config, trained: seq<Step>, t: Step, generations: seq<seq<Row>>, start: nat)
    requires generations != [] && AllTakeFirstRows(cfg, trained, generations[..|generations| - 1], start)
    ensures AllTakeFirstRows(cfg, trained, generations, start)
    ensures |trained| == |generations| - 1 && TakesFirstRows(cfg, t, generations[|trained|], start, |trained|) ==>
              AllTakeFirstRows(cfg, trained + [t], generations, start)
  {
    forall i | 0 <= i < |trained| ensures TakesFirstRows(cfg, trained[i], generations[i], start, i) {
      assert TakesFirstRows(cfg, trained[i], generations[..|generations| - 1][i], start, i);
    }
  }

  /** Without the filter every generation is a step on its first rows, until the run is finished. */
  lemma {:induction false} UnfilteredListRunsMean(cfg: Config, start: nat, generations: seq<seq<Row>>)
    requires !cfg.filter
    ensures var s := ListRun(cfg, ListStart(start), generations);
            AllTakeFirstRows(cfg, s.trained, generations, start) && s.status != Failed &&
            (s.status == Running ==>
               |s.trained| == |generations| && s.globalSteps == start + |s.trained| && s.genSteps == |s.trained| + 1 && s.numGens == 0)
  {
    if generations != [] {
      var last := |generations| - 1;
      UnfilteredListRunsMean(cfg, start, generations[..last]);
      var s := ListRun(cfg, ListStart(start), generations[..last]);
      var t := ListNext(cfg, s, generations[last]);
      if s.status == Running {
        UnfilteredListNext(cfg, s, generations[last], start, last);
        OneMoreTakes(cfg, s.trained, t.trained[last], generations, start);
      } else {
        OneMoreTakes(cfg, s.trained, Step(0, 0, 0, []), generations, start);
      }
    }
  }

  class ListTrainer {
    const cfg: Config
    const balance: Balance
    var batchList: seq<seq<Row>>
    var numPromptInBatch: nat
    var numGenBatches: nat
    var globalSteps: nat
    var genSteps: nat
    var trained: seq<Step>
    var stored: seq<seq<Row>>
    var status: Status
    var puts: seq<Partition>
    var cleared: seq<Partition>
    var genBatchMetasToClear: seq<Partition>

    constructor (cfg: Config, balance: Balance, loadedSteps: nat)
      requires balance.worldSize > 0
      ensures this.cfg == cfg && this.balance == balance && View() == ListStart(loadedSteps + 1) && Valid()
    {
      this.cfg, this.balance := cfg, balance;
      batchList, numPromptInBatch, numGenBatches := [], 0, 0;
      globalSteps, genSteps := loadedSteps + 1, 1;
      trained, stored, status := [], [], Running;
      puts, cleared, genBatchMetasToClear := [], [], [];
    }

    /** Every completed step has its rows stored. */
    ghost predicate Valid()
      reads this
    {
      balance.worldSize > 0 && Stores(stored, trained, balance)
    }

    function View(): ListState
      reads this
    {
      ListState(batchList, numPromptInBatch, numGenBatches, globalSteps, genSteps, trained, status,
                Queue(puts, cleared, genBatchMetasToClear))
    }

    method Accumulate(newBatch: seq<Row>)
      modifies this`batchList, this`numPromptInBatch
      ensures View() == Listed(old(View()), newBatch)
    {
      var kept, keptPrompts := FilterGroups(newBatch);
      numPromptInBatch := numPromptInBatch + keptPrompts;
      batchList := batchList + [kept];
    }

    /** Puts the balanced batch into the step's update partition. */
    method Store(batch: seq<Row>) returns (ghost balanced: seq<Row>)
      requires balance.worldSize > 0
      modifies this`stored, this`puts
      ensures stored == old(stored) + [balanced] && IsBalanced(balanced, batch, balance)
      ensures View() == PutUpdate(old(View()))
    {
      var rows := BalanceBatch(batch, balance);
      balanced := rows;
      stored := stored + [rows];
      puts := puts + [Update(globalSteps - 1)];
    }

    /** The end of a completed step: its partitions go, the counters start over. */
    method Complete(batch: seq<Row>, isLastStep: bool)
      requires status == Running && isLastStep == (globalSteps >= cfg.totalSteps)
      modifies this`batchList, this`numPromptInBatch, this`numGenBatches, this`globalSteps, this`genSteps,
               this`trained, this`status, this`cleared, this`genBatchMetasToClear
      ensures View() == Completed(cfg, old(View()), batch)
    {
      trained := trained + [Step(globalSteps, genSteps, numGenBatches, batch)];
      cleared := cleared + genBatchMetasToClear + [Update(globalSteps - 1)];
      genBatchMetasToClear := [];
      batchList, numPromptInBatch, numGenBatches := [], 0, 0;
      if isLastStep {
        status := Finished;
      } else {
        globalSteps, genSteps := globalSteps + 1, genSteps + 1;
      }
    }

    method Train(isLastStep: bool)
      requires status == Running && isLastStep == (globalSteps >= cfg.totalSteps) && Valid()
      modifies this
      ensures View() == ListTrained(cfg, old(View())) && Valid()
    {
      ghost var before := stored;
      var batch := Take(Flatten(batchList), cfg.trainBatchSize * cfg.n);
      ghost var balanced := Store(batch);
      ghost var put := View();
      Complete(batch, isLastStep);
      TrainedStores(cfg, put, batch, before, balanced, balance);
    }

    method Settle(isLastStep: bool)
      requires status == Running && isLastStep == (globalSteps >= cfg.totalSteps) && Valid()
      modifies this
      ensures View() == ListSettled(cfg, old(View())) && Valid()
    {
      if numPromptInBatch < cfg.trainBatchSize {
        if cfg.maxGenBatches <= 0 || numGenBatches < cfg.maxGenBatches {
          genSteps := genSteps + 1;
        } else {
          status := Failed;
        }
      } else {
        Train(isLastStep);
      }
    }

    /** Puts the generation's prompts into a partition of their own. */
    method Open()
      modifies this`puts, this`genBatchMetasToClear, this`numGenBatches
      ensures View() == Opened(old(View()))
    {
      var partition := Gen(globalSteps - 1, numGenBatches);
      puts, genBatchMetasToClear := puts + [partition], genBatchMetasToClear + [partition];
      numGenBatches := numGenBatches + 1;
    }

    /** One pass of the loop body. */
    method Generation(newBatch: seq<Row>)
      requires status == Running && Valid()
      modifies this
      ensures View() == ListNext(cfg, old(View()), newBatch) && Valid()
    {
      Open();
      var isLastStep := globalSteps >= cfg.totalSteps;
      if cfg.filter {
        Accumulate(newBatch);
        Settle(isLastStep);
      } else {
        batchList, numPromptInBatch := [newBatch], cfg.trainBatchSize;
        Train(isLastStep);
      }
    }

    /** The batches of one epoch; the last step or the error leaves the loop. */
    method FitEpoch(generations: seq<seq<Row>>)
      requires status == Running && Valid()
      modifies this
      ensures View() == ListRun(cfg, old(View()), generations) && Valid()
    {
      ghost var start := View();
      var i := 0;
      while i < |generations| && status == Running
        invariant i <= |generations| && Valid()
        invariant View() == ListRun(cfg, start, generations[..i])
      {
        assert generations[..i + 1][..i] == generations[..i];
        Generation(generations[i]);
        i := i + 1;
      }
      if i < |generations| {
        ListStoppedStays(cfg, start, generations, i);
      } else {
        assert generations[..i] == generations;
      }
    }

    /** One epoch more, after the generations `fed`. */
    method FitNext(ghost start: ListState, ghost fed: seq<seq<Row>>, generations: seq<seq<Row>>)
      requires status == Running && Valid() && View() == ListRun(cfg, start, fed)
      modifies this
      ensures View() == ListRun(cfg, start, fed + generations) && Valid()
    {
      FitEpoch(generations);
      ListRunConcat(cfg, start, fed, generations);
    }

    /** The loop over the epochs, always from the first. */
    method Fit(data: Data, batchesPerEpoch: nat, totalEpochs: nat)
      requires status == Running && Valid()
      modifies this
      ensures View() == ListRun(cfg, old(View()), Fed(data, 0, totalEpochs, batchesPerEpoch)) && Valid()
      ensures old(StopsInTime(cfg, trained, status)) ==> StopsInTime(cfg, trained, status)
    {
      ghost var start, fed := View(), [];
      var epoch := 0;
      while epoch < totalEpochs && status == Running
        invariant epoch <= totalEpochs && Valid()
        invariant fed == Fed(data, 0, epoch, batchesPerEpoch) && View() == ListRun(cfg, start, fed)
      {
        FitNext(start, fed, EpochOf(data, epoch, batchesPerEpoch));
        fed := fed + EpochOf(data, epoch, batchesPerEpoch);
        epoch := epoch + 1;
      }
      if epoch < totalEpochs {
        ListStoppedEpochs(cfg, start, data, 0, epoch, totalEpochs, batchesPerEpoch);
      }
      if StopsInTime(cfg, start.trained, start.status) {
        ListRunStopsInTime(cfg, start, Fed(data, 0, totalEpochs, batchesPerEpoch));
      }
    }
  }

  // ----- refinement of the incremental loop -----

  function Abstract(s: ListState): State {
    State(Flatten(s.batches), s.numPrompts, s.numGens, s.globalSteps, s.genSteps, s.trained, s.status)
  }

  lemma ListedRefines(s: ListState, rows: seq<Row>)
    ensures Abstract(Listed(Opened(s), rows)) == Accumulated(Abstract(s), rows)
  {
    FlatAppend(s.batches, KeepRows(rows, rows));
  }

  lemma TrainedRefines(cfg: Config, s: ListState)
    ensures Abstract(ListTrained(cfg, s)) == Trained(cfg, Abstract(s), Take(Flatten(s.batches), cfg.Rows()))
  {
  }

  lemma SettledRefines(cfg: Config, s: ListState)
    ensures Abstract(ListSettled(cfg, s)) == Settled(cfg, Abstract(s))
  {
    TrainedRefines(cfg, s);
  }

  /** The abstract state in which an unfiltered generation is trained on. */
  function OneGenMore(s: State): State {
    s.(numGens := s.numGens + 1)
  }

  /** Training starts over, whatever had been accumulated. */
  lemma TrainedForgets(cfg: Config, a: State, b: State, rows: seq<Row>)
    requires a.(batch := [], numPrompts := 0) == b.(batch := [], numPrompts := 0)
    ensures Trained(cfg, a, rows) == Trained(cfg, b, rows)
  {
  }

  lemma ReplacedIs(cfg: Config, s: ListState, rows: seq<Row>)
    ensures Flatten(Replaced(cfg, Opened(s), rows).batches) == rows
    ensures Abstract(Replaced(cfg, Opened(s), rows)) ==
            Abstract(s).(batch := rows, numPrompts := cfg.trainBatchSize, numGens := s.numGens + 1)
  {
    FlattenSingle(rows);
  }

  lemma UnfilteredTrained(cfg: Config, s: ListState, rows: seq<Row>)
    requires s.status == Running && !cfg.filter
    ensures Abstract(ListNext(cfg, s, rows)) == Trained(cfg, OneGenMore(Abstract(s)), Take(rows, cfg.Rows()))
  {
    var replaced := Replaced(cfg, Opened(s), rows);
    ReplacedIs(cfg, s, rows);
    TrainedRefines(cfg, replaced);
    TrainedForgets(cfg, Abstract(replaced), OneGenMore(Abstract(s)), Take(rows, cfg.Rows()));
  }

  lemma TrainedRecords(cfg: Config, s: State, a: seq<Row>, b: seq<Row>)
    ensures Trained(cfg, s, a) == Trained(cfg, s, b) <==> a == b
  {
    var step := Step(s.globalSteps, s.genSteps, s.numGens, a);
    assert Trained(cfg, s, a).trained == s.trained + [step];
    assert Trained(cfg, s, a).trained[|s.trained|].rows == a;
    assert Trained(cfg, s, b).trained[|s.trained|].rows == b;
  }

  lemma TakeIsAll(rows: seq<Row>, k: nat)
    ensures Take(rows, k) == rows <==> |rows| <= k
  {
  }

  lemma UnfilteredNext(cfg: Config, s: State, rows: seq<Row>)
    requires s.status == Running && !cfg.filter
    ensures Next(cfg, s, rows) == Trained(cfg, OneGenMore(s), rows)
  {
  }

  lemma TruncatedAgreesIff(cfg: Config, a: State, rows: seq<Row>, listed: State, incremental: State)
    requires listed == Trained(cfg, a, Take(rows, cfg.Rows())) && incremental == Trained(cfg, a, rows)
    ensures listed == incremental <==> |rows| <= cfg.Rows()
  {
    TrainedRecords(cfg, a, Take(rows, cfg.Rows()), rows);
    TakeIsAll(rows, cfg.Rows());
  }

  lemma UnfilteredAgreesIff(cfg: Config, s: ListState, rows: seq<Row>)
    requires s.status == Running && !cfg.filter
    ensures Abstract(ListNext(cfg, s, rows)) == Next(cfg, Abstract(s), rows) <==> |rows| <= cfg.Rows()
  {
    UnfilteredTrained(cfg, s, rows);
    UnfilteredNext(cfg, Abstract(s), rows);
    TruncatedAgreesIff(cfg, OneGenMore(Abstract(s)), rows, Abstract(ListNext(cfg, s, rows)), Next(cfg, Abstract(s), rows));
  }

  /** The two loops agree on a generation exactly when filtering is on or the generation is no larger than a
   *  training batch: without the filter only the transfer queue's loop truncates. */
  lemma AgreesIff(cfg: Config, s: ListState, rows: seq<Row>)
    requires s.status == Running
    ensures Abstract(ListNext(cfg, s, rows)) == Next(cfg, Abstract(s), rows) <==> cfg.filter || |rows| <= cfg.Rows()
  {
    if cfg.filter {
      ListedRefines(s, rows);
      SettledRefines(cfg, Listed(Opened(s), rows));
    } else {
      UnfilteredAgreesIff(cfg, s, rows);
    }
  }

  /** Main result: on the same generations the listing loop refines the incremental one over every run. */
  lemma {:induction false} RunsAgree(cfg: Config, start: nat, generations: seq<seq<Row>>)
    requires cfg.filter || forall i :: 0 <= i < |generations| ==> |generations[i]| <= cfg.Rows()
    ensures Abstract(ListRun(cfg, ListStart(start), generations)) == Run(cfg, Start(start), generations)
  {
    if generations != [] {
      var last := |generations| - 1;
      RunsAgree(cfg, start, generations[..last]);
      var s := ListRun(cfg, ListStart(start), generations[..last]);
      if s.status == Running {
        AgreesIff(cfg, s, generations[last]);
      }
    }
  }

  // ----- the epochs that the two trainers go through -----

  lemma EpochIsZeroIff(steps: nat, count: nat)
    requires count > 0
    ensures CurrentEpoch(steps, count) == 0 <==> steps < count
  {
  }

  /** After a checkpoint of `loadedSteps` steps, or none, both trainers are fed the same epochs exactly when the next step
   *  lies before the end of the first one: only the incremental trainer skips epochs, and it counts the step to come. */
  lemma SameEpochsIff(data: Data, loadedSteps: nat, count: nat, epochs: nat)
    requires count > 0
    ensures Fed(data, CurrentEpoch(loadedSteps + 1, count), epochs, count) == Fed(data, 0, epochs, count) <==>
            epochs == 0 || loadedSteps + 1 < count
  {
    var first := CurrentEpoch(loadedSteps + 1, count);
    EpochIsZeroIff(loadedSteps + 1, count);
    FedSize(data, first, epochs, count);
    FedSize(data, 0, epochs, count);
    if epochs > 0 && first > 0 {
      InBlock(if epochs <= first then 0 else epochs - first, 0, epochs, count);
    }
  }

  /** Then the whole runs agree, from the checkpoint on. */
  lemma FitsAgree(cfg: Config, data: Data, loadedSteps: nat, count: nat, epochs: nat)
    requires count > 0 && (epochs == 0 || loadedSteps + 1 < count)
    requires cfg.filter || forall e, i :: |data(e, i)| <= cfg.Rows()
    ensures Abstract(ListRun(cfg, ListStart(loadedSteps + 1), Fed(data, 0, epochs, count))) ==
            Run(cfg, Start(loadedSteps + 1), Fed(data, CurrentEpoch(loadedSteps + 1, count), epochs, count))
  {
    SameEpochsIff(data, loadedSteps, count, epochs);
    FedIsBounded(cfg, data, 0, epochs, count);
    RunsAgree(cfg, loadedSteps + 1, Fed(data, 0, epochs, count));
  }

  lemma {:induction false} FedIsBounded(cfg: Config, data: Data, first: nat, epochs: nat, count: nat)
    ensures (forall e, i :: |data(e, i)| <= cfg.Rows()) ==>
              forall k :: 0 <= k < |Fed(data, first, epochs, count)| ==> |Fed(data, first, epochs, count)[k]| <= cfg.Rows()
  {
    if epochs > first {
      FedIsBounded(cfg, data, first, epochs - 1, count);
    }
  }

  /** A fresh start with one batch per epoch: the incremental trainer skips the first epoch, so with one epoch in all it
   *  trains nothing where the other trains a step. */
  lemma FreshStartDiffers(cfg: Config, data: Data)
    requires !cfg.filter
    ensures Run(cfg, Start(1), Fed(data, CurrentEpoch(1, 1), 1, 1)).trained == []
    ensures |ListRun(cfg, ListStart(1), Fed(data, 0, 1, 1)).trained| == 1
  {
    var fed := Fed(data, 0, 1, 1);
    assert Fed(data, 0, 0, 1) == [] && fed == [data(0, 0)] && fed[..0] == [];
    assert ListRun(cfg, ListStart(1), fed) == ListNext(cfg, ListStart(1), data(0, 0));
  }

  // ----- the life of the partitions -----

  function OpenedBy(step: int, count: nat): (ps: seq<Partition>)
    ensures |ps| == count
  {
    seq(count, i requires 0 <= i => Gen(step, i))
  }

  ghost predicate ClearedBefore(ps: seq<Partition>, step: int) {
    forall i :: 0 <= i < |ps| ==> ps[i].step < step
  }

  /** Everything put was cleared, except for the partitions of the generations of an unfinished step. */
  ghost predicate QueueMeans(s: ListState) {
    Distinct(s.queue.puts) && s.queue.puts == s.queue.cleared + s.queue.toClear &&
    (s.status != Finished ==>
       s.queue.toClear == OpenedBy(s.globalSteps - 1, s.numGens) && ClearedBefore(s.queue.cleared, s.globalSteps - 1)) &&
    (s.status == Finished ==> s.queue.toClear == [])
  }

  lemma DistinctAppend<T>(s: seq<T>, x: T)
    requires Distinct(s) && x !in s
    ensures Distinct(s + [x])
  {
  }

  lemma OpenedMeans(s: ListState)
    requires QueueMeans(s) && s.status == Running
    ensures QueueMeans(Opened(s))
  {
    var p := Gen(s.globalSteps - 1, s.numGens);
    assert p !in s.queue.cleared && p !in s.queue.toClear;
    DistinctAppend(s.queue.puts, p);
    assert s.queue.cleared + s.queue.toClear + [p] == s.queue.cleared + (s.queue.toClear + [p]);
    assert OpenedBy(s.globalSteps - 1, s.numGens + 1) == OpenedBy(s.globalSteps - 1, s.numGens) + [p];
  }

  lemma TrainedClears(cfg: Config, s: ListState)
    requires QueueMeans(s) && s.status == Running
    ensures QueueMeans(ListTrained(cfg, s))
    ensures var q := ListTrained(cfg, s).queue; q.toClear == [] && q.cleared == q.puts
  {
    var p := Update(s.globalSteps - 1);
    assert p !in s.queue.cleared && p !in s.queue.toClear;
    DistinctAppend(s.queue.puts, p);
    var q := ListTrained(cfg, s).queue;
    assert q.puts == q.cleared + [];
    assert OpenedBy(s.globalSteps, 0) == [];
    forall i | 0 <= i < |q.cleared| ensures q.cleared[i].step < s.globalSteps {
      if i < |s.queue.cleared| {
        assert q.cleared[i] == s.queue.cleared[i];
      } else if i < |s.queue.cleared| + |s.queue.toClear| {
        assert q.cleared[i] == s.queue.toClear[i - |s.queue.cleared|];
      }
    }
  }

  /** No partition name is used twice in a run, and after each completed step all partitions are cleared. */
  lemma {:induction false} PartitionsAreFreshAndCleared(cfg: Config, start: nat, generations: seq<seq<Row>>)
    ensures QueueMeans(ListRun(cfg, ListStart(start), generations))
    ensures generations != [] ==>
              var before := ListRun(cfg, ListStart(start), generations[..|generations| - 1]);
              var after := ListRun(cfg, ListStart(start), generations);
              |after.trained| > |before.trained| ==> after.queue.toClear == [] && after.queue.cleared == after.queue.puts
  {
    if generations == [] {
      assert OpenedBy(start - 1, 0) == [];
    } else {
      var last := |generations| - 1;
      PartitionsAreFreshAndCleared(cfg, start, generations[..last]);
      QueueStep(cfg, ListRun(cfg, ListStart(start), generations[..last]), generations[last]);
    }
  }

  lemma QueueStep(cfg: Config, s: ListState, rows: seq<Row>)
    requires QueueMeans(s)
    ensures QueueMeans(ListNext(cfg, s, rows))
    ensures var after := ListNext(cfg, s, rows);
            |after.trained| > |s.trained| ==> after.queue.toClear == [] && after.queue.cleared == after.queue.puts
  {
    if s.status == Running {
      OpenedMeans(s);
      if cfg.filter {
        SettledQueue(cfg, Listed(Opened(s), rows));
      } else {
        TrainedClears(cfg, Replaced(cfg, Opened(s), rows));
      }
    }
  }

  lemma SettledQueue(cfg: Config, s: ListState)
    requires QueueMeans(s) && s.status == Running
    ensures QueueMeans(ListSettled(cfg, s))
    ensures var after := ListSettled(cfg, s);
            |after.trained| > |s.trained| ==> after.queue.toClear == [] && after.queue.cleared == after.queue.puts
  {
    TrainedClears(cfg, s);
  }
}

/** Validation in chunks with a dump that survives crashes: what a resumed run has in common with an uninterrupted
 *  one, and what it has not. */
module ResumableValidation {
  import opened Blocks
  import opened Sequences
  import opened Wrappers

  datatype Value = Text(text: string) | Number(number: real)

  /** A line of the dump. */
  type Record = map<string, Value>

  datatype Prompt = Prompt(key: string, id: nat)

  /** One rollout of a prompt with its score, the turn count of the generated batch and the reward fields of its row. */
  datatype Sample = Sample(source: string, uid: string, input: string, output: string, truth: string, score: real,
                           turns: Option<int>, extra: map<string, Value>)

  const STRUCTURAL := {"_resume_key", "data_source", "uid", "input", "output", "gts", "step"}

  /** What a prompt's generation and scoring yields: the reward function always returns the same fields, and the
   *  generated batches count turns or they do not. */
  datatype Oracle = Oracle(rollouts: Prompt -> seq<Sample>, n: nat, schema: set<string>, counted: bool, step: nat) {
    ghost predicate Valid() {
      n > 0 && schema !! STRUCTURAL && forall p: Prompt :: Answers(p)
    }

    ghost predicate Answers(p: Prompt) {
      |rollouts(p)| == n && forall j :: 0 <= j < n ==> FollowsSchema(rollouts(p)[j])
    }

    /** A reward field called score is the score. */
    ghost predicate FollowsSchema(s: Sample) {
      s.extra.Keys == schema && s.turns.Some? == counted && ("score" in schema ==> s.extra["score"] == Number(s.score))
    }
  }

  // ----- accumulators -----

  datatype Basic = Basic(source: string, uid: string, input: string, output: string, truth: string, score: real)

  /** The rows, a list per reward field, and the turn counts collected on the side. */
  datatype Accumulators = Accumulators(rows: seq<Basic>, extra: map<string, seq<Value>>, turns: seq<int>)

  const NOTHING := Accumulators([], map[], [])

  function BasicOf(s: Sample): Basic {
    Basic(s.source, s.uid, s.input, s.output, s.truth, s.score)
  }

  /** The row's reward fields; the undivided reward comes first and can be replaced by the reward function. */
  function Fields(s: Sample): map<string, Value> {
    map["reward" := Number(s.score)] + s.extra
  }

  function ListOf(extra: map<string, seq<Value>>, key: string): seq<Value> {
    if key in extra then extra[key] else []
  }

  function AddFields(extra: map<string, seq<Value>>, fields: map<string, Value>): map<string, seq<Value>> {
    map key | key in extra.Keys + fields.Keys :: ListOf(extra, key) + if key in fields then [fields[key]] else []
  }

  function AddRow(acc: Accumulators, row: Basic, fields: map<string, Value>, turns: seq<int>): Accumulators {
    Accumulators(acc.rows + [row], AddFields(acc.extra, fields), acc.turns + turns)
  }

  function TurnsOf(s: Sample): seq<int> {
    if s.turns.Some? then [s.turns.value] else []
  }

  /** The accumulators after the samples, row by row. */
  function Folded(acc: Accumulators, samples: seq<Sample>): Accumulators {
    if samples == [] then acc
    else
      var s := samples[|samples| - 1];
      AddRow(Folded(acc, samples[..|samples| - 1]), BasicOf(s), Fields(s), TurnsOf(s))
  }

  function Basics(samples: seq<Sample>): (r: seq<Basic>)
    ensures |r| == |samples|
  {
    seq(|samples|, i requires 0 <= i < |samples| => BasicOf(samples[i]))
  }

  /** One field's values, of the samples that have it. */
  function Column(samples: seq<Sample>, key: string): seq<Value> {
    if samples == [] then []
    else
      var s := samples[|samples| - 1];
      Column(samples[..|samples| - 1], key) + if key in Fields(s) then [Fields(s)[key]] else []
  }

  function TurnColumn(samples: seq<Sample>): seq<int> {
    if samples == [] then [] else TurnColumn(samples[..|samples| - 1]) + TurnsOf(samples[|samples| - 1])
  }

  ghost predicate HaveFields(samples: seq<Sample>, names: set<string>) {
    forall i :: 0 <= i < |samples| ==> Fields(samples[i]).Keys == names
  }

  /** A chunk extends every field's list, and the turn counts, by the chunk's columns. */
  function Extended(acc: Accumulators, samples: seq<Sample>, names: set<string>): Accumulators {
    Accumulators(acc.rows + Basics(samples),
                 map key | key in acc.extra.Keys + names :: ListOf(acc.extra, key) + Column(samples, key),
                 acc.turns + TurnColumn(samples))
  }

  lemma {:induction false} FoldedKeys(acc: Accumulators, samples: seq<Sample>, names: set<string>)
    requires HaveFields(samples, names)
    ensures Folded(acc, samples).extra.Keys == acc.extra.Keys + if samples == [] then {} else names
  {
    if samples != [] {
      FoldedKeys(acc, samples[..|samples| - 1], names);
    }
  }

  lemma AddFieldsList(extra: map<string, seq<Value>>, fields: map<string, Value>, key: string)
    ensures ListOf(AddFields(extra, fields), key) == ListOf(extra, key) + if key in fields then [fields[key]] else []
    ensures AddFields(extra, fields).Keys == extra.Keys + fields.Keys
  {
  }

  lemma Regroup<T>(a: seq<T>, b: seq<T>, c: seq<T>)
    ensures (a + b) + c == a + (b + c)
  {
  }

  /** The list of one field after a fold. */
  lemma {:induction false} FoldedList(acc: Accumulators, samples: seq<Sample>, key: string)
    ensures ListOf(Folded(acc, samples).extra, key) == ListOf(acc.extra, key) + Column(samples, key)
  {
    if samples == [] {
      assert ListOf(acc.extra, key) + [] == ListOf(acc.extra, key);
    } else {
      var last := |samples| - 1;
      var s := samples[last];
      FoldedList(acc, samples[..last], key);
      AddFieldsList(Folded(acc, samples[..last]).extra, Fields(s), key);
      Regroup(ListOf(acc.extra, key), Column(samples[..last], key), if key in Fields(s) then [Fields(s)[key]] else []);
    }
  }

  lemma {:induction false} FoldedTurns(acc: Accumulators, samples: seq<Sample>)
    ensures Folded(acc, samples).turns == acc.turns + TurnColumn(samples)
  {
    if samples != [] {
      var last := |samples| - 1;
      FoldedTurns(acc, samples[..last]);
      Regroup(acc.turns, TurnColumn(samples[..last]), TurnsOf(samples[last]));
    }
  }

  lemma {:induction false} FoldedRows(acc: Accumulators, samples: seq<Sample>)
    ensures Folded(acc, samples).rows == acc.rows + Basics(samples)
  {
    if samples != [] {
      var last := |samples| - 1;
      FoldedRows(acc, samples[..last]);
      assert Basics(samples) == Basics(samples[..last]) + [BasicOf(samples[last])];
    }
  }

  lemma SameFields(a: map<string, seq<Value>>, b: map<string, seq<Value>>)
    requires a.Keys == b.Keys && forall key :: key in a ==> a[key] == ListOf(b, key)
    ensures a == b
  {
  }

  /** Column by column is row by row. */
  lemma ExtendedIsFolded(acc: Accumulators, samples: seq<Sample>, names: set<string>)
    requires HaveFields(samples, names) && samples != []
    ensures Extended(acc, samples, names) == Folded(acc, samples)
  {
    FoldedRows(acc, samples);
    FoldedTurns(acc, samples);
    FoldedKeys(acc, samples, names);
    var extended := Extended(acc, samples, names);
    forall key | key in extended.extra ensures extended.extra[key] == ListOf(Folded(acc, samples).extra, key) {
      FoldedList(acc, samples, key);
    }
    SameFields(extended.extra, Folded(acc, samples).extra);
  }

  lemma {:induction false} FoldedConcat(acc: Accumulators, a: seq<Sample>, b: seq<Sample>)
    ensures Folded(acc, a + b) == Folded(Folded(acc, a), b)
    decreases |b|
  {
    if b == [] {
      assert a + b == a;
    } else {
      assert (a + b)[..|a| + |b| - 1] == a + b[..|b| - 1];
      FoldedConcat(acc, a, b[..|b| - 1]);
    }
  }

  // ----- the dump -----

  function RecordOf(key: string, s: Sample, step: nat): Record {
    map["_resume_key" := Text(key), "data_source" := Text(s.source), "uid" := Text(s.uid), "input" := Text(s.input),
        "output" := Text(s.output), "gts" := Text(s.truth), "score" := Number(s.score), "step" := Number(step as real)] +
    Fields(s)
  }

  function TextAt(r: Record, key: string, default: string): string {
    if key in r && r[key].Text? then r[key].text else default
  }

  function NumberAt(r: Record, key: string): real {
    if key in r && r[key].Number? then r[key].number else 0.0
  }

  /** Conversion to an integer drops the fraction. */
  function Truncated(x: real): int {
    if x >= 0.0 then x.Floor else -((-x).Floor)
  }

  lemma TruncatedIs(x: real)
    ensures var n := Truncated(x) as real;
            if x >= 0.0 then 0.0 <= n <= x < n + 1.0 else n - 1.0 < x <= n <= 0.0
  {
  }

  /** The turns a reloaded line counts: its field of that name, and none without it. */
  function TurnsIn(r: map<string, Value>): int {
    if "num_turns" in r && r["num_turns"].Number? then Truncated(r["num_turns"].number) else 0
  }

  /** What a reloaded line says: the structural fields make the row, all others count as reward fields. */
  datatype Line = Line(key: Option<string>, row: Basic, fields: map<string, Value>, turns: int)

  function Parse(r: Record): Line {
    Line(if "_resume_key" in r && r["_resume_key"].Text? then Some(r["_resume_key"].text) else None,
         Basic(TextAt(r, "data_source", "unknown"), TextAt(r, "uid", ""), TextAt(r, "input", ""),
               TextAt(r, "output", ""), TextAt(r, "gts", ""), NumberAt(r, "score")),
         r - STRUCTURAL, TurnsIn(r))
  }

  /** A line without key, source, score and turns counts as such: no key, an unknown source, no score, no turns. */
  lemma BareLine(r: Record)
    requires r.Keys !! STRUCTURAL + {"score", "num_turns"}
    ensures var l := Parse(r);
            l.key.None? && l.row.source == "unknown" && l.row.score == 0.0 && l.turns == 0 && l.fields == r
  {
    assert r - STRUCTURAL == r;
  }

  /** What comes back of a sample: the score once more as a reward field, and the turns the fields tell. */
  function Reloaded(s: Sample): Sample {
    s.(turns := Some(TurnsIn(s.extra)), extra := map["score" := Number(s.score)] + Fields(s))
  }

  function LineOf(key: string, s: Sample): Line {
    Line(Some(key), BasicOf(s), Fields(Reloaded(s)), TurnsIn(s.extra))
  }

  lemma ReloadedSample(s: Sample)
    ensures BasicOf(Reloaded(s)) == BasicOf(s) && TurnsOf(Reloaded(s)) == [TurnsIn(s.extra)]
    ensures Fields(Reloaded(s)) == map["score" := Number(s.score)] + Fields(s)
  {
    assert Fields(Reloaded(s)).Keys == {"score", "reward"} + s.extra.Keys;
  }

  lemma FieldKeys(o: Oracle, s: Sample)
    requires o.schema !! STRUCTURAL && o.FollowsSchema(s)
    ensures Fields(s).Keys == {"reward"} + o.schema && Fields(s).Keys !! STRUCTURAL
    ensures "score" in Fields(s) ==> Fields(s)["score"] == Number(s.score)
    ensures "score" in o.schema ==> map["score" := Number(s.score)] + Fields(s) == Fields(s)
  {
    assert "reward" !in STRUCTURAL;
  }

  lemma RecordFields(key: string, s: Sample, step: nat)
    requires Fields(s).Keys !! STRUCTURAL
    ensures RecordOf(key, s, step) - STRUCTURAL == map["score" := Number(s.score)] + Fields(s)
  {
    assert (RecordOf(key, s, step) - STRUCTURAL).Keys == {"score"} + Fields(s).Keys;
  }

  lemma RecordRow(key: string, s: Sample, step: nat)
    requires Fields(s).Keys !! STRUCTURAL && ("score" in Fields(s) ==> Fields(s)["score"] == Number(s.score))
    ensures var line := Parse(RecordOf(key, s, step)); line.row == BasicOf(s) && line.key == Some(key) && line.turns == TurnsIn(s.extra)
  {
    var r := RecordOf(key, s, step);
    assert forall k :: k in STRUCTURAL ==> k !in Fields(s);
    assert r["_resume_key"] == Text(key) && r["data_source"] == Text(s.source) && r["uid"] == Text(s.uid);
    assert r["input"] == Text(s.input) && r["output"] == Text(s.output) && r["gts"] == Text(s.truth);
    assert r["score"] == Number(s.score);
  }

  /** Writing and reloading a row gives the row and its key back; the score turns up among the reward fields. */
  lemma RecordRoundTrip(o: Oracle, key: string, s: Sample)
    requires o.schema !! STRUCTURAL && o.FollowsSchema(s)
    ensures Parse(RecordOf(key, s, o.step)) == LineOf(key, s)
    ensures "score" in o.schema ==> Fields(Reloaded(s)) == Fields(s)
  {
    ReloadedSample(s);
    FieldKeys(o, s);
    RecordFields(key, s, o.step);
    RecordRow(key, s, o.step);
  }

  function Lines(file: seq<Record>): (lines: seq<Line>)
    ensures |lines| == |file|
  {
    seq(|file|, i requires 0 <= i < |file| => Parse(file[i]))
  }

  function Seeded(acc: Accumulators, lines: seq<Line>): Accumulators {
    if lines == [] then acc
    else
      var l := lines[|lines| - 1];
      AddRow(Seeded(acc, lines[..|lines| - 1]), l.row, l.fields, [l.turns])
  }

  function KeysIn(lines: seq<Line>): set<string> {
    if lines == [] then {}
    else
      var l := lines[|lines| - 1];
      KeysIn(lines[..|lines| - 1]) + if l.key.Some? then {l.key.value} else {}
  }

  lemma {:induction false} SeededConcat(acc: Accumulators, a: seq<Line>, b: seq<Line>)
    ensures Seeded(acc, a + b) == Seeded(Seeded(acc, a), b)
    ensures KeysIn(a + b) == KeysIn(a) + KeysIn(b)
    decreases |b|
  {
    if b == [] {
      assert a + b == a;
    } else {
      assert (a + b)[..|a| + |b| - 1] == a + b[..|b| - 1];
      SeededConcat(acc, a, b[..|b| - 1]);
    }
  }

  // ----- prompts, chunks and runs -----

  function SamplesOf(o: Oracle, prompts: seq<Prompt>): seq<Sample> {
    if prompts == [] then [] else SamplesOf(o, prompts[..|prompts| - 1]) + o.rollouts(prompts[|prompts| - 1])
  }

  /** The lines of one prompt: `n` contiguous rows with its key. */
  function RecordsOfPrompt(o: Oracle, p: Prompt): seq<Record> {
    seq(|o.rollouts(p)|, j requires 0 <= j < |o.rollouts(p)| => RecordOf(p.key, o.rollouts(p)[j], o.step))
  }

  function RecordsOf(o: Oracle, prompts: seq<Prompt>): seq<Record> {
    if prompts == [] then [] else RecordsOf(o, prompts[..|prompts| - 1]) + RecordsOfPrompt(o, prompts[|prompts| - 1])
  }

  function KeysOf(prompts: seq<Prompt>): set<string> {
    if prompts == [] then {} else KeysOf(prompts[..|prompts| - 1]) + {prompts[|prompts| - 1].key}
  }

  lemma {:induction false} KeyMember(prompts: seq<Prompt>, key: string)
    ensures key in KeysOf(prompts) <==> exists i :: 0 <= i < |prompts| && prompts[i].key == key
  {
    if prompts != [] {
      var last := |prompts| - 1;
      KeyMember(prompts[..last], key);
      assert (exists i :: 0 <= i < |prompts| && prompts[i].key == key) <==>
             (exists i :: 0 <= i < last && prompts[..last][i].key == key) || prompts[last].key == key;
    }
  }

  lemma {:induction false} KeysJoin(a: seq<Prompt>, b: seq<Prompt>)
    ensures KeysOf(a + b) == KeysOf(a) + KeysOf(b)
    decreases |b|
  {
    if b == [] {
      assert a + b == a;
    } else {
      var last := |b| - 1;
      assert (a + b)[..|a| + last] == a + b[..last];
      KeysJoin(a, b[..last]);
    }
  }

  /** The prompts of a chunk that are still to do. */
  function Remaining(chunk: seq<Prompt>, completed: set<string>): seq<Prompt> {
    if chunk == [] then []
    else
      var last := |chunk| - 1;
      Remaining(chunk[..last], completed) + if chunk[last].key in completed then [] else [chunk[last]]
  }

  datatype RunState = RunState(file: seq<Record>, acc: Accumulators, completed: set<string>)

  function Begin(file: seq<Record>): RunState {
    RunState(file, Seeded(NOTHING, Lines(file)), KeysIn(Lines(file)))
  }

  function AfterChunk(o: Oracle, s: RunState, chunk: seq<Prompt>): RunState {
    var kept := Remaining(chunk, s.completed);
    RunState(s.file + RecordsOf(o, kept), Folded(s.acc, SamplesOf(o, kept)), s.completed + KeysOf(kept))
  }

  function AfterChunks(o: Oracle, s: RunState, chunks: seq<seq<Prompt>>): RunState {
    if chunks == [] then s
    else AfterChunk(o, AfterChunks(o, s, chunks[..|chunks| - 1]), chunks[|chunks| - 1])
  }

  class Validator {
    const oracle: Oracle
    var file: seq<Record>
    var acc: Accumulators
    var completedKeys: set<string>

    constructor (oracle: Oracle)
      ensures this.oracle == oracle && View() == Begin([])
    {
      this.oracle := oracle;
      file, acc, completedKeys := [], NOTHING, {};
    }

    function View(): RunState
      reads this
    {
      RunState(file, acc, completedKeys)
    }

    /** A new process: everything but the dump is gone and is reloaded from it. */
    method Restart()
      modifies this
      ensures View() == Begin(old(file))
    {
      acc, completedKeys := NOTHING, {};
      for i := 0 to |file|
        invariant file == old(file)
        invariant acc == Seeded(NOTHING, Lines(file)[..i]) && completedKeys == KeysIn(Lines(file)[..i])
      {
        assert Lines(file)[..i + 1][..i] == Lines(file)[..i];
        var line := Parse(file[i]);
        if line.key.Some? {
          completedKeys := completedKeys + {line.key.value};
        }
        acc := AddRow(acc, line.row, line.fields, [line.turns]);
      }
      assert Lines(file)[..|file|] == Lines(file);
    }

    method KeepRemaining(chunk: seq<Prompt>) returns (kept: seq<Prompt>)
      ensures kept == Remaining(chunk, completedKeys)
    {
      kept := [];
      for i := 0 to |chunk|
        invariant kept == Remaining(chunk[..i], completedKeys)
      {
        assert chunk[..i + 1][..i] == chunk[..i];
        if chunk[i].key !in completedKeys {
          kept := kept + [chunk[i]];
        }
      }
      assert chunk[..|chunk|] == chunk;
    }

    /** One chunk: generate what is missing, extend the accumulators, append the lines in one write. */
    method Chunk(chunk: seq<Prompt>)
      requires oracle.Valid()
      modifies this
      ensures View() == AfterChunk(oracle, old(View()), chunk)
    {
      var kept := KeepRemaining(chunk);
      if kept == [] {
        return;
      }
      var samples := SamplesOf(oracle, kept);
      SamplesFollow(oracle, kept);
      ExtendedIsFolded(acc, samples, {"reward"} + oracle.schema);
      acc := Extended(acc, samples, {"reward"} + oracle.schema);
      file := file + RecordsOf(oracle, kept);
      completedKeys := completedKeys + KeysOf(kept);
    }
  }

  lemma {:induction false} SamplesFollow(o: Oracle, prompts: seq<Prompt>)
    requires o.Valid()
    ensures |SamplesOf(o, prompts)| == |prompts| * o.n
    ensures forall i :: 0 <= i < |SamplesOf(o, prompts)| ==> o.FollowsSchema(SamplesOf(o, prompts)[i])
    ensures HaveFields(SamplesOf(o, prompts), {"reward"} + o.schema)
    ensures prompts != [] ==> SamplesOf(o, prompts) != []
  {
    if prompts != [] {
      var last := |prompts| - 1;
      SamplesFollow(o, prompts[..last]);
      assert o.Answers(prompts[last]);
      assert |prompts| * o.n == last * o.n + o.n;
    }
  }

  // ----- where a run stands -----

  ghost predicate DistinctKeys(prompts: seq<Prompt>) {
    forall i, j :: 0 <= i < j < |prompts| ==> prompts[i].key != prompts[j].key
  }

  function ReloadedAll(samples: seq<Sample>): (r: seq<Sample>)
    ensures |r| == |samples|
  {
    seq(|samples|, i requires 0 <= i < |samples| => Reloaded(samples[i]))
  }

  /** The samples up to prompt `m` as a run sees them that reloaded the first `loaded` prompts. */
  function Seen(o: Oracle, prompts: seq<Prompt>, loaded: nat, m: nat): seq<Sample>
    requires loaded <= m <= |prompts|
  {
    ReloadedAll(SamplesOf(o, prompts[..loaded])) + SamplesOf(o, prompts[loaded..m])
  }

  /** The first `m` prompts are done, all of them and nothing else, and the first `loaded` come from the dump. */
  ghost predicate Stands(o: Oracle, prompts: seq<Prompt>, loaded: nat, m: nat, s: RunState) {
    loaded <= m <= |prompts| && s.file == RecordsOf(o, prompts[..m]) && s.completed == KeysOf(prompts[..m]) &&
    s.acc == Folded(NOTHING, Seen(o, prompts, loaded, m))
  }

  lemma {:induction false} SamplesConcat(o: Oracle, a: seq<Prompt>, b: seq<Prompt>)
    ensures SamplesOf(o, a + b) == SamplesOf(o, a) + SamplesOf(o, b)
    decreases |b|
  {
    if b == [] {
      assert a + b == a;
    } else {
      var last := |b| - 1;
      assert (a + b)[..|a| + last] == a + b[..last];
      SamplesConcat(o, a, b[..last]);
    }
  }

  lemma {:induction false} RecordsConcat(o: Oracle, a: seq<Prompt>, b: seq<Prompt>)
    ensures RecordsOf(o, a + b) == RecordsOf(o, a) + RecordsOf(o, b)
    decreases |b|
  {
    if b == [] {
      assert a + b == a;
    } else {
      var last := |b| - 1;
      assert (a + b)[..|a| + last] == a + b[..last];
      RecordsConcat(o, a, b[..last]);
    }
  }

  lemma {:induction false} RemainingJoin(a: seq<Prompt>, b: seq<Prompt>, completed: set<string>)
    ensures Remaining(a + b, completed) == Remaining(a, completed) + Remaining(b, completed)
    decreases |b|
  {
    if b == [] {
      assert a + b == a;
    } else {
      var last := |b| - 1;
      assert (a + b)[..|a| + last] == a + b[..last];
      RemainingJoin(a, b[..last], completed);
      Regroup(Remaining(a, completed), Remaining(b[..last], completed), if b[last].key in completed then [] else [b[last]]);
    }
  }

  ghost predicate NoneDone(chunk: seq<Prompt>, completed: set<string>) {
    forall i :: 0 <= i < |chunk| ==> chunk[i].key !in completed
  }

  lemma {:induction false} AllRemain(chunk: seq<Prompt>, completed: set<string>)
    requires NoneDone(chunk, completed)
    ensures Remaining(chunk, completed) == chunk
  {
    if chunk != [] {
      AllRemain(chunk[..|chunk| - 1], completed);
    }
  }

  lemma {:induction false} NoneRemain(chunk: seq<Prompt>, completed: set<string>)
    requires forall i :: 0 <= i < |chunk| ==> chunk[i].key in completed
    ensures Remaining(chunk, completed) == []
  {
    if chunk != [] {
      NoneRemain(chunk[..|chunk| - 1], completed);
    }
  }

  /** The first `m` prompts are completed, and no others. */
  ghost predicate FirstCompleted(prompts: seq<Prompt>, m: nat, completed: set<string>) {
    m <= |prompts| && forall i :: 0 <= i < |prompts| ==> (prompts[i].key in completed <==> i < m)
  }

  lemma DoneStretch(prompts: seq<Prompt>, m: nat, completed: set<string>, lo: nat, hi: nat)
    requires FirstCompleted(prompts, m, completed) && lo <= hi <= m
    ensures Remaining(prompts[lo..hi], completed) == []
  {
    forall i | 0 <= i < hi - lo ensures prompts[lo..hi][i].key in completed {
      assert prompts[lo..hi][i] == prompts[lo + i];
    }
    NoneRemain(prompts[lo..hi], completed);
  }

  lemma OpenStretch(prompts: seq<Prompt>, m: nat, completed: set<string>, hi: nat)
    requires FirstCompleted(prompts, m, completed) && m <= hi <= |prompts|
    ensures Remaining(prompts[m..hi], completed) == prompts[m..hi]
  {
    forall i | 0 <= i < hi - m ensures prompts[m..hi][i].key !in completed {
      assert prompts[m..hi][i] == prompts[m + i];
    }
    AllRemain(prompts[m..hi], completed);
  }

  lemma DoneThenOpen(done: seq<Prompt>, open: seq<Prompt>, completed: set<string>)
    requires Remaining(done, completed) == [] && Remaining(open, completed) == open
    ensures Remaining(done + open, completed) == open
  {
    RemainingJoin(done, open, completed);
  }

  lemma SplitStretch(prompts: seq<Prompt>, lo: nat, m: nat, hi: nat)
    requires lo <= m <= hi <= |prompts|
    ensures prompts[lo..hi] == prompts[lo..m] + prompts[m..hi]
  {
  }

  /** Of a stretch of the prompts, what is beyond the first `m` remains. */
  lemma RemainingStretch(prompts: seq<Prompt>, m: nat, completed: set<string>, lo: nat, hi: nat)
    requires FirstCompleted(prompts, m, completed) && lo <= m <= hi <= |prompts|
    ensures Remaining(prompts[lo..hi], completed) == prompts[m..hi]
  {
    DoneStretch(prompts, m, completed, lo, m);
    OpenStretch(prompts, m, completed, hi);
    DoneThenOpen(prompts[lo..m], prompts[m..hi], completed);
    SplitStretch(prompts, lo, m, hi);
  }

  lemma KeyIsDone(prompts: seq<Prompt>, m: nat, i: nat)
    requires DistinctKeys(prompts) && m <= |prompts| && i < |prompts|
    ensures prompts[i].key in KeysOf(prompts[..m]) <==> i < m
  {
    KeyMember(prompts[..m], prompts[i].key);
    if i < m {
      assert prompts[..m][i].key == prompts[i].key;
    } else {
      forall j | 0 <= j < m ensures prompts[..m][j].key != prompts[i].key {
        assert prompts[..m][j] == prompts[j];
      }
    }
  }

  lemma NothingRemains(o: Oracle, s: RunState, chunk: seq<Prompt>)
    requires Remaining(chunk, s.completed) == []
    ensures AfterChunk(o, s, chunk) == s
  {
    assert s.file + [] == s.file && s.completed + {} == s.completed;
  }

  lemma SeenFurther(o: Oracle, prompts: seq<Prompt>, loaded: nat, m: nat, hi: nat)
    requires loaded <= m <= hi <= |prompts|
    ensures Seen(o, prompts, loaded, hi) == Seen(o, prompts, loaded, m) + SamplesOf(o, prompts[m..hi])
  {
    SamplesConcat(o, prompts[loaded..m], prompts[m..hi]);
    assert prompts[loaded..hi] == prompts[loaded..m] + prompts[m..hi];
    Regroup(ReloadedAll(SamplesOf(o, prompts[..loaded])), SamplesOf(o, prompts[loaded..m]), SamplesOf(o, prompts[m..hi]));
  }

  lemma StretchAccumulates(o: Oracle, prompts: seq<Prompt>, loaded: nat, m: nat, hi: nat)
    requires loaded <= m <= hi <= |prompts|
    ensures Folded(Folded(NOTHING, Seen(o, prompts, loaded, m)), SamplesOf(o, prompts[m..hi])) ==
            Folded(NOTHING, Seen(o, prompts, loaded, hi))
  {
    SeenFurther(o, prompts, loaded, m, hi);
    FoldedConcat(NOTHING, Seen(o, prompts, loaded, m), SamplesOf(o, prompts[m..hi]));
  }

  lemma StretchRecords(o: Oracle, prompts: seq<Prompt>, m: nat, hi: nat)
    requires m <= hi <= |prompts|
    ensures RecordsOf(o, prompts[..hi]) == RecordsOf(o, prompts[..m]) + RecordsOf(o, prompts[m..hi])
    ensures KeysOf(prompts[..hi]) == KeysOf(prompts[..m]) + KeysOf(prompts[m..hi])
  {
    assert prompts[..m] + prompts[m..hi] == prompts[..hi];
    RecordsConcat(o, prompts[..m], prompts[m..hi]);
    KeysJoin(prompts[..m], prompts[m..hi]);
  }

  lemma StretchStands(o: Oracle, prompts: seq<Prompt>, loaded: nat, m: nat, s: RunState, hi: nat, chunk: seq<Prompt>)
    requires m <= hi <= |prompts| && Stands(o, prompts, loaded, m, s) && Remaining(chunk, s.completed) == prompts[m..hi]
    ensures Stands(o, prompts, loaded, hi, AfterChunk(o, s, chunk))
  {
    StretchRecords(o, prompts, m, hi);
    StretchAccumulates(o, prompts, loaded, m, hi);
  }

  /** A chunk brings the run forward to its end, unless the run was there already. */
  lemma ChunkAdvances(o: Oracle, prompts: seq<Prompt>, loaded: nat, m: nat, s: RunState, lo: nat, hi: nat)
    requires DistinctKeys(prompts) && Stands(o, prompts, loaded, m, s) && lo <= hi <= |prompts| && lo <= m
    ensures Stands(o, prompts, loaded, Max(m, hi), AfterChunk(o, s, prompts[lo..hi]))
  {
    forall i | 0 <= i < |prompts| ensures prompts[i].key in s.completed <==> i < m {
      KeyIsDone(prompts, m, i);
    }
    if hi <= m {
      DoneStretch(prompts, m, s.completed, lo, hi);
      NothingRemains(o, s, prompts[lo..hi]);
    } else {
      RemainingStretch(prompts, m, s.completed, lo, hi);
      StretchStands(o, prompts, loaded, m, s, hi, prompts[lo..hi]);
    }
  }

  function Max(a: nat, b: nat): nat {
    if a < b then b else a
  }

  lemma LastStretch(chunks: seq<seq<Prompt>>, prompts: seq<Prompt>)
    requires chunks != [] && Flatten(chunks) <= prompts
    ensures var before := Flatten(chunks[..|chunks| - 1]);
            before <= prompts && |before| <= |Flatten(chunks)| &&
            chunks[|chunks| - 1] == prompts[|before|..|Flatten(chunks)|]
  {
    var before, last := Flatten(chunks[..|chunks| - 1]), chunks[|chunks| - 1];
    assert Flatten(chunks) == before + last;
    assert prompts[..|Flatten(chunks)|] == before + last;
  }

  /** After some chunks of the dataset the run stands at their end or where the dump already was. */
  lemma {:induction false} ChunksAdvance(o: Oracle, prompts: seq<Prompt>, loaded: nat, m: nat, s: RunState, chunks: seq<seq<Prompt>>)
    requires DistinctKeys(prompts) && Stands(o, prompts, loaded, m, s) && Flatten(chunks) <= prompts
    ensures Stands(o, prompts, loaded, Max(m, |Flatten(chunks)|), AfterChunks(o, s, chunks))
  {
    if chunks != [] {
      var last := |chunks| - 1;
      var before := |Flatten(chunks[..last])|;
      LastStretch(chunks, prompts);
      ChunksAdvance(o, prompts, loaded, m, s, chunks[..last]);
      ChunkAdvances(o, prompts, loaded, Max(m, before), AfterChunks(o, s, chunks[..last]), before, |Flatten(chunks)|);
    }
  }

  // ----- restarting -----

  function LinesOfRows(key: string, samples: seq<Sample>): (lines: seq<Line>)
    ensures |lines| == |samples|
  {
    seq(|samples|, i requires 0 <= i < |samples| => LineOf(key, samples[i]))
  }

  function LinesOf(o: Oracle, prompts: seq<Prompt>): seq<Line> {
    if prompts == [] then []
    else
      var p := prompts[|prompts| - 1];
      LinesOf(o, prompts[..|prompts| - 1]) + LinesOfRows(p.key, o.rollouts(p))
  }

  lemma LinesOfPrompt(o: Oracle, p: Prompt)
    requires o.Valid()
    ensures Lines(RecordsOfPrompt(o, p)) == LinesOfRows(p.key, o.rollouts(p))
  {
    assert o.Answers(p);
    forall j | 0 <= j < o.n ensures Lines(RecordsOfPrompt(o, p))[j] == LineOf(p.key, o.rollouts(p)[j]) {
      RecordRoundTrip(o, p.key, o.rollouts(p)[j]);
    }
  }

  lemma LinesConcat(a: seq<Record>, b: seq<Record>)
    ensures Lines(a + b) == Lines(a) + Lines(b)
  {
  }

  /** The dump of some prompts reads back as their rows. */
  lemma {:induction false} LinesOfRecords(o: Oracle, prompts: seq<Prompt>)
    requires o.Valid()
    ensures Lines(RecordsOf(o, prompts)) == LinesOf(o, prompts)
  {
    if prompts != [] {
      var last := |prompts| - 1;
      LinesOfRecords(o, prompts[..last]);
      LinesOfPrompt(o, prompts[last]);
      LinesConcat(RecordsOf(o, prompts[..last]), RecordsOfPrompt(o, prompts[last]));
    }
  }

  lemma {:induction false} SeedRows(key: string, samples: seq<Sample>, acc: Accumulators)
    ensures Seeded(acc, LinesOfRows(key, samples)) == Folded(acc, ReloadedAll(samples))
    ensures KeysIn(LinesOfRows(key, samples)) == if samples == [] then {} else {key}
  {
    if samples != [] {
      var last := |samples| - 1;
      SeedRows(key, samples[..last], acc);
      assert LinesOfRows(key, samples)[..last] == LinesOfRows(key, samples[..last]);
      assert ReloadedAll(samples)[..last] == ReloadedAll(samples[..last]);
      ReloadedSample(samples[last]);
    }
  }

  lemma ReloadedConcat(a: seq<Sample>, b: seq<Sample>)
    ensures ReloadedAll(a + b) == ReloadedAll(a) + ReloadedAll(b)
  {
  }

  lemma SeedPrompt(key: string, lines: seq<Line>, samples: seq<Sample>, rows: seq<Sample>)
    requires rows != [] && Seeded(NOTHING, lines) == Folded(NOTHING, ReloadedAll(samples))
    ensures Seeded(NOTHING, lines + LinesOfRows(key, rows)) == Folded(NOTHING, ReloadedAll(samples + rows))
    ensures KeysIn(lines + LinesOfRows(key, rows)) == KeysIn(lines) + {key}
  {
    SeededConcat(NOTHING, lines, LinesOfRows(key, rows));
    SeedRows(key, rows, Folded(NOTHING, ReloadedAll(samples)));
    FoldedConcat(NOTHING, ReloadedAll(samples), ReloadedAll(rows));
    ReloadedConcat(samples, rows);
  }

  /** Reloading a dump gives the accumulators of its prompts, as far as their lines tell, and their keys. */
  lemma {:induction false} SeedPrompts(o: Oracle, prompts: seq<Prompt>)
    requires o.Valid()
    ensures Seeded(NOTHING, LinesOf(o, prompts)) == Folded(NOTHING, ReloadedAll(SamplesOf(o, prompts)))
    ensures KeysIn(LinesOf(o, prompts)) == KeysOf(prompts)
  {
    if prompts != [] {
      var last := |prompts| - 1;
      SeedPrompts(o, prompts[..last]);
      assert o.Answers(prompts[last]);
      SeedPrompt(prompts[last].key, LinesOf(o, prompts[..last]), SamplesOf(o, prompts[..last]), o.rollouts(prompts[last]));
    }
  }

  lemma RestartStands(o: Oracle, prompts: seq<Prompt>, m: nat)
    requires o.Valid() && m <= |prompts|
    ensures Stands(o, prompts, m, m, Begin(RecordsOf(o, prompts[..m])))
  {
    LinesOfRecords(o, prompts[..m]);
    SeedPrompts(o, prompts[..m]);
    assert prompts[m..m] == [];
    var reloaded := ReloadedAll(SamplesOf(o, prompts[..m]));
    assert reloaded + [] == reloaded;
  }

  // ----- crashes -----

  /** A run that crashed: how it cut the dataset into chunks, and how many of them it got through. */
  datatype Crash = Crash(chunks: seq<seq<Prompt>>, finished: nat)

  ghost predicate AreCrashes(prompts: seq<Prompt>, crashes: seq<Crash>) {
    forall i :: 0 <= i < |crashes| ==> Flatten(crashes[i].chunks) == prompts && crashes[i].finished <= |crashes[i].chunks|
  }

  /** The dump after the crashed runs, each started on what the one before left. */
  function DumpAfter(o: Oracle, prompts: seq<Prompt>, crashes: seq<Crash>): seq<Record>
    requires AreCrashes(prompts, crashes)
  {
    if crashes == [] then []
    else
      var last := |crashes| - 1;
      AfterChunks(o, Begin(DumpAfter(o, prompts, crashes[..last])), crashes[last].chunks[..crashes[last].finished]).file
  }

  /** Where the run stands that follows the crashed ones and gets through its chunks. */
  function Resumed(o: Oracle, prompts: seq<Prompt>, crashes: seq<Crash>, chunks: seq<seq<Prompt>>): RunState
    requires AreCrashes(prompts, crashes)
  {
    AfterChunks(o, Begin(DumpAfter(o, prompts, crashes)), chunks)
  }

  /** Where a run stands that never crashed, with the whole dataset as one chunk. */
  function Uninterrupted(o: Oracle, prompts: seq<Prompt>): RunState {
    AfterChunks(o, Begin([]), [prompts])
  }

  lemma {:induction false} PrefixOfChunks(chunks: seq<seq<Prompt>>, k: nat)
    requires k <= |chunks|
    ensures Flatten(chunks[..k]) <= Flatten(chunks)
    decreases |chunks|
  {
    if k == |chunks| {
      assert chunks[..k] == chunks;
    } else {
      var last := |chunks| - 1;
      PrefixOfChunks(chunks[..last], k);
      assert chunks[..last][..k] == chunks[..k];
    }
  }

  lemma {:induction false} RecordsSize(o: Oracle, prompts: seq<Prompt>)
    requires o.Valid()
    ensures |RecordsOf(o, prompts)| == |prompts| * o.n
  {
    if prompts != [] {
      var last := |prompts| - 1;
      RecordsSize(o, prompts[..last]);
      assert o.Answers(prompts[last]);
      assert |prompts| * o.n == last * o.n + o.n;
    }
  }

  /** Whatever crashed when, the dump holds the lines of the first prompts, once each and in order. */
  lemma {:induction false} DumpIsPrefix(o: Oracle, prompts: seq<Prompt>, crashes: seq<Crash>) returns (m: nat)
    requires o.Valid() && DistinctKeys(prompts) && AreCrashes(prompts, crashes)
    ensures m <= |prompts| && DumpAfter(o, prompts, crashes) == RecordsOf(o, prompts[..m])
    ensures |DumpAfter(o, prompts, crashes)| == m * o.n
  {
    m := 0;
    if crashes != [] {
      var last := |crashes| - 1;
      var before := DumpIsPrefix(o, prompts, crashes[..last]);
      RestartStands(o, prompts, before);
      var chunks := crashes[last].chunks[..crashes[last].finished];
      PrefixOfChunks(crashes[last].chunks, crashes[last].finished);
      ChunksAdvance(o, prompts, before, before, Begin(DumpAfter(o, prompts, crashes[..last])), chunks);
      m := Max(before, |Flatten(chunks)|);
    }
    RecordsSize(o, prompts[..m]);
  }

  /** After any crashes the run that gets through stands at the end, with the dumped prompts reloaded. */
  lemma ResumedStands(o: Oracle, prompts: seq<Prompt>, crashes: seq<Crash>, chunks: seq<seq<Prompt>>) returns (m: nat)
    requires o.Valid() && DistinctKeys(prompts) && AreCrashes(prompts, crashes) && Flatten(chunks) == prompts
    ensures m <= |prompts| && |DumpAfter(o, prompts, crashes)| == m * o.n
    ensures Stands(o, prompts, m, |prompts|, Resumed(o, prompts, crashes, chunks))
  {
    m := DumpIsPrefix(o, prompts, crashes);
    RestartStands(o, prompts, m);
    ChunksAdvance(o, prompts, m, m, Begin(DumpAfter(o, prompts, crashes)), chunks);
  }

  lemma UninterruptedStands(o: Oracle, prompts: seq<Prompt>)
    requires o.Valid() && DistinctKeys(prompts)
    ensures Stands(o, prompts, 0, |prompts|, Uninterrupted(o, prompts))
    ensures Uninterrupted(o, prompts).acc == Folded(NOTHING, SamplesOf(o, prompts))
  {
    assert DumpAfter(o, prompts, []) == [];
    assert [prompts][..0] == [] && Flatten([prompts]) == Flatten([]) + prompts == prompts;
    RestartStands(o, prompts, 0);
    assert RecordsOf(o, prompts[..0]) == [];
    ChunksAdvance(o, prompts, 0, 0, Begin([]), [prompts]);
    assert prompts[..0] == [] && prompts[0..|prompts|] == prompts;
    assert ReloadedAll(SamplesOf(o, [])) == [];
    assert Seen(o, prompts, 0, |prompts|) == SamplesOf(o, prompts);
  }

  // ----- comparing the columns -----

  lemma {:induction false} ColumnJoin(a: seq<Sample>, b: seq<Sample>, key: string)
    ensures Column(a + b, key) == Column(a, key) + Column(b, key)
    decreases |b|
  {
    if b == [] {
      assert a + b == a;
    } else {
      var last := |b| - 1;
      var s := b[last];
      assert (a + b)[..|a| + last] == a + b[..last];
      ColumnJoin(a, b[..last], key);
      Regroup(Column(a, key), Column(b[..last], key), if key in Fields(s) then [Fields(s)[key]] else []);
    }
  }

  lemma {:induction false} TurnColumnJoin(a: seq<Sample>, b: seq<Sample>)
    ensures TurnColumn(a + b) == TurnColumn(a) + TurnColumn(b)
    decreases |b|
  {
    if b == [] {
      assert a + b == a;
    } else {
      var last := |b| - 1;
      assert (a + b)[..|a| + last] == a + b[..last];
      TurnColumnJoin(a, b[..last]);
      Regroup(TurnColumn(a), TurnColumn(b[..last]), TurnsOf(b[last]));
    }
  }

  lemma {:induction false} FullColumn(samples: seq<Sample>, key: string)
    requires forall i :: 0 <= i < |samples| ==> key in Fields(samples[i])
    ensures |Column(samples, key)| == |samples|
    ensures forall i :: 0 <= i < |samples| ==> Column(samples, key)[i] == Fields(samples[i])[key]
  {
    if samples != [] {
      FullColumn(samples[..|samples| - 1], key);
    }
  }

  lemma {:induction false} EmptyColumn(samples: seq<Sample>, key: string)
    requires forall i :: 0 <= i < |samples| ==> key !in Fields(samples[i])
    ensures Column(samples, key) == []
  {
    if samples != [] {
      EmptyColumn(samples[..|samples| - 1], key);
    }
  }

  lemma {:induction false} FullTurns(samples: seq<Sample>)
    requires forall i :: 0 <= i < |samples| ==> samples[i].turns.Some?
    ensures |TurnColumn(samples)| == |samples|
    ensures forall i :: 0 <= i < |samples| ==> TurnColumn(samples)[i] == samples[i].turns.value
  {
    if samples != [] {
      FullTurns(samples[..|samples| - 1]);
    }
  }

  lemma {:induction false} NoTurns(samples: seq<Sample>)
    requires forall i :: 0 <= i < |samples| ==> samples[i].turns.None?
    ensures TurnColumn(samples) == []
  {
    if samples != [] {
      NoTurns(samples[..|samples| - 1]);
    }
  }

  /** Reloading changes no column but the score's. */
  lemma {:induction false} ReloadedColumn(samples: seq<Sample>, key: string)
    requires key != "score" || forall i :: 0 <= i < |samples| ==> Fields(Reloaded(samples[i])) == Fields(samples[i])
    ensures Column(ReloadedAll(samples), key) == Column(samples, key)
  {
    if samples != [] {
      var last := |samples| - 1;
      assert ReloadedAll(samples)[..last] == ReloadedAll(samples[..last]);
      ReloadedColumn(samples[..last], key);
      ReloadedSample(samples[last]);
    }
  }

  lemma ReloadedScores(samples: seq<Sample>)
    ensures |Column(ReloadedAll(samples), "score")| == |samples|
  {
    forall i | 0 <= i < |samples| ensures "score" in Fields(ReloadedAll(samples)[i]) {
      ReloadedSample(samples[i]);
    }
    FullColumn(ReloadedAll(samples), "score");
  }

  lemma ReloadedTurns(samples: seq<Sample>)
    ensures |TurnColumn(ReloadedAll(samples))| == |samples|
    ensures forall i :: 0 <= i < |samples| ==> TurnColumn(ReloadedAll(samples))[i] == TurnsIn(samples[i].extra)
  {
    FullTurns(ReloadedAll(samples));
  }

  /** From nothing, a field's list is its column, and only empty columns have no list. */
  lemma {:induction false} FoldedColumn(samples: seq<Sample>, key: string)
    ensures ListOf(Folded(NOTHING, samples).extra, key) == Column(samples, key)
    ensures key in Folded(NOTHING, samples).extra <==> Column(samples, key) != []
  {
    if samples != [] {
      var last := |samples| - 1;
      FoldedColumn(samples[..last], key);
      AddFieldsList(Folded(NOTHING, samples[..last]).extra, Fields(samples[last]), key);
    }
  }

  lemma SameColumns(a: seq<Sample>, b: seq<Sample>)
    requires forall key :: Column(a, key) == Column(b, key)
    ensures Folded(NOTHING, a).extra == Folded(NOTHING, b).extra
  {
    var fa, fb := Folded(NOTHING, a).extra, Folded(NOTHING, b).extra;
    forall key ensures (key in fa <==> key in fb) && ListOf(fa, key) == ListOf(fb, key) {
      FoldedColumn(a, key);
      FoldedColumn(b, key);
    }
    SameFields(fa, fb);
  }

  ghost predicate AllFollow(o: Oracle, samples: seq<Sample>) {
    forall i :: 0 <= i < |samples| ==> o.FollowsSchema(samples[i])
  }

  /** The columns of a run that reloaded the samples `a` and then did `b`. */
  lemma SeenColumn(o: Oracle, a: seq<Sample>, b: seq<Sample>, key: string)
    requires o.schema !! STRUCTURAL && AllFollow(o, a) && AllFollow(o, b)
    ensures key != "score" || "score" in o.schema ==> Column(ReloadedAll(a) + b, key) == Column(a + b, key)
    ensures "score" !in o.schema ==> |Column(ReloadedAll(a) + b, "score")| == |a| && Column(a + b, "score") == []
  {
    ColumnJoin(ReloadedAll(a), b, key);
    ColumnJoin(a, b, key);
    if key != "score" || "score" in o.schema {
      forall i | 0 <= i < |a| && "score" in o.schema ensures Fields(Reloaded(a[i])) == Fields(a[i]) {
        RecordRoundTrip(o, "", a[i]);
      }
      ReloadedColumn(a, key);
    }
    if "score" !in o.schema {
      ReloadedScores(a);
      ColumnJoin(ReloadedAll(a), b, "score");
      EmptyColumn(b, "score");
      EmptyColumn(a + b, "score");
    }
  }

  lemma SeenFieldsIff(o: Oracle, a: seq<Sample>, b: seq<Sample>)
    requires o.schema !! STRUCTURAL && AllFollow(o, a) && AllFollow(o, b)
    ensures Folded(NOTHING, ReloadedAll(a) + b).extra == Folded(NOTHING, a + b).extra <==> "score" in o.schema || a == []
  {
    if a == [] {
      assert ReloadedAll(a) + b == a + b;
    } else if "score" in o.schema {
      forall key ensures Column(ReloadedAll(a) + b, key) == Column(a + b, key) {
        SeenColumn(o, a, b, key);
      }
      SameColumns(ReloadedAll(a) + b, a + b);
    } else {
      SeenColumn(o, a, b, "score");
      FoldedColumn(ReloadedAll(a) + b, "score");
      FoldedColumn(a + b, "score");
    }
  }

  /** A reloaded line tells as many turns as the batch counted. */
  ghost predicate TellsTurns(s: Sample) {
    s.turns == Some(TurnsIn(s.extra))
  }

  lemma SeenTurnColumn(a: seq<Sample>, b: seq<Sample>)
    ensures Folded(NOTHING, ReloadedAll(a) + b).turns == TurnColumn(ReloadedAll(a)) + TurnColumn(b)
  {
    FoldedTurns(NOTHING, ReloadedAll(a) + b);
    TurnColumnJoin(ReloadedAll(a), b);
  }

  lemma BatchTurns(o: Oracle, b: seq<Sample>)
    requires AllFollow(o, b)
    ensures |TurnColumn(b)| == if o.counted then |b| else 0
    ensures o.counted ==> forall k :: 0 <= k < |b| ==> TurnColumn(b)[k] == b[k].turns.value
  {
    if o.counted { FullTurns(b); } else { NoTurns(b); }
  }

  lemma SeenTurns(o: Oracle, a: seq<Sample>, b: seq<Sample>)
    requires AllFollow(o, a) && AllFollow(o, b)
    ensures var turns := Folded(NOTHING, ReloadedAll(a) + b).turns;
            |turns| == |a| + (if o.counted then |b| else 0) &&
            (forall k :: 0 <= k < |a| ==> turns[k] == TurnsIn(a[k].extra)) &&
            (o.counted ==> forall k :: 0 <= k < |b| ==> turns[|a| + k] == b[k].turns.value)
  {
    SeenTurnColumn(a, b);
    ReloadedTurns(a);
    BatchTurns(o, b);
  }

  lemma SameBefore<T>(x: seq<T>, y: seq<T>, after: seq<T>)
    ensures x + after == y + after <==> x == y
  {
    if x + after == y + after {
      assert x == (x + after)[..|x|] && y == (y + after)[..|y|];
    }
  }

  lemma ReloadedTurnsIff(o: Oracle, a: seq<Sample>)
    requires AllFollow(o, a)
    ensures TurnColumn(ReloadedAll(a)) == TurnColumn(a) <==> forall k :: 0 <= k < |a| ==> TellsTurns(a[k])
  {
    ReloadedTurns(a);
    if o.counted {
      FullTurns(a);
    } else {
      NoTurns(a);
      assert a != [] ==> !TellsTurns(a[0]);
    }
  }

  lemma TurnsFromNothing(samples: seq<Sample>)
    ensures Folded(NOTHING, samples).turns == TurnColumn(samples)
  {
    FoldedTurns(NOTHING, samples);
    assert [] + TurnColumn(samples) == TurnColumn(samples);
  }

  lemma SeenTurnsIff(o: Oracle, a: seq<Sample>, b: seq<Sample>)
    requires AllFollow(o, a)
    ensures Folded(NOTHING, ReloadedAll(a) + b).turns == Folded(NOTHING, a + b).turns <==>
            forall k :: 0 <= k < |a| ==> TellsTurns(a[k])
  {
    TurnsFromNothing(ReloadedAll(a) + b);
    TurnsFromNothing(a + b);
    TurnColumnJoin(ReloadedAll(a), b);
    TurnColumnJoin(a, b);
    SameBefore(TurnColumn(ReloadedAll(a)), TurnColumn(a), TurnColumn(b));
    ReloadedTurnsIff(o, a);
  }

  lemma FirstTellTurns(all: seq<Sample>, a: seq<Sample>, b: seq<Sample>)
    requires all == a + b
    ensures (forall k :: 0 <= k < |a| ==> TellsTurns(all[k])) <==> forall k :: 0 <= k < |a| ==> TellsTurns(a[k])
  {
    assert forall k :: 0 <= k < |a| ==> all[k] == a[k];
  }

  // ----- the main results -----

  /** The samples of a run that reloaded `m` prompts: the reloaded ones and the others. */
  lemma SplitSamples(o: Oracle, prompts: seq<Prompt>, m: nat) returns (a: seq<Sample>, b: seq<Sample>)
    requires o.Valid() && m <= |prompts|
    ensures a == SamplesOf(o, prompts[..m]) && b == SamplesOf(o, prompts[m..])
    ensures a + b == SamplesOf(o, prompts) && |a| == m * o.n && |a| + |b| == |prompts| * o.n
    ensures Seen(o, prompts, m, |prompts|) == ReloadedAll(a) + b
    ensures AllFollow(o, a) && AllFollow(o, b)
  {
    a, b := SamplesOf(o, prompts[..m]), SamplesOf(o, prompts[m..]);
    SamplesConcat(o, prompts[..m], prompts[m..]);
    assert prompts[..m] + prompts[m..] == prompts;
    assert prompts[m..|prompts|] == prompts[m..];
    SamplesFollow(o, prompts[..m]);
    SamplesFollow(o, prompts[m..]);
    SamplesFollow(o, prompts);
  }

  lemma SeenBasics(a: seq<Sample>, b: seq<Sample>)
    ensures Basics(ReloadedAll(a) + b) == Basics(a + b)
  {
  }

  /** Main result: after any crashes and whatever the chunk sizes, the run that gets through has the dump, the
   *  completed keys and the rows of an uninterrupted run. */
  lemma ResumedRowsAndDump(o: Oracle, prompts: seq<Prompt>, crashes: seq<Crash>, chunks: seq<seq<Prompt>>)
    requires o.Valid() && DistinctKeys(prompts) && AreCrashes(prompts, crashes) && Flatten(chunks) == prompts
    ensures var s, t := Resumed(o, prompts, crashes, chunks), Uninterrupted(o, prompts);
            s.file == t.file && s.completed == t.completed && s.acc.rows == t.acc.rows
    ensures Resumed(o, prompts, crashes, chunks).acc.rows == Basics(SamplesOf(o, prompts))
  {
    var m := ResumedStands(o, prompts, crashes, chunks);
    UninterruptedStands(o, prompts);
    var a, b := SplitSamples(o, prompts, m);
    FoldedRows(NOTHING, ReloadedAll(a) + b);
    FoldedRows(NOTHING, a + b);
    SeenBasics(a, b);
  }

  /** It has the reward fields of an uninterrupted run exactly when the score is one of them or nothing was reloaded,
   *  and its turn counts exactly when every dumped line tells the turns its batch counted. */
  lemma ResumedEqualsUninterruptedIff(o: Oracle, prompts: seq<Prompt>, crashes: seq<Crash>, chunks: seq<seq<Prompt>>)
    requires o.Valid() && DistinctKeys(prompts) && AreCrashes(prompts, crashes) && Flatten(chunks) == prompts
    ensures |DumpAfter(o, prompts, crashes)| <= |SamplesOf(o, prompts)|
    ensures Resumed(o, prompts, crashes, chunks).acc.extra == Uninterrupted(o, prompts).acc.extra <==>
            "score" in o.schema || DumpAfter(o, prompts, crashes) == []
    ensures Resumed(o, prompts, crashes, chunks).acc.turns == Uninterrupted(o, prompts).acc.turns <==>
            forall k :: 0 <= k < |DumpAfter(o, prompts, crashes)| ==> TellsTurns(SamplesOf(o, prompts)[k])
  {
    var m := ResumedStands(o, prompts, crashes, chunks);
    UninterruptedStands(o, prompts);
    var a, b := SplitSamples(o, prompts, m);
    SeenFieldsIff(o, a, b);
    SeenTurnsIff(o, a, b);
    FirstTellTurns(SamplesOf(o, prompts), a, b);
  }

  // ----- the shape of the result -----

  lemma {:induction false} RowsOfPrompt(o: Oracle, prompts: seq<Prompt>, i: nat, j: nat)
    requires o.Valid() && i < |prompts| && j < o.n
    ensures 0 <= i * o.n + j < |SamplesOf(o, prompts)|
    ensures |o.rollouts(prompts[i])| == o.n && SamplesOf(o, prompts)[i * o.n + j] == o.rollouts(prompts[i])[j]
  {
    SamplesFollow(o, prompts);
    InBlock(i, j, |prompts|, o.n);
    assert o.Answers(prompts[i]);
    var last := |prompts| - 1;
    SamplesFollow(o, prompts[..last]);
    if i < last {
      InBlock(i, j, last, o.n);
      RowsOfPrompt(o, prompts[..last], i, j);
    }
  }

  /** A resumed run's list of a reward field is complete, in the order of the samples. */
  lemma ResumedField(o: Oracle, prompts: seq<Prompt>, crashes: seq<Crash>, chunks: seq<seq<Prompt>>, key: string)
    requires o.Valid() && DistinctKeys(prompts) && AreCrashes(prompts, crashes) && Flatten(chunks) == prompts
    requires key == "reward" || key in o.schema
    ensures var samples, list := SamplesOf(o, prompts), ListOf(Resumed(o, prompts, crashes, chunks).acc.extra, key);
            |samples| == |list| == |prompts| * o.n &&
            forall k :: 0 <= k < |samples| ==> key in Fields(samples[k]) && list[k] == Fields(samples[k])[key]
  {
    var m := ResumedStands(o, prompts, crashes, chunks);
    var a, b := SplitSamples(o, prompts, m);
    FoldedColumn(ReloadedAll(a) + b, key);
    SeenColumn(o, a, b, key);
    SamplesFollow(o, prompts);
    FullColumn(a + b, key);
  }

  /** However often the run was resumed, every prompt has its `n` rollouts on contiguous rows, each with its fields. */
  lemma ResultIsComplete(o: Oracle, prompts: seq<Prompt>, crashes: seq<Crash>, chunks: seq<seq<Prompt>>, i: nat, j: nat, key: string)
    requires o.Valid() && DistinctKeys(prompts) && AreCrashes(prompts, crashes) && Flatten(chunks) == prompts
    requires i < |prompts| && j < o.n && (key == "reward" || key in o.schema)
    ensures |o.rollouts(prompts[i])| == o.n && 0 <= i * o.n + j < |prompts| * o.n && key in Fields(o.rollouts(prompts[i])[j])
    ensures var acc, s := Resumed(o, prompts, crashes, chunks).acc, o.rollouts(prompts[i])[j];
            |acc.rows| == |prompts| * o.n && acc.rows[i * o.n + j] == BasicOf(s) &&
            |ListOf(acc.extra, key)| == |acc.rows| && ListOf(acc.extra, key)[i * o.n + j] == Fields(s)[key]
  {
    ResumedRowsAndDump(o, prompts, crashes, chunks);
    SamplesFollow(o, prompts);
    RowsOfPrompt(o, prompts, i, j);
    ResumedField(o, prompts, crashes, chunks, key);
  }
}

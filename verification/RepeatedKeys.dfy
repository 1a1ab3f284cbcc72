/** Validation of prompts that share a resume key: which of them are evaluated, over any crashes and chunk sizes. */
module RepeatedKeys {
  import opened Blocks
  import opened ResumableValidation
  import opened Sequences

  // ----- a restart keeps what matters -----

  ghost predicate KeysAreKnown(s: RunState) {
    s.completed == KeysIn(Lines(s.file))
  }

  lemma ChunkKeepsKeysKnown(o: Oracle, s: RunState, chunk: seq<Prompt>)
    requires o.Valid() && KeysAreKnown(s)
    ensures KeysAreKnown(AfterChunk(o, s, chunk))
  {
    var kept := Remaining(chunk, s.completed);
    LinesConcat(s.file, RecordsOf(o, kept));
    LinesOfRecords(o, kept);
    SeededConcat(NOTHING, Lines(s.file), LinesOf(o, kept));
    SeedPrompts(o, kept);
  }

  /** The prompts evaluated by chunks in this order, when a chunk leaves out the keys of what came before. */
  function Evaluated(chunks: seq<seq<Prompt>>): seq<Prompt> {
    if chunks == [] then []
    else
      var before := Evaluated(chunks[..|chunks| - 1]);
      before + Remaining(chunks[|chunks| - 1], KeysOf(before))
  }

  /** The run has evaluated these prompts, whoever wrote the first lines of its dump. */
  ghost predicate HasEvaluated(o: Oracle, s: RunState, prompts: seq<Prompt>) {
    s.file == RecordsOf(o, prompts) && s.completed == KeysOf(prompts) && |s.acc.rows| == |s.file| && KeysAreKnown(s)
  }

  lemma ChunkRows(o: Oracle, s: RunState, chunk: seq<Prompt>)
    requires o.Valid() && |s.acc.rows| == |s.file|
    ensures |AfterChunk(o, s, chunk).acc.rows| == |AfterChunk(o, s, chunk).file|
  {
    var kept := Remaining(chunk, s.completed);
    SamplesFollow(o, kept);
    RecordsSize(o, kept);
    FoldedRows(s.acc, SamplesOf(o, kept));
  }

  lemma ChunkEvaluates(o: Oracle, s: RunState, before: seq<Prompt>, chunk: seq<Prompt>)
    requires o.Valid() && HasEvaluated(o, s, before)
    ensures HasEvaluated(o, AfterChunk(o, s, chunk), before + Remaining(chunk, s.completed))
  {
    ChunkKeepsKeysKnown(o, s, chunk);
    ChunkRows(o, s, chunk);
    RecordsConcat(o, before, Remaining(chunk, s.completed));
    KeysJoin(before, Remaining(chunk, s.completed));
  }

  lemma LastOfJoined<T>(a: seq<T>, b: seq<T>)
    requires b != []
    ensures (a + b)[..|a + b| - 1] == a + b[..|b| - 1] && (a + b)[|a + b| - 1] == b[|b| - 1]
  {
  }

  lemma {:induction false} ChunksEvaluate(o: Oracle, s: RunState, before: seq<seq<Prompt>>, chunks: seq<seq<Prompt>>)
    requires o.Valid() && HasEvaluated(o, s, Evaluated(before))
    ensures HasEvaluated(o, AfterChunks(o, s, chunks), Evaluated(before + chunks))
  {
    if chunks == [] {
      assert before + chunks == before;
    } else {
      var last := |chunks| - 1;
      ChunksEvaluate(o, s, before, chunks[..last]);
      LastOfJoined(before, chunks);
      ChunkEvaluates(o, AfterChunks(o, s, chunks[..last]), Evaluated(before + chunks[..last]), chunks[last]);
    }
  }

  lemma {:induction false} SeededSize(acc: Accumulators, lines: seq<Line>)
    ensures |Seeded(acc, lines).rows| == |acc.rows| + |lines|
  {
    if lines != [] {
      SeededSize(acc, lines[..|lines| - 1]);
    }
  }

  lemma RestartEvaluated(o: Oracle, s: RunState, prompts: seq<Prompt>)
    requires o.Valid() && HasEvaluated(o, s, prompts)
    ensures HasEvaluated(o, Begin(s.file), prompts)
  {
    SeededSize(NOTHING, Lines(s.file));
    RecordsSize(o, prompts);
  }

  /** All chunks that were gone through, run after run. */
  function Processed(crashes: seq<Crash>): seq<seq<Prompt>>
    requires forall i :: 0 <= i < |crashes| ==> crashes[i].finished <= |crashes[i].chunks|
  {
    if crashes == [] then []
    else Processed(crashes[..|crashes| - 1]) + crashes[|crashes| - 1].chunks[..crashes[|crashes| - 1].finished]
  }

  /** Crashes leave no trace in what is evaluated: it is as if one run had gone through all the chunks. */
  lemma {:induction false} RestartsAreTransparent(o: Oracle, prompts: seq<Prompt>, crashes: seq<Crash>)
    requires o.Valid() && AreCrashes(prompts, crashes)
    ensures HasEvaluated(o, Begin(DumpAfter(o, prompts, crashes)), Evaluated(Processed(crashes)))
  {
    if crashes != [] {
      var last := |crashes| - 1;
      var chunks := crashes[last].chunks[..crashes[last].finished];
      RestartsAreTransparent(o, prompts, crashes[..last]);
      ChunksEvaluate(o, Begin(DumpAfter(o, prompts, crashes[..last])), Processed(crashes[..last]), chunks);
      RestartEvaluated(o, AfterChunks(o, Begin(DumpAfter(o, prompts, crashes[..last])), chunks), Evaluated(Processed(crashes)));
    }
  }

  // ----- counting keys -----

  function KeyBag(prompts: seq<Prompt>): (bag: multiset<string>)
    ensures |bag| == |prompts|
  {
    if prompts == [] then multiset{} else KeyBag(prompts[..|prompts| - 1]) + multiset{prompts[|prompts| - 1].key}
  }

  lemma {:induction false} KeyBagJoin(a: seq<Prompt>, b: seq<Prompt>)
    ensures KeyBag(a + b) == KeyBag(a) + KeyBag(b)
    decreases |b|
  {
    if b == [] {
      assert a + b == a;
    } else {
      LastOfJoined(a, b);
      KeyBagJoin(a, b[..|b| - 1]);
    }
  }

  lemma {:induction false} KeyBagMember(prompts: seq<Prompt>, key: string)
    ensures key in KeyBag(prompts) <==> key in KeysOf(prompts)
  {
    if prompts != [] {
      KeyBagMember(prompts[..|prompts| - 1], key);
    }
  }

  lemma {:induction false} RemainingBag(chunk: seq<Prompt>, completed: set<string>, key: string)
    ensures KeyBag(Remaining(chunk, completed))[key] == if key in completed then 0 else KeyBag(chunk)[key]
  {
    if chunk != [] {
      var last := |chunk| - 1;
      RemainingBag(chunk[..last], completed, key);
      KeyBagJoin(Remaining(chunk[..last], completed), if chunk[last].key in completed then [] else [chunk[last]]);
    }
  }

  /** How often the key occurs in the first of the chunks that have it. */
  function InFirstChunk(chunks: seq<seq<Prompt>>, key: string): nat {
    if chunks == [] then 0
    else
      var before := InFirstChunk(chunks[..|chunks| - 1], key);
      if before > 0 then before else KeyBag(chunks[|chunks| - 1])[key]
  }

  /** Only the first chunk with a key evaluates prompts with it, and it evaluates all that it has. */
  lemma {:induction false} EvaluatedBag(chunks: seq<seq<Prompt>>, key: string)
    ensures KeyBag(Evaluated(chunks))[key] == InFirstChunk(chunks, key)
  {
    if chunks != [] {
      var last := |chunks| - 1;
      var before := Evaluated(chunks[..last]);
      EvaluatedBag(chunks[..last], key);
      KeyBagMember(before, key);
      RemainingBag(chunks[last], KeysOf(before), key);
      KeyBagJoin(before, Remaining(chunks[last], KeysOf(before)));
    }
  }

  lemma {:induction false} InFlatten(chunks: seq<seq<Prompt>>, k: nat, key: string)
    requires k < |chunks|
    ensures KeyBag(chunks[k])[key] <= KeyBag(Flatten(chunks))[key]
  {
    var last := |chunks| - 1;
    KeyBagJoin(Flatten(chunks[..last]), chunks[last]);
    if k < last {
      InFlatten(chunks[..last], k, key);
    }
  }

  ghost predicate PartsOf(chunks: seq<seq<Prompt>>, prompts: seq<Prompt>) {
    forall k :: 0 <= k < |chunks| ==> KeyBag(chunks[k]) <= KeyBag(prompts)
  }

  lemma ChunksArePartsOf(chunks: seq<seq<Prompt>>)
    ensures PartsOf(chunks, Flatten(chunks))
  {
    forall k | 0 <= k < |chunks| ensures KeyBag(chunks[k]) <= KeyBag(Flatten(chunks)) {
      forall key ensures KeyBag(chunks[k])[key] <= KeyBag(Flatten(chunks))[key] {
        InFlatten(chunks, k, key);
      }
    }
  }

  lemma {:induction false} ProcessedArePartsOf(prompts: seq<Prompt>, crashes: seq<Crash>)
    requires AreCrashes(prompts, crashes)
    ensures PartsOf(Processed(crashes), prompts)
  {
    if crashes != [] {
      var last := |crashes| - 1;
      ProcessedArePartsOf(prompts, crashes[..last]);
      ChunksArePartsOf(crashes[last].chunks);
    }
  }

  lemma {:induction false} FirstIsBounded(chunks: seq<seq<Prompt>>, prompts: seq<Prompt>, key: string)
    requires PartsOf(chunks, prompts)
    ensures InFirstChunk(chunks, key) <= KeyBag(prompts)[key]
  {
    if chunks != [] {
      FirstIsBounded(chunks[..|chunks| - 1], prompts, key);
    }
  }

  /** Of two bags with one inside the other. */
  lemma SameSizeBags(a: multiset<string>, b: multiset<string>)
    requires forall key :: a[key] <= b[key]
    ensures |a| <= |b| && (|a| == |b| <==> forall key :: a[key] == b[key])
  {
    assert b == a + (b - a);
    assert a == b <==> forall key :: a[key] == b[key];
  }

  lemma ScaledOrder(a: nat, b: nat, n: nat)
    requires n > 0
    ensures a <= b ==> a * n <= b * n
    ensures a * n == b * n <==> a == b
  {
    if a < b { InBlock(a, 0, b, n); }
    if b < a { InBlock(b, 0, a, n); }
  }

  lemma EvaluatedSize(chunks: seq<seq<Prompt>>, prompts: seq<Prompt>)
    requires PartsOf(chunks, prompts)
    ensures |Evaluated(chunks)| <= |prompts|
    ensures |Evaluated(chunks)| == |prompts| <==> forall key :: InFirstChunk(chunks, key) == KeyBag(prompts)[key]
  {
    var evaluated, all := KeyBag(Evaluated(chunks)), KeyBag(prompts);
    forall key ensures evaluated[key] == InFirstChunk(chunks, key) && evaluated[key] <= all[key] {
      EvaluatedBag(chunks, key);
      FirstIsBounded(chunks, prompts, key);
    }
    SameSizeBags(evaluated, all);
    assert |evaluated| == |Evaluated(chunks)| && |all| == |prompts|;
    if |evaluated| == |all| {
      forall key ensures InFirstChunk(chunks, key) == all[key] {
        assert evaluated[key] == all[key];
      }
    } else {
      var key :| evaluated[key] != all[key];
      assert InFirstChunk(chunks, key) != all[key];
    }
  }

  /** Over all crashed runs and the last one, every prompt is evaluated exactly when the first chunk that has its key
   *  has all prompts with that key; the others are silently dropped. */
  lemma AllPromptsEvaluatedIff(o: Oracle, prompts: seq<Prompt>, crashes: seq<Crash>, chunks: seq<seq<Prompt>>)
    requires o.Valid() && AreCrashes(prompts, crashes) && Flatten(chunks) == prompts
    ensures |Resumed(o, prompts, crashes, chunks).acc.rows| <= |prompts| * o.n
    ensures |Resumed(o, prompts, crashes, chunks).acc.rows| == |prompts| * o.n <==>
            forall key :: InFirstChunk(Processed(crashes) + chunks, key) == KeyBag(prompts)[key]
  {
    RecordsSize(o, Evaluated(Processed(crashes) + chunks));
    RestartsAreTransparent(o, prompts, crashes);
    ChunksEvaluate(o, Begin(DumpAfter(o, prompts, crashes)), Processed(crashes), chunks);
    ProcessedArePartsOf(prompts, crashes);
    ChunksArePartsOf(chunks);
    EvaluatedSize(Processed(crashes) + chunks, prompts);
    ScaledOrder(|Evaluated(Processed(crashes) + chunks)|, |prompts|, o.n);
  }
}

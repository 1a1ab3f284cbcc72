/** Contiguous runs of 1 in a response mask: `true` is a generated token, `false` an observation. */
module MaskSpans {
  type Span = (nat, nat)  // half-open interval

  /** A maximal run of generated tokens. */
  ghost predicate IsRun(mask: seq<bool>, span: Span) {
    var (s, e) := span;
    s < e <= |mask| && (forall j :: s <= j < e ==> mask[j]) &&
    (s == 0 || !mask[s - 1]) && (e == |mask| || !mask[e])
  }

  ghost predicate Within(j: int, span: Span) {
    span.0 <= j < span.1
  }

  /** `spans` are all the runs of `mask`, from left to right. */
  ghost predicate AreRuns(mask: seq<bool>, spans: seq<Span>) {
    (forall i :: 0 <= i < |spans| ==> IsRun(mask, spans[i])) &&
    (forall i, j :: 0 <= i < j < |spans| ==> spans[i].1 < spans[j].0) &&
    (forall j :: 0 <= j < |mask| && mask[j] ==> exists i :: 0 <= i < |spans| && Within(j, spans[i]))
  }

  predicate EndsInRun(mask: seq<bool>) {
    mask != [] && mask[|mask| - 1]
  }

  /** The runs of a mask, one more token at a time. */
  function Runs(mask: seq<bool>): (spans: seq<Span>)
    ensures forall i :: 0 <= i < |spans| ==> spans[i].0 < spans[i].1 <= |mask|
    ensures EndsInRun(mask) <==> spans != [] && spans[|spans| - 1].1 == |mask|
  {
    if mask == [] then []
    else
      var n := |mask| - 1;
      Extend(mask[..n], Runs(mask[..n]), mask[n])
  }

  /** `spans` are the runs of `mask` with one more token appended. */
  function Extend(mask: seq<bool>, spans: seq<Span>, generated: bool): seq<Span>
    requires EndsInRun(mask) ==> spans != []
  {
    if !generated then spans
    else if EndsInRun(mask) then spans[..|spans| - 1] + [(spans[|spans| - 1].0, |mask| + 1)]
    else spans + [(|mask|, |mask| + 1)]
  }

  lemma RunPersists(mask: seq<bool>, span: Span, b: bool)
    requires IsRun(mask, span) && (span.1 < |mask| || !b)
    ensures IsRun(mask + [b], span)
  {
  }

  lemma RunGrows(mask: seq<bool>, span: Span)
    requires IsRun(mask, span) && span.1 == |mask|
    ensures IsRun(mask + [true], (span.0, |mask| + 1))
  {
  }

  lemma RunStarts(mask: seq<bool>)
    requires !EndsInRun(mask)
    ensures IsRun(mask + [true], (|mask|, |mask| + 1))
  {
  }

  lemma ExtendIsRun(mask: seq<bool>, spans: seq<Span>, generated: bool, i: nat)
    requires AreRuns(mask, spans) && (EndsInRun(mask) <==> spans != [] && spans[|spans| - 1].1 == |mask|)
    requires i < |Extend(mask, spans, generated)|
    ensures IsRun(mask + [generated], Extend(mask, spans, generated)[i])
  {
    if i == |spans| {
      RunStarts(mask);
    } else {
      assert IsRun(mask, spans[i]);
      assert i < |spans| - 1 ==> spans[i].1 < spans[|spans| - 1].0;
      if generated && spans[i].1 == |mask| {
        RunGrows(mask, spans[i]);
      } else {
        RunPersists(mask, spans[i], generated);
      }
    }
  }

  lemma ExtendCovers(mask: seq<bool>, spans: seq<Span>, generated: bool, j: nat)
    requires AreRuns(mask, spans) && (EndsInRun(mask) <==> spans != [] && spans[|spans| - 1].1 == |mask|)
    requires j <= |mask| && (mask + [generated])[j]
    ensures var longer := Extend(mask, spans, generated);
            exists i :: 0 <= i < |longer| && Within(j, longer[i])
  {
    var longer := Extend(mask, spans, generated);
    if j < |mask| {
      assert mask[j];
      var i :| 0 <= i < |spans| && Within(j, spans[i]);
      assert IsRun(mask, spans[i]);
      assert Within(j, longer[i]);
    } else {
      assert Within(j, longer[|longer| - 1]);
    }
  }

  lemma ExtendIsOrdered(mask: seq<bool>, spans: seq<Span>, generated: bool)
    requires AreRuns(mask, spans) && (EndsInRun(mask) <==> spans != [] && spans[|spans| - 1].1 == |mask|)
    ensures var longer := Extend(mask, spans, generated);
            forall i, j :: 0 <= i < j < |longer| ==> longer[i].1 < longer[j].0
  {
    forall i | 0 <= i < |spans| ensures IsRun(mask, spans[i]) {}
  }

  lemma ExtendAreRuns(mask: seq<bool>, spans: seq<Span>, generated: bool)
    requires AreRuns(mask, spans) && (EndsInRun(mask) <==> spans != [] && spans[|spans| - 1].1 == |mask|)
    ensures AreRuns(mask + [generated], Extend(mask, spans, generated))
  {
    var more, longer := mask + [generated], Extend(mask, spans, generated);
    forall i | 0 <= i < |longer| ensures IsRun(more, longer[i]) {
      ExtendIsRun(mask, spans, generated, i);
    }
    forall j | 0 <= j < |more| && more[j] ensures exists i :: 0 <= i < |longer| && Within(j, longer[i]) {
      ExtendCovers(mask, spans, generated, j);
    }
    ExtendIsOrdered(mask, spans, generated);
  }

  lemma {:induction false} RunsAreRuns(mask: seq<bool>)
    ensures AreRuns(mask, Runs(mask))
  {
    if mask != [] {
      var n := |mask| - 1;
      RunsAreRuns(mask[..n]);
      ExtendAreRuns(mask[..n], Runs(mask[..n]), mask[n]);
      assert mask == mask[..n] + [mask[n]];
    }
  }

  /** Two lists of all runs, left to right, are the same list. */
  lemma {:induction false} RunsAreUnique(mask: seq<bool>, a: seq<Span>, b: seq<Span>, k: nat)
    requires AreRuns(mask, a) && AreRuns(mask, b) && k <= |a| && k <= |b| && a[..k] == b[..k]
    ensures a == b
    decreases |a| - k
  {
    if k == |a| == |b| {
    } else if k < |a| && k < |b| {
      RunsStartTogether(mask, a, b, k);
      RunsStartTogether(mask, b, a, k);
      assert a[k] == b[k];
      RunsAreUnique(mask, a, b, k + 1);
    } else if k < |a| {
      RunsStartTogether(mask, a, b, k);
    } else {
      RunsStartTogether(mask, b, a, k);
    }
  }

  /** After a common prefix, the next run of `a` also occurs in `b`, not before position `k`. */
  lemma SameFront(a: seq<Span>, b: seq<Span>, k: nat)
    requires k <= |a| && k <= |b| && a[..k] == b[..k]
    ensures forall j :: 0 <= j < k ==> a[j] == b[j]
  {
    assert forall j :: 0 <= j < k ==> a[j] == a[..k][j] && b[j] == b[..k][j];
  }

  /** Before place `k` both lists hold the same runs, so the run of `b` that starts where `a[k]` does comes later. */
  lemma NotBefore(mask: seq<bool>, a: seq<Span>, b: seq<Span>, k: nat, i: nat)
    requires AreRuns(mask, a) && k < |a| && k <= |b| && a[..k] == b[..k] && i < |b| && b[i] == a[k]
    ensures i >= k
  {
    SameFront(a, b, k);
  }

  lemma RunsStartTogether(mask: seq<bool>, a: seq<Span>, b: seq<Span>, k: nat)
    requires AreRuns(mask, a) && AreRuns(mask, b) && k < |a| && k <= |b| && a[..k] == b[..k]
    ensures k < |b| && b[k].0 <= a[k].0
    ensures b[k].0 == a[k].0 ==> b[k] == a[k]
  {
    assert IsRun(mask, a[k]) && mask[a[k].0];
    var i :| 0 <= i < |b| && Within(a[k].0, b[i]);
    assert IsRun(mask, b[i]);
    SharingRunsAreEqual(mask, a[k], b[i], a[k].0);
    NotBefore(mask, a, b, k, i);
    assert IsRun(mask, b[k]);
    if b[k].0 == a[k].0 {
      SharingRunsAreEqual(mask, a[k], b[k], a[k].0);
    }
  }

  lemma SharingRunsAreEqual(mask: seq<bool>, x: Span, y: Span, j: nat)
    requires IsRun(mask, x) && IsRun(mask, y) && Within(j, x) && Within(j, y)
    ensures x == y
  {
  }

  lemma CoverIsMask(mask: seq<bool>, spans: seq<Span>, j: nat)
    requires AreRuns(mask, spans) && j < |mask|
    ensures mask[j] <==> exists i :: 0 <= i < |spans| && Within(j, spans[i])
  {
    if i :| 0 <= i < |spans| && Within(j, spans[i]) {
      assert IsRun(mask, spans[i]);
    }
  }

  /** The spans rebuild the mask: a position is 1 exactly when some span covers it. */
  lemma RunsRebuildMask(mask: seq<bool>)
    ensures mask == seq(|mask|, j => exists i :: 0 <= i < |Runs(mask)| && Within(j, Runs(mask)[i]))
  {
    RunsAreRuns(mask);
    forall j | 0 <= j < |mask| { CoverIsMask(mask, Runs(mask), j); }
  }

  lemma RunsSnoc(mask: seq<bool>, b: bool)
    ensures Runs(mask + [b]) == Extend(mask, Runs(mask), b)
  {
    assert (mask + [b])[..|mask|] == mask;
  }

  /** The span scan of the trainer (`_mask_runs`); `length` is where an open span is closed. */
  method MaskRuns(mask: seq<bool>, length: nat) returns (spans: seq<Span>)
    requires length == |mask|
    ensures spans == Runs(mask)
  {
    spans := [];
    var inSpan, start := false, 0;
    ghost var runs := [];
    for j := 0 to |mask|
      invariant runs == Runs(mask[..j])
      invariant inSpan <==> EndsInRun(mask[..j])
      invariant inSpan ==> start < j
      invariant runs == if inSpan then spans + [(start, j)] else spans
    {
      assert mask[..j + 1] == mask[..j] + [mask[j]];
      RunsSnoc(mask[..j], mask[j]);
      runs := Extend(mask[..j], runs, mask[j]);
      if mask[j] && !inSpan {
        start := j;
        inSpan := true;
      } else if !mask[j] && inSpan {
        spans := spans + [(start, j)];
        inSpan := false;
      }
    }
    assert mask[..|mask|] == mask;
    if inSpan {
      spans := spans + [(start, length)];
    }
  }

  // ----- how runs grow -----

  function Repeat(b: bool, n: nat): (r: seq<bool>)
    ensures |r| == n && forall i :: 0 <= i < n ==> r[i] == b
  {
    seq(n, _ => b)
  }

  lemma ZeroAddsNoRun(mask: seq<bool>)
    ensures Runs(mask + [false]) == Runs(mask) && !EndsInRun(mask + [false])
  {
    RunsSnoc(mask, false);
  }

  /** Zeros, be they observations or padding, add no run. */
  lemma {:induction false} ZerosAddNoRun(mask: seq<bool>, n: nat)
    ensures Runs(mask + Repeat(false, n)) == Runs(mask)
    ensures n > 0 ==> !EndsInRun(mask + Repeat(false, n))
  {
    if n == 0 {
      assert mask + Repeat(false, 0) == mask;
    } else {
      var init := mask + Repeat(false, n - 1);
      assert mask + Repeat(false, n) == init + [false];
      ZerosAddNoRun(mask, n - 1);
      ZeroAddsNoRun(init);
    }
  }

  lemma OneAddsRun(mask: seq<bool>)
    ensures |Runs(mask + [true])| == |Runs(mask)| + if EndsInRun(mask) then 0 else 1
    ensures EndsInRun(mask + [true])
  {
    RunsSnoc(mask, true);
  }

  /** A non-empty stretch of ones adds one run unless it continues the last one. */
  lemma {:induction false} OnesAddOneRun(mask: seq<bool>, n: nat)
    ensures |Runs(mask + Repeat(true, n))| == |Runs(mask)| + if n > 0 && !EndsInRun(mask) then 1 else 0
    ensures EndsInRun(mask + Repeat(true, n)) <==> n > 0 || EndsInRun(mask)
  {
    if n == 0 {
      assert mask + Repeat(true, 0) == mask;
    } else {
      var init := mask + Repeat(true, n - 1);
      assert mask + Repeat(true, n) == init + [true];
      OnesAddOneRun(mask, n - 1);
      OneAddsRun(init);
    }
  }
}

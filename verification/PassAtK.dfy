/** The unbiased pass@k estimator: its product loop, and the fraction of draws it stands for. */
module PassAtK {
  import opened Reals

  /** Binomial coefficients by Pascal's rule. */
  function Choose(n: nat, k: nat): nat {
    if k == 0 then 1 else if n == 0 then 0 else Choose(n - 1, k - 1) + Choose(n - 1, k)
  }

  lemma {:induction false} ChooseRange(n: nat, k: nat)
    ensures Choose(n, k) > 0 <==> k <= n
  {
    if n > 0 && k > 0 {
      ChooseRange(n - 1, k - 1);
      ChooseRange(n - 1, k);
    }
  }

  /** The two ratios of neighbouring coefficients. */
  ghost predicate HasRatios(n: nat, k: nat)
    requires k <= n
  {
    (n > 0 ==> Choose(n, k) * (n - k) == n * Choose(n - 1, k)) &&
    Choose(n, k + 1) * (k + 1) == Choose(n, k) * (n - k)
  }

  lemma RatiosAtTop(n: nat)
    ensures HasRatios(n, n)
  {
    ChooseRange(n, n + 1);
    if n > 0 {
      ChooseRange(n - 1, n);
    }
  }

  lemma RatiosAtZero(n: nat)
    ensures HasRatios(n, 0)
  {
    ChooseOne(n);
  }

  lemma {:induction false} ChooseOne(n: nat)
    ensures Choose(n, 1) == n
  {
    if n > 0 {
      ChooseOne(n - 1);
      assert Choose(n - 1, 0) == 1;
    }
  }

  /** C(n, k) * (n - k) == n * C(n-1, k) and C(n, k+1) * (k+1) == C(n, k) * (n-k). */
  lemma {:induction false} ChooseRatios(n: nat, k: nat)
    requires k <= n
    ensures HasRatios(n, k)
  {
    if k == n {
      RatiosAtTop(n);
    } else if k == 0 {
      RatiosAtZero(n);
    } else {
      ChooseRatios(n - 1, k);
      ChooseRatios(n - 1, k - 1);
      PascalRatio(n, k, Choose(n - 1, k - 1), Choose(n - 1, k), Choose(n - 1, k + 1));
    }
  }

  lemma PascalRatio(n: nat, k: nat, below: nat, at: nat, above: nat)
    requires 0 < k < n
    requires at * k == below * (n - k)             // second ratio at (n-1, k-1)
    requires above * (k + 1) == at * (n - 1 - k)   // second ratio at (n-1, k)
    ensures (below + at) * (n - k) == n * at
    ensures (at + above) * (k + 1) == (below + at) * (n - k)
  {
    assert (below + at) * (n - k) == below * (n - k) + at * (n - k) == at * k + at * (n - k) == at * n;
    assert (at + above) * (k + 1) == at * (k + 1) + at * (n - 1 - k) == at * n;
  }

  // ----- counting draws -----

  ghost function Shift<T>(family: set<set<T>>, x: T): set<set<T>> {
    set s | s in family :: s + {x}
  }

  /** All sets of `k` elements of `u`. */
  ghost function Draws<T>(u: set<T>, k: nat): set<set<T>> {
    set s | s <= u && |s| == k
  }

  lemma DrawsSplit<T>(v: set<T>, k: nat, x: T)
    requires k > 0 && x !in v
    ensures Draws(v + {x}, k) == Draws(v, k) + Shift(Draws(v, k - 1), x)
  {
    forall s | s in Draws(v + {x}, k) ensures s in Draws(v, k) + Shift(Draws(v, k - 1), x) {
      if x in s {
        assert s == (s - {x}) + {x} && s - {x} in Draws(v, k - 1);
      } else {
        assert s <= v;
      }
    }
  }

  lemma DrawNothing<T>(u: set<T>)
    ensures Draws(u, 0) == {{}}
  {
    forall s ensures s in Draws(u, 0) <==> s == {} {}
  }

  lemma DrawFromNothing<T>(k: nat)
    requires k > 0
    ensures Draws<T>({}, k) == {}
  {
    forall s ensures s !in Draws<T>({}, k) {}
  }

  lemma {:induction false} DrawsCount<T>(u: set<T>, k: nat)
    ensures |Draws(u, k)| == Choose(|u|, k)
    decreases |u|
  {
    if k == 0 {
      DrawNothing(u);
    } else if u == {} {
      DrawFromNothing<T>(k);
    } else {
      var x :| x in u;
      var v := u - {x};
      assert u == v + {x};
      DrawsCount(v, k);
      DrawsCount(v, k - 1);
      DrawsWithOneMore(v, k, x);
    }
  }

  lemma DrawsWithOneMore<T>(v: set<T>, k: nat, x: T)
    requires k > 0 && x !in v
    ensures |Draws(v + {x}, k)| == |Draws(v, k)| + |Draws(v, k - 1)|
  {
    DrawsSplit(v, k, x);
    SplitCount(Draws(v + {x}, k), Draws(v, k), Draws(v, k - 1), x);
  }

  /** Draws without `x`, and draws with it, are counted separately. */
  lemma SplitCount<T>(all: set<set<T>>, without: set<set<T>>, fewer: set<set<T>>, x: T)
    requires forall s :: s in without ==> x !in s
    requires forall s :: s in fewer ==> x !in s
    requires all == without + Shift(fewer, x)
    ensures |all| == |without| + |fewer|
  {
    ShiftKeepsSize(fewer, x);
    forall s | s in Shift(fewer, x) ensures x in s {}
    assert without !! Shift(fewer, x);
  }

  lemma {:induction false} ShiftKeepsSize<T>(family: set<set<T>>, x: T)
    requires forall s :: s in family ==> x !in s
    ensures |Shift(family, x)| == |family|
    decreases |family|
  {
    if family != {} {
      var r :| r in family;
      var rest := family - {r};
      ShiftKeepsSize(rest, x);
      assert Shift(family, x) == Shift(rest, x) + {r + {x}};
      forall s | s in rest ensures s + {x} != r + {x} {
        assert (s + {x}) - {x} == s && (r + {x}) - {x} == r;
      }
    }
  }

  // ----- the estimator -----

  /** The chance that a uniform draw of `k` rollouts out of `n` holds one of the `c` hits. */
  function HitFraction(n: nat, c: nat, k: nat): real
    requires c <= n && k <= n
  {
    1.0 - MissFraction(n, n - c, k)
  }

  /** The share of the draws of `k` out of `n` that stay among `m` of them. */
  function MissFraction(n: nat, m: nat, k: nat): real
    requires k <= n
  {
    ChooseRange(n, k);
    Choose(m, k) as real / Choose(n, k) as real
  }

  lemma NoMiss(n: nat, m: nat, k: nat)
    requires m < k <= n
    ensures MissFraction(n, m, k) == 0.0
  {
    ChooseRange(n, k);
    ChooseRange(m, k);
    QuotientIs(0.0, Choose(n, k) as real, 0.0);
  }

  lemma AllMiss(n: nat, k: nat)
    requires k <= n
    ensures MissFraction(n, n, k) == 1.0
  {
    ChooseRange(n, k);
    QuotientIs(Choose(n, k) as real, Choose(n, k) as real, 1.0);
  }

  lemma ProductIsMiss(prod: real, n: nat, m: nat, k: nat)
    requires k <= n && IsProduct(prod, Choose(n, k), Choose(m, k))
    ensures prod == MissFraction(n, m, k)
  {
    ChooseRange(n, k);
    QuotientIs(Choose(m, k) as real, Choose(n, k) as real, prod);
  }

  /** The fraction really is a count of draws. */
  lemma FractionCountsDraws<T>(rollouts: set<T>, hits: set<T>, k: nat)
    requires hits <= rollouts && k <= |rollouts|
    ensures var n := |rollouts|;
            var hitting := set s | s in Draws(rollouts, k) && s * hits != {};
            |hits| <= n && |Draws(rollouts, k)| > 0 &&
            HitFraction(n, |hits|, k) == |hitting| as real / |Draws(rollouts, k)| as real
  {
    var hitting := set s | s in Draws(rollouts, k) && s * hits != {};
    DrawsMissing(rollouts, hits, k);
    SplitSize(Draws(rollouts, k), hitting, Draws(rollouts - hits, k));
    DrawsCount(rollouts, k);
    DrawsCount(rollouts - hits, k);
    SplitSize(rollouts, hits, rollouts - hits);
    FractionOfCounts(|rollouts|, |hits|, k, |Draws(rollouts, k)|, |hitting|);
  }

  lemma FractionOfCounts(n: nat, c: nat, k: nat, all: nat, hitting: nat)
    requires c <= n && k <= n && all == Choose(n, k) && all == hitting + Choose(n - c, k)
    ensures all > 0 && HitFraction(n, c, k) == hitting as real / all as real
  {
    ChooseRange(n, k);
    Complement(all as real, Choose(n - c, k) as real);
  }

  lemma DrawsMissing<T>(rollouts: set<T>, hits: set<T>, k: nat)
    ensures forall s :: s in Draws(rollouts - hits, k) <==> s in Draws(rollouts, k) && s * hits == {}
  {
    forall s ensures s in Draws(rollouts - hits, k) <==> s in Draws(rollouts, k) && s * hits == {} {
      MissesOnly(rollouts, hits, s);
    }
  }

  lemma MissesOnly<T>(rollouts: set<T>, hits: set<T>, s: set<T>)
    ensures s <= rollouts - hits <==> s <= rollouts && s * hits == {}
  {
    if s * hits == {} {
      forall x | x in s ensures x !in hits { assert x !in s * hits; }
    }
  }

  lemma SplitSize<T>(all: set<T>, a: set<T>, b: set<T>)
    requires a <= all && b <= all && forall x :: x in all ==> (x in b <==> x !in a)
    ensures |all| == |a| + |b|
  {
    assert all == a + b && a !! b;
  }

  /** `pass_at_k_unbiased`, on any integers the callers may hand it. */
  method PassAtKUnbiased(n: int, c: int, k: int) returns (p: real)
    ensures n <= 0 || k <= 0 ==> p == 0.0
    ensures n > 0 && k > 0 && c > n ==> p == 1.0
    ensures n > 0 && k > 0 && c < 0 ==> p == 0.0
    ensures n > 0 && k > 0 && 0 <= c <= n ==> p == HitFraction(n, c, if k < n then k else n)
  {
    var kk := if k < n then k else n;
    if n <= 0 || kk <= 0 { return 0.0; }
    if n - c < kk {
      if c <= n {
        NoMiss(n, n - c, kk);
      }
      return 1.0;
    }
    var prod := MissProduct(n, c, kk);
    if c >= 0 {
      ProductIsMiss(prod, n, n - c, kk);
    }
    p := 1.0 - prod;
  }

  method MissProduct(n: nat, c: int, k: nat) returns (prod: real)
    requires k <= n - c
    ensures c < 0 ==> prod == 1.0
    ensures c >= 0 ==> IsProduct(prod, Choose(n, k), Choose(n - c, k))
  {
    prod := 1.0;
    var i := n - c + 1;
    while i < n + 1
      invariant c >= 0 ==> n - c + 1 <= i <= n + 1
      invariant c < 0 ==> prod == 1.0
      invariant c >= 0 ==> IsProduct(prod, Choose(i - 1, k), Choose(n - c, k))
    {
      ChooseRatios(i, k);
      ProductStep(prod, i, k, Choose(i - 1, k), Choose(i, k), Choose(n - c, k));
      prod := prod * (1.0 - k as real / i as real);
      i := i + 1;
    }
  }

  /** `prod` is `target / all`. */
  ghost predicate IsProduct(prod: real, all: nat, target: nat) {
    prod * all as real == target as real
  }

  lemma ProductStep(prod: real, i: nat, k: nat, small: nat, large: nat, target: nat)
    requires k < i && large * (i - k) == i * small && IsProduct(prod, small, target)
    ensures IsProduct(prod * (1.0 - k as real / i as real), large, target)
  {
    ProductAsReal(large, i - k);
    ProductAsReal(i, small);
    RealProductStep(prod, i as real, k as real, (i - k) as real, small as real, large as real, target as real);
  }

  lemma RealProductStep(prod: real, i: real, k: real, d: real, small: real, large: real, target: real)
    requires i > 0.0 && d == i - k && large * d == i * small && prod * small == target
    ensures prod * (1.0 - k / i) * large == target
  {
    var f := 1.0 - k / i;
    assert (k / i) * i == k;
    assert f * i == i - k;
    assert (f * large) * i == large * (f * i);
    Cancel(f * large, small, i);
    assert prod * f * large == prod * (f * large);
  }

  // ----- what the estimator is for -----

  lemma ChooseGrows(m: nat, n: nat, k: nat)
    requires m <= n
    ensures Choose(m, k) <= Choose(n, k)
    decreases n - m
  {
    if m < n {
      ChooseGrows(m, n - 1, k);
    }
  }

  lemma FractionInUnit(n: nat, c: nat, k: nat)
    requires c <= n && k <= n
    ensures 0.0 <= HitFraction(n, c, k) <= 1.0
  {
    ChooseGrows(n - c, n, k);
    ChooseRange(n, k);
    ShareInUnit(Choose(n - c, k) as real, Choose(n, k) as real);
  }

  lemma ShareInUnit(part: real, all: real)
    requires 0.0 <= part <= all && all > 0.0
    ensures 0.0 <= part / all <= 1.0
  {
    QuotientIs(0.0, all, 0.0);
    QuotientIs(all, all, 1.0);
    QuotientOrder(0.0, part, all);
    QuotientOrder(part, all, all);
  }

  /** More hits never lower the estimate. */
  lemma MonotoneInHits(n: nat, c: nat, c': nat, k: nat)
    requires c <= c' <= n && k <= n
    ensures HitFraction(n, c, k) <= HitFraction(n, c', k)
  {
    ChooseGrows(n - c', n - c, k);
    ChooseRange(n, k);
    QuotientOrder(Choose(n - c', k) as real, Choose(n - c, k) as real, Choose(n, k) as real);
  }

  /** Drawing more never lowers the estimate. */
  lemma {:induction false} MonotoneInDraws(n: nat, c: nat, k: nat, k': nat)
    requires c <= n && k <= k' <= n
    ensures HitFraction(n, c, k) <= HitFraction(n, c, k')
    decreases k'
  {
    if k < k' {
      MonotoneInDraws(n, c, k, k' - 1);
      OneMoreDraw(n, c, k' - 1);
    }
  }

  lemma OneMoreDraw(n: nat, c: nat, k: nat)
    requires c <= n && k < n
    ensures HitFraction(n, c, k) <= HitFraction(n, c, k + 1)
  {
    MissShrinks(n, n - c, k);
  }

  lemma MissShrinks(n: nat, m: nat, k: nat)
    requires m <= n && k < n
    ensures MissFraction(n, m, k + 1) <= MissFraction(n, m, k)
  {
    ChooseRange(n, k);
    ChooseRange(n, k + 1);
    if k < m {
      ChooseRatios(m, k);
      ChooseRatios(n, k);
      CrossCounts(Choose(m, k), Choose(n, k), Choose(m, k + 1), Choose(n, k + 1), m - k, n - k, k + 1);
    } else {
      NoMiss(n, m, k + 1);
      QuotientOrder(0.0, Choose(m, k) as real, Choose(n, k) as real);
    }
  }

  lemma CrossCounts(a: nat, b: nat, a': nat, b': nat, p: nat, q: nat, j: nat)
    requires b > 0 && b' > 0 && j > 0 && 0 < p <= q
    requires a' * j == a * p && b' * j == b * q
    ensures a' as real / b' as real <= a as real / b as real
  {
    ProductAsReal(a', j);
    ProductAsReal(a, p);
    ProductAsReal(b', j);
    ProductAsReal(b, q);
    CrossRatio(a as real, b as real, a' as real, b' as real, p as real, q as real, j as real);
  }

  lemma CrossRatio(a: real, b: real, a': real, b': real, p: real, q: real, j: real)
    requires b > 0.0 && b' > 0.0 && a >= 0.0 && j > 0.0 && 0.0 < p <= q
    requires a' * j == a * p && b' * j == b * q
    ensures a' / b' <= a / b
  {
    assert (a' * b) * j == (a * p) * b;
    assert (a * b') * j == (a * q) * b;
    assert (a * b) * p <= (a * b) * q by { assert a * b >= 0.0; }
    assert (a' * b) * j <= (a * b') * j;
    assert a' * b <= a * b';
    var x, y := a' / b', a / b;
    assert x * b' == a' && y * b == a;
    assert (x * b') * b <= (y * b) * b';
    assert x * (b * b') <= y * (b * b') && b * b' > 0.0;
  }

  /** pass@1 is the success rate, and from k = n on pass@k is "some rollout hit". */
  lemma EndsOfTheScale(n: nat, c: nat)
    requires c <= n && n > 0
    ensures HitFraction(n, c, 1) == c as real / n as real
    ensures HitFraction(n, c, n) == if c > 0 then 1.0 else 0.0
  {
    DrawOne(n, c);
    if c == 0 {
      AllMiss(n, n);
    } else {
      NoMiss(n, n - c, n);
    }
  }

  lemma DrawOne(n: nat, c: nat)
    requires c <= n && n > 0
    ensures HitFraction(n, c, 1) == c as real / n as real
  {
    ChooseOne(n);
    ChooseOne(n - c);
    Complement(n as real, (n - c) as real);
  }

  // ----- the two Pass@N tags -----

  function Hits(vals: seq<real>): (c: nat)
    ensures c <= |vals|
  {
    if vals == [] then 0 else Hits(vals[..|vals| - 1]) + if vals[|vals| - 1] >= 0.5 then 1 else 0
  }

  /** The rollouts that hit. */
  ghost function HitRows(vals: seq<real>): (rows: set<nat>)
    ensures forall i :: i in rows ==> i < |vals|
  {
    set i: nat | i < |vals| && vals[i] >= 0.5
  }

  lemma {:induction false} HitsAreRows(vals: seq<real>)
    ensures Hits(vals) == |HitRows(vals)| <= |vals|
  {
    if vals != [] {
      var last := |vals| - 1;
      HitsAreRows(vals[..last]);
      assert HitRows(vals) == HitRows(vals[..last]) + if vals[last] >= 0.5 then {last} else {};
    }
  }

  lemma {:induction false} HitsPositive(vals: seq<real>)
    ensures Hits(vals) > 0 <==> exists i :: 0 <= i < |vals| && vals[i] >= 0.5
  {
    if vals != [] {
      var init := vals[..|vals| - 1];
      HitsPositive(init);
      if i :| 0 <= i < |vals| && vals[i] >= 0.5 {
        assert i < |init| ==> init[i] >= 0.5;
      }
    }
  }

  /** The per-prompt part of `_compute_pass_at_n_and_per_prompt`: the naive indicator beside the
   *  unbiased estimate for one requested `k`. */
  method PromptIndicators(vals: seq<real>, k: int) returns (naive: real, unbiased: real)
    requires vals != []
    ensures naive == if exists i :: 0 <= i < |vals| && vals[i] >= 0.5 then 1.0 else 0.0
    ensures k >= |vals| ==> unbiased == naive
    ensures |HitRows(vals)| <= |vals| &&
            unbiased == if k <= 0 then 0.0 else HitFraction(|vals|, |HitRows(vals)|, if k < |vals| then k else |vals|)
    ensures k == 1 ==> unbiased == |HitRows(vals)| as real / |vals| as real
    ensures 0.0 <= unbiased <= naive
  {
    var max, c := vals[0], if vals[0] >= 0.5 then 1 else 0;
    assert vals[..1][..0] == [] && Hits(vals[..1]) == c;
    for i := 1 to |vals|
      invariant exists j :: 0 <= j < i && vals[j] == max
      invariant forall j :: 0 <= j < i ==> vals[j] <= max
      invariant c == Hits(vals[..i])
    {
      assert vals[..i + 1][..i] == vals[..i];
      if vals[i] > max { max := vals[i]; }
      if vals[i] >= 0.5 { c := c + 1; }
    }
    assert vals[..|vals|] == vals;
    naive := if max >= 0.5 then 1.0 else 0.0;
    HitsPositive(vals);
    HitsAreRows(vals);
    unbiased := PassAtKUnbiased(|vals|, c, k);
    EndsOfTheScale(|vals|, c);
    if k > 0 {
      var kk := if k < |vals| then k else |vals|;
      FractionInUnit(|vals|, c, kk);
      MonotoneInDraws(|vals|, c, kk, |vals|);
    }
  }
}

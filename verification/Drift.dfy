/** Population stability index and the drift report (src/ml/drift.py). */
module Drift {
  import opened Sequences
  import opened Arithmetic
  import opened StableSort

  /** A column value; NaN is None. */
  type Value = Option<real>

  function DropNan(values: seq<Value>): seq<real> {
    if values == [] then []
    else (if values[0].Some? then [values[0].value] else []) + DropNan(values[1..])
  }

  // ---- Quantile buckets ----

  function Identity(x: real): real {
    x
  }

  /** `np.percentile` at the rank q/buckets, with linear interpolation. */
  function Percentile(sorted: seq<real>, q: nat, buckets: nat): real
    requires sorted != [] && q <= buckets && buckets > 0
  {
    var position := (q * (|sorted| - 1)) as real / buckets as real;
    var i := position.Floor;
    if i < 0 || i >= |sorted| - 1 then sorted[|sorted| - 1]
    else sorted[i] + (position - i as real) * (sorted[i + 1] - sorted[i])
  }

  function Percentiles(sorted: seq<real>, q: nat, buckets: nat): seq<real>
    requires sorted != [] && q <= buckets && buckets > 0
    decreases buckets - q
  {
    [Percentile(sorted, q, buckets)] + if q == buckets then [] else Percentiles(sorted, q + 1, buckets)
  }

  function Dedup(sorted: seq<real>): seq<real> {
    if |sorted| <= 1 then sorted
    else if sorted[0] == sorted[1] then Dedup(sorted[1..])
    else [sorted[0]] + Dedup(sorted[1..])
  }

  /** `np.unique`. */
  function Unique(s: seq<real>): seq<real> {
    Dedup(Sort(s, Identity))
  }

  /** The bucket breakpoints fitted on the reference sample. */
  function Breakpoints(ref: seq<real>, buckets: nat): seq<real>
    requires ref != [] && buckets > 0
  {
    SortPermutes(ref, Identity);
    Unique(Percentiles(Sort(ref, Identity), 0, buckets))
  }

  ghost predicate StrictlyIncreasing(s: seq<real>) {
    forall i, j :: 0 <= i < j < |s| ==> s[i] < s[j]
  }

  lemma {:induction false} DedupIncreases(s: seq<real>)
    requires Sorted(s, Identity)
    ensures StrictlyIncreasing(Dedup(s))
    ensures s != [] ==> Dedup(s) != [] && Dedup(s)[0] == s[0]
  {
    if |s| > 1 {
      assert forall i, j :: 0 <= i < j < |s| ==> Identity(s[i]) <= Identity(s[j]);
      DedupIncreases(s[1..]);
      if s[0] != s[1] {
        var d := Dedup(s[1..]);
        assert Identity(s[0]) <= Identity(s[1]);
        assert d[0] == s[1];
        assert forall j :: 0 <= j < |d| ==> d[0] <= d[j];
      }
    }
  }

  lemma BreakpointsIncrease(ref: seq<real>, buckets: nat)
    requires ref != [] && buckets > 0
    ensures StrictlyIncreasing(Breakpoints(ref, buckets))
  {
    SortPermutes(ref, Identity);
    var s := Percentiles(Sort(ref, Identity), 0, buckets);
    SortSorts(s, Identity);
    DedupIncreases(Sort(s, Identity));
  }

  // ---- Histograms ----

  /** A bucket edge; the outer two are overwritten with the infinities. */
  datatype Edge = NegInf | At(x: real) | PosInf

  predicate AtOrAbove(x: real, e: Edge) {
    e.NegInf? || (e.At? && e.x <= x)
  }

  predicate Below(x: real, e: Edge) {
    e.PosInf? || (e.At? && x < e.x)
  }

  function Edges(breakpoints: seq<real>): (r: seq<Edge>)
    ensures |r| == |breakpoints|
  {
    if breakpoints == [] then [] else [At(breakpoints[0])] + Edges(breakpoints[1..])
  }

  lemma {:induction false} EdgesAt(breakpoints: seq<real>)
    ensures forall i :: 0 <= i < |breakpoints| ==> Edges(breakpoints)[i] == At(breakpoints[i])
  {
    if breakpoints != [] { EdgesAt(breakpoints[1..]); }
  }

  function OpenEnded(edges: seq<Edge>): seq<Edge>
    requires |edges| >= 2
  {
    edges[0 := NegInf][|edges| - 1 := PosInf]
  }

  /** Buckets are half open; nothing exceeds the last edge, so the last one is closed for free. */
  function InBucket(edges: seq<Edge>, i: nat): real -> bool
    requires i + 1 < |edges|
  {
    (x: real) => AtOrAbove(x, edges[i]) && Below(x, edges[i + 1])
  }

  function HistogramFrom(edges: seq<Edge>, xs: seq<real>, i: nat): (r: seq<nat>)
    requires i < |edges|
    ensures |r| == |edges| - 1 - i
    decreases |edges| - i
  {
    if i + 1 == |edges| then [] else [|Filter(xs, InBucket(edges, i))|] + HistogramFrom(edges, xs, i + 1)
  }

  /** `np.histogram(xs, bins=edges)`. */
  function Histogram(edges: seq<Edge>, xs: seq<real>): (r: seq<nat>)
    requires edges != []
    ensures |r| == |edges| - 1
  {
    HistogramFrom(edges, xs, 0)
  }

  ghost predicate Increasing(edges: seq<Edge>) {
    && |edges| >= 2 && edges[0].NegInf? && edges[|edges| - 1].PosInf?
    && (forall i :: 0 < i < |edges| - 1 ==> edges[i].At?)
    && (forall i, j :: 0 < i < j < |edges| - 1 ==> edges[i].x < edges[j].x)
  }

  lemma OpenEndedIncreases(breakpoints: seq<real>)
    requires StrictlyIncreasing(breakpoints) && |breakpoints| >= 3
    ensures Increasing(OpenEnded(Edges(breakpoints)))
  {
    EdgesAt(breakpoints);
  }

  /** From edge i on, an element is counted once if it lies at or above that edge, and not at all otherwise. */
  lemma {:induction false} HistogramCons(edges: seq<Edge>, x: real, xs: seq<real>, i: nat)
    requires Increasing(edges) && i < |edges|
    ensures Total(HistogramFrom(edges, [x] + xs, i))
         == Total(HistogramFrom(edges, xs, i)) + if AtOrAbove(x, edges[i]) then 1 else 0
    decreases |edges| - i
  {
    if i + 1 < |edges| {
      HistogramCons(edges, x, xs, i + 1);
      assert ([x] + xs)[1..] == xs;
    }
  }

  lemma {:induction false} HistogramNone(edges: seq<Edge>, i: nat)
    requires i < |edges|
    ensures Total(HistogramFrom(edges, [], i)) == 0
    decreases |edges| - i
  {
    if i + 1 < |edges| { HistogramNone(edges, i + 1); }
  }

  /** Histogram conservation: every value lands in exactly one bucket. */
  lemma {:induction false} HistogramConserves(edges: seq<Edge>, xs: seq<real>)
    requires Increasing(edges)
    ensures Total(Histogram(edges, xs)) == |xs|
  {
    if xs == [] {
      HistogramNone(edges, 0);
    } else {
      HistogramConserves(edges, xs[1..]);
      HistogramCons(edges, xs[0], xs[1..], 0);
      assert [xs[0]] + xs[1..] == xs;
    }
  }

  // ---- The index ----

  const FLOOR := 0.0001

  function Clip(x: real): real {
    if x < FLOOR then FLOOR else x
  }

  function RawShares(counts: seq<nat>, total: nat): (r: seq<real>)
    requires total > 0
    ensures |r| == |counts|
  {
    if counts == [] then [] else [counts[0] as real / total as real] + RawShares(counts[1..], total)
  }

  function Term(ln: real -> real, r: real, c: real): real
    requires r > 0.0
  {
    (c - r) * ln(c / r)
  }

  /** The sum over the buckets, on clipped shares. */
  function PsiOf(ln: real -> real, ref: seq<real>, cur: seq<real>): real
    requires |ref| == |cur|
  {
    if ref == [] then 0.0
    else Term(ln, Clip(ref[0]), Clip(cur[0])) + PsiOf(ln, ref[1..], cur[1..])
  }

  /** The unclipped share of a sample in each bucket. */
  function BucketShares(breakpoints: seq<real>, xs: seq<real>): (r: seq<real>)
    requires |breakpoints| >= 3 && xs != []
    ensures |r| == |breakpoints| - 1
  {
    RawShares(Histogram(OpenEnded(Edges(breakpoints)), xs), |xs|)
  }

  function Psi(ln: real -> real, reference: seq<Value>, current: seq<Value>, buckets: nat): real
    requires buckets > 0
  {
    var ref, cur := DropNan(reference), DropNan(current);
    if |ref| < buckets || cur == [] then 0.0
    else
      var breakpoints := Breakpoints(ref, buckets);
      if |breakpoints| < 3 then 0.0
      else PsiOf(ln, BucketShares(breakpoints, ref), BucketShares(breakpoints, cur))
  }

  /** `population_stability_index`. */
  method PopulationStabilityIndex(ln: real -> real, reference: seq<Value>, current: seq<Value>, buckets: nat := 10)
    returns (psi: real)
    requires buckets > 0
    ensures psi == Psi(ln, reference, current, buckets)
  {
    var ref, cur := DropNan(reference), DropNan(current);
    if |ref| < buckets || |cur| == 0 {
      return 0.0;
    }
    var breakpoints := Breakpoints(ref, buckets);
    if |breakpoints| < 3 {
      return 0.0;
    }
    var edges := Edges(breakpoints);
    edges := edges[0 := NegInf];
    edges := edges[|edges| - 1 := PosInf];
    var refCounts, curCounts := Histogram(edges, ref), Histogram(edges, cur);
    psi := PsiOf(ln, RawShares(refCounts, |ref|), RawShares(curCounts, |cur|));
  }

  // ---- Bounds ----

  /** What is used of the natural logarithm. */
  ghost predicate IsLn(ln: real -> real) {
    && ln(1.0) == 0.0
    && (forall x, y :: 0.0 < x < y ==> ln(x) < ln(y))
    && (forall x :: x > 0.0 ==> ln(1.0 / x) == -ln(x))
  }

  lemma SomeLn() returns (ln: real -> real)
    ensures IsLn(ln)
  {
    ln := (x: real) => if x > 0.0 then x - 1.0 / x else 0.0;
    forall x: real, y: real | 0.0 < x < y ensures ln(x) < ln(y) {
      InverseFalls(x, y);
    }
    forall x: real | x > 0.0 ensures ln(1.0 / x) == -ln(x) {
      DivPositive(1.0, x);
      InverseTwice(x);
    }
  }

  lemma InverseFalls(x: real, y: real)
    requires 0.0 < x < y
    ensures 1.0 / y < 1.0 / x
  {
    DivPositive(1.0, x);
    DivTimes(1.0, x);
    DivTimes(1.0, y);
    TimesStrict(x, y, 1.0 / x);
    TimesCancel(1.0 / y, 1.0 / x, y);
  }

  lemma TimesCancel(a: real, b: real, w: real)
    requires w > 0.0 && a * w < b * w
    ensures a < b
  {}

  lemma InverseTwice(x: real)
    requires x > 0.0
    ensures 1.0 / x > 0.0 && 1.0 / (1.0 / x) == x
  {
    DivFraction(1.0, x);
  }

  function Abs(x: real): real {
    if x < 0.0 then -x else x
  }

  lemma QuotientAbove(c: real, r: real, k: real)
    requires r > 0.0 && k * r < c
    ensures c / r > k
  {
    if c / r <= k {
      TimesMonotone(c / r, k, r);
      DivTimes(c, r);
    }
  }

  lemma QuotientBelow(c: real, r: real, k: real)
    requires r > 0.0 && c < k * r
    ensures c / r < k
  {
    if c / r >= k {
      TimesMonotone(k, c / r, r);
      DivTimes(c, r);
    }
  }

  lemma TermSign(ln: real -> real, r: real, c: real)
    requires IsLn(ln) && r > 0.0 && c > 0.0
    ensures Term(ln, r, c) >= 0.0
    ensures Term(ln, r, c) == 0.0 <==> r == c
  {
    if c > r {
      QuotientAbove(c, r, 1.0);
      TimesPositive(c - r, ln(c / r));
    } else if c < r {
      QuotientBelow(c, r, 1.0);
      DivPositive(c, r);
      TimesPositive(c - r, ln(c / r));
    }
  }

  lemma QuotientAtMost(c: real, r: real, k: real)
    requires r > 0.0 && c <= k * r
    ensures c / r <= k
  {
    if c / r > k {
      DivTimes(c, r);
      TimesStrict(k, c / r, r);
    }
  }

  /** Both shares within [1e-4, 1] keep the logarithm of their quotient within ln(10^4). */
  lemma LnBounded(ln: real -> real, r: real, c: real)
    requires IsLn(ln) && FLOOR <= r <= 1.0 && FLOOR <= c <= 1.0
    ensures c / r > 0.0 && -ln(10000.0) <= ln(c / r) <= ln(10000.0)
  {
    DivPositive(c, r);
    QuotientAtMost(c, r, 10000.0);
    QuotientAtMost(r, c, 10000.0);
    DivPositive(r, c);
    InverseQuotient(c, r);
    assert ln(1.0 / (r / c)) == -ln(r / c);
  }

  lemma InverseQuotient(c: real, r: real)
    requires c > 0.0 && r > 0.0
    ensures r / c > 0.0 && 1.0 / (r / c) == c / r
  {
    DivPositive(r, c);
    var q := r / c;
    DivTimes(r, c);
    DivTimes(c, r);
    assert q * (c / r) == 1.0 by {
      assert q * c == r;
      assert (q * c) / r == 1.0;
    }
  }

  lemma TermBounded(ln: real -> real, r: real, c: real)
    requires IsLn(ln) && FLOOR <= r <= 1.0 && FLOOR <= c <= 1.0
    ensures Term(ln, r, c) <= Abs(c - r) * ln(10000.0)
  {
    LnBounded(ln, r, c);
    var l, b := ln(c / r), ln(10000.0);
    if c >= r {
      TimesMonotone(l, b, c - r);
    } else {
      TimesMonotone(-l, b, r - c);
      assert (c - r) * l == (r - c) * -l;
    }
  }

  /** Clipping brings two shares no further apart. */
  lemma ClipIsLipschitz(x: real, y: real)
    ensures Abs(Clip(x) - Clip(y)) <= Abs(x - y)
  {}

  ghost predicate AreShares(s: seq<real>) {
    forall i :: 0 <= i < |s| ==> 0.0 <= s[i] <= 1.0
  }

  lemma {:induction false} PsiSign(ln: real -> real, ref: seq<real>, cur: seq<real>)
    requires IsLn(ln) && |ref| == |cur|
    ensures PsiOf(ln, ref, cur) >= 0.0
    ensures PsiOf(ln, ref, cur) == 0.0 <==> forall i :: 0 <= i < |ref| ==> Clip(ref[i]) == Clip(cur[i])
  {
    hide Term, Clip;
    if ref != [] {
      assert Clip(ref[0]) > 0.0 && Clip(cur[0]) > 0.0 by { ClipPositive(ref[0]); ClipPositive(cur[0]); }
      TermSign(ln, Clip(ref[0]), Clip(cur[0]));
      PsiSign(ln, ref[1..], cur[1..]);
      if forall i :: 0 <= i < |ref| ==> Clip(ref[i]) == Clip(cur[i]) {
        forall i | 0 <= i < |ref[1..]| ensures Clip(ref[1..][i]) == Clip(cur[1..][i]) {
          assert ref[1..][i] == ref[i + 1] && cur[1..][i] == cur[i + 1];
        }
      }
      if PsiOf(ln, ref, cur) == 0.0 {
        forall i | 0 <= i < |ref| ensures Clip(ref[i]) == Clip(cur[i]) {
          if i > 0 {
            assert ref[1..][i - 1] == ref[i] && cur[1..][i - 1] == cur[i];
          }
        }
      }
    }
  }

  lemma ClipPositive(x: real)
    ensures Clip(x) >= FLOOR > 0.0
    ensures x <= 1.0 ==> Clip(x) <= 1.0
  {}

  lemma {:induction false} PsiBelowDistance(ln: real -> real, ref: seq<real>, cur: seq<real>)
    requires IsLn(ln) && |ref| == |cur| && AreShares(ref) && AreShares(cur)
    ensures PsiOf(ln, ref, cur) <= (Sum(ref) + Sum(cur)) * ln(10000.0)
  {
    hide Term, Clip;
    if ref != [] {
      assert ln(10000.0) > ln(1.0);
      var r, c := ref[0], cur[0];
      ClipPositive(r);
      ClipPositive(c);
      TermBounded(ln, Clip(r), Clip(c));
      ClipIsLipschitz(c, r);
      PsiBelowDistance(ln, ref[1..], cur[1..]);
      AddBounded(Term(ln, Clip(r), Clip(c)), Abs(Clip(c) - Clip(r)), r + c,
        PsiOf(ln, ref[1..], cur[1..]), Sum(ref[1..]) + Sum(cur[1..]), ln(10000.0));
    }
  }

  lemma AddBounded(t: real, d: real, x: real, p: real, y: real, w: real)
    requires t <= d * w && d <= x && p <= y * w && w >= 0.0
    ensures t + p <= (x + y) * w
  {
    TimesMonotone(d, x, w);
    Distribute(x, y, w);
  }

  lemma {:induction false} SharesSum(counts: seq<nat>, total: nat)
    requires total > 0 && Total(counts) <= total
    ensures AreShares(RawShares(counts, total))
    ensures Sum(RawShares(counts, total)) == Total(counts) as real / total as real
  {
    if counts != [] {
      SharesSum(counts[1..], total);
      ShareRange(counts[0], total);
      AddQuotients(counts[0] as real, Total(counts[1..]) as real, total as real);
    }
  }

  lemma ShareRange(n: nat, total: nat)
    requires n <= total && total > 0
    ensures 0.0 <= n as real / total as real <= 1.0
  {
    QuotientAtMost(n as real, total as real, 1.0);
  }

  lemma BucketSharesSum(breakpoints: seq<real>, xs: seq<real>)
    requires StrictlyIncreasing(breakpoints) && |breakpoints| >= 3 && xs != []
    ensures Total(Histogram(OpenEnded(Edges(breakpoints)), xs)) == |xs|
    ensures AreShares(BucketShares(breakpoints, xs))
    ensures Sum(BucketShares(breakpoints, xs)) == 1.0
  {
    hide Histogram, RawShares;
    var edges := OpenEnded(Edges(breakpoints));
    OpenEndedIncreases(breakpoints);
    HistogramConserves(edges, xs);
    SharesSum(Histogram(edges, xs), |xs|);
    DivSelf(|xs| as real);
  }

  /** The index lies between 0 and 2 ln(10^4), for all samples. */
  lemma PsiBounds(ln: real -> real, reference: seq<Value>, current: seq<Value>, buckets: nat)
    requires IsLn(ln) && buckets > 0
    ensures 0.0 <= Psi(ln, reference, current, buckets) <= 2.0 * ln(10000.0)
  {
    hide PsiOf, BucketShares, Breakpoints, DropNan, Sum;
    assert ln(10000.0) > ln(1.0);
    var ref, cur := DropNan(reference), DropNan(current);
    if |ref| >= buckets && cur != [] {
      var breakpoints := Breakpoints(ref, buckets);
      if |breakpoints| >= 3 {
        BreakpointsIncrease(ref, buckets);
        BucketSharesSum(breakpoints, ref);
        BucketSharesSum(breakpoints, cur);
        PsiSign(ln, BucketShares(breakpoints, ref), BucketShares(breakpoints, cur));
        PsiBelowDistance(ln, BucketShares(breakpoints, ref), BucketShares(breakpoints, cur));
      }
    }
  }

  /** When buckets are formed, the counts sum to the sample sizes, and the index is 0
      exactly if every bucket's clipped shares coincide. */
  lemma PsiZero(ln: real -> real, reference: seq<Value>, current: seq<Value>, buckets: nat)
    requires IsLn(ln) && buckets > 0
    requires |DropNan(reference)| >= buckets && DropNan(current) != []
    requires |Breakpoints(DropNan(reference), buckets)| >= 3
    ensures var ref, cur := DropNan(reference), DropNan(current);
      var breakpoints := Breakpoints(ref, buckets);
      var edges := OpenEnded(Edges(breakpoints));
      var r, c := BucketShares(breakpoints, ref), BucketShares(breakpoints, cur);
      && Total(Histogram(edges, ref)) == |ref| && Total(Histogram(edges, cur)) == |cur|
      && (Psi(ln, reference, current, buckets) == 0.0 <==> forall i :: 0 <= i < |r| ==> Clip(r[i]) == Clip(c[i]))
  {
    hide PsiOf, BucketShares, Breakpoints, DropNan, Histogram;
    var ref, cur := DropNan(reference), DropNan(current);
    var breakpoints := Breakpoints(ref, buckets);
    BreakpointsIncrease(ref, buckets);
    BucketSharesSum(breakpoints, ref);
    BucketSharesSum(breakpoints, cur);
    PsiSign(ln, BucketShares(breakpoints, ref), BucketShares(breakpoints, cur));
  }

  // ---- The report ----

  /** The Kolmogorov-Smirnov p-value; None stands for NaN, which passes no threshold. */
  type KsTest = (seq<Value>, seq<Value>) -> Option<real>
  type Frame = map<string, seq<Value>>

  datatype FeatureDrift = FeatureDrift(feature: string, psi: real, isDrifted: bool)

  datatype Thresholds = Thresholds(ksPValue: real, psi: real)

  const DEFAULTS := Thresholds(0.05, 0.25)

  function Present(values: seq<real>): seq<Value> {
    Map(values, (x: real) => Some(x))
  }

  function Drifted(p: Option<real>, psi: real, t: Thresholds): bool {
    (p.Some? && p.value < t.ksPValue) || psi > t.psi
  }

  predicate Comparable(ref: Frame, cur: Frame, col: string) {
    col in ref && col in cur && |DropNan(ref[col])| >= 2 && |DropNan(cur[col])| >= 2
  }

  function FeatureResult(ln: real -> real, ks: KsTest, ref: Frame, cur: Frame, col: string, t: Thresholds): FeatureDrift
    requires Comparable(ref, cur, col)
  {
    var r, c := Present(DropNan(ref[col])), Present(DropNan(cur[col]));
    var psi := Psi(ln, r, c, 10);
    FeatureDrift(col, psi, Drifted(ks(r, c), psi, t))
  }

  /** `compute_feature_drift`. */
  method ComputeFeatureDrift(ln: real -> real, ks: KsTest, ref: Frame, cur: Frame, columns: seq<string>, t: Thresholds)
    returns (results: seq<FeatureDrift>)
    ensures forall r :: r in results ==>
      r.feature in columns && Comparable(ref, cur, r.feature) && r == FeatureResult(ln, ks, ref, cur, r.feature, t)
    ensures forall c :: c in columns && Comparable(ref, cur, c) ==> FeatureResult(ln, ks, ref, cur, c, t) in results
  {
    hide Psi;
    results := [];
    for i := 0 to |columns|
      invariant forall r :: r in results ==>
        r.feature in columns && Comparable(ref, cur, r.feature) && r == FeatureResult(ln, ks, ref, cur, r.feature, t)
      invariant forall j :: 0 <= j < i && Comparable(ref, cur, columns[j]) ==>
        FeatureResult(ln, ks, ref, cur, columns[j], t) in results
    {
      var col := columns[i];
      if col !in ref || col !in cur {
        continue;
      }
      var refValues, curValues := DropNan(ref[col]), DropNan(cur[col]);
      if |refValues| < 2 || |curValues| < 2 {
        continue;
      }
      var p := ks(Present(refValues), Present(curValues));
      var psi := PopulationStabilityIndex(ln, Present(refValues), Present(curValues));
      results := results + [FeatureDrift(col, psi, Drifted(p, psi, t))];
    }
  }

  datatype ScoreDrift = ScoreDrift(psi: real, drifted: bool)

  /** `compute_score_drift`; too few scores read as no drift. */
  function ComputeScoreDrift(ln: real -> real, ks: KsTest, ref: seq<Value>, cur: seq<Value>,
                             t: Thresholds): ScoreDrift
  {
    if |ref| < 2 || |cur| < 2 then ScoreDrift(0.0, false)
    else
      var psi := Psi(ln, ref, cur, 10);
      ScoreDrift(psi, Drifted(ks(ref, cur), psi, t))
  }

  datatype DriftReport = DriftReport(features: seq<FeatureDrift>, score: Option<ScoreDrift>)

  predicate AnyDrift(r: DriftReport) {
    (exists i :: 0 <= i < |r.features| && r.features[i].isDrifted) || (r.score.Some? && r.score.value.drifted)
  }

  function Psis(r: DriftReport): seq<real> {
    Map(r.features, (f: FeatureDrift) => f.psi) + (if r.score.Some? then [r.score.value.psi] else [])
  }

  function MaxOf(s: seq<real>): real
    requires s != []
  {
    if |s| == 1 then s[0]
    else
      var rest := MaxOf(s[1..]);
      if s[0] >= rest then s[0] else rest
  }

  function MaxPsi(r: DriftReport): real {
    if Psis(r) == [] then 0.0 else MaxOf(Psis(r))
  }

  lemma {:induction false} MaxOfMember(s: seq<real>)
    requires s != []
    ensures MaxOf(s) in s
    ensures forall i :: 0 <= i < |s| ==> s[i] <= MaxOf(s)
  {
    if |s| > 1 { MaxOfMember(s[1..]); }
  }

  /** `build_drift_report`, which uses the default thresholds. */
  method BuildDriftReport(ln: real -> real, ks: KsTest, ref: Frame, cur: Frame, columns: seq<string>,
                          refScores: Option<seq<Value>>, curScores: Option<seq<Value>>)
    returns (r: DriftReport)
    requires IsLn(ln)
    ensures 0.0 <= MaxPsi(r) <= 2.0 * ln(10000.0)
    ensures MaxPsi(r) > 0.25 ==> AnyDrift(r)
    ensures forall f :: f in r.features ==> f.feature in columns && (f.psi > 0.25 ==> f.isDrifted)
    ensures forall f :: f in r.features ==>
      && Comparable(ref, cur, f.feature)
      && f == FeatureResult(ln, ks, ref, cur, f.feature, Thresholds(0.05, 0.25))
    ensures r.score == if refScores.Some? && curScores.Some?
      then Some(ComputeScoreDrift(ln, ks, refScores.value, curScores.value, Thresholds(0.05, 0.25))) else None
    ensures forall c :: c in columns && Comparable(ref, cur, c) ==> exists f :: f in r.features && f.feature == c
  {
    hide Psi, MaxPsi, AnyDrift;
    var features := ComputeFeatureDrift(ln, ks, ref, cur, columns, DEFAULTS);
    var score := None;
    if refScores.Some? && curScores.Some? {
      score := Some(ComputeScoreDrift(ln, ks, refScores.value, curScores.value, DEFAULTS));
      PsiBounds(ln, refScores.value, curScores.value, 10);
    }
    r := DriftReport(features, score);
    forall f | f in features ensures 0.0 <= f.psi <= 2.0 * ln(10000.0) && (f.psi > 0.25 ==> f.isDrifted) {
      PsiBounds(ln, Present(DropNan(ref[f.feature])), Present(DropNan(cur[f.feature])), 10);
    }
    assert ln(10000.0) > ln(1.0);
    MaxPsiBounded(r, 2.0 * ln(10000.0));
  }

  lemma MaxPsiBounded(r: DriftReport, bound: real)
    requires bound >= 0.0
    requires forall f :: f in r.features ==> 0.0 <= f.psi <= bound && (f.psi > 0.25 ==> f.isDrifted)
    requires r.score.Some? ==> 0.0 <= r.score.value.psi <= bound && (r.score.value.psi > 0.25 ==> r.score.value.drifted)
    ensures 0.0 <= MaxPsi(r) <= bound && (MaxPsi(r) > 0.25 ==> AnyDrift(r))
  {
    hide MaxOf;
    if Psis(r) != [] {
      MaxOfMember(Psis(r));
      var i :| 0 <= i < |Psis(r)| && Psis(r)[i] == MaxPsi(r);
      if i < |r.features| {
        assert r.features[i] in r.features && Psis(r)[i] == r.features[i].psi;
      }
    }
  }
}

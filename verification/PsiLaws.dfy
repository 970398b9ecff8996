/** What the stability index measures: its breakpoints are the quantiles of the reference, its buckets
    hold even parts of it, and its scale is fixed (src/ml/drift.py). */
module PsiLaws {
  import opened Sequences
  import opened Arithmetic
  import opened StableSort
  import opened Drift

  // ---- Quantiles ----

  /** v is the q-th of b quantiles of a sorted sample: at rank q(n - 1)/b it is the order statistic when
      the rank is whole, and otherwise divides the gap between its two neighbours as the rank does. */
  ghost predicate IsQuantile(s: seq<real>, q: nat, b: nat, v: real)
    requires b > 0
  {
    var rank := q * (|s| - 1);
    var i, f := rank / b, rank % b;
    && 0 <= i < |s|
    && (f == 0 ==> v == s[i])
    && (f != 0 ==> i + 1 < |s| && (v - s[i]) * b as real == f as real * (s[i + 1] - s[i]))
  }

  lemma RankWithin(n: nat, q: nat, b: nat)
    requires n >= 1 && q <= b && b > 0
    ensures var rank := q * (n - 1);
      && rank == rank / b * b + rank % b
      && 0 <= rank / b <= n - 1 && (rank % b != 0 ==> rank / b < n - 1)
      && (rank / b == n - 1 ==> rank % b == 0)
  {
    var rank := q * (n - 1);
    Product(q, b, n - 1);
    DivUpper(rank, n - 1, b);
  }

  lemma DivUpper(rank: nat, m: nat, b: nat)
    requires b > 0 && rank <= b * m
    ensures rank == rank / b * b + rank % b
    ensures rank / b <= m && (rank % b != 0 ==> rank / b < m)
  {
    var i := rank / b;
    assert rank == i * b + rank % b && b * m == m * b;
    Ordered(i, m, b);
  }

  lemma Ordered(i: nat, m: nat, b: nat)
    requires b > 0
    ensures i * b <= m * b ==> i <= m
    ensures i * b < m * b ==> i < m
  {
    if i > m {
      Product(m + 1, i, b);
      assert (m + 1) * b == m * b + b;
    }
  }

  lemma Product(x: int, y: int, w: nat)
    requires x <= y
    ensures x * w <= y * w && w * x <= w * y
  {}

  lemma FloorOfQuotient(rank: nat, b: nat)
    requires b > 0
    ensures (rank as real / b as real).Floor == rank / b
    ensures (rank as real / b as real - (rank / b) as real) * b as real == (rank % b) as real
  {
    var i, f := rank / b, rank % b;
    assert rank == i * b + f;
    var x := rank as real / b as real;
    DivTimes(rank as real, b as real);
    RealOf(i, b, f);
    var r := x - i as real;
    Distribute(x, -(i as real), b as real);
    assert r * b as real == f as real;
    Fraction(r, f, b);
    assert x == i as real + r && 0.0 <= r < 1.0;
  }

  lemma RealOf(i: int, b: int, f: int)
    ensures (i * b + f) as real == i as real * b as real + f as real
  {}

  lemma Fraction(r: real, f: nat, b: nat)
    requires f < b && r * b as real == f as real
    ensures 0.0 <= r < 1.0
  {
    if r < 0.0 { TimesStrict(r, 0.0, b as real); }
    if r >= 1.0 { TimesMonotone(1.0, r, b as real); }
  }

  lemma PercentileLaw(s: seq<real>, q: nat, b: nat)
    requires s != [] && q <= b && b > 0
    ensures IsQuantile(s, q, b, Percentile(s, q, b))
  {
    var rank := q * (|s| - 1);
    RankWithin(|s|, q, b);
    FloorOfQuotient(rank, b);
    PercentileIs(s, q, b, rank);
    if rank / b < |s| - 1 {
      hide Percentile;
      InterpolatedAt(s, rank, b, Percentile(s, q, b));
    }
  }

  lemma PercentileIs(s: seq<real>, q: nat, b: nat, rank: nat)
    requires s != [] && q <= b && b > 0 && rank == q * (|s| - 1)
    requires (rank as real / b as real).Floor == rank / b && rank / b <= |s| - 1
    ensures rank / b < |s| - 1 ==>
      var i := rank / b;
      Percentile(s, q, b) == s[i] + (rank as real / b as real - i as real) * (s[i + 1] - s[i])
    ensures rank / b == |s| - 1 ==> Percentile(s, q, b) == s[|s| - 1]
  {}

  lemma InterpolatedAt(s: seq<real>, rank: nat, b: nat, v: real)
    requires b > 0 && rank / b < |s| - 1
    requires var part := rank as real / b as real - (rank / b) as real;
      v == s[rank / b] + part * (s[rank / b + 1] - s[rank / b]) && part * b as real == (rank % b) as real
    ensures rank % b == 0 ==> v == s[rank / b]
    ensures (v - s[rank / b]) * b as real == (rank % b) as real * (s[rank / b + 1] - s[rank / b])
  {
    var part, gap := rank as real / b as real - (rank / b) as real, s[rank / b + 1] - s[rank / b];
    if rank % b == 0 {
      NoFraction(part, b);
    }
    Interpolated(part, gap, b as real, (rank % b) as real);
  }

  lemma NoFraction(r: real, b: nat)
    requires b > 0 && r * b as real == 0.0
    ensures r == 0.0
  {
    if r < 0.0 { TimesStrict(r, 0.0, b as real); }
    if r > 0.0 { TimesStrict(0.0, r, b as real); }
  }

  lemma Interpolated(part: real, gap: real, b: real, f: real)
    requires part * b == f
    ensures (part * gap) * b == f * gap
  {
    TimesCommutes(part, gap);
    TimesAssociates(gap, part, b);
    TimesCommutes(gap, f);
  }

  /** A quantile lies between its neighbours, strictly inside when they differ and the rank is not whole. */
  lemma QuantileBetween(s: seq<real>, q: nat, b: nat, v: real)
    requires b > 0 && Sorted(s, Identity) && IsQuantile(s, q, b, v)
    ensures var i, f := q * (|s| - 1) / b, q * (|s| - 1) % b;
      && s[0] <= v <= s[|s| - 1] && s[i] <= v
      && (f != 0 ==> v <= s[i + 1] && (s[i] < s[i + 1] ==> s[i] < v < s[i + 1]))
  {
    var i, f := q * (|s| - 1) / b, q * (|s| - 1) % b;
    InOrder(s, 0, i);
    InOrder(s, i, |s| - 1);
    if f != 0 {
      InOrder(s, i, i + 1);
      InOrder(s, i + 1, |s| - 1);
      Inside(v - s[i], s[i + 1] - s[i], f, b);
    }
  }

  lemma InOrder(s: seq<real>, i: nat, j: nat)
    requires Sorted(s, Identity) && i <= j < |s|
    ensures s[i] <= s[j]
  {
    if i < j { assert Identity(s[i]) <= Identity(s[j]); }
  }

  lemma Inside(x: real, gap: real, f: nat, b: nat)
    requires 0 < f < b && gap >= 0.0 && x * b as real == f as real * gap
    ensures 0.0 <= x <= gap && (gap > 0.0 ==> 0.0 < x < gap)
  {
    TimesMonotone(0.0, gap, f as real);
    TimesMonotone(f as real, b as real, gap);
    TimesCommutes(gap, b as real);
    Cancel(0.0, x, b as real);
    Cancel(x, gap, b as real);
    if gap > 0.0 {
      TimesPositive(f as real, gap);
      TimesStrict(f as real, b as real, gap);
    }
  }

  lemma Cancel(x: real, y: real, w: real)
    requires w > 0.0
    ensures x * w <= y * w ==> x <= y
    ensures x * w < y * w ==> x < y
  {
    if x > y { TimesStrict(y, x, w); }
    if x >= y { TimesMonotone(y, x, w); }
  }

  // ---- Breakpoints ----

  lemma {:induction false} PercentilesAt(s: seq<real>, q: nat, b: nat)
    requires s != [] && q <= b && b > 0
    ensures |Percentiles(s, q, b)| == b - q + 1
    ensures forall k :: 0 <= k <= b - q ==> Percentiles(s, q, b)[k] == Percentile(s, q + k, b)
    decreases b - q
  {
    if q < b { PercentilesAt(s, q + 1, b); }
  }

  lemma {:induction false} DedupMembers(s: seq<real>)
    ensures forall x :: x in Dedup(s) <==> x in s
    ensures s != [] ==> Dedup(s) != [] && Dedup(s)[|Dedup(s)| - 1] == s[|s| - 1]
  {
    if |s| > 1 {
      DedupMembers(s[1..]);
      assert forall x :: x in s <==> x == s[0] || x in s[1..];
      if s[0] != s[1] {
        assert Dedup(s) == [s[0]] + Dedup(s[1..]);
      }
    }
  }

  lemma BreakpointMembers(ref: seq<real>, b: nat)
    requires ref != [] && b > 0
    ensures |Sort(ref, Identity)| == |ref|
    ensures forall v ::
      v in Breakpoints(ref, b) <==> exists q :: 0 <= q <= b && v == Percentile(Sort(ref, Identity), q, b)
    ensures Breakpoints(ref, b) != []
  {
    SortPermutes(ref, Identity);
    var s := Sort(ref, Identity);
    hide Sort, Percentile, Dedup;
    var ps := Percentiles(s, 0, b);
    PercentilesAt(s, 0, b);
    SortPermutes(ps, Identity);
    SamePlaces(ps, Sort(ps, Identity));
    DedupMembers(Sort(ps, Identity));
    forall q | 0 <= q <= b ensures Percentile(s, q, b) in ps {
      assert ps[q] == Percentile(s, q, b);
    }
  }

  ghost predicate HasQuantile(bp: seq<real>, s: seq<real>, q: nat, b: nat)
    requires b > 0
  {
    exists v :: v in bp && IsQuantile(s, q, b, v)
  }

  ghost predicate IsSomeQuantile(s: seq<real>, b: nat, v: real)
    requires b > 0
  {
    exists q :: 0 <= q <= b && IsQuantile(s, q, b, v)
  }

  /** The breakpoints are, in increasing order, exactly the quantiles of the reference in whatever way it
      is sorted; the first is its minimum and the last its maximum. */
  lemma BreakpointsLaw(ref: seq<real>, b: nat, s: seq<real>)
    requires ref != [] && b > 0 && multiset(s) == multiset(ref) && Sorted(s, Identity)
    ensures StrictlyIncreasing(Breakpoints(ref, b))
    ensures forall q :: 0 <= q <= b ==> HasQuantile(Breakpoints(ref, b), s, q, b)
    ensures forall v :: v in Breakpoints(ref, b) ==> IsSomeQuantile(s, b, v)
    ensures var bp := Breakpoints(ref, b);
      && bp != [] && bp[0] in ref && bp[|bp| - 1] in ref
      && forall x :: x in ref ==> bp[0] <= x <= bp[|bp| - 1]
  {
    hide Breakpoints, Percentile, IsQuantile, Sort;
    SortSorts(ref, Identity);
    SortPermutes(ref, Identity);
    OneSorting(s, Sort(ref, Identity));
    BreakpointsIncrease(ref, b);
    BreakpointMembers(ref, b);
    var bp := Breakpoints(ref, b);
    forall q | 0 <= q <= b ensures IsQuantile(s, q, b, Percentile(s, q, b)) && HasQuantile(bp, s, q, b) {
      PercentileLaw(s, q, b);
      assert Percentile(s, q, b) in bp;
    }
    forall v | v in bp ensures IsSomeQuantile(s, b, v) {
      var q :| 0 <= q <= b && v == Percentile(s, q, b);
    }
    BreakpointEnds(ref, b, s);
  }

  lemma BreakpointEnds(ref: seq<real>, b: nat, s: seq<real>)
    requires ref != [] && b > 0 && s == Sort(ref, Identity)
    ensures var bp := Breakpoints(ref, b);
      && bp != [] && bp[0] in ref && bp[|bp| - 1] in ref
      && forall x :: x in ref ==> bp[0] <= x <= bp[|bp| - 1]
  {
    hide Breakpoints, Percentile, IsQuantile, Sort;
    SortSorts(ref, Identity);
    SortPermutes(ref, Identity);
    SamePlaces(s, ref);
    SamePlaces(ref, s);
    BreakpointsIncrease(ref, b);
    BreakpointMembers(ref, b);
    Ends(s, b);
    var bp := Breakpoints(ref, b);
    assert s[0] in bp && s[|s| - 1] in bp;
    forall v | v in bp ensures s[0] <= v <= s[|s| - 1] {
      var q :| 0 <= q <= b && v == Percentile(s, q, b);
      PercentileLaw(s, q, b);
      QuantileBetween(s, q, b, v);
    }
    EndsAre(bp, s[0], s[|s| - 1]);
    forall x | x in ref ensures s[0] <= x <= s[|s| - 1] {
      var i :| 0 <= i < |s| && s[i] == x;
      InOrder(s, 0, i);
      InOrder(s, i, |s| - 1);
    }
  }

  lemma EndsAre(bp: seq<real>, low: real, high: real)
    requires StrictlyIncreasing(bp) && low in bp && high in bp
    requires forall v :: v in bp ==> low <= v <= high
    ensures bp[0] == low && bp[|bp| - 1] == high
  {
    var i :| 0 <= i < |bp| && bp[i] == low;
    var j :| 0 <= j < |bp| && bp[j] == high;
    assert bp[0] in bp && bp[|bp| - 1] in bp;
  }

  lemma OneSorting(s: seq<real>, t: seq<real>)
    requires Sorted(s, Identity) && Sorted(t, Identity) && multiset(s) == multiset(t)
    ensures s == t
  {
    SameSortedMultiset(s, t, Identity);
  }

  lemma Ends(s: seq<real>, b: nat)
    requires s != [] && b > 0
    ensures Percentile(s, 0, b) == s[0] && Percentile(s, b, b) == s[|s| - 1]
  {
    PercentileLaw(s, 0, b);
    PercentileLaw(s, b, b);
    WholeRank(|s| - 1, b);
    assert 0 * (|s| - 1) == 0;
  }

  lemma WholeRank(n: nat, b: nat)
    requires b > 0
    ensures b * n / b == n && b * n % b == 0
  {
    assert b * n == n * b + 0;
    var i, f := b * n / b, b * n % b;
    assert b * n == i * b + f;
    if i < n { Product(i + 1, n, b); }
    if i > n { Product(n + 1, i, b); }
  }

  // ---- Buckets of a reference without duplicates ----

  ghost predicate Strict(s: seq<real>) {
    forall i, j :: 0 <= i < j < |s| ==> s[i] < s[j]
  }

  lemma DistinctSorts(ref: seq<real>)
    requires NoDuplicates(ref)
    ensures Strict(Sort(ref, Identity)) && |Sort(ref, Identity)| == |ref|
  {
    var s := Sort(ref, Identity);
    SortSorts(ref, Identity);
    SortPermutes(ref, Identity);
    forall i, j | 0 <= i < j < |s| ensures s[i] < s[j] {
      InOrder(s, i, j);
      OncePerm(ref, s, i, j);
    }
  }

  lemma OncePerm(ref: seq<real>, s: seq<real>, i: nat, j: nat)
    requires NoDuplicates(ref) && multiset(ref) == multiset(s) && i < j < |s|
    ensures s[i] != s[j]
  {
    Twice(s, i, j);
    Once(ref, s[i]);
  }

  lemma Twice(s: seq<real>, i: nat, j: nat)
    requires i < j < |s|
    ensures s[i] == s[j] ==> multiset(s)[s[i]] >= 2
  {
    assert s == s[..j] + [s[j]] + s[j + 1..];
    assert s[i] in s[..j];
  }

  lemma {:induction false} Once(s: seq<real>, x: real)
    requires NoDuplicates(s)
    ensures multiset(s)[x] <= 1
  {
    if s != [] {
      assert s == [s[0]] + s[1..];
      assert forall k :: 0 <= k < |s[1..]| ==> s[1..][k] == s[k + 1];
      Once(s[1..], x);
      if s[0] == x {
        assert x !in s[1..];
      }
    }
  }

  /** On a strictly increasing sample, the j-th value is at or above the q-th quantile exactly when j is
      at or above its rank. */
  lemma AtOrAboveRank(s: seq<real>, q: nat, b: nat, v: real, j: nat)
    requires b > 0 && Strict(s) && IsQuantile(s, q, b, v) && j < |s|
    ensures s[j] >= v <==> j * b >= q * (|s| - 1)
  {
    var rank := q * (|s| - 1);
    var i, f := rank / b, rank % b;
    assert rank == i * b + f;
    assert forall k, l :: 0 <= k < l < |s| ==> Identity(s[k]) <= Identity(s[l]);
    QuantileBetween(s, q, b, v);
    if j <= i {
      Product(j, i, b);
      if j < i { Product(j + 1, i, b); }
    } else {
      Product(i + 1, j, b);
    }
  }

  /** A value between the i-th and the next, a fraction f/b of the way. */
  ghost predicate Divides(s: seq<real>, i: int, f: int, b: nat, v: real) {
    && 0 <= i < |s| && 0 <= f < b
    && (f == 0 ==> v == s[i])
    && (f != 0 ==> i + 1 < |s| && (v - s[i]) * b as real == f as real * (s[i + 1] - s[i]))
  }

  lemma QuantilesIncrease(s: seq<real>, q: nat, p: nat, b: nat, v: real, w: real)
    requires b > 0 && Strict(s) && |s| >= 2 && q < p
    requires IsQuantile(s, q, b, v) && IsQuantile(s, p, b, w)
    ensures v < w
  {
    var rank, rank' := q * (|s| - 1), p * (|s| - 1);
    RanksIncrease(q, p, |s| - 1);
    RanksApart(rank, rank', b);
    QuantileDivides(s, q, b, v);
    QuantileDivides(s, p, b, w);
    hide Strict, IsQuantile, Divides;
    DividesIncrease(s, rank / b, rank % b, rank' / b, rank' % b, b, v, w);
  }

  lemma QuantileDivides(s: seq<real>, q: nat, b: nat, v: real)
    requires b > 0 && IsQuantile(s, q, b, v)
    ensures Divides(s, q * (|s| - 1) / b, q * (|s| - 1) % b, b, v)
  {}

  lemma RanksApart(x: nat, y: nat, b: nat)
    requires b > 0 && x < y
    ensures x / b < y / b || (x / b == y / b && x % b < y % b)
  {
    var i, k := x / b, y / b;
    assert x == i * b + x % b && y == k * b + y % b;
    assert (k + 1) * b == k * b + b;
    Ordered(i, k + 1, b);
  }

  lemma DividesIncrease(s: seq<real>, i: int, f: int, k: int, e: int, b: nat, v: real, w: real)
    requires Strict(s) && Divides(s, i, f, b, v) && Divides(s, k, e, b, w)
    requires i < k || (i == k && f < e)
    ensures v < w
  {
    if f != 0 { Inside(v - s[i], s[i + 1] - s[i], f, b); }
    if e != 0 { Inside(w - s[k], s[k + 1] - s[k], e, b); }
    if i == k {
      SameGap(v - s[i], w - s[i], s[i + 1] - s[i], f, e, b);
    } else if i + 1 < k {
      assert s[i + 1] < s[k];
    }
  }

  lemma RanksIncrease(q: nat, p: nat, n: nat)
    requires q < p && n > 0
    ensures q * n < p * n
  {
    Product(q + 1, p, n);
  }

  lemma SameGap(x: real, y: real, gap: real, f: nat, e: nat, b: nat)
    requires b > 0 && f < e && gap > 0.0
    requires if f == 0 then x == 0.0 else x * b as real == f as real * gap
    requires y * b as real == e as real * gap
    ensures x < y
  {
    TimesStrict(f as real, e as real, gap);
    if f == 0 { assert x * b as real == 0.0; }
    Cancel(x, y, b as real);
  }

  lemma DistinctBreakpoints(ref: seq<real>, b: nat)
    requires NoDuplicates(ref) && |ref| >= 2 && b > 0
    ensures |Sort(ref, Identity)| == |ref| && |Breakpoints(ref, b)| == b + 1
    ensures forall q :: 0 <= q <= b ==> IsQuantile(Sort(ref, Identity), q, b, Breakpoints(ref, b)[q])
  {
    hide Percentile, IsQuantile, Sort;
    var s := Sort(ref, Identity);
    DistinctSorts(ref);
    PercentilesAt(s, 0, b);
    var ps := Percentiles(s, 0, b);
    forall q | 0 <= q <= b ensures IsQuantile(s, q, b, ps[q]) {
      PercentileLaw(s, q, b);
    }
    forall q, p | 0 <= q < p < |ps| ensures ps[q] < ps[p] {
      QuantilesIncrease(s, q, p, b, ps[q], ps[p]);
    }
    SortOfSorted(ps, Identity);
    DedupStrict(ps);
  }

  lemma {:induction false} DedupStrict(s: seq<real>)
    requires Strict(s)
    ensures Dedup(s) == s
  {
    if |s| > 1 { DedupStrict(s[1..]); }
  }

  lemma {:induction false} HistogramAt(edges: seq<Edge>, xs: seq<real>, i: nat, q: nat)
    requires i <= q && q + 1 < |edges|
    ensures HistogramFrom(edges, xs, i)[q - i] == |Filter(xs, InBucket(edges, q))|
    decreases q - i
  {
    if i < q { HistogramAt(edges, xs, i + 1, q); }
  }

  /** From a breakpoint up to the next; the first and the last bucket are open-ended. */
  function Interval(bp: seq<real>, q: nat): real -> bool
    requires q + 1 < |bp|
  {
    (x: real) => (q == 0 || bp[q] <= x) && (q + 2 == |bp| || x < bp[q + 1])
  }

  lemma EdgeAt(bp: seq<real>, k: nat)
    requires |bp| >= 2 && k < |bp|
    ensures OpenEnded(Edges(bp))[k] == if k == 0 then NegInf else if k == |bp| - 1 then PosInf else At(bp[k])
  {
    EdgesAt(bp);
  }

  /** A bucket counts the values of its interval. */
  lemma BucketAt(bp: seq<real>, xs: seq<real>, q: nat)
    requires |bp| >= 3 && q + 1 < |bp|
    ensures Histogram(OpenEnded(Edges(bp)), xs)[q] == |Filter(xs, Interval(bp, q))|
  {
    var edges := OpenEnded(Edges(bp));
    HistogramAt(edges, xs, 0, q);
    EdgeAt(bp, q);
    EdgeAt(bp, q + 1);
    forall x: real ensures InBucket(edges, q)(x) == Interval(bp, q)(x) {
      assert InBucket(edges, q)(x) <==> AtOrAbove(x, edges[q]) && Below(x, edges[q + 1]);
    }
    FilterSame(xs, InBucket(edges, q), Interval(bp, q));
  }

  function CeilDiv(a: nat, b: nat): nat
    requires b > 0
  {
    (a + b - 1) / b
  }

  lemma CeilBounds(a: nat, b: nat)
    requires b > 0
    ensures a <= CeilDiv(a, b) * b <= a + b - 1
  {
    var c := CeilDiv(a, b);
    assert a + b - 1 == c * b + (a + b - 1) % b;
  }

  lemma CeilMeaning(a: nat, b: nat, j: nat)
    requires b > 0
    ensures j * b >= a <==> j >= CeilDiv(a, b)
  {
    var c := CeilDiv(a, b);
    CeilBounds(a, b);
    if j >= c {
      Product(c, j, b);
    } else {
      Product(j + 1, c, b);
    }
  }

  /** A filter that keeps one stretch of a list keeps as many as the stretch is long. */
  lemma Stretch(s: seq<real>, p: real -> bool, lo: nat, hi: nat)
    requires lo <= hi <= |s| && forall j :: 0 <= j < |s| ==> (p(s[j]) <==> lo <= j < hi)
    ensures |Filter(s, p)| == hi - lo
  {
    var a, m, z := s[..lo], s[lo..hi], s[hi..];
    assert s == (a + m) + z;
    FilterConcat(a + m, z, p);
    FilterConcat(a, m, p);
    FilterNone(a, p);
    FilterAll(m, p);
    FilterNone(z, p);
  }

  /** Where the bucket's values start and end among the sorted ones. */
  function From(n: nat, q: nat, b: nat): nat
    requires b > 0 && n > 0
  {
    if q == 0 then 0 else if q == b then n else CeilDiv(q * (n - 1), b)
  }

  lemma FromAt(n: nat, q: nat, b: nat)
    requires b > 0 && n >= 2 && q <= b
    ensures q * (n - 1) <= From(n, q, b) * b <= q * (n - 1) + b
    ensures q < b ==> From(n, q, b) * b <= q * (n - 1) + b - 1
  {
    if q == b {
      assert n * b == b * (n - 1) + b;
    } else {
      CeilBounds(q * (n - 1), b);
    }
  }

  lemma FromBounds(n: nat, q: nat, b: nat)
    requires b > 0 && n >= 2 && q < b
    ensures var count := From(n, q + 1, b) - From(n, q, b);
      n - b <= count * b <= n + b
  {
    hide From;
    FromAt(n, q, b);
    FromAt(n, q + 1, b);
    NextRank(q, n - 1);
    Difference(From(n, q + 1, b), From(n, q, b), b);
  }

  lemma NextRank(q: nat, m: nat)
    ensures (q + 1) * m == q * m + m
  {}

  lemma Difference(x: int, y: int, b: nat)
    ensures (x - y) * b == x * b - y * b
  {}

  lemma InBucketPlaces(s: seq<real>, bp: seq<real>, b: nat, q: nat, j: nat)
    requires Strict(s) && |s| >= 2 && b >= 2 && q < b && |bp| == b + 1 && j < |s|
    requires IsQuantile(s, q, b, bp[q]) && IsQuantile(s, q + 1, b, bp[q + 1])
    ensures Interval(bp, q)(s[j]) <==> From(|s|, q, b) <= j < From(|s|, q + 1, b)
  {
    hide IsQuantile, CeilDiv, Strict;
    AtOrAboveRank(s, q, b, bp[q], j);
    AtOrAboveRank(s, q + 1, b, bp[q + 1], j);
    CeilMeaning(q * (|s| - 1), b, j);
    CeilMeaning((q + 1) * (|s| - 1), b, j);
  }

  lemma BucketPlaces(s: seq<real>, bp: seq<real>, b: nat, q: nat)
    requires Strict(s) && |s| >= 2 && b >= 2 && q < b && |bp| == b + 1
    requires forall k :: 0 <= k <= b ==> IsQuantile(s, k, b, bp[k])
    ensures From(|s|, q, b) <= From(|s|, q + 1, b)
    ensures |Filter(s, Interval(bp, q))| == From(|s|, q + 1, b) - From(|s|, q, b)
  {
    hide IsQuantile, From, Filter, Strict, Interval;
    FromOrdered(|s|, q, b);
    forall j | 0 <= j < |s| ensures Interval(bp, q)(s[j]) <==> From(|s|, q, b) <= j < From(|s|, q + 1, b) {
      InBucketPlaces(s, bp, b, q, j);
    }
    Stretch(s, Interval(bp, q), From(|s|, q, b), From(|s|, q + 1, b));
  }

  lemma FromOrdered(n: nat, q: nat, b: nat)
    requires b > 0 && n >= 2 && q < b
    ensures From(n, q, b) <= From(n, q + 1, b) <= n
  {
    CeilMeaning(q * (n - 1), b, CeilDiv((q + 1) * (n - 1), b));
    CeilBounds((q + 1) * (n - 1), b);
    Product(q, q + 1, n - 1);
    Product(q + 1, b, n - 1);
    CeilMeaning(q * (n - 1), b, n);
    CeilMeaning((q + 1) * (n - 1), b, n);
    assert n * b == b * (n - 1) + b;
  }

  /** When the n values of the reference differ, each of the b buckets holds n/b of them, up to one either way. */
  lemma EvenBuckets(ref: seq<real>, b: nat, q: nat)
    requires NoDuplicates(ref) && |ref| >= 2 && b >= 2 && q < b
    ensures |Breakpoints(ref, b)| == b + 1
    ensures var count := Histogram(OpenEnded(Edges(Breakpoints(ref, b))), ref)[q];
      |ref| - b <= count * b <= |ref| + b
  {
    hide IsQuantile, Sort, Breakpoints, Histogram, From, Interval, OpenEnded, Edges, Strict, Filter;
    var s, bp := Sort(ref, Identity), Breakpoints(ref, b);
    DistinctSorts(ref);
    DistinctBreakpoints(ref, b);
    SortPermutes(ref, Identity);
    SameBucket(bp, ref, s, q);
    BucketAt(bp, s, q);
    BucketPlaces(s, bp, b, q);
    FromBounds(|ref|, q, b);
  }

  lemma SameBucket(bp: seq<real>, xs: seq<real>, ys: seq<real>, q: nat)
    requires |bp| >= 3 && q + 1 < |bp| && multiset(xs) == multiset(ys)
    ensures Histogram(OpenEnded(Edges(bp)), xs)[q] == Histogram(OpenEnded(Edges(bp)), ys)[q]
  {
    var edges := OpenEnded(Edges(bp));
    HistogramAt(edges, xs, 0, q);
    HistogramAt(edges, ys, 0, q);
    FilterPermutation(xs, ys, InBucket(edges, q));
    SamePlaces(Filter(xs, InBucket(edges, q)), Filter(ys, InBucket(edges, q)));
  }

  // ---- The index on the shares ----

  /** The q-th share times the size of the sample is the number of its values in the q-th interval. */
  lemma ShareAt(bp: seq<real>, xs: seq<real>, q: nat)
    requires |bp| >= 3 && xs != [] && q + 1 < |bp|
    ensures BucketShares(bp, xs)[q] * |xs| as real == |Filter(xs, Interval(bp, q))| as real
  {
    hide Histogram, Filter, RawShares;
    BucketAt(bp, xs, q);
    var counts := Histogram(OpenEnded(Edges(bp)), xs);
    RawShareAt(counts, |xs|, q);
    DivTimes(counts[q] as real, |xs| as real);
  }

  lemma {:induction false} RawShareAt(counts: seq<nat>, total: nat, q: nat)
    requires total > 0 && q < |counts|
    ensures RawShares(counts, total)[q] == counts[q] as real / total as real
  {
    if q > 0 { RawShareAt(counts[1..], total, q - 1); }
  }

  function AtLeast(x: real, low: real): real {
    if x >= low then x else low
  }

  /** terms holds, bucket by bucket, (c - r) ln(c / r) for the shares r and c raised to at least 1e-4. */
  ghost predicate AreTerms(ln: real -> real, r: seq<real>, c: seq<real>, terms: seq<real>) {
    |r| == |c| == |terms| && forall i :: 0 <= i < |r| ==>
      var x, y := AtLeast(r[i], 0.0001), AtLeast(c[i], 0.0001);
      terms[i] == (y - x) * ln(y / x)
  }

  lemma TermIs(ln: real -> real, r: real, c: real)
    ensures Clip(r) == AtLeast(r, 0.0001) > 0.0 && Clip(c) == AtLeast(c, 0.0001)
    ensures Term(ln, Clip(r), Clip(c))
      == (AtLeast(c, 0.0001) - AtLeast(r, 0.0001)) * ln(AtLeast(c, 0.0001) / AtLeast(r, 0.0001))
  {}

  lemma {:induction false} IndexSum(ln: real -> real, r: seq<real>, c: seq<real>, terms: seq<real>)
    requires AreTerms(ln, r, c, terms)
    ensures PsiOf(ln, r, c) == Sum(terms)
  {
    hide Term, Clip, AtLeast;
    if r != [] {
      TermIs(ln, r[0], c[0]);
      IndexSum(ln, r[1..], c[1..], terms[1..]);
    }
  }

  /** The index of two samples is the sum of those terms over the buckets of the reference, NaN dropped;
      it is 0 with fewer values than buckets, an empty current sample or fewer than three breakpoints. */
  lemma PsiLaw(ln: real -> real, reference: seq<Value>, current: seq<Value>, b: nat, terms: seq<real>)
    requires b > 0
    ensures var ref, cur := DropNan(reference), DropNan(current);
      if |ref| < b || cur == [] || |Breakpoints(ref, b)| < 3 then Psi(ln, reference, current, b) == 0.0
      else
        AreTerms(ln, BucketShares(Breakpoints(ref, b), ref), BucketShares(Breakpoints(ref, b), cur), terms)
        ==> Psi(ln, reference, current, b) == Sum(terms)
  {
    hide Breakpoints, BucketShares, AreTerms, PsiOf;
    var ref, cur := DropNan(reference), DropNan(current);
    if |ref| >= b && cur != [] && |Breakpoints(ref, b)| >= 3 {
      var r, c := BucketShares(Breakpoints(ref, b), ref), BucketShares(Breakpoints(ref, b), cur);
      if AreTerms(ln, r, c, terms) {
        IndexSum(ln, r, c, terms);
      }
    }
  }

  lemma {:induction false} NanDropped(values: seq<Value>)
    ensures Present(DropNan(values)) == Filter(values, IsNumber)
  {
    if values != [] {
      NanDropped(values[1..]);
      var rest := DropNan(values[1..]);
      if values[0].Some? {
        assert ([values[0].value] + rest)[1..] == rest;
      } else {
        assert [] + rest == rest;
      }
    }
  }

  predicate IsNumber(v: Value) {
    v.Some?
  }

  /** A sample that moved from one bucket to the other has the index 2 (1 - 1e-4) ln(10^4): the scale. */
  lemma FullShift(ln: real -> real)
    requires IsLn(ln)
    ensures PsiOf(ln, [1.0, 0.0], [0.0, 1.0]) == 2.0 * (1.0 - 0.0001) * ln(10000.0)
  {
    hide AtLeast, Sum, PsiOf;
    var terms := [(0.0001 - 1.0) * ln(0.0001 / 1.0), (1.0 - 0.0001) * ln(1.0 / 0.0001)];
    assert AtLeast(1.0, 0.0001) == 1.0 && AtLeast(0.0, 0.0001) == 0.0001 by { Clipped(); }
    assert ln(1.0 / 10000.0) == -ln(10000.0);
    assert 0.0001 / 1.0 == 1.0 / 10000.0 && 1.0 / 0.0001 == 10000.0;
    assert AreTerms(ln, [1.0, 0.0], [0.0, 1.0], terms);
    IndexSum(ln, [1.0, 0.0], [0.0, 1.0], terms);
    TwoTerms(terms[0], terms[1]);
    Distribute(1.0 - 0.0001, 1.0 - 0.0001, ln(10000.0));
  }

  lemma Clipped()
    ensures AtLeast(1.0, 0.0001) == 1.0 && AtLeast(0.0, 0.0001) == 0.0001
  {}

  lemma TwoTerms(x: real, y: real)
    ensures Sum([x, y]) == x + y
  {
    assert [x, y][1..] == [y] && [y][1..] == [];
    assert Sum([y]) == y + Sum([]);
  }

  // ---- The report ----

  /** A column's result: its index is that of the two raw columns, and it has drifted exactly when the
      test's p-value is below its threshold or the index above its own. */
  lemma FeatureLaw(ln: real -> real, ks: KsTest, ref: Frame, cur: Frame, col: string, t: Thresholds)
    requires Comparable(ref, cur, col)
    ensures var f := FeatureResult(ln, ks, ref, cur, col, t);
      var p := ks(Filter(ref[col], IsNumber), Filter(cur[col], IsNumber));
      && f.feature == col && f.psi == Psi(ln, ref[col], cur[col], 10)
      && (f.isDrifted <==> (p.Some? && p.value < t.ksPValue) || f.psi > t.psi)
  {
    hide Psi;
    NanDropped(ref[col]);
    NanDropped(cur[col]);
    DroppedTwice(ref[col]);
    DroppedTwice(cur[col]);
    SamePsi(ln, ref[col], cur[col]);
  }

  /** A column is compared when both frames hold it with at least two numbers each. */
  lemma ComparableLaw(ref: Frame, cur: Frame, col: string)
    ensures Comparable(ref, cur, col) <==>
      && col in ref && col in cur
      && |Filter(ref[col], IsNumber)| >= 2 && |Filter(cur[col], IsNumber)| >= 2
  {
    if col in ref { NanDropped(ref[col]); }
    if col in cur { NanDropped(cur[col]); }
  }

  lemma SamePsi(ln: real -> real, r: seq<Value>, c: seq<Value>)
    requires DropNan(Present(DropNan(r))) == DropNan(r) && DropNan(Present(DropNan(c))) == DropNan(c)
    ensures Psi(ln, Present(DropNan(r)), Present(DropNan(c)), 10) == Psi(ln, r, c, 10)
  {
    hide PsiOf, Breakpoints, BucketShares;
  }

  lemma {:induction false} PresentDropped(xs: seq<real>)
    ensures DropNan(Present(xs)) == xs
  {
    if xs != [] {
      PresentDropped(xs[1..]);
      assert Present(xs)[1..] == Present(xs[1..]);
    }
  }

  lemma DroppedTwice(values: seq<Value>)
    ensures DropNan(Present(DropNan(values))) == DropNan(values)
  {
    PresentDropped(DropNan(values));
  }

  lemma ScoreLaw(ln: real -> real, ks: KsTest, ref: seq<Value>, cur: seq<Value>, t: Thresholds)
    ensures var s := ComputeScoreDrift(ln, ks, ref, cur, t);
      if |ref| < 2 || |cur| < 2 then s == ScoreDrift(0.0, false)
      else
        && s.psi == Psi(ln, ref, cur, 10)
        && (s.drifted <==> (ks(ref, cur).Some? && ks(ref, cur).value < t.ksPValue) || s.psi > t.psi)
  {
    hide Psi;
  }

  /** The report's maximum is the largest index it holds, or 0 when it holds none; it reports drift
      exactly when some column or the scores have drifted. */
  lemma ReportLaw(r: DriftReport)
    ensures forall i :: 0 <= i < |r.features| ==> r.features[i].psi <= MaxPsi(r)
    ensures r.score.Some? ==> r.score.value.psi <= MaxPsi(r)
    ensures || (r.features == [] && r.score.None? && MaxPsi(r) == 0.0)
      || (exists i :: 0 <= i < |r.features| && r.features[i].psi == MaxPsi(r))
      || (r.score.Some? && r.score.value.psi == MaxPsi(r))
    ensures AnyDrift(r) <==>
      (exists f :: f in r.features && f.isDrifted) || (r.score.Some? && r.score.value.drifted)
  {
    var ps := Psis(r);
    assert forall i :: 0 <= i < |r.features| ==> ps[i] == r.features[i].psi;
    if ps != [] {
      MaxOfMember(ps);
      var k :| 0 <= k < |ps| && ps[k] == MaxPsi(r);
      if k < |r.features| {
        assert r.features[k].psi == MaxPsi(r);
      }
      if r.score.Some? {
        assert ps[|r.features|] == r.score.value.psi;
      }
    }
  }
}

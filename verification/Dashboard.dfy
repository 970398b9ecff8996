/** The dashboard payload and the upload route (src/api/batch.py,
    src/api/routes/batch.py). */
module Dashboard {
  import opened Sequences
  import opened Arithmetic
  import opened StableSort
  import opened Transactions
  import opened Features
  import opened Decision
  import opened Scoring

  predicate IsBlocked(r: Scored) {
    r.decision == Block
  }

  predicate IsAlert(r: Scored) {
    r.routedToReview
  }

  // ---- Time series ----

  function Seconds(micros: int): real {
    micros as real / MICROS as real
  }

  /** Where bucket i starts, when each is w seconds wide. */
  function Edge(i: nat, w: real): real {
    i as real * w
  }

  /** Bucket i of n: half open, except that the last one is closed. */
  predicate InBucket(offset: real, w: real, i: nat, n: nat) {
    Edge(i, w) <= offset && (offset < Edge(i + 1, w) || (i + 1 == n && offset <= Edge(n, w)))
  }

  function AlertIn(start: int, w: real, i: nat, n: nat): Scored -> bool {
    (r: Scored) => IsAlert(r) && InBucket(Seconds(r.txn.eventTime - start), w, i, n)
  }

  function Earliest(scored: seq<Scored>): int
    requires scored != []
  {
    if |scored| == 1 then scored[0].txn.eventTime
    else
      var rest := Earliest(scored[1..]);
      if scored[0].txn.eventTime < rest then scored[0].txn.eventTime else rest
  }

  function Latest(scored: seq<Scored>): int
    requires scored != []
  {
    if |scored| == 1 then scored[0].txn.eventTime
    else
      var rest := Latest(scored[1..]);
      if scored[0].txn.eventTime > rest then scored[0].txn.eventTime else rest
  }

  lemma {:induction false} Extremes(scored: seq<Scored>)
    requires scored != []
    ensures forall r :: r in scored ==> Earliest(scored) <= r.txn.eventTime <= Latest(scored)
    ensures Earliest(scored) <= Latest(scored)
  {
    if |scored| > 1 {
      Extremes(scored[1..]);
      assert forall r :: r in scored ==> r == scored[0] || r in scored[1..];
    }
  }

  /** The file's time span in seconds, or one second for a zero-span file. */
  function Span(scored: seq<Scored>): real
    requires scored != []
  {
    var seconds := Seconds(Latest(scored) - Earliest(scored));
    if seconds != 0.0 then seconds else 1.0
  }

  /** The file's own clock: it starts with the earliest row, ends with the latest, and its span is
      the seconds between them, or one second when they coincide. */
  lemma SpanLaw(scored: seq<Scored>)
    requires scored != []
    ensures exists r :: r in scored && r.txn.eventTime == Earliest(scored)
    ensures exists r :: r in scored && r.txn.eventTime == Latest(scored)
    ensures forall r :: r in scored ==> Earliest(scored) <= r.txn.eventTime <= Latest(scored)
    ensures if Earliest(scored) == Latest(scored) then Span(scored) == 1.0
      else Span(scored) * 1000000.0 == (Latest(scored) - Earliest(scored)) as real
  {
    Extremes(scored);
    ExtremesAttained(scored);
  }

  lemma {:induction false} ExtremesAttained(scored: seq<Scored>)
    requires scored != []
    ensures exists r :: r in scored && r.txn.eventTime == Earliest(scored)
    ensures exists r :: r in scored && r.txn.eventTime == Latest(scored)
  {
    assert scored[0] in scored;
    if |scored| > 1 {
      ExtremesAttained(scored[1..]);
      var a :| a in scored[1..] && a.txn.eventTime == Earliest(scored[1..]);
      var b :| b in scored[1..] && b.txn.eventTime == Latest(scored[1..]);
      assert a in scored && b in scored;
    }
  }

  /** A row is counted in bucket i of n, each w seconds wide, when it is routed to review and its time
      since the start, in microseconds, is at least i and less than i + 1 million widths; the last
      bucket also takes its own end. */
  lemma BucketLaw(start: int, w: real, i: nat, n: nat, r: Scored)
    ensures AlertIn(start, w, i, n)(r) <==>
      && r.routedToReview
      && i as real * w * 1000000.0 <= (r.txn.eventTime - start) as real
      && (|| (r.txn.eventTime - start) as real < (i + 1) as real * w * 1000000.0
          || (i + 1 == n && (r.txn.eventTime - start) as real <= n as real * w * 1000000.0))
  {
    var micros := (r.txn.eventTime - start) as real;
    Scaled(Edge(i, w), micros);
    Scaled(Edge(i + 1, w), micros);
    Scaled(Edge(n, w), micros);
  }

  lemma Scaled(edge: real, micros: real)
    ensures edge <= micros / 1000000.0 <==> edge * 1000000.0 <= micros
    ensures micros / 1000000.0 <= edge <==> micros <= edge * 1000000.0
  {}

  lemma BucketsDisjoint(offset: real, w: real, i: nat, j: nat, n: nat)
    requires w > 0.0 && i < n && j < n && i != j
    requires InBucket(offset, w, i, n)
    ensures !InBucket(offset, w, j, n)
  {
    hide Edge;
    if i < j {
      EdgeLe(i + 1, j, w);
    } else {
      EdgeLe(j + 1, i, w);
    }
  }

  lemma EdgeLe(i: nat, j: nat, w: real)
    requires i <= j && w > 0.0
    ensures Edge(i, w) <= Edge(j, w)
  {
    TimesMonotone(i as real, j as real, w);
  }

  lemma FloorTimes(offset: real, w: real)
    requires w > 0.0 && offset >= 0.0
    ensures var k := (offset / w).Floor;
      0 <= k && Edge(k, w) <= offset < Edge(k + 1, w)
  {
    DivTimes(offset, w);
    DivNonNegative(offset, w);
    var k := (offset / w).Floor;
    Between(offset, w, offset / w, k as real, (k + 1) as real);
  }

  lemma Between(offset: real, w: real, q: real, low: real, high: real)
    requires w > 0.0 && q * w == offset && low <= q < high
    ensures low * w <= offset < high * w
  {
    TimesMonotone(low, q, w);
    TimesStrict(q, high, w);
  }

  /** `min(int(offset / w), n - 1)` is the bucket that holds the offset. */
  lemma BucketIndex(offset: real, span: real, n: nat)
    requires n >= 1 && 0.0 <= offset <= span && span > 0.0
    ensures var w := span / n as real;
      w > 0.0 && var k := (offset / w).Floor;
      0 <= k && InBucket(offset, w, if k < n - 1 then k else n - 1, n)
  {
    var w := span / n as real;
    hide Edge;
    Parts(span, n);
    DivPositive(span, n as real);
    FloorTimes(offset, w);
    CappedBucket(offset, w, (offset / w).Floor, n);
  }

  lemma CappedBucket(offset: real, w: real, k: nat, n: nat)
    requires n >= 1 && w > 0.0 && offset <= Edge(n, w)
    requires Edge(k, w) <= offset < Edge(k + 1, w)
    ensures InBucket(offset, w, if k < n - 1 then k else n - 1, n)
  {
    hide Edge;
    if k >= n - 1 {
      EdgeLe(n - 1, k, w);
    }
  }

  lemma Parts(span: real, n: nat)
    requires n >= 1
    ensures Edge(n, span / n as real) == span
  {
    DivTimes(span, n as real);
    TimesCommutes(n as real, span / n as real);
  }

  /** The counts of the rows seen so far. */
  ghost predicate Bucketed(buckets: seq<nat>, rows: seq<Scored>, start: int, w: real, n: nat) {
    && |buckets| == n
    && (forall i :: 0 <= i < n ==> buckets[i] == |Filter(rows, AlertIn(start, w, i, n))|)
    && Total(buckets) == |Filter(rows, IsAlert)|
  }

  lemma BucketedNone(start: int, w: real, n: nat)
    ensures Bucketed(seq(n, i => 0), [], start, w, n)
  {
    TotalZeros(n);
  }

  lemma BucketedQuiet(buckets: seq<nat>, rows: seq<Scored>, start: int, w: real, n: nat, r: Scored)
    requires Bucketed(buckets, rows, start, w, n) && !IsAlert(r)
    ensures Bucketed(buckets, rows + [r], start, w, n)
  {
    FilterSnoc(rows, r, IsAlert);
    forall i | 0 <= i < n ensures Filter(rows + [r], AlertIn(start, w, i, n)) == Filter(rows, AlertIn(start, w, i, n)) {
      FilterSnoc(rows, r, AlertIn(start, w, i, n));
    }
  }

  lemma BucketedAlert(buckets: seq<nat>, rows: seq<Scored>, start: int, w: real, n: nat, r: Scored, idx: nat)
    requires Bucketed(buckets, rows, start, w, n) && IsAlert(r)
    requires w > 0.0 && idx < n && InBucket(Seconds(r.txn.eventTime - start), w, idx, n)
    ensures Bucketed(buckets[idx := buckets[idx] + 1], rows + [r], start, w, n)
  {
    hide Filter;
    var offset := Seconds(r.txn.eventTime - start);
    FilterSnoc(rows, r, IsAlert);
    TotalBump(buckets, idx);
    forall i | 0 <= i < n
      ensures |Filter(rows + [r], AlertIn(start, w, i, n))|
           == |Filter(rows, AlertIn(start, w, i, n))| + if i == idx then 1 else 0
    {
      FilterSnoc(rows, r, AlertIn(start, w, i, n));
      if i != idx { BucketsDisjoint(offset, w, idx, i, n); }
    }
  }

  /** One count per bucket, of the alerts its interval holds; no buckets for no rows. */
  ghost predicate CountsAlerts(buckets: seq<nat>, scored: seq<Scored>, n: nat)
    requires n >= 1
  {
    && (scored == [] ==> buckets == [])
    && (scored != [] ==> |buckets| == n && forall i :: 0 <= i < n ==>
         buckets[i] == |Filter(scored, AlertIn(Earliest(scored), Span(scored) / n as real, i, n))|)
    && Total(buckets) == |Filter(scored, IsAlert)|
  }

  /** The counting part of `bucket_timeseries`: every alert is counted in the one
      bucket whose interval holds its time, so the counts sum to the alerts. */
  method BucketTimeseries(scored: seq<Scored>, n: nat) returns (buckets: seq<nat>)
    requires n >= 1
    ensures CountsAlerts(buckets, scored, n)
  {
    if scored == [] {
      return [];
    }
    hide Filter, InBucket, Earliest, Span, Seconds;
    var start := Earliest(scored);
    var span := Span(scored);
    buckets := seq(n, i => 0);
    BucketedNone(start, span / n as real, n);
    for k := 0 to |scored|
      invariant Bucketed(buckets, scored[..k], start, span / n as real, n)
    {
      var r := scored[k];
      assert scored[..k + 1] == scored[..k] + [r];
      if !r.routedToReview {
        BucketedQuiet(buckets, scored[..k], start, span / n as real, n, r);
        continue;
      }
      assert r in scored;
      OffsetInSpan(scored, r);
      var offset := Seconds(r.txn.eventTime - start);
      BucketIndex(offset, span, n);
      var idx := (offset / (span / n as real)).Floor;
      if idx > n - 1 { idx := n - 1; }
      BucketedAlert(buckets, scored[..k], start, span / n as real, n, r, idx);
      buckets := buckets[idx := buckets[idx] + 1];
    }
    assert scored[..|scored|] == scored;
  }

  lemma OffsetInSpan(scored: seq<Scored>, r: Scored)
    requires r in scored
    ensures 0.0 <= Seconds(r.txn.eventTime - Earliest(scored)) <= Span(scored)
    ensures Span(scored) > 0.0
  {
    Extremes(scored);
  }

  // ---- Reasons ----

  function WithTag(tag: ReasonTag): Scored -> bool {
    (r: Scored) => r.tag == tag
  }

  datatype TagCount = TagCount(tag: ReasonTag, count: nat)

  function Count(c: TagCount): nat {
    c.count
  }

  function Descending(c: TagCount): real {
    -(c.count as real)
  }

  /** The tallies in first-appearance order are exactly the tags present, with their counts. */
  ghost predicate Tallies(counts: seq<TagCount>, rows: seq<Scored>) {
    && (forall i, j :: 0 <= i < j < |counts| ==> counts[i].tag != counts[j].tag)
    && (forall i :: 0 <= i < |counts| ==> counts[i].count == |Filter(rows, WithTag(counts[i].tag))| > 0)
    && (forall r :: r in rows ==> exists i :: 0 <= i < |counts| && counts[i].tag == r.tag)
  }

  ghost predicate LargestFirst(counts: seq<TagCount>) {
    forall i, j :: 0 <= i < j < |counts| ==> counts[i].count >= counts[j].count
  }

  method FindTag(counts: seq<TagCount>, tag: ReasonTag) returns (at: int)
    ensures 0 <= at ==> at < |counts| && counts[at].tag == tag
    ensures at < 0 ==> forall i :: 0 <= i < |counts| ==> counts[i].tag != tag
  {
    for i := 0 to |counts|
      invariant forall j :: 0 <= j < i ==> counts[j].tag != tag
    {
      if counts[i].tag == tag {
        return i;
      }
    }
    at := -1;
  }

  lemma TagFilterSnoc(rows: seq<Scored>, r: Scored)
    ensures forall tag ::
      |Filter(rows + [r], WithTag(tag))| == |Filter(rows, WithTag(tag))| + if r.tag == tag then 1 else 0
  {
    forall tag: ReasonTag
      ensures |Filter(rows + [r], WithTag(tag))| == |Filter(rows, WithTag(tag))| + if r.tag == tag then 1 else 0
    {
      FilterSnoc(rows, r, WithTag(tag));
    }
  }

  /** `setdefault` on a new tag. */
  lemma {:induction false} NewTag(counts: seq<TagCount>, rows: seq<Scored>, r: Scored)
    requires Tallies(counts, rows)
    requires forall i :: 0 <= i < |counts| ==> counts[i].tag != r.tag
    ensures Tallies(counts + [TagCount(r.tag, 1)], rows + [r])
    ensures Total(Map(counts + [TagCount(r.tag, 1)], Count)) == Total(Map(counts, Count)) + 1
  {
    hide Filter;
    TagFilterSnoc(rows, r);
    forall q | q in rows ensures q.tag != r.tag {
      var i :| 0 <= i < |counts| && counts[i].tag == q.tag;
    }
    FilterNone(rows, WithTag(r.tag));
    var longer := counts + [TagCount(r.tag, 1)];
    forall q | q in rows + [r] ensures exists i :: 0 <= i < |longer| && longer[i].tag == q.tag {
      if q in rows {
        var i :| 0 <= i < |counts| && counts[i].tag == q.tag;
        assert longer[i].tag == q.tag;
      } else {
        assert longer[|counts|].tag == q.tag;
      }
    }
    MapConcat(counts, [TagCount(r.tag, 1)], Count);
    TotalConcat(Map(counts, Count), [1]);
    assert Map([TagCount(r.tag, 1)], Count) == [1] && [1][1..] == [];
  }

  lemma {:induction false} KnownTag(counts: seq<TagCount>, rows: seq<Scored>, r: Scored, at: nat)
    requires Tallies(counts, rows)
    requires at < |counts| && counts[at].tag == r.tag
    ensures Tallies(counts[at := TagCount(r.tag, counts[at].count + 1)], rows + [r])
  {
    hide Filter;
    TagFilterSnoc(rows, r);
    var bumped := counts[at := TagCount(r.tag, counts[at].count + 1)];
    forall q | q in rows + [r] ensures exists i :: 0 <= i < |bumped| && bumped[i].tag == q.tag {
      if q in rows {
        var i :| 0 <= i < |counts| && counts[i].tag == q.tag;
        assert bumped[i].tag == q.tag;
      } else {
        assert bumped[at].tag == q.tag;
      }
    }
  }

  lemma OneMore(counts: seq<TagCount>, at: nat)
    requires at < |counts|
    ensures Total(Map(counts[at := TagCount(counts[at].tag, counts[at].count + 1)], Count))
         == Total(Map(counts, Count)) + 1
  {
    hide Total;
    var bumped := counts[at := TagCount(counts[at].tag, counts[at].count + 1)];
    TotalBump(Map(counts, Count), at);
    assert Map(bumped, Count) == Map(counts, Count)[at := bumped[at].count];
  }

  /** The `reason_counts` loop and the sort that follows it. */
  method ReasonCounts(blocked: seq<Scored>) returns (reasons: seq<TagCount>)
    ensures Tallies(reasons, blocked)
    ensures Total(Map(reasons, Count)) == |blocked|
    ensures LargestFirst(reasons)
  {
    hide Filter;
    var counts: seq<TagCount> := [];
    for k := 0 to |blocked|
      invariant Tallies(counts, blocked[..k])
      invariant Total(Map(counts, Count)) == k
    {
      var r := blocked[k];
      assert blocked[..k + 1] == blocked[..k] + [r];
      var at := FindTag(counts, r.tag);
      if at < 0 {
        NewTag(counts, blocked[..k], r);
        counts := counts + [TagCount(r.tag, 1)];
      } else {
        KnownTag(counts, blocked[..k], r, at);
        OneMore(counts, at);
        counts := counts[at := TagCount(r.tag, counts[at].count + 1)];
      }
    }
    assert blocked[..|blocked|] == blocked;
    reasons := Sort(counts, Descending);
    SortedTallies(counts, blocked);
  }

  lemma {:induction false} SortedTallies(counts: seq<TagCount>, rows: seq<Scored>)
    requires Tallies(counts, rows)
    ensures Tallies(Sort(counts, Descending), rows)
    ensures Total(Map(Sort(counts, Descending), Count)) == Total(Map(counts, Count))
    ensures LargestFirst(Sort(counts, Descending))
  {
    hide Filter, Sort, Map;
    var s := Sort(counts, Descending);
    SortPermutes(counts, Descending);
    SortSorts(counts, Descending);
    forall i, j | 0 <= i < j < |s| ensures s[i].count >= s[j].count {
      assert Descending(s[i]) <= Descending(s[j]);
    }
    TalliesPermuted(counts, s, rows);
    MapPermutation(counts, s, Count);
    TotalPermutation(Map(counts, Count), Map(s, Count));
  }

  lemma {:induction false} TalliesPermuted(counts: seq<TagCount>, s: seq<TagCount>, rows: seq<Scored>)
    requires Tallies(counts, rows) && multiset(s) == multiset(counts)
    ensures Tallies(s, rows)
  {
    hide Filter;
    SamePlaces(s, counts);
    SamePlaces(counts, s);
    forall i, j | 0 <= i < j < |s| ensures s[i].tag != s[j].tag {
      OneInFilter(counts, EntryOf(s[i].tag));
      FilterPermutation(counts, s, EntryOf(s[i].tag));
      SamePlaces(Filter(counts, EntryOf(s[i].tag)), Filter(s, EntryOf(s[i].tag)));
      TwoInFilter(s, EntryOf(s[i].tag), i, j);
    }
    forall r | r in rows ensures exists i :: 0 <= i < |s| && s[i].tag == r.tag {
      var i :| 0 <= i < |counts| && counts[i].tag == r.tag;
      assert counts[i] in s;
    }
  }

  function EntryOf(tag: ReasonTag): TagCount -> bool {
    (c: TagCount) => c.tag == tag
  }

  lemma {:induction false} TwoInFilter(s: seq<TagCount>, p: TagCount -> bool, i: nat, j: nat)
    requires i < j < |s|
    ensures p(s[i]) && p(s[j]) ==> |Filter(s, p)| >= 2
  {
    if i > 0 {
      TwoInFilter(s[1..], p, i - 1, j - 1);
    } else if p(s[i]) && p(s[j]) {
      FilterMembers(s[1..], p);
      assert s[1..][j - 1] in Filter(s[1..], p);
    }
  }

  lemma {:induction false} OneInFilter(counts: seq<TagCount>, p: TagCount -> bool)
    requires forall i, j :: 0 <= i < j < |counts| ==> !(p(counts[i]) && p(counts[j]))
    ensures |Filter(counts, p)| <= 1
  {
    if counts != [] {
      OneInFilter(counts[1..], p);
      if p(counts[0]) {
        FilterNone(counts[1..], p);
      }
    }
  }

  // ---- Top alerts ----

  function HighestFirst(r: Scored): real {
    -r.score
  }

  function Ranked(alerts: seq<Scored>): seq<Scored> {
    Sort(alerts, HighestFirst)
  }

  /** `top` is a best-k list of the alerts: part of them, in descending order of
      score, nothing left out beating anything kept, ties in file order. */
  lemma TopK(alerts: seq<Scored>, k: nat) returns (omitted: seq<Scored>)
    ensures var top := FirstN(Ranked(alerts), k);
      && |top| == (if |alerts| <= k then |alerts| else k)
      && (forall i, j :: 0 <= i < j < |top| ==> top[i].score >= top[j].score)
      && multiset(top) + multiset(omitted) == multiset(alerts)
      && (forall r, q :: r in top && q in omitted ==> r.score >= q.score)
    ensures StablePermutation(alerts, FirstN(Ranked(alerts), k) + omitted, HighestFirst)
  {
    var ranked := Ranked(alerts);
    SortPermutes(alerts, HighestFirst);
    SortSorts(alerts, HighestFirst);
    var top := FirstN(ranked, k);
    omitted := ranked[|top|..];
    SortIsStable(alerts, HighestFirst);
    assert ranked == top + omitted;
    forall i, j | 0 <= i < j < |ranked| ensures ranked[i].score >= ranked[j].score {
      assert HighestFirst(ranked[i]) <= HighestFirst(ranked[j]);
    }
    assert multiset(top) + multiset(omitted) == multiset(alerts);
  }

  lemma TopIsPrefix(alerts: seq<Scored>, j: nat, k: nat)
    requires j <= k
    ensures FirstN(Ranked(alerts), j) <= FirstN(Ranked(alerts), k)
  {}

  /** Whatever the thresholds, the blocked rows come first in the ranked list. */
  lemma BlockedFirst(lib: Library, model: Option<Model>, s: Settings, txns: seq<Txn>)
    ensures var ranked := Ranked(Filter(ScoreFile(lib, model, s, txns), IsAlert));
      forall i, j :: 0 <= i < j < |ranked| && IsBlocked(ranked[j]) ==> IsBlocked(ranked[i])
  {
    hide Sort, Filter, ScoreInOrder;
    var rows := ScoreFile(lib, model, s, txns);
    var alerts := Filter(rows, IsAlert);
    var ranked := Ranked(alerts);
    SortPermutes(alerts, HighestFirst);
    SortSorts(alerts, HighestFirst);
    SamePlaces(ranked, alerts);
    FilterMembers(rows, IsAlert);
    RowsDecided(lib, model, s, txns);
    forall i, j | 0 <= i < j < |ranked| && IsBlocked(ranked[j]) ensures IsBlocked(ranked[i]) {
      assert HighestFirst(ranked[i]) <= HighestFirst(ranked[j]);
      assert ranked[i] in rows && ranked[j] in rows;
    }
  }

  /** Every scored row carries the routing of its score. */
  lemma RowsDecided(lib: Library, model: Option<Model>, s: Settings, txns: seq<Txn>)
    ensures forall r :: r in ScoreFile(lib, model, s, txns) ==>
      var routing := Decide(r.score, s);
      r.decision == routing.decision && r.routedToReview == routing.routedToReview && r.riskLevel == routing.riskLevel
  {
    hide ComputeFeatures, Sort, Filter, ScoreInOrder;
    var ordered := Sort(txns, EventTime);
    forall r | r in ScoreFile(lib, model, s, txns)
      ensures var routing := Decide(r.score, s);
        r.decision == routing.decision && r.routedToReview == routing.routedToReview && r.riskLevel == routing.riskLevel
    {
      var i :| 0 <= i < |ordered| && ScoreInOrder(lib, model, s, ordered)[i] == r;
      RowOf(lib, model, s, ordered, i);
    }
  }

  // ---- The payload ----

  const TIMESERIES_BUCKETS := 12
  const TOP_ALERTS := 200
  const GEO_POINTS := 300

  datatype Payload = Payload(
    total: nat,
    blocked: nat,
    blockedAmount: real,
    alerts: nat,
    timeseries: seq<nat>,
    reasons: seq<TagCount>,
    geoPoints: seq<Scored>,
    topAlerts: seq<Scored>,
    rowsInFile: nat,
    rowsSkipped: nat,
    truncated: bool)

  function RowAmount(r: Scored): real {
    r.txn.amount
  }

  /** What the payload counts, place by place: blocked rows, rows routed to review, the rows of a tag,
      and the amounts of the blocked rows. */
  lemma PayloadLaw(scored: seq<Scored>, tag: ReasonTag, amounts: seq<real>)
    requires |amounts| == |scored|
    requires forall i :: 0 <= i < |scored| ==>
      amounts[i] == if scored[i].decision == Block then scored[i].txn.amount else 0.0
    ensures |Filter(scored, IsBlocked)| == |BlockedPlaces(scored)|
    ensures |Filter(scored, IsAlert)| == |AlertPlaces(scored)|
    ensures |Filter(scored, WithTag(tag))| == |TagPlaces(scored, tag)|
    ensures Sum(Map(Filter(scored, IsBlocked), RowAmount)) == Sum(amounts)
  {
    FilterIndices(scored, IsBlocked);
    FilterIndices(scored, IsAlert);
    FilterIndices(scored, WithTag(tag));
    assert PlacesOf(scored, IsBlocked) == BlockedPlaces(scored);
    assert PlacesOf(scored, IsAlert) == AlertPlaces(scored);
    assert PlacesOf(scored, WithTag(tag)) == TagPlaces(scored, tag);
    SumOfKept(scored, IsBlocked, RowAmount, amounts);
  }

  ghost function BlockedPlaces(scored: seq<Scored>): set<int> {
    set i | 0 <= i < |scored| && scored[i].decision == Block
  }

  ghost function AlertPlaces(scored: seq<Scored>): set<int> {
    set i | 0 <= i < |scored| && scored[i].routedToReview
  }

  ghost function TagPlaces(scored: seq<Scored>, tag: ReasonTag): set<int> {
    set i | 0 <= i < |scored| && scored[i].tag == tag
  }

  /** `build_dashboard_payload`, counts and lists. */
  method BuildPayload(lib: Library, scored: seq<Scored>, rowErrors: nat, rowsInFile: nat, truncated: bool)
    returns (p: Payload)
    ensures p.total == |scored|
    ensures p.blocked == |Filter(scored, IsBlocked)| && p.alerts == |Filter(scored, IsAlert)|
    ensures p.blockedAmount == lib.round(Sum(Map(Filter(scored, IsBlocked), RowAmount)), 2)
    ensures CountsAlerts(p.timeseries, scored, TIMESERIES_BUCKETS) && Total(p.timeseries) == p.alerts
    ensures Tallies(p.reasons, Filter(scored, IsBlocked)) && Total(Map(p.reasons, Count)) == p.blocked
    ensures LargestFirst(p.reasons)
    ensures p.topAlerts == FirstN(Ranked(Filter(scored, IsAlert)), TOP_ALERTS)
    ensures p.geoPoints == FirstN(Ranked(Filter(scored, IsAlert)), GEO_POINTS)
    ensures p.rowsInFile == rowsInFile && p.rowsSkipped == rowErrors && p.truncated == truncated
  {
    var fraudRows := Filter(scored, IsBlocked);
    var alertRows := Filter(scored, IsAlert);
    var blockedAmount := Sum(Map(fraudRows, RowAmount));
    var reasons := ReasonCounts(fraudRows);
    var topAlerts := FirstN(Sort(alertRows, HighestFirst), TOP_ALERTS);
    var geoPoints := FirstN(Sort(alertRows, HighestFirst), GEO_POINTS);
    var timeseries := BucketTimeseries(scored, TIMESERIES_BUCKETS);
    p := Payload(|scored|, |fraudRows|, lib.round(blockedAmount, 2), |alertRows|, timeseries, reasons,
      geoPoints, topAlerts, rowsInFile, rowErrors, truncated);
  }

  datatype RowError = RowError(rowNumber: nat, error: string)
  datatype ParsedRow = Parsed(txn: Txn) | Malformed(error: string)

  /** The row loop of `parse_transactions_csv`: a row is kept or reported, never both,
      and a report names the spreadsheet row, the header being row 1. */
  method ParseRows<R>(parse: R -> ParsedRow, rows: seq<R>)
    returns (txns: seq<Txn>, errors: seq<RowError>)
    ensures |txns| + |errors| == |rows|
    ensures txns == KeptRows(parse, rows)
    ensures forall e :: e in errors ==>
      2 <= e.rowNumber < |rows| + 2 && parse(rows[e.rowNumber - 2]) == Malformed(e.error)
    ensures forall i :: 0 <= i < |rows| && parse(rows[i]).Malformed? ==> RowError(i + 2, parse(rows[i]).error) in errors
    ensures forall i, j :: 0 <= i < j < |errors| ==> errors[i].rowNumber < errors[j].rowNumber
  {
    hide Reported;
    txns, errors := [], [];
    NothingReported(parse, rows);
    for i := 0 to |rows|
      invariant |txns| + |errors| == i
      invariant txns == KeptRows(parse, rows[..i])
      invariant Reported(parse, rows, i, errors)
    {
      assert rows[..i + 1][..i] == rows[..i];
      match parse(rows[i])
      case Parsed(t) =>
        ReportedKept(parse, rows, i, errors);
        txns := txns + [t];
      case Malformed(e) =>
        ReportedError(parse, rows, i, errors);
        errors := errors + [RowError(i + 2, e)];
    }
    assert rows[..|rows|] == rows;
    ReportedAll(parse, rows, errors);
  }

  /** The errors of the first i rows, in order, under their spreadsheet numbers. */
  ghost predicate Reported<R>(parse: R -> ParsedRow, rows: seq<R>, i: nat, errors: seq<RowError>) {
    && i <= |rows|
    && (forall k :: 0 <= k < |errors| ==>
         2 <= errors[k].rowNumber < i + 2 && parse(rows[errors[k].rowNumber - 2]) == Malformed(errors[k].error))
    && (forall k :: 0 <= k < i && parse(rows[k]).Malformed? ==> RowError(k + 2, parse(rows[k]).error) in errors)
    && (forall k, j :: 0 <= k < j < |errors| ==> errors[k].rowNumber < errors[j].rowNumber)
  }

  lemma NothingReported<R>(parse: R -> ParsedRow, rows: seq<R>)
    ensures Reported(parse, rows, 0, [])
  {}

  lemma ReportedKept<R>(parse: R -> ParsedRow, rows: seq<R>, i: nat, errors: seq<RowError>)
    requires Reported(parse, rows, i, errors) && i < |rows| && parse(rows[i]).Parsed?
    ensures Reported(parse, rows, i + 1, errors)
  {}

  lemma ReportedError<R>(parse: R -> ParsedRow, rows: seq<R>, i: nat, errors: seq<RowError>)
    requires Reported(parse, rows, i, errors) && i < |rows| && parse(rows[i]).Malformed?
    ensures Reported(parse, rows, i + 1, errors + [RowError(i + 2, parse(rows[i]).error)])
  {
    var more := errors + [RowError(i + 2, parse(rows[i]).error)];
    assert more[|errors|] in more;
    assert forall e :: e in errors ==> e in more;
  }

  lemma ReportedAll<R>(parse: R -> ParsedRow, rows: seq<R>, errors: seq<RowError>)
    requires Reported(parse, rows, |rows|, errors)
    ensures forall e :: e in errors ==>
      2 <= e.rowNumber < |rows| + 2 && parse(rows[e.rowNumber - 2]) == Malformed(e.error)
    ensures forall i :: 0 <= i < |rows| && parse(rows[i]).Malformed? ==> RowError(i + 2, parse(rows[i]).error) in errors
    ensures forall i, j :: 0 <= i < j < |errors| ==> errors[i].rowNumber < errors[j].rowNumber
  {}

  /** A parsed row is kept, at the place that counts the kept rows before it. */
  lemma {:induction false} KeptRowAt<R>(parse: R -> ParsedRow, rows: seq<R>, i: nat)
    requires i < |rows| && parse(rows[i]).Parsed?
    ensures var k := |KeptRows(parse, rows[..i])|;
      k < |KeptRows(parse, rows)| && KeptRows(parse, rows)[k] == parse(rows[i]).txn
  {
    var n := |rows| - 1;
    if i < n {
      KeptRowAt(parse, rows[..n], i);
      assert rows[..n][..i] == rows[..i];
    }
  }

  /** And no other is: there are as many as parsed rows. */
  lemma {:induction false} KeptRowsCount<R>(parse: R -> ParsedRow, rows: seq<R>)
    ensures |KeptRows(parse, rows)| == |ParsedPlaces(parse, rows)|
  {
    if rows != [] {
      var n := |rows| - 1;
      KeptRowsCount(parse, rows[..n]);
      assert ParsedPlaces(parse, rows)
          == ParsedPlaces(parse, rows[..n]) + if parse(rows[n]).Parsed? then {n} else {};
    }
  }

  ghost function ParsedPlaces<R>(parse: R -> ParsedRow, rows: seq<R>): set<int> {
    set i | 0 <= i < |rows| && parse(rows[i]).Parsed?
  }

  function KeptRows<R>(parse: R -> ParsedRow, rows: seq<R>): seq<Txn> {
    if rows == [] then []
    else
      var n := |rows| - 1;
      KeptRows(parse, rows[..n]) + (if parse(rows[n]).Parsed? then [parse(rows[n]).txn] else [])
  }

  lemma KeptResults(lib: Library, model: Option<Model>, s: Settings, txns: seq<Txn>)
    ensures AreResults(lib, model, s, Sort(txns, EventTime), FirstN(ScoreFile(lib, model, s, txns), MAX_BATCH_ROWS))
  {
    hide Sort, ScoreFile, IsResult;
    FileResults(lib, model, s, txns);
  }

  /** `POST /batch/score` after the file is read: parse, refuse an all-invalid file,
      truncate, score, build the payload. */
  method BatchScore<R>(lib: Library, model: Option<Model>, s: Settings, parse: R -> ParsedRow, rows: seq<R>)
    returns (p: Option<Payload>)
    ensures p.None? <==> KeptRows(parse, rows) == []
    ensures p.Some? ==> var kept := FirstN(ScoreFile(lib, model, s, KeptRows(parse, rows)), MAX_BATCH_ROWS);
      && p.value.blocked <= p.value.alerts <= p.value.total == |kept|
      && p.value.blocked == |Filter(kept, IsBlocked)| == Total(Map(p.value.reasons, Count))
      && p.value.alerts == |Filter(kept, IsAlert)|
      && p.value.blockedAmount == lib.round(Sum(Map(Filter(kept, IsBlocked), RowAmount)), 2)
      && Tallies(p.value.reasons, Filter(kept, IsBlocked)) && LargestFirst(p.value.reasons)
      && CountsAlerts(p.value.timeseries, kept, TIMESERIES_BUCKETS)
      && p.value.topAlerts == FirstN(Ranked(Filter(kept, IsAlert)), TOP_ALERTS) <= p.value.geoPoints
      && p.value.geoPoints == FirstN(Ranked(Filter(kept, IsAlert)), GEO_POINTS)
    ensures var txns := KeptRows(parse, rows);
      AreResults(lib, model, s, Sort(txns, EventTime), FirstN(ScoreFile(lib, model, s, txns), MAX_BATCH_ROWS))
    ensures p.Some? ==>
      && p.value.total + p.value.rowsSkipped <= p.value.rowsInFile == |rows|
      && (p.value.total + p.value.rowsSkipped == p.value.rowsInFile <==> !p.value.truncated)
      && p.value.total <= MAX_BATCH_ROWS
  {
    hide AreResults;
    var txns, errors := ParseRows(parse, rows);
    KeptResults(lib, model, s, txns);
    if txns == [] {
      return None;
    }
    var transactions := txns;
    var truncated := |transactions| > MAX_BATCH_ROWS;
    if truncated {
      transactions := FirstN(Sort(transactions, EventTime), MAX_BATCH_ROWS);
    }
    var scored := ScoreBatch(lib, model, s, transactions);
    var payload := BuildPayload(lib, scored, |errors|, |rows|, truncated);
    p := Some(payload);
    TruncationStable(lib, model, s, txns);
    SortPermutes(txns, EventTime);
    RowsDecided(lib, model, s, transactions);
    FilterShorter(scored, IsBlocked, IsAlert);
    FilterMembers(scored, IsAlert);
    SortPermutes(transactions, EventTime);
    TopIsPrefix(Filter(scored, IsAlert), TOP_ALERTS, GEO_POINTS);
  }
}

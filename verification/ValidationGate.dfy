/** The metrics a training run logs (src/ml/train.py) and the gate that reads
    them back (src/ml/auto_promote.py). */
module ValidationGate {
  import opened Sequences
  import opened Arithmetic

  /** One test-set row: home country, true label, predicted probability. */
  datatype Example = Example(country: string, fraud: bool, probability: real)

  const THRESHOLD := 0.5

  predicate Flagged(e: Example) {
    e.probability >= THRESHOLD
  }

  predicate IsFraud(e: Example) {
    e.fraud
  }

  predicate Caught(e: Example) {
    e.fraud && Flagged(e)
  }

  function From(country: string): Example -> bool {
    (e: Example) => e.country == country
  }

  function Count(es: seq<Example>, p: Example -> bool): nat {
    |Filter(es, p)|
  }

  /** A ratio with scikit-learn's `zero_division=0`. */
  function Ratio(part: nat, whole: nat): real {
    if whole == 0 then 0.0 else part as real / whole as real
  }

  function Recall(es: seq<Example>): real {
    Ratio(Count(es, Caught), Count(es, IsFraud))
  }

  function Precision(es: seq<Example>): real {
    Ratio(Count(es, Caught), Count(es, Flagged))
  }

  function F1(es: seq<Example>): real {
    Ratio(2 * Count(es, Caught), Count(es, IsFraud) + Count(es, Flagged))
  }

  type Metrics = map<string, real>

  /** ROC and PR area, computed by the library and logged without further use here. */
  datatype Areas = Areas(roc: real, pr: real)

  /** `_evaluate`. */
  function Evaluate(es: seq<Example>, areas: Areas): Metrics {
    map[
      "precision" := Precision(es),
      "recall" := Recall(es),
      "f1" := F1(es),
      "roc_auc" := areas.roc,
      "pr_auc" := areas.pr,
      "positive_rate_predicted" := Ratio(Count(es, Flagged), |es|),
      "positive_rate_actual" := Ratio(Count(es, IsFraud), |es|)]
  }

  datatype Slice = Slice(count: nat, recall: real, precision: real, positiveRate: real)

  function SliceOf(es: seq<Example>, country: string): Slice {
    var mine := Filter(es, From(country));
    Slice(|mine|, Recall(mine), Precision(mine), Ratio(Count(mine, Flagged), |mine|))
  }

  function Countries(es: seq<Example>): set<string> {
    set e | e in es :: e.country
  }

  /** `_fairness_report`: one slice per country of the test set. */
  method FairnessReport(es: seq<Example>, countries: seq<string>) returns (report: map<string, Slice>)
    requires forall c :: c in countries <==> c in Countries(es)
    ensures report.Keys == Countries(es)
    ensures forall c :: c in report ==> report[c] == SliceOf(es, c) && report[c].count > 0
  {
    report := map[];
    for i := 0 to |countries|
      invariant forall c :: c in report <==> c in countries[..i]
      invariant forall c :: c in report ==> report[c] == SliceOf(es, c) && report[c].count > 0
    {
      var country := countries[i];
      assert country in countries;
      var mine := Filter(es, From(country));
      FilterMembers(es, From(country));
      assert exists e :: e in es && e.country == country;
      assert |mine| > 0;
      report := report[country := Slice(|mine|, Recall(mine), Precision(mine), Ratio(Count(mine, Flagged), |mine|))];
    }
  }

  // ---- Metric keys ----

  const OVERALL_KEYS :=
    {"precision", "recall", "f1", "roc_auc", "pr_auc", "positive_rate_predicted", "positive_rate_actual"}
  const SLICE_STATS := {"count", "recall", "precision", "positive_rate"}
  const PREFIX := "fairness_"
  const RECALL_SUFFIX := "_recall"

  function SliceKey(country: string, stat: string): string {
    PREFIX + country + "_" + stat
  }

  predicate StartsWith(s: string, p: string) {
    p <= s
  }

  predicate EndsWith(s: string, p: string) {
    |p| <= |s| && s[|s| - |p|..] == p
  }

  predicate IsRecallKey(key: string) {
    StartsWith(key, PREFIX) && EndsWith(key, RECALL_SUFFIX)
  }

  function RemovePrefix(s: string, p: string): string {
    if StartsWith(s, p) then s[|p|..] else s
  }

  function RemoveSuffix(s: string, p: string): string {
    if EndsWith(s, p) then s[..|s| - |p|] else s
  }

  function CountryOf(key: string): string {
    RemoveSuffix(RemovePrefix(key, PREFIX), RECALL_SUFFIX)
  }

  /** The four `log_metric` calls for one country. */
  function WithSlice(m: Metrics, c: string, slice: Slice): Metrics {
    m[SliceKey(c, "count") := slice.count as real]
     [SliceKey(c, "recall") := slice.recall]
     [SliceKey(c, "precision") := slice.precision]
     [SliceKey(c, "positive_rate") := slice.positiveRate]
  }

  ghost predicate HasSlice(m: Metrics, c: string, slice: Slice) {
    && SliceKey(c, "count") in m && m[SliceKey(c, "count")] == slice.count as real
    && SliceKey(c, "recall") in m && m[SliceKey(c, "recall")] == slice.recall
    && SliceKey(c, "precision") in m && m[SliceKey(c, "precision")] == slice.precision
    && SliceKey(c, "positive_rate") in m && m[SliceKey(c, "positive_rate")] == slice.positiveRate
  }

  ghost predicate IsSliceKey(key: string, c: string) {
    key in {SliceKey(c, "count"), SliceKey(c, "recall"), SliceKey(c, "precision"), SliceKey(c, "positive_rate")}
  }

  /** The overall metrics, the slices of these countries, and nothing else. */
  ghost predicate LoggedFor(m: Metrics, es: seq<Example>, areas: Areas, countries: set<string>) {
    && (forall k :: k in Evaluate(es, areas) ==> k in m && m[k] == Evaluate(es, areas)[k])
    && (forall c :: c in countries ==> HasSlice(m, c, SliceOf(es, c)))
    && (forall k :: k in m && k !in Evaluate(es, areas) ==> exists c :: c in countries && IsSliceKey(k, c))
  }

  ghost predicate LoggedBy(m: Metrics, es: seq<Example>, areas: Areas) {
    LoggedFor(m, es, areas, Countries(es))
  }

  lemma SliceKeyEnds(country: string, stat: string)
    requires |stat| > 0
    ensures var k := SliceKey(country, stat);
      StartsWith(k, PREFIX) && k[|k| - 1] == stat[|stat| - 1]
  {}

  /** The country is read back from its recall key unchanged. */
  lemma RecallKeyRoundTrip(country: string)
    ensures IsRecallKey(SliceKey(country, "recall"))
    ensures CountryOf(SliceKey(country, "recall")) == country
  {
    var k := SliceKey(country, "recall");
    assert k == PREFIX + (country + RECALL_SUFFIX);
    assert k[|PREFIX|..] == country + RECALL_SUFFIX;
    assert k[|k| - |RECALL_SUFFIX|..] == RECALL_SUFFIX;
    var rest := country + RECALL_SUFFIX;
    assert rest[|rest| - |RECALL_SUFFIX|..] == RECALL_SUFFIX;
    assert rest[..|rest| - |RECALL_SUFFIX|] == country;
  }

  /** No other slice key, and no overall metric, is mistaken for a recall key. */
  lemma OnlyRecallKeys(country: string, stat: string)
    requires stat in {"count", "precision", "positive_rate"}
    ensures !IsRecallKey(SliceKey(country, stat))
  {
    SliceKeyEnds(country, stat);
    SuffixEnds(SliceKey(country, stat), RECALL_SUFFIX);
  }

  lemma SuffixEnds(s: string, suffix: string)
    requires suffix != []
    ensures EndsWith(s, suffix) ==> s[|s| - 1] == suffix[|suffix| - 1]
  {
    if EndsWith(s, suffix) {
      assert s[|s| - |suffix|..][|suffix| - 1] == s[|s| - 1];
    }
  }

  lemma OverallKeysDiffer(key: string)
    requires key in OVERALL_KEYS
    ensures !StartsWith(key, PREFIX)
  {
    assert PREFIX[0] == 'f' && PREFIX[1] == 'a';
  }

  lemma SliceKeysDiffer(c: string, s: string, d: string, t: string)
    requires s in SLICE_STATS && t in SLICE_STATS
    requires SliceKey(c, s) == SliceKey(d, t)
    ensures c == d && s == t
  {
    SliceKeyEnds(c, s);
    SliceKeyEnds(d, t);
    assert s == t;
    var k := SliceKey(c, s);
    assert k[|PREFIX|..|k| - |s| - 1] == c;
    assert k[|PREFIX|..|k| - |s| - 1] == d;
  }

  lemma OverallMetricKeys(es: seq<Example>, areas: Areas)
    ensures Evaluate(es, areas).Keys == OVERALL_KEYS
    ensures Evaluate(es, areas)["recall"] == Recall(es)
  {}

  lemma WithSliceMeaning(m: Metrics, c: string, slice: Slice)
    ensures HasSlice(WithSlice(m, c, slice), c, slice)
    ensures forall k :: k in WithSlice(m, c, slice) <==> k in m || IsSliceKey(k, c)
    ensures forall k :: k in m && !IsSliceKey(k, c) ==> WithSlice(m, c, slice)[k] == m[k]
  {
    hide SliceKey;
    SliceKeyLengths(c);
  }

  lemma SliceKeyLengths(c: string)
    ensures |SliceKey(c, "count")| < |SliceKey(c, "recall")| < |SliceKey(c, "precision")|
    ensures |SliceKey(c, "precision")| < |SliceKey(c, "positive_rate")|
  {}

  lemma SliceKeysApart(k: string, c: string, d: string)
    requires IsSliceKey(k, c) && IsSliceKey(k, d)
    ensures c == d
  {
    var s :| s in SLICE_STATS && k == SliceKey(c, s);
    var t :| t in SLICE_STATS && k == SliceKey(d, t);
    SliceKeysDiffer(c, s, d, t);
  }

  lemma OverallIsNoSlice(k: string, c: string, es: seq<Example>, areas: Areas)
    requires k in Evaluate(es, areas)
    ensures !IsSliceKey(k, c)
  {
    hide Recall, Precision, F1;
    OverallMetricKeys(es, areas);
    OverallKeysDiffer(k);
    SliceKeyEnds(c, "count");
    SliceKeyEnds(c, "recall");
    SliceKeyEnds(c, "precision");
    SliceKeyEnds(c, "positive_rate");
  }

  lemma SliceKept(m: Metrics, c: string, slice: Slice, d: string, other: Slice)
    requires HasSlice(m, d, other) && c != d
    ensures HasSlice(WithSlice(m, c, slice), d, other)
  {
    hide WithSlice, SliceKey;
    WithSliceMeaning(m, c, slice);
    forall k | IsSliceKey(k, d) ensures !IsSliceKey(k, c) {
      if IsSliceKey(k, c) { SliceKeysApart(k, c, d); }
    }
    assert IsSliceKey(SliceKey(d, "count"), d) && IsSliceKey(SliceKey(d, "recall"), d);
    assert IsSliceKey(SliceKey(d, "precision"), d) && IsSliceKey(SliceKey(d, "positive_rate"), d);
  }

  lemma LogCountry(m: Metrics, es: seq<Example>, areas: Areas, countries: set<string>, c: string)
    requires LoggedFor(m, es, areas, countries) && c !in countries
    ensures LoggedFor(WithSlice(m, c, SliceOf(es, c)), es, areas, countries + {c})
  {
    hide SliceOf, Evaluate, WithSlice, IsSliceKey, HasSlice;
    var slice := SliceOf(es, c);
    var m' := WithSlice(m, c, slice);
    WithSliceMeaning(m, c, slice);
    forall k | k in Evaluate(es, areas) ensures k in m' && m'[k] == m[k] {
      OverallIsNoSlice(k, c, es, areas);
    }
    forall d | d in countries ensures HasSlice(m', d, SliceOf(es, d)) {
      SliceKept(m, c, slice, d, SliceOf(es, d));
    }
    forall k | k in m' && k !in Evaluate(es, areas) ensures exists d :: d in countries + {c} && IsSliceKey(k, d) {
      if IsSliceKey(k, c) {
        assert c in countries + {c};
      } else {
        var d :| d in countries && IsSliceKey(k, d);
        assert d in countries + {c};
      }
    }
  }

  /** The logging calls of the training functions. */
  method LogRun(es: seq<Example>, areas: Areas, countries: seq<string>) returns (metrics: Metrics)
    requires forall c :: c in countries <==> c in Countries(es)
    requires NoDuplicates(countries)
    ensures LoggedBy(metrics, es, areas)
  {
    hide Evaluate, SliceOf, SliceKey;
    metrics := Evaluate(es, areas);
    var fairness := FairnessReport(es, countries);
    ghost var logged := {};
    for i := 0 to |countries|
      invariant forall c :: c in logged <==> c in countries[..i]
      invariant LoggedFor(metrics, es, areas, logged)
    {
      var c := countries[i];
      assert c in countries && c !in countries[..i];
      LogCountry(metrics, es, areas, logged, c);
      metrics := WithSlice(metrics, c, fairness[c]);
      logged := logged + {c};
    }
    assert logged == Countries(es);
  }

  // ---- What the logged metrics are, counted on the raw test set ----

  ghost function FraudRows(es: seq<Example>): set<int> {
    set i | 0 <= i < |es| && es[i].fraud
  }

  ghost function FlaggedRows(es: seq<Example>): set<int> {
    set i | 0 <= i < |es| && es[i].probability >= 0.5
  }

  ghost function RowsOf(es: seq<Example>, country: string): set<int> {
    set i | 0 <= i < |es| && es[i].country == country
  }

  /** x is part of a whole; of nothing it is 0. */
  ghost predicate IsShare(x: real, part: nat, whole: nat) {
    x * whole as real == part as real && (whole == 0 ==> x == 0.0)
  }

  lemma RatioIsShare(part: nat, whole: nat)
    requires part <= whole
    ensures IsShare(Ratio(part, whole), part, whole)
  {
    if whole > 0 { DivTimes(part as real, whole as real); }
  }

  lemma CountsOf(es: seq<Example>)
    ensures Count(es, Caught) == |FlaggedRows(es) * FraudRows(es)|
    ensures Count(es, IsFraud) == |FraudRows(es)| && Count(es, Flagged) == |FlaggedRows(es)|
    ensures |FlaggedRows(es) * FraudRows(es)| <= |FraudRows(es)| <= |es|
    ensures |FlaggedRows(es) * FraudRows(es)| <= |FlaggedRows(es)| <= |es|
  {
    FilterIndices(es, Caught);
    FilterIndices(es, IsFraud);
    FilterIndices(es, Flagged);
    assert PlacesOf(es, Caught) == FlaggedRows(es) * FraudRows(es);
    assert PlacesOf(es, IsFraud) == FraudRows(es) && PlacesOf(es, Flagged) == FlaggedRows(es);
    FilterShorter(es, Caught, IsFraud);
    FilterShorter(es, Caught, Flagged);
    FilterMembers(es, IsFraud);
    FilterMembers(es, Flagged);
  }

  lemma CountsIn(es: seq<Example>, c: string)
    ensures var mine := Filter(es, From(c));
      && |mine| == |RowsOf(es, c)|
      && Count(mine, Caught) == |RowsOf(es, c) * FlaggedRows(es) * FraudRows(es)|
      && Count(mine, IsFraud) == |RowsOf(es, c) * FraudRows(es)|
      && Count(mine, Flagged) == |RowsOf(es, c) * FlaggedRows(es)|
      && Count(mine, Caught) <= Count(mine, Flagged) <= |mine|
      && Count(mine, Caught) <= Count(mine, IsFraud)
  {
    hide Filter;
    var mine := Filter(es, From(c));
    FilterIndices(es, From(c));
    assert PlacesOf(es, From(c)) == RowsOf(es, c);
    CountWithin(es, c, Caught);
    CountWithin(es, c, IsFraud);
    CountWithin(es, c, Flagged);
    PlacesWithin(es, c);
    FilterShorter(mine, Caught, Flagged);
    FilterShorter(mine, Caught, IsFraud);
    FilterMembers(mine, Flagged);
  }

  lemma PlacesWithin(es: seq<Example>, c: string)
    ensures PlacesOf(es, Within(c, Caught)) == RowsOf(es, c) * FlaggedRows(es) * FraudRows(es)
    ensures PlacesOf(es, Within(c, IsFraud)) == RowsOf(es, c) * FraudRows(es)
    ensures PlacesOf(es, Within(c, Flagged)) == RowsOf(es, c) * FlaggedRows(es)
  {
    forall i
      ensures i in PlacesOf(es, Within(c, Caught)) <==> i in RowsOf(es, c) && i in FlaggedRows(es) && i in FraudRows(es)
      ensures i in PlacesOf(es, Within(c, IsFraud)) <==> i in RowsOf(es, c) && i in FraudRows(es)
      ensures i in PlacesOf(es, Within(c, Flagged)) <==> i in RowsOf(es, c) && i in FlaggedRows(es)
    {
      if 0 <= i < |es| {
        assert Caught(es[i]) <==> es[i].fraud && es[i].probability >= 0.5;
        assert Within(c, Caught)(es[i]) <==> es[i].country == c && Caught(es[i]);
        assert IsFraud(es[i]) <==> es[i].fraud;
        assert Within(c, IsFraud)(es[i]) <==> es[i].country == c && IsFraud(es[i]);
        assert Flagged(es[i]) <==> es[i].probability >= 0.5;
        assert Within(c, Flagged)(es[i]) <==> es[i].country == c && Flagged(es[i]);
      }
    }
  }

  function Within(c: string, p: Example -> bool): Example -> bool {
    (e: Example) => e.country == c && p(e)
  }

  lemma CountWithin(es: seq<Example>, c: string, p: Example -> bool)
    ensures Count(Filter(es, From(c)), p) == |PlacesOf(es, Within(c, p))|
  {
    FilterIndices(es, Within(c, p));
    FilterTwice(es, From(c), p, Within(c, p));
  }

  lemma {:induction false} FilterTwice(es: seq<Example>, p: Example -> bool, q: Example -> bool, both: Example -> bool)
    requires forall e :: both(e) <==> p(e) && q(e)
    ensures Filter(Filter(es, p), q) == Filter(es, both)
  {
    if es != [] {
      FilterTwice(es[1..], p, q, both);
      if p(es[0]) {
        assert Filter(es, p)[1..] == Filter(es[1..], p);
      } else {
        assert Filter(es, p) == Filter(es[1..], p);
      }
    }
  }

  lemma EvaluateShares(es: seq<Example>)
    ensures var caught, fraud, flagged := |FlaggedRows(es) * FraudRows(es)|, |FraudRows(es)|, |FlaggedRows(es)|;
      && IsShare(Ratio(Count(es, Caught), Count(es, Flagged)), caught, flagged)
      && IsShare(Ratio(Count(es, Caught), Count(es, IsFraud)), caught, fraud)
      && IsShare(Ratio(2 * Count(es, Caught), Count(es, IsFraud) + Count(es, Flagged)), 2 * caught, fraud + flagged)
      && IsShare(Ratio(Count(es, Flagged), |es|), flagged, |es|)
      && IsShare(Ratio(Count(es, IsFraud), |es|), fraud, |es|)
  {
    hide Count, IsShare, Ratio, FlaggedRows, FraudRows;
    CountsOf(es);
    RatioIsShare(Count(es, Caught), Count(es, Flagged));
    RatioIsShare(Count(es, Caught), Count(es, IsFraud));
    RatioIsShare(2 * Count(es, Caught), Count(es, IsFraud) + Count(es, Flagged));
    RatioIsShare(Count(es, Flagged), |es|);
    RatioIsShare(Count(es, IsFraud), |es|);
  }

  lemma LoggedOverall(m: Metrics, es: seq<Example>, areas: Areas)
    requires LoggedBy(m, es, areas)
    ensures Evaluate(es, areas).Keys == OVERALL_KEYS
    ensures forall k :: k in OVERALL_KEYS ==> k in m && m[k] == Evaluate(es, areas)[k]
  {
    hide HasSlice, IsSliceKey, Recall, Precision, F1, Count, Ratio;
    OverallMetricKeys(es, areas);
  }

  lemma EvaluateValues(es: seq<Example>, areas: Areas)
    ensures Evaluate(es, areas).Keys == OVERALL_KEYS
    ensures var e := Evaluate(es, areas);
      && e["precision"] == Ratio(Count(es, Caught), Count(es, Flagged))
      && e["recall"] == Ratio(Count(es, Caught), Count(es, IsFraud))
      && e["f1"] == Ratio(2 * Count(es, Caught), Count(es, IsFraud) + Count(es, Flagged))
      && e["positive_rate_predicted"] == Ratio(Count(es, Flagged), |es|)
      && e["positive_rate_actual"] == Ratio(Count(es, IsFraud), |es|)
      && e["roc_auc"] == areas.roc && e["pr_auc"] == areas.pr
  {
    hide Ratio, Count;
  }

  /** The overall metrics: precision is the share of the flagged rows that are fraud, recall the share
      of the frauds that are flagged, F1 their harmonic mean, and the rates are shares of all rows. */
  lemma MetricsLaw(m: Metrics, es: seq<Example>, areas: Areas)
    requires LoggedBy(m, es, areas)
    ensures "precision" in m && "recall" in m && "f1" in m && "roc_auc" in m && "pr_auc" in m
    ensures "positive_rate_predicted" in m && "positive_rate_actual" in m
    ensures var caught, fraud, flagged := |FlaggedRows(es) * FraudRows(es)|, |FraudRows(es)|, |FlaggedRows(es)|;
      && IsShare(m["precision"], caught, flagged)
      && IsShare(m["recall"], caught, fraud)
      && IsShare(m["f1"], 2 * caught, fraud + flagged)
      && IsShare(m["positive_rate_predicted"], flagged, |es|)
      && IsShare(m["positive_rate_actual"], fraud, |es|)
    ensures m["roc_auc"] == areas.roc && m["pr_auc"] == areas.pr
  {
    hide Count, IsShare, Ratio, Evaluate, FlaggedRows, FraudRows;
    EvaluateValues(es, areas);
    EvaluateShares(es);
    LoggedOverall(m, es, areas);
    hide LoggedBy;
    assert "precision" in OVERALL_KEYS && "recall" in OVERALL_KEYS && "f1" in OVERALL_KEYS;
    assert "roc_auc" in OVERALL_KEYS && "pr_auc" in OVERALL_KEYS;
    assert "positive_rate_predicted" in OVERALL_KEYS && "positive_rate_actual" in OVERALL_KEYS;
  }

  /** The same of each country's rows, with their number. */
  lemma SliceLaw(m: Metrics, es: seq<Example>, areas: Areas, c: string)
    requires LoggedBy(m, es, areas) && exists e :: e in es && e.country == c
    ensures var key := (stat: string) => "fairness_" + c + "_" + stat;
      var rows, flagged := RowsOf(es, c), RowsOf(es, c) * FlaggedRows(es);
      && key("count") in m && m[key("count")] == |rows| as real
      && key("recall") in m && IsShare(m[key("recall")], |flagged * FraudRows(es)|, |rows * FraudRows(es)|)
      && key("precision") in m && IsShare(m[key("precision")], |flagged * FraudRows(es)|, |flagged|)
      && key("positive_rate") in m && IsShare(m[key("positive_rate")], |flagged|, |rows|)
  {
    hide Count, IsShare, Ratio, Evaluate, Filter;
    assert c in Countries(es);
    CountsIn(es, c);
    var mine := Filter(es, From(c));
    RatioIsShare(Count(mine, Caught), Count(mine, Flagged));
    RatioIsShare(Count(mine, Caught), Count(mine, IsFraud));
    RatioIsShare(Count(mine, Flagged), |mine|);
    assert HasSlice(m, c, SliceOf(es, c));
  }

  // ---- The gate ----

  datatype GateSettings = GateSettings(minRecall: real, minPrecision: real, maxRecallGap: real)

  /** The dict comprehension over the metrics, in the order `keys` they are iterated. */
  function FairnessRecalls(m: Metrics, keys: seq<string>): map<string, real>
    requires forall k :: k in keys ==> k in m
  {
    if keys == [] then map[]
    else
      var n := |keys| - 1;
      var before := FairnessRecalls(m, keys[..n]);
      if IsRecallKey(keys[n]) then before[CountryOf(keys[n]) := m[keys[n]]] else before
  }

  function Metric(m: Metrics, key: string): real {
    if key in m then m[key] else 0.0
  }

  ghost predicate GapWithin(fairness: map<string, real>, limit: real) {
    forall a, b :: a in fairness && b in fairness ==> fairness[a] - fairness[b] <= limit
  }

  ghost predicate Passes(g: GateSettings, m: Metrics, fairness: map<string, real>) {
    && Metric(m, "recall") >= g.minRecall
    && Metric(m, "precision") >= g.minPrecision
    && (|fairness| >= 2 ==> GapWithin(fairness, g.maxRecallGap))
  }

  datatype GateFailure = RecallBelowFloor | PrecisionBelowFloor | RecallGapTooWide

  method Extremes(values: map<string, real>) returns (lo: real, hi: real)
    requires values != map[]
    ensures exists a, b :: a in values && b in values && values[a] == hi && values[b] == lo
    ensures forall k :: k in values ==> lo <= values[k] <= hi
  {
    var first :| first in values;
    lo, hi := values[first], values[first];
    ghost var atLo, atHi := first, first;
    var rest := values.Keys;
    while rest != {}
      invariant rest <= values.Keys
      invariant atHi in values && atLo in values && values[atHi] == hi && values[atLo] == lo
      invariant forall k :: k in values && k !in rest ==> lo <= values[k] <= hi
      decreases |rest|
    {
      var k :| k in rest;
      rest := rest - {k};
      if values[k] < lo { lo, atLo := values[k], k; }
      if values[k] > hi { hi, atHi := values[k], k; }
    }
  }

  /** `evaluate_validation_gate`: it passes exactly when no floor and no gap is violated. */
  method EvaluateGate(g: GateSettings, m: Metrics, keys: seq<string>) returns (passed: bool, reasons: seq<GateFailure>)
    requires forall k :: k in keys <==> k in m
    ensures passed <==> Passes(g, m, FairnessRecalls(m, keys))
    ensures passed <==> reasons == []
    ensures RecallBelowFloor in reasons <==> Metric(m, "recall") < g.minRecall
    ensures PrecisionBelowFloor in reasons <==> Metric(m, "precision") < g.minPrecision
    ensures RecallGapTooWide in reasons <==>
      |FairnessRecalls(m, keys)| >= 2 && !GapWithin(FairnessRecalls(m, keys), g.maxRecallGap)
  {
    reasons := [];
    var recall := Metric(m, "recall");
    if recall < g.minRecall {
      reasons := reasons + [RecallBelowFloor];
    }
    var precision := Metric(m, "precision");
    if precision < g.minPrecision {
      reasons := reasons + [PrecisionBelowFloor];
    }
    var fairness: map<string, real> := map[];
    for i := 0 to |keys|
      invariant fairness == FairnessRecalls(m, keys[..i])
    {
      assert keys[..i + 1][..i] == keys[..i];
      if IsRecallKey(keys[i]) {
        fairness := fairness[CountryOf(keys[i]) := m[keys[i]]];
      }
    }
    assert keys[..|keys|] == keys;
    if |fairness| >= 2 {
      var lo, hi := Extremes(fairness);
      if hi - lo > g.maxRecallGap {
        reasons := reasons + [RecallGapTooWide];
      }
    }
    passed := reasons == [];
  }

  lemma RecallKeyPrefix(key: string)
    requires IsRecallKey(key)
    ensures key !in OVERALL_KEYS
  {
    assert key[0] == PREFIX[0] && key[1] == PREFIX[1];
  }

  /** A logged recall key is the recall key of one country of the test set. */
  lemma RecallKeyOf(m: Metrics, es: seq<Example>, areas: Areas, key: string)
    requires LoggedBy(m, es, areas) && key in m
    ensures IsRecallKey(key) ==> var c := CountryOf(key);
      c in Countries(es) && key == SliceKey(c, "recall") && m[key] == SliceOf(es, c).recall
  {
    hide SliceOf, Evaluate, SliceKey, IsRecallKey, CountryOf;
    if IsRecallKey(key) {
      OverallMetricKeys(es, areas);
      assert key !in Evaluate(es, areas) by { RecallKeyPrefix(key); }
      var c :| c in Countries(es) && IsSliceKey(key, c);
      OnlyRecallKeys(c, "count");
      OnlyRecallKeys(c, "precision");
      OnlyRecallKeys(c, "positive_rate");
      RecallKeyRoundTrip(c);
      assert HasSlice(m, c, SliceOf(es, c));
    }
  }

  /** Whatever the iteration order, the gate reads back the recall of every country of the test set. */
  lemma {:induction false} FairnessReadBack(m: Metrics, es: seq<Example>, areas: Areas, keys: seq<string>)
    requires LoggedBy(m, es, areas) && forall k :: k in keys ==> k in m
    ensures var f := FairnessRecalls(m, keys);
      && (forall c :: c in f ==> c in Countries(es) && f[c] == SliceOf(es, c).recall)
      && (forall c :: c in Countries(es) && SliceKey(c, "recall") in keys ==> c in f)
  {
    hide SliceOf, Evaluate, SliceKey, LoggedBy, IsRecallKey, CountryOf;
    if keys != [] {
      var n := |keys| - 1;
      var key := keys[n];
      assert keys == keys[..n] + [key];
      FairnessReadBack(m, es, areas, keys[..n]);
      forall c: string ensures IsRecallKey(SliceKey(c, "recall")) && CountryOf(SliceKey(c, "recall")) == c {
        RecallKeyRoundTrip(c);
      }
      assert key in m;
      if IsRecallKey(key) {
        RecallKeyOf(m, es, areas, key);
      }
    }
  }

  // ---- The recall floor ----

  function SumOver(countries: seq<string>, es: seq<Example>, p: Example -> bool): nat {
    if countries == [] then 0 else Count(Filter(es, From(countries[0])), p) + SumOver(countries[1..], es, p)
  }

  lemma {:induction false} CountCons(e: Example, es: seq<Example>, p: Example -> bool)
    ensures Count([e] + es, p) == Count(es, p) + if p(e) then 1 else 0
  {
    assert ([e] + es)[1..] == es;
  }

  lemma {:induction false} SumOverCons(countries: seq<string>, e: Example, es: seq<Example>, p: Example -> bool)
    requires NoDuplicates(countries)
    ensures SumOver(countries, [e] + es, p)
         == SumOver(countries, es, p) + if e.country in countries && p(e) then 1 else 0
  {
    if countries != [] {
      var c := countries[0];
      SumOverCons(countries[1..], e, es, p);
      assert ([e] + es)[1..] == es;
      assert countries == [c] + countries[1..];
      if e.country == c {
        assert Filter([e] + es, From(c)) == [e] + Filter(es, From(c));
        CountCons(e, Filter(es, From(c)), p);
      } else {
        assert Filter([e] + es, From(c)) == Filter(es, From(c));
      }
    }
  }

  /** Counting country by country counts every example once. */
  lemma {:induction false} CountByCountry(countries: seq<string>, es: seq<Example>, p: Example -> bool)
    requires NoDuplicates(countries)
    requires forall e :: e in es ==> e.country in countries
    ensures SumOver(countries, es, p) == Count(es, p)
  {
    if es == [] {
      SumOverNone(countries, p);
    } else {
      CountByCountry(countries, es[1..], p);
      SumOverCons(countries, es[0], es[1..], p);
      CountCons(es[0], es[1..], p);
      assert [es[0]] + es[1..] == es;
    }
  }

  lemma {:induction false} SumOverNone(countries: seq<string>, p: Example -> bool)
    ensures SumOver(countries, [], p) == 0
  {
    if countries != [] { SumOverNone(countries[1..], p); }
  }

  /** A share of at most r of the whole is at most r times the whole. */
  lemma ShareBound(part: nat, whole: nat, r: real)
    requires part <= whole && Ratio(part, whole) <= r
    ensures part as real <= r * whole as real
  {
    if whole > 0 {
      DivTimes(part as real, whole as real);
      TimesMonotone(Ratio(part, whole), r, whole as real);
    }
  }

  lemma ShareBoundConverse(part: nat, whole: nat, r: real)
    requires r >= 0.0 && part as real <= r * whole as real
    ensures Ratio(part, whole) <= r
  {
    if whole > 0 && Ratio(part, whole) > r {
      DivTimes(part as real, whole as real);
      TimesStrict(r, Ratio(part, whole), whole as real);
    }
  }

  lemma CaughtAreFraud(es: seq<Example>)
    ensures Count(es, Caught) <= Count(es, IsFraud)
    ensures Recall(es) >= 0.0
  {
    FilterShorter(es, Caught, IsFraud);
  }

  /** If no listed country has recall above `best`, the caught frauds are at most that share of the frauds. */
  lemma {:induction false} CaughtWithin(countries: seq<string>, es: seq<Example>, best: real)
    requires forall c :: c in countries ==> SliceOf(es, c).recall <= best
    ensures SumOver(countries, es, Caught) as real <= best * SumOver(countries, es, IsFraud) as real
  {
    hide Filter, Ratio;
    if countries != [] {
      var mine := Filter(es, From(countries[0]));
      CaughtWithin(countries[1..], es, best);
      CaughtAreFraud(mine);
      assert SliceOf(es, countries[0]).recall == Ratio(Count(mine, Caught), Count(mine, IsFraud));
      ShareBound(Count(mine, Caught), Count(mine, IsFraud), best);
      Distribute(Count(mine, IsFraud) as real, SumOver(countries[1..], es, IsFraud) as real, best);
    }
  }

  /** Overall recall is a weighted mean of the countries' recalls: it cannot exceed the best of them. */
  lemma OverallRecallBelowBest(es: seq<Example>, countries: seq<string>, best: real)
    requires NoDuplicates(countries)
    requires forall c :: c in countries <==> c in Countries(es)
    requires forall c :: c in countries ==> SliceOf(es, c).recall <= best
    requires es != []
    ensures Recall(es) <= best
  {
    hide Filter, Ratio;
    assert es[0].country in countries;
    CaughtAreFraud(Filter(es, From(es[0].country)));
    assert SliceOf(es, es[0].country).recall <= best;
    CaughtWithin(countries, es, best);
    CountByCountry(countries, es, Caught);
    CountByCountry(countries, es, IsFraud);
    ShareBoundConverse(Count(es, Caught), Count(es, IsFraud), best);
  }

  lemma {:induction false} ListOf(s: set<string>) returns (r: seq<string>)
    ensures NoDuplicates(r)
    ensures forall c :: c in r <==> c in s
    ensures |r| == |s|
  {
    if s == {} {
      r := [];
    } else {
      var c :| c in s;
      var rest := ListOf(s - {c});
      r := [c] + rest;
    }
  }

  lemma {:induction false} BestOf(es: seq<Example>, countries: seq<string>) returns (best: string)
    requires countries != []
    ensures best in countries
    ensures forall c :: c in countries ==> SliceOf(es, c).recall <= SliceOf(es, best).recall
  {
    hide SliceOf;
    best := countries[0];
    if |countries| > 1 {
      var other := BestOf(es, countries[1..]);
      if SliceOf(es, other).recall > SliceOf(es, best).recall {
        best := other;
      }
    }
  }

  function Floor(g: GateSettings): real {
    g.minRecall - (if g.maxRecallGap >= 0.0 then g.maxRecallGap else 0.0)
  }

  /** A passing gate leaves no country of the test set below the recall floor, countries
      without a single fraud and one-country test sets included. */
  lemma PerCountryRecallFloor(g: GateSettings, m: Metrics, es: seq<Example>, areas: Areas, keys: seq<string>)
    requires LoggedBy(m, es, areas) && forall k :: k in keys <==> k in m
    ensures Passes(g, m, FairnessRecalls(m, keys)) ==>
      forall c :: c in Countries(es) ==> SliceOf(es, c).recall >= Floor(g)
  {
    hide SliceOf, Evaluate, SliceKey, Recall;
    var fairness := FairnessRecalls(m, keys);
    FairnessReadBack(m, es, areas, keys);
    OverallMetricKeys(es, areas);
    assert "recall" in Evaluate(es, areas);
    assert Metric(m, "recall") == Recall(es);
    forall c | c in Countries(es) && Passes(g, m, fairness) ensures SliceOf(es, c).recall >= Floor(g) {
      var countries := ListOf(Countries(es));
      var best := BestOf(es, countries);
      OverallRecallBelowBest(es, countries, SliceOf(es, best).recall);
      forall d | d in Countries(es) ensures d in fairness {
        assert HasSlice(m, d, SliceOf(es, d));
      }
      if best != c {
        TwoKeys(fairness, best, c);
        assert fairness[best] - fairness[c] <= g.maxRecallGap;
      }
    }
  }

  /** On the raw test set: at least the minimum share of the frauds was flagged, and of the flagged rows
      at most the rest of the minimum precision was legitimate. */
  ghost predicate FloorsMet(g: GateSettings, es: seq<Example>) {
    && |FlaggedRows(es) * FraudRows(es)| as real >= g.minRecall * |FraudRows(es)| as real
    && |FlaggedRows(es) - FraudRows(es)| as real <= (1.0 - g.minPrecision) * |FlaggedRows(es)| as real
    && (FraudRows(es) == {} ==> g.minRecall <= 0.0)
    && (FlaggedRows(es) == {} ==> g.minPrecision <= 0.0)
  }

  /** And in each country: at least the floor's share of its frauds was flagged. */
  ghost predicate CountryFloorMet(g: GateSettings, es: seq<Example>, c: string) {
    |RowsOf(es, c) * FlaggedRows(es) * FraudRows(es)| as real >= Floor(g) * |RowsOf(es, c) * FraudRows(es)| as real
  }

  /** A passing gate, read on the raw test set of the run whose metrics it saw. */
  lemma GateLaw(g: GateSettings, m: Metrics, es: seq<Example>, areas: Areas, keys: seq<string>)
    requires LoggedBy(m, es, areas) && forall k :: k in keys <==> k in m
    ensures Passes(g, m, FairnessRecalls(m, keys)) ==> FloorsMet(g, es) && forall c :: CountryFloorMet(g, es, c)
  {
    hide LoggedBy, FairnessRecalls, SliceOf, FloorsMet, CountryFloorMet, IsShare, FraudRows, FlaggedRows;
    MetricsLaw(m, es, areas);
    PerCountryRecallFloor(g, m, es, areas, keys);
    if Passes(g, m, FairnessRecalls(m, keys)) {
      OverallFloors(g, es, m["recall"], m["precision"]);
      forall c ensures CountryFloorMet(g, es, c) {
        CountryLaw(g, es, c);
      }
    }
  }

  lemma OverallFloors(g: GateSettings, es: seq<Example>, recall: real, precision: real)
    requires IsShare(recall, |FlaggedRows(es) * FraudRows(es)|, |FraudRows(es)|) && recall >= g.minRecall
    requires IsShare(precision, |FlaggedRows(es) * FraudRows(es)|, |FlaggedRows(es)|) && precision >= g.minPrecision
    ensures FloorsMet(g, es)
  {
    hide IsShare, FraudRows, FlaggedRows;
    FloorsOf(recall, g.minRecall, precision, g.minPrecision, FraudRows(es), FlaggedRows(es));
  }

  lemma FloorsOf(recall: real, low: real, precision: real, floor: real, fraud: set<int>, flagged: set<int>)
    requires IsShare(recall, |flagged * fraud|, |fraud|) && recall >= low
    requires IsShare(precision, |flagged * fraud|, |flagged|) && precision >= floor
    ensures |flagged * fraud| as real >= low * |fraud| as real
    ensures |flagged - fraud| as real <= (1.0 - floor) * |flagged| as real
    ensures (fraud == {} ==> low <= 0.0) && (flagged == {} ==> floor <= 0.0)
  {
    hide IsShare;
    ShareFloor(recall, low, |flagged * fraud|, |fraud|);
    ShareFloor(precision, floor, |flagged * fraud|, |flagged|);
    SetSplit(flagged, fraud);
    Rest(|flagged - fraud| as real, |flagged * fraud| as real, floor, |flagged| as real);
  }

  lemma SetSplit(a: set<int>, b: set<int>)
    ensures |a - b| == |a| - |a * b|
  {
    assert a == (a - b) + (a * b);
  }

  lemma Rest(rest: real, part: real, floor: real, whole: real)
    requires rest == whole - part && part >= floor * whole
    ensures rest <= (1.0 - floor) * whole
  {}

  lemma ShareFloor(x: real, floor: real, part: nat, whole: nat)
    requires IsShare(x, part, whole) && x >= floor
    ensures part as real >= floor * whole as real
    ensures whole == 0 ==> floor <= 0.0
  {
    TimesMonotone(floor, x, whole as real);
  }

  lemma CountryLaw(g: GateSettings, es: seq<Example>, c: string)
    requires c in Countries(es) ==> SliceOf(es, c).recall >= Floor(g)
    ensures CountryFloorMet(g, es, c)
  {
    hide Count, Floor, Ratio, Filter, FraudRows, FlaggedRows, RowsOf, IsShare;
    CountsIn(es, c);
    var mine := Filter(es, From(c));
    if c in Countries(es) {
      RatioIsShare(Count(mine, Caught), Count(mine, IsFraud));
      ShareFloor(SliceOf(es, c).recall, Floor(g), Count(mine, Caught), Count(mine, IsFraud));
    } else {
      NoRowsOf(es, c);
      Empties(FlaggedRows(es), FraudRows(es));
    }
  }

  lemma Empties(a: set<int>, b: set<int>)
    ensures {} * a * b == {} && {} * b == {}
  {}

  lemma NoRowsOf(es: seq<Example>, c: string)
    requires c !in Countries(es)
    ensures RowsOf(es, c) == {}
  {
    forall i ensures i !in RowsOf(es, c) {
      if 0 <= i < |es| {
        assert es[i] in es;
      }
    }
  }

  lemma TwoKeys(m: map<string, real>, a: string, b: string)
    requires a in m && b in m && a != b
    ensures |m| >= 2
  {
    assert {a, b} <= m.Keys;
    assert |m.Keys - {a, b}| == |m.Keys| - 2;
  }
}

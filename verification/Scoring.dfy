/** Scoring one transaction live (src/api/inference.py) and a whole uploaded
    file (src/api/batch.py, `score_batch`), and the theorems that relate them. */
module Scoring {
  import opened Sequences
  import opened StableSort
  import opened Transactions
  import opened Features
  import opened Decision
  import FS = FeatureStore
  import PG = Postgres
  import P = Promotion

  /** A loaded model: the fraud probability of a feature row, or no value when the call
      raises. A feature row is a function of the vector and the transaction. */
  type Model = (FeatureVector, Txn) -> Option<real>

  datatype Source = Ml | FallbackRules

  function ModelScore(model: Option<Model>, s: Settings, fv: FeatureVector, t: Txn): (real, Source) {
    if model.Some? && model.value(fv, t).Some? then (model.value(fv, t).value, Ml)
    else (FallbackScore(fv, s).score, FallbackRules)
  }

  datatype ScoringResult = ScoringResult(
    vector: FeatureVector,
    score: real,
    source: Source,
    routing: Routing,
    triggered: Option<seq<Rule>>)

  function LiveScore(lib: Library, model: Option<Model>, s: Settings, st: FS.Store, t: Txn): ScoringResult {
    var fv := ComputeFeatures(lib, FS.HistoryRead(st, t.cardId, FS.MAX_HISTORY_LEN), t);
    var (score, source) := ModelScore(model, s, fv, t);
    ScoringResult(fv, score, source, Decide(score, s),
      if source == Ml then None else Some(FallbackScore(fv, s).triggered))
  }

  /** The artifact behind a registered version, when it loads. */
  type Artifacts = P.Key -> Option<Model>

  /** What `load_production_model` returns: the newest Production version, if there is one and it loads. */
  ghost predicate IsServed(r: P.Registry, name: string, load: Artifacts, version: Option<nat>, model: Option<Model>) {
    match version
    case Some(v) => P.IsLatestIn(r, name, PG.Production, Some(v)) && model.Some? && load((name, v)) == model
    case None =>
      && model.None?
      && forall v :: P.IsLatestIn(r, name, PG.Production, Some(v)) ==> load((name, v)).None?
  }

  /** Where a score comes from: the model's own value when it returns one, and otherwise, with no model
      loaded or the call failed, the rules. */
  ghost predicate IsScored(model: Option<Model>, s: Settings, fv: FeatureVector, t: Txn, score: real, source: Source) {
    if model.Some? && model.value(fv, t).Some? then score == model.value(fv, t).value && source == Ml
    else source == FallbackRules && IsRuleScore(score, fv, s)
  }

  class ModelState {
    var model: Option<Model>
    var modelVersion: Option<nat>
    const settings: Settings
    const featureStore: FS.RedisFeatureStore

    constructor (registry: P.ModelRegistry, name: string, load: Artifacts, s: Settings, store: FS.RedisFeatureStore)
      ensures settings == s && featureStore == store
      ensures IsServed(registry.versions, name, load, modelVersion, model)
    {
      settings, featureStore := s, store;
      model, modelVersion := None, None;
      new;
      var ok := Reload(registry, name, load);
    }

    /** `reload`: the Production model, or none and the rules alone. */
    method Reload(registry: P.ModelRegistry, name: string, load: Artifacts) returns (ok: bool)
      modifies this
      ensures IsServed(registry.versions, name, load, modelVersion, model)
      ensures ok <==> model.Some?
    {
      model, modelVersion, ok := None, None, false;
      var version := registry.LatestVersion(name, PG.Production);
      if version.None? {
        return;
      }
      var loaded := load((name, version.value));
      if loaded.Some? {
        model, modelVersion, ok := loaded, version, true;
      }
    }

    /** `score_transaction`. */
    method ScoreTransaction(lib: Library, txn: Txn) returns (r: ScoringResult)
      ensures r == LiveScore(lib, model, settings, featureStore.View(), txn)
      ensures r.vector == ComputeFeatures(lib, FS.HistoryRead(featureStore.View(), txn.cardId, FS.MAX_HISTORY_LEN), txn)
      ensures IsScored(model, settings, r.vector, txn, r.score, r.source)
      ensures r.triggered.Some? <==> r.source == FallbackRules
      ensures r.triggered.Some? ==> AreRulesFired(r.triggered.value, r.vector, settings)
      ensures r.routing == Decide(r.score, settings)
    {
      hide ComputeFeatures, IsRuleScore, AreRulesFired, Decide, FallbackScore;
      var history := featureStore.GetHistory(txn.cardId);
      var fv := ComputeFeatures(lib, history, txn);
      var score, source, triggered;
      if model.Some? {
        var proba := model.value(fv, txn);
        if proba.Some? {
          score, source, triggered := proba.value, Ml, None;
        } else {
          var fallback := ScoreByRules(fv, settings);
          score, source, triggered := fallback.score, FallbackRules, Some(fallback.triggered);
        }
      } else {
        var fallback := ScoreByRules(fv, settings);
        score, source, triggered := fallback.score, FallbackRules, Some(fallback.triggered);
      }
      r := ScoringResult(fv, score, source, Decide(score, settings), triggered);
    }
  }

  datatype Scored = Scored(
    txn: Txn,
    score: real,
    riskLevel: RiskLevel,
    decision: Verdict,
    routedToReview: bool,
    source: Source,
    tag: ReasonTag)

  /** What the upload reports of a transaction with this vector. */
  function RowFrom(model: Option<Model>, s: Settings, fv: FeatureVector, t: Txn): Scored {
    var (score, source) := ModelScore(model, s, fv, t);
    var routing := Decide(score, s);
    Scored(t, score, routing.riskLevel, routing.decision, routing.routedToReview, source,
      DeriveReason(fv, routing.decision, s))
  }

  function ScoreRow(lib: Library, model: Option<Model>, s: Settings, history: seq<Txn>, t: Txn): Scored {
    RowFrom(model, s, ComputeFeatures(lib, history, t), t)
  }

  /** Each row scored against the earlier rows of its card. */
  function ScoreInOrder(lib: Library, model: Option<Model>, s: Settings, ordered: seq<Txn>): (r: seq<Scored>)
    ensures |r| == |ordered|
  {
    if ordered == [] then []
    else
      var n := |ordered| - 1;
      var earlier := Filter(ordered[..n], OnCard(ordered[n].cardId));
      ScoreInOrder(lib, model, s, ordered[..n]) + [ScoreRow(lib, model, s, earlier, ordered[n])]
  }

  function ScoreFile(lib: Library, model: Option<Model>, s: Settings, txns: seq<Txn>): seq<Scored> {
    ScoreInOrder(lib, model, s, Sort(txns, EventTime))
  }

  /** The body of the loop: one row against the history of its card. */
  method ScoreWithHistory(lib: Library, model: Option<Model>, s: Settings, hist: seq<Txn>, txn: Txn) returns (r: Scored)
    ensures r == ScoreRow(lib, model, s, hist, txn)
  {
    var fv := ComputeFeatures(lib, hist, txn);
    var score, source;
    if model.Some? {
      var proba := model.value(fv, txn);
      if proba.Some? {
        score, source := proba.value, Ml;
      } else {
        var fallback := ScoreByRules(fv, s);
        score, source := fallback.score, FallbackRules;
      }
    } else {
      var fallback := ScoreByRules(fv, s);
      score, source := fallback.score, FallbackRules;
    }
    var routing := Decide(score, s);
    var tag := DeriveReason(fv, routing.decision, s);
    r := Scored(txn, score, routing.riskLevel, routing.decision, routing.routedToReview, source, tag);
  }

  lemma ScoreInOrderSnoc(lib: Library, model: Option<Model>, s: Settings, ordered: seq<Txn>, t: Txn)
    ensures ScoreInOrder(lib, model, s, ordered + [t])
         == ScoreInOrder(lib, model, s, ordered) + [ScoreRow(lib, model, s, Filter(ordered, OnCard(t.cardId)), t)]
  {
    hide Filter, ScoreRow;
    assert (ordered + [t])[..|ordered|] == ordered;
  }

  /** What a result says of its transaction, scored on these earlier rows. */
  ghost predicate IsResult(lib: Library, model: Option<Model>, s: Settings, history: seq<Txn>, t: Txn, row: Scored) {
    var fv := ComputeFeatures(lib, history, t);
    && row.txn == t
    && IsScored(model, s, fv, t, row.score, row.source)
    && var r := Decide(row.score, s);
       && row.riskLevel == r.riskLevel && row.decision == r.decision && row.routedToReview == r.routedToReview
       && row.tag == DeriveReason(fv, row.decision, s)
  }

  lemma RowIsResult(lib: Library, model: Option<Model>, s: Settings, history: seq<Txn>, t: Txn)
    ensures IsResult(lib, model, s, history, t, ScoreRow(lib, model, s, history, t))
  {
    hide ComputeFeatures, IsRuleScore, Decide, DeriveReason, AreRulesFired;
    RulesLaw(ComputeFeatures(lib, history, t), s);
  }

  /** Every row of a scored file, in event-time order, on the earlier rows of its card. */
  ghost predicate AreResults(lib: Library, model: Option<Model>, s: Settings, ordered: seq<Txn>, rows: seq<Scored>) {
    |rows| <= |ordered| && forall i :: 0 <= i < |rows| ==>
      IsResult(lib, model, s, Earlier(ordered, i), ordered[i], rows[i])
  }

  lemma FileResults(lib: Library, model: Option<Model>, s: Settings, txns: seq<Txn>)
    ensures |Sort(txns, EventTime)| == |txns|
    ensures AreResults(lib, model, s, Sort(txns, EventTime), ScoreFile(lib, model, s, txns))
  {
    hide ScoreInOrder, ScoreRow, IsResult, Sort, Filter;
    var ordered := Sort(txns, EventTime);
    SortPermutes(txns, EventTime);
    forall i | 0 <= i < |ordered|
      ensures IsResult(lib, model, s, Earlier(ordered, i), ordered[i], ScoreInOrder(lib, model, s, ordered)[i])
    {
      RowOf(lib, model, s, ordered, i);
      RowIsResult(lib, model, s, Earlier(ordered, i), ordered[i]);
    }
  }

  /** `score_batch`. */
  method ScoreBatch(lib: Library, model: Option<Model>, s: Settings, txns: seq<Txn>) returns (results: seq<Scored>)
    ensures results == ScoreFile(lib, model, s, txns)
    ensures |results| == |txns| && AreResults(lib, model, s, Sort(txns, EventTime), results)
  {
    hide Sort, Filter, ScoreRow, ScoreInOrder, AreResults;
    FileResults(lib, model, s, txns);
    var ordered := Sort(txns, EventTime);
    OnCardNone();
    var history: map<string, seq<Txn>> := map[];
    results := [];
    for i := 0 to |ordered|
      invariant results == ScoreInOrder(lib, model, s, ordered[..i])
      invariant forall c :: Filter(ordered[..i], OnCard(c)) == if c in history then history[c] else []
    {
      var txn := ordered[i];
      assert ordered[..i + 1] == ordered[..i] + [txn];
      ScoreInOrderSnoc(lib, model, s, ordered[..i], txn);
      OnCardSnoc(ordered[..i], txn);
      var hist := if txn.cardId in history then history[txn.cardId] else [];
      var row := ScoreWithHistory(lib, model, s, hist, txn);
      results := results + [row];
      history := history[txn.cardId := hist + [txn]];
    }
    assert ordered[..|ordered|] == ordered;
  }

  // ---- Every row on its own ----

  function Earlier(ordered: seq<Txn>, i: nat): seq<Txn>
    requires i < |ordered|
  {
    Filter(ordered[..i], OnCard(ordered[i].cardId))
  }

  lemma {:induction false} RowOf(lib: Library, model: Option<Model>, s: Settings, ordered: seq<Txn>, i: nat)
    requires i < |ordered|
    ensures ScoreInOrder(lib, model, s, ordered)[i] == ScoreRow(lib, model, s, Earlier(ordered, i), ordered[i])
  {
    hide ComputeFeatures, Filter;
    var n := |ordered| - 1;
    if i < n {
      RowOf(lib, model, s, ordered[..n], i);
      assert ordered[..n][..i] == ordered[..i];
    }
  }

  /** Scoring a prefix gives the prefix of the scores. */
  lemma {:induction false} PrefixStable(lib: Library, model: Option<Model>, s: Settings, ordered: seq<Txn>, k: nat)
    requires k <= |ordered|
    ensures ScoreInOrder(lib, model, s, ordered[..k]) == ScoreInOrder(lib, model, s, ordered)[..k]
  {
    hide ScoreRow, Filter, ScoreInOrder;
    if k == |ordered| {
      assert ordered[..k] == ordered;
    } else {
      var n := |ordered| - 1;
      PrefixStable(lib, model, s, ordered[..n], k);
      assert ordered[..n][..k] == ordered[..k];
      assert ordered == ordered[..n] + [ordered[n]];
      ScoreInOrderSnoc(lib, model, s, ordered[..n], ordered[n]);
    }
  }

  const MAX_BATCH_ROWS := 5000

  /** The truncation in the upload route. */
  function Truncated(txns: seq<Txn>): seq<Txn> {
    if |txns| > MAX_BATCH_ROWS then FirstN(Sort(txns, EventTime), MAX_BATCH_ROWS) else txns
  }

  /** Truncation never changes the result of a row that is kept. */
  lemma TruncationStable(lib: Library, model: Option<Model>, s: Settings, txns: seq<Txn>)
    ensures ScoreFile(lib, model, s, Truncated(txns)) == FirstN(ScoreFile(lib, model, s, txns), MAX_BATCH_ROWS)
  {
    hide ComputeFeatures, Filter, ScoreInOrder;
    SortPermutes(txns, EventTime);
    if |txns| > MAX_BATCH_ROWS {
      SortSorts(txns, EventTime);
      SortOfSorted(Truncated(txns), EventTime);
      PrefixStable(lib, model, s, Sort(txns, EventTime), MAX_BATCH_ROWS);
    }
  }

  function ScoredOn(card: string): Scored -> bool {
    (r: Scored) => r.txn.cardId == card
  }

  lemma RowKeepsTxn(lib: Library, model: Option<Model>, s: Settings, history: seq<Txn>, t: Txn)
    ensures ScoreRow(lib, model, s, history, t).txn == t
  {
    hide ComputeFeatures;
  }

  lemma ScoreNothing(lib: Library, model: Option<Model>, s: Settings)
    ensures ScoreInOrder(lib, model, s, []) == []
  {}

  lemma OnlyOnCard(s: seq<Txn>, card: string)
    ensures Filter(Filter(s, OnCard(card)), OnCard(card)) == Filter(s, OnCard(card))
  {
    hide Filter;
    FilterMembers(s, OnCard(card));
    FilterAll(Filter(s, OnCard(card)), OnCard(card));
  }

  lemma {:induction false} OneCardInOrder(lib: Library, model: Option<Model>, s: Settings, ordered: seq<Txn>,
                                          card: string)
    ensures Filter(ScoreInOrder(lib, model, s, ordered), ScoredOn(card))
         == ScoreInOrder(lib, model, s, Filter(ordered, OnCard(card)))
  {
    hide ScoreRow, ScoreInOrder;
    if ordered == [] {
      ScoreNothing(lib, model, s);
    } else {
      hide Filter;
      var n := |ordered| - 1;
      var t, before := ordered[n], ordered[..n];
      var mine := Filter(before, OnCard(card));
      assert ordered == before + [t];
      OneCardInOrder(lib, model, s, before, card);
      FilterSnoc(before, t, OnCard(card));
      var row := ScoreRow(lib, model, s, Filter(before, OnCard(t.cardId)), t);
      RowKeepsTxn(lib, model, s, Filter(before, OnCard(t.cardId)), t);
      FilterSnoc(ScoreInOrder(lib, model, s, before), row, ScoredOn(card));
      ScoreInOrderSnoc(lib, model, s, before, t);
      if t.cardId == card {
        OnlyOnCard(before, card);
        ScoreInOrderSnoc(lib, model, s, mine, t);
      }
    }
  }

  /** Cards do not interfere: one card's results are those of its rows uploaded alone, ties included. */
  lemma CardsDoNotInterfere(lib: Library, model: Option<Model>, s: Settings, txns: seq<Txn>, card: string)
    ensures Filter(ScoreFile(lib, model, s, txns), ScoredOn(card))
         == ScoreFile(lib, model, s, Filter(txns, OnCard(card)))
  {
    hide ScoreInOrder, Filter, Sort;
    OneCardInOrder(lib, model, s, Sort(txns, EventTime), card);
    SortFiltered(txns, EventTime, OnCard(card));
  }

  /** Along a whole upload the windows of every row nest, and no gap is negative. */
  lemma WindowsNestAlongFile(lib: Library, txns: seq<Txn>, i: nat)
    requires i < |txns|
    ensures |Sort(txns, EventTime)| == |txns|
    ensures var ordered := Sort(txns, EventTime);
      var fv := ComputeFeatures(lib, Earlier(ordered, i), ordered[i]);
      && 1 <= fv.velocity5min <= fv.txnCount1h <= fv.txnCount24h <= |Earlier(ordered, i)| + 1
      && 1 <= fv.distinctMerchants24h <= fv.txnCount24h
      && (fv.secondsSinceLast.None? || fv.secondsSinceLast.value >= 0.0)
    ensures RoundIsMonotone(lib) && (forall t :: t in txns ==> MeetsSchema(t)) ==>
      var ordered := Sort(txns, EventTime);
      var fv := ComputeFeatures(lib, Earlier(ordered, i), ordered[i]);
      fv.sumAmount1h <= fv.sumAmount24h
  {
    hide ComputeFeatures, Sort, Filter;
    var ordered := Sort(txns, EventTime);
    SortPermutes(txns, EventTime);
    SamePlaces(ordered, txns);
    SortSorts(txns, EventTime);
    FilterMembers(ordered[..i], OnCard(ordered[i].cardId));
    forall t | t in Earlier(ordered, i) ensures t in txns && t.eventTime <= ordered[i].eventTime {
      var j :| 0 <= j < i && ordered[j] == t;
      assert EventTime(ordered[j]) <= EventTime(ordered[i]);
    }
    WindowNesting(lib, Earlier(ordered, i), ordered[i]);
  }

  // ---- Live against batch ----

  /** Score each transaction live, then append it to the card's history. */
  function LiveRun(lib: Library, model: Option<Model>, s: Settings, st: FS.Store, txns: seq<Txn>): seq<ScoringResult>
    decreases |txns|
  {
    if txns == [] then []
    else
      [LiveScore(lib, model, s, st, txns[0])] + LiveRun(lib, model, s, FS.HistoryAppended(st, txns[0]), txns[1..])
  }

  function Appended(st: FS.Store, txns: seq<Txn>): FS.Store
    decreases |txns|
  {
    if txns == [] then st else Appended(FS.HistoryAppended(st, txns[0]), txns[1..])
  }

  lemma {:induction false} AppendedHistory(st: FS.Store, txns: seq<Txn>, card: string)
    ensures FS.HistoryOf(Appended(st, txns), card) == FS.PushAll(FS.HistoryOf(st, card), Filter(txns, OnCard(card)))
    decreases |txns|
  {
    if txns != [] {
      AppendedHistory(FS.HistoryAppended(st, txns[0]), txns[1..], card);
      if txns[0].cardId == card {
        assert Filter(txns, OnCard(card))[1..] == Filter(txns[1..], OnCard(card));
      } else {
        assert Filter(txns, OnCard(card)) == Filter(txns[1..], OnCard(card));
      }
    }
  }

  lemma {:induction false} LiveRow(lib: Library, model: Option<Model>, s: Settings, st: FS.Store, txns: seq<Txn>,
                                   i: nat)
    requires i < |txns|
    ensures |LiveRun(lib, model, s, st, txns)| == |txns|
    ensures LiveRun(lib, model, s, st, txns)[i] == LiveScore(lib, model, s, Appended(st, txns[..i]), txns[i])
    decreases |txns|
  {
    hide LiveScore;
    var st' := FS.HistoryAppended(st, txns[0]);
    if i > 0 {
      LiveRow(lib, model, s, st', txns[1..], i - 1);
      assert txns[..i][1..] == txns[1..][..i - 1];
    } else if |txns| > 1 {
      LiveRow(lib, model, s, st', txns[1..], 0);
    }
  }

  /** The list the live path reads holds the last 500 earlier rows of the card, newest first. */
  lemma LiveHistory(ordered: seq<Txn>, i: nat)
    requires i < |ordered|
    ensures FS.HistoryRead(Appended(FS.EMPTY, ordered[..i]), ordered[i].cardId, FS.MAX_HISTORY_LEN)
         == Reverse(LastN(Earlier(ordered, i), FS.MAX_HISTORY_LEN))
    ensures multiset(Reverse(LastN(Earlier(ordered, i), FS.MAX_HISTORY_LEN)))
         == multiset(LastN(Earlier(ordered, i), FS.MAX_HISTORY_LEN))
  {
    hide Filter, Appended;
    AppendedHistory(FS.EMPTY, ordered[..i], ordered[i].cardId);
    FS.BoundedHistory(Earlier(ordered, i));
    ReverseMultiset(LastN(Earlier(ordered, i), FS.MAX_HISTORY_LEN));
  }

  /** A live result and a batch result say the same about the transaction. */
  ghost predicate SameVerdict(live: ScoringResult, row: Scored, s: Settings) {
    && live.score == row.score && live.source == row.source
    && live.routing.riskLevel == row.riskLevel
    && live.routing.decision == row.decision
    && live.routing.routedToReview == row.routedToReview
    && row.tag == DeriveReason(live.vector, live.routing.decision, s)
  }

  /** The whole upload against the live path, on the rows in event-time order. */
  ghost predicate FileAgrees(lib: Library, model: Option<Model>, s: Settings, txns: seq<Txn>) {
    var live := LiveRun(lib, model, s, FS.EMPTY, Sort(txns, EventTime));
    var batch := ScoreFile(lib, model, s, txns);
    |live| == |batch| == |txns| && forall i :: 0 <= i < |txns| ==> SameVerdict(live[i], batch[i], s)
  }

  /** The vectors behind row i of the live path and of the upload. */
  lemma RowVectors(lib: Library, model: Option<Model>, s: Settings, ordered: seq<Txn>, i: nat)
    requires i < |ordered|
    ensures |LiveRun(lib, model, s, FS.EMPTY, ordered)| == |ordered|
    ensures var h, t := Earlier(ordered, i), ordered[i];
      var live, batch := ComputeFeatures(lib, Remembered(h), t), ComputeFeatures(lib, h, t);
      && LiveRun(lib, model, s, FS.EMPTY, ordered)[i].vector == live
      && LiveRun(lib, model, s, FS.EMPTY, ordered)[i].score == ModelScore(model, s, live, t).0
      && ScoreInOrder(lib, model, s, ordered)[i].score == ModelScore(model, s, batch, t).0
      && (live == batch ==>
           SameVerdict(LiveRun(lib, model, s, FS.EMPTY, ordered)[i], ScoreInOrder(lib, model, s, ordered)[i], s))
  {
    hide ComputeFeatures, Filter, LiveRun, ScoreInOrder, Appended, LastN, Reverse;
    LiveRow(lib, model, s, FS.EMPTY, ordered, i);
    RowOf(lib, model, s, ordered, i);
    LiveHistory(ordered, i);
  }

  /** What the store still holds of a card's earlier rows, as it hands them back. */
  function Remembered(h: seq<Txn>): seq<Txn> {
    Reverse(LastN(h, FS.MAX_HISTORY_LEN))
  }

  function Forgotten(h: seq<Txn>): seq<Txn> {
    FirstN(h, if |h| > FS.MAX_HISTORY_LEN then |h| - FS.MAX_HISTORY_LEN else 0)
  }

  /** Nothing that fell off the list matters to this row: no other transaction of its day, not the
      new-device answer, not the time or place of the latest transaction, ties included. */
  ghost predicate NothingMissed(h: seq<Txn>, t: Txn) {
    && Filter(Forgotten(h), Recent(t, ONE_DAY)) == []
    && (NewDevice(Others(h, t), t) <==> NewDevice(Others(Remembered(h), t), t))
    && SameLast(h, Remembered(h), t)
  }

  lemma MissedView(h: seq<Txn>, t: Txn)
    ensures Nested(h, Remembered(h))
    ensures NothingMissed(h, t) <==> SameView(h, Remembered(h), t)
  {
    hide Filter, NewDevice, SameLast, Reverse;
    var lost, kept := Forgotten(h), LastN(h, FS.MAX_HISTORY_LEN);
    assert h == lost + kept;
    ReverseMultiset(kept);
    assert multiset(h) == multiset(lost) + multiset(kept);
    assert OnlyInOne(h, Remembered(h)) == multiset(lost);
    NoneKept(lost, Recent(t, ONE_DAY));
  }

  lemma NoneKept(s: seq<Txn>, p: Txn -> bool)
    ensures Filter(s, p) == [] <==> forall u :: u in multiset(s) ==> !p(u)
  {
    FilterMembers(s, p);
    if Filter(s, p) != [] {
      assert Filter(s, p)[0] in s && p(Filter(s, p)[0]);
    }
    if forall u :: u in multiset(s) ==> !p(u) {
      FilterNone(s, p);
    }
  }

  /** A model that recognises one vector. */
  function VectorModel(known: FeatureVector): Model {
    (fv: FeatureVector, t: Txn) => Some(if fv == known then 1.0 else 0.0)
  }

  ghost function RowProbe(ordered: seq<Txn>, i: nat): (Library, Model)
    requires i < |ordered|
  {
    var lib := ViewProbe(Earlier(ordered, i), ordered[i]);
    (lib, VectorModel(ComputeFeatures(lib, Earlier(ordered, i), ordered[i])))
  }

  /** Where something was missed, this model and lawful library tell the paths apart. */
  lemma RowProbed(ordered: seq<Txn>, i: nat)
    requires i < |ordered|
    ensures IsLibrary(RowProbe(ordered, i).0)
    ensures var (lib, model) := RowProbe(ordered, i);
      var live := LiveRun(lib, Some(model), DEFAULTS, FS.EMPTY, ordered);
      var batch := ScoreInOrder(lib, Some(model), DEFAULTS, ordered);
      && |live| == |ordered|
      && (SameVerdict(live[i], batch[i], DEFAULTS) ==> NothingMissed(Earlier(ordered, i), ordered[i]))
  {
    hide ComputeFeatures, NothingMissed, SameView, Nested, LiveRun, ScoreInOrder, ViewProbe, Earlier;
    hide Remembered, IsLibrary;
    var h, t := Earlier(ordered, i), ordered[i];
    var (lib, model) := RowProbe(ordered, i);
    RowVectors(lib, Some(model), DEFAULTS, ordered, i);
    MissedView(h, t);
    ViewProbed(h, Remembered(h), t);
  }

  /** Batch equals live, exactly: the upload gives every row of a file of any size the score,
      source, routing and tag of the live path, for every model, settings and lawful library,
      if and only if nothing that fell off a card's list of 500 matters to a later row. */
  lemma BatchEqualsLive(txns: seq<Txn>)
    ensures |Sort(txns, EventTime)| == |txns|
    ensures (forall lib, model, s :: IsLibrary(lib) ==> FileAgrees(lib, model, s, txns))
      <==> (forall i :: 0 <= i < |txns| ==> NothingMissed(Earlier(Sort(txns, EventTime), i), Sort(txns, EventTime)[i]))
  {
    hide FileAgrees, NothingMissed, Sort, Filter, Earlier, IsLibrary;
    var ordered := Sort(txns, EventTime);
    SortPermutes(txns, EventTime);
    if forall lib, model, s :: IsLibrary(lib) ==> FileAgrees(lib, model, s, txns) {
      forall i | 0 <= i < |txns| ensures NothingMissed(Earlier(ordered, i), ordered[i]) {
        RowShows(txns, i);
      }
    }
    if forall i :: 0 <= i < |txns| ==> NothingMissed(Earlier(ordered, i), ordered[i]) {
      forall lib, model, s ensures FileAgrees(lib, model, s, txns) {
        RowsAgreeing(lib, model, s, txns);
      }
    }
  }

  lemma RowShows(txns: seq<Txn>, i: nat)
    requires i < |txns|
    ensures |Sort(txns, EventTime)| == |txns|
    ensures var ordered := Sort(txns, EventTime);
      var (lib, model) := RowProbe(ordered, i);
      IsLibrary(lib) &&
      (FileAgrees(lib, Some(model), DEFAULTS, txns) ==> NothingMissed(Earlier(ordered, i), ordered[i]))
  {
    hide NothingMissed, Sort, Filter, Earlier, LiveRun, ScoreInOrder, SameVerdict, RowProbe, IsLibrary;
    SortPermutes(txns, EventTime);
    RowProbed(Sort(txns, EventTime), i);
  }

  lemma RowsAgreeing(lib: Library, model: Option<Model>, s: Settings, txns: seq<Txn>)
    requires |Sort(txns, EventTime)| == |txns|
    requires forall i :: 0 <= i < |txns| ==> NothingMissed(Earlier(Sort(txns, EventTime), i), Sort(txns, EventTime)[i])
    ensures FileAgrees(lib, model, s, txns)
  {
    hide ComputeFeatures, NothingMissed, SameView, Nested, Sort, Filter, Earlier, LiveRun, ScoreInOrder, SameVerdict;
    hide Remembered;
    var ordered := Sort(txns, EventTime);
    forall i | 0 <= i < |txns|
      ensures |LiveRun(lib, model, s, FS.EMPTY, ordered)| == |ordered|
      ensures SameVerdict(LiveRun(lib, model, s, FS.EMPTY, ordered)[i], ScoreInOrder(lib, model, s, ordered)[i], s)
    {
      var h, t := Earlier(ordered, i), ordered[i];
      RowVectors(lib, model, s, ordered, i);
      MissedView(h, t);
      ViewAgrees(lib, h, Remembered(h), t);
    }
    LiveRunLength(lib, model, s, FS.EMPTY, ordered);
  }

  /** While nothing has fallen off, only ties can matter. */
  lemma NothingForgotten(h: seq<Txn>, t: Txn)
    requires |h| <= FS.MAX_HISTORY_LEN
    ensures NothingMissed(h, t) <==> TiedEndsAgree(h, t)
  {
    hide NothingMissed, SameView, TiedEndsAgree, SameLastPlace, Nested;
    MissedView(h, t);
    ReversedEnds(h, t);
    PermutedView(h, Reverse(h), t);
  }

  /** What distinct times leave to miss: a transaction of the day, the new-device answer, or, when
      the whole list is the row's own copies, every other transaction. */
  ghost predicate NoneNeeded(h: seq<Txn>, t: Txn) {
    && Filter(Forgotten(h), Recent(t, ONE_DAY)) == []
    && (NewDevice(Others(h, t), t) <==> NewDevice(Others(Remembered(h), t), t))
    && (Others(Remembered(h), t) == [] ==> Others(h, t) == [])
  }

  lemma DistinctTimesMiss(h: seq<Txn>, t: Txn)
    requires TimesIdentify(multiset(h)) && Sorted(h, EventTime)
    ensures NothingMissed(h, t) <==> NoneNeeded(h, t)
  {
    hide Filter, NewDevice, SameLast, Others, Remembered, Forgotten, TimesIdentify, Sorted;
    DistinctLast(h, t);
  }

  lemma DistinctLast(h: seq<Txn>, t: Txn)
    requires TimesIdentify(multiset(h)) && Sorted(h, EventTime)
    ensures SameLast(h, Remembered(h), t) <==> (Others(Remembered(h), t) == [] ==> Others(h, t) == [])
  {
    hide Others, LatestOthers;
    var back := Remembered(h);
    var a, b := Last(LatestOthers(h, t)), Last(LatestOthers(back, t));
    LatestKnown(h, t);
    LatestKnown(back, t);
    RememberedEnd(h);
    assert (Others(h, t) == [] ==> Others(back, t) == []) by { FewerOthers(h, back, t); }
    if a.Some? && b.Some? {
      LastOfLatest(h, t);
      LastOfLatest(back, t);
      SameLatest(h, back, t, a.value, b.value);
    }
  }

  lemma RememberedEnd(h: seq<Txn>)
    ensures h == Forgotten(h) + LastN(h, FS.MAX_HISTORY_LEN)
    ensures forall u :: u in Remembered(h) <==> u in LastN(h, FS.MAX_HISTORY_LEN)
  {
    hide Reverse;
    ReverseMultiset(LastN(h, FS.MAX_HISTORY_LEN));
    SamePlaces(Remembered(h), LastN(h, FS.MAX_HISTORY_LEN));
  }

  lemma FewerOthers(h: seq<Txn>, back: seq<Txn>, t: Txn)
    requires forall u :: u in back ==> u in h
    ensures Others(h, t) == [] ==> Others(back, t) == []
  {
    hide Filter;
    FilterMembers(h, OtherThan(t.transactionId));
    FilterMembers(back, OtherThan(t.transactionId));
    if Others(back, t) != [] {
      assert Others(back, t)[0] in Others(h, t);
    }
  }

  /** The latest of the other rows is still on the list, if any other row is. */
  lemma SameLatest(h: seq<Txn>, back: seq<Txn>, t: Txn, a: Txn, b: Txn)
    requires TimesIdentify(multiset(h)) && Sorted(h, EventTime) && back == Remembered(h)
    requires a in h && a.transactionId != t.transactionId && b in back && b.transactionId != t.transactionId
    requires forall u :: u in h && u.transactionId != t.transactionId ==> u.eventTime <= a.eventTime
    requires forall u :: u in back && u.transactionId != t.transactionId ==> u.eventTime <= b.eventTime
    ensures a == b
  {
    hide Remembered, Forgotten, LastN;
    RememberedEnd(h);
    LaterKept(Forgotten(h), LastN(h, FS.MAX_HISTORY_LEN), a, b);
    assert a in multiset(h) && b in multiset(h);
  }

  /** In a sorted list nothing in front is later than what follows. */
  lemma LaterKept(lost: seq<Txn>, kept: seq<Txn>, a: Txn, b: Txn)
    requires Sorted(lost + kept, EventTime) && TimesIdentify(multiset(lost + kept))
    requires a in lost + kept && b in kept
    requires a.eventTime >= b.eventTime
    ensures a in kept || a == b
  {
    if a in lost {
      var i :| 0 <= i < |lost| && lost[i] == a;
      var j :| 0 <= j < |kept| && kept[j] == b;
      assert EventTime((lost + kept)[i]) <= EventTime((lost + kept)[|lost| + j]);
      assert a in multiset(lost + kept) && b in multiset(lost + kept);
    }
  }

  lemma LatestKnown(h: seq<Txn>, t: Txn)
    ensures Last(LatestOthers(h, t)).None? <==> Others(h, t) == []
  {
    hide Filter, Sort;
    LastOfTied(h, t);
    SortPermutes(Others(h, t), EventTime);
  }

  /** When event times identify the rows of a card, ties are out of the question: the paths agree if
      and only if nothing else that fell off matters, and so always up to 501 rows per card. */
  lemma DistinctTimesBatchEqualsLive(txns: seq<Txn>)
    requires forall c :: TimesIdentify(multiset(Filter(txns, OnCard(c))))
    ensures |Sort(txns, EventTime)| == |txns|
    ensures (forall lib, model, s :: IsLibrary(lib) ==> FileAgrees(lib, model, s, txns))
      <==> (forall i :: 0 <= i < |txns| ==> NoneNeeded(Earlier(Sort(txns, EventTime), i), Sort(txns, EventTime)[i]))
    ensures (forall c :: |Filter(txns, OnCard(c))| <= FS.MAX_HISTORY_LEN + 1) ==>
      forall lib, model, s :: FileAgrees(lib, model, s, txns)
  {
    hide FileAgrees, NothingMissed, NoneNeeded, TiedEndsAgree, Sort, Filter, Earlier, TimesIdentify, IsLibrary, Sorted;
    SortPermutes(txns, EventTime);
    BatchEqualsLive(txns);
    var ordered := Sort(txns, EventTime);
    forall i | 0 <= i < |txns|
      ensures NothingMissed(Earlier(ordered, i), ordered[i]) <==> NoneNeeded(Earlier(ordered, i), ordered[i])
    {
      EarlierIdentified(txns, i);
      EarlierSorted(txns, i);
      DistinctTimesMiss(Earlier(ordered, i), ordered[i]);
    }
    if forall c :: |Filter(txns, OnCard(c))| <= FS.MAX_HISTORY_LEN + 1 {
      forall i | 0 <= i < |txns| ensures NothingMissed(Earlier(ordered, i), ordered[i]) {
        EarlierIdentified(txns, i);
        EarlierFits(txns, i);
        DistinctTimesTie(Earlier(ordered, i), ordered[i]);
        NothingForgotten(Earlier(ordered, i), ordered[i]);
      }
      forall lib, model, s ensures FileAgrees(lib, model, s, txns) {
        RowsAgreeing(lib, model, s, txns);
      }
    }
  }

  lemma EarlierSorted(txns: seq<Txn>, i: nat)
    requires i < |txns|
    ensures |Sort(txns, EventTime)| == |txns| && Sorted(Earlier(Sort(txns, EventTime), i), EventTime)
  {
    hide Sort, Filter;
    var ordered := Sort(txns, EventTime);
    SortPermutes(txns, EventTime);
    SortSorts(txns, EventTime);
    FilterSorted(ordered[..i], OnCard(ordered[i].cardId));
  }

  lemma FilterSorted(s: seq<Txn>, p: Txn -> bool)
    requires Sorted(s, EventTime)
    ensures Sorted(Filter(s, p), EventTime)
  {
    SortOfSorted(s, EventTime);
    SortFiltered(s, EventTime, p);
    SortSorts(Filter(s, p), EventTime);
  }

  lemma LiveRunLength(lib: Library, model: Option<Model>, s: Settings, st: FS.Store, txns: seq<Txn>)
    ensures |LiveRun(lib, model, s, st, txns)| == |txns|
  {
    if txns != [] { LiveRow(lib, model, s, st, txns, 0); }
  }

  lemma EarlierFits(txns: seq<Txn>, i: nat)
    requires i < |txns|
    requires forall c :: |Filter(txns, OnCard(c))| <= FS.MAX_HISTORY_LEN + 1
    ensures |Sort(txns, EventTime)| == |txns|
    ensures |Earlier(Sort(txns, EventTime), i)| <= FS.MAX_HISTORY_LEN
  {
    hide Sort, Filter, Earlier;
    var ordered := Sort(txns, EventTime);
    SortPermutes(txns, EventTime);
    FilterPermutation(txns, ordered, OnCard(ordered[i].cardId));
    SamePlaces(Filter(txns, OnCard(ordered[i].cardId)), Filter(ordered, OnCard(ordered[i].cardId)));
    EarlierPrefix(ordered, i);
  }

  lemma EarlierIdentified(txns: seq<Txn>, i: nat)
    requires i < |txns|
    requires forall c :: TimesIdentify(multiset(Filter(txns, OnCard(c))))
    ensures |Sort(txns, EventTime)| == |txns|
    ensures TimesIdentify(multiset(Earlier(Sort(txns, EventTime), i)))
  {
    hide Sort, Filter, Earlier;
    var ordered := Sort(txns, EventTime);
    SortPermutes(txns, EventTime);
    var all := Filter(txns, OnCard(ordered[i].cardId));
    FilterPermutation(txns, ordered, OnCard(ordered[i].cardId));
    SamePlaces(Filter(ordered, OnCard(ordered[i].cardId)), all);
    EarlierPrefix(ordered, i);
    assert forall t :: t in multiset(Earlier(ordered, i)) ==> t in Earlier(ordered, i);
    assert forall t :: t in all ==> t in multiset(all);
    assert TimesIdentify(multiset(all));
  }

  lemma EarlierPrefix(ordered: seq<Txn>, i: nat)
    requires i < |ordered|
    ensures var all := Filter(ordered, OnCard(ordered[i].cardId));
      |Earlier(ordered, i)| < |all| && forall u :: u in Earlier(ordered, i) ==> u in all
  {
    var c := ordered[i].cardId;
    assert ordered == ordered[..i + 1] + ordered[i + 1..] && ordered[..i + 1] == ordered[..i] + [ordered[i]];
    FilterConcat(ordered[..i + 1], ordered[i + 1..], OnCard(c));
    FilterSnoc(ordered[..i], ordered[i], OnCard(c));
  }

  // ---- Training against serving ----

  datatype TrainingRow = TrainingRow(vector: FeatureVector, txn: Txn, fraudLabel: nat)

  function TrainingRowOf(lib: Library, stream: seq<Txn>, i: nat): TrainingRow
    requires i < |stream|
  {
    TrainingRow(ComputeFeatures(lib, LastN(Earlier(stream, i), FS.MAX_HISTORY_LEN), stream[i]), stream[i],
      if stream[i].isSimulatedFraud then 1 else 0)
  }

  /** The lists of the rows seen so far. */
  ghost predicate HistoryKept(history: map<string, seq<Txn>>, rows: seq<Txn>) {
    forall c :: LastN(Filter(rows, OnCard(c)), FS.MAX_HISTORY_LEN) == if c in history then history[c] else []
  }

  lemma HistoryKeptSnoc(history: map<string, seq<Txn>>, rows: seq<Txn>, t: Txn)
    requires HistoryKept(history, rows)
    ensures var kept := if t.cardId in history then history[t.cardId] else [];
      HistoryKept(history[t.cardId := FS.TrainPush(kept, t)], rows + [t])
  {
    hide Filter, LastN, FS.TrainPush;
    OnCardSnoc(rows, t);
    FS.TrainPushStep(Filter(rows, OnCard(t.cardId)), t);
  }

  lemma NothingKept()
    ensures HistoryKept(map[], [])
  {}

  lemma KeptAt(history: map<string, seq<Txn>>, stream: seq<Txn>, i: nat)
    requires i < |stream| && HistoryKept(history, stream[..i])
    ensures LastN(Earlier(stream, i), FS.MAX_HISTORY_LEN) ==
      if stream[i].cardId in history then history[stream[i].cardId] else []
  {
    hide Filter, LastN;
  }

  /** `build_training_dataset`, over the generated stream. */
  method BuildTrainingDataset(lib: Library, stream: seq<Txn>) returns (rows: seq<TrainingRow>)
    ensures |rows| == |stream|
    ensures forall i :: 0 <= i < |stream| ==> rows[i] == TrainingRowOf(lib, stream, i)
    ensures forall i :: 0 <= i < |stream| ==>
      && rows[i].txn == stream[i]
      && rows[i].vector == ComputeFeatures(lib, LastN(Earlier(stream, i), FS.MAX_HISTORY_LEN), stream[i])
      && rows[i].fraudLabel == (if stream[i].isSimulatedFraud then 1 else 0)
  {
    hide ComputeFeatures, Filter, LastN, HistoryKept, Earlier;
    NothingKept();
    var history: map<string, seq<Txn>> := map[];
    rows := [];
    for i := 0 to |stream|
      invariant |rows| == i && forall j :: 0 <= j < i ==> rows[j] == TrainingRowOf(lib, stream, j)
      invariant HistoryKept(history, stream[..i])
    {
      var txn := stream[i];
      assert stream[..i + 1] == stream[..i] + [txn];
      KeptAt(history, stream, i);
      HistoryKeptSnoc(history, stream[..i], txn);
      var cardHistory := if txn.cardId in history then history[txn.cardId] else [];
      var fv := ComputeFeatures(lib, cardHistory, txn);
      rows := rows + [TrainingRow(fv, txn, if txn.isSimulatedFraud then 1 else 0)];
      cardHistory := cardHistory + [txn];
      if |cardHistory| > FS.MAX_HISTORY_LEN {
        cardHistory := cardHistory[|cardHistory| - FS.MAX_HISTORY_LEN..];
      }
      history := history[txn.cardId := cardHistory];
    }
  }

  function ServedVector(lib: Library, stream: seq<Txn>, i: nat): FeatureVector
    requires i < |stream|
  {
    LiveScore(lib, None, DEFAULTS, Appended(FS.EMPTY, stream[..i]), stream[i]).vector
  }

  lemma ServedLive(lib: Library, model: Option<Model>, s: Settings, stream: seq<Txn>, i: nat)
    requires i < |stream|
    ensures |LiveRun(lib, model, s, FS.EMPTY, stream)| == |stream|
    ensures LiveRun(lib, model, s, FS.EMPTY, stream)[i].vector == ServedVector(lib, stream, i)
    ensures var kept := LastN(Earlier(stream, i), FS.MAX_HISTORY_LEN);
      && ServedVector(lib, stream, i) == ComputeFeatures(lib, Reverse(kept), stream[i])
      && multiset(Reverse(kept)) == multiset(kept)
  {
    hide ComputeFeatures, Filter, LiveRun, Appended;
    LiveRow(lib, model, s, FS.EMPTY, stream, i);
    LiveHistory(stream, i);
  }

  /** No train/serve skew, for streams of any length: both paths keep the same last 500 rows of a
      card, so they agree on everything but the distance and the speed, and on those, for every
      lawful library, exactly when no tie has ends at different places. */
  lemma TrainServeAgree(stream: seq<Txn>, i: nat)
    requires i < |stream|
    ensures forall lib :: SameButPlace(TrainingRowOf(lib, stream, i).vector, ServedVector(lib, stream, i))
    ensures (forall lib :: IsLibrary(lib) ==> TrainingRowOf(lib, stream, i).vector == ServedVector(lib, stream, i))
      <==> TiedEndsAgree(LastN(Earlier(stream, i), FS.MAX_HISTORY_LEN), stream[i])
  {
    hide ComputeFeatures, TiedEndsAgree, Earlier, SameButPlace, ServedVector, LastN, IsLibrary;
    var kept := LastN(Earlier(stream, i), FS.MAX_HISTORY_LEN);
    ReversalExact(kept, stream[i]);
    forall lib
      ensures TrainingRowOf(lib, stream, i).vector == ComputeFeatures(lib, kept, stream[i])
      ensures ServedVector(lib, stream, i) == ComputeFeatures(lib, Reverse(kept), stream[i])
      ensures SameButPlace(TrainingRowOf(lib, stream, i).vector, ServedVector(lib, stream, i))
    {
      ServedLive(lib, None, DEFAULTS, stream, i);
      OrderIndependence(lib, kept, Reverse(kept), stream[i]);
    }
  }
}

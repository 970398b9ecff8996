/** The stream against the other two paths: under the conditions of micro-batch
    invariance, what the consumer logs is what the live path and the upload compute. */
module StreamAgreement {
  import opened Sequences
  import opened StableSort
  import opened Transactions
  import opened Features
  import opened Decision
  import opened Scoring
  import opened StreamConsumer
  import opened StreamLimits
  import FS = FeatureStore

  /** On one card's rows, the earlier rows of the card are all the earlier rows. */
  lemma EarlierOnCard(ts: seq<Txn>, card: string, i: nat)
    requires i < |ts| && forall t :: t in ts ==> t.cardId == card
    ensures Earlier(ts, i) == ts[..i]
  {
    hide Filter;
    assert forall t :: t in ts[..i] ==> t in ts;
    FilterAll(ts[..i], OnCard(card));
  }

  /** An upload of the stream's valid rows, seen from one card. */
  lemma UploadOfStream(lib: Library, model: Option<Model>, s: Settings, rows: seq<Txn>, card: string)
    ensures Filter(ScoreFile(lib, model, s, ValidTxns(rows)), ScoredOn(card))
         == ScoreInOrder(lib, model, s, Arrivals(rows, card))
  {
    hide ScoreInOrder, Filter, Sort, ValidTxns;
    CardsDoNotInterfere(lib, model, s, ValidTxns(rows), card);
  }

  /** What the consumer sees, the list of the live path and the upload's own list hold one multiset. */
  lemma OneMultiset(batches: seq<seq<Txn>>, card: string, i: nat)
    requires Chronological(batches, card)
    requires WithinBounds(FS.EMPTY, card, Arrivals(Flatten(batches), card))
    requires i < |Arrivals(Flatten(batches), card)|
    ensures var ts := Arrivals(Flatten(batches), card);
      var v := SightsOver([], batches, card);
      && |v| == |ts| && v[i].txn == ts[i]
      && multiset(v[i].seen) == multiset(ts[..i]) && TimesIdentify(multiset(ts[..i]))
      && i <= FS.MAX_HISTORY_LEN
  {
    hide Arrivals, ArrivalsOver, SightsOver, Flatten, TimesIdentify, Chronological;
    assert FS.HistoryOf(FS.EMPTY, card) == [];
    var ts := Arrivals(Flatten(batches), card);
    ChronologicalArrivals(batches, card);
    SightsMeaning([], batches, card, i);
    SeenIdentified([], ts, i);
    NothingAdded(multiset(ts[..i]));
  }

  lemma NothingAdded(m: multiset<Txn>)
    ensures multiset([]) + m == m
  {}

  /** Stream, live path and upload agree: the vectors the consumer logs for a card are those of
      scoring its time-sorted valid rows live, one by one, from an empty store, and those behind
      its rows in an upload of the whole stream. */
  lemma StreamMatches(lib: Library, model: Option<Model>, s: Settings, batches: seq<seq<Txn>>, card: string)
    requires Chronological(batches, card)
    requires WithinBounds(FS.EMPTY, card, Arrivals(Flatten(batches), card))
    ensures var ts := Arrivals(Flatten(batches), card);
      var logged := Filter(RunBatches(lib, FS.EMPTY, batches).store.writes, VectorOn(card));
      var live := LiveRun(lib, model, s, FS.EMPTY, ts);
      var upload := Filter(ScoreFile(lib, model, s, ValidTxns(Flatten(batches))), ScoredOn(card));
      && |logged| == |live| == |upload| == |ts|
      && forall i :: 0 <= i < |ts| ==> logged[i] == live[i].vector && upload[i] == RowFrom(model, s, logged[i], ts[i])
  {
    hide ComputeFeatures, Arrivals, SightsOver, Flatten, RunBatches, ScoreFile, ScoreInOrder, LiveRun, RowFrom;
    hide Filter, FS.PushAll, FeaturesAfter, ArrivalsOver, WithinBounds, Chronological;
    var ts := Arrivals(Flatten(batches), card);
    var sights := SightsOver([], batches, card);
    assert FS.HistoryOf(FS.EMPTY, card) == [];
    ChronologicalArrivals(batches, card);
    RunBatchesEffect(lib, FS.EMPTY, batches, card);
    assert Filter(FS.EMPTY.writes, VectorOn(card)) == [] by { FilterNone(FS.EMPTY.writes, VectorOn(card)); }
    UploadOfStream(lib, model, s, Flatten(batches), card);
    ArrivalsOnCard(Flatten(batches), card);
    LiveRunLength(lib, model, s, FS.EMPTY, ts);
    forall i | 0 <= i < |ts|
      ensures LiveRun(lib, model, s, FS.EMPTY, ts)[i].vector == ComputeFeatures(lib, sights[i].seen, ts[i])
      ensures ScoreInOrder(lib, model, s, ts)[i]
           == RowFrom(model, s, ComputeFeatures(lib, sights[i].seen, ts[i]), ts[i])
      ensures sights[i].txn == ts[i]
    {
      OneMultiset(batches, card, i);
      EarlierOnCard(ts, card, i);
      RowVectors(lib, model, s, ts, i);
      RowOf(lib, model, s, ts, i);
      ReverseMultiset(ts[..i]);
      DistinctTimesAgree(lib, ts[..i], sights[i].seen, ts[i]);
      assert Remembered(ts[..i]) == Reverse(ts[..i]);
      DistinctTimesAgree(lib, Reverse(ts[..i]), sights[i].seen, ts[i]);
    }
  }

  /** A row whose list lost an earlier row of the same day misses it. */
  lemma LostInTheDay(rows: seq<Txn>, card: string, i: nat)
    requires DayOfRows(rows, card) && FS.MAX_HISTORY_LEN < i < |rows|
    ensures Earlier(rows, i) == rows[..i] && !NothingMissed(rows[..i], rows[i])
  {
    hide Filter, MeetsSchema;
    EarlierOnCard(rows, card, i);
    var lost := Forgotten(rows[..i]);
    assert lost[0] == rows[0] && Recent(rows[i], ONE_DAY)(rows[0]);
    NoneKept(lost, Recent(rows[i], ONE_DAY));
    assert rows[0] in multiset(lost);
  }

  /** The exact size for uploads: on a day's rows of one card the upload and the live path agree, for
      every model, settings and lawful library, if and only if there are at most 501. */
  lemma UploadSizeExact(rows: seq<Txn>, card: string)
    requires DayOfRows(rows, card)
    ensures (forall lib, model, s :: IsLibrary(lib) ==> FileAgrees(lib, model, s, rows))
      <==> |rows| <= FS.MAX_HISTORY_LEN + 1
  {
    hide FileAgrees, NothingMissed, TiedEndsAgree, DayOfRows, Earlier, TimesIdentify, IsLibrary;
    assert Sorted(rows, EventTime) && forall t :: t in rows ==> t.cardId == card by { DaySorted(rows, card); }
    SortOfSorted(rows, EventTime);
    BatchEqualsLive(rows);
    if |rows| <= FS.MAX_HISTORY_LEN + 1 {
      forall i | 0 <= i < |rows| ensures NothingMissed(Earlier(rows, i), rows[i]) {
        EarlierOnCard(rows, card, i);
        DayIdentified(rows, card, i);
        DistinctTimesTie(rows[..i], rows[i]);
        NothingForgotten(rows[..i], rows[i]);
      }
    } else {
      LostInTheDay(rows, card, FS.MAX_HISTORY_LEN + 1);
    }
  }

  lemma DaySorted(rows: seq<Txn>, card: string)
    requires DayOfRows(rows, card)
    ensures Sorted(rows, EventTime) && forall t :: t in rows ==> t.cardId == card
  {}

  lemma DayIdentified(rows: seq<Txn>, card: string, i: nat)
    requires DayOfRows(rows, card) && i < |rows|
    ensures TimesIdentify(multiset(rows[..i]))
  {
    hide MeetsSchema;
    var h := rows[..i];
    forall t: Txn, u: Txn | t in multiset(h) && u in multiset(h) && t.eventTime == u.eventTime ensures t == u {
      var j :| 0 <= j < |h| && h[j] == t;
      var k :| 0 <= k < |h| && h[k] == u;
      assert rows[j] == t && rows[k] == u;
    }
  }
}

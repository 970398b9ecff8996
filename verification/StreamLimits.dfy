/** Why `MicroBatchInvariance` has its two side conditions: exactly when a pair of tied
    events, and exactly when the size of a day's stream, shows where it was cut. */
module StreamLimits {
  import opened Sequences
  import opened StableSort
  import opened Transactions
  import opened Features
  import opened StreamConsumer
  import FS = FeatureStore

  lemma {:induction false} AllArrive(rows: seq<Txn>, card: string)
    requires forall i :: 0 <= i < |rows| ==> MeetsSchema(rows[i]) && rows[i].cardId == card
    requires Sorted(rows, EventTime)
    ensures Arrivals(rows, card) == Map(rows, Normalise)
  {
    FilterAll(rows, MeetsSchema);
    FilterAll(Map(rows, Normalise), OnCard(card));
    SortOfSorted(Map(rows, Normalise), EventTime);
  }

  lemma BatchByBatch(lib: Library, st: FS.Store, b1: seq<Txn>, b2: seq<Txn>)
    ensures RunBatches(lib, st, [b1]).store == RunBatch(lib, st, b1).store
    ensures RunBatches(lib, st, [b1, b2]).store == RunBatch(lib, RunBatch(lib, st, b1).store, b2).store
  {
    hide RunBatch;
    var st' := RunBatch(lib, st, b1).store;
    assert [b1][1..] == [] && [b1, b2][1..] == [b2] && [b2][1..] == [];
    assert RunBatches(lib, st', [b2]).store == RunBatch(lib, st', b2).store;
  }

  lemma PushesTwo(x: Txn, y: Txn)
    ensures FS.PushAll([], [x, y]) == [y, x]
  {
    assert [x, y][1..] == [y] && [y][1..] == [];
    assert FS.Push([], x) == [x] && FS.Push([x], y) == [y, x];
    assert FS.PushAll([y, x], []) == [y, x];
    assert FS.PushAll([x], [y]) == FS.PushAll([y, x], []);
  }

  lemma SightsOfOne(list: seq<Txn>, rows: seq<Txn>, card: string)
    requires |list| <= FS.MAX_HISTORY_LEN
    ensures ArrivalsOver([rows], card) == Arrivals(rows, card)
    ensures SightsOver(list, [rows], card) == Sights(list, Arrivals(rows, card))
  {
    hide Arrivals, Sights, FS.PushAll;
    assert [rows][1..] == [];
    assert SightsOver(FS.PushAll(list, Arrivals(rows, card)), [], card) == [];
  }

  lemma SightsOfThree(a: Txn, b: Txn, c: Txn)
    ensures Sights([], [a, b, c]) == [Sight([], a), Sight([a], b), Sight([a, b], c)]
    ensures Sights([], [a, b]) == [Sight([], a), Sight([a], b)]
    ensures Sights([b, a], [c]) == [Sight([b, a], c)]
  {
    assert [a, b, c][..0] == [] && [a, b, c][..1] == [a] && [a, b, c][..2] == [a, b];
    assert [a, b][..0] == [] && [a, b][..1] == [a] && [c][..0] == [];
    SightsAt([], [a, b, c], 0);
    SightsAt([], [a, b, c], 1);
    SightsAt([], [a, b, c], 2);
    SightsAt([], [a, b], 0);
    SightsAt([], [a, b], 1);
    SightsAt([b, a], [c], 0);
    assert [] + [a] == [a] && [] + [a, b] == [a, b] && [b, a] + [] == [b, a];
  }

  /** What a, b and c see in one batch, and with a cut before c. */
  lemma PairSights(a: Txn, b: Txn, c: Txn)
    requires MeetsSchema(a) && MeetsSchema(b) && MeetsSchema(c)
    requires a.cardId == b.cardId == c.cardId
    requires a.eventTime <= b.eventTime <= c.eventTime
    ensures var x, y, z := Normalise(a), Normalise(b), Normalise(c);
      && ArrivalsOver([[a, b, c]], c.cardId) == [x, y, z] == ArrivalsOver([[a, b], [c]], c.cardId)
      && SightsOver([], [[a, b, c]], c.cardId) == [Sight([], x), Sight([x], y), Sight([x, y], z)]
      && SightsOver([], [[a, b], [c]], c.cardId) == [Sight([], x), Sight([x], y), Sight([y, x], z)]
  {
    hide Arrivals, FS.PushAll, MeetsSchema, Sights, Map;
    var x, y, z := Normalise(a), Normalise(b), Normalise(c);
    var card := c.cardId;
    AllArrive([a, b, c], card);
    AllArrive([a, b], card);
    AllArrive([c], card);
    assert Map([a, b, c], Normalise) == [x, y, z];
    assert Map([a, b], Normalise) == [x, y] && Map([c], Normalise) == [z];
    SightsOfThree(x, y, z);
    SightsOfOne([], [a, b, c], card);
    PushesTwo(x, y);
    SightsOfOne([y, x], [c], card);
    assert [[a, b], [c]][1..] == [[c]];
    assert FS.Lrange<Txn>([], FS.MAX_HISTORY_LEN - 1) == [];
  }

  /** Two events a, b of one card at one instant, then c: cut before c, the stored list hands
      the pair back in the other order, so c is measured from a, not b. The cut shows, for
      some distance function, exactly when a and b happened at different places. */
  lemma TiedTimesShowTheCut(a: Txn, b: Txn, c: Txn)
    requires MeetsSchema(a) && MeetsSchema(b) && MeetsSchema(c)
    requires a.cardId == b.cardId == c.cardId
    requires a.eventTime == b.eventTime <= c.eventTime
    requires a.transactionId != c.transactionId && b.transactionId != c.transactionId
    ensures (forall lib :: IsLibrary(lib) ==> CutsAgree(lib, FS.EMPTY, [[a, b, c]], [[a, b], [c]], c.cardId))
      <==> SamePlace(a, b)
  {
    hide CutsAgree, SightsOver, ArrivalsOver, MeetsSchema, SameLastPlace, SightsAligned, IsLibrary;
    var a', b', c' := Normalise(a), Normalise(b), Normalise(c);
    PairSights(a, b, c);
    CutsExact(FS.EMPTY, [[a, b, c]], [[a, b], [c]], c.cardId);
    assert FS.HistoryOf(FS.EMPTY, c.cardId) == [];
    OneDiffers(a', b', c');
    TiedPair(a', b', c');
  }

  lemma OneDiffers(x: Txn, y: Txn, z: Txn)
    ensures var s1 := [Sight([], x), Sight([x], y), Sight([x, y], z)];
      var s2 := [Sight([], x), Sight([x], y), Sight([y, x], z)];
      SightsAligned(s1, s2) <==> SameLastPlace([x, y], [y, x], z)
  {
    hide SameView, SameLastPlace, Nested;
    SameList([], x);
    SameList([x], y);
    PermutedView([x, y], [y, x], z);
    var s1 := [Sight([], x), Sight([x], y), Sight([x, y], z)];
    var s2 := [Sight([], x), Sight([x], y), Sight([y, x], z)];
    assert SightsAligned(s1, s2) ==> SameView(s1[2].seen, s2[2].seen, s1[2].txn);
  }

  lemma SameList(h: seq<Txn>, t: Txn)
    ensures SameView(h, h, t)
  {}

  lemma TiedPair(x: Txn, y: Txn, c: Txn)
    requires x.eventTime == y.eventTime
    requires x.transactionId != c.transactionId && y.transactionId != c.transactionId
    ensures SameLastPlace([x, y], [y, x], c) <==> SamePlace(x, y)
  {
    AllTied(x, y, c);
    AllTied(y, x, c);
  }

  lemma AllTied(x: Txn, y: Txn, c: Txn)
    requires x.eventTime == y.eventTime
    requires x.transactionId != c.transactionId && y.transactionId != c.transactionId
    ensures LatestOthers([x, y], c) == [x, y]
  {
    FilterAll([x, y], OtherThan(c.transactionId));
    FilterAll([x, y], NoLaterIn([x, y]));
  }

  ghost predicate CountsCapped(writes: seq<FeatureVector>) {
    forall i :: 0 <= i < |writes| ==> writes[i].txnCount24h <= FS.MAX_HISTORY_LEN + 1
  }

  lemma OneRowCapped(lib: Library, st: FS.Store, row: Txn)
    requires CountsCapped(st.writes)
    ensures CountsCapped(RunBatch(lib, st, [row]).store.writes)
  {
    hide ComputeFeatures, RunBatch, Filter, Arrivals;
    var after := RunBatch(lib, st, [row]).store;
    forall i | 0 <= i < |after.writes| ensures after.writes[i].txnCount24h <= FS.MAX_HISTORY_LEN + 1 {
      var fv := after.writes[i];
      var card := fv.cardId;
      var seen := FS.HistoryRead(st, card, FS.MAX_HISTORY_LEN);
      RunBatchEffect(lib, st, [row], card);
      FewArrivals([row], card);
      FilterMembers(after.writes, VectorOn(card));
      FilterMembers(st.writes, VectorOn(card));
      assert fv in Filter(after.writes, VectorOn(card));
      if fv !in Filter(st.writes, VectorOn(card)) {
        var ts := Arrivals([row], card);
        assert fv in Vectors(lib, seen, ts);
        assert ts[1..] == [] && Vectors(lib, seen + [ts[0]], []) == [];
        assert fv == ComputeFeatures(lib, seen, ts[0]);
        WindowNesting(lib, seen, ts[0]);
      }
    }
  }

  lemma FewArrivals(rows: seq<Txn>, card: string)
    ensures |Arrivals(rows, card)| <= |rows|
  {
    FilterMembers(rows, MeetsSchema);
    FilterMembers(ValidTxns(rows), OnCard(card));
    SortPermutes(Filter(ValidTxns(rows), OnCard(card)), EventTime);
  }

  lemma {:induction false} RowByRowCapped(lib: Library, st: FS.Store, rows: seq<Txn>)
    requires CountsCapped(st.writes)
    ensures CountsCapped(RunBatches(lib, st, Singles(rows)).store.writes)
    decreases |rows|
  {
    hide RunBatch;
    if rows != [] {
      OneRowCapped(lib, st, rows[0]);
      RowByRowCapped(lib, RunBatch(lib, st, [rows[0]]).store, rows[1..]);
      assert Singles(rows)[1..] == Singles(rows[1..]);
    }
  }

  lemma WholeDayCounted(lib: Library, h: seq<Txn>, t: Txn)
    requires forall i :: 0 <= i < |h| ==>
      h[i].transactionId != t.transactionId && t.eventTime - ONE_DAY <= h[i].eventTime <= t.eventTime
    ensures ComputeFeatures(lib, h, t).txnCount24h == |h| + 1
  {
    hide ComputeFeatures;
    FeatureMeaning(lib, h, t);
    FilterAll(h, Recent(t, ONE_DAY));
  }

  /** A day of one card: valid rows in order, with distinct event times and ids. */
  ghost predicate DayOfRows(rows: seq<Txn>, card: string) {
    && (forall i :: 0 <= i < |rows| ==> MeetsSchema(rows[i]) && rows[i].cardId == card)
    && (forall i, j :: 0 <= i < j < |rows| ==>
         rows[i].eventTime < rows[j].eventTime && rows[i].transactionId != rows[j].transactionId)
    && (rows != [] ==> rows[|rows| - 1].eventTime - ONE_DAY <= rows[0].eventTime)
  }

  lemma DayArrives(rows: seq<Txn>, card: string)
    requires DayOfRows(rows, card)
    ensures Sorted(rows, EventTime) && Arrivals(rows, card) == Map(rows, Normalise)
    ensures TimesIdentify(multiset(Arrivals(rows, card)))
  {
    hide MeetsSchema, Arrivals;
    AllArrive(rows, card);
    TimesDiffer(rows, card);
  }

  lemma TimesDiffer(rows: seq<Txn>, card: string)
    requires DayOfRows(rows, card)
    ensures TimesIdentify(multiset(Map(rows, Normalise)))
  {
    hide MeetsSchema, Map, Upper;
    var ts := Map(rows, Normalise);
    forall t: Txn, u: Txn | t in multiset(ts) && u in multiset(ts) && t.eventTime == u.eventTime ensures t == u {
      var i :| 0 <= i < |ts| && ts[i] == t;
      var j :| 0 <= j < |ts| && ts[j] == u;
      assert t == Normalise(rows[i]) && u == Normalise(rows[j]);
    }
  }

  lemma DayCounted(lib: Library, rows: seq<Txn>, card: string)
    requires DayOfRows(rows, card) && rows != []
    ensures var ts := Map(rows, Normalise);
      ComputeFeatures(lib, ts[..|ts| - 1], ts[|ts| - 1]).txnCount24h == |rows|
  {
    hide ComputeFeatures, MeetsSchema, Upper;
    var ts := Map(rows, Normalise);
    hide Map;
    var h, t := ts[..|ts| - 1], ts[|ts| - 1];
    forall i | 0 <= i < |h|
      ensures h[i].transactionId != t.transactionId && t.eventTime - ONE_DAY <= h[i].eventTime <= t.eventTime
    {
      assert h[i] == Normalise(rows[i]) && t == Normalise(rows[|rows| - 1]);
      assert rows[0].eventTime < rows[i].eventTime || i == 0;
      assert rows[i].eventTime < rows[|rows| - 1].eventTime;
    }
    WholeDayCounted(lib, h, t);
  }

  /** In one batch the last of the day's rows counts them all. */
  lemma DayInOneBatch(lib: Library, rows: seq<Txn>, card: string)
    requires DayOfRows(rows, card) && rows != []
    ensures var w := Filter(RunBatches(lib, FS.EMPTY, [rows]).store.writes, VectorOn(card));
      |w| == |rows| && w[|w| - 1].txnCount24h == |rows|
  {
    hide ComputeFeatures, RunBatch, Arrivals, MeetsSchema, Map, FS.Lrange, DayOfRows, Filter;
    DayArrives(rows, card);
    DayCounted(lib, rows, card);
    OneBatchShows(lib, FS.EMPTY, rows, card);
    BatchByBatch(lib, FS.EMPTY, rows, []);
    NothingStored();
    var ts := Map(rows, Normalise);
    SightsAt([], ts, |ts| - 1);
    assert [] + ts[..|ts| - 1] == ts[..|ts| - 1];
    assert Filter(FS.EMPTY.writes, VectorOn(card)) == [] by { FilterNone(FS.EMPTY.writes, VectorOn(card)); }
  }

  lemma NothingStored()
    ensures FS.Lrange<Txn>([], FS.MAX_HISTORY_LEN - 1) == []
  {}

  /** Row by row no count exceeds 501, while in one batch the last row counts the whole day:
      the in-memory history of a batch is not trimmed. */
  lemma LongDayShowsTheCut(lib: Library, rows: seq<Txn>, card: string)
    requires DayOfRows(rows, card)
    ensures CutsAgree(lib, FS.EMPTY, Singles(rows), [rows], card) ==> |rows| <= FS.MAX_HISTORY_LEN + 1
  {
    hide RunBatches, DayOfRows;
    if rows != [] {
      assert CountsCapped(FS.EMPTY.writes) by { NothingWritten(); }
      RowByRowCapped(lib, FS.EMPTY, rows);
      DayInOneBatch(lib, rows, card);
      FilterMembers(RunBatches(lib, FS.EMPTY, Singles(rows)).store.writes, VectorOn(card));
    }
  }

  lemma NothingWritten()
    ensures CountsCapped(FS.EMPTY.writes)
  {}

  /** A cut of the rows that respects the card's event times. */
  ghost predicate IsCut(batches: seq<seq<Txn>>, rows: seq<Txn>, card: string) {
    multiset(Flatten(batches)) == multiset(rows) && Chronological(batches, card)
  }

  lemma ShortDayHidesTheCut(lib: Library, rows: seq<Txn>, card: string, b1: seq<seq<Txn>>, b2: seq<seq<Txn>>)
    requires DayOfRows(rows, card) && |rows| <= FS.MAX_HISTORY_LEN + 1
    requires IsCut(b1, rows, card) && IsCut(b2, rows, card)
    ensures CutsAgree(lib, FS.EMPTY, b1, b2, card)
  {
    hide DayOfRows, CutsAgree, Arrivals, TimesIdentify, Flatten, Chronological;
    DayArrives(rows, card);
    var nothing: seq<Txn> := [];
    assert multiset(nothing) + multiset(Arrivals(rows, card)) == multiset(Arrivals(rows, card));
    ArrivalsPermuted(rows, Flatten(b1), card, nothing);
    MicroBatchInvariance(lib, FS.EMPTY, b1, b2, card);
  }

  /** The exact size: all chronological cuts of a day's rows agree if and only if there are at most 501. */
  lemma SizeExact(lib: Library, rows: seq<Txn>, card: string)
    requires DayOfRows(rows, card)
    ensures (forall b1, b2 :: IsCut(b1, rows, card) && IsCut(b2, rows, card) ==> CutsAgree(lib, FS.EMPTY, b1, b2, card))
      <==> |rows| <= FS.MAX_HISTORY_LEN + 1
  {
    hide DayOfRows, CutsAgree;
    if |rows| <= FS.MAX_HISTORY_LEN + 1 {
      forall b1, b2 | IsCut(b1, rows, card) && IsCut(b2, rows, card) ensures CutsAgree(lib, FS.EMPTY, b1, b2, card) {
        ShortDayHidesTheCut(lib, rows, card, b1, b2);
      }
    }
    DayArrives(rows, card);
    SinglesMeaning(rows);
    SinglesChronological(rows, card);
    assert IsCut(Singles(rows), rows, card);
    assert IsCut([rows], rows, card) by { OneCut(rows, card); }
    LongDayShowsTheCut(lib, rows, card);
  }

  lemma OneCut(rows: seq<Txn>, card: string)
    ensures IsCut([rows], rows, card)
  {
    assert [rows][1..] == [] && Flatten([rows]) == rows + Flatten([]);
  }
}

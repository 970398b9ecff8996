/** The micro-batch loop (src/feature_engineering/spark_consumer.py,
    `_process_partition_group`) and the theorem that the way a stream is cut
    into micro-batches does not show in the features. */
module StreamConsumer {
  import opened Sequences
  import opened StableSort
  import opened Transactions
  import opened Features
  import FS = FeatureStore

  datatype Outcome = Outcome(store: FS.Store, valid: seq<Txn>, invalid: nat)

  function Then(valid: seq<Txn>, invalid: nat, o: Outcome): Outcome {
    Outcome(o.store, valid + o.valid, invalid + o.invalid)
  }

  /** One card's rows, in order, with the history `seen` held in memory. */
  function RunCard(lib: Library, st: FS.Store, seen: seq<Txn>, rows: seq<Txn>): Outcome
    decreases |rows|
  {
    if rows == [] then Outcome(st, [], 0)
    else match ValidateRow(rows[0])
      case None => Then([], 1, RunCard(lib, st, seen, rows[1..]))
      case Some(t) =>
        var fv := ComputeFeatures(lib, seen, t);
        var st' := FS.HistoryAppended(FS.FeaturesWritten(st, fv), t);
        Then([t], 0, RunCard(lib, st', seen + [t], rows[1..]))
  }

  /** The cards of a batch in order of first appearance, as a Python dict keeps them. */
  function CardsInOrder(rows: seq<Txn>): seq<string> {
    if rows == [] then []
    else
      var n := |rows| - 1;
      var cards := CardsInOrder(rows[..n]);
      if rows[n].cardId in cards then cards else cards + [rows[n].cardId]
  }

  function SortedRows(rows: seq<Txn>, card: string): seq<Txn> {
    Sort(Filter(rows, OnCard(card)), EventTime)
  }

  function RunCards(lib: Library, st: FS.Store, cards: seq<string>, rows: seq<Txn>): Outcome
    decreases |cards|
  {
    if cards == [] then Outcome(st, [], 0)
    else
      var first := RunCard(lib, st, FS.HistoryRead(st, cards[0], FS.MAX_HISTORY_LEN), SortedRows(rows, cards[0]));
      Then(first.valid, first.invalid, RunCards(lib, first.store, cards[1..], rows))
  }

  function RunBatch(lib: Library, st: FS.Store, rows: seq<Txn>): Outcome {
    RunCards(lib, st, CardsInOrder(rows), rows)
  }

  /** `foreachBatch` over successive micro-batches. */
  function RunBatches(lib: Library, st: FS.Store, batches: seq<seq<Txn>>): Outcome
    decreases |batches|
  {
    if batches == [] then Outcome(st, [], 0)
    else
      var first := RunBatch(lib, st, batches[0]);
      Then(first.valid, first.invalid, RunBatches(lib, first.store, batches[1..]))
  }

  /** The grouping of the rows seen so far. */
  ghost predicate Grouped(rows: seq<Txn>, cards: seq<string>, byCard: map<string, seq<Txn>>) {
    && cards == CardsInOrder(rows)
    && (forall c :: c in byCard <==> c in cards)
    && (forall c :: Filter(rows, OnCard(c)) == if c in byCard then byCard[c] else [])
  }

  lemma GroupedSnoc(rows: seq<Txn>, cards: seq<string>, byCard: map<string, seq<Txn>>, row: Txn)
    requires Grouped(rows, cards, byCard)
    ensures var c := row.cardId;
      Grouped(rows + [row], if c in byCard then cards else cards + [c],
        byCard[c := (if c in byCard then byCard[c] else []) + [row]])
  {
    hide Filter;
    OnCardSnoc(rows, row);
    assert (rows + [row])[..|rows|] == rows;
  }

  lemma NothingGrouped()
    ensures Grouped([], [], map[])
  {
    OnCardNone();
  }

  method GroupByCard(rows: seq<Txn>) returns (cards: seq<string>, byCard: map<string, seq<Txn>>)
    ensures Grouped(rows, cards, byCard)
  {
    hide Grouped;
    cards, byCard := [], map[];
    NothingGrouped();
    for i := 0 to |rows|
      invariant Grouped(rows[..i], cards, byCard)
    {
      var row := rows[i];
      var c := row.cardId;
      assert rows[..i + 1] == rows[..i] + [row];
      GroupedSnoc(rows[..i], cards, byCard, row);
      if c in byCard {
        byCard := byCard[c := byCard[c] + [row]];
      } else {
        cards, byCard := cards + [c], byCard[c := [row]];
        assert [] + [row] == [row];
      }
    }
    assert rows[..|rows|] == rows;
  }

  lemma ThenAssociates(v1: seq<Txn>, n1: nat, v2: seq<Txn>, n2: nat, o: Outcome)
    ensures Then(v1, n1, Then(v2, n2, o)) == Then(v1 + v2, n1 + n2, o)
  {
    assert v1 + (v2 + o.valid) == (v1 + v2) + o.valid;
  }

  /** The inner loop: one card's sorted rows. */
  method ProcessCard(lib: Library, cardRows: seq<Txn>, seen: seq<Txn>, store: FS.RedisFeatureStore)
    returns (valid: seq<Txn>, invalid: nat)
    modifies store
    ensures Outcome(store.View(), valid, invalid) == RunCard(lib, old(store.View()), seen, cardRows)
  {
    valid, invalid := [], 0;
    var history := seen;
    ghost var whole := RunCard(lib, store.View(), seen, cardRows);
    assert cardRows[0..] == cardRows && [] + whole.valid == whole.valid;
    for j := 0 to |cardRows|
      invariant Then(valid, invalid, RunCard(lib, store.View(), history, cardRows[j..])) == whole
    {
      assert cardRows[j..][1..] == cardRows[j + 1..];
      match ValidateRow(cardRows[j])
      case None =>
        ThenAssociates(valid, invalid, [], 1, RunCard(lib, store.View(), history, cardRows[j + 1..]));
        assert valid + [] == valid;
        invalid := invalid + 1;
      case Some(txn) =>
        var fv := ComputeFeatures(lib, history, txn);
        ghost var st' := FS.HistoryAppended(FS.FeaturesWritten(store.View(), fv), txn);
        ThenAssociates(valid, invalid, [txn], 0, RunCard(lib, st', history + [txn], cardRows[j + 1..]));
        store.WriteFeatures(fv);
        store.AppendHistory(txn);
        history := history + [txn];
        valid := valid + [txn];
    }
    assert valid + [] == valid;
  }

  /** `_process_partition_group`. */
  method ProcessPartitionGroup(lib: Library, rows: seq<Txn>, store: FS.RedisFeatureStore)
    returns (valid: seq<Txn>, invalid: nat)
    modifies store
    ensures Outcome(store.View(), valid, invalid) == RunBatch(lib, old(store.View()), rows)
  {
    valid, invalid := [], 0;
    var cards, byCard := GroupByCard(rows);
    ghost var whole := RunBatch(lib, store.View(), rows);
    assert cards[0..] == cards && [] + whole.valid == whole.valid;
    for k := 0 to |cards|
      invariant Then(valid, invalid, RunCards(lib, store.View(), cards[k..], rows)) == whole
    {
      assert cards[k] in cards && cards[k..][1..] == cards[k + 1..];
      var history := store.GetHistory(cards[k]);
      var cardRows := Sort(byCard[cards[k]], EventTime);
      ghost var first := RunCard(lib, store.View(), history, cardRows);
      ThenAssociates(valid, invalid, first.valid, first.invalid, RunCards(lib, first.store, cards[k + 1..], rows));
      var v, n := ProcessCard(lib, cardRows, history, store);
      valid, invalid := valid + v, invalid + n;
    }
    assert valid + [] == valid;
  }

  // ---- What one card sees ----

  /** The transactions that survive validation, in row order. */
  function ValidTxns(rows: seq<Txn>): seq<Txn> {
    Map(Filter(rows, MeetsSchema), Normalise)
  }

  /** The feature vectors of ts, each computed from `seen` and the ones before it. */
  function Vectors(lib: Library, seen: seq<Txn>, ts: seq<Txn>): seq<FeatureVector>
    decreases |ts|
  {
    if ts == [] then []
    else [ComputeFeatures(lib, seen, ts[0])] + Vectors(lib, seen + [ts[0]], ts[1..])
  }

  function VectorOn(card: string): FeatureVector -> bool {
    (fv: FeatureVector) => fv.cardId == card
  }

  function FeaturesAfter(before: map<string, FeatureVector>, card: string,
                         written: seq<FeatureVector>): Option<FeatureVector>
  {
    if written != [] then Some(written[|written| - 1])
    else if card in before then Some(before[card])
    else None
  }

  /** `after` holds, for one card, what `before` held plus ts processed on top of `seen`. */
  ghost predicate CardAdvanced(lib: Library, card: string, before: FS.Store, seen: seq<Txn>, ts: seq<Txn>,
                               after: FS.Store)
  {
    var written := Vectors(lib, seen, ts);
    && FS.HistoryOf(after, card) == FS.PushAll(FS.HistoryOf(before, card), ts)
    && Filter(after.writes, VectorOn(card)) == Filter(before.writes, VectorOn(card)) + written
    && FeaturesAfter(after.features, card, []) == FeaturesAfter(before.features, card, written)
  }

  lemma ValidTxnsCons(rows: seq<Txn>)
    requires rows != []
    ensures ValidTxns(rows) == (if MeetsSchema(rows[0]) then [Normalise(rows[0])] else []) + ValidTxns(rows[1..])
  {
    var rest := Filter(rows[1..], MeetsSchema);
    if MeetsSchema(rows[0]) {
      assert ([rows[0]] + rest)[1..] == rest;
    } else {
      assert [] + rest == rest;
    }
  }

  lemma ValidTxnsConcat(s: seq<Txn>, t: seq<Txn>)
    ensures ValidTxns(s + t) == ValidTxns(s) + ValidTxns(t)
  {
    FilterConcat(s, t, MeetsSchema);
    MapConcat(Filter(s, MeetsSchema), Filter(t, MeetsSchema), Normalise);
  }

  lemma {:induction false} ValidTxnsOnCard(rows: seq<Txn>, card: string)
    ensures Filter(ValidTxns(rows), OnCard(card)) == ValidTxns(Filter(rows, OnCard(card)))
  {
    if rows != [] {
      var row, rest := rows[0], rows[1..];
      ValidTxnsOnCard(rest, card);
      ValidTxnsCons(rows);
      if MeetsSchema(row) {
        assert ValidTxns(rows)[1..] == ValidTxns(rest);
      } else {
        assert ValidTxns(rows) == ValidTxns(rest);
      }
      if row.cardId == card {
        assert Filter(rows, OnCard(card))[1..] == Filter(rest, OnCard(card));
        ValidTxnsCons(Filter(rows, OnCard(card)));
      } else {
        assert Filter(rows, OnCard(card)) == Filter(rest, OnCard(card));
      }
    }
  }

  lemma {:induction false} InsertMapped(x: Txn, s: seq<Txn>)
    ensures Map(Insert(x, s, EventTime), Normalise) == Insert(Normalise(x), Map(s, Normalise), EventTime)
  {
    if s != [] && EventTime(x) > EventTime(s[0]) {
      InsertMapped(x, s[1..]);
    }
  }

  lemma {:induction false} SortMapped(s: seq<Txn>)
    ensures Map(Sort(s, EventTime), Normalise) == Sort(Map(s, Normalise), EventTime)
  {
    if s != [] {
      SortMapped(s[1..]);
      InsertMapped(s[0], Sort(s[1..], EventTime));
    }
  }

  /** Sorting rows and then validating is validating and then sorting. */
  lemma ValidTxnsSorted(rows: seq<Txn>)
    ensures ValidTxns(Sort(rows, EventTime)) == Sort(ValidTxns(rows), EventTime)
  {
    SortFiltered(rows, EventTime, MeetsSchema);
    SortMapped(Filter(rows, MeetsSchema));
  }

  lemma StepAdvances(lib: Library, st: FS.Store, seen: seq<Txn>, t: Txn, ts: seq<Txn>, after: FS.Store, card: string)
    requires var st' := FS.HistoryAppended(FS.FeaturesWritten(st, ComputeFeatures(lib, seen, t)), t);
      if t.cardId == card then CardAdvanced(lib, card, st', seen + [t], ts, after)
      else CardAdvanced(lib, card, st', [], [], after)
    ensures if t.cardId == card then CardAdvanced(lib, card, st, seen, [t] + ts, after)
      else CardAdvanced(lib, card, st, [], [], after)
  {
    hide FromPast, PastOf, Filter;
    var fv := ComputeFeatures(lib, seen, t);
    FilterSnoc(st.writes, fv, VectorOn(card));
    assert fv.cardId == t.cardId by { FeaturesOnCard(lib, seen, t); }
    assert ([t] + ts)[1..] == ts;
    assert Vectors(lib, seen, [t] + ts) == [fv] + Vectors(lib, seen + [t], ts);
  }

  lemma FeaturesOnCard(lib: Library, seen: seq<Txn>, t: Txn)
    ensures ComputeFeatures(lib, seen, t).cardId == t.cardId
  {}

  lemma {:induction false} RunCardEffect(lib: Library, st: FS.Store, seen: seq<Txn>, rows: seq<Txn>, card: string)
    requires forall r :: r in rows ==> r.cardId == card
    ensures var o := RunCard(lib, st, seen, rows);
      && o.valid == ValidTxns(rows)
      && |o.valid| + o.invalid == |rows|
      && CardAdvanced(lib, card, st, seen, ValidTxns(rows), o.store)
    ensures var o := RunCard(lib, st, seen, rows);
      forall c :: c != card ==> CardAdvanced(lib, c, st, [], [], o.store)
    decreases |rows|
  {
    hide CardAdvanced, ComputeFeatures, Filter, Map;
    if rows == [] {
      NothingAdvances(lib, st, seen, card);
    } else {
      ValidTxnsCons(rows);
      match ValidateRow(rows[0])
      case None =>
        assert [] + ValidTxns(rows[1..]) == ValidTxns(rows[1..]);
        RunCardEffect(lib, st, seen, rows[1..], card);
      case Some(t) =>
        var st' := FS.HistoryAppended(FS.FeaturesWritten(st, ComputeFeatures(lib, seen, t)), t);
        RunCardEffect(lib, st', seen + [t], rows[1..], card);
        var o := RunCard(lib, st, seen, rows);
        StepAdvances(lib, st, seen, t, ValidTxns(rows[1..]), o.store, card);
        forall c | c != card ensures CardAdvanced(lib, c, st, [], [], o.store) {
          StepAdvances(lib, st, seen, t, [], o.store, c);
        }
    }
  }

  lemma NothingAdvances(lib: Library, st: FS.Store, seen: seq<Txn>, card: string)
    ensures ValidTxns([]) == []
    ensures CardAdvanced(lib, card, st, seen, [], st)
    ensures forall c :: CardAdvanced(lib, c, st, [], [], st)
  {
    forall c: string ensures Filter(st.writes, VectorOn(c)) + [] == Filter(st.writes, VectorOn(c)) {}
  }

  lemma CardOfRows(rows: seq<Txn>, card: string)
    ensures forall r :: r in SortedRows(rows, card) ==> r.cardId == card
    ensures |SortedRows(rows, card)| == |Filter(rows, OnCard(card))|
    ensures ValidTxns(SortedRows(rows, card)) == Sort(Filter(ValidTxns(rows), OnCard(card)), EventTime)
  {
    FilterMembers(rows, OnCard(card));
    SortPermutes(Filter(rows, OnCard(card)), EventTime);
    SamePlaces(Filter(rows, OnCard(card)), SortedRows(rows, card));
    ValidTxnsSorted(Filter(rows, OnCard(card)));
    ValidTxnsOnCard(rows, card);
  }

  /** The valid transactions a batch brings to a card, in event-time order. */
  function Arrivals(rows: seq<Txn>, card: string): seq<Txn> {
    Sort(Filter(ValidTxns(rows), OnCard(card)), EventTime)
  }

  // ---- One batch ----

  lemma {:induction false} CardsInOrderMeaning(rows: seq<Txn>)
    ensures NoDuplicates(CardsInOrder(rows))
    ensures forall r :: r in rows ==> r.cardId in CardsInOrder(rows)
  {
    if rows != [] {
      var n := |rows| - 1;
      CardsInOrderMeaning(rows[..n]);
      assert rows == rows[..n] + [rows[n]];
    }
  }

  lemma AdvanceThenNothing(lib: Library, card: string, a: FS.Store, seen: seq<Txn>, ts: seq<Txn>, b: FS.Store,
                           d: FS.Store)
    requires CardAdvanced(lib, card, a, seen, ts, b) && CardAdvanced(lib, card, b, [], [], d)
    ensures CardAdvanced(lib, card, a, seen, ts, d)
  {
    hide Filter, ComputeFeatures;
    assert Filter(b.writes, VectorOn(card)) + [] == Filter(b.writes, VectorOn(card));
  }

  lemma NothingThenAdvance(lib: Library, card: string, a: FS.Store, b: FS.Store, seen: seq<Txn>, ts: seq<Txn>,
                           d: FS.Store)
    requires CardAdvanced(lib, card, a, [], [], b) && CardAdvanced(lib, card, b, seen, ts, d)
    ensures CardAdvanced(lib, card, a, seen, ts, d)
  {
    hide Filter, ComputeFeatures;
    assert Filter(a.writes, VectorOn(card)) + [] == Filter(a.writes, VectorOn(card));
  }

  /** What a batch does to one card: its valid rows, in event-time order, on top of the stored history. */
  ghost predicate CardProcessed(lib: Library, card: string, st: FS.Store, rows: seq<Txn>, o: Outcome) {
    && CardAdvanced(lib, card, st, FS.HistoryRead(st, card, FS.MAX_HISTORY_LEN), Arrivals(rows, card), o.store)
    && Filter(o.valid, OnCard(card)) == Arrivals(rows, card)
  }

  lemma {:induction false} RunCardsEffect(lib: Library, st: FS.Store, cards: seq<string>, rows: seq<Txn>, card: string)
    requires NoDuplicates(cards)
    ensures var o := RunCards(lib, st, cards, rows);
      if card in cards then CardProcessed(lib, card, st, rows, o)
      else CardAdvanced(lib, card, st, [], [], o.store) && Filter(o.valid, OnCard(card)) == []
    decreases |cards|
  {
    hide CardAdvanced, ComputeFeatures, Sort, Filter, Map, RunCard;
    if cards == [] {
      NothingAdvances(lib, st, [], card);
      FilterNone<Txn>([], OnCard(card));
    } else {
      var c := cards[0];
      var seen := FS.HistoryRead(st, c, FS.MAX_HISTORY_LEN);
      var first := RunCard(lib, st, seen, SortedRows(rows, c));
      var rest := RunCards(lib, first.store, cards[1..], rows);
      CardOfRows(rows, c);
      RunCardEffect(lib, st, seen, SortedRows(rows, c), c);
      RunCardsEffect(lib, first.store, cards[1..], rows, card);
      FilterConcat(first.valid, rest.valid, OnCard(card));
      ArrivalsOnCard(rows, c);
      if card == c {
        AdvanceThenNothing(lib, card, st, seen, Arrivals(rows, c), first.store, rest.store);
        FilterAll(first.valid, OnCard(card));
        assert first.valid + [] == first.valid;
      } else {
        FilterNone(first.valid, OnCard(card));
        assert [] + Filter(rest.valid, OnCard(card)) == Filter(rest.valid, OnCard(card));
        SameHistory(lib, st, first.store, card);
        if card in cards {
          NothingThenAdvance(lib, card, st, first.store, FS.HistoryRead(first.store, card, FS.MAX_HISTORY_LEN),
            Arrivals(rows, card), rest.store);
        } else {
          NothingThenAdvance(lib, card, st, first.store, [], [], rest.store);
        }
      }
    }
  }

  lemma SameHistory(lib: Library, a: FS.Store, b: FS.Store, card: string)
    requires CardAdvanced(lib, card, a, [], [], b)
    ensures FS.HistoryOf(a, card) == FS.HistoryOf(b, card)
  {}

  lemma ArrivalsOnCard(rows: seq<Txn>, card: string)
    ensures forall t :: t in Arrivals(rows, card) ==> t.cardId == card
    ensures Filter(rows, OnCard(card)) == [] ==> Arrivals(rows, card) == []
  {
    hide Sort, ValidTxns;
    var f := Filter(ValidTxns(rows), OnCard(card));
    FilterMembers(ValidTxns(rows), OnCard(card));
    SortPermutes(f, EventTime);
    SamePlaces(f, Arrivals(rows, card));
    ValidTxnsOnCard(rows, card);
    assert ValidTxns([]) == [] by { NoValidTxns(); }
  }

  lemma NoValidTxns()
    ensures ValidTxns([]) == []
  {}

  lemma RunBatchEffect(lib: Library, st: FS.Store, rows: seq<Txn>, card: string)
    ensures CardProcessed(lib, card, st, rows, RunBatch(lib, st, rows))
  {
    hide ComputeFeatures, Sort, Map;
    CardsInOrderMeaning(rows);
    RunCardsEffect(lib, st, CardsInOrder(rows), rows, card);
    if card !in CardsInOrder(rows) {
      FilterNone(rows, OnCard(card));
      ArrivalsOnCard(rows, card);
    }
  }

  function RowsOn(cards: seq<string>, rows: seq<Txn>): nat {
    if cards == [] then 0 else |Filter(rows, OnCard(cards[0]))| + RowsOn(cards[1..], rows)
  }

  lemma {:induction false} RowsOnCons(cards: seq<string>, row: Txn, rows: seq<Txn>)
    requires NoDuplicates(cards)
    ensures RowsOn(cards, [row] + rows) == RowsOn(cards, rows) + if row.cardId in cards then 1 else 0
  {
    if cards != [] {
      RowsOnCons(cards[1..], row, rows);
      assert ([row] + rows)[1..] == rows;
    }
  }

  lemma {:induction false} RowsOnAll(cards: seq<string>, rows: seq<Txn>)
    requires NoDuplicates(cards)
    requires forall r :: r in rows ==> r.cardId in cards
    ensures RowsOn(cards, rows) == |rows|
  {
    if rows == [] {
      RowsOnNone(cards);
    } else {
      RowsOnAll(cards, rows[1..]);
      RowsOnCons(cards, rows[0], rows[1..]);
      assert [rows[0]] + rows[1..] == rows;
    }
  }

  lemma {:induction false} RowsOnNone(cards: seq<string>)
    ensures RowsOn(cards, []) == 0
  {
    if cards != [] { RowsOnNone(cards[1..]); }
  }

  lemma {:induction false} RunCardsTotals(lib: Library, st: FS.Store, cards: seq<string>, rows: seq<Txn>)
    ensures var o := RunCards(lib, st, cards, rows);
      |o.valid| + o.invalid == RowsOn(cards, rows)
    decreases |cards|
  {
    hide CardAdvanced, ComputeFeatures, Sort, Filter, Map, RunCard;
    if cards != [] {
      var seen := FS.HistoryRead(st, cards[0], FS.MAX_HISTORY_LEN);
      CardOfRows(rows, cards[0]);
      RunCardEffect(lib, st, seen, SortedRows(rows, cards[0]), cards[0]);
      RunCardsTotals(lib, RunCard(lib, st, seen, SortedRows(rows, cards[0])).store, cards[1..], rows);
    }
  }

  /** Every row of a batch is counted once: the valid ones are returned, the others counted. */
  lemma RowsAccounted(lib: Library, st: FS.Store, rows: seq<Txn>)
    ensures var o := RunBatch(lib, st, rows);
      && multiset(o.valid) == multiset(ValidTxns(rows))
      && |o.valid| + o.invalid == |rows|
  {
    hide ComputeFeatures, Sort, Map, CardAdvanced;
    var o := RunBatch(lib, st, rows);
    CardsInOrderMeaning(rows);
    RunCardsTotals(lib, st, CardsInOrder(rows), rows);
    RowsOnAll(CardsInOrder(rows), rows);
    forall t: Txn ensures multiset(o.valid)[t] == multiset(ValidTxns(rows))[t] {
      RunBatchEffect(lib, st, rows, t.cardId);
      FilterCount(o.valid, OnCard(t.cardId), t);
      FilterCount(ValidTxns(rows), OnCard(t.cardId), t);
      SortPermutes(Filter(ValidTxns(rows), OnCard(t.cardId)), EventTime);
    }
  }

  /** Every returned transaction is a valid row with its two codes in upper case: same id, card, user,
      merchant, amount, place, device and time. And every valid row is returned so. */
  lemma RowsTraced(lib: Library, st: FS.Store, rows: seq<Txn>)
    ensures var valid := RunBatch(lib, st, rows).valid;
      && (forall t :: t in valid ==> exists r :: r in rows && MeetsSchema(r) && ComesFrom(t, r))
      && (forall r :: r in rows && MeetsSchema(r) ==> exists t :: t in valid && ComesFrom(t, r))
  {
    hide RunBatch, Filter, MeetsSchema, Normalise, ComesFrom, Map;
    var valid := RunBatch(lib, st, rows).valid;
    var kept := Filter(rows, MeetsSchema);
    RowsAccounted(lib, st, rows);
    SamePlaces(valid, ValidTxns(rows));
    FilterMembers(rows, MeetsSchema);
    forall t | t in valid ensures exists r :: r in rows && MeetsSchema(r) && ComesFrom(t, r) {
      var i :| 0 <= i < |ValidTxns(rows)| && ValidTxns(rows)[i] == t;
      assert kept[i] in rows;
      NormalisedComes(kept[i]);
    }
    forall r | r in rows && MeetsSchema(r) ensures exists t :: t in valid && ComesFrom(t, r) {
      var i :| 0 <= i < |kept| && kept[i] == r;
      assert ValidTxns(rows)[i] in valid;
      NormalisedComes(r);
    }
  }

  lemma NormalisedComes(r: Txn)
    requires MeetsSchema(r)
    ensures ComesFrom(Normalise(r), r)
  {
    assert ValidateRow(r) == Some(Normalise(r));
  }

  /** c has a row before the first one of d. */
  ghost predicate SeenBefore(rows: seq<Txn>, c: string, d: string) {
    exists i :: 0 <= i < |rows| && rows[i].cardId == c && forall j :: 0 <= j <= i ==> rows[j].cardId != d
  }

  ghost predicate HasRow(rows: seq<Txn>, c: string) {
    exists i :: 0 <= i < |rows| && rows[i].cardId == c
  }

  lemma SeenSnoc(rows: seq<Txn>, row: Txn, c: string, d: string)
    ensures HasRow(rows + [row], c) <==> HasRow(rows, c) || row.cardId == c
    ensures SeenBefore(rows, c, d) ==> SeenBefore(rows + [row], c, d)
    ensures HasRow(rows, c) && !HasRow(rows, d) ==> SeenBefore(rows + [row], c, d)
  {
    var all := rows + [row];
    assert all[|rows|] == row;
    if HasRow(rows, c) {
      var i :| 0 <= i < |rows| && rows[i].cardId == c;
      assert all[i] == rows[i];
      if !HasRow(rows, d) {
        assert all[i].cardId == c && forall j :: 0 <= j <= i ==> all[j] == rows[j];
      }
    }
    if SeenBefore(rows, c, d) {
      var i :| 0 <= i < |rows| && rows[i].cardId == c && forall j :: 0 <= j <= i ==> rows[j].cardId != d;
      assert all[i].cardId == c && forall j :: 0 <= j <= i ==> all[j] == rows[j];
    }
  }

  lemma NoRows()
    ensures forall c :: !HasRow([], c)
  {}

  ghost predicate OrderedByFirstRow(rows: seq<Txn>, cards: seq<string>) {
    forall a, b :: 0 <= a < b < |cards| ==> SeenBefore(rows, cards[a], cards[b])
  }

  /** The cards are those with a row, the earlier seen before the later. */
  lemma {:induction false} CardsByFirstRow(rows: seq<Txn>)
    ensures forall c :: c in CardsInOrder(rows) <==> HasRow(rows, c)
    ensures OrderedByFirstRow(rows, CardsInOrder(rows))
  {
    hide SeenBefore, HasRow;
    if rows == [] {
      assert forall c :: !HasRow(rows, c) by { NoRows(); }
    } else {
      var n := |rows| - 1;
      var cards, before := CardsInOrder(rows), CardsInOrder(rows[..n]);
      CardsByFirstRow(rows[..n]);
      assert rows == rows[..n] + [rows[n]];
      forall c ensures c in cards <==> HasRow(rows, c) {
        SeenSnoc(rows[..n], rows[n], c, c);
      }
      forall a, b | 0 <= a < b < |cards| ensures SeenBefore(rows, cards[a], cards[b]) {
        assert cards[a] == before[a] && before[a] in before;
        if b < |before| {
          assert cards[b] == before[b] && SeenBefore(rows[..n], before[a], before[b]);
        } else {
          assert cards[b] == rows[n].cardId && cards[b] !in before;
          assert HasRow(rows[..n], cards[a]) && !HasRow(rows[..n], cards[b]);
        }
        SeenSnoc(rows[..n], rows[n], cards[a], cards[b]);
      }
    }
  }

  // ---- Any split into micro-batches ----

  /** The valid transactions the batches bring to a card, batch by batch. */
  function ArrivalsOver(batches: seq<seq<Txn>>, card: string): seq<Txn> {
    if batches == [] then [] else Arrivals(batches[0], card) + ArrivalsOver(batches[1..], card)
  }

  /** Earlier batches hold no later valid event of the card. */
  ghost predicate Chronological(batches: seq<seq<Txn>>, card: string) {
    forall i, j, r, q :: 0 <= i < j < |batches| && r in batches[i] && q in batches[j]
      && r.cardId == card && q.cardId == card && MeetsSchema(r) && MeetsSchema(q)
      ==> r.eventTime <= q.eventTime
  }

  lemma {:induction false} PushAllConcat(list: seq<Txn>, ts: seq<Txn>, us: seq<Txn>)
    ensures FS.PushAll(list, ts + us) == FS.PushAll(FS.PushAll(list, ts), us)
    decreases |ts|
  {
    if ts == [] {
      assert ts + us == us;
    } else {
      assert (ts + us)[1..] == ts[1..] + us;
      PushAllConcat(FS.Push(list, ts[0]), ts[1..], us);
    }
  }

  lemma LastWriteWins(x: map<string, FeatureVector>, y: map<string, FeatureVector>, card: string,
                      v: seq<FeatureVector>, w: seq<FeatureVector>)
    requires FeaturesAfter(y, card, []) == FeaturesAfter(x, card, v)
    ensures FeaturesAfter(y, card, w) == FeaturesAfter(x, card, v + w)
  {}

  /** A transaction with the history it is scored against. */
  datatype Sight = Sight(seen: seq<Txn>, txn: Txn)

  function VectorAt(lib: Library): Sight -> FeatureVector {
    (v: Sight) => ComputeFeatures(lib, v.seen, v.txn)
  }

  /** In one batch each transaction sees `seen` and the ones before it. */
  function Sights(seen: seq<Txn>, ts: seq<Txn>): (r: seq<Sight>)
    ensures |r| == |ts|
    decreases |ts|
  {
    if ts == [] then [] else [Sight(seen, ts[0])] + Sights(seen + [ts[0]], ts[1..])
  }

  /** Across batches each batch starts from the list the earlier ones left in the store. */
  function SightsOver(list: seq<Txn>, batches: seq<seq<Txn>>, card: string): (r: seq<Sight>)
    ensures |r| == |ArrivalsOver(batches, card)|
    decreases |batches|
  {
    if batches == [] then []
    else
      var now := Arrivals(batches[0], card);
      Sights(FS.Lrange(list, FS.MAX_HISTORY_LEN - 1), now) + SightsOver(FS.PushAll(list, now), batches[1..], card)
  }

  lemma {:induction false} SightVectors(lib: Library, seen: seq<Txn>, ts: seq<Txn>)
    ensures Vectors(lib, seen, ts) == Map(Sights(seen, ts), VectorAt(lib))
    decreases |ts|
  {
    hide ComputeFeatures;
    if ts != [] {
      SightVectors(lib, seen + [ts[0]], ts[1..]);
      assert Sights(seen, ts)[1..] == Sights(seen + [ts[0]], ts[1..]);
    }
  }

  /** `after` holds, for one card, what `before` held plus these vectors and transactions. */
  ghost predicate CardShows(card: string, before: FS.Store, written: seq<FeatureVector>, ts: seq<Txn>,
                            after: FS.Store)
  {
    && FS.HistoryOf(after, card) == FS.PushAll(FS.HistoryOf(before, card), ts)
    && Filter(after.writes, VectorOn(card)) == Filter(before.writes, VectorOn(card)) + written
    && FeaturesAfter(after.features, card, []) == FeaturesAfter(before.features, card, written)
  }

  lemma ShowsCompose(card: string, a: FS.Store, v: seq<FeatureVector>, ts: seq<Txn>,
                     b: FS.Store, w: seq<FeatureVector>, us: seq<Txn>, d: FS.Store)
    requires CardShows(card, a, v, ts, b) && CardShows(card, b, w, us, d)
    ensures CardShows(card, a, v + w, ts + us, d)
  {
    hide Filter, FS.PushAll, FS.HistoryOf, FeaturesAfter;
    PushAllConcat(FS.HistoryOf(a, card), ts, us);
    LastWriteWins(a.features, b.features, card, v, w);
    assert (Filter(a.writes, VectorOn(card)) + v) + w == Filter(a.writes, VectorOn(card)) + (v + w);
  }

  lemma ShowsNothing(card: string, st: FS.Store)
    ensures CardShows(card, st, [], [], st)
  {
    assert Filter(st.writes, VectorOn(card)) + [] == Filter(st.writes, VectorOn(card));
  }

  /** What any sequence of batches does to a card, ties, overflows and all: each arrival
      is scored on what it sees, and the list takes the arrivals in turn. */
  lemma {:induction false} RunBatchesEffect(lib: Library, st: FS.Store, batches: seq<seq<Txn>>, card: string)
    ensures CardShows(card, st, Map(SightsOver(FS.HistoryOf(st, card), batches, card), VectorAt(lib)),
      ArrivalsOver(batches, card), RunBatches(lib, st, batches).store)
    decreases |batches|
  {
    hide ComputeFeatures, Arrivals, Vectors, RunBatch, FS.HistoryOf, FS.Lrange, FS.PushAll;
    hide Filter, Map, Sights, CardShows;
    var list := FS.HistoryOf(st, card);
    if batches == [] {
      ShowsNothing(card, st);
      assert Map([], VectorAt(lib)) == [];
    } else {
      var now, later := Arrivals(batches[0], card), ArrivalsOver(batches[1..], card);
      var st' := RunBatch(lib, st, batches[0]).store;
      var seen := FS.Lrange(list, FS.MAX_HISTORY_LEN - 1);
      OneBatchShows(lib, st, batches[0], card);
      RunBatchesEffect(lib, st', batches[1..], card);
      var rest := SightsOver(FS.PushAll(list, now), batches[1..], card);
      assert FS.HistoryOf(st', card) == FS.PushAll(list, now) by {
        ShownHistory(card, st, Map(Sights(seen, now), VectorAt(lib)), now, st');
      }
      MapConcat(Sights(seen, now), rest, VectorAt(lib));
      ShowsCompose(card, st, Map(Sights(seen, now), VectorAt(lib)), now,
        st', Map(rest, VectorAt(lib)), later, RunBatches(lib, st', batches[1..]).store);
    }
  }

  lemma ShownHistory(card: string, a: FS.Store, v: seq<FeatureVector>, ts: seq<Txn>, b: FS.Store)
    requires CardShows(card, a, v, ts, b)
    ensures FS.HistoryOf(b, card) == FS.PushAll(FS.HistoryOf(a, card), ts)
  {}

  lemma OneBatchShows(lib: Library, st: FS.Store, rows: seq<Txn>, card: string)
    ensures var seen := FS.Lrange(FS.HistoryOf(st, card), FS.MAX_HISTORY_LEN - 1);
      CardShows(card, st, Map(Sights(seen, Arrivals(rows, card)), VectorAt(lib)), Arrivals(rows, card),
        RunBatch(lib, st, rows).store)
  {
    hide ComputeFeatures, Arrivals, RunBatch, Filter, Map, Sights, Vectors;
    RunBatchEffect(lib, st, rows, card);
    SightVectors(lib, FS.HistoryRead(st, card, FS.MAX_HISTORY_LEN), Arrivals(rows, card));
  }

  lemma {:induction false} SightsAt(seen: seq<Txn>, ts: seq<Txn>, i: nat)
    requires i < |ts|
    ensures Sights(seen, ts)[i] == Sight(seen + ts[..i], ts[i])
    decreases |ts|
  {
    if i == 0 {
      assert seen + ts[..0] == seen;
    } else {
      SightsAt(seen + [ts[0]], ts[1..], i - 1);
      assert (seen + [ts[0]]) + ts[1..][..i - 1] == seen + ts[..i];
    }
  }

  /** The list and the arrivals have room: only the last arrival may push anything out. */
  predicate HasRoom(list: seq<Txn>, arrivals: seq<Txn>) {
    |list| <= FS.MAX_HISTORY_LEN && |list| + |arrivals| <= FS.MAX_HISTORY_LEN + 1
  }

  /** While there is room, every arrival sees the list and the arrivals before it, in some order. */
  lemma {:induction false} SightsMeaning(list: seq<Txn>, batches: seq<seq<Txn>>, card: string, i: nat)
    requires HasRoom(list, ArrivalsOver(batches, card)) && i < |ArrivalsOver(batches, card)|
    ensures var v, arrivals := SightsOver(list, batches, card)[i], ArrivalsOver(batches, card);
      v.txn == arrivals[i] && multiset(v.seen) == multiset(list) + multiset(arrivals[..i])
    decreases |batches|
  {
    hide Arrivals, Sights;
    var now, later := Arrivals(batches[0], card), ArrivalsOver(batches[1..], card);
    if i < |now| {
      SightsAt(list, now, i);
      assert (now + later)[..i] == now[..i];
    } else {
      FS.PushAllKeepsNewest(list, now);
      ReverseMultiset(now);
      SightsMeaning(Reverse(now) + list, batches[1..], card, i - |now|);
      assert (now + later)[..i] == now + later[..i - |now|];
    }
  }

  /** The two ways to run a stream leave a card with the same vectors, history and latest features. */
  ghost predicate CutsAgree(lib: Library, st: FS.Store, b1: seq<seq<Txn>>, b2: seq<seq<Txn>>, card: string) {
    var st1, st2 := RunBatches(lib, st, b1).store, RunBatches(lib, st, b2).store;
    && Filter(st1.writes, VectorOn(card)) == Filter(st2.writes, VectorOn(card))
    && FS.HistoryOf(st1, card) == FS.HistoryOf(st2, card)
    && FeaturesAfter(st1.features, card, []) == FeaturesAfter(st2.features, card, [])
  }

  /** Nothing but the vectors can tell two cuts with the same arrivals apart. */
  lemma VectorsDecide(lib: Library, st: FS.Store, b1: seq<seq<Txn>>, b2: seq<seq<Txn>>, card: string)
    requires ArrivalsOver(b1, card) == ArrivalsOver(b2, card)
    ensures var list := FS.HistoryOf(st, card);
      CutsAgree(lib, st, b1, b2, card) <==>
        Map(SightsOver(list, b1, card), VectorAt(lib)) == Map(SightsOver(list, b2, card), VectorAt(lib))
  {
    hide ComputeFeatures, ArrivalsOver, SightsOver, RunBatches, FS.HistoryOf, FS.PushAll, Filter, Map, FeaturesAfter;
    RunBatchesEffect(lib, st, b1, card);
    RunBatchesEffect(lib, st, b2, card);
    var list := FS.HistoryOf(st, card);
    var w1, w2 := Map(SightsOver(list, b1, card), VectorAt(lib)), Map(SightsOver(list, b2, card), VectorAt(lib));
    SamePrefix(Filter(st.writes, VectorOn(card)), w1, w2);
  }

  lemma SamePrefix<T>(a: seq<T>, b: seq<T>, c: seq<T>)
    ensures a + b == a + c ==> b == c
  {
    assert (a + b)[|a|..] == b && (a + c)[|a|..] == c;
  }

  // ---- What an arrival sees, in any cut ----

  lemma LastNOfPrefix(a: seq<Txn>, m: nat, b: seq<Txn>, n: nat)
    requires n <= |LastN(a, m)| + |b|
    ensures LastN(LastN(a, m) + b, n) == LastN(a + b, n)
  {
    assert a == a[..|a| - |LastN(a, m)|] + LastN(a, m);
    assert a + b == a[..|a| - |LastN(a, m)|] + (LastN(a, m) + b);
  }

  /** The stored list is, newest first, the end of what was stored and pushed. */
  lemma {:induction false} PushAllSuffix(list: seq<Txn>, ts: seq<Txn>) returns (m: nat)
    ensures Reverse(FS.PushAll(list, ts)) == LastN(Reverse(list) + ts, m)
    ensures |FS.PushAll(list, ts)| == |LastN(Reverse(list) + ts, m)|
    decreases |ts|
  {
    ReverseMultiset(FS.PushAll(list, ts));
    if ts == [] {
      m := |list|;
      ReverseMultiset(list);
      assert Reverse(list) + ts == Reverse(list);
    } else {
      var next := FS.Push(list, ts[0]);
      m := PushAllSuffix(next, ts[1..]);
      PushReversed(list, ts[0]);
      ReverseMultiset(next);
      if m > |next| + |ts[1..]| { m := |next| + |ts[1..]|; }
      LastNOfPrefix(Reverse(list) + [ts[0]], FS.MAX_HISTORY_LEN, ts[1..], m);
      assert (Reverse(list) + [ts[0]]) + ts[1..] == Reverse(list) + ts;
    }
  }

  lemma PushReversed(list: seq<Txn>, t: Txn)
    ensures Reverse(FS.Push(list, t)) == LastN(Reverse(list) + [t], FS.MAX_HISTORY_LEN)
  {
    ReadReversed([t] + list);
    assert Reverse([t] + list) == Reverse(list) + [t] by {
      assert ([t] + list)[1..] == list;
    }
  }

  lemma ReadReversed(list: seq<Txn>)
    ensures Reverse(FS.Lrange(list, FS.MAX_HISTORY_LEN - 1)) == LastN(Reverse(list), FS.MAX_HISTORY_LEN)
  {
    FS.ReverseFirstN(Reverse(list), FS.MAX_HISTORY_LEN);
    ReverseTwice(list);
    ReverseTwice(LastN(Reverse(list), FS.MAX_HISTORY_LEN));
  }

  lemma {:induction false} ReverseTwice(s: seq<Txn>)
    ensures Reverse(Reverse(s)) == s
  {
    if s != [] {
      ReverseTwice(s[1..]);
      ReverseConcat(Reverse(s[1..]), [s[0]]);
      assert [s[0]][1..] == [] && Reverse([s[0]]) == [s[0]];
    }
  }

  /** The last so many of what was stored and arrived before. */
  ghost predicate IsRecentPart(seen: seq<Txn>, list: seq<Txn>, before: seq<Txn>, n: nat) {
    multiset(seen) == multiset(LastN(Reverse(list) + before, n))
  }

  lemma BatchSuffix(list: seq<Txn>, now: seq<Txn>, i: nat) returns (n: nat)
    requires i < |now|
    ensures var v := Sights(FS.Lrange(list, FS.MAX_HISTORY_LEN - 1), now)[i];
      v.txn == now[i] && IsRecentPart(v.seen, list, now[..i], n)
  {
    hide Sights, FS.Lrange, Reverse;
    var seen := FS.Lrange(list, FS.MAX_HISTORY_LEN - 1);
    SightsAt(seen, now, i);
    ReadReversed(list);
    ReverseMultiset(seen);
    var kept := LastN(Reverse(list), FS.MAX_HISTORY_LEN);
    n := |kept| + i;
    LastNOfPrefix(Reverse(list), FS.MAX_HISTORY_LEN, now[..i], n);
    assert LastN(kept + now[..i], n) == kept + now[..i];
  }

  lemma PushedSuffix(list: seq<Txn>, now: seq<Txn>, seen: seq<Txn>, rest: seq<Txn>, k: nat) returns (n: nat)
    requires IsRecentPart(seen, FS.PushAll(list, now), rest, k)
    ensures IsRecentPart(seen, list, now + rest, n)
  {
    hide FS.PushAll, Reverse;
    var next := FS.PushAll(list, now);
    var m := PushAllSuffix(list, now);
    ReverseMultiset(next);
    n := if k > |next| + |rest| then |next| + |rest| else k;
    LastNOfPrefix(Reverse(list) + now, m, rest, n);
    assert (Reverse(list) + now) + rest == Reverse(list) + (now + rest);
  }

  /** Whatever the cut, an arrival sees the last so many of what was stored and arrived before it. */
  lemma {:induction false} SightSuffix(list: seq<Txn>, batches: seq<seq<Txn>>, card: string, i: nat) returns (n: nat)
    requires i < |ArrivalsOver(batches, card)|
    ensures var v, arrivals := SightsOver(list, batches, card)[i], ArrivalsOver(batches, card);
      v.txn == arrivals[i] && IsRecentPart(v.seen, list, arrivals[..i], n)
    decreases |batches|
  {
    hide Arrivals, Sights, FS.PushAll, FS.Lrange, IsRecentPart;
    var now, later := Arrivals(batches[0], card), ArrivalsOver(batches[1..], card);
    if i < |now| {
      n := BatchSuffix(list, now, i);
      assert (now + later)[..i] == now[..i];
    } else {
      var k := SightSuffix(FS.PushAll(list, now), batches[1..], card, i - |now|);
      var v := SightsOver(FS.PushAll(list, now), batches[1..], card)[i - |now|];
      n := PushedSuffix(list, now, v.seen, later[..i - |now|], k);
      assert (now + later)[..i] == now + later[..i - |now|];
    }
  }

  lemma LastNNested(s: seq<Txn>, m: nat, n: nat)
    requires m <= n
    ensures multiset(LastN(s, m)) <= multiset(LastN(s, n))
  {
    var big, small := LastN(s, n), LastN(s, m);
    assert big == big[..|big| - |small|] + small;
  }

  /** So of the sights of one arrival under two cuts, one holds the other. */
  lemma SightsNested(list: seq<Txn>, b1: seq<seq<Txn>>, b2: seq<seq<Txn>>, card: string, i: nat)
    requires ArrivalsOver(b1, card) == ArrivalsOver(b2, card) && i < |ArrivalsOver(b1, card)|
    ensures var v1, v2 := SightsOver(list, b1, card)[i], SightsOver(list, b2, card)[i];
      v1.txn == v2.txn && Nested(v1.seen, v2.seen)
  {
    hide ArrivalsOver, SightsOver, LastN, Reverse;
    var n1 := SightSuffix(list, b1, card, i);
    var n2 := SightSuffix(list, b2, card, i);
    var all := Reverse(list) + ArrivalsOver(b1, card)[..i];
    if n1 <= n2 {
      LastNNested(all, n1, n2);
    } else {
      LastNNested(all, n2, n1);
    }
  }

  /** Pairwise, what an arrival sees makes no difference to its features. */
  ghost predicate SightsAligned(s1: seq<Sight>, s2: seq<Sight>) {
    |s1| == |s2| && forall i :: 0 <= i < |s1| ==> SameView(s1[i].seen, s2[i].seen, s1[i].txn)
  }

  /** The exact condition: two cuts that bring the card the same arrivals, however many, agree for
      every lawful library if and only if, for each arrival, what only one of its two sights holds is
      not of its day, the new-device answer is the same, and so are the time and place of the last
      of the tied latest transactions. */
  lemma CutsExact(st: FS.Store, b1: seq<seq<Txn>>, b2: seq<seq<Txn>>, card: string)
    requires ArrivalsOver(b1, card) == ArrivalsOver(b2, card)
    ensures var list := FS.HistoryOf(st, card);
      (forall lib :: IsLibrary(lib) ==> CutsAgree(lib, st, b1, b2, card))
      <==> SightsAligned(SightsOver(list, b1, card), SightsOver(list, b2, card))
  {
    hide ComputeFeatures, ArrivalsOver, SightsOver, CutsAgree, FS.HistoryOf, SameView, IsLibrary;
    var list := FS.HistoryOf(st, card);
    var s1, s2 := SightsOver(list, b1, card), SightsOver(list, b2, card);
    if forall lib :: IsLibrary(lib) ==> CutsAgree(lib, st, b1, b2, card) {
      forall i | 0 <= i < |s1| ensures SameView(s1[i].seen, s2[i].seen, s1[i].txn) {
        SightShows(st, b1, b2, card, i);
      }
    }
    if SightsAligned(s1, s2) {
      forall lib ensures CutsAgree(lib, st, b1, b2, card) {
        SightsAgree(lib, st, b1, b2, card);
      }
    }
  }

  lemma SightShows(st: FS.Store, b1: seq<seq<Txn>>, b2: seq<seq<Txn>>, card: string, i: nat)
    requires ArrivalsOver(b1, card) == ArrivalsOver(b2, card) && i < |ArrivalsOver(b1, card)|
    ensures var list := FS.HistoryOf(st, card);
      var v1, v2 := SightsOver(list, b1, card)[i], SightsOver(list, b2, card)[i];
      var lib := ViewProbe(v1.seen, v1.txn);
      IsLibrary(lib) && (CutsAgree(lib, st, b1, b2, card) ==> SameView(v1.seen, v2.seen, v1.txn))
  {
    hide ComputeFeatures, ArrivalsOver, SightsOver, CutsAgree, FS.HistoryOf, SameView, Nested, ViewProbe, IsLibrary;
    var list := FS.HistoryOf(st, card);
    var s1, s2 := SightsOver(list, b1, card), SightsOver(list, b2, card);
    SightsNested(list, b1, b2, card, i);
    var lib := ViewProbe(s1[i].seen, s1[i].txn);
    VectorsDecide(lib, st, b1, b2, card);
    assert Map(s1, VectorAt(lib))[i] == ComputeFeatures(lib, s1[i].seen, s1[i].txn);
    assert Map(s2, VectorAt(lib))[i] == ComputeFeatures(lib, s2[i].seen, s1[i].txn);
    ViewProbed(s1[i].seen, s2[i].seen, s1[i].txn);
  }

  lemma SightsAgree(lib: Library, st: FS.Store, b1: seq<seq<Txn>>, b2: seq<seq<Txn>>, card: string)
    requires ArrivalsOver(b1, card) == ArrivalsOver(b2, card)
    requires var list := FS.HistoryOf(st, card);
      SightsAligned(SightsOver(list, b1, card), SightsOver(list, b2, card))
    ensures CutsAgree(lib, st, b1, b2, card)
  {
    hide ComputeFeatures, ArrivalsOver, SightsOver, CutsAgree, FS.HistoryOf, SameView, Nested;
    var list := FS.HistoryOf(st, card);
    var s1, s2 := SightsOver(list, b1, card), SightsOver(list, b2, card);
    var w1, w2 := Map(s1, VectorAt(lib)), Map(s2, VectorAt(lib));
    forall i | 0 <= i < |s1| ensures w1[i] == w2[i] {
      SightsNested(list, b1, b2, card, i);
      ViewAgrees(lib, s1[i].seen, s2[i].seen, s1[i].txn);
    }
    assert w1 == w2;
    VectorsDecide(lib, st, b1, b2, card);
  }

  // ---- While the list has room ----

  /** There is room, and no two different transactions of the card share an event time. */
  ghost predicate WithinBounds(st: FS.Store, card: string, arrivals: seq<Txn>) {
    && HasRoom(FS.HistoryOf(st, card), arrivals)
    && TimesIdentify(multiset(FS.HistoryOf(st, card)) + multiset(arrivals))
  }

  lemma HistoryAfter(lib: Library, st: FS.Store, batches: seq<seq<Txn>>, card: string)
    requires |FS.HistoryOf(st, card)| <= FS.MAX_HISTORY_LEN
    ensures FS.HistoryOf(RunBatches(lib, st, batches).store, card)
         == FirstN(Reverse(ArrivalsOver(batches, card)) + FS.HistoryOf(st, card), FS.MAX_HISTORY_LEN)
  {
    hide RunBatches, SightsOver, ArrivalsOver, Map, Filter, FeaturesAfter;
    RunBatchesEffect(lib, st, batches, card);
    FS.PushAllKeepsNewest(FS.HistoryOf(st, card), ArrivalsOver(batches, card));
  }

  lemma ArrivalOrigin(rows: seq<Txn>, card: string, t: Txn)
    requires t in Filter(ValidTxns(rows), OnCard(card))
    ensures exists r :: r in rows && r.cardId == card && MeetsSchema(r) && r.eventTime == t.eventTime
  {
    var valid := Filter(rows, MeetsSchema);
    FilterMembers(ValidTxns(rows), OnCard(card));
    FilterMembers(rows, MeetsSchema);
    var i :| 0 <= i < |ValidTxns(rows)| && ValidTxns(rows)[i] == t;
    assert t == Normalise(valid[i]);
    assert valid[i] in rows;
  }

  lemma ArrivalsConcat(head: seq<Txn>, tail: seq<Txn>, card: string)
    requires Chronological([head, tail], card)
    ensures Arrivals(head + tail, card) == Arrivals(head, card) + Arrivals(tail, card)
  {
    hide Filter, Sort, ValidTxns;
    ValidTxnsConcat(head, tail);
    FilterConcat(ValidTxns(head), ValidTxns(tail), OnCard(card));
    var a, b := Filter(ValidTxns(head), OnCard(card)), Filter(ValidTxns(tail), OnCard(card));
    forall t, u | t in a && u in b ensures EventTime(t) <= EventTime(u) {
      ArrivalOrigin(head, card, t);
      ArrivalOrigin(tail, card, u);
      var pair := [head, tail];
      assert pair[0] == head && pair[1] == tail;
    }
    SortConcat(a, b, EventTime);
  }

  lemma {:induction false} ChronologicalArrivals(batches: seq<seq<Txn>>, card: string)
    requires Chronological(batches, card)
    ensures ArrivalsOver(batches, card) == Arrivals(Flatten(batches), card)
  {
    hide Arrivals;
    if batches == [] {
      ArrivalsOnCard([], card);
      FilterNone<Txn>([], OnCard(card));
    } else {
      var head, tail := batches[0], Flatten(batches[1..]);
      ChronologicalArrivals(batches[1..], card);
      forall r, q | r in head && q in tail && r.cardId == card && q.cardId == card && MeetsSchema(r) && MeetsSchema(q)
        ensures r.eventTime <= q.eventTime
      {
        var j := FlattenOrigin(batches[1..], q);
        assert q in batches[j + 1];
      }
      ArrivalsConcat(head, tail, card);
    }
  }

  lemma {:induction false} FlattenOrigin<T>(ss: seq<seq<T>>, x: T) returns (i: nat)
    requires x in Flatten(ss)
    ensures i < |ss| && x in ss[i]
  {
    if x in ss[0] {
      i := 0;
    } else {
      i := FlattenOrigin(ss[1..], x);
      i := i + 1;
    }
  }

  /** Micro-batch invariance: two ways to cut (and, within batches, to order) one
      stream leave a card with the same vectors, history and latest features. */
  lemma MicroBatchInvariance(lib: Library, st: FS.Store, b1: seq<seq<Txn>>, b2: seq<seq<Txn>>, card: string)
    requires multiset(Flatten(b1)) == multiset(Flatten(b2))
    requires Chronological(b1, card) && Chronological(b2, card)
    requires WithinBounds(st, card, Arrivals(Flatten(b1), card))
    ensures CutsAgree(lib, st, b1, b2, card)
  {
    hide Arrivals, ArrivalsOver, SightsOver, CutsAgree, FS.HistoryOf, SameLastPlace, TimesIdentify, Flatten, SameView;
    var list := FS.HistoryOf(st, card);
    ChronologicalArrivals(b1, card);
    ChronologicalArrivals(b2, card);
    ArrivalsPermuted(Flatten(b1), Flatten(b2), card, list);
    var s1, s2 := SightsOver(list, b1, card), SightsOver(list, b2, card);
    forall i | 0 <= i < |s1| ensures SameView(s1[i].seen, s2[i].seen, s1[i].txn) {
      SightsMeaning(list, b1, card, i);
      SightsMeaning(list, b2, card, i);
      SeenIdentified(list, ArrivalsOver(b1, card), i);
      DistinctTimesSamePlace(s1[i].seen, s2[i].seen, s1[i].txn);
      PermutedView(s1[i].seen, s2[i].seen, s1[i].txn);
    }
    SightsAgree(lib, st, b1, b2, card);
  }

  lemma SeenIdentified(list: seq<Txn>, arrivals: seq<Txn>, i: nat)
    requires i < |arrivals| && TimesIdentify(multiset(list) + multiset(arrivals))
    ensures TimesIdentify(multiset(list) + multiset(arrivals[..i]))
  {
    assert arrivals == arrivals[..i] + arrivals[i..];
  }

  lemma ArrivalsPermuted(rows1: seq<Txn>, rows2: seq<Txn>, card: string, h: seq<Txn>)
    requires multiset(rows1) == multiset(rows2)
    requires TimesIdentify(multiset(h) + multiset(Arrivals(rows1, card)))
    ensures Arrivals(rows1, card) == Arrivals(rows2, card)
  {
    FilterPermutation(rows1, rows2, MeetsSchema);
    MapPermutation(Filter(rows1, MeetsSchema), Filter(rows2, MeetsSchema), Normalise);
    FilterPermutation(ValidTxns(rows1), ValidTxns(rows2), OnCard(card));
    var f1, f2 := Filter(ValidTxns(rows1), OnCard(card)), Filter(ValidTxns(rows2), OnCard(card));
    SortPermutes(f1, EventTime);
    SamePlaces(f1, Arrivals(rows1, card));
    SortPermutation(f1, f2, EventTime);
  }

  function Singles(rows: seq<Txn>): seq<seq<Txn>> {
    if rows == [] then [] else [[rows[0]]] + Singles(rows[1..])
  }

  lemma {:induction false} SinglesMeaning(rows: seq<Txn>)
    ensures Flatten(Singles(rows)) == rows
    ensures |Singles(rows)| == |rows| && forall i :: 0 <= i < |rows| ==> Singles(rows)[i] == [rows[i]]
  {
    if rows != [] { SinglesMeaning(rows[1..]); }
  }

  lemma SinglesChronological(rows: seq<Txn>, card: string)
    requires Sorted(rows, EventTime)
    ensures Chronological(Singles(rows), card)
  {
    hide Singles, MeetsSchema;
    SinglesMeaning(rows);
    forall i, j, r, q | 0 <= i < j < |Singles(rows)| && r in Singles(rows)[i] && q in Singles(rows)[j]
      ensures r.eventTime <= q.eventTime
    {
      assert EventTime(rows[i]) <= EventTime(rows[j]);
    }
  }

  /** In particular any such cut agrees with processing the time-sorted stream row by row. */
  lemma RowByRow(lib: Library, st: FS.Store, batches: seq<seq<Txn>>, card: string)
    requires Chronological(batches, card)
    requires WithinBounds(st, card, Arrivals(Flatten(batches), card))
    ensures CutsAgree(lib, st, batches, Singles(Sort(Flatten(batches), EventTime)), card)
  {
    hide CutsAgree, Sort, Arrivals;
    var rows := Sort(Flatten(batches), EventTime);
    SortPermutes(Flatten(batches), EventTime);
    SortSorts(Flatten(batches), EventTime);
    SinglesMeaning(rows);
    SinglesChronological(rows, card);
    MicroBatchInvariance(lib, st, batches, Singles(rows), card);
  }

  lemma {:induction false} BatchTotals(lib: Library, st: FS.Store, batches: seq<seq<Txn>>)
    ensures var o := RunBatches(lib, st, batches);
      && multiset(o.valid) == multiset(ValidTxns(Flatten(batches)))
      && |o.valid| + o.invalid == |Flatten(batches)|
    decreases |batches|
  {
    hide ComputeFeatures, Sort, Filter, Map;
    if batches == [] {
      assert ValidTxns([]) == [] by { NothingAdvances(lib, st, [], ""); }
    } else {
      var first := RunBatch(lib, st, batches[0]);
      RowsAccounted(lib, st, batches[0]);
      BatchTotals(lib, first.store, batches[1..]);
      ValidTxnsConcat(batches[0], Flatten(batches[1..]));
    }
  }

  /** The totals agree for any two cuts of one stream, with no condition on times or sizes. */
  lemma TotalsInvariant(lib: Library, st: FS.Store, b1: seq<seq<Txn>>, b2: seq<seq<Txn>>)
    requires multiset(Flatten(b1)) == multiset(Flatten(b2))
    ensures var o1, o2 := RunBatches(lib, st, b1), RunBatches(lib, st, b2);
      && multiset(o1.valid) == multiset(o2.valid)
      && o1.invalid == o2.invalid
  {
    hide ComputeFeatures, Sort, RunBatches;
    BatchTotals(lib, st, b1);
    BatchTotals(lib, st, b2);
    FilterPermutation(Flatten(b1), Flatten(b2), MeetsSchema);
    MapPermutation(Filter(Flatten(b1), MeetsSchema), Filter(Flatten(b2), MeetsSchema), Normalise);
    SamePlaces(Flatten(b1), Flatten(b2));
    SamePlaces(RunBatches(lib, st, b1).valid, RunBatches(lib, st, b2).valid);
  }
}

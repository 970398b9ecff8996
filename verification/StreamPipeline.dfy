/** The whole micro-batch: features and history to the store, valid transactions
    to the table (src/feature_engineering/spark_consumer.py, `process_batch`). */
module StreamPipeline {
  import opened Sequences
  import opened Transactions
  import opened StreamConsumer
  import FS = FeatureStore
  import PG = Postgres
  import Sink = TransactionSink

  method ProcessBatch(lib: Library, rows: seq<Txn>, store: FS.RedisFeatureStore, pg: PG.PostgresClient)
    returns (written: nat)
    modifies store, pg`transactions
    ensures store.View() == RunBatch(lib, old(store.View()), rows).store
    ensures pg.transactions == PG.InsertAll(old(pg.transactions), RunBatch(lib, old(store.View()), rows).valid)
    ensures written == |pg.transactions| - |old(pg.transactions)|
  {
    written := 0;
    if rows == [] {
      return;
    }
    var valid, invalid := ProcessPartitionGroup(lib, rows, store);
    if valid != [] {
      written := pg.PersistTransactions(valid);
    }
  }

  /** The table after each micro-batch in turn, and the sum of the written counts. */
  function TableAfter(lib: Library, st: FS.Store, table: Sink.Table, batches: seq<seq<Txn>>): (Sink.Table, int)
    decreases |batches|
  {
    if batches == [] then (table, 0)
    else
      var o := RunBatch(lib, st, batches[0]);
      var next := PG.InsertAll(table, o.valid);
      var rest := TableAfter(lib, o.store, next, batches[1..]);
      (rest.0, |next| - |table| + rest.1)
  }

  lemma {:induction false} TableOfValid(lib: Library, st: FS.Store, table: Sink.Table, batches: seq<seq<Txn>>)
    ensures TableAfter(lib, st, table, batches).0 == PG.InsertAll(table, RunBatches(lib, st, batches).valid)
    ensures TableAfter(lib, st, table, batches).1 == |TableAfter(lib, st, table, batches).0| - |table|
    decreases |batches|
  {
    hide RunBatch;
    if batches != [] {
      var o := RunBatch(lib, st, batches[0]);
      TableOfValid(lib, o.store, PG.InsertAll(table, o.valid), batches[1..]);
      Sink.InsertConcat(table, o.valid, RunBatches(lib, o.store, batches[1..]).valid);
    }
  }

  /** When an id names one record, any two cuts of one stream fill the table with the same
      rows and report the same number written, whatever the event times and sizes. */
  lemma TableInvariant(lib: Library, st: FS.Store, table: Sink.Table, b1: seq<seq<Txn>>, b2: seq<seq<Txn>>)
    requires multiset(Flatten(b1)) == multiset(Flatten(b2))
    requires var valid := ValidTxns(Flatten(b1));
      forall t, u :: t in valid && u in valid && t.transactionId == u.transactionId ==> t == u
    ensures TableAfter(lib, st, table, b1) == TableAfter(lib, st, table, b2)
  {
    hide RunBatches, ValidTxns, TableAfter, PG.InsertAll;
    var v1, v2 := RunBatches(lib, st, b1).valid, RunBatches(lib, st, b2).valid;
    TableOfValid(lib, st, table, b1);
    TableOfValid(lib, st, table, b2);
    TotalsInvariant(lib, st, b1, b2);
    BatchTotals(lib, st, b1);
    SamePlaces(v1, v2);
    SamePlaces(v1, ValidTxns(Flatten(b1)));
    Sink.DeliverMeaning(table, [v1]);
    Sink.DeliverMeaning(table, [v2]);
    OneBatch(v1);
    OneBatch(v2);
    Sink.ExactlyOnceEffect(table, [v1], [v2]);
  }

  lemma OneBatch(v: seq<Txn>)
    ensures Flatten([v]) == v
  {
    assert [v][1..] == [];
  }
}

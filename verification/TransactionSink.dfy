/** The at-least-once sink: what `persist_transactions` guarantees over any
    sequence of batches (src/storage/postgres_client.py). */
module TransactionSink {
  import opened Sequences
  import opened Transactions
  import opened Postgres

  type Table = map<string, Txn>

  function Lookup(table: Table, id: string): Option<Txn> {
    if id in table then Some(table[id]) else None
  }

  function FirstWithId(txns: seq<Txn>, id: string): Option<Txn> {
    if txns == [] then None
    else if txns[0].transactionId == id then Some(txns[0])
    else FirstWithId(txns[1..], id)
  }

  /** The table after each batch in turn, and the sum of the returned counts. */
  function Deliver(table: Table, batches: seq<seq<Txn>>): (Table, int)
    decreases |batches|
  {
    if batches == [] then (table, 0)
    else
      var next := InsertAll(table, batches[0]);
      var rest := Deliver(next, batches[1..]);
      (rest.0, |next| - |table| + rest.1)
  }

  /** A row already stored stays; a new id gets the first record delivered under it. */
  lemma {:induction false} FirstRecordWins(table: Table, txns: seq<Txn>, id: string)
    ensures Lookup(InsertAll(table, txns), id) == if id in table then Some(table[id]) else FirstWithId(txns, id)
    decreases |txns|
  {
    if txns != [] {
      var t := txns[0];
      FirstRecordWins(if t.transactionId in table then table else table[t.transactionId := t], txns[1..], id);
    }
  }

  lemma {:induction false} InsertConcat(table: Table, s: seq<Txn>, t: seq<Txn>)
    ensures InsertAll(table, s + t) == InsertAll(InsertAll(table, s), t)
    decreases |s|
  {
    if s == [] {
      assert s + t == t;
    } else {
      assert (s + t)[1..] == s[1..] + t;
      InsertConcat(if s[0].transactionId in table then table else table[s[0].transactionId := s[0]], s[1..], t);
    }
  }

  /** Batch boundaries leave no trace, and the counts add up to the ids that are new. */
  lemma {:induction false} DeliverMeaning(table: Table, batches: seq<seq<Txn>>)
    ensures Deliver(table, batches).0 == InsertAll(table, Flatten(batches))
    ensures Deliver(table, batches).1 == |Deliver(table, batches).0| - |table|
    decreases |batches|
  {
    if batches != [] {
      DeliverMeaning(InsertAll(table, batches[0]), batches[1..]);
      InsertConcat(table, batches[0], Flatten(batches[1..]));
    }
  }

  lemma {:induction false} InsertKnown(table: Table, txns: seq<Txn>)
    requires forall t :: t in txns ==> t.transactionId in table
    ensures InsertAll(table, txns) == table
  {
    if txns != [] {
      InsertKnown(table, txns[1..]);
    }
  }

  lemma {:induction false} InsertKeys(table: Table, txns: seq<Txn>)
    ensures forall t :: t in txns ==> t.transactionId in InsertAll(table, txns)
    ensures forall id :: id in table ==> id in InsertAll(table, txns)
    decreases |txns|
  {
    if txns != [] {
      var t := txns[0];
      InsertKeys(if t.transactionId in table then table else table[t.transactionId := t], txns[1..]);
    }
  }

  /** Running any earlier batch again changes nothing and returns 0. */
  lemma ReplayHarmless(table: Table, batches: seq<seq<Txn>>, k: nat)
    requires k < |batches|
    ensures var after := Deliver(table, batches).0;
      Deliver(after, [batches[k]]) == (after, 0)
  {
    var after := Deliver(table, batches).0;
    DeliverMeaning(table, batches);
    InsertKeys(table, Flatten(batches));
    FlattenMember(batches, k);
    InsertKnown(after, batches[k]);
    assert [batches[k]][1..] == [];
  }

  lemma {:induction false} FlattenMember(batches: seq<seq<Txn>>, k: nat)
    requires k < |batches|
    ensures forall t :: t in batches[k] ==> t in Flatten(batches)
  {
    if k > 0 {
      FlattenMember(batches[1..], k - 1);
    }
  }

  lemma {:induction false} FirstIsMember(txns: seq<Txn>, id: string)
    ensures FirstWithId(txns, id).Some? <==> exists t :: t in txns && t.transactionId == id
    ensures FirstWithId(txns, id).Some? ==>
      FirstWithId(txns, id).value in txns && FirstWithId(txns, id).value.transactionId == id
  {
    if txns != [] {
      FirstIsMember(txns[1..], id);
      assert forall t :: t in txns <==> t == txns[0] || t in txns[1..];
    }
  }

  /** At-least-once delivery has an exactly-once effect: when a redelivered record is
      the same record, the table depends only on which records were delivered. */
  lemma ExactlyOnceEffect(table: Table, b1: seq<seq<Txn>>, b2: seq<seq<Txn>>)
    requires forall t :: t in Flatten(b1) <==> t in Flatten(b2)
    requires forall t, u :: t in Flatten(b1) && u in Flatten(b1) && t.transactionId == u.transactionId ==> t == u
    ensures Deliver(table, b1) == Deliver(table, b2)
  {
    var d1, d2 := Deliver(table, b1).0, Deliver(table, b2).0;
    DeliverMeaning(table, b1);
    DeliverMeaning(table, b2);
    forall id: string ensures Lookup(d1, id) == Lookup(d2, id) {
      FirstRecordWins(table, Flatten(b1), id);
      FirstRecordWins(table, Flatten(b2), id);
      FirstIsMember(Flatten(b1), id);
      FirstIsMember(Flatten(b2), id);
    }
    assert forall id :: id in d1 <==> Lookup(d1, id).Some?;
    assert forall id :: id in d2 <==> Lookup(d2, id).Some?;
    assert d1 == d2;
  }
}

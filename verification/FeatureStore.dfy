/** The Redis feature store (src/feature_engineering/feature_store.py): the
    latest feature vector and a bounded newest-first history per card. */
module FeatureStore {
  import opened Sequences
  import opened Transactions
  import opened Features

  const MAX_HISTORY_LEN := 500

  /** Redis LRANGE key 0 stop: the stop index is included, and a negative one counts from the end. */
  function Lrange<T>(s: seq<T>, stop: int): seq<T> {
    var last := if stop < 0 then |s| + stop else stop;
    if last < 0 then [] else FirstN(s, last + 1)
  }

  /** LPUSH then LTRIM 0 499, one atomic pipeline. */
  function Push<T>(list: seq<T>, t: T): seq<T> {
    Lrange([t] + list, MAX_HISTORY_LEN - 1)
  }

  function PushAll<T>(list: seq<T>, ts: seq<T>): seq<T>
    decreases |ts|
  {
    if ts == [] then list else PushAll(Push(list, ts[0]), ts[1..])
  }

  /** The store's contents, with the log of feature writes. */
  datatype Store = Store(
    history: map<string, seq<Txn>>,
    features: map<string, FeatureVector>,
    writes: seq<FeatureVector>)

  const EMPTY := Store(map[], map[], [])

  function HistoryOf(st: Store, card: string): seq<Txn> {
    if card in st.history then st.history[card] else []
  }

  function HistoryRead(st: Store, card: string, limit: int): seq<Txn> {
    Lrange(HistoryOf(st, card), limit - 1)
  }

  function HistoryAppended(st: Store, t: Txn): Store {
    st.(history := st.history[t.cardId := Push(HistoryOf(st, t.cardId), t)])
  }

  function FeaturesWritten(st: Store, fv: FeatureVector): Store {
    st.(features := st.features[fv.cardId := fv], writes := st.writes + [fv])
  }

  class RedisFeatureStore {
    var history: map<string, seq<Txn>>
    var features: map<string, FeatureVector>
    ghost var writes: seq<FeatureVector>

    ghost function View(): Store
      reads this
    {
      Store(history, features, writes)
    }

    constructor ()
      ensures View() == EMPTY
    {
      history, features, writes := map[], map[], [];
    }

    method WriteFeatures(fv: FeatureVector)
      modifies this
      ensures View() == FeaturesWritten(old(View()), fv)
    {
      features := features[fv.cardId := fv];
      writes := writes + [fv];
    }

    method GetFeatures(card: string) returns (r: Option<FeatureVector>)
      ensures r == if card in View().features then Some(View().features[card]) else None
    {
      r := if card in features then Some(features[card]) else None;
    }

    method AppendHistory(t: Txn)
      modifies this
      ensures View() == HistoryAppended(old(View()), t)
    {
      var list := if t.cardId in history then history[t.cardId] else [];
      list := [t] + list;
      list := Lrange(list, MAX_HISTORY_LEN - 1);
      history := history[t.cardId := list];
    }

    method GetHistory(card: string, limit: int := MAX_HISTORY_LEN) returns (r: seq<Txn>)
      ensures r == HistoryRead(View(), card, limit)
    {
      var list := if card in history then history[card] else [];
      r := Lrange(list, limit - 1);
    }
  }

  /** The list `build_training_dataset` keeps: oldest first, head deleted past 500. */
  function TrainPush<T>(list: seq<T>, t: T): seq<T> {
    var longer := list + [t];
    if |longer| > MAX_HISTORY_LEN then longer[|longer| - MAX_HISTORY_LEN..] else longer
  }

  function TrainPushAll<T>(list: seq<T>, ts: seq<T>): seq<T>
    decreases |ts|
  {
    if ts == [] then list else TrainPushAll(TrainPush(list, ts[0]), ts[1..])
  }

  lemma TrainPushStep<T>(s: seq<T>, t: T)
    ensures LastN(s + [t], MAX_HISTORY_LEN) == TrainPush(LastN(s, MAX_HISTORY_LEN), t)
  {}

  lemma {:induction false} PushAllKeepsNewest<T>(list: seq<T>, ts: seq<T>)
    requires |list| <= MAX_HISTORY_LEN
    ensures PushAll(list, ts) == FirstN(Reverse(ts) + list, MAX_HISTORY_LEN)
    decreases |ts|
  {
    if ts != [] {
      PushAllKeepsNewest(Push(list, ts[0]), ts[1..]);
      assert Reverse(ts) + list == Reverse(ts[1..]) + ([ts[0]] + list);
    }
  }

  lemma {:induction false} TrainPushAllKeepsNewest<T>(list: seq<T>, ts: seq<T>)
    requires |list| <= MAX_HISTORY_LEN
    ensures TrainPushAll(list, ts) == LastN(list + ts, MAX_HISTORY_LEN)
    decreases |ts|
  {
    if ts != [] {
      TrainPushIsLastN(list, ts[0]);
      hide TrainPush, LastN;
      TrainPushAllKeepsNewest(TrainPush(list, ts[0]), ts[1..]);
      LastNTwice(list + [ts[0]], ts[1..], MAX_HISTORY_LEN);
      assert list + ts == (list + [ts[0]]) + ts[1..];
    } else {
      assert list + ts == list;
    }
  }

  lemma TrainPushIsLastN<T>(list: seq<T>, t: T)
    ensures TrainPush(list, t) == LastN(list + [t], MAX_HISTORY_LEN) && |TrainPush(list, t)| <= MAX_HISTORY_LEN
  {}

  lemma LastNTwice<T>(a: seq<T>, b: seq<T>, n: nat)
    ensures LastN(LastN(a, n) + b, n) == LastN(a + b, n)
  {
    if |a| > n {
      assert a + b == a[..|a| - n] + (LastN(a, n) + b);
    }
  }

  lemma ReverseFirstN<T>(s: seq<T>, n: nat)
    ensures FirstN(Reverse(s), n) == Reverse(LastN(s, n))
  {
    ReverseMultiset(s);
    if |s| > n {
      assert s == s[..|s| - n] + s[|s| - n..];
      ReverseConcat(s[..|s| - n], s[|s| - n..]);
      ReverseMultiset(s[|s| - n..]);
    }
  }

  /** After any appends the Redis list is the last 500 of them, newest first, and
      the training list is that list reversed: both paths see one multiset. */
  lemma BoundedHistory<T>(ts: seq<T>)
    ensures PushAll([], ts) == Reverse(LastN(ts, MAX_HISTORY_LEN))
    ensures TrainPushAll([], ts) == LastN(ts, MAX_HISTORY_LEN)
    ensures multiset(PushAll([], ts)) == multiset(TrainPushAll([], ts))
  {
    PushAllKeepsNewest([], ts);
    TrainPushAllKeepsNewest([], ts);
    assert Reverse(ts) + [] == Reverse(ts) && [] + ts == ts;
    ReverseFirstN(ts, MAX_HISTORY_LEN);
    ReverseMultiset(LastN(ts, MAX_HISTORY_LEN));
  }

  /** `get_history(limit)` honours a limit of one or more. A limit of 0 reads the
      whole list, because LRANGE 0 -1 does; the bound then holds only of an empty one. */
  lemma GetHistoryBounded(st: Store, card: string, limit: int)
    ensures limit >= 1 ==> HistoryRead(st, card, limit) == FirstN(HistoryOf(st, card), limit)
    ensures limit == 0 ==> HistoryRead(st, card, limit) == HistoryOf(st, card)
    ensures limit < 0 ==> var list := HistoryOf(st, card);
      HistoryRead(st, card, limit) == if |list| + limit <= 0 then [] else list[..|list| + limit]
    ensures |HistoryRead(st, card, limit)| <= limit <==> limit >= 1 || (limit == 0 && HistoryOf(st, card) == [])
  {
    if limit == 0 && HistoryOf(st, card) != [] {
      assert |HistoryRead(st, card, limit)| == |HistoryOf(st, card)|;
    }
  }
}

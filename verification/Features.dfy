/** `compute_features` (src/feature_engineering/features.py). */
module Features {
  import opened Sequences
  import opened StableSort
  import opened Transactions

  const MICROS := 1000000
  const FIVE_MINUTES := 300 * MICROS
  const ONE_HOUR := 3600 * MICROS
  const ONE_DAY := 24 * ONE_HOUR

  datatype FeatureVector = FeatureVector(
    cardId: string,
    asOf: int,
    txnCount1h: nat,
    txnCount24h: nat,
    avgAmount1h: real,
    avgAmount24h: real,
    sumAmount1h: real,
    sumAmount24h: real,
    distinctMerchants24h: nat,
    velocity5min: nat,
    secondsSinceLast: Option<real>,
    distanceKm: Option<real>,
    impliedSpeedKmh: Option<real>,
    amountZscore24h: real,
    isNewDevice: bool)

  function OtherThan(id: string): Txn -> bool {
    (t: Txn) => t.transactionId != id
  }

  function Within(asOf: int, window: int): Txn -> bool {
    (t: Txn) => asOf - window <= t.eventTime <= asOf
  }

  function InWindow(history: seq<Txn>, asOf: int, window: int): seq<Txn> {
    Filter(history, Within(asOf, window))
  }

  function PastOf(history: seq<Txn>, current: Txn): seq<Txn> {
    Sort(Filter(history, OtherThan(current.transactionId)), EventTime)
  }

  function Mean(s: seq<real>): real
    requires s != []
  {
    Sum(s) / |s| as real
  }

  function SquaredDistanceFrom(m: real): real -> real {
    (x: real) => (x - m) * (x - m)
  }

  /** `statistics.pstdev`. */
  function PopulationStdev(lib: Library, s: seq<real>): real
    requires s != []
  {
    lib.sqrt(Mean(Map(s, SquaredDistanceFrom(Mean(s)))))
  }

  function Zscore(lib: Library, previous: seq<real>, amount: real): real {
    if |previous| >= 2 then
      var std := PopulationStdev(lib, previous);
      if std > 0.0 then (amount - Mean(previous)) / std else 0.0
    else 0.0
  }

  /** A device id counts as known only when it is present and not empty. */
  predicate HasDevice(t: Txn) {
    t.deviceId.Some? && t.deviceId.value != ""
  }

  function KnownDevices(past: seq<Txn>): set<string> {
    set t | t in past && HasDevice(t) :: t.deviceId.value
  }

  function Merchants(s: seq<Txn>): set<string> {
    set t | t in s :: t.merchantId
  }

  function Last(past: seq<Txn>): Option<Txn> {
    if past == [] then None else Some(past[|past| - 1])
  }

  function SecondsSince(last: Txn, current: Txn): real {
    (current.eventTime - last.eventTime) as real / MICROS as real
  }

  function Distance(lib: Library, last: Txn, current: Txn): real {
    lib.haversineKm(last.latitude, last.longitude, current.latitude, current.longitude)
  }

  function Speed(lib: Library, last: Txn, current: Txn): Option<real> {
    var seconds := SecondsSince(last, current);
    if seconds > 0.0 then Some(lib.round(Distance(lib, last, current) / (seconds / 3600.0), 2)) else None
  }

  /** The amounts of a trailing window, the current transaction included. */
  function WindowAmounts(past: seq<Txn>, current: Txn, window: int): (r: seq<real>)
    ensures |r| == |InWindow(past, current.eventTime, window)| + 1
  {
    Map(InWindow(past, current.eventTime, window), Amount) + [current.amount]
  }

  function MerchantCount(past: seq<Txn>, current: Txn): nat {
    |Merchants(InWindow(past, current.eventTime, ONE_DAY)) + {current.merchantId}|
  }

  predicate NewDevice(past: seq<Txn>, current: Txn) {
    HasDevice(current) && current.deviceId.value !in KnownDevices(past) && KnownDevices(past) != {}
  }

  function FromPast(lib: Library, past: seq<Txn>, current: Txn): FeatureVector {
    var last := Last(past);
    var amounts1h := WindowAmounts(past, current, ONE_HOUR);
    var amounts24h := WindowAmounts(past, current, ONE_DAY);
    FeatureVector(
      current.cardId,
      current.eventTime,
      |amounts1h|,
      |amounts24h|,
      lib.round(Mean(amounts1h), 2),
      lib.round(Mean(amounts24h), 2),
      lib.round(Sum(amounts1h), 2),
      lib.round(Sum(amounts24h), 2),
      MerchantCount(past, current),
      |WindowAmounts(past, current, FIVE_MINUTES)|,
      if last.Some? then Some(SecondsSince(last.value, current)) else None,
      if last.Some? then Some(lib.round(Distance(lib, last.value, current), 2)) else None,
      if last.Some? then Speed(lib, last.value, current) else None,
      lib.round(Zscore(lib, amounts24h[..|amounts24h| - 1], current.amount), 4),
      NewDevice(past, current))
  }

  function ComputeFeatures(lib: Library, history: seq<Txn>, current: Txn): FeatureVector {
    FromPast(lib, PastOf(history, current), current)
  }

  predicate IsImpossibleTravel(fv: FeatureVector, maxSpeedKmh: real) {
    fv.impliedSpeedKmh.Some? && fv.impliedSpeedKmh.value > maxSpeedKmh
  }

  predicate IsVelocityAbuse(fv: FeatureVector, maxTxns: int) {
    fv.velocity5min > maxTxns
  }

  // ---- Order of the history ----

  ghost predicate IsLatest(t: Txn, s: seq<Txn>) {
    t in s && forall u :: u in s ==> u.eventTime <= t.eventTime
  }

  /** No two of the latest other transactions happened at different places. */
  ghost predicate LatestPlaceAgreed(history: seq<Txn>, current: Txn) {
    var others := Filter(history, OtherThan(current.transactionId));
    forall t, u :: IsLatest(t, others) && IsLatest(u, others) ==>
      t.latitude == u.latitude && t.longitude == u.longitude
  }

  ghost predicate SameButPlace(f: FeatureVector, g: FeatureVector) {
    f.(distanceKm := g.distanceKm, impliedSpeedKmh := g.impliedSpeedKmh) == g
  }

  lemma SumSnoc(s: seq<real>, x: real)
    ensures Sum(s + [x]) == Sum(s) + x
  {
    SumConcat(s, [x]);
    assert [x][1..] == [];
  }

  lemma PastPermutation(h1: seq<Txn>, h2: seq<Txn>, current: Txn)
    requires multiset(h1) == multiset(h2)
    ensures multiset(PastOf(h1, current)) == multiset(PastOf(h2, current))
  {
    var p := OtherThan(current.transactionId);
    FilterPermutation(h1, h2, p);
    SortPermutes(Filter(h1, p), EventTime);
    SortPermutes(Filter(h2, p), EventTime);
  }

  lemma WindowPermutation(p1: seq<Txn>, p2: seq<Txn>, current: Txn, window: int)
    requires multiset(p1) == multiset(p2)
    ensures var a1, a2 := WindowAmounts(p1, current, window), WindowAmounts(p2, current, window);
      |a1| == |a2| && Sum(a1) == Sum(a2) && Mean(a1) == Mean(a2)
      && multiset(a1[..|a1| - 1]) == multiset(a2[..|a2| - 1])
    ensures var asOf := current.eventTime;
      Merchants(InWindow(p1, asOf, window)) == Merchants(InWindow(p2, asOf, window))
  {
    var asOf := current.eventTime;
    FilterPermutation(p1, p2, Within(asOf, window));
    var w1, w2 := InWindow(p1, asOf, window), InWindow(p2, asOf, window);
    SamePlaces(w1, w2);
    MapPermutation(w1, w2, Amount);
    SumPermutation(Map(w1, Amount), Map(w2, Amount));
    SumSnoc(Map(w1, Amount), current.amount);
    SumSnoc(Map(w2, Amount), current.amount);
    var a1, a2 := WindowAmounts(p1, current, window), WindowAmounts(p2, current, window);
    assert a1[..|a1| - 1] == Map(w1, Amount);
    assert a2[..|a2| - 1] == Map(w2, Amount);
  }

  lemma DevicePermutation(p1: seq<Txn>, p2: seq<Txn>, current: Txn)
    requires multiset(p1) == multiset(p2)
    ensures NewDevice(p1, current) == NewDevice(p2, current)
  {
    SamePlaces(p1, p2);
    assert KnownDevices(p1) == KnownDevices(p2);
  }

  lemma SumMapPermutation(s: seq<real>, t: seq<real>, f: real -> real)
    requires multiset(s) == multiset(t)
    ensures Sum(Map(s, f)) == Sum(Map(t, f))
  {
    MapPermutation(s, t, f);
    SumPermutation(Map(s, f), Map(t, f));
  }

  lemma ZscorePermutation(lib: Library, s: seq<real>, t: seq<real>, amount: real)
    requires multiset(s) == multiset(t)
    ensures Zscore(lib, s, amount) == Zscore(lib, t, amount)
  {
    hide Sum, Map;
    SamePlaces(s, t);
    SumPermutation(s, t);
    if s != [] {
      SumMapPermutation(s, t, SquaredDistanceFrom(Mean(s)));
    }
  }

  lemma LastIsLatest(s: seq<Txn>)
    requires s != []
    ensures Last(Sort(s, EventTime)).Some? && IsLatest(Last(Sort(s, EventTime)).value, s)
  {
    SortLast(s, EventTime);
  }

  ghost predicate SameLastTime(p1: seq<Txn>, p2: seq<Txn>) {
    |p1| == |p2| && (p1 != [] ==> p1[|p1| - 1].eventTime == p2[|p2| - 1].eventTime)
  }

  lemma FromPastPermutation(lib: Library, p1: seq<Txn>, p2: seq<Txn>, current: Txn)
    requires multiset(p1) == multiset(p2) && SameLastTime(p1, p2)
    ensures SameButPlace(FromPast(lib, p1, current), FromPast(lib, p2, current))
  {
    hide Filter, Map, Sum, Merchants, KnownDevices;
    WindowPermutation(p1, p2, current, ONE_DAY);
    WindowPermutation(p1, p2, current, ONE_HOUR);
    WindowPermutation(p1, p2, current, FIVE_MINUTES);
    var d1, d2 := WindowAmounts(p1, current, ONE_DAY), WindowAmounts(p2, current, ONE_DAY);
    ZscorePermutation(lib, d1[..|d1| - 1], d2[..|d2| - 1], current.amount);
    DevicePermutation(p1, p2, current);
  }

  lemma PlaceFromLast(lib: Library, p1: seq<Txn>, p2: seq<Txn>, current: Txn)
    requires SameLastTime(p1, p2)
    requires p1 != [] ==>
      p1[|p1| - 1].latitude == p2[|p2| - 1].latitude && p1[|p1| - 1].longitude == p2[|p2| - 1].longitude
    ensures var f, g := FromPast(lib, p1, current), FromPast(lib, p2, current);
      f.distanceKm == g.distanceKm && f.impliedSpeedKmh == g.impliedSpeedKmh
  {
    hide Filter, Map, Sum, Merchants, KnownDevices;
  }

  /** Any permutation of the history gives the same features, except that the
      distance and the speed also need the latest transactions to share a place. */
  lemma OrderIndependence(lib: Library, h1: seq<Txn>, h2: seq<Txn>, current: Txn)
    requires multiset(h1) == multiset(h2)
    ensures SameButPlace(ComputeFeatures(lib, h1, current), ComputeFeatures(lib, h2, current))
    ensures LatestPlaceAgreed(h1, current) ==>
      ComputeFeatures(lib, h1, current) == ComputeFeatures(lib, h2, current)
  {
    var p1, p2 := PastOf(h1, current), PastOf(h2, current);
    PastPermutation(h1, h2, current);
    LastsMatch(h1, h2, current);
    FromPastPermutation(lib, p1, p2, current);
    if LatestPlaceAgreed(h1, current) {
      PlaceFromLast(lib, p1, p2, current);
    }
  }

  lemma LastsMatch(h1: seq<Txn>, h2: seq<Txn>, current: Txn)
    requires multiset(h1) == multiset(h2)
    ensures SameLastTime(PastOf(h1, current), PastOf(h2, current))
    ensures LatestPlaceAgreed(h1, current) && PastOf(h1, current) != [] ==>
      var t, u := Last(PastOf(h1, current)).value, Last(PastOf(h2, current)).value;
      t.latitude == u.latitude && t.longitude == u.longitude
  {
    var p := OtherThan(current.transactionId);
    var o1, o2 := Filter(h1, p), Filter(h2, p);
    FilterPermutation(h1, h2, p);
    SamePlaces(o1, o2);
    SortPermutes(o1, EventTime);
    SortPermutes(o2, EventTime);
    if o1 != [] {
      LastIsLatest(o1);
      LastIsLatest(o2);
      assert IsLatest(Last(PastOf(h2, current)).value, o1);
    }
  }

  /** Copies of the current transaction in its own history change nothing. */
  lemma OwnCopiesIgnored(lib: Library, history: seq<Txn>, current: Txn)
    ensures ComputeFeatures(lib, Filter(history, OtherThan(current.transactionId)), current)
         == ComputeFeatures(lib, history, current)
  {
    var p := OtherThan(current.transactionId);
    FilterMembers(history, p);
    FilterAll(Filter(history, p), p);
  }

  /** The same transactions with t moved to the end. */
  lemma MoveToEnd(history: seq<Txn>, t: Txn) returns (h: seq<Txn>)
    requires t in history
    ensures multiset(h) == multiset(history)
    ensures h != [] && h[|h| - 1] == t
  {
    var i :| 0 <= i < |history| && history[i] == t;
    h := history[..i] + history[i + 1..] + [t];
    assert history == history[..i] + [t] + history[i + 1..];
  }

  /** The last of the latest transactions, in list order, is the one whose place is used. */
  lemma LatestAtEnd(h: seq<Txn>, current: Txn)
    requires h != [] && IsLatest(h[|h| - 1], Filter(h, OtherThan(current.transactionId)))
    ensures Last(PastOf(h, current)) == Some(h[|h| - 1])
  {
    hide Filter, Sort;
    var p := OtherThan(current.transactionId);
    var s, t := h[..|h| - 1], h[|h| - 1];
    var o := Filter(s, p);
    assert h == s + [t];
    FilterSnoc(s, t, p);
    FilterMembers(h, p);
    SortSnoc(o, t);
  }

  lemma SortSnoc(s: seq<Txn>, t: Txn)
    requires IsLatest(t, s + [t])
    ensures Sort(s + [t], EventTime) == Sort(s, EventTime) + [t]
  {
    assert forall x :: x in s ==> x in s + [t];
    SortConcat(s, [t], EventTime);
    assert [t][1..] == [];
    assert Sort([t], EventTime) == [t];
  }

  predicate SamePlace(t: Txn, u: Txn) {
    t.latitude == u.latitude && t.longitude == u.longitude
  }

  /** A distance that knows one pair of places: they lie 1 apart, any other two 2 apart. */
  function TellPlaces(lat: real, lon: real, lat': real, lon': real): (real, real, real, real) -> real {
    (a, b, c, d) =>
      if a == c && b == d then 0.0
      else if a == lat && b == lon && c == lat' && d == lon' then 1.0
      else if a == lat' && b == lon' && c == lat && d == lon then 1.0
      else 2.0
  }

  ghost function PlaceProbe(last: Txn, current: Txn): Library {
    LibraryOf(TellPlaces(last.latitude, last.longitude, current.latitude, current.longitude))
  }

  lemma PlaceProbeLawful(last: Txn, current: Txn)
    ensures IsLibrary(PlaceProbe(last, current))
  {
    LibraryMeets(TellPlaces(last.latitude, last.longitude, current.latitude, current.longitude));
  }

  /** From the current transaction it tells the place of `last` from every other. */
  lemma PlaceProbed(last: Txn, other: Txn, current: Txn)
    ensures var lib := PlaceProbe(last, current);
      lib.round(Distance(lib, last, current), 2) == lib.round(Distance(lib, other, current), 2)
      <==> SamePlace(last, other)
  {}

  // ---- Two orders of one history ----

  function NoLaterIn(s: seq<Txn>): Txn -> bool {
    (t: Txn) => forall u :: u in s ==> u.eventTime <= t.eventTime
  }

  /** The latest of the other transactions, in list order: several when event times tie. */
  function LatestOthers(history: seq<Txn>, current: Txn): seq<Txn> {
    var others := Filter(history, OtherThan(current.transactionId));
    Filter(others, NoLaterIn(others))
  }

  /** In the two lists, the last of the tied latest transactions happened at one place. */
  predicate SameLastPlace(h1: seq<Txn>, h2: seq<Txn>, current: Txn) {
    var t, u := Last(LatestOthers(h1, current)), Last(LatestOthers(h2, current));
    t.Some? && u.Some? ==> SamePlace(t.value, u.value)
  }

  /** `past[-1]` is the last of the tied latest ones in list order, because the sort is stable. */
  lemma LastOfTied(history: seq<Txn>, current: Txn)
    ensures Last(PastOf(history, current)) == Last(LatestOthers(history, current))
  {
    hide Sort, Filter;
    var others := Filter(history, OtherThan(current.transactionId));
    var p, past := NoLaterIn(others), Sort(others, EventTime);
    SortPermutes(others, EventTime);
    if others == [] {
      FilterNone(others, p);
    } else {
      LastIsLatest(others);
      FilterMembers(others, p);
      SortOfSorted(Filter(others, p), EventTime);
      SortFiltered(others, EventTime, p);
      assert past == past[..|past| - 1] + [past[|past| - 1]];
      FilterSnoc(past[..|past| - 1], past[|past| - 1], p);
    }
  }

  /** The first and the last of the tied latest transactions happened at one place. */
  predicate TiedEndsAgree(history: seq<Txn>, current: Txn) {
    var tied := LatestOthers(history, current);
    tied != [] ==> SamePlace(tied[0], tied[|tied| - 1])
  }

  lemma TiedReversed(history: seq<Txn>, current: Txn)
    ensures LatestOthers(Reverse(history), current) == Reverse(LatestOthers(history, current))
  {
    hide Filter, Reverse;
    var p := OtherThan(current.transactionId);
    var others := Filter(history, p);
    FilterReverse(history, p);
    ReverseMultiset(others);
    SamePlaces(Reverse(others), others);
    FilterSame(Reverse(others), NoLaterIn(Reverse(others)), NoLaterIn(others));
    FilterReverse(others, NoLaterIn(others));
  }

  lemma ReverseEnd(s: seq<Txn>)
    requires s != []
    ensures Last(Reverse(s)) == Some(s[0])
  {}

  /** Reversing a list exchanges the ends of its tied latest transactions. */
  lemma ReversedEnds(history: seq<Txn>, current: Txn)
    ensures TiedEndsAgree(history, current) <==> SameLastPlace(history, Reverse(history), current)
    ensures multiset(Reverse(history)) == multiset(history)
  {
    hide LatestOthers, Reverse;
    var tied := LatestOthers(history, current);
    ReverseMultiset(history);
    ReverseMultiset(tied);
    TiedReversed(history, current);
    if tied != [] {
      ReverseEnd(tied);
    }
  }

  // ---- What the features count ----

  /** The other transactions of the trailing window, before any sorting. */
  function Recent(current: Txn, window: int): Txn -> bool {
    (t: Txn) => t.transactionId != current.transactionId
             && current.eventTime - window <= t.eventTime <= current.eventTime
  }

  lemma {:induction false} FilterBoth(s: seq<Txn>, current: Txn, window: int)
    ensures Filter(Filter(s, OtherThan(current.transactionId)), Within(current.eventTime, window))
         == Filter(s, Recent(current, window))
  {
    if s != [] {
      FilterBoth(s[1..], current, window);
      var p := OtherThan(current.transactionId);
      if p(s[0]) {
        assert Filter(s, p)[1..] == Filter(s[1..], p);
      } else {
        assert Filter(s, p) == Filter(s[1..], p);
      }
    }
  }

  lemma WindowMeaning(history: seq<Txn>, current: Txn, window: int)
    ensures multiset(InWindow(PastOf(history, current), current.eventTime, window))
         == multiset(Filter(history, Recent(current, window)))
    ensures |InWindow(PastOf(history, current), current.eventTime, window)|
         == |Filter(history, Recent(current, window))|
    ensures Sum(Map(InWindow(PastOf(history, current), current.eventTime, window), Amount))
         == Sum(Map(Filter(history, Recent(current, window)), Amount))
  {
    var others := Filter(history, OtherThan(current.transactionId));
    var w := Within(current.eventTime, window);
    SortPermutes(others, EventTime);
    FilterPermutation(Sort(others, EventTime), others, w);
    FilterBoth(history, current, window);
    var a, b := InWindow(PastOf(history, current), current.eventTime, window), Filter(history, Recent(current, window));
    SamePlaces(a, b);
    MapPermutation(a, b, Amount);
    SumPermutation(Map(a, Amount), Map(b, Amount));
  }

  /** The amounts of the other transactions of a window, and those with the current one. */
  function RecentAmounts(history: seq<Txn>, current: Txn, window: int): seq<real> {
    Map(Filter(history, Recent(current, window)), Amount)
  }

  lemma AmountsMeaning(history: seq<Txn>, current: Txn, window: int)
    ensures var w := WindowAmounts(PastOf(history, current), current, window);
      var raw := RecentAmounts(history, current, window);
      && |w| == |raw| + 1 && Sum(w) == Sum(raw) + current.amount && multiset(w[..|w| - 1]) == multiset(raw)
    ensures |RecentAmounts(history, current, window)| == |Filter(history, Recent(current, window))|
  {
    hide Filter, Sort, Sum;
    WindowMeaning(history, current, window);
    var a := InWindow(PastOf(history, current), current.eventTime, window);
    SumSnoc(Map(a, Amount), current.amount);
    MapPermutation(a, Filter(history, Recent(current, window)), Amount);
    var w := WindowAmounts(PastOf(history, current), current, window);
    assert w[..|w| - 1] == Map(a, Amount);
  }

  /** Counts, sums, means and the z-score, stated on the raw history. */
  lemma FeatureMeaning(lib: Library, history: seq<Txn>, current: Txn)
    ensures var fv := ComputeFeatures(lib, history, current);
      var hour, day := RecentAmounts(history, current, ONE_HOUR), RecentAmounts(history, current, ONE_DAY);
      && fv.txnCount1h == |Filter(history, Recent(current, ONE_HOUR))| + 1 == |hour| + 1
      && fv.txnCount24h == |Filter(history, Recent(current, ONE_DAY))| + 1 == |day| + 1
      && fv.velocity5min == |Filter(history, Recent(current, FIVE_MINUTES))| + 1
      && fv.sumAmount1h == lib.round(Sum(hour) + current.amount, 2)
      && fv.sumAmount24h == lib.round(Sum(day) + current.amount, 2)
      && fv.avgAmount1h == lib.round((Sum(hour) + current.amount) / (|hour| + 1) as real, 2)
      && fv.avgAmount24h == lib.round((Sum(day) + current.amount) / (|day| + 1) as real, 2)
      && fv.amountZscore24h == lib.round(Zscore(lib, day, current.amount), 4)
  {
    hide PastOf, WindowAmounts, RecentAmounts, Filter, Sum, Zscore, MerchantCount, NewDevice;
    AmountsMeaning(history, current, ONE_HOUR);
    AmountsMeaning(history, current, ONE_DAY);
    AmountsMeaning(history, current, FIVE_MINUTES);
    var w := WindowAmounts(PastOf(history, current), current, ONE_DAY);
    ZscorePermutation(lib, w[..|w| - 1], RecentAmounts(history, current, ONE_DAY), current.amount);
  }

  /** Merchants and devices, stated on the raw history: a device is new when it is present,
      some other transaction names a device, and none names this one. */
  lemma SetMeaning(lib: Library, history: seq<Txn>, current: Txn)
    ensures var fv := ComputeFeatures(lib, history, current);
      fv.distinctMerchants24h == |Merchants(Filter(history, Recent(current, ONE_DAY))) + {current.merchantId}|
    ensures var others := Filter(history, OtherThan(current.transactionId));
      ComputeFeatures(lib, history, current).isNewDevice <==>
        && HasDevice(current)
        && (exists t :: t in others && HasDevice(t))
        && (forall t :: t in others && HasDevice(t) ==> t.deviceId != current.deviceId)
  {
    hide Filter, Sort, Sum, Map, Zscore;
    var others := Filter(history, OtherThan(current.transactionId));
    var past := PastOf(history, current);
    WindowMeaning(history, current, ONE_DAY);
    var w := InWindow(past, current.eventTime, ONE_DAY);
    SamePlaces(w, Filter(history, Recent(current, ONE_DAY)));
    assert Merchants(w) == Merchants(Filter(history, Recent(current, ONE_DAY)));
    SortPermutes(others, EventTime);
    SamePlaces(past, others);
    DeviceMeaning(past, current);
    DeviceMeaning(others, current);
    DevicePermutation(past, others, current);
  }

  lemma DeviceMeaning(past: seq<Txn>, current: Txn)
    ensures NewDevice(past, current) <==>
      && HasDevice(current)
      && (exists t :: t in past && HasDevice(t))
      && (forall t :: t in past && HasDevice(t) ==> t.deviceId != current.deviceId)
  {
    if t :| t in past && HasDevice(t) {
      assert t.deviceId.value in KnownDevices(past);
    }
    forall t | t in past && HasDevice(t) ensures t.deviceId.value in KnownDevices(past) {}
  }

  /** Gap, distance and speed are measured from one of the latest other transactions. */
  lemma PlaceMeaning(lib: Library, history: seq<Txn>, current: Txn) returns (last: Option<Txn>)
    ensures var others := Filter(history, OtherThan(current.transactionId));
      if others == [] then last.None? else last.Some? && IsLatest(last.value, others)
    ensures last.None? ==> var fv := ComputeFeatures(lib, history, current);
      fv.secondsSinceLast.None? && fv.distanceKm.None? && fv.impliedSpeedKmh.None?
    ensures last.Some? ==> var fv := ComputeFeatures(lib, history, current);
      && fv.secondsSinceLast == Some(SecondsSince(last.value, current))
      && fv.distanceKm == Some(lib.round(Distance(lib, last.value, current), 2))
      && fv.impliedSpeedKmh == Speed(lib, last.value, current)
      && (fv.impliedSpeedKmh.Some? <==> last.value.eventTime < current.eventTime)
  {
    var others := Filter(history, OtherThan(current.transactionId));
    last := Last(PastOf(history, current));
    SortPermutes(others, EventTime);
    if others != [] {
      LastIsLatest(others);
    }
  }

  lemma {:induction false} FewMerchants(s: seq<Txn>)
    ensures |Merchants(s)| <= |s|
  {
    if s != [] {
      FewMerchants(s[1..]);
      assert Merchants(s) == Merchants(s[1..]) + {s[0].merchantId};
    }
  }

  /** The windows nest: every narrower window counts and sums no more than a wider one. */
  lemma WindowNesting(lib: Library, history: seq<Txn>, current: Txn)
    ensures var fv := ComputeFeatures(lib, history, current);
      && 1 <= fv.velocity5min <= fv.txnCount1h <= fv.txnCount24h <= |history| + 1
      && 1 <= fv.distinctMerchants24h <= fv.txnCount24h
    ensures RoundIsMonotone(lib) && (forall t :: t in history ==> t.amount >= 0.0) ==>
      ComputeFeatures(lib, history, current).sumAmount1h <= ComputeFeatures(lib, history, current).sumAmount24h
    ensures var gap := ComputeFeatures(lib, history, current).secondsSinceLast;
      (forall t :: t in history ==> t.eventTime <= current.eventTime) ==> gap.None? || gap.value >= 0.0
  {
    hide Filter, Map, Sum, Sort, KnownDevices;
    FeatureMeaning(lib, history, current);
    var last := PlaceMeaning(lib, history, current);
    FilterShorter(history, Recent(current, FIVE_MINUTES), Recent(current, ONE_HOUR));
    FilterShorter(history, Recent(current, ONE_HOUR), Recent(current, ONE_DAY));
    FilterMembers(history, Recent(current, ONE_DAY));
    FilterMembers(history, OtherThan(current.transactionId));
    WindowMeaning(history, current, ONE_DAY);
    FewMerchants(InWindow(PastOf(history, current), current.eventTime, ONE_DAY));
    var m := Merchants(InWindow(PastOf(history, current), current.eventTime, ONE_DAY));
    assert |m + {current.merchantId}| <= |m| + 1;
    assert current.merchantId in m + {current.merchantId};
    if forall t :: t in history ==> t.amount >= 0.0 {
      SumBelow(history, Amount, Recent(current, ONE_HOUR), Recent(current, ONE_DAY));
    }
  }

  // ---- What tells two histories apart ----

  /** The transactions that one of the two histories holds and the other does not. */
  ghost function OnlyInOne(h1: seq<Txn>, h2: seq<Txn>): multiset<Txn> {
    (multiset(h1) - multiset(h2)) + (multiset(h2) - multiset(h1))
  }

  ghost predicate Nested(h1: seq<Txn>, h2: seq<Txn>) {
    multiset(h1) <= multiset(h2) || multiset(h2) <= multiset(h1)
  }

  function Others(history: seq<Txn>, current: Txn): seq<Txn> {
    Filter(history, OtherThan(current.transactionId))
  }

  /** Both know a latest other transaction, at one time and place, or neither does. */
  predicate SameLast(h1: seq<Txn>, h2: seq<Txn>, current: Txn) {
    var t, u := Last(LatestOthers(h1, current)), Last(LatestOthers(h2, current));
    (t.Some? <==> u.Some?) && (t.Some? ==> t.value.eventTime == u.value.eventTime && SamePlace(t.value, u.value))
  }

  /** All that the features of the current transaction take from a history. */
  ghost predicate SameView(h1: seq<Txn>, h2: seq<Txn>, current: Txn) {
    && (forall u :: u in OnlyInOne(h1, h2) ==> !Recent(current, ONE_DAY)(u))
    && (NewDevice(Others(h1, current), current) <==> NewDevice(Others(h2, current), current))
    && SameLast(h1, h2, current)
  }

  lemma WindowShared(h1: seq<Txn>, h2: seq<Txn>, current: Txn, window: int)
    requires Nested(h1, h2) && window <= ONE_DAY
    requires forall u :: u in OnlyInOne(h1, h2) ==> !Recent(current, ONE_DAY)(u)
    ensures multiset(Filter(h1, Recent(current, window))) == multiset(Filter(h2, Recent(current, window)))
  {
    hide Filter;
    forall u | u in OnlyInOne(h1, h2) ensures !Recent(current, window)(u) {}
    if multiset(h1) <= multiset(h2) {
      FilterNested(h1, h2, Recent(current, window));
    } else {
      FilterNested(h2, h1, Recent(current, window));
    }
  }

  lemma DayShown(h1: seq<Txn>, h2: seq<Txn>, current: Txn)
    requires Nested(h1, h2)
    requires |Filter(h1, Recent(current, ONE_DAY))| == |Filter(h2, Recent(current, ONE_DAY))|
    ensures forall u :: u in OnlyInOne(h1, h2) ==> !Recent(current, ONE_DAY)(u)
  {
    hide Filter;
    if multiset(h1) <= multiset(h2) {
      FilterNested(h1, h2, Recent(current, ONE_DAY));
    } else {
      FilterNested(h2, h1, Recent(current, ONE_DAY));
    }
  }

  lemma AmountsShared(lib: Library, h1: seq<Txn>, h2: seq<Txn>, current: Txn, window: int)
    requires multiset(Filter(h1, Recent(current, window))) == multiset(Filter(h2, Recent(current, window)))
    ensures var a, b := RecentAmounts(h1, current, window), RecentAmounts(h2, current, window);
      |a| == |b| && Sum(a) == Sum(b) && Zscore(lib, a, current.amount) == Zscore(lib, b, current.amount)
    ensures |Filter(h1, Recent(current, window))| == |Filter(h2, Recent(current, window))|
    ensures Merchants(Filter(h1, Recent(current, window))) == Merchants(Filter(h2, Recent(current, window)))
  {
    hide Filter, Sum, Zscore;
    var w1, w2 := Filter(h1, Recent(current, window)), Filter(h2, Recent(current, window));
    SamePlaces(w1, w2);
    MapPermutation(w1, w2, Amount);
    SumPermutation(Map(w1, Amount), Map(w2, Amount));
    ZscorePermutation(lib, Map(w1, Amount), Map(w2, Amount), current.amount);
  }

  /** The fields that depend on the devices and on the latest other transaction. */
  lemma OtherFields(lib: Library, history: seq<Txn>, current: Txn)
    ensures var fv := ComputeFeatures(lib, history, current);
      var last := Last(LatestOthers(history, current));
      && fv.isNewDevice == NewDevice(Others(history, current), current)
      && fv.secondsSinceLast == (if last.Some? then Some(SecondsSince(last.value, current)) else None)
      && fv.distanceKm == (if last.Some? then Some(lib.round(Distance(lib, last.value, current), 2)) else None)
      && fv.impliedSpeedKmh == (if last.Some? then Speed(lib, last.value, current) else None)
      && fv.cardId == current.cardId && fv.asOf == current.eventTime
  {
    hide Filter, Sort, NewDevice, LatestOthers, WindowAmounts, MerchantCount, Zscore;
    LastOfTied(history, current);
    SortPermutes(Others(history, current), EventTime);
    DevicePermutation(PastOf(history, current), Others(history, current), current);
  }

  lemma ViewAgrees(lib: Library, h1: seq<Txn>, h2: seq<Txn>, current: Txn)
    requires Nested(h1, h2) && SameView(h1, h2, current)
    ensures ComputeFeatures(lib, h1, current) == ComputeFeatures(lib, h2, current)
  {
    hide ComputeFeatures, Filter, Sum, Zscore, NewDevice, LatestOthers, Merchants, RecentAmounts, Nested;
    FeatureMeaning(lib, h1, current);
    FeatureMeaning(lib, h2, current);
    SetMeaning(lib, h1, current);
    SetMeaning(lib, h2, current);
    OtherFields(lib, h1, current);
    OtherFields(lib, h2, current);
    WindowShared(h1, h2, current, ONE_DAY);
    WindowShared(h1, h2, current, ONE_HOUR);
    WindowShared(h1, h2, current, FIVE_MINUTES);
    AmountsShared(lib, h1, h2, current, ONE_DAY);
    AmountsShared(lib, h1, h2, current, ONE_HOUR);
    AmountsShared(lib, h1, h2, current, FIVE_MINUTES);
  }

  /** A lawful library whose distance watches the latest other transaction of the first history. */
  ghost function ViewProbe(history: seq<Txn>, current: Txn): Library {
    var last := Last(LatestOthers(history, current));
    PlaceProbe(if last.Some? then last.value else current, current)
  }

  lemma ViewProbed(h1: seq<Txn>, h2: seq<Txn>, current: Txn)
    requires Nested(h1, h2)
    ensures IsLibrary(ViewProbe(h1, current))
    ensures var lib := ViewProbe(h1, current);
      ComputeFeatures(lib, h1, current) == ComputeFeatures(lib, h2, current) ==> SameView(h1, h2, current)
  {
    hide ComputeFeatures, Filter, Sum, Zscore, NewDevice, LatestOthers, RecentAmounts, Nested, IsLibrary, PlaceProbe;
    hide Distance;
    var lib := ViewProbe(h1, current);
    var t, u := Last(LatestOthers(h1, current)), Last(LatestOthers(h2, current));
    PlaceProbeLawful(if t.Some? then t.value else current, current);
    FeatureMeaning(lib, h1, current);
    FeatureMeaning(lib, h2, current);
    OtherFields(lib, h1, current);
    OtherFields(lib, h2, current);
    if t.Some? && u.Some? {
      PlaceProbed(t.value, u.value, current);
      SameGap(t.value, u.value, current);
    }
    if ComputeFeatures(lib, h1, current) == ComputeFeatures(lib, h2, current) {
      DayShown(h1, h2, current);
    }
  }

  lemma SameGap(t: Txn, u: Txn, current: Txn)
    ensures SecondsSince(t, current) == SecondsSince(u, current) ==> t.eventTime == u.eventTime
  {}

  /** Two histories of which one holds the other give the same features, for every lawful library,
      exactly when the part that only one of them holds is not of the day, the new-device answer is
      the same, and so are the time and place of the latest other transaction. */
  lemma ViewExact(h1: seq<Txn>, h2: seq<Txn>, current: Txn)
    requires Nested(h1, h2)
    ensures (forall lib :: IsLibrary(lib) ==> ComputeFeatures(lib, h1, current) == ComputeFeatures(lib, h2, current))
      <==> SameView(h1, h2, current)
  {
    hide ComputeFeatures, SameView, IsLibrary, Nested;
    ViewProbed(h1, h2, current);
    if SameView(h1, h2, current) {
      forall lib ensures ComputeFeatures(lib, h1, current) == ComputeFeatures(lib, h2, current) {
        ViewAgrees(lib, h1, h2, current);
      }
    }
  }

  /** On two orders of one history only the place of the last of the latest can differ. */
  lemma PermutedView(h1: seq<Txn>, h2: seq<Txn>, current: Txn)
    requires multiset(h1) == multiset(h2)
    ensures Nested(h1, h2) && (SameView(h1, h2, current) <==> SameLastPlace(h1, h2, current))
  {
    hide Filter, Sort, NewDevice, LatestOthers;
    assert OnlyInOne(h1, h2) == multiset{};
    FilterPermutation(h1, h2, OtherThan(current.transactionId));
    DevicePermutation(Others(h1, current), Others(h2, current), current);
    LastsMatch(h1, h2, current);
    LastOfTied(h1, current);
    LastOfTied(h2, current);
  }

  /** Two orders of one history give the same features, for every lawful library, exactly
      when the last of the tied latest transactions shares a place in both. */
  lemma PermutationExact(h1: seq<Txn>, h2: seq<Txn>, current: Txn)
    requires multiset(h1) == multiset(h2)
    ensures (forall lib :: IsLibrary(lib) ==> ComputeFeatures(lib, h1, current) == ComputeFeatures(lib, h2, current))
      <==> SameLastPlace(h1, h2, current)
  {
    hide ComputeFeatures, SameLastPlace, SameView, Nested, IsLibrary;
    PermutedView(h1, h2, current);
    ViewExact(h1, h2, current);
  }

  /** Oldest-first and newest-first lists give the same features, for every lawful library,
      exactly when the two ends of the tied latest transactions share a place. */
  lemma ReversalExact(history: seq<Txn>, current: Txn)
    ensures (forall lib :: IsLibrary(lib) ==>
        ComputeFeatures(lib, history, current) == ComputeFeatures(lib, Reverse(history), current))
      <==> TiedEndsAgree(history, current)
  {
    hide ComputeFeatures, TiedEndsAgree, SameLastPlace, IsLibrary;
    ReversedEnds(history, current);
    PermutationExact(history, Reverse(history), current);
  }

  /** Where the latest places differ, some order and some lawful library give different
      features, so the condition of `OrderIndependence` is the exact one. */
  lemma PlaceNeeded(history: seq<Txn>, current: Txn) returns (lib: Library, h: seq<Txn>)
    requires !LatestPlaceAgreed(history, current)
    ensures IsLibrary(lib) && multiset(h) == multiset(history)
    ensures ComputeFeatures(lib, h, current) != ComputeFeatures(lib, history, current)
  {
    hide ComputeFeatures, Filter, IsLibrary, SameView, Nested, LatestOthers, PastOf;
    var p := OtherThan(current.transactionId);
    var others := Filter(history, p);
    var t, u :| IsLatest(t, others) && IsLatest(u, others) && !SamePlace(t, u);
    FilterMembers(history, p);
    var ht := LatestMoved(history, current, t);
    var hu := LatestMoved(history, current, u);
    LastOfTied(ht, current);
    LastOfTied(hu, current);
    PermutedView(ht, hu, current);
    ViewProbed(ht, hu, current);
    lib := ViewProbe(ht, current);
    h := if ComputeFeatures(lib, history, current) == ComputeFeatures(lib, ht, current) then hu else ht;
  }

  lemma LatestMoved(history: seq<Txn>, current: Txn, t: Txn) returns (h: seq<Txn>)
    requires t in history && IsLatest(t, Filter(history, OtherThan(current.transactionId)))
    ensures multiset(h) == multiset(history) && Last(PastOf(h, current)) == Some(t)
  {
    hide Filter, PastOf;
    var p := OtherThan(current.transactionId);
    h := MoveToEnd(history, t);
    FilterPermutation(history, h, p);
    SamePlaces(Filter(history, p), Filter(h, p));
    LatestAtEnd(h, current);
  }

  // ---- Histories whose event times identify the transaction ----

  /** On these transactions an event time determines the transaction. */
  ghost predicate TimesIdentify(m: multiset<Txn>) {
    forall t, u :: t in m && u in m && t.eventTime == u.eventTime ==> t == u
  }

  lemma DistinctTimesTie(history: seq<Txn>, current: Txn)
    requires TimesIdentify(multiset(history))
    ensures TiedEndsAgree(history, current)
  {
    hide Filter;
    var others := Filter(history, OtherThan(current.transactionId));
    FilterMembers(history, OtherThan(current.transactionId));
    FilterMembers(others, NoLaterIn(others));
    var tied := LatestOthers(history, current);
    if tied != [] {
      assert tied[0] in others && tied[|tied| - 1] in others;
    }
  }

  /** On a permutation of such a history, the last of the latest is the same transaction. */
  lemma DistinctTimesSamePlace(h1: seq<Txn>, h2: seq<Txn>, current: Txn)
    requires multiset(h1) == multiset(h2) && TimesIdentify(multiset(h1))
    ensures SameLastPlace(h1, h2, current)
  {
    hide Filter;
    SamePlaces(h1, h2);
    LastOfLatest(h1, current);
    LastOfLatest(h2, current);
    var t, u := Last(LatestOthers(h1, current)), Last(LatestOthers(h2, current));
    if t.Some? && u.Some? {
      assert t.value in multiset(h1) && u.value in multiset(h2);
    }
  }

  lemma LastOfLatest(history: seq<Txn>, current: Txn)
    ensures var t := Last(LatestOthers(history, current));
      t.Some? ==>
        && t.value in history && t.value.transactionId != current.transactionId
        && forall u :: u in history && u.transactionId != current.transactionId ==> u.eventTime <= t.value.eventTime
  {
    hide Filter;
    var others := Filter(history, OtherThan(current.transactionId));
    FilterMembers(history, OtherThan(current.transactionId));
    FilterMembers(others, NoLaterIn(others));
  }

  lemma DistinctTimesAgree(lib: Library, h1: seq<Txn>, h2: seq<Txn>, current: Txn)
    requires multiset(h1) == multiset(h2) && TimesIdentify(multiset(h1))
    ensures ComputeFeatures(lib, h1, current) == ComputeFeatures(lib, h2, current)
  {
    hide Filter, ComputeFeatures;
    FilterMembers(h1, OtherThan(current.transactionId));
    OrderIndependence(lib, h1, h2, current);
  }
}

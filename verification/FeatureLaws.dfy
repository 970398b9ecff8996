/** What each feature is, on the raw history: no helper of `compute_features` is named
    (src/feature_engineering/features.py). */
module FeatureLaws {
  import opened Sequences
  import opened Arithmetic
  import opened StableSort
  import opened Transactions
  import opened Features

  /** The places in the history of the other transactions of the last `window` microseconds, both ends included. */
  ghost function Places(h: seq<Txn>, t: Txn, window: int): set<int> {
    set i | 0 <= i < |h| && h[i].transactionId != t.transactionId
      && t.eventTime - window <= h[i].eventTime <= t.eventTime
  }

  lemma PlacesInWindow(h: seq<Txn>, t: Txn, window: int)
    ensures |Filter(h, Recent(t, window))| == |Places(h, t, window)|
  {
    FilterIndices(h, Recent(t, window));
    assert Places(h, t, window) == PlacesOf(h, Recent(t, window));
  }

  lemma Windows()
    ensures FIVE_MINUTES == 300000000 && ONE_HOUR == 3600000000 && ONE_DAY == 86400000000
  {}

  /** The counts are those of the places of the last five minutes, hour and day, and the current one. */
  lemma CountLaw(lib: Library, h: seq<Txn>, t: Txn)
    ensures var fv := ComputeFeatures(lib, h, t);
      && fv.cardId == t.cardId && fv.asOf == t.eventTime
      && fv.velocity5min == |Places(h, t, 300000000)| + 1
      && fv.txnCount1h == |Places(h, t, 3600000000)| + 1
      && fv.txnCount24h == |Places(h, t, 86400000000)| + 1
  {
    hide Filter, Sum, Sort, Zscore, NewDevice, LatestOthers, RecentAmounts, Places;
    FeatureMeaning(lib, h, t);
    OtherFields(lib, h, t);
    PlacesInWindow(h, t, FIVE_MINUTES);
    PlacesInWindow(h, t, ONE_HOUR);
    PlacesInWindow(h, t, ONE_DAY);
    Windows();
  }

  /** c holds the amounts of those places, and 0 for every other place. */
  ghost predicate AreAmounts(c: seq<real>, h: seq<Txn>, t: Txn, window: int) {
    |c| == |h| && forall i :: 0 <= i < |h| ==> c[i] == if i in Places(h, t, window) then h[i].amount else 0.0
  }

  /** d holds the squared distances of the day's other amounts from m, and 0 for every other place. */
  ghost predicate AreSquares(d: seq<real>, h: seq<Txn>, t: Txn, m: real) {
    |d| == |h| && forall i :: 0 <= i < |h| ==>
      d[i] == if i in Places(h, t, 86400000000) then (h[i].amount - m) * (h[i].amount - m) else 0.0
  }

  lemma AmountsSum(h: seq<Txn>, t: Txn, window: int, c: seq<real>)
    requires AreAmounts(c, h, t, window)
    ensures Sum(RecentAmounts(h, t, window)) == Sum(c)
    ensures |RecentAmounts(h, t, window)| == |Filter(h, Recent(t, window))|
  {
    SumOfKept(h, Recent(t, window), Amount, c);
  }

  function SquareFrom(m: real): Txn -> real {
    (t: Txn) => (t.amount - m) * (t.amount - m)
  }

  lemma {:induction false} SquaresMapped(s: seq<Txn>, m: real)
    ensures Map(Map(s, Amount), SquaredDistanceFrom(m)) == Map(s, SquareFrom(m))
  {
    if s != [] {
      SquaresMapped(s[1..], m);
      assert Map(s, Amount)[1..] == Map(s[1..], Amount);
      assert SquaredDistanceFrom(m)(Amount(s[0])) == SquareFrom(m)(s[0]);
    }
  }

  lemma SquaresSum(h: seq<Txn>, t: Txn, m: real, d: seq<real>)
    requires AreSquares(d, h, t, m)
    ensures Sum(Map(RecentAmounts(h, t, ONE_DAY), SquaredDistanceFrom(m))) == Sum(d)
  {
    hide Filter, Sum;
    var day := Filter(h, Recent(t, ONE_DAY));
    Windows();
    SquaresMapped(day, m);
    SumOfKept(h, Recent(t, ONE_DAY), SquareFrom(m), d);
  }

  /** Sums and means are over the window's amounts and the current one. */
  lemma SumLaw(lib: Library, h: seq<Txn>, t: Txn, hour: seq<real>, day: seq<real>)
    requires AreAmounts(hour, h, t, 3600000000) && AreAmounts(day, h, t, 86400000000)
    ensures var fv := ComputeFeatures(lib, h, t);
      && fv.sumAmount1h == lib.round(Sum(hour) + t.amount, 2)
      && fv.sumAmount24h == lib.round(Sum(day) + t.amount, 2)
      && fv.avgAmount1h == lib.round((Sum(hour) + t.amount) / fv.txnCount1h as real, 2)
      && fv.avgAmount24h == lib.round((Sum(day) + t.amount) / fv.txnCount24h as real, 2)
  {
    hide ComputeFeatures, Filter, Sum, RecentAmounts, Zscore;
    FeatureMeaning(lib, h, t);
    Windows();
    AmountsSum(h, t, ONE_HOUR, hour);
    AmountsSum(h, t, ONE_DAY, day);
  }

  /** The z-score: with two or more other amounts in the day, their mean m and variance v satisfy
      n m = sum and n v = sum of squared distances, and the score is the current amount's distance from
      m in roots of v; it is 0 with fewer amounts, or when the root of v is not positive. */
  lemma ZscoreLaw(lib: Library, h: seq<Txn>, t: Txn, m: real, v: real, day: seq<real>, squares: seq<real>)
    requires AreAmounts(day, h, t, 86400000000) && AreSquares(squares, h, t, m)
    requires var n := (ComputeFeatures(lib, h, t).txnCount24h - 1) as real;
      m * n == Sum(day) && v * n == Sum(squares)
    ensures var fv := ComputeFeatures(lib, h, t);
      fv.amountZscore24h ==
        if fv.txnCount24h >= 3 && lib.sqrt(v) > 0.0 then lib.round((t.amount - m) / lib.sqrt(v), 4)
        else lib.round(0.0, 4)
  {
    hide ComputeFeatures, Filter, Sum, RecentAmounts;
    FeatureMeaning(lib, h, t);
    Windows();
    AmountsSum(h, t, ONE_DAY, day);
    var a := RecentAmounts(h, t, ONE_DAY);
    if |a| >= 2 {
      QuotientIs(Sum(a), m, |a| as real);
      SquaresSum(h, t, m, squares);
      QuotientIs(Sum(squares), v, |a| as real);
      hide SquaredDistanceFrom;
      assert Mean(a) == m;
    }
  }

  lemma QuotientIs(x: real, q: real, n: real)
    requires n > 0.0 && q * n == x
    ensures x / n == q
  {
    DivOfTimes(q, n);
  }

  lemma AmountsExist(h: seq<Txn>, t: Txn, window: int) returns (c: seq<real>)
    ensures AreAmounts(c, h, t, window)
  {
    hide Places;
    c := seq(|h|, i requires 0 <= i < |h| => if i in Places(h, t, window) then h[i].amount else 0.0);
  }

  lemma SquaresExist(h: seq<Txn>, t: Txn, m: real) returns (d: seq<real>)
    ensures AreSquares(d, h, t, m)
  {
    hide Places;
    d := seq(|h|, i requires 0 <= i < |h| =>
      if i in Places(h, t, 86400000000) then (h[i].amount - m) * (h[i].amount - m) else 0.0);
  }

  /** Such m and v always exist. */
  lemma MomentsExist(lib: Library, h: seq<Txn>, t: Txn) returns (m: real, v: real, day: seq<real>, squares: seq<real>)
    requires ComputeFeatures(lib, h, t).txnCount24h >= 2
    ensures AreAmounts(day, h, t, 86400000000) && AreSquares(squares, h, t, m)
    ensures var n := (ComputeFeatures(lib, h, t).txnCount24h - 1) as real;
      m * n == Sum(day) && v * n == Sum(squares)
  {
    hide ComputeFeatures, AreAmounts, AreSquares, Sum;
    var n := (ComputeFeatures(lib, h, t).txnCount24h - 1) as real;
    day := AmountsExist(h, t, 86400000000);
    m := Sum(day) / n;
    DivTimes(Sum(day), n);
    squares := SquaresExist(h, t, m);
    v := Sum(squares) / n;
    DivTimes(Sum(squares), n);
  }

  /** Merchants of the day, the current one included, and devices among all other transactions. */
  lemma SetLaw(lib: Library, h: seq<Txn>, t: Txn)
    ensures ComputeFeatures(lib, h, t).distinctMerchants24h
      == |(set i | i in Places(h, t, 86400000000) :: h[i].merchantId) + {t.merchantId}|
    ensures ComputeFeatures(lib, h, t).isNewDevice <==>
      && t.deviceId.Some? && t.deviceId.value != ""
      && (exists i :: 0 <= i < |h| && h[i].transactionId != t.transactionId
            && h[i].deviceId.Some? && h[i].deviceId.value != "")
      && (forall i :: 0 <= i < |h| && h[i].transactionId != t.transactionId ==> h[i].deviceId != t.deviceId)
  {
    hide ComputeFeatures, Filter;
    SetMeaning(lib, h, t);
    Windows();
    var day := Filter(h, Recent(t, ONE_DAY));
    FilterMembers(h, Recent(t, ONE_DAY));
    var raw := set i | i in Places(h, t, 86400000000) :: h[i].merchantId;
    forall x ensures x in Merchants(day) <==> x in raw {
      if x in Merchants(day) {
        var u :| u in day && u.merchantId == x;
        var i :| 0 <= i < |h| && h[i] == u;
        assert i in Places(h, t, 86400000000);
      }
      if x in raw {
        var i :| i in Places(h, t, 86400000000) && h[i].merchantId == x;
        assert h[i] in day;
      }
    }
    assert Merchants(day) == raw;
    OthersAt(h, t);
  }

  lemma OthersAt(h: seq<Txn>, t: Txn)
    ensures var others := Filter(h, OtherThan(t.transactionId));
      && (forall i :: 0 <= i < |h| && h[i].transactionId != t.transactionId ==> h[i] in others)
      && (forall u :: u in others ==> exists i :: 0 <= i < |h| && h[i].transactionId != t.transactionId && h[i] == u)
  {
    hide Filter;
    FilterMembers(h, OtherThan(t.transactionId));
  }

  /** The gap, in seconds, is a millionth of the microseconds since a latest other transaction, the
      distance is from its place, and the speed, before rounding, covers the distance in that gap:
      3600000000 microseconds to the hour. */
  lemma TravelLaw(lib: Library, h: seq<Txn>, t: Txn) returns (last: Option<Txn>, kmh: real)
    ensures last.None? <==> forall i :: 0 <= i < |h| ==> h[i].transactionId == t.transactionId
    ensures last.None? ==> var fv := ComputeFeatures(lib, h, t);
      fv.secondsSinceLast.None? && fv.distanceKm.None? && fv.impliedSpeedKmh.None?
    ensures last.Some? ==>
      && last.value in h && last.value.transactionId != t.transactionId
      && (forall i :: 0 <= i < |h| && h[i].transactionId != t.transactionId ==> h[i].eventTime <= last.value.eventTime)
    ensures last.Some? ==> var fv, u := ComputeFeatures(lib, h, t), last.value;
      var km, gap := lib.haversineKm(u.latitude, u.longitude, t.latitude, t.longitude), t.eventTime - u.eventTime;
      && fv.secondsSinceLast.Some? && fv.secondsSinceLast.value * 1000000.0 == gap as real
      && fv.distanceKm == Some(lib.round(km, 2))
      && (if gap > 0 then kmh * gap as real == km * 3600000000.0 && fv.impliedSpeedKmh == Some(lib.round(kmh, 2))
          else fv.impliedSpeedKmh.None?)
  {
    hide ComputeFeatures, Filter;
    last := PlaceMeaning(lib, h, t);
    OthersAt(h, t);
    FilterMembers(h, OtherThan(t.transactionId));
    kmh := 0.0;
    if last.Some? {
      var km, gap := Distance(lib, last.value, t), t.eventTime - last.value.eventTime;
      if gap > 0 {
        kmh := km / (SecondsSince(last.value, t) / 3600.0);
        SpeedTimesGap(km, gap as real);
      }
    } else {
      NoOthers(h, t);
    }
  }

  lemma NoOthers(h: seq<Txn>, t: Txn)
    requires Filter(h, OtherThan(t.transactionId)) == []
    ensures forall i :: 0 <= i < |h| ==> h[i].transactionId == t.transactionId
  {
    hide Filter;
    FilterMembers(h, OtherThan(t.transactionId));
    forall i | 0 <= i < |h| ensures h[i].transactionId == t.transactionId {
      assert h[i] !in Filter(h, OtherThan(t.transactionId));
    }
  }

  lemma SpeedTimesGap(km: real, gap: real)
    requires gap > 0.0
    ensures gap / 1000000.0 / 3600.0 > 0.0
    ensures km / (gap / 1000000.0 / 3600.0) * gap == km * 3600000000.0
  {
    var hours := gap / 1000000.0 / 3600.0;
    assert gap == hours * 3600000000.0;
    DivTimes(km, hours);
    TimesAssociates(km / hours, hours, 3600000000.0);
  }

  /** Exactly when travel is impossible: time has passed since the latest other transaction and the
      rounded speed is above the limit. With rounding to cents that is, but for half a hundredth, when
      the distance is more than the limit covers in the gap. */
  lemma TravelRuleLaw(lib: Library, h: seq<Txn>, t: Txn, limit: real)
    returns (last: Option<Txn>)
    ensures last.Some? ==>
      && last.value in h && last.value.transactionId != t.transactionId
      && (forall i :: 0 <= i < |h| && h[i].transactionId != t.transactionId ==> h[i].eventTime <= last.value.eventTime)
    ensures IsImpossibleTravel(ComputeFeatures(lib, h, t), limit) ==>
      last.Some? && last.value.eventTime < t.eventTime
    ensures last.Some? && last.value.eventTime < t.eventTime ==> var u := last.value;
      var km, gap := lib.haversineKm(u.latitude, u.longitude, t.latitude, t.longitude), t.eventTime - u.eventTime;
      && (IsImpossibleTravel(ComputeFeatures(lib, h, t), limit) <==>
            lib.round(km * 3600000000.0 / gap as real, 2) > limit)
      && (RoundsToCents(lib) && km * 3600000000.0 > (limit + 0.005) * gap as real ==>
            IsImpossibleTravel(ComputeFeatures(lib, h, t), limit))
      && (RoundsToCents(lib) && IsImpossibleTravel(ComputeFeatures(lib, h, t), limit) ==>
            km * 3600000000.0 > (limit - 0.005) * gap as real)
  {
    hide ComputeFeatures;
    var kmh;
    last, kmh := TravelLaw(lib, h, t);
    if last.Some? && last.value.eventTime < t.eventTime {
      var gap := (t.eventTime - last.value.eventTime) as real;
      var km := lib.haversineKm(last.value.latitude, last.value.longitude, t.latitude, t.longitude);
      assert kmh * gap == km * 3600000000.0;
      QuotientIs(km * 3600000000.0, kmh, gap);
      if RoundsToCents(lib) {
        RoundedAbove(lib.round(kmh, 2), kmh, limit - 0.005, limit, limit + 0.005, gap, km * 3600000000.0);
      }
    }
  }

  lemma RoundedAbove(rounded: real, x: real, low: real, limit: real, high: real, w: real, product: real)
    requires -0.005 <= rounded - x <= 0.005 && w > 0.0 && x * w == product
    requires low == limit - 0.005 && high == limit + 0.005
    ensures product > high * w ==> rounded > limit
    ensures rounded > limit ==> product > low * w
  {
    if product > high * w {
      Exceeds(x, high, w);
    }
    if rounded > limit {
      TimesStrict(low, x, w);
    }
  }

  lemma Exceeds(x: real, y: real, w: real)
    requires w > 0.0 && x * w > y * w
    ensures x > y
  {
    if x <= y { TimesMonotone(x, y, w); }
  }
}

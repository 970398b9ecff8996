/** The transaction generator (src/ingestion/transaction_generator.py). */
module Generator {
  import opened Sequences
  import opened Arithmetic
  import opened Transactions

  /** The seeded random source: draws in [0, 1), what `gauss` makes of one, and Faker's addresses.
      A double-precision Box-Muller draw never exceeds 9 standard deviations. */
  datatype Randomness = Randomness(draws: nat -> real, normal: real -> real, ipv4: nat -> string)

  ghost predicate IsRandomness(r: Randomness) {
    && (forall i :: 0.0 <= r.draws(i) < 1.0)
    && (forall u :: -9.0 <= r.normal(u) <= 9.0)
    && (forall i :: |r.ipv4(i)| <= 15)
  }

  /** A source and a rounding that meet both exist. */
  lemma SomeRandomness() returns (r: Randomness, lib: Library)
    ensures IsRandomness(r) && RoundsToCents(lib) && IsLibrary(lib)
  {
    r := Randomness(i => 0.0, u => 0.0, i => "10.0.0.1");
    lib := LibraryOf((lat, lon, lat', lon') => 0.0);
    LibraryMeets(lib.haversineKm);
  }

  datatype Anchor = Anchor(country: string, lat: real, lon: real)

  const GEO_ANCHORS := [
    Anchor("US", 37.7749, -122.4194),
    Anchor("US", 40.7128, -74.0060),
    Anchor("GB", 51.5074, -0.1278),
    Anchor("DE", 52.5200, 13.4050),
    Anchor("JP", 35.6762, 139.6503),
    Anchor("AU", -33.8688, 151.2093),
    Anchor("BR", -23.5505, -46.6333),
    Anchor("ZA", -26.2041, 28.0473)]

  const MERCHANT_CATEGORIES := [
    "grocery", "electronics", "restaurant", "gas_station", "travel",
    "entertainment", "utilities", "clothing", "pharmacy", "online_marketplace"]

  const CHANNEL_LIST := ["online", "in_store", "atm", "mobile"]
  const HEX := "0123456789abcdef"

  datatype Profile = Profile(
    cardId: string,
    userId: string,
    homeCountry: string,
    homeLat: real,
    homeLon: real,
    amountMean: real,
    amountStd: real,
    categories: seq<string>,
    deviceIds: seq<string>)

  predicate GoodAnchor(a: Anchor) {
    |a.country| == 2 && -34.0 <= a.lat <= 53.0 && -123.0 <= a.lon <= 152.0
  }

  lemma AnchorsGood()
    ensures forall i :: 0 <= i < |GEO_ANCHORS| ==> GoodAnchor(GEO_ANCHORS[i])
  {}

  predicate ValidCategory(c: string) {
    1 <= |c| <= 32
  }

  predicate ValidDevice(d: string) {
    |d| == 17
  }

  predicate GoodProfile(p: Profile) {
    && |p.cardId| == 17 && |p.userId| == 17 && |p.homeCountry| == 2
    && -35.0 <= p.homeLat <= 54.0 && -124.0 <= p.homeLon <= 153.0
    && 15.0 <= p.amountMean <= 150.0 && 5.0 <= p.amountStd <= 40.0
    && |p.categories| == 3 && (forall i :: 0 <= i < 3 ==> ValidCategory(p.categories[i]))
    && 1 <= |p.deviceIds| <= 3 && (forall i :: 0 <= i < |p.deviceIds| ==> ValidDevice(p.deviceIds[i]))
  }

  function Digits(n: nat): string {
    if n < 10 then ["0123456789"[n]] else Digits(n / 10) + ["0123456789"[n % 10]]
  }

  lemma FewDigits(n: nat)
    requires n <= 9999
    ensures 1 <= |Digits(n)| <= 4
  {
    var a, b, c := n / 10, n / 100, n / 1000;
    assert a / 10 == b && b / 10 == c && c < 10;
    assert c < 10 ==> |Digits(c)| == 1;
    assert |Digits(b)| <= 2;
    assert |Digits(a)| <= 3;
  }

  function MicrosOf(seconds: real): int {
    (seconds * 1000000.0 + 0.5).Floor
  }

  const MINUTE := 60 * 1000000

  lemma ScaledBounds(x: real, w: real, u: real)
    requires 0.0 <= u <= 1.0 && w >= 0.0
    ensures x <= x + w * u <= x + w
  {
    assert w * u <= w * 1.0 by { TimesMonotone(u, 1.0, w); }
  }

  lemma ScaledFloor(n: nat, u: real)
    requires 0.0 <= u < 1.0 && n > 0
    ensures 0 <= (n as real * u).Floor < n
  {
    TimesStrict(u, 1.0, n as real);
  }

  class TransactionGenerator {
    const lib: Library
    const rng: Randomness
    const edgeCaseRatio: real
    var profiles: seq<Profile>
    var position: nat

    ghost predicate Lawful() {
      IsRandomness(rng) && RoundsToCents(lib)
    }

    ghost predicate Valid()
      reads this
    {
      Lawful() && forall i :: 0 <= i < |profiles| ==> GoodProfile(profiles[i])
    }

    constructor (lib: Library, rng: Randomness, numCardholders: nat, edgeCaseRatio: real)
      requires IsRandomness(rng) && RoundsToCents(lib)
      ensures Valid() && |profiles| == numCardholders
      ensures this.lib == lib && this.rng == rng && this.edgeCaseRatio == edgeCaseRatio
    {
      this.lib, this.rng, this.edgeCaseRatio := lib, rng, edgeCaseRatio;
      profiles, position := [], 0;
      new;
      for i := 0 to numCardholders
        invariant Valid() && |profiles| == i
      {
        var p := BuildProfile();
        profiles := profiles + [p];
      }
    }

    method Random() returns (u: real)
      requires Lawful()
      modifies this`position
      ensures 0.0 <= u < 1.0
    {
      u := rng.draws(position);
      position := position + 1;
    }

    method Uniform(a: real, b: real) returns (x: real)
      requires Lawful() && a <= b
      modifies this`position
      ensures a <= x <= b
    {
      var u := Random();
      var width := b - a;
      x := a + width * u;
      ScaledBounds(a, width, u);
    }

    /** `choice` on a sequence of n elements. */
    method Index(n: nat) returns (i: nat)
      requires Lawful() && n > 0
      modifies this`position
      ensures i < n
    {
      var u := Random();
      ScaledFloor(n, u);
      i := (n as real * u).Floor;
    }

    method RandInt(a: int, b: int) returns (x: int)
      requires Lawful() && a <= b
      modifies this`position
      ensures a <= x <= b
    {
      var i := Index(b - a + 1);
      x := a + i;
    }

    method RandHex(n: nat) returns (s: string)
      requires Lawful()
      modifies this`position
      ensures |s| == n && forall i :: 0 <= i < n ==> s[i] in HEX
    {
      s := "";
      for k := 0 to n
        invariant |s| == k && forall i :: 0 <= i < k ==> s[i] in HEX
      {
        var i := Index(|HEX|);
        s := s + [HEX[i]];
      }
    }

    /** Three distinct positions of the category list. */
    method SampleCategories() returns (picked: seq<string>)
      requires Lawful()
      modifies this`position
      ensures |picked| == 3 && forall i :: 0 <= i < 3 ==> ValidCategory(picked[i])
    {
      var pool := MERCHANT_CATEGORIES;
      assert forall i :: 0 <= i < |pool| ==> ValidCategory(pool[i]);
      picked := [];
      for k := 0 to 3
        invariant |picked| == k && |pool| == 10 - k
        invariant forall i :: 0 <= i < |pool| ==> ValidCategory(pool[i])
        invariant forall i :: 0 <= i < k ==> ValidCategory(picked[i])
      {
        var i := Index(|pool|);
        picked := picked + [pool[i]];
        pool := pool[..i] + pool[i + 1..];
      }
    }

    method BuildProfile() returns (p: Profile)
      requires Lawful()
      modifies this`position
      ensures GoodProfile(p)
    {
      AnchorsGood();
      var a := Index(|GEO_ANCHORS|);
      var anchor := GEO_ANCHORS[a];
      var dLat := Uniform(-0.5, 0.5);
      var dLon := Uniform(-0.5, 0.5);
      var card := RandHex(12);
      var user := RandHex(12);
      var mean := Uniform(15.0, 150.0);
      var std := Uniform(5.0, 40.0);
      var categories := SampleCategories();
      var n := RandInt(1, 3);
      var devices: seq<string> := [];
      for i := 0 to n
        invariant |devices| == i && forall j :: 0 <= j < i ==> ValidDevice(devices[j])
      {
        var hex := RandHex(10);
        devices := devices + ["device_" + hex];
      }
      p := Profile("card_" + card, "user_" + user, anchor.country, anchor.lat + dLat, anchor.lon + dLon,
        mean, std, categories, devices);
    }

    /** A transaction of this profile that the schema accepts. */
    ghost predicate OfProfile(t: Txn, p: Profile, eventTime: int, fraud: bool) {
      MeetsSchema(t) && t.cardId == p.cardId && t.userId == p.userId && t.eventTime == eventTime
      && t.isSimulatedFraud == fraud
    }

    method NormalTransaction(p: Profile, eventTime: int) returns (t: Txn)
      requires Lawful() && GoodProfile(p)
      modifies this`position
      ensures OfProfile(t, p, eventTime, false)
      ensures t.country == p.homeCountry
    {
      var u := Random();
      var z := rng.normal(u);
      var mean, std := p.amountMean, p.amountStd;
      var amount := mean + std * z;
      GaussBound(mean, std, z);
      if amount < 1.0 {
        amount := 1.0;
      }
      var id := RandHex(32);
      var merchant := RandInt(1, 5000);
      FewDigits(merchant);
      var category := Index(3);
      var channel := Index(4);
      var dLat := Uniform(-0.1, 0.1);
      var dLon := Uniform(-0.1, 0.1);
      var device := Index(|p.deviceIds|);
      var cents := lib.round(amount, 2);
      assert -0.005 <= cents - amount <= 0.005;
      assert CHANNEL_LIST[channel] in CHANNELS;
      t := Txn("txn_" + id, p.cardId, p.userId, cents, "USD", "merchant_" + Digits(merchant),
        p.categories[category], "purchase", CHANNEL_LIST[channel],
        p.homeLat + dLat, p.homeLon + dLon, p.homeCountry, Some(p.deviceIds[device]),
        Some(rng.ipv4(position)), eventTime, false);
    }

    /** `model_copy` skips validation; the spiked amount is still within the limits. */
    method HighValueTransaction(p: Profile, eventTime: int) returns (t: Txn)
      requires Lawful() && GoodProfile(p)
      modifies this`position
      ensures OfProfile(t, p, eventTime, true)
      ensures t.amount >= p.amountMean + 15.0 * p.amountStd - 0.005
    {
      var normal := NormalTransaction(p, eventTime);
      var k := Uniform(15.0, 40.0);
      var mean, std := p.amountMean, p.amountStd;
      var spike := mean + std * k;
      SpikeBound(mean, std, k, spike);
      var cents := lib.round(spike, 2);
      assert -0.005 <= cents - spike <= 0.005;
      t := normal.(amount := cents, isSimulatedFraud := true);
    }

    method ImpossibleTravelPair(p: Profile, eventTime: int) returns (pair: seq<Txn>)
      requires Lawful() && GoodProfile(p)
      modifies this`position
      ensures |pair| == 2
      ensures OfProfile(pair[0], p, eventTime, false)
      ensures OfProfile(pair[1], p, pair[1].eventTime, true)
      ensures 2 * MINUTE <= pair[1].eventTime - pair[0].eventTime <= 20 * MINUTE
      ensures pair[1].country != pair[0].country && pair[1].deviceId == pair[0].deviceId
    {
      hide Filter;
      var first := NormalTransaction(p, eventTime);
      var abroad := Filter(GEO_ANCHORS, OutsideOf(p.homeCountry));
      AbroadAnchors(p.homeCountry);
      var i := Index(|abroad|);
      var far := abroad[i];
      var id := RandHex(32);
      var minutes := RandInt(2, 20);
      var second := first.(transactionId := "txn_" + id, latitude := far.lat, longitude := far.lon,
        country := far.country, eventTime := eventTime + minutes * MINUTE, isSimulatedFraud := true);
      pair := [first, second];
    }

    method VelocityAbuseBurst(p: Profile, eventTime: int) returns (txns: seq<Txn>)
      requires Lawful() && GoodProfile(p)
      modifies this`position
      ensures 6 <= |txns| <= 15
      ensures forall i :: 0 <= i < |txns| ==> OfProfile(txns[i], p, txns[i].eventTime, true)
      ensures forall i :: 0 <= i < |txns| ==> eventTime <= txns[i].eventTime <= eventTime + 112 * 1000000
    {
      var size := RandInt(6, 15);
      txns := [];
      for i := 0 to size
        invariant |txns| == i
        invariant forall j :: 0 <= j < i ==> OfProfile(txns[j], p, txns[j].eventTime, true)
        invariant forall j :: 0 <= j < i ==> eventTime <= txns[j].eventTime <= eventTime + 112 * 1000000
      {
        var gap := Uniform(1.0, 8.0);
        var offset := MicrosOf(i as real * gap);
        OffsetBound(i, gap);
        var t := NormalTransaction(p, eventTime + offset);
        txns := txns + [t.(isSimulatedFraud := true)];
      }
    }

    method NewDeviceHighValue(p: Profile, eventTime: int) returns (t: Txn)
      requires Lawful() && GoodProfile(p)
      modifies this`position
      ensures OfProfile(t, p, eventTime, true)
      ensures t.amount >= p.amountMean + 15.0 * p.amountStd - 0.005
      ensures t.deviceId.Some? && "device_" <= t.deviceId.value && |t.deviceId.value| == 17
    {
      var high := HighValueTransaction(p, eventTime);
      var hex := RandHex(10);
      t := high.(deviceId := Some("device_" + hex));
    }

    /** What every emitted transaction satisfies. */
    ghost predicate Emitted(t: Txn, start: int)
      reads this`profiles
    {
      && MeetsSchema(t) && t.eventTime >= start
      && (edgeCaseRatio <= 0.0 ==> !t.isSimulatedFraud)
      && exists i :: 0 <= i < |profiles| && t.cardId == profiles[i].cardId && t.userId == profiles[i].userId
    }

    /** `stream`, run to its end: it stops, having emitted n to n + 14 valid transactions. */
    method Stream(n: int, start: int) returns (out: seq<Txn>)
      requires Valid() && profiles != []
      modifies this`position
      ensures n <= 0 ==> out == []
      ensures n >= 1 ==> n <= |out| <= n + 14
      ensures forall i :: 0 <= i < |out| ==> Emitted(out[i], start)
    {
      out := [];
      var clock := start;
      var emitted := 0;
      while emitted < n
        invariant emitted == |out| && (emitted == 0 || (n >= 1 && emitted <= n + 14))
        invariant clock >= start
        invariant forall i :: 0 <= i < |out| ==> Emitted(out[i], start)
        decreases n - emitted
      {
        var who := Index(|profiles|);
        var profile := profiles[who];
        var ms := Uniform(5.0, 250.0);
        clock := clock + MicrosOf(ms / 1000.0);
        var roll := Random();
        if roll < edgeCaseRatio * 0.35 {
          var burst := VelocityAbuseBurst(profile, clock);
          out, emitted := out + burst, emitted + |burst|;
        } else if roll < edgeCaseRatio * 0.65 {
          var pair := ImpossibleTravelPair(profile, clock);
          out, emitted := out + pair, emitted + |pair|;
        } else if roll < edgeCaseRatio * 0.85 {
          var t := HighValueTransaction(profile, clock);
          out, emitted := out + [t], emitted + 1;
        } else if roll < edgeCaseRatio {
          var t := NewDeviceHighValue(profile, clock);
          out, emitted := out + [t], emitted + 1;
        } else {
          var t := NormalTransaction(profile, clock);
          out, emitted := out + [t], emitted + 1;
        }
      }
    }
  }

  lemma GaussBound(mean: real, std: real, z: real)
    requires mean <= 150.0 && 5.0 <= std <= 40.0 && -9.0 <= z <= 9.0
    ensures mean + std * z <= 510.0
  {
    TimesMonotone(z, 9.0, std);
    AddAtMost(mean, std * z, std * 9.0, 510.0);
  }

  lemma AddAtMost(m: real, x: real, y: real, b: real)
    requires x <= y && m + y <= b
    ensures m + x <= b
  {}

  lemma SpikeBound(mean: real, std: real, k: real, spike: real)
    requires 15.0 <= mean <= 150.0 && 5.0 <= std <= 40.0 && 15.0 <= k <= 40.0
    requires spike == mean + std * k
    ensures mean + 15.0 * std <= spike && 90.0 <= spike <= 1750.0
  {
    TimesMonotone(15.0, k, std);
    TimesMonotone(k, 40.0, std);
    AddAtMost(mean, std * k, std * 40.0, 1750.0);
    AddAtMost(mean, std * 15.0, std * k, spike);
  }

  lemma OffsetBound(i: nat, gap: real)
    requires i < 15 && 1.0 <= gap <= 8.0
    ensures 0 <= MicrosOf(i as real * gap) <= 112 * 1000000
  {
    TimesMonotone(0.0, gap, i as real);
    TimesMonotone(gap, 8.0, i as real);
    AddAtMost(0.0, i as real * gap, i as real * 8.0, 112.0);
    MicrosRange(i as real * gap);
  }

  lemma MicrosRange(seconds: real)
    requires 0.0 <= seconds <= 112.0
    ensures 0 <= MicrosOf(seconds) <= 112 * 1000000
  {}

  function OutsideOf(home: string): Anchor -> bool {
    (a: Anchor) => a.country != home
  }

  /** Whatever the home country, some anchor lies in another one. */
  lemma AbroadAnchors(home: string)
    ensures var abroad := Filter(GEO_ANCHORS, OutsideOf(home));
      abroad != [] && forall i :: 0 <= i < |abroad| ==> GoodAnchor(abroad[i]) && abroad[i].country != home
  {
    FilterMembers(GEO_ANCHORS, OutsideOf(home));
    AnchorsGood();
    var other := if home == "US" then GEO_ANCHORS[2] else GEO_ANCHORS[0];
    assert other in GEO_ANCHORS && OutsideOf(home)(other);
  }
}

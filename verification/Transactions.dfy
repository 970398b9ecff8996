/** The transaction record and its validation (src/common/schemas.py,
    src/feature_engineering/validation.py), and the numeric library calls the
    platform makes, passed around as functions. */
module Transactions {
  import opened Sequences
  import opened Arithmetic

  /** A decoded row and a validated transaction have the same fields. Event
      times are microseconds; amounts and coordinates are exact. */
  datatype Txn = Txn(
    transactionId: string,
    cardId: string,
    userId: string,
    amount: real,
    currency: string,
    merchantId: string,
    merchantCategory: string,
    transactionType: string,
    channel: string,
    latitude: real,
    longitude: real,
    country: string,
    deviceId: Option<string>,
    ipAddress: Option<string>,
    eventTime: int,
    isSimulatedFraud: bool)

  const TRANSACTION_TYPES := {"purchase", "withdrawal", "refund", "transfer"}
  const CHANNELS := {"online", "in_store", "atm", "mobile"}

  /** Library calls the features rest on; `round(x, k)` rounds to k decimals. */
  datatype Library = Library(
    haversineKm: (real, real, real, real) -> real,
    sqrt: real -> real,
    round: (real, nat) -> real)

  ghost predicate RoundIsMonotone(lib: Library) {
    forall x, y, k :: x <= y ==> lib.round(x, k) <= lib.round(y, k)
  }

  /** Rounding to two decimals moves a number by at most half a hundredth. */
  ghost predicate RoundsToCents(lib: Library) {
    forall x :: -0.005 <= lib.round(x, 2) - x <= 0.005
  }

  function Square(x: real): real {
    x * x
  }

  /** What holds of the library calls: a distance is symmetric, never negative and nothing from a
      place to itself; the root of a square; rounding keeps whole numbers and the order. */
  ghost predicate IsLibrary(lib: Library) {
    && (forall lat, lon, lat', lon' :: lib.haversineKm(lat, lon, lat', lon') >= 0.0)
    && (forall lat, lon, lat', lon' ::
         lib.haversineKm(lat, lon, lat', lon') == lib.haversineKm(lat', lon', lat, lon))
    && (forall lat, lon :: lib.haversineKm(lat, lon, lat, lon) == 0.0)
    && (forall x :: x >= 0.0 ==> lib.sqrt(Square(x)) == x)
    && (forall x: real, k :: x.Floor as real == x ==> lib.round(x, k) == x)
    && RoundIsMonotone(lib)
  }

  ghost function Root(y: real): real {
    if exists x :: x >= 0.0 && Square(x) == y then
      var x :| x >= 0.0 && Square(x) == y;
      x
    else 0.0
  }

  lemma RootOfSquare(x: real)
    requires x >= 0.0
    ensures Root(Square(x)) == x
  {
    var r := Root(Square(x));
    assert r >= 0.0 && Square(r) == Square(x);
    SquaresDiffer(r, x);
    SquaresDiffer(x, r);
  }

  lemma SquaresDiffer(x: real, y: real)
    requires x >= 0.0 && y >= 0.0
    ensures x < y ==> Square(x) < Square(y)
  {
    if x < y {
      TimesPositive(y - x, y + x);
      assert (y - x) * (y + x) == y * y - x * x;
    }
  }

  /** The library with this distance, exact roots and no rounding. */
  ghost function LibraryOf(distance: (real, real, real, real) -> real): Library {
    Library(distance, Root, (x, k) => x)
  }

  lemma LibraryMeets(distance: (real, real, real, real) -> real)
    requires forall lat, lon, lat', lon' ::
      distance(lat, lon, lat', lon') >= 0.0 && distance(lat, lon, lat', lon') == distance(lat', lon', lat, lon)
    requires forall lat, lon :: distance(lat, lon, lat, lon) == 0.0
    ensures IsLibrary(LibraryOf(distance))
  {
    forall x | x >= 0.0 ensures LibraryOf(distance).sqrt(Square(x)) == x {
      RootOfSquare(x);
    }
  }

  /** Library functions that meet all of this exist. */
  lemma SomeLibrary() returns (lib: Library)
    ensures IsLibrary(lib)
  {
    lib := LibraryOf((lat, lon, lat', lon') => 0.0);
    LibraryMeets(lib.haversineKm);
  }

  predicate LengthBetween(s: string, lo: nat, hi: nat) {
    lo <= |s| <= hi
  }

  /** The field constraints of the Pydantic model. */
  predicate MeetsSchema(t: Txn) {
    && LengthBetween(t.transactionId, 1, 64)
    && LengthBetween(t.cardId, 1, 64)
    && LengthBetween(t.userId, 1, 64)
    && 0.0 < t.amount <= 1000000.0
    && LengthBetween(t.currency, 3, 3)
    && LengthBetween(t.merchantId, 1, 64)
    && LengthBetween(t.merchantCategory, 1, 32)
    && t.transactionType in TRANSACTION_TYPES
    && t.channel in CHANNELS
    && -90.0 <= t.latitude <= 90.0
    && -180.0 <= t.longitude <= 180.0
    && LengthBetween(t.country, 2, 2)
    && (t.deviceId.Some? ==> |t.deviceId.value| <= 64)
    && (t.ipAddress.Some? ==> |t.ipAddress.value| <= 45)
  }

  function UpperChar(c: char): char {
    if 'a' <= c <= 'z' then 'A' + (c - 'a') else c
  }

  function Upper(s: string): (r: string)
    ensures |r| == |s|
  {
    Map(s, UpperChar)
  }

  /** The field validators: both codes are stored in upper case. */
  function Normalise(row: Txn): Txn {
    row.(currency := Upper(row.currency), country := Upper(row.country))
  }

  /** A code letter by letter in upper case: a lower-case letter becomes its capital, the rest stays. */
  ghost predicate IsUpperOf(upper: string, code: string) {
    |upper| == |code| && forall i :: 0 <= i < |code| ==>
      if 'a' <= code[i] <= 'z' then upper[i] as int == code[i] as int - 32 else upper[i] == code[i]
  }

  /** t is the row with both codes in upper case, and nothing else changed. */
  ghost predicate ComesFrom(t: Txn, row: Txn) {
    && t.(currency := row.currency, country := row.country) == row
    && IsUpperOf(t.currency, row.currency) && IsUpperOf(t.country, row.country)
  }

  /** `validate_row`: the transaction, or nothing. */
  function ValidateRow(row: Txn): (r: Option<Txn>)
    ensures r.Some? <==> MeetsSchema(row)
    ensures r.Some? ==> MeetsSchema(r.value)
    ensures r.Some? ==> ComesFrom(r.value, row)
  {
    if MeetsSchema(row) then Some(Normalise(row)) else None
  }

  function EventTime(t: Txn): real {
    t.eventTime as real
  }

  function Amount(t: Txn): real {
    t.amount
  }

  function OnCard(card: string): Txn -> bool {
    (t: Txn) => t.cardId == card
  }

  /** Appending one transaction lengthens the list of its own card and no other. */
  lemma OnCardSnoc(s: seq<Txn>, t: Txn)
    ensures forall c ::
      Filter(s + [t], OnCard(c)) == if t.cardId == c then Filter(s, OnCard(c)) + [t] else Filter(s, OnCard(c))
  {
    forall c: string
      ensures Filter(s + [t], OnCard(c)) == if t.cardId == c then Filter(s, OnCard(c)) + [t] else Filter(s, OnCard(c))
    {
      FilterSnoc(s, t, OnCard(c));
    }
  }

  lemma OnCardNone()
    ensures forall c :: Filter<Txn>([], OnCard(c)) == []
  {}
}

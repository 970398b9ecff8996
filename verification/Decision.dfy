/** Score routing (src/api/decision.py), the rule-based scorer
    (src/api/fallback.py) and the reason tag of a scored row (src/api/batch.py). */
module Decision {
  import opened Sequences
  import opened Arithmetic
  import opened Transactions
  import opened Features

  datatype Settings = Settings(
    riskHighThreshold: real,
    riskLowThreshold: real,
    reviewBandLow: real,
    reviewBandHigh: real,
    velocityThreshold: int,
    zscoreThreshold: real,
    travelSpeedKmh: real)

  const DEFAULTS := Settings(0.80, 0.20, 0.40, 0.60, 10, 5.0, 900.0)

  datatype RiskLevel = Low | Medium | High
  datatype Verdict = Approve | Review | Block
  datatype RoutingReason = InReviewBand | AtOrAboveHigh | BetweenThresholds | AtOrBelowLow
  datatype Routing = Routing(riskLevel: RiskLevel, decision: Verdict, routedToReview: bool, reason: RoutingReason)

  predicate InBand(score: real, s: Settings) {
    s.reviewBandLow <= score <= s.reviewBandHigh
  }

  function Decide(score: real, s: Settings): Routing {
    var inBand := InBand(score, s);
    var (risk, decision) :=
      if score >= s.riskHighThreshold then (High, Block)
      else if score <= s.riskLowThreshold && !inBand then (Low, Approve)
      else (Medium, Review);
    var routed := if inBand then true else decision != Approve;
    var reason :=
      if inBand then InReviewBand
      else if risk == High then AtOrAboveHigh
      else if risk == Medium then BetweenThresholds
      else AtOrBelowLow;
    Routing(risk, decision, routed, reason)
  }

  /** Whatever the thresholds: blocked means at or above the high one; approved means below it, at or
      below the low one and outside the band; everything else is reviewed. Risk and decision say the
      same thing, exactly the approved rows skip review, and the band is the reason before all others. */
  lemma DecideMeaning(score: real, s: Settings)
    ensures var r := Decide(score, s);
      var inBand := s.reviewBandLow <= score <= s.reviewBandHigh;
      && (r.decision == Block <==> score >= s.riskHighThreshold)
      && (r.decision == Approve <==> score < s.riskHighThreshold && score <= s.riskLowThreshold && !inBand)
      && (r.riskLevel == High <==> r.decision == Block)
      && (r.riskLevel == Low <==> r.decision == Approve)
      && (r.routedToReview <==> r.decision != Approve)
      && (r.reason == InReviewBand <==> inBand)
      && (r.reason == AtOrAboveHigh <==> !inBand && r.decision == Block)
      && (r.reason == BetweenThresholds <==> !inBand && r.decision == Review)
  {}

  /** With the default settings: blocked from 0.8, approved up to 0.2, reviewed in between. */
  lemma DefaultRouting(score: real)
    ensures var r := Decide(score, DEFAULTS);
      && (r.decision == Block <==> score >= 0.8)
      && (r.decision == Approve <==> score <= 0.2)
      && (r.reason == InReviewBand <==> 0.4 <= score <= 0.6)
  {}

  datatype Rule = VelocityRule | AmountRule | TravelRule | NewDeviceRule
  datatype FallbackResult = FallbackResult(score: real, triggered: seq<Rule>)

  predicate Triggers(rule: Rule, fv: FeatureVector, s: Settings) {
    match rule
    case VelocityRule => IsVelocityAbuse(fv, s.velocityThreshold)
    case AmountRule => fv.amountZscore24h >= s.zscoreThreshold
    case TravelRule => IsImpossibleTravel(fv, s.travelSpeedKmh)
    case NewDeviceRule => fv.isNewDevice && fv.avgAmount1h > 0.0
  }

  function Weight(rule: Rule): real {
    match rule
    case VelocityRule => 0.90
    case AmountRule => 0.85
    case TravelRule => 0.95
    case NewDeviceRule => 0.35
  }

  function Fired(rule: Rule, fv: FeatureVector, s: Settings): seq<Rule> {
    if Triggers(rule, fv, s) then [rule] else []
  }

  function FallbackScore(fv: FeatureVector, s: Settings): FallbackResult {
    FallbackResult(
      if Triggers(TravelRule, fv, s) then 0.95
      else if Triggers(VelocityRule, fv, s) then 0.90
      else if Triggers(AmountRule, fv, s) then 0.85
      else if Triggers(NewDeviceRule, fv, s) then 0.35
      else 0.05,
      Fired(VelocityRule, fv, s) + Fired(AmountRule, fv, s) + Fired(TravelRule, fv, s) + Fired(NewDeviceRule, fv, s))
  }

  predicate TravelFires(fv: FeatureVector, s: Settings) {
    fv.impliedSpeedKmh.Some? && fv.impliedSpeedKmh.value > s.travelSpeedKmh
  }

  predicate DeviceFires(fv: FeatureVector) {
    fv.isNewDevice && fv.avgAmount1h > 0.0
  }

  /** The score is the largest weight of the rules that fire: 0.95 for travel, 0.90 for velocity, 0.85
      for an amount and 0.35 for a new device, or 0.05 when none fires. */
  ghost predicate IsRuleScore(score: real, fv: FeatureVector, s: Settings) {
    && (TravelFires(fv, s) ==> score >= 0.95)
    && (fv.velocity5min > s.velocityThreshold ==> score >= 0.90)
    && (fv.amountZscore24h >= s.zscoreThreshold ==> score >= 0.85)
    && (DeviceFires(fv) ==> score >= 0.35)
    && score >= 0.05
    && (|| (score == 0.95 && TravelFires(fv, s))
        || (score == 0.90 && fv.velocity5min > s.velocityThreshold)
        || (score == 0.85 && fv.amountZscore24h >= s.zscoreThreshold)
        || (score == 0.35 && DeviceFires(fv))
        || score == 0.05)
  }

  /** The rules that fire, each once, in the order they are tried. */
  ghost predicate AreRulesFired(rules: seq<Rule>, fv: FeatureVector, s: Settings) {
    && (VelocityRule in rules <==> fv.velocity5min > s.velocityThreshold)
    && (AmountRule in rules <==> fv.amountZscore24h >= s.zscoreThreshold)
    && (TravelRule in rules <==> TravelFires(fv, s))
    && (NewDeviceRule in rules <==> DeviceFires(fv))
    && forall i, j :: 0 <= i < j < |rules| ==> Rank(rules[i]) < Rank(rules[j])
  }

  function Rank(rule: Rule): nat {
    match rule
    case VelocityRule => 0
    case AmountRule => 1
    case TravelRule => 2
    case NewDeviceRule => 3
  }

  /** What the rules say of a vector, on its own fields. */
  lemma RulesLaw(fv: FeatureVector, s: Settings)
    ensures IsRuleScore(FallbackScore(fv, s).score, fv, s)
    ensures AreRulesFired(FallbackScore(fv, s).triggered, fv, s)
  {
    FiredLaw(fv, s);
  }

  ghost predicate RankedBelow(rules: seq<Rule>, k: nat) {
    && (forall i, j :: 0 <= i < j < |rules| ==> Rank(rules[i]) < Rank(rules[j]))
    && (forall i :: 0 <= i < |rules| ==> Rank(rules[i]) < k)
  }

  lemma FiredNext(rules: seq<Rule>, rule: Rule, fv: FeatureVector, s: Settings)
    requires RankedBelow(rules, Rank(rule))
    ensures RankedBelow(rules + Fired(rule, fv, s), Rank(rule) + 1)
    ensures forall x :: x in rules + Fired(rule, fv, s) <==> x in rules || (x == rule && Triggers(rule, fv, s))
  {
    hide Triggers;
  }

  lemma FiredLaw(fv: FeatureVector, s: Settings)
    ensures AreRulesFired(FallbackScore(fv, s).triggered, fv, s)
  {
    hide Triggers, Fired, RankedBelow, TravelFires, DeviceFires;
    RuleConditions(fv, s);
    assert RankedBelow([], 0) by { NothingRanked(); }
    var a := [] + Fired(VelocityRule, fv, s);
    assert a == Fired(VelocityRule, fv, s);
    var b := a + Fired(AmountRule, fv, s);
    var c := b + Fired(TravelRule, fv, s);
    var d := c + Fired(NewDeviceRule, fv, s);
    FiredNext([], VelocityRule, fv, s);
    FiredNext(a, AmountRule, fv, s);
    FiredNext(b, TravelRule, fv, s);
    FiredNext(c, NewDeviceRule, fv, s);
    RankedRules(d);
  }

  lemma NothingRanked()
    ensures RankedBelow([], 0)
  {}

  lemma RankedRules(rules: seq<Rule>)
    requires RankedBelow(rules, 4)
    ensures forall i, j :: 0 <= i < j < |rules| ==> Rank(rules[i]) < Rank(rules[j])
  {}

  lemma RuleConditions(fv: FeatureVector, s: Settings)
    ensures Triggers(VelocityRule, fv, s) <==> fv.velocity5min > s.velocityThreshold
    ensures Triggers(AmountRule, fv, s) <==> fv.amountZscore24h >= s.zscoreThreshold
    ensures Triggers(TravelRule, fv, s) <==> TravelFires(fv, s)
    ensures Triggers(NewDeviceRule, fv, s) <==> DeviceFires(fv)
  {}

  function Max(x: real, y: real): real {
    if x >= y then x else y
  }

  /** The score is the weight of the heaviest rule that fires, or 0.05 when none does. */
  lemma HeaviestRule(fv: FeatureVector, s: Settings)
    ensures var r := FallbackScore(fv, s);
      && r.score >= 0.05
      && (forall rule :: Triggers(rule, fv, s) <==> rule in r.triggered)
      && (forall rule :: Triggers(rule, fv, s) ==> Weight(rule) <= r.score)
      && (r.score == 0.05 || exists rule :: Triggers(rule, fv, s) && Weight(rule) == r.score)
  {
    hide IsVelocityAbuse, IsImpossibleTravel;
    var r := FallbackScore(fv, s);
    forall rule
      ensures Triggers(rule, fv, s) <==> rule in r.triggered
      ensures Triggers(rule, fv, s) ==> Weight(rule) <= r.score
    {
      match rule
      case VelocityRule => case AmountRule => case TravelRule => case NewDeviceRule =>
    }
    assert Triggers(TravelRule, fv, s) || Triggers(VelocityRule, fv, s) || Triggers(AmountRule, fv, s)
      || Triggers(NewDeviceRule, fv, s) || r.score == 0.05;
  }

  /** `RuleBasedFallback.score`. */
  method ScoreByRules(fv: FeatureVector, s: Settings) returns (r: FallbackResult)
    ensures r == FallbackScore(fv, s)
    ensures IsRuleScore(r.score, fv, s) && AreRulesFired(r.triggered, fv, s)
  {
    r := RunRules(fv, s);
    hide FallbackScore, IsRuleScore, AreRulesFired;
    RulesLaw(fv, s);
  }

  /** The rules in turn, each raising the score to its own weight. */
  method RunRules(fv: FeatureVector, s: Settings) returns (r: FallbackResult)
    ensures r == FallbackScore(fv, s)
  {
    hide IsVelocityAbuse, IsImpossibleTravel;
    var triggered: seq<Rule> := [];
    var score := 0.05;
    if IsVelocityAbuse(fv, s.velocityThreshold) {
      triggered := triggered + [VelocityRule];
      score := Max(score, 0.90);
    }
    if fv.amountZscore24h >= s.zscoreThreshold {
      triggered := triggered + [AmountRule];
      score := Max(score, 0.85);
    }
    if IsImpossibleTravel(fv, s.travelSpeedKmh) {
      triggered := triggered + [TravelRule];
      score := Max(score, 0.95);
    }
    if fv.isNewDevice && fv.avgAmount1h > 0.0 {
      score := Max(score, 0.35);
      triggered := triggered + [NewDeviceRule];
    }
    r := FallbackResult(score, triggered);
  }

  datatype ReasonTag = HighVelocity | AmountOutlier | ImpossibleTravel | NewDeviceHighSpend | ModelSignal | NoSignal

  /** `_derive_reason`. */
  function DeriveReason(fv: FeatureVector, decision: Verdict, s: Settings): ReasonTag {
    if IsVelocityAbuse(fv, s.velocityThreshold) then HighVelocity
    else if fv.amountZscore24h >= s.zscoreThreshold then AmountOutlier
    else if IsImpossibleTravel(fv, s.travelSpeedKmh) then ImpossibleTravel
    else if fv.isNewDevice && fv.avgAmount1h > 0.0 && decision != Approve then NewDeviceHighSpend
    else if decision != Approve then ModelSignal
    else NoSignal
  }

  /** The tag names the first of velocity, amount and travel that fires; after them a new device, and
      after that the model, but only on rows that are not approved. */
  lemma ReasonLaw(fv: FeatureVector, decision: Verdict, s: Settings)
    ensures var tag := DeriveReason(fv, decision, s);
      var fast, outlier := fv.velocity5min > s.velocityThreshold, fv.amountZscore24h >= s.zscoreThreshold;
      var travel, device := TravelFires(fv, s), DeviceFires(fv);
      && (tag == HighVelocity <==> fast)
      && (tag == AmountOutlier <==> outlier && !fast)
      && (tag == ImpossibleTravel <==> travel && !fast && !outlier)
      && (tag == NewDeviceHighSpend <==> device && decision != Approve && !fast && !outlier && !travel)
      && (tag == ModelSignal <==> !device && decision != Approve && !fast && !outlier && !travel)
      && (tag == NoSignal <==> decision == Approve && !fast && !outlier && !travel)
  {}

  /** The thresholds under which a rule-scored row's decision and tag cannot disagree.
      They do not ask a new device to reach review; see `NewDeviceReviewed`. */
  predicate Calibrated(s: Settings) {
    && 0.35 < s.riskHighThreshold <= 0.85
    && 0.05 <= s.riskLowThreshold && !InBand(0.05, s)
  }

  /** Blocked exactly for velocity, amount or travel; in review exactly for a new
      device; approved exactly for no signal; and never a model signal. */
  predicate TagAgrees(fv: FeatureVector, s: Settings) {
    var decision := Decide(FallbackScore(fv, s).score, s).decision;
    var tag := DeriveReason(fv, decision, s);
    && (decision == Block <==> tag in {HighVelocity, AmountOutlier, ImpossibleTravel})
    && (decision == Review <==> tag == NewDeviceHighSpend)
    && (decision == Approve <==> tag == NoSignal)
    && tag != ModelSignal
  }

  lemma CalibratedTagsAgree(fv: FeatureVector, s: Settings)
    requires Calibrated(s)
    ensures TagAgrees(fv, s)
  {}

  /** With a velocity threshold of 0 or less every row breaks it, and scores at least 0.90. */
  predicate TagsCalibrated(s: Settings) {
    if s.velocityThreshold <= 0 then s.riskHighThreshold <= 0.90 else Calibrated(s)
  }

  /** A transaction of one card with the history it may be scored against; `late` admits
      events that arrived before it and happened after it. */
  ghost predicate Admissible(h: seq<Txn>, t: Txn, late: bool) {
    MeetsSchema(t) && forall u :: u in h ==>
      MeetsSchema(u) && u.cardId == t.cardId && u.transactionId != t.transactionId
      && (late || u.eventTime <= t.eventTime)
  }

  lemma EveryRowIsFast(lib: Library, h: seq<Txn>, t: Txn, s: Settings)
    requires s.velocityThreshold <= 0
    ensures Triggers(VelocityRule, ComputeFeatures(lib, h, t), s)
    ensures s.riskHighThreshold <= 0.90 ==> TagAgrees(ComputeFeatures(lib, h, t), s)
  {
    hide ComputeFeatures;
    WindowNesting(lib, h, t);
  }

  lemma CalibratedRowAgrees(lib: Library, h: seq<Txn>, t: Txn, s: Settings)
    requires TagsCalibrated(s)
    ensures TagAgrees(ComputeFeatures(lib, h, t), s)
  {
    hide ComputeFeatures, TagAgrees;
    if s.velocityThreshold <= 0 {
      EveryRowIsFast(lib, h, t, s);
    } else {
      CalibratedTagsAgree(ComputeFeatures(lib, h, t), s);
    }
  }

  // ---- Real rows on which a chosen rule fires ----

  function Purchase(id: string, at: int, amount: real, device: string): Txn {
    Txn(id, "card", "user", amount, "USD", "merchant", "grocery", "purchase", "online", 0.0, 0.0, "US",
      Some(device), None, at, false)
  }

  /** A whole number above the z-score threshold, and above its negation. */
  function Spread(s: Settings): int {
    (if s.zscoreThreshold >= 0.0 then s.zscoreThreshold else -s.zscoreThreshold).Floor + 1
  }

  lemma SpreadBounds(s: Settings)
    ensures Spread(s) >= 1
    ensures -(Spread(s) as real) < s.zscoreThreshold < Spread(s) as real
  {}

  /** Two purchases on one device, two and three hours before, whose amounts are 2 - 1/n and 2 + 1/n. */
  function Pair(s: Settings): seq<Txn>
  {
    SpreadBounds(s);
    var d := 1.0 / Spread(s) as real;
    [Purchase("a", -3 * ONE_HOUR, 2.0 - d, "phone"), Purchase("b", -2 * ONE_HOUR, 2.0 + d, "phone")]
  }

  /** A purchase that happens a second after the row: no speed is measured from it. */
  const LATE := Purchase("late", MICROS, 2.0, "phone")

  function Before(s: Settings): seq<Txn> {
    Pair(s) + if s.travelSpeedKmh < 0.0 then [LATE] else []
  }

  function Now(amount: real, device: string): Txn {
    Purchase("now", 0, amount, device)
  }

  lemma BeforeAdmissible(s: Settings, late: bool, amount: real, device: string)
    requires late || s.travelSpeedKmh >= 0.0
    requires 0.0 < amount <= 10.0 && |device| <= 64
    ensures Admissible(Before(s), Now(amount, device), late)
    ensures forall u :: u in Before(s) ==> u.transactionId != "now"
  {
    SpreadBounds(s);
    ShareOfOne(Spread(s) as real);
    assert "a"[0] == 'a' && "b"[0] == 'b' && "late"[0] == 'l' && "now"[0] == 'n';
  }

  lemma BeforeWindows(s: Settings, amount: real, device: string)
    ensures var now := Now(amount, device);
      && Filter(Before(s), Recent(now, FIVE_MINUTES)) == []
      && Filter(Before(s), Recent(now, ONE_HOUR)) == []
      && Filter(Before(s), Recent(now, ONE_DAY)) == Pair(s)
  {
    var now := Now(amount, device);
    assert "a"[0] == 'a' && "b"[0] == 'b' && "now"[0] == 'n';
    FilterNone(Before(s), Recent(now, FIVE_MINUTES));
    FilterNone(Before(s), Recent(now, ONE_HOUR));
    FilterAll(Pair(s), Recent(now, ONE_DAY));
    FilterSnoc(Pair(s), LATE, Recent(now, ONE_DAY));
    assert Pair(s) + [] == Pair(s);
  }

  /** The amounts average 2 and deviate by 1/n, so an amount x is n(x - 2) deviations away. */
  lemma PairZscore(lib: Library, s: Settings, amount: real)
    requires IsLibrary(lib)
    ensures Zscore(lib, Map(Pair(s), Amount), amount) == (amount - 2.0) * Spread(s) as real
  {
    hide Spread, Square;
    SpreadBounds(s);
    var n := Spread(s) as real;
    var d := 1.0 / n;
    DivFraction(amount - 2.0, n);
    PairMoments(d);
    assert Map(Pair(s), Amount) == [2.0 - d, 2.0 + d];
  }

  lemma PairMoments(d: real)
    ensures Mean([2.0 - d, 2.0 + d]) == 2.0
    ensures Mean(Map([2.0 - d, 2.0 + d], SquaredDistanceFrom(2.0))) == Square(d)
  {
    hide Sum, Map;
    SumOfTwo(2.0 - d, 2.0 + d);
    Squares(d);
    assert Map([2.0 - d, 2.0 + d], SquaredDistanceFrom(2.0)) == [Square(d), Square(d)];
    SumOfTwo(Square(d), Square(d));
  }

  lemma Squares(d: real)
    ensures SquaredDistanceFrom(2.0)(2.0 - d) == Square(d)
    ensures SquaredDistanceFrom(2.0)(2.0 + d) == Square(d)
  {}

  lemma SumOfTwo(x: real, y: real)
    ensures Sum([x, y]) == x + y
  {
    assert [x, y][1..] == [y] && [y][1..] == [];
    assert Sum([y]) == y + Sum([]);
  }

  lemma BeforeSlow(lib: Library, s: Settings, amount: real, device: string)
    requires IsLibrary(lib)
    ensures !IsImpossibleTravel(ComputeFeatures(lib, Before(s), Now(amount, device)), s.travelSpeedKmh)
  {
    hide ComputeFeatures, Filter;
    var now := Now(amount, device);
    assert "a"[0] == 'a' && "b"[0] == 'b' && "late"[0] == 'l' && "now"[0] == 'n';
    FilterAll(Before(s), OtherThan("now"));
    var last := PlaceMeaning(lib, Before(s), now);
    if s.travelSpeedKmh < 0.0 {
      assert LATE in Before(s);
      assert last.value.eventTime >= LATE.eventTime;
    } else {
      assert last.value in Before(s);
      assert Distance(lib, last.value, now) == 0.0;
      assert SecondsSince(last.value, now) > 0.0;
    }
  }

  lemma BeforeDevices(lib: Library, s: Settings, amount: real, device: string)
    requires device == "phone" || device == "tablet"
    ensures ComputeFeatures(lib, Before(s), Now(amount, device)).isNewDevice <==> device == "tablet"
  {
    hide ComputeFeatures, Filter;
    var now := Now(amount, device);
    assert "a"[0] == 'a' && "b"[0] == 'b' && "late"[0] == 'l' && "now"[0] == 'n';
    assert "phone"[0] == 'p' && "tablet"[0] == 't';
    FilterAll(Before(s), OtherThan("now"));
    SetMeaning(lib, Before(s), now);
    assert Pair(s)[0] in Before(s);
  }

  /** Which rules fire on the row: the amount rule for an amount of 3 and not for 1, the
      device rule for the other device, velocity only for thresholds below 1, travel never. */
  lemma RowRules(lib: Library, s: Settings, amount: real, device: string)
    requires IsLibrary(lib) && s.velocityThreshold >= 1
    requires (amount == 1.0 || amount == 3.0) && (device == "phone" || device == "tablet")
    ensures var fv := ComputeFeatures(lib, Before(s), Now(amount, device));
      && !Triggers(VelocityRule, fv, s) && !Triggers(TravelRule, fv, s)
      && (Triggers(AmountRule, fv, s) <==> amount == 3.0)
      && (Triggers(NewDeviceRule, fv, s) <==> device == "tablet")
  {
    hide ComputeFeatures, Before, Pair, Zscore, Spread, IsLibrary;
    var now := Now(amount, device);
    WholeKept(lib);
    FeatureMeaning(lib, Before(s), now);
    BeforeWindows(s, amount, device);
    SpreadBounds(s);
    PairZscore(lib, s, amount);
    BeforeSlow(lib, s, amount, device);
    BeforeDevices(lib, s, amount, device);
    var fv := ComputeFeatures(lib, Before(s), now);
    var n := Spread(s);
    assert RecentAmounts(Before(s), now, ONE_HOUR) == [];
    assert fv.avgAmount1h == lib.round(amount, 2) == amount;
    if amount == 3.0 {
      assert fv.amountZscore24h == lib.round(n as real, 4) == n as real;
    } else {
      assert fv.amountZscore24h == lib.round((-n) as real, 4) == (-n) as real;
    }
  }

  lemma WholeKept(lib: Library)
    requires IsLibrary(lib)
    ensures forall x: real, k :: x.Floor as real == x ==> lib.round(x, k) == x
  {}

  lemma RowsShow(lib: Library, s: Settings)
    requires IsLibrary(lib) && s.velocityThreshold >= 1
    ensures
      (&& TagAgrees(ComputeFeatures(lib, Before(s), Now(3.0, "phone")), s)
       && TagAgrees(ComputeFeatures(lib, Before(s), Now(1.0, "tablet")), s)
       && TagAgrees(ComputeFeatures(lib, Before(s), Now(1.0, "phone")), s))
      ==> Calibrated(s)
  {
    hide ComputeFeatures, Before;
    RowRules(lib, s, 3.0, "phone");
    RowRules(lib, s, 1.0, "tablet");
    RowRules(lib, s, 1.0, "phone");
  }

  lemma FirstRowShows(lib: Library, s: Settings)
    requires s.velocityThreshold <= 0
    ensures TagAgrees(ComputeFeatures(lib, [], Now(1.0, "phone")), s) ==> s.riskHighThreshold <= 0.90
  {
    hide ComputeFeatures;
    EveryRowIsFast(lib, [], Now(1.0, "phone"), s);
    var last := PlaceMeaning(lib, [], Now(1.0, "phone"));
  }

  /** For every rule-scored row the platform can compute to agree with its tag, the thresholds
      must be calibrated, and that is enough. */
  lemma TagAgreementExact(lib: Library, s: Settings, late: bool)
    requires IsLibrary(lib) && (late || s.travelSpeedKmh >= 0.0)
    ensures (forall h, t :: Admissible(h, t, late) ==> TagAgrees(ComputeFeatures(lib, h, t), s)) <==> TagsCalibrated(s)
  {
    hide ComputeFeatures, TagAgrees, Before, Admissible;
    forall h, t ensures TagsCalibrated(s) ==> TagAgrees(ComputeFeatures(lib, h, t), s) {
      if TagsCalibrated(s) { CalibratedRowAgrees(lib, h, t, s); }
    }
    BeforeAdmissible(s, late, 3.0, "phone");
    BeforeAdmissible(s, late, 1.0, "tablet");
    BeforeAdmissible(s, late, 1.0, "phone");
    assert Admissible([], Now(1.0, "phone"), late) by { FirstAdmissible(late); }
    if forall h, t :: Admissible(h, t, late) ==> TagAgrees(ComputeFeatures(lib, h, t), s) {
      if s.velocityThreshold <= 0 {
        FirstRowShows(lib, s);
      } else {
        RowsShow(lib, s);
      }
    }
  }

  lemma FirstAdmissible(late: bool)
    ensures Admissible([], Now(1.0, "phone"), late)
  {}

  ghost predicate OnlyFires(rule: Rule, fv: FeatureVector, s: Settings) {
    forall r :: Triggers(r, fv, s) <==> r == rule
  }

  /** Rows on which the new device is all there is exist, unless the velocity rule fires on every row. */
  lemma NewDeviceAlone(lib: Library, s: Settings, late: bool)
    requires IsLibrary(lib) && (late || s.travelSpeedKmh >= 0.0)
    ensures (exists h, t :: Admissible(h, t, late) && OnlyFires(NewDeviceRule, ComputeFeatures(lib, h, t), s))
      <==> s.velocityThreshold >= 1
  {
    hide ComputeFeatures, Before, Admissible;
    if s.velocityThreshold >= 1 {
      BeforeAdmissible(s, late, 1.0, "tablet");
      RowRules(lib, s, 1.0, "tablet");
      var fv := ComputeFeatures(lib, Before(s), Now(1.0, "tablet"));
      assert OnlyFires(NewDeviceRule, fv, s) by {
        assert !Triggers(AmountRule, fv, s);
      }
    } else {
      forall h, t ensures !OnlyFires(NewDeviceRule, ComputeFeatures(lib, h, t), s) {
        EveryRowIsFast(lib, h, t, s);
      }
    }
  }

  /** A new device on its own reaches review exactly when its 0.35 is above the low
      threshold or in the band, and below the high one: with the defaults it does,
      although the comment in the source says it does not. */
  lemma NewDeviceReviewed(fv: FeatureVector, s: Settings)
    requires OnlyFires(NewDeviceRule, fv, s)
    ensures Decide(FallbackScore(fv, s).score, s).decision == Review <==>
      0.35 < s.riskHighThreshold && (s.riskLowThreshold < 0.35 || InBand(0.35, s))
    ensures s == DEFAULTS ==> Calibrated(s) && Decide(FallbackScore(fv, s).score, s).decision == Review
  {
    assert Triggers(NewDeviceRule, fv, s) && !Triggers(TravelRule, fv, s)
      && !Triggers(VelocityRule, fv, s) && !Triggers(AmountRule, fv, s);
  }
}

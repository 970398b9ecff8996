/** The review queue as a state machine: any interleaving of `/score` and
    `/review/{id}/feedback` calls, each of which may crash between its writes
    (src/api/routes/score.py, src/api/routes/review.py). */
module ReviewQueue {
  import opened Sequences
  import opened Transactions
  import opened Features
  import opened Decision
  import opened Postgres
  import S = Scoring

  /** A `/score` call between its two writes. */
  datatype OpenScore = OpenScore(predictionId: nat, transactionId: string, score: real, riskLevel: RiskLevel)

  /** A feedback call that has found its case and not yet written. */
  datatype OpenFeedback = OpenFeedback(caseId: nat, transactionId: string, analystId: string, verdict: string)

  datatype State = State(db: Tables, scoring: seq<OpenScore>, labelling: seq<OpenFeedback>)

  const INITIAL := State(Tables([], [], []), [], [])

  datatype Step =
    | WritePrediction(newId: nat, txn: Txn, result: S.ScoringResult)
    | CreateCase(call: nat, newId: nat)
    | CrashScore(call: nat)
    | FindCaseForFeedback(caseId: nat, analystId: string, verdict: string)
    | WriteFeedback(call: nat, newId: nat, now: int)
    | CrashFeedback(call: nat)

  predicate FreshId<T>(s: seq<T>, id: nat, idOf: T -> nat) {
    forall i :: 0 <= i < |s| ==> idOf(s[i]) != id
  }

  function PredictionOf(id: nat, txn: Txn, r: S.ScoringResult): Prediction {
    Prediction(id, txn.transactionId, txn.cardId, r.vector, r.score, r.routing.riskLevel,
      r.routing.decision, r.routing.routedToReview)
  }

  /** One step; nothing when the step is not enabled. Row ids are fresh (uuid4), and
      the request schema admits the four analyst labels only. */
  function Apply(st: State, step: Step): Option<State> {
    match step
    case WritePrediction(id, txn, r) =>
      if !FreshId(st.db.predictions, id, PredictionId) then None
      else
        var db := PredictionWritten(st.db, PredictionOf(id, txn, r));
        Some(State(db,
          if r.routing.routedToReview then
            st.scoring + [OpenScore(id, txn.transactionId, r.score, r.routing.riskLevel)]
          else st.scoring,
          st.labelling))
    case CreateCase(k, id) =>
      if k >= |st.scoring| || !FreshId(st.db.cases, id, CaseId) then None
      else
        var o := st.scoring[k];
        var c := NewCase(id, o.predictionId, o.transactionId, o.score, o.riskLevel);
        Some(State(CaseCreated(st.db, c), Without(st.scoring, k), st.labelling))
    case CrashScore(k) =>
      if k >= |st.scoring| then None else Some(st.(scoring := Without(st.scoring, k)))
    case FindCaseForFeedback(id, analyst, verdict) =>
      var found := FindCase(st.db, id);
      if found.None? || !IsLabel(verdict) then None
      else Some(st.(labelling := st.labelling + [OpenFeedback(id, found.value.transactionId, analyst, verdict)]))
    case WriteFeedback(k, id, now) =>
      if k >= |st.labelling| then None
      else
        var o := st.labelling[k];
        var f := Feedback(id, o.caseId, o.transactionId, o.analystId, o.verdict, now);
        Some(State(FeedbackSubmitted(st.db, f), st.scoring, Without(st.labelling, k)))
    case CrashFeedback(k) =>
      if k >= |st.labelling| then None else Some(st.(labelling := Without(st.labelling, k)))
  }

  function Run(st: State, steps: seq<Step>): Option<State>
    decreases |steps|
  {
    if steps == [] then Some(st)
    else match Apply(st, steps[0])
      case None => None
      case Some(next) => Run(next, steps[1..])
  }

  // ---- The routes themselves ----

  /** `POST /score`: the prediction row first, then a case when the routing asks for one. */
  method ScoreRoute(lib: Library, models: S.ModelState, pg: PostgresClient, txn: Txn, predictionId: nat, caseId: nat)
    returns (result: S.ScoringResult, openedCase: Option<nat>)
    modifies pg`predictions, pg`cases
    ensures result == S.LiveScore(lib, models.model, models.settings, models.featureStore.View(), txn)
    ensures openedCase == if result.routing.routedToReview then Some(caseId) else None
    ensures pg.Queue() == Scored(old(pg.Queue()), txn, result, predictionId, caseId)
    ensures var n := |old(pg.predictions)|;
      && |pg.predictions| == n + 1 && pg.predictions[..n] == old(pg.predictions)
      && pg.predictions[n].id == predictionId && Stores(pg.predictions[n], txn, result)
    ensures !result.routing.routedToReview ==> pg.cases == old(pg.cases)
    ensures result.routing.routedToReview ==>
      pg.cases == old(pg.cases) + [ReviewCase(
        caseId, predictionId, txn.transactionId, result.score, result.routing.riskLevel, Pending, None, None)]
  {
    hide S.LiveScore, S.IsScored, AreRulesFired, Decide;
    result := models.ScoreTransaction(lib, txn);
    var id := pg.WritePrediction(PredictionOf(predictionId, txn, result));
    openedCase := None;
    if result.routing.routedToReview {
      var c := pg.CreateReviewCase(caseId, id, txn.transactionId, result.score, result.routing.riskLevel);
      openedCase := Some(c);
    }
  }

  /** The stored row is about this transaction and holds its vector, score and routing as computed. */
  ghost predicate Stores(p: Prediction, txn: Txn, r: S.ScoringResult) {
    && p.transactionId == txn.transactionId && p.cardId == txn.cardId
    && p.inputFeatures == r.vector && p.score == r.score
    && p.riskLevel == r.routing.riskLevel && p.decision == r.routing.decision
    && p.routedToReview == r.routing.routedToReview
  }

  function Scored(db: Tables, txn: Txn, r: S.ScoringResult, predictionId: nat, caseId: nat): Tables {
    var written := PredictionWritten(db, PredictionOf(predictionId, txn, r));
    if r.routing.routedToReview then
      CaseCreated(written, NewCase(caseId, predictionId, txn.transactionId, r.score, r.routing.riskLevel))
    else written
  }

  /** `POST /review/{id}/feedback`: 404 exactly when the case does not exist, and then nothing is written. */
  method FeedbackRoute(pg: PostgresClient, caseId: nat, analystId: string, verdict: string, newId: nat, now: int)
    returns (feedbackId: Option<nat>)
    modifies pg`feedback, pg`cases
    ensures feedbackId.None? <==> FindCase(old(pg.Queue()), caseId).None?
    ensures feedbackId.None? ==> pg.Queue() == old(pg.Queue())
    ensures feedbackId.Some? ==> pg.Queue() == FeedbackSubmitted(old(pg.Queue()),
      Feedback(newId, caseId, FindCase(old(pg.Queue()), caseId).value.transactionId, analystId, verdict, now))
  {
    var c := pg.GetReviewCase(caseId);
    if c.None? {
      return None;
    }
    var id := pg.SubmitFeedback(Feedback(newId, caseId, c.value.transactionId, analystId, verdict, now));
    feedbackId := Some(id);
  }

  /** An undisturbed call is a run of the machine below: its steps, one after the other. */
  lemma ScoreIsARun(db: Tables, txn: Txn, r: S.ScoringResult, predictionId: nat, caseId: nat)
    requires FreshId(db.predictions, predictionId, PredictionId) && FreshId(db.cases, caseId, CaseId)
    ensures var second := if r.routing.routedToReview then [CreateCase(0, caseId)] else [];
      var steps := [WritePrediction(predictionId, txn, r)] + second;
      Run(State(db, [], []), steps) == Some(State(Scored(db, txn, r, predictionId, caseId), [], []))
  {
    var first := WritePrediction(predictionId, txn, r);
    var st := State(db, [], []);
    var next := Apply(st, first).value;
    if r.routing.routedToReview {
      assert [first, CreateCase(0, caseId)][1..] == [CreateCase(0, caseId)];
      assert [CreateCase(0, caseId)][1..] == [];
      assert next.scoring == [OpenScore(predictionId, txn.transactionId, r.score, r.routing.riskLevel)];
      assert Without(next.scoring, 0) == [];
      assert Run(next, [CreateCase(0, caseId)]) == Run(Apply(next, CreateCase(0, caseId)).value, []);
    } else {
      assert [first][1..] == [];
    }
  }

  lemma FeedbackIsARun(db: Tables, caseId: nat, analystId: string, verdict: string, newId: nat, now: int)
    requires FindCase(db, caseId).Some? && IsLabel(verdict)
    ensures var f := Feedback(newId, caseId, FindCase(db, caseId).value.transactionId, analystId, verdict, now);
      Run(State(db, [], []), [FindCaseForFeedback(caseId, analystId, verdict), WriteFeedback(0, newId, now)])
      == Some(State(FeedbackSubmitted(db, f), [], []))
  {
    var steps := [FindCaseForFeedback(caseId, analystId, verdict), WriteFeedback(0, newId, now)];
    var next := Apply(State(db, [], []), steps[0]).value;
    assert steps[1..] == [steps[1]] && [steps[1]][1..] == [];
    assert Without(next.labelling, 0) == [];
    assert Run(next, [steps[1]]) == Run(Apply(next, steps[1]).value, []);
  }

  // ---- The invariant ----

  ghost predicate DistinctBy<T>(s: seq<T>, idOf: T -> nat) {
    forall i, j :: 0 <= i < j < |s| ==> idOf(s[i]) != idOf(s[j])
  }

  function CasePrediction(c: ReviewCase): nat { c.predictionId }
  function OpenPrediction(o: OpenScore): nat { o.predictionId }

  /** A routed prediction with this id, transaction, score and risk level is stored. */
  ghost predicate Backed(predictions: seq<Prediction>, id: nat, transactionId: string, score: real,
                         riskLevel: RiskLevel)
  {
    exists i :: 0 <= i < |predictions| && predictions[i].id == id && predictions[i].routedToReview
      && predictions[i].transactionId == transactionId && predictions[i].score == score
      && predictions[i].riskLevel == riskLevel
  }

  ghost predicate CasesBacked(st: State) {
    && DistinctBy(st.db.predictions, PredictionId)
    && (forall c :: c in st.db.cases ==>
         Backed(st.db.predictions, c.predictionId, c.transactionId, c.score, c.riskLevel))
    && (forall o :: o in st.scoring ==>
         Backed(st.db.predictions, o.predictionId, o.transactionId, o.score, o.riskLevel))
  }

  ghost predicate OneCaseEach(st: State) {
    && DistinctBy(st.db.cases, CaseId)
    && DistinctBy(st.db.cases, CasePrediction)
    && DistinctBy(st.scoring, OpenPrediction)
    && (forall c, o :: c in st.db.cases && o in st.scoring ==> c.predictionId != o.predictionId)
  }

  ghost predicate HasCase(cases: seq<ReviewCase>, id: nat, transactionId: string) {
    exists i :: 0 <= i < |cases| && cases[i].id == id && cases[i].transactionId == transactionId
  }

  ghost predicate HasFeedback(feedback: seq<Feedback>, caseId: nat) {
    exists i :: 0 <= i < |feedback| && feedback[i].caseId == caseId
  }

  ghost predicate FeedbackLinked(st: State) {
    && (forall f :: f in st.db.feedback ==> HasCase(st.db.cases, f.caseId, f.transactionId) && IsLabel(f.verdict))
    && (forall o :: o in st.labelling ==> HasCase(st.db.cases, o.caseId, o.transactionId) && IsLabel(o.verdict))
  }

  ghost predicate ResolvedIffLabelled(st: State) {
    forall c :: c in st.db.cases ==>
      && (c.status == Resolved <==> HasFeedback(st.db.feedback, c.id))
      && (c.status == Pending || c.status == Resolved)
      && (c.status == Resolved <==> c.assignedAnalyst.Some?)
      && (c.status == Resolved <==> c.resolvedAt.Some?)
  }

  ghost predicate Invariant(st: State) {
    CasesBacked(st) && OneCaseEach(st) && FeedbackLinked(st) && ResolvedIffLabelled(st)
  }

  // ---- Preservation ----

  lemma BackedGrows(ps: seq<Prediction>, p: Prediction, id: nat, t: string, score: real, risk: RiskLevel)
    requires Backed(ps, id, t, score, risk)
    ensures Backed(ps + [p], id, t, score, risk)
  {
    var i :| 0 <= i < |ps| && ps[i].id == id && ps[i].routedToReview
      && ps[i].transactionId == t && ps[i].score == score && ps[i].riskLevel == risk;
    assert (ps + [p])[i] == ps[i];
  }

  lemma {:induction false} WritePredictionKeeps(st: State, id: nat, txn: Txn, r: S.ScoringResult)
    requires Invariant(st) && FreshId(st.db.predictions, id, PredictionId)
    ensures Invariant(Apply(st, WritePrediction(id, txn, r)).value)
  {
    var p := PredictionOf(id, txn, r);
    var next := Apply(st, WritePrediction(id, txn, r)).value;
    var ps := st.db.predictions;
    forall c | c in st.db.cases ensures Backed(ps + [p], c.predictionId, c.transactionId, c.score, c.riskLevel) {
      BackedGrows(ps, p, c.predictionId, c.transactionId, c.score, c.riskLevel);
    }
    forall o | o in st.scoring
      ensures Backed(ps + [p], o.predictionId, o.transactionId, o.score, o.riskLevel) && o.predictionId != id
    {
      BackedGrows(ps, p, o.predictionId, o.transactionId, o.score, o.riskLevel);
    }
    forall c | c in st.db.cases ensures c.predictionId != id {
      assert Backed(ps, c.predictionId, c.transactionId, c.score, c.riskLevel);
    }
    if r.routing.routedToReview {
      assert (ps + [p])[|ps|] == p;
      assert Backed(ps + [p], id, txn.transactionId, r.score, r.routing.riskLevel);
      var pending := OpenScore(id, txn.transactionId, r.score, r.routing.riskLevel);
      assert forall o :: o in next.scoring ==> o in st.scoring || o == pending;
    }
    assert CasesBacked(next);
    assert OneCaseEach(next);
  }

  lemma HasCaseGrows(cases: seq<ReviewCase>, c: ReviewCase)
    ensures forall id, t :: HasCase(cases, id, t) ==> HasCase(cases + [c], id, t)
  {
    forall id: nat, t: string | HasCase(cases, id, t) ensures HasCase(cases + [c], id, t) {
      var i :| 0 <= i < |cases| && cases[i].id == id && cases[i].transactionId == t;
      assert (cases + [c])[i] == cases[i];
    }
  }

  lemma {:induction false} CreateCaseKeeps(st: State, k: nat, id: nat)
    requires Invariant(st) && k < |st.scoring| && FreshId(st.db.cases, id, CaseId)
    ensures Invariant(Apply(st, CreateCase(k, id)).value)
  {
    var o := st.scoring[k];
    var c := NewCase(id, o.predictionId, o.transactionId, o.score, o.riskLevel);
    var next := Apply(st, CreateCase(k, id)).value;
    assert o in st.scoring;
    WithoutMembers(st.scoring, k);
    HasCaseGrows(st.db.cases, c);
    assert forall d :: d in next.db.cases ==> d in st.db.cases || d == c;
    assert CasesBacked(next);
    forall i | 0 <= i < |st.db.cases| ensures st.db.cases[i].predictionId != o.predictionId {
      assert st.db.cases[i] in st.db.cases;
    }
    forall i | 0 <= i < |next.scoring| ensures next.scoring[i].predictionId != o.predictionId {
      var j := if i < k then i else i + 1;
      assert next.scoring[i] == st.scoring[j] && OpenPrediction(st.scoring[j]) != OpenPrediction(st.scoring[k]);
    }
    assert OneCaseEach(next);
    assert FeedbackLinked(next);
    forall i | 0 <= i < |st.db.feedback| ensures st.db.feedback[i].caseId != id {
      assert st.db.feedback[i] in st.db.feedback;
    }
    assert !HasFeedback(st.db.feedback, id);
  }

  lemma FindCaseMeaning(db: Tables, id: nat)
    ensures FindCase(db, id).Some? ==> HasCase(db.cases, id, FindCase(db, id).value.transactionId)
    ensures FindCase(db, id).None? <==> FreshId(db.cases, id, CaseId)
  {
    FilterMembers(db.cases, IsCase(id));
    if FindCase(db, id).Some? {
      var c := FindCase(db, id).value;
      var i :| 0 <= i < |db.cases| && db.cases[i] == c;
    } else {
      forall i | 0 <= i < |db.cases| ensures CaseId(db.cases[i]) != id {
        assert db.cases[i] !in Filter(db.cases, IsCase(id));
      }
    }
  }

  /** Resolving a case leaves every case its id, its prediction and its transaction. */
  lemma ResolveKeepsLinks(cases: seq<ReviewCase>, f: Feedback)
    ensures var after := Map(cases, Resolve(f));
      && (DistinctBy(cases, CaseId) ==> DistinctBy(after, CaseId))
      && (DistinctBy(cases, CasePrediction) ==> DistinctBy(after, CasePrediction))
      && (forall id, t :: HasCase(cases, id, t) ==> HasCase(after, id, t))
  {
    var after := Map(cases, Resolve(f));
    forall id: nat, t: string | HasCase(cases, id, t) ensures HasCase(after, id, t) {
      var i :| 0 <= i < |cases| && cases[i].id == id && cases[i].transactionId == t;
      assert after[i].id == id && after[i].transactionId == t;
    }
  }

  lemma ResolvedCases(cases: seq<ReviewCase>, f: Feedback, c: ReviewCase) returns (d: ReviewCase)
    requires c in Map(cases, Resolve(f))
    ensures d in cases && c == Resolve(f)(d)
  {
    var i :| 0 <= i < |cases| && Map(cases, Resolve(f))[i] == c;
    d := cases[i];
  }

  lemma {:induction false} WriteFeedbackKeeps(st: State, k: nat, id: nat, now: int)
    requires Invariant(st) && k < |st.labelling|
    ensures Invariant(Apply(st, WriteFeedback(k, id, now)).value)
  {
    hide Map, Backed, HasCase, HasFeedback, DistinctBy;
    var o := st.labelling[k];
    var f := Feedback(id, o.caseId, o.transactionId, o.analystId, o.verdict, now);
    var next := Apply(st, WriteFeedback(k, id, now)).value;
    assert next.db == FeedbackSubmitted(st.db, f) && next.scoring == st.scoring;
    assert o in st.labelling;
    WithoutMembers(st.labelling, k);
    ResolveKeepsLinks(st.db.cases, f);
    forall c | c in next.db.cases
      ensures Backed(st.db.predictions, c.predictionId, c.transactionId, c.score, c.riskLevel)
      ensures forall s :: s in st.scoring ==> c.predictionId != s.predictionId
      ensures c.status == Resolved <==> HasFeedback(next.db.feedback, c.id)
      ensures c.status == Pending || c.status == Resolved
      ensures (c.status == Resolved <==> c.assignedAnalyst.Some?) && (c.status == Resolved <==> c.resolvedAt.Some?)
    {
      var d := ResolvedCases(st.db.cases, f, c);
      FeedbackGrows(st.db.feedback, f, d.id);
    }
    assert CasesBacked(next) && OneCaseEach(next);
    assert FeedbackLinked(next) && ResolvedIffLabelled(next);
  }

  lemma FeedbackGrows(feedback: seq<Feedback>, f: Feedback, id: nat)
    ensures HasFeedback(feedback + [f], id) <==> HasFeedback(feedback, id) || f.caseId == id
  {
    if HasFeedback(feedback, id) {
      var i :| 0 <= i < |feedback| && feedback[i].caseId == id;
      assert (feedback + [f])[i].caseId == id;
    }
    if f.caseId == id {
      assert (feedback + [f])[|feedback|].caseId == id;
    }
  }

  lemma CrashScoreKeeps(st: State, k: nat)
    requires Invariant(st) && k < |st.scoring|
    ensures Invariant(Apply(st, CrashScore(k)).value)
  {
    hide Backed, FeedbackLinked, ResolvedIffLabelled;
    WithoutMembers(st.scoring, k);
    var next := Apply(st, CrashScore(k)).value;
    assert FeedbackLinked(next) && ResolvedIffLabelled(next) by {
      SameLinks(st, next);
    }
  }

  lemma SameLinks(st: State, next: State)
    requires next.db == st.db
    requires forall o :: o in next.labelling ==>
      o in st.labelling || (HasCase(st.db.cases, o.caseId, o.transactionId) && IsLabel(o.verdict))
    ensures FeedbackLinked(st) ==> FeedbackLinked(next)
    ensures ResolvedIffLabelled(st) ==> ResolvedIffLabelled(next)
  {}

  lemma SameCalls(st: State, next: State)
    requires next.db == st.db && next.scoring == st.scoring
    ensures CasesBacked(st) ==> CasesBacked(next)
    ensures OneCaseEach(st) ==> OneCaseEach(next)
  {}

  lemma FindKeeps(st: State, id: nat, analyst: string, verdict: string)
    requires Invariant(st) && Apply(st, FindCaseForFeedback(id, analyst, verdict)).Some?
    ensures Invariant(Apply(st, FindCaseForFeedback(id, analyst, verdict)).value)
  {
    hide CasesBacked, OneCaseEach, FeedbackLinked, ResolvedIffLabelled, HasCase, FindCase;
    var next := Apply(st, FindCaseForFeedback(id, analyst, verdict)).value;
    FindCaseMeaning(st.db, id);
    SameLinks(st, next);
    SameCalls(st, next);
  }

  lemma CrashFeedbackKeeps(st: State, k: nat)
    requires Invariant(st) && k < |st.labelling|
    ensures Invariant(Apply(st, CrashFeedback(k)).value)
  {
    hide CasesBacked, OneCaseEach, FeedbackLinked, ResolvedIffLabelled, HasCase;
    var next := Apply(st, CrashFeedback(k)).value;
    WithoutMembers(st.labelling, k);
    SameLinks(st, next);
    SameCalls(st, next);
  }

  /** Every step, of any call, keeps the invariant. */
  lemma {:induction false} StepKeeps(st: State, step: Step)
    requires Invariant(st) && Apply(st, step).Some?
    ensures Invariant(Apply(st, step).value)
  {
    hide Invariant;
    match step
    case WritePrediction(id, txn, r) => WritePredictionKeeps(st, id, txn, r);
    case CreateCase(k, id) => CreateCaseKeeps(st, k, id);
    case CrashScore(k) => CrashScoreKeeps(st, k);
    case FindCaseForFeedback(id, analyst, verdict) => FindKeeps(st, id, analyst, verdict);
    case WriteFeedback(k, id, now) => WriteFeedbackKeeps(st, k, id, now);
    case CrashFeedback(k) => CrashFeedbackKeeps(st, k);
  }

  /** What a step never undoes: predictions are immutable, cases keep their links and
      stay resolved, feedback rows stay. */
  ghost predicate Extends(before: Tables, after: Tables) {
    && before.predictions <= after.predictions
    && before.feedback <= after.feedback
    && |before.cases| <= |after.cases|
    && forall i :: 0 <= i < |before.cases| ==>
         && before.cases[i].id == after.cases[i].id
         && before.cases[i].predictionId == after.cases[i].predictionId
         && before.cases[i].transactionId == after.cases[i].transactionId
         && before.cases[i].score == after.cases[i].score
         && before.cases[i].riskLevel == after.cases[i].riskLevel
         && (before.cases[i].status == Resolved ==> after.cases[i].status == Resolved)
  }

  lemma StepExtends(st: State, step: Step)
    requires Apply(st, step).Some?
    ensures Extends(st.db, Apply(st, step).value.db)
  {}

  /** Safety over all runs, from any state that meets the invariant. */
  lemma {:induction false} RunSafe(st: State, steps: seq<Step>)
    requires Invariant(st) && Run(st, steps).Some?
    ensures Invariant(Run(st, steps).value)
    ensures Extends(st.db, Run(st, steps).value.db)
    decreases |steps|
  {
    hide Invariant, Apply;
    if steps != [] {
      var next := Apply(st, steps[0]).value;
      StepKeeps(st, steps[0]);
      StepExtends(st, steps[0]);
      RunSafe(next, steps[1..]);
      ExtendsTransitive(st.db, next.db, Run(st, steps).value.db);
    }
  }

  lemma ExtendsTransitive(a: Tables, b: Tables, c: Tables)
    requires Extends(a, b) && Extends(b, c)
    ensures Extends(a, c)
  {}

  lemma InitiallySafe()
    ensures Invariant(INITIAL)
  {}

  // ---- Every routed prediction is accounted for ----

  ghost predicate HasCaseFor(cases: seq<ReviewCase>, predictionId: nat) {
    exists i :: 0 <= i < |cases| && cases[i].predictionId == predictionId
  }

  ghost predicate IsOpen(scoring: seq<OpenScore>, predictionId: nat) {
    exists i :: 0 <= i < |scoring| && scoring[i].predictionId == predictionId
  }

  /** The predictions whose call crashed between its two writes. */
  ghost function CrashedBy(st: State, step: Step): set<nat> {
    if step.CrashScore? && step.call < |st.scoring| then {st.scoring[step.call].predictionId} else {}
  }

  ghost function CrashedIn(st: State, steps: seq<Step>): set<nat>
    decreases |steps|
  {
    if steps == [] || Apply(st, steps[0]).None? then {}
    else CrashedBy(st, steps[0]) + CrashedIn(Apply(st, steps[0]).value, steps[1..])
  }

  /** A routed prediction waits for its call or has its case, unless it is lost, and then neither. */
  ghost predicate Accounted(st: State, lost: set<nat>) {
    && (forall p :: p in st.db.predictions && p.routedToReview ==>
         (p.id in lost <==> !HasCaseFor(st.db.cases, p.id) && !IsOpen(st.scoring, p.id)))
    && (forall id :: id in lost ==> !FreshId(st.db.predictions, id, PredictionId))
  }

  lemma {:induction false} StepAccounts(st: State, step: Step, lost: set<nat>)
    requires Invariant(st) && Accounted(st, lost) && Apply(st, step).Some?
    ensures Accounted(Apply(st, step).value, lost + CrashedBy(st, step))
  {
    hide CasesBacked, FeedbackLinked, ResolvedIffLabelled;
    match step
    case WritePrediction(id, txn, r) => WriteAccounts(st, id, txn, r, lost);
    case CreateCase(k, id) => CreateAccounts(st, k, id, lost);
    case CrashScore(k) => CrashAccounts(st, k, lost);
    case FindCaseForFeedback(id, analyst, verdict) =>
    case WriteFeedback(k, id, now) =>
      ResolveKeepsCases(st.db.cases, Apply(st, step).value.db.feedback[|st.db.feedback|]);
    case CrashFeedback(k) =>
  }

  lemma ResolveKeepsCases(cases: seq<ReviewCase>, f: Feedback)
    ensures forall id :: HasCaseFor(Map(cases, Resolve(f)), id) <==> HasCaseFor(cases, id)
  {
    hide Map;
    var after := Map(cases, Resolve(f));
    assert forall i :: 0 <= i < |cases| ==> after[i].predictionId == cases[i].predictionId;
  }

  lemma CaseForGrows(cases: seq<ReviewCase>, c: ReviewCase, id: nat)
    ensures HasCaseFor(cases + [c], id) <==> HasCaseFor(cases, id) || c.predictionId == id
  {
    if HasCaseFor(cases, id) {
      var i :| 0 <= i < |cases| && cases[i].predictionId == id;
      assert (cases + [c])[i] == cases[i];
    }
    assert (cases + [c])[|cases|] == c;
  }

  lemma OpenGrows(scoring: seq<OpenScore>, o: OpenScore, id: nat)
    ensures IsOpen(scoring + [o], id) <==> IsOpen(scoring, id) || o.predictionId == id
  {
    if IsOpen(scoring, id) {
      var i :| 0 <= i < |scoring| && scoring[i].predictionId == id;
      assert (scoring + [o])[i] == scoring[i];
    }
    assert (scoring + [o])[|scoring|] == o;
  }

  lemma OpenShrinks(scoring: seq<OpenScore>, k: nat, id: nat)
    requires k < |scoring| && DistinctBy(scoring, OpenPrediction)
    ensures IsOpen(Without(scoring, k), id) <==> IsOpen(scoring, id) && scoring[k].predictionId != id
  {
    var rest := Without(scoring, k);
    if IsOpen(scoring, id) && scoring[k].predictionId != id {
      var i :| 0 <= i < |scoring| && scoring[i].predictionId == id;
      assert rest[if i < k then i else i - 1] == scoring[i];
    }
    if IsOpen(rest, id) {
      var i :| 0 <= i < |rest| && rest[i].predictionId == id;
      var j := if i < k then i else i + 1;
      assert rest[i] == scoring[j] && OpenPrediction(scoring[j]) != OpenPrediction(scoring[k]);
    }
  }

  lemma {:induction false} WriteAccounts(st: State, id: nat, txn: Txn, r: S.ScoringResult, lost: set<nat>)
    requires Invariant(st) && Accounted(st, lost) && FreshId(st.db.predictions, id, PredictionId)
    ensures Accounted(Apply(st, WritePrediction(id, txn, r)).value, lost)
  {
    hide HasCaseFor, IsOpen, OneCaseEach, FeedbackLinked, ResolvedIffLabelled;
    var p := PredictionOf(id, txn, r);
    var next := Apply(st, WritePrediction(id, txn, r)).value;
    assert id !in lost;
    forall q | q in next.db.predictions && q.routedToReview
      ensures q.id in lost <==> !HasCaseFor(next.db.cases, q.id) && !IsOpen(next.scoring, q.id)
    {
      if r.routing.routedToReview {
        OpenGrows(st.scoring, OpenScore(id, txn.transactionId, r.score, r.routing.riskLevel), q.id);
      }
      if q in st.db.predictions {
        assert q.id != id by { KnownId(st.db.predictions, id, q); }
      } else {
        assert q == p;
      }
    }
    forall x | x in lost ensures !FreshId(next.db.predictions, x, PredictionId) {
      var i :| 0 <= i < |st.db.predictions| && PredictionId(st.db.predictions[i]) == x;
      assert PredictionId(next.db.predictions[i]) == x;
    }
  }

  lemma KnownId(ps: seq<Prediction>, id: nat, q: Prediction)
    requires FreshId(ps, id, PredictionId) && q in ps
    ensures q.id != id
  {
    var i :| 0 <= i < |ps| && ps[i] == q;
    assert PredictionId(ps[i]) != id;
  }

  lemma {:induction false} CreateAccounts(st: State, k: nat, id: nat, lost: set<nat>)
    requires Invariant(st) && Accounted(st, lost) && Apply(st, CreateCase(k, id)).Some?
    ensures Accounted(Apply(st, CreateCase(k, id)).value, lost)
  {
    hide HasCaseFor, IsOpen, CasesBacked, FeedbackLinked, ResolvedIffLabelled, DistinctBy;
    var o := st.scoring[k];
    var next := Apply(st, CreateCase(k, id)).value;
    assert IsOpen(st.scoring, o.predictionId) by { OpenAt(st.scoring, k); }
    forall q | q in next.db.predictions && q.routedToReview
      ensures q.id in lost <==> !HasCaseFor(next.db.cases, q.id) && !IsOpen(next.scoring, q.id)
    {
      CaseForGrows(st.db.cases, NewCase(id, o.predictionId, o.transactionId, o.score, o.riskLevel), q.id);
      OpenShrinks(st.scoring, k, q.id);
    }
  }

  lemma OpenAt(scoring: seq<OpenScore>, k: nat)
    requires k < |scoring|
    ensures IsOpen(scoring, scoring[k].predictionId)
  {}

  lemma {:induction false} CrashAccounts(st: State, k: nat, lost: set<nat>)
    requires Invariant(st) && Accounted(st, lost) && k < |st.scoring|
    ensures Accounted(Apply(st, CrashScore(k)).value, lost + {st.scoring[k].predictionId})
  {
    hide HasCaseFor, IsOpen, FeedbackLinked, ResolvedIffLabelled, DistinctBy;
    var o := st.scoring[k];
    var next := Apply(st, CrashScore(k)).value;
    assert o in st.scoring && Backed(st.db.predictions, o.predictionId, o.transactionId, o.score, o.riskLevel);
    NoCaseYet(st, k);
    OpenAt(st.scoring, k);
    forall q | q in next.db.predictions && q.routedToReview
      ensures q.id in lost + {o.predictionId} <==> !HasCaseFor(next.db.cases, q.id) && !IsOpen(next.scoring, q.id)
    {
      OpenShrinks(st.scoring, k, q.id);
    }
    BackedKnown(st.db.predictions, o);
  }

  lemma NoCaseYet(st: State, k: nat)
    requires OneCaseEach(st) && k < |st.scoring|
    ensures !HasCaseFor(st.db.cases, st.scoring[k].predictionId)
  {
    forall i | 0 <= i < |st.db.cases| ensures st.db.cases[i].predictionId != st.scoring[k].predictionId {
      assert st.db.cases[i] in st.db.cases && st.scoring[k] in st.scoring;
    }
  }

  lemma BackedKnown(ps: seq<Prediction>, o: OpenScore)
    requires Backed(ps, o.predictionId, o.transactionId, o.score, o.riskLevel)
    ensures !FreshId(ps, o.predictionId, PredictionId)
  {
    var i :| 0 <= i < |ps| && ps[i].id == o.predictionId;
    assert PredictionId(ps[i]) == o.predictionId;
  }

  lemma {:induction false} RunAccounts(st: State, steps: seq<Step>, lost: set<nat>)
    requires Invariant(st) && Accounted(st, lost) && Run(st, steps).Some?
    ensures Accounted(Run(st, steps).value, lost + CrashedIn(st, steps))
    decreases |steps|
  {
    hide Invariant, Apply, Accounted, CrashedBy;
    if steps == [] {
      assert lost + {} == lost;
    } else {
      var next := Apply(st, steps[0]).value;
      StepKeeps(st, steps[0]);
      StepAccounts(st, steps[0], lost);
      RunAccounts(next, steps[1..], lost + CrashedBy(st, steps[0]));
      assert lost + (CrashedBy(st, steps[0]) + CrashedIn(next, steps[1..]))
          == (lost + CrashedBy(st, steps[0])) + CrashedIn(next, steps[1..]);
    }
  }

  /** Over all runs, a routed prediction has neither a case nor an open call that will create one if
      and only if its call crashed between its two writes. */
  lemma RoutedPredictionsAccounted(steps: seq<Step>)
    requires Run(INITIAL, steps).Some?
    ensures var st := Run(INITIAL, steps).value;
      forall p :: p in st.db.predictions && p.routedToReview ==>
        (p.id in CrashedIn(INITIAL, steps) <==> !HasCaseFor(st.db.cases, p.id) && !IsOpen(st.scoring, p.id))
  {
    hide Invariant, HasCaseFor, IsOpen;
    InitiallySafe();
    RunAccounts(INITIAL, steps, {});
  }

  // ---- The retraining join ----

  lemma {:induction false} UniqueById<T>(s: seq<T>, p: T -> bool, i: nat)
    requires i < |s| && p(s[i])
    requires forall j :: 0 <= j < |s| && j != i ==> !p(s[j])
    ensures Filter(s, p) == [s[i]]
  {
    if i == 0 {
      FilterNoneAfter(s[1..], p);
    } else {
      assert forall j :: 0 <= j < |s[1..]| ==> s[1..][j] == s[j + 1];
      UniqueById(s[1..], p, i - 1);
    }
  }

  lemma {:induction false} FilterNoneAfter<T>(s: seq<T>, p: T -> bool)
    requires forall j :: 0 <= j < |s| ==> !p(s[j])
    ensures Filter(s, p) == []
  {
    if s != [] { FilterNoneAfter(s[1..], p); }
  }

  /** The prediction behind a feedback row: its case's routed prediction, for its transaction. */
  ghost predicate Behind(db: Tables, f: Feedback, p: Prediction) {
    && p in db.predictions && p.routedToReview && p.transactionId == f.transactionId
    && exists i :: 0 <= i < |db.cases| && db.cases[i].id == f.caseId && db.cases[i].predictionId == p.id
  }

  lemma {:induction false} OnlyCase(st: State, f: Feedback) returns (c: ReviewCase)
    requires Invariant(st) && f in st.db.feedback
    ensures c in st.db.cases && c.id == f.caseId && c.transactionId == f.transactionId
    ensures Filter(st.db.cases, IsCase(f.caseId)) == [c]
  {
    hide Filter, CasesBacked, ResolvedIffLabelled;
    var cases := st.db.cases;
    assert HasCase(cases, f.caseId, f.transactionId);
    var i :| 0 <= i < |cases| && cases[i].id == f.caseId && cases[i].transactionId == f.transactionId;
    forall j | 0 <= j < |cases| && j != i ensures !IsCase(f.caseId)(cases[j]) {
      assert CaseId(cases[j]) != CaseId(cases[i]);
    }
    UniqueById(cases, IsCase(f.caseId), i);
    c := cases[i];
  }

  lemma {:induction false} OnlyPrediction(st: State, c: ReviewCase) returns (p: Prediction)
    requires Invariant(st) && c in st.db.cases
    ensures p in st.db.predictions && p.id == c.predictionId && p.routedToReview && p.transactionId == c.transactionId
    ensures Filter(st.db.predictions, IsPrediction(c.predictionId)) == [p]
  {
    hide Filter, OneCaseEach, FeedbackLinked, ResolvedIffLabelled;
    var ps := st.db.predictions;
    assert Backed(ps, c.predictionId, c.transactionId, c.score, c.riskLevel);
    var k :| 0 <= k < |ps| && ps[k].id == c.predictionId && ps[k].routedToReview
      && ps[k].transactionId == c.transactionId && ps[k].score == c.score && ps[k].riskLevel == c.riskLevel;
    forall j | 0 <= j < |ps| && j != k ensures !IsPrediction(c.predictionId)(ps[j]) {
      assert PredictionId(ps[j]) != PredictionId(ps[k]);
    }
    UniqueById(ps, IsPrediction(c.predictionId), k);
    p := ps[k];
  }

  lemma {:induction false} FeedbackJoinsOnce(st: State, f: Feedback) returns (p: Prediction)
    requires Invariant(st) && f in st.db.feedback
    ensures Behind(st.db, f, p)
    ensures JoinCases(st.db, f, Filter(st.db.cases, IsCase(f.caseId))) == [(f, p)]
  {
    hide Filter, Invariant;
    var c := OnlyCase(st, f);
    p := OnlyPrediction(st, c);
    var i :| 0 <= i < |st.db.cases| && st.db.cases[i] == c;
    assert [p][1..] == [] && JoinPredictions(f, [p]) == [(f, p)];
    assert [c][1..] == [] && JoinCases(st.db, f, []) == [];
  }

  lemma {:induction false} JoinIsLossless(st: State, feedback: seq<Feedback>)
    requires Invariant(st) && forall f :: f in feedback ==> f in st.db.feedback
    ensures var rows := JoinFeedback(st.db, feedback);
      |rows| == |feedback| && forall i :: 0 <= i < |feedback| ==>
        rows[i].0 == feedback[i] && Behind(st.db, feedback[i], rows[i].1)
  {
    hide Invariant, Behind;
    if feedback != [] {
      var p := FeedbackJoinsOnce(st, feedback[0]);
      JoinIsLossless(st, feedback[1..]);
    }
  }

  lemma LabelsKnown(st: State)
    requires Invariant(st)
    ensures forall f :: f in st.db.feedback ==> IsLabel(f.verdict)
  {}

  /** The retraining query yields exactly one example per feedback row of the window, in order,
      with the features stored when the transaction was scored, unless the limit cuts it short. */
  lemma {:induction false} RetrainingLossless(st: State, since: int, limit: nat)
    requires Invariant(st)
    ensures var recent := FirstN(Filter(st.db.feedback, Since(since)), limit);
      var examples := LabeledExamples(st.db, since, limit);
      |examples| == |recent| && forall i :: 0 <= i < |recent| ==>
        && examples[i].transactionId == recent[i].transactionId
        && examples[i].analystLabel == recent[i].verdict
        && (examples[i].fraud <==> recent[i].verdict in FRAUD_LABELS)
        && exists p :: Behind(st.db, recent[i], p) && examples[i].inputFeatures == p.inputFeatures
  {
    hide Filter, JoinFeedback, Behind, Invariant;
    LabelsKnown(st);
    var window := Filter(st.db.feedback, Since(since));
    FilterMembers(st.db.feedback, Since(since));
    JoinIsLossless(st, window);
    var rows := FirstN(JoinFeedback(st.db, window), limit);
    forall i | 0 <= i < |rows| ensures IsLabelled(rows[i]) {
      assert rows[i].0 == window[i] && window[i] in st.db.feedback;
    }
    assert forall row :: row in rows ==> IsLabelled(row);
    FilterAll(rows, IsLabelled);
  }

  // ---- From the score to the training example ----

  /** The step writes this prediction, as scored. */
  ghost predicate Writes(step: Step, p: Prediction) {
    step.WritePrediction? && p.id == step.newId && Stores(p, step.txn, step.result)
  }

  ghost predicate WrittenIn(steps: seq<Step>, p: Prediction) {
    exists i :: 0 <= i < |steps| && Writes(steps[i], p)
  }

  lemma StepWrites(st: State, step: Step)
    requires Apply(st, step).Some?
    ensures forall p :: p in Apply(st, step).value.db.predictions ==> p in st.db.predictions || Writes(step, p)
  {}

  lemma {:induction false} RunWrites(st: State, steps: seq<Step>)
    requires Run(st, steps).Some?
    ensures forall p :: p in Run(st, steps).value.db.predictions ==> p in st.db.predictions || WrittenIn(steps, p)
    decreases |steps|
  {
    hide Apply, Writes;
    if steps != [] {
      var next := Apply(st, steps[0]).value;
      StepWrites(st, steps[0]);
      RunWrites(next, steps[1..]);
      forall p | p in Run(st, steps).value.db.predictions ensures p in st.db.predictions || WrittenIn(steps, p) {
        if WrittenIn(steps[1..], p) {
          var i :| 0 <= i < |steps[1..]| && Writes(steps[1..][i], p);
          assert steps[i + 1] == steps[1..][i];
        }
      }
    }
  }

  /** Some call of the run scored this transaction for review, and stored this vector. */
  ghost predicate ScoredWith(steps: seq<Step>, transactionId: string, vector: FeatureVector) {
    exists i :: 0 <= i < |steps| && steps[i].WritePrediction? && steps[i].result.routing.routedToReview
      && steps[i].txn.transactionId == transactionId && steps[i].result.vector == vector
  }

  ghost function FeedbackPlaces(feedback: seq<Feedback>, since: int): set<int> {
    set i | 0 <= i < |feedback| && feedback[i].createdAt >= since
  }

  /** Over all runs, retraining gets one example for each feedback row since the given time, or the first
      `limit` of them. Each is labelled fraud exactly for the two fraud labels, and its features are the
      vector with which a call of the run scored that transaction and sent it to review. */
  lemma RetrainingFromScoring(steps: seq<Step>, since: int, limit: nat)
    requires Run(INITIAL, steps).Some?
    ensures var db := Run(INITIAL, steps).value.db;
      var examples := LabeledExamples(db, since, limit);
      var n := |FeedbackPlaces(db.feedback, since)|;
      && |examples| == (if n <= limit then n else limit)
      && forall i :: 0 <= i < |examples| ==>
           && (examples[i].fraud <==>
                 examples[i].analystLabel == "confirmed_fraud" || examples[i].analystLabel == "false_negative")
           && (exists f :: f in db.feedback && f.createdAt >= since
                 && f.transactionId == examples[i].transactionId && f.verdict == examples[i].analystLabel)
           && examples[i].analystLabel in
                {"confirmed_fraud", "false_negative", "confirmed_legitimate", "false_positive"}
           && ScoredWith(steps, examples[i].transactionId, examples[i].inputFeatures)
  {
    hide Run, Invariant, LabeledExamples, Behind, Filter, WrittenIn, ScoredWith;
    var db := Run(INITIAL, steps).value.db;
    InitiallySafe();
    RunSafe(INITIAL, steps);
    RetrainingLossless(Run(INITIAL, steps).value, since, limit);
    LabelsKnown(Run(INITIAL, steps).value);
    FilterIndices(db.feedback, Since(since));
    assert PlacesOf(db.feedback, Since(since)) == FeedbackPlaces(db.feedback, since);
    FilterMembers(db.feedback, Since(since));
    var recent := FirstN(Filter(db.feedback, Since(since)), limit);
    forall i | 0 <= i < |recent|
      ensures recent[i] in db.feedback && recent[i].createdAt >= since && IsLabel(recent[i].verdict)
      ensures forall p :: Behind(db, recent[i], p) ==> ScoredWith(steps, recent[i].transactionId, p.inputFeatures)
    {
      assert recent[i] == Filter(db.feedback, Since(since))[i];
      forall p | Behind(db, recent[i], p) ensures ScoredWith(steps, recent[i].transactionId, p.inputFeatures) {
        BehindScored(steps, recent[i], p);
      }
    }
  }

  lemma BehindScored(steps: seq<Step>, f: Feedback, p: Prediction)
    requires Run(INITIAL, steps).Some? && Behind(Run(INITIAL, steps).value.db, f, p)
    ensures ScoredWith(steps, f.transactionId, p.inputFeatures)
  {
    hide Run;
    RunWrites(INITIAL, steps);
    var i :| 0 <= i < |steps| && Writes(steps[i], p);
  }
}

/** The tables and writes of `PostgresClient` (src/storage/postgres_client.py,
    src/storage/postgres_models.py) that the pipeline, the review queue and
    model promotion rest on. */
module Postgres {
  import opened Sequences
  import opened Transactions
  import opened Features
  import opened Decision

  datatype Prediction = Prediction(
    id: nat,
    transactionId: string,
    cardId: string,
    inputFeatures: FeatureVector,
    score: real,
    riskLevel: RiskLevel,
    decision: Verdict,
    routedToReview: bool)

  datatype CaseStatus = Pending | InReview | Resolved

  datatype ReviewCase = ReviewCase(
    id: nat,
    predictionId: nat,
    transactionId: string,
    score: real,
    riskLevel: RiskLevel,
    status: CaseStatus,
    assignedAnalyst: Option<string>,
    resolvedAt: Option<int>)

  datatype Feedback = Feedback(
    id: nat,
    caseId: nat,
    transactionId: string,
    analystId: string,
    verdict: string,
    createdAt: int)

  datatype Tables = Tables(
    predictions: seq<Prediction>,
    cases: seq<ReviewCase>,
    feedback: seq<Feedback>)

  // ---- Transactions ----

  /** INSERT ... ON CONFLICT (transaction_id) DO NOTHING, row by row. */
  function InsertAll(table: map<string, Txn>, txns: seq<Txn>): map<string, Txn>
    decreases |txns|
  {
    if txns == [] then table
    else
      var t := txns[0];
      InsertAll(if t.transactionId in table then table else table[t.transactionId := t], txns[1..])
  }

  // ---- Review queue ----

  function PredictionId(p: Prediction): nat { p.id }
  function CaseId(c: ReviewCase): nat { c.id }

  function IsPrediction(id: nat): Prediction -> bool {
    (p: Prediction) => p.id == id
  }

  function IsCase(id: nat): ReviewCase -> bool {
    (c: ReviewCase) => c.id == id
  }

  function PredictionWritten(db: Tables, p: Prediction): Tables {
    db.(predictions := db.predictions + [p])
  }

  /** A new case is pending and unassigned. */
  function NewCase(id: nat, predictionId: nat, transactionId: string, score: real, riskLevel: RiskLevel): ReviewCase {
    ReviewCase(id, predictionId, transactionId, score, riskLevel, Pending, None, None)
  }

  function CaseCreated(db: Tables, c: ReviewCase): Tables {
    db.(cases := db.cases + [c])
  }

  function Resolve(f: Feedback): ReviewCase -> ReviewCase {
    (c: ReviewCase) =>
      if c.id == f.caseId then
        c.(status := Resolved, assignedAnalyst := Some(f.analystId), resolvedAt := Some(f.createdAt))
      else c
  }

  /** One transaction: the feedback row is inserted and its case, if any, resolved. */
  function FeedbackSubmitted(db: Tables, f: Feedback): Tables {
    db.(feedback := db.feedback + [f], cases := Map(db.cases, Resolve(f)))
  }

  /** The feedback row is added; the case it names, if any, is resolved by that analyst at that time and
      keeps everything else; no other case changes, and no prediction. */
  lemma FeedbackLaw(db: Tables, f: Feedback)
    ensures var after := FeedbackSubmitted(db, f);
      && after.feedback == db.feedback + [f] && after.predictions == db.predictions
      && |after.cases| == |db.cases|
      && (forall i :: 0 <= i < |db.cases| && db.cases[i].id != f.caseId ==> after.cases[i] == db.cases[i])
      && forall i :: 0 <= i < |db.cases| && db.cases[i].id == f.caseId ==>
           after.cases[i] == db.cases[i].(
             status := Resolved, assignedAnalyst := Some(f.analystId), resolvedAt := Some(f.createdAt))
  {}

  function FindCase(db: Tables, id: nat): Option<ReviewCase> {
    var found := Filter(db.cases, IsCase(id));
    if found == [] then None else Some(found[0])
  }

  const FRAUD_LABELS := {"confirmed_fraud", "false_negative"}
  const LEGITIMATE_LABELS := {"confirmed_legitimate", "false_positive"}

  datatype TrainingExample = TrainingExample(
    transactionId: string,
    inputFeatures: FeatureVector,
    fraud: bool,
    analystLabel: string)

  /** The inner join of one feedback row with its cases and their predictions. */
  function JoinCases(db: Tables, f: Feedback, cases: seq<ReviewCase>): seq<(Feedback, Prediction)> {
    if cases == [] then []
    else
      JoinPredictions(f, Filter(db.predictions, IsPrediction(cases[0].predictionId))) + JoinCases(db, f, cases[1..])
  }

  function JoinPredictions(f: Feedback, predictions: seq<Prediction>): seq<(Feedback, Prediction)> {
    if predictions == [] then [] else [(f, predictions[0])] + JoinPredictions(f, predictions[1..])
  }

  function JoinFeedback(db: Tables, feedback: seq<Feedback>): seq<(Feedback, Prediction)> {
    if feedback == [] then []
    else
      JoinCases(db, feedback[0], Filter(db.cases, IsCase(feedback[0].caseId))) + JoinFeedback(db, feedback[1..])
  }

  function Since(since: int): Feedback -> bool {
    (f: Feedback) => f.createdAt >= since
  }

  function ExampleOf(row: (Feedback, Prediction)): TrainingExample {
    TrainingExample(row.0.transactionId, row.1.inputFeatures, row.0.verdict in FRAUD_LABELS, row.0.verdict)
  }

  predicate IsLabel(verdict: string) {
    verdict in FRAUD_LABELS || verdict in LEGITIMATE_LABELS
  }

  predicate IsLabelled(row: (Feedback, Prediction)) {
    IsLabel(row.0.verdict)
  }

  /** `fetch_labeled_training_examples`; the database returns rows in insertion order here. */
  function LabeledExamples(db: Tables, since: int, limit: nat): seq<TrainingExample> {
    var rows := FirstN(JoinFeedback(db, Filter(db.feedback, Since(since))), limit);
    Map(Filter(rows, IsLabelled), ExampleOf)
  }

  // ---- Approvals ----

  datatype Stage = NoStage | Staging | Production | Archived

  datatype Approval = Approval(
    modelName: string,
    modelVersion: nat,
    fromStage: Stage,
    toStage: Stage,
    approvedBy: string,
    metricsSnapshot: Option<map<string, real>>)

  predicate Approves(a: Approval, name: string, version: nat, to: Stage) {
    a.modelName == name && a.modelVersion == version && a.toStage == to
  }

  predicate HasApproval(approvals: seq<Approval>, name: string, version: nat, to: Stage) {
    exists i :: 0 <= i < |approvals| && Approves(approvals[i], name, version, to)
  }

  class PostgresClient {
    var transactions: map<string, Txn>
    var predictions: seq<Prediction>
    var cases: seq<ReviewCase>
    var feedback: seq<Feedback>
    var approvals: seq<Approval>

    function Queue(): Tables
      reads this
    {
      Tables(predictions, cases, feedback)
    }

    constructor ()
      ensures transactions == map[] && Queue() == Tables([], [], []) && approvals == []
    {
      transactions, predictions, cases, feedback, approvals := map[], [], [], [], [];
    }

    /** Returns the number of rows the statement inserted. */
    method PersistTransactions(txns: seq<Txn>) returns (n: nat)
      modifies this`transactions
      ensures transactions == InsertAll(old(transactions), txns)
      ensures n == |transactions| - |old(transactions)|
    {
      if txns == [] {
        return 0;
      }
      n := 0;
      for i := 0 to |txns|
        invariant InsertAll(transactions, txns[i..]) == InsertAll(old(transactions), txns)
        invariant n == |transactions| - |old(transactions)|
      {
        assert txns[i..][1..] == txns[i + 1..];
        if txns[i].transactionId !in transactions {
          transactions := transactions[txns[i].transactionId := txns[i]];
          n := n + 1;
        }
      }
    }

    method WritePrediction(p: Prediction) returns (id: nat)
      modifies this`predictions
      ensures Queue() == PredictionWritten(old(Queue()), p) && id == p.id
    {
      predictions := predictions + [p];
      id := p.id;
    }

    method CreateReviewCase(newId: nat, predictionId: nat, transactionId: string, score: real, riskLevel: RiskLevel)
      returns (id: nat)
      modifies this`cases
      ensures Queue() == CaseCreated(old(Queue()), NewCase(newId, predictionId, transactionId, score, riskLevel))
      ensures id == newId
    {
      cases := cases + [NewCase(newId, predictionId, transactionId, score, riskLevel)];
      id := newId;
    }

    method GetReviewCase(id: nat) returns (r: Option<ReviewCase>)
      ensures r == FindCase(Queue(), id)
    {
      r := FindCase(Queue(), id);
    }

    method SubmitFeedback(f: Feedback) returns (id: nat)
      modifies this`feedback, this`cases
      ensures Queue() == FeedbackSubmitted(old(Queue()), f) && id == f.id
    {
      feedback := feedback + [f];
      cases := Map(cases, Resolve(f));
      id := f.id;
    }

    method RecordModelApproval(a: Approval)
      modifies this`approvals
      ensures approvals == old(approvals) + [a]
    {
      approvals := approvals + [a];
    }

    method CheckApproval(name: string, version: nat, to: Stage) returns (r: bool)
      ensures r == HasApproval(approvals, name, version, to)
      ensures r <==> exists i ::
        && 0 <= i < |approvals|
        && approvals[i].modelName == name && approvals[i].modelVersion == version && approvals[i].toStage == to
    {
      r := exists i :: 0 <= i < |approvals| && Approves(approvals[i], name, version, to);
    }
  }
}

/** The model promotion protocol (src/ml/registry.py, src/ml/auto_promote.py):
    the operations themselves, then every interleaving of their steps. */
module Promotion {
  import opened Sequences
  import opened Postgres
  import opened ValidationGate

  /** A registered version: its stage, and the metrics its training run logged on its test set. */
  datatype Version = Version(stage: Stage, metrics: Metrics, testSet: seq<Example>, areas: Areas)

  type Key = (string, nat)
  type Registry = map<Key, Version>

  const AUTO_APPROVER := "airflow-automated-promotion"

  function WithStage(r: Registry, key: Key, stage: Stage): Registry
    requires key in r
  {
    r[key := r[key].(stage := stage)]
  }

  /** MLflow's transition with `archive_existing_versions=True`, one atomic request. */
  function ToProduction(r: Registry, key: Key): Registry
    requires key in r
  {
    map k | k in r ::
      if k == key then r[k].(stage := Production)
      else if k.0 == key.0 && r[k].stage == Production then r[k].(stage := Archived)
      else r[k]
  }

  /** The version is in Production, every other Production version of the model is archived, and
      nothing else changes: not the versions of other models, nor what any version's run logged. */
  lemma ToProductionLaw(r: Registry, name: string, version: nat)
    requires (name, version) in r
    ensures var s := ToProduction(r, (name, version));
      && s.Keys == r.Keys
      && s[(name, version)] == r[(name, version)].(stage := Production)
      && (forall k :: k in r && k.0 == name && k.1 != version && r[k].stage == Production ==>
            s[k] == r[k].(stage := Archived))
      && (forall k :: k in r && k.0 == name && k.1 != version && r[k].stage != Production ==> s[k] == r[k])
      && (forall k :: k in r && k.0 != name ==> s[k] == r[k])
  {}

  predicate IsNext(r: Registry, name: string, version: nat) {
    version >= 1 && forall k :: k in r && k.0 == name ==> k.1 < version
  }

  /** The newest version of a model in a stage: `get_latest_versions(name, [stage])`. */
  ghost predicate IsLatestIn(r: Registry, name: string, stage: Stage, version: Option<nat>) {
    match version
    case None => forall k :: k in r && k.0 == name ==> r[k].stage != stage
    case Some(v) =>
      && (name, v) in r && r[(name, v)].stage == stage
      && forall k :: k in r && k.0 == name && r[k].stage == stage ==> k.1 <= v
  }

  ghost predicate IsLatestStaging(r: Registry, name: string, candidate: Option<nat>) {
    IsLatestIn(r, name, Staging, candidate)
  }

  /** The gate passes, and the note on the approval can be written: formatting a metric
      that the run never logged raises before anything is promoted. */
  ghost predicate Promotable(g: GateSettings, m: Metrics, keys: seq<string>)
    requires forall k :: k in keys ==> k in m
  {
    Passes(g, m, FairnessRecalls(m, keys)) && "recall" in m && "precision" in m
  }

  // ---- The operations ----

  class ModelRegistry {
    var versions: Registry

    constructor ()
      ensures versions == map[]
    {
      versions := map[];
    }

    method LatestVersion(name: string, stage: Stage) returns (version: Option<nat>)
      ensures IsLatestIn(versions, name, stage, version)
      ensures version.None? ==> forall v :: (name, v) in versions ==> versions[(name, v)].stage != stage
      ensures version.Some? ==>
        && (name, version.value) in versions && versions[(name, version.value)].stage == stage
        && forall v :: (name, v) in versions && versions[(name, v)].stage == stage ==> v <= version.value
    {
      version := None;
      var rest := versions.Keys;
      while rest != {}
        invariant rest <= versions.Keys
        invariant version.Some? ==> (name, version.value) in versions && versions[(name, version.value)].stage == stage
        invariant forall k :: k in versions && k !in rest && k.0 == name && versions[k].stage == stage ==>
          version.Some? && k.1 <= version.value
        decreases |rest|
      {
        var k: Key :| k in rest;
        rest := rest - {k};
        if k.0 == name && versions[k].stage == stage && (version.None? || k.1 > version.value) {
          version := Some(k.1);
        }
      }
    }

    /** `register_and_stage` to Staging. */
    method RegisterAndStage(name: string, version: nat, metrics: Metrics, testSet: seq<Example>, areas: Areas)
      requires IsNext(versions, name, version)
      modifies this
      ensures versions == old(versions)[(name, version) := Version(Staging, metrics, testSet, areas)]
    {
      versions := versions[(name, version) := Version(NoStage, metrics, testSet, areas)];
      versions := WithStage(versions, (name, version), Staging);
    }

    /** `promote_model`: the approval row first, then the stage. It fails, changing nothing,
        exactly when the version is not registered; the approval check never fails. */
    method PromoteModel(pg: PostgresClient, name: string, version: nat, approvedBy: string, snapshot: Option<Metrics>)
      returns (ok: bool)
      modifies this, pg`approvals
      ensures ok <==> (name, version) in old(versions)
      ensures ok ==>
        && versions == ToProduction(old(versions), (name, version))
        && pg.approvals == old(pg.approvals)
             + [Approval(name, version, old(versions)[(name, version)].stage, Production, approvedBy, snapshot)]
      ensures !ok ==> versions == old(versions) && pg.approvals == old(pg.approvals)
    {
      if (name, version) !in versions {
        return false;
      }
      var current := versions[(name, version)].stage;
      var approval := Approval(name, version, current, Production, approvedBy, snapshot);
      pg.RecordModelApproval(approval);
      assert Approves(pg.approvals[|pg.approvals| - 1], name, version, Production);
      var approved := pg.CheckApproval(name, version, Production);
      if !approved {
        return false;
      }
      versions := ToProduction(versions, (name, version));
      ok := true;
    }

    /** `maybe_auto_promote`. The keys of a run's metrics come in whatever order `order` lists them. */
    method MaybeAutoPromote(pg: PostgresClient, g: GateSettings, enabled: bool, drift: bool, name: string,
                            order: Metrics -> seq<string>)
      returns (promoted: bool, candidate: Option<nat>)
      requires forall m: Metrics, k :: k in order(m) <==> k in m
      modifies this, pg`approvals
      ensures enabled && drift ==> IsLatestStaging(old(versions), name, candidate)
      ensures !enabled || !drift || candidate.None? ==> !promoted
      ensures enabled && drift && candidate.Some? ==> var m := old(versions)[(name, candidate.value)].metrics;
        promoted <==> Promotable(g, m, order(m))
      ensures promoted ==>
        && versions == ToProduction(old(versions), (name, candidate.value))
        && pg.approvals == old(pg.approvals) + [Approval(name, candidate.value, Staging, Production, AUTO_APPROVER,
             Some(old(versions)[(name, candidate.value)].metrics))]
      ensures !promoted ==> versions == old(versions) && pg.approvals == old(pg.approvals)
    {
      promoted, candidate := false, None;
      if !enabled || !drift {
        return;
      }
      candidate := LatestVersion(name, Staging);
      if candidate.None? {
        return;
      }
      var m := versions[(name, candidate.value)].metrics;
      var passed, reasons := EvaluateGate(g, m, order(m));
      if passed && "recall" in m && "precision" in m {
        promoted := PromoteModel(pg, name, candidate.value, AUTO_APPROVER, Some(m));
      }
    }
  }

  // ---- Metrics that were never logged ----

  /** Of a run that training logged, the gate's word is enough: both metrics are there. */
  lemma LoggedIsPromotable(g: GateSettings, m: Metrics, es: seq<Example>, areas: Areas, keys: seq<string>)
    requires LoggedBy(m, es, areas) && forall k :: k in keys ==> k in m
    ensures Promotable(g, m, keys) <==> Passes(g, m, FairnessRecalls(m, keys))
  {
    hide Passes, FairnessRecalls, Recall, Precision, F1, HasSlice;
    OverallMetricKeys(es, areas);
    assert "recall" in Evaluate(es, areas) && "precision" in Evaluate(es, areas);
  }

  ghost predicate PassesUnpromoted(g: GateSettings, m: Metrics, keys: seq<string>) {
    && (forall k :: k in keys <==> k in m)
    && Passes(g, m, FairnessRecalls(m, keys)) && !Promotable(g, m, keys)
  }

  /** The gate can pass metrics that cannot be promoted exactly when a floor asks for nothing:
      a missing metric reads as 0. */
  lemma PassedUnpromotable(g: GateSettings)
    ensures (exists m, keys :: PassesUnpromoted(g, m, keys)) <==> g.minRecall <= 0.0 || g.minPrecision <= 0.0
  {
    if g.minRecall <= 0.0 {
      OneMetricPasses(g, "precision", g.minPrecision);
    } else if g.minPrecision <= 0.0 {
      OneMetricPasses(g, "recall", g.minRecall);
    }
  }

  lemma OneMetricPasses(g: GateSettings, key: string, value: real)
    requires key == "precision" || key == "recall"
    requires key == "precision" ==> g.minRecall <= 0.0 && value >= g.minPrecision
    requires key == "recall" ==> g.minPrecision <= 0.0 && value >= g.minRecall
    ensures PassesUnpromoted(g, map[key := value], [key])
  {
    var m: Metrics := map[key := value];
    var keys := [key];
    OverallKeysDiffer(key);
    assert keys[..0] == [];
    assert FairnessRecalls(m, keys) == map[];
    assert "precision"[0] != "recall"[0];
  }

  // ---- Concurrent calls ----

  /** How far a `promote_model` call has come. */
  datatype Phase = Starting | StageRead(from: Stage) | Recorded | Checked

  datatype Call =
    | Registering(key: Key)
    | Candidate(key: Key)
    | Promoting(key: Key, approvedBy: string, snapshot: Option<Metrics>, automated: bool, phase: Phase)

  /** What has happened, with the origin of each approval, which the table does not keep. */
  datatype Event = ApprovalRecorded(approval: Approval, automated: bool) | StageSet(key: Key, stage: Stage)

  datatype State = State(registry: Registry, approvals: seq<Approval>, calls: seq<Call>, log: seq<Event>)

  const INITIAL := State(map[], [], [], [])

  datatype Step =
    | Register(key: Key, metrics: Metrics, testSet: seq<Example>, areas: Areas)
    | MoveToStaging(call: nat)
    | StartPromotion(key: Key, approvedBy: string, snapshot: Option<Metrics>)
    | StartAuto(name: string, enabled: bool, drift: bool, candidate: Option<nat>)
    | RunGate(call: nat, keys: seq<string>)
    | ReadStage(call: nat)
    | Record(call: nat)
    | Check(call: nat)
    | Transition(call: nat)
    | Crash(call: nat)

  /** One step; nothing when it is not enabled. Training logs a run's metrics before it
      registers the version. A hand-made call may sign with any name. */
  ghost function Apply(g: GateSettings, st: State, step: Step): Option<State> {
    match step
    case Register(key, metrics, testSet, areas) =>
      if !IsNext(st.registry, key.0, key.1) || !LoggedBy(metrics, testSet, areas) then None
      else Some(st.(registry := st.registry[key := Version(NoStage, metrics, testSet, areas)],
                    calls := st.calls + [Registering(key)]))
    case StartPromotion(key, signer, snapshot) =>
      Some(st.(calls := st.calls + [Promoting(key, signer, snapshot, false, Starting)]))
    case StartAuto(name, enabled, drift, candidate) =>
      if !IsLatestStaging(st.registry, name, candidate) then None
      else if !enabled || !drift || candidate.None? then Some(st)
      else Some(st.(calls := st.calls + [Candidate((name, candidate.value))]))
    case Crash(k) =>
      if k >= |st.calls| then None else Some(st.(calls := Without(st.calls, k)))
    case MoveToStaging(k) =>
      if k >= |st.calls| || !st.calls[k].Registering? || st.calls[k].key !in st.registry then None
      else Some(st.(registry := WithStage(st.registry, st.calls[k].key, Staging),
                    calls := Without(st.calls, k),
                    log := st.log + [StageSet(st.calls[k].key, Staging)]))
    case RunGate(k, keys) =>
      if k >= |st.calls| || !st.calls[k].Candidate? || st.calls[k].key !in st.registry then None
      else
        var key := st.calls[k].key;
        var m := st.registry[key].metrics;
        if !(forall x :: x in keys <==> x in m) then None
        else if Promotable(g, m, keys) then
          Some(st.(calls := st.calls[k := Promoting(key, AUTO_APPROVER, Some(m), true, Starting)]))
        else Some(st.(calls := Without(st.calls, k)))
    case ReadStage(k) =>
      if k >= |st.calls| || !st.calls[k].Promoting? || st.calls[k].phase != Starting then None
      else if st.calls[k].key !in st.registry then Some(st.(calls := Without(st.calls, k)))
      else Some(st.(calls := st.calls[k := st.calls[k].(phase := StageRead(st.registry[st.calls[k].key].stage))]))
    case Record(k) =>
      if k >= |st.calls| || !st.calls[k].Promoting? || !st.calls[k].phase.StageRead? then None
      else
        var c := st.calls[k];
        var a := Approval(c.key.0, c.key.1, c.phase.from, Production, c.approvedBy, c.snapshot);
        Some(st.(approvals := st.approvals + [a],
                 calls := st.calls[k := c.(phase := Recorded)],
                 log := st.log + [ApprovalRecorded(a, c.automated)]))
    case Check(k) =>
      if k >= |st.calls| || !st.calls[k].Promoting? || st.calls[k].phase != Recorded then None
      else if HasApproval(st.approvals, st.calls[k].key.0, st.calls[k].key.1, Production) then
        Some(st.(calls := st.calls[k := st.calls[k].(phase := Checked)]))
      else Some(st.(calls := Without(st.calls, k)))
    case Transition(k) =>
      if k >= |st.calls| || !st.calls[k].Promoting? || st.calls[k].phase != Checked then None
      else if st.calls[k].key !in st.registry then None
      else Some(st.(registry := ToProduction(st.registry, st.calls[k].key),
                    calls := Without(st.calls, k),
                    log := st.log + [StageSet(st.calls[k].key, Production)]))
  }

  ghost function Run(g: GateSettings, st: State, steps: seq<Step>): Option<State>
    decreases |steps|
  {
    if steps == [] then Some(st)
    else match Apply(g, st, steps[0])
      case None => None
      case Some(next) => Run(g, next, steps[1..])
  }

  /** An undisturbed `promote_model` call is this run of its steps. */
  lemma PromotionIsARun(g: GateSettings, st: State, key: Key, signer: string, snapshot: Option<Metrics>)
    requires key in st.registry && st.calls == []
    ensures var a := Approval(key.0, key.1, st.registry[key].stage, Production, signer, snapshot);
      Run(g, st, [StartPromotion(key, signer, snapshot)] + PROMOTION) == Some(Promoted(st, key, a, false))
  {
    var start := StartPromotion(key, signer, snapshot);
    var s1 := Apply(g, st, start).value;
    assert ([start] + PROMOTION)[1..] == PROMOTION;
    RunSteps(g, st, [start] + PROMOTION);
    PromotionSteps(g, s1, key, signer, snapshot, false);
  }

  /** The state after a promotion that nothing interrupts. */
  ghost function Promoted(st: State, key: Key, a: Approval, automated: bool): State
    requires key in st.registry
  {
    State(ToProduction(st.registry, key), st.approvals + [a], [],
      st.log + [ApprovalRecorded(a, automated)] + [StageSet(key, Production)])
  }

  const PROMOTION := [ReadStage(0), Record(0), Check(0), Transition(0)]

  lemma PromotionSteps(g: GateSettings, s1: State, key: Key, signer: string, snapshot: Option<Metrics>, automated: bool)
    requires key in s1.registry && s1.calls == [Promoting(key, signer, snapshot, automated, Starting)]
    ensures var a := Approval(key.0, key.1, s1.registry[key].stage, Production, signer, snapshot);
      Run(g, s1, PROMOTION) == Some(Promoted(s1, key, a, automated))
  {
    var s2 := Apply(g, s1, PROMOTION[0]).value;
    var s3 := Apply(g, s2, PROMOTION[1]).value;
    assert Approves(s3.approvals[|s1.approvals|], key.0, key.1, Production);
    var s4 := Apply(g, s3, PROMOTION[2]).value;
    var s5 := Apply(g, s4, PROMOTION[3]).value;
    assert s5.calls == [];
    RunSteps(g, s1, PROMOTION);
    RunSteps(g, s2, PROMOTION[1..]);
    RunSteps(g, s3, PROMOTION[1..][1..]);
    RunSteps(g, s4, PROMOTION[1..][1..][1..]);
  }

  /** So is an undisturbed `maybe_auto_promote` call: the gate decides between a promotion
      signed by the automated caller, with the metrics it saw, and no change at all. */
  lemma AutoPromotionIsARun(g: GateSettings, st: State, name: string, candidate: Option<nat>, keys: seq<string>)
    requires IsLatestStaging(st.registry, name, candidate) && candidate.Some? && st.calls == []
    requires forall k :: k in keys <==> k in st.registry[(name, candidate.value)].metrics
    ensures var key := (name, candidate.value);
      var m := st.registry[key].metrics;
      var first := [StartAuto(name, true, true, candidate), RunGate(0, keys)];
      if Promotable(g, m, keys) then
        var a := Approval(name, key.1, Staging, Production, AUTO_APPROVER, Some(m));
        Run(g, st, first + PROMOTION) == Some(Promoted(st, key, a, true))
      else Run(g, st, first) == Some(st)
  {
    hide Promotable;
    var key := (name, candidate.value);
    var m := st.registry[key].metrics;
    var first := [StartAuto(name, true, true, candidate), RunGate(0, keys)];
    var s1 := Apply(g, st, first[0]).value;
    var s2 := Apply(g, s1, first[1]).value;
    if Promotable(g, m, keys) {
      assert (first + PROMOTION)[1..][1..] == PROMOTION;
      RunSteps(g, st, first + PROMOTION);
      RunSteps(g, s1, (first + PROMOTION)[1..]);
      PromotionSteps(g, s2, key, AUTO_APPROVER, Some(m), true);
    } else {
      assert s2.calls == [] && first[1..][1..] == [];
      RunSteps(g, st, first);
      RunSteps(g, s1, first[1..]);
    }
  }

  /** Disabled, without drift or without a candidate, an automated call ends where it starts. */
  lemma NoAutoPromotion(g: GateSettings, st: State, name: string, enabled: bool, drift: bool, candidate: Option<nat>)
    requires IsLatestStaging(st.registry, name, candidate) && !(enabled && drift && candidate.Some?)
    ensures Run(g, st, [StartAuto(name, enabled, drift, candidate)]) == Some(st)
  {
    var steps := [StartAuto(name, enabled, drift, candidate)];
    assert steps[1..] == [];
    RunSteps(g, st, steps);
  }

  /** And so is an undisturbed `register_and_stage` call. */
  lemma RegistrationIsARun(g: GateSettings, st: State, key: Key, m: Metrics, testSet: seq<Example>, areas: Areas)
    requires IsNext(st.registry, key.0, key.1) && LoggedBy(m, testSet, areas) && st.calls == []
    ensures Run(g, st, [Register(key, m, testSet, areas), MoveToStaging(0)])
      == Some(st.(registry := st.registry[key := Version(Staging, m, testSet, areas)],
                  log := st.log + [StageSet(key, Staging)]))
  {
    hide LoggedBy, IsNext;
    var steps := [Register(key, m, testSet, areas), MoveToStaging(0)];
    var s1 := Apply(g, st, steps[0]).value;
    var s2 := Apply(g, s1, steps[1]).value;
    assert s2.calls == [] && steps[1..][1..] == [];
    assert s2.registry == st.registry[key := Version(Staging, m, testSet, areas)];
    RunSteps(g, st, steps);
    RunSteps(g, s1, steps[1..]);
  }

  lemma RunSteps(g: GateSettings, st: State, steps: seq<Step>)
    requires steps != [] && Apply(g, st, steps[0]).Some?
    ensures Run(g, st, steps) == Run(g, Apply(g, st, steps[0]).value, steps[1..])
  {}

  // ---- The invariant ----

  ghost predicate ProductionApproved(r: Registry, approvals: seq<Approval>) {
    forall k :: k in r && r[k].stage == Production ==> HasApproval(approvals, k.0, k.1, Production)
  }

  ghost predicate OneProduction(r: Registry) {
    forall j, k :: j in r && k in r && j.0 == k.0 && r[j].stage == Production && r[k].stage == Production ==> j == k
  }

  ghost predicate PastRecording(c: Call) {
    c.Promoting? && (c.phase == Recorded || c.phase == Checked)
  }

  ghost predicate CallsApproved(calls: seq<Call>, approvals: seq<Approval>) {
    forall c :: c in calls && PastRecording(c) ==> HasApproval(approvals, c.key.0, c.key.1, Production)
  }

  /** In the log, an approval for exactly this version comes before every move to Production. */
  ghost predicate ApprovedBefore(log: seq<Event>, n: nat, key: Key)
    requires n <= |log|
  {
    exists j :: 0 <= j < n && log[j].ApprovalRecorded? && Approves(log[j].approval, key.0, key.1, Production)
  }

  ghost predicate LogOrdered(log: seq<Event>) {
    forall i :: 0 <= i < |log| && log[i].StageSet? && log[i].stage == Production ==> ApprovedBefore(log, i, log[i].key)
  }

  ghost predicate InLog(log: seq<Event>, a: Approval) {
    exists i :: 0 <= i < |log| && log[i].ApprovalRecorded? && log[i].approval == a
  }

  /** The approval table holds what the log says was recorded, and nothing else. */
  ghost predicate LogHolds(log: seq<Event>, approvals: seq<Approval>) {
    forall a :: a in approvals <==> InLog(log, a)
  }

  /** A version is in Production because the log says it was moved there. */
  ghost predicate ProductionLogged(r: Registry, log: seq<Event>) {
    forall k :: k in r && r[k].stage == Production ==> StageSet(k, Production) in log
  }

  /** The version of a model that the log last moved to Production. */
  function LastMoved(log: seq<Event>, name: string): Option<nat> {
    if log == [] then None
    else
      var e := log[|log| - 1];
      if e.StageSet? && e.stage == Production && e.key.0 == name then Some(e.key.1)
      else LastMoved(log[..|log| - 1], name)
  }

  ghost predicate ProductionIsLast(r: Registry, log: seq<Event>) {
    forall k :: k in r && r[k].stage == Production ==> LastMoved(log, k.0) == Some(k.1)
  }

  ghost predicate MetricsLogged(r: Registry) {
    forall k :: k in r ==> LoggedBy(r[k].metrics, r[k].testSet, r[k].areas)
  }

  ghost predicate GatePassed(g: GateSettings, m: Metrics) {
    exists keys :: (forall k :: k in keys <==> k in m) && Passes(g, m, FairnessRecalls(m, keys))
  }

  /** The evidence behind an approval of the automated caller. */
  ghost predicate Justified(g: GateSettings, r: Registry, key: Key, signer: string, snapshot: Option<Metrics>) {
    signer == AUTO_APPROVER && key in r && snapshot == Some(r[key].metrics) && GatePassed(g, r[key].metrics)
  }

  ghost predicate JustifiedCall(g: GateSettings, r: Registry, c: Call) {
    c.Promoting? && c.automated ==> Justified(g, r, c.key, c.approvedBy, c.snapshot)
  }

  ghost predicate JustifiedEvent(g: GateSettings, r: Registry, e: Event) {
    e.ApprovalRecorded? && e.automated ==> var a := e.approval;
      Justified(g, r, (a.modelName, a.modelVersion), a.approvedBy, a.metricsSnapshot)
  }

  ghost predicate AutoJustified(g: GateSettings, r: Registry, log: seq<Event>, calls: seq<Call>) {
    (forall e :: e in log ==> JustifiedEvent(g, r, e)) && (forall c :: c in calls ==> JustifiedCall(g, r, c))
  }

  ghost predicate Invariant(g: GateSettings, st: State) {
    && ProductionApproved(st.registry, st.approvals)
    && ProductionLogged(st.registry, st.log)
    && ProductionIsLast(st.registry, st.log)
    && OneProduction(st.registry)
    && CallsApproved(st.calls, st.approvals)
    && LogOrdered(st.log)
    && LogHolds(st.log, st.approvals)
    && MetricsLogged(st.registry)
    && AutoJustified(g, st.registry, st.log, st.calls)
  }

  // ---- Preservation ----

  lemma UpdatedCalls(calls: seq<Call>, k: nat, c: Call)
    requires k < |calls|
    ensures forall d :: d in calls[k := c] ==> d in calls || d == c
    ensures calls[k] in calls
  {}

  lemma ApprovalsGrow(approvals: seq<Approval>, a: Approval)
    ensures forall n, v :: HasApproval(approvals, n, v, Production) ==> HasApproval(approvals + [a], n, v, Production)
    ensures a.toStage == Production ==> HasApproval(approvals + [a], a.modelName, a.modelVersion, Production)
  {
    forall n: string, v: nat | HasApproval(approvals, n, v, Production)
      ensures HasApproval(approvals + [a], n, v, Production)
    {
      var i :| 0 <= i < |approvals| && Approves(approvals[i], n, v, Production);
      assert Approves((approvals + [a])[i], n, v, Production);
    }
    assert (approvals + [a])[|approvals|] == a;
  }

  lemma LogGrows(log: seq<Event>, e: Event)
    requires LogOrdered(log)
    requires e.StageSet? && e.stage == Production ==> ApprovedBefore(log, |log|, e.key)
    ensures LogOrdered(log + [e])
  {
    forall i | 0 <= i < |log + [e]| && (log + [e])[i].StageSet? && (log + [e])[i].stage == Production
      ensures ApprovedBefore(log + [e], i, (log + [e])[i].key)
    {
      var key := (log + [e])[i].key;
      assert ApprovedBefore(log, i, key);
      var j :| 0 <= j < i && log[j].ApprovalRecorded? && Approves(log[j].approval, key.0, key.1, Production);
      assert (log + [e])[j] == log[j];
    }
  }

  lemma InLogGrows(log: seq<Event>, e: Event, a: Approval)
    ensures InLog(log + [e], a) <==> InLog(log, a) || (e.ApprovalRecorded? && e.approval == a)
  {
    if InLog(log, a) {
      var i :| 0 <= i < |log| && log[i].ApprovalRecorded? && log[i].approval == a;
      assert (log + [e])[i] == log[i];
    }
    assert (log + [e])[|log|] == e;
  }

  lemma LastMovedSnoc(log: seq<Event>, e: Event)
    ensures forall name ::
      LastMoved(log + [e], name) ==
      if e.StageSet? && e.stage == Production && e.key.0 == name then Some(e.key.1) else LastMoved(log, name)
  {
    assert (log + [e])[..|log|] == log;
  }

  lemma {:induction false} LastMovedConcat(log: seq<Event>, more: seq<Event>, name: string)
    ensures LastMoved(log + more, name) ==
      if LastMoved(more, name).Some? then LastMoved(more, name) else LastMoved(log, name)
  {
    if more == [] {
      assert log + more == log;
    } else {
      var n := |more| - 1;
      LastMovedConcat(log, more[..n], name);
      assert log + more == (log + more[..n]) + [more[n]] && more == more[..n] + [more[n]];
      LastMovedSnoc(log + more[..n], more[n]);
      LastMovedSnoc(more[..n], more[n]);
    }
  }

  lemma StageLogged(log: seq<Event>, approvals: seq<Approval>, key: Key, stage: Stage)
    requires LogHolds(log, approvals)
    ensures LogHolds(log + [StageSet(key, stage)], approvals)
  {
    hide InLog;
    forall a ensures InLog(log + [StageSet(key, stage)], a) <==> InLog(log, a) {
      InLogGrows(log, StageSet(key, stage), a);
    }
  }

  lemma ApprovalLogged(log: seq<Event>, approvals: seq<Approval>, a: Approval, automated: bool)
    requires LogHolds(log, approvals)
    ensures LogHolds(log + [ApprovalRecorded(a, automated)], approvals + [a])
  {
    hide InLog;
    forall b ensures InLog(log + [ApprovalRecorded(a, automated)], b) <==> InLog(log, b) || a == b {
      InLogGrows(log, ApprovalRecorded(a, automated), b);
    }
  }

  /** Versions change stage and nothing else, and none disappears. */
  ghost predicate SameRuns(r: Registry, s: Registry) {
    forall k :: k in r ==> k in s && r[k].(stage := s[k].stage) == s[k]
  }

  /** What justified an approval or a call still does after a step that logs e. */
  lemma JustifiedStays(g: GateSettings, r: Registry, s: Registry, log: seq<Event>, calls: seq<Call>, e: Event)
    requires AutoJustified(g, r, log, calls) && SameRuns(r, s)
    requires JustifiedEvent(g, s, e)
    ensures AutoJustified(g, s, log, calls) && AutoJustified(g, s, log + [e], calls)
  {
    hide GatePassed;
    forall d | d in log ensures JustifiedEvent(g, s, d) {
      assert JustifiedEvent(g, r, d);
    }
    forall c | c in calls ensures JustifiedCall(g, s, c) {
      assert JustifiedCall(g, r, c);
    }
  }

  lemma {:induction false} RegisterKeeps(g: GateSettings, st: State, key: Key, m: Metrics, testSet: seq<Example>,
                                         areas: Areas)
    requires Invariant(g, st) && Apply(g, st, Register(key, m, testSet, areas)).Some?
    ensures Invariant(g, Apply(g, st, Register(key, m, testSet, areas)).value)
  {
    hide HasApproval, LoggedBy, Justified, AutoJustified, LogOrdered, LogHolds;
    var next := Apply(g, st, Register(key, m, testSet, areas)).value;
    assert key !in st.registry;
    JustifiedStays(g, st.registry, next.registry, st.log, st.calls, StageSet(key, NoStage));
    CallAdded(g, next.registry, st.log, st.calls, Registering(key));
  }

  lemma CallAdded(g: GateSettings, r: Registry, log: seq<Event>, calls: seq<Call>, c: Call)
    requires AutoJustified(g, r, log, calls) && JustifiedCall(g, r, c)
    ensures AutoJustified(g, r, log, calls + [c])
  {
    hide JustifiedCall, JustifiedEvent;
  }

  lemma CallDropped(g: GateSettings, r: Registry, log: seq<Event>, approvals: seq<Approval>, calls: seq<Call>, k: nat)
    requires k < |calls|
    requires AutoJustified(g, r, log, calls) && CallsApproved(calls, approvals)
    ensures AutoJustified(g, r, log, Without(calls, k)) && CallsApproved(Without(calls, k), approvals)
  {
    hide JustifiedCall, JustifiedEvent, HasApproval;
    WithoutMembers(calls, k);
  }

  lemma CallAdvanced(g: GateSettings, r: Registry, log: seq<Event>, approvals: seq<Approval>, calls: seq<Call>, k: nat,
                     c: Call)
    requires k < |calls|
    requires AutoJustified(g, r, log, calls) && CallsApproved(calls, approvals)
    requires JustifiedCall(g, r, c)
    requires PastRecording(c) ==> HasApproval(approvals, c.key.0, c.key.1, Production)
    ensures AutoJustified(g, r, log, calls[k := c]) && CallsApproved(calls[k := c], approvals)
  {
    hide JustifiedCall, JustifiedEvent, HasApproval;
    UpdatedCalls(calls, k, c);
  }

  lemma {:induction false} StagingKeeps(g: GateSettings, st: State, k: nat)
    requires Invariant(g, st) && Apply(g, st, MoveToStaging(k)).Some?
    ensures Invariant(g, Apply(g, st, MoveToStaging(k)).value)
  {
    hide HasApproval, LoggedBy, Justified, AutoJustified, LogOrdered, LogHolds, CallsApproved, LastMoved;
    var next := Apply(g, st, MoveToStaging(k)).value;
    var e := StageSet(st.calls[k].key, Staging);
    LogGrows(st.log, e);
    LastMovedSnoc(st.log, e);
    StageLogged(st.log, st.approvals, st.calls[k].key, Staging);
    JustifiedStays(g, st.registry, next.registry, st.log, st.calls, e);
    CallDropped(g, next.registry, next.log, st.approvals, st.calls, k);
  }

  lemma {:induction false} GateKeeps(g: GateSettings, st: State, k: nat, keys: seq<string>)
    requires Invariant(g, st)
    ensures Apply(g, st, RunGate(k, keys)).Some? ==> Invariant(g, Apply(g, st, RunGate(k, keys)).value)
  {
    hide HasApproval, LoggedBy, LogOrdered, LogHolds, Passes, FairnessRecalls, AutoJustified, CallsApproved;
    if Apply(g, st, RunGate(k, keys)).None? { return; }
    var key := st.calls[k].key;
    var m := st.registry[key].metrics;
    if Promotable(g, m, keys) {
      assert GatePassed(g, m);
      assert Justified(g, st.registry, key, AUTO_APPROVER, Some(m));
      var c := Promoting(key, AUTO_APPROVER, Some(m), true, Starting);
      CallAdvanced(g, st.registry, st.log, st.approvals, st.calls, k, c);
    } else {
      CallDropped(g, st.registry, st.log, st.approvals, st.calls, k);
    }
  }

  lemma ApprovalAdded(r: Registry, approvals: seq<Approval>, calls: seq<Call>, a: Approval)
    requires CallsApproved(calls, approvals) && ProductionApproved(r, approvals)
    ensures CallsApproved(calls, approvals + [a]) && ProductionApproved(r, approvals + [a])
  {
    ApprovalsGrow(approvals, a);
  }

  lemma {:induction false} RecordKeeps(g: GateSettings, st: State, k: nat)
    requires Invariant(g, st) && Apply(g, st, Record(k)).Some?
    ensures Invariant(g, Apply(g, st, Record(k)).value)
  {
    hide HasApproval, LoggedBy, LogOrdered, LogHolds, Justified, AutoJustified, ProductionApproved, CallsApproved;
    hide LastMoved;
    var next := Apply(g, st, Record(k)).value;
    var c := st.calls[k];
    assert JustifiedCall(g, st.registry, c) by { CallJustified(g, st.registry, st.log, st.calls, k); }
    var a := Approval(c.key.0, c.key.1, c.phase.from, Production, c.approvedBy, c.snapshot);
    var e := ApprovalRecorded(a, c.automated);
    ApprovalsGrow(st.approvals, a);
    LogGrows(st.log, e);
    LastMovedSnoc(st.log, e);
    ApprovalLogged(st.log, st.approvals, a, c.automated);
    ApprovalAdded(st.registry, st.approvals, st.calls, a);
    JustifiedStays(g, st.registry, st.registry, st.log, st.calls, e);
    CallAdvanced(g, st.registry, next.log, next.approvals, st.calls, k, c.(phase := Recorded));
  }

  lemma CallJustified(g: GateSettings, r: Registry, log: seq<Event>, calls: seq<Call>, k: nat)
    requires AutoJustified(g, r, log, calls) && k < |calls|
    ensures JustifiedCall(g, r, calls[k])
  {}

  lemma ApprovalPrecedes(log: seq<Event>, approvals: seq<Approval>, key: Key)
    requires LogHolds(log, approvals) && HasApproval(approvals, key.0, key.1, Production)
    ensures ApprovedBefore(log, |log|, key)
  {
    var i :| 0 <= i < |approvals| && Approves(approvals[i], key.0, key.1, Production);
    assert approvals[i] in approvals;
    var j :| 0 <= j < |log| && log[j].ApprovalRecorded? && log[j].approval == approvals[i];
  }

  lemma {:induction false} ProductionKeeps(g: GateSettings, st: State, k: nat)
    requires Invariant(g, st) && Apply(g, st, Transition(k)).Some?
    ensures Invariant(g, Apply(g, st, Transition(k)).value)
  {
    hide LoggedBy, LogOrdered, LogHolds, Justified, AutoJustified, HasApproval, LastMoved;
    var next := Apply(g, st, Transition(k)).value;
    var key := st.calls[k].key;
    assert st.calls[k] in st.calls && PastRecording(st.calls[k]);
    var e := StageSet(key, Production);
    ApprovalPrecedes(st.log, st.approvals, key);
    LogGrows(st.log, e);
    LastMovedSnoc(st.log, e);
    StageLogged(st.log, st.approvals, key, Production);
    JustifiedStays(g, st.registry, next.registry, st.log, st.calls, e);
    CallDropped(g, next.registry, next.log, st.approvals, st.calls, k);
  }

  /** Every step, of any call, keeps the invariant. */
  lemma {:induction false} StepKeeps(g: GateSettings, st: State, step: Step)
    requires Invariant(g, st) && Apply(g, st, step).Some?
    ensures Invariant(g, Apply(g, st, step).value)
  {
    hide HasApproval, JustifiedCall, JustifiedEvent, ProductionApproved, ProductionLogged, ProductionIsLast;
    hide OneProduction;
    hide LogOrdered, LogHolds, MetricsLogged, LoggedBy, Passes, FairnessRecalls;
    match step
    case Register(key, m, testSet, areas) => RegisterKeeps(g, st, key, m, testSet, areas);
    case MoveToStaging(k) => StagingKeeps(g, st, k);
    case RunGate(k, keys) => GateKeeps(g, st, k, keys);
    case Record(k) => RecordKeeps(g, st, k);
    case Transition(k) => ProductionKeeps(g, st, k);
    case StartPromotion(key, signer, snapshot) => HandMade(g, st.registry, key, signer, snapshot);
    case StartAuto(name, enabled, drift, candidate) =>
      if candidate.Some? { NotPromoting(g, st.registry, (name, candidate.value)); }
    case Crash(k) => CallDropped(g, st.registry, st.log, st.approvals, st.calls, k);
    case ReadStage(k) =>
      CallJustified(g, st.registry, st.log, st.calls, k);
      if st.calls[k].key in st.registry {
        var from := st.registry[st.calls[k].key].stage;
        PhaseMoves(g, st.registry, st.calls[k], StageRead(from));
        CallAdvanced(g, st.registry, st.log, st.approvals, st.calls, k, st.calls[k].(phase := StageRead(from)));
      } else {
        CallDropped(g, st.registry, st.log, st.approvals, st.calls, k);
      }
    case Check(k) =>
      CallJustified(g, st.registry, st.log, st.calls, k);
      assert st.calls[k] in st.calls && PastRecording(st.calls[k]);
      PhaseMoves(g, st.registry, st.calls[k], Checked);
      CallAdvanced(g, st.registry, st.log, st.approvals, st.calls, k, st.calls[k].(phase := Checked));
  }

  lemma HandMade(g: GateSettings, r: Registry, key: Key, signer: string, snapshot: Option<Metrics>)
    ensures JustifiedCall(g, r, Promoting(key, signer, snapshot, false, Starting))
  {}

  lemma NotPromoting(g: GateSettings, r: Registry, key: Key)
    ensures JustifiedCall(g, r, Candidate(key))
  {}

  lemma PhaseMoves(g: GateSettings, r: Registry, c: Call, phase: Phase)
    requires c.Promoting? && JustifiedCall(g, r, c)
    ensures JustifiedCall(g, r, c.(phase := phase))
  {}

  lemma StepAppends(g: GateSettings, st: State, step: Step)
    requires Apply(g, st, step).Some?
    ensures st.approvals <= Apply(g, st, step).value.approvals
    ensures st.log <= Apply(g, st, step).value.log
  {}

  /** Promotion safety over all runs of any number of calls, crashes included. */
  lemma {:induction false} RunSafe(g: GateSettings, st: State, steps: seq<Step>)
    requires Invariant(g, st) && Run(g, st, steps).Some?
    ensures Invariant(g, Run(g, st, steps).value)
    ensures st.approvals <= Run(g, st, steps).value.approvals
    ensures st.log <= Run(g, st, steps).value.log
    decreases |steps|
  {
    hide Invariant, Apply;
    if steps != [] {
      StepKeeps(g, st, steps[0]);
      StepAppends(g, st, steps[0]);
      RunSafe(g, Apply(g, st, steps[0]).value, steps[1..]);
    }
  }

  lemma InitiallySafe(g: GateSettings)
    ensures Invariant(g, INITIAL)
  {}

  /** The log holds k's move to Production, and before it an approval for exactly k that is in the table. */
  ghost predicate MovedAfterApproval(st: State, k: Key) {
    exists i, j :: 0 <= j < i < |st.log|
      && st.log[i] == StageSet(k, Production)
      && st.log[j].ApprovalRecorded? && st.log[j].approval in st.approvals
      && st.log[j].approval.modelName == k.0 && st.log[j].approval.modelVersion == k.1
      && st.log[j].approval.toStage == Production
  }

  lemma ProductionHistory(g: GateSettings, st: State, k: Key)
    requires Invariant(g, st) && k in st.registry && st.registry[k].stage == Production
    ensures MovedAfterApproval(st, k)
  {
    hide AutoJustified, MetricsLogged, CallsApproved, OneProduction, ProductionApproved;
    assert StageSet(k, Production) in st.log;
    var i :| 0 <= i < |st.log| && st.log[i] == StageSet(k, Production);
    assert ApprovedBefore(st.log, i, k);
    var j :| 0 <= j < i && st.log[j].ApprovalRecorded? && Approves(st.log[j].approval, k.0, k.1, Production);
    assert InLog(st.log, st.log[j].approval);
  }

  /** What every reachable state promises. */
  lemma ReachableIsSafe(g: GateSettings, steps: seq<Step>)
    requires Run(g, INITIAL, steps).Some?
    ensures var st := Run(g, INITIAL, steps).value;
      && (forall k :: k in st.registry && st.registry[k].stage == Production ==> MovedAfterApproval(st, k))
      && OneProduction(st.registry)
      && LogHolds(st.log, st.approvals)
  {
    InitiallySafe(g);
    RunSafe(g, INITIAL, steps);
    var st := Run(g, INITIAL, steps).value;
    hide Run, MovedAfterApproval;
    forall k | k in st.registry && st.registry[k].stage == Production ensures MovedAfterApproval(st, k) {
      ProductionHistory(g, st, k);
    }
  }

  /** The label and the artifact of a reload may be read at two points of a run. Both versions are
      approved, and they are one version if and only if the last move of the model to Production that
      was logged in between, if there was any, was of the version the label names. */
  lemma ServedIsApproved(g: GateSettings, before: seq<Step>, between: seq<Step>, name: string, served: nat, loaded: nat)
    requires Run(g, INITIAL, before).Some? && Run(g, INITIAL, before + between).Some?
    requires IsLatestIn(Run(g, INITIAL, before).value.registry, name, Production, Some(served))
    requires IsLatestIn(Run(g, INITIAL, before + between).value.registry, name, Production, Some(loaded))
    ensures var first, now := Run(g, INITIAL, before).value, Run(g, INITIAL, before + between).value;
      && HasApproval(first.approvals, name, served, Production)
      && HasApproval(now.approvals, name, served, Production)
      && HasApproval(now.approvals, name, loaded, Production)
      && MovedAfterApproval(now, (name, loaded))
      && first.log <= now.log
      && var moved := LastMoved(now.log[|first.log|..], name);
         (served == loaded <==> moved.None? || moved == Some(served))
  {
    hide Run, MovedAfterApproval, LoggedBy, LastMoved;
    InitiallySafe(g);
    RunSafe(g, INITIAL, before);
    var first := Run(g, INITIAL, before).value;
    RunConcat(g, INITIAL, before, between);
    RunSafe(g, first, between);
    var now := Run(g, INITIAL, before + between).value;
    ProductionHistory(g, now, (name, loaded));
    ApprovalsKept(first.approvals, now.approvals, name, served);
    assert now.log == first.log + now.log[|first.log|..];
    LastMovedConcat(first.log, now.log[|first.log|..], name);
  }

  function RegisterAndPromote(key: Key): seq<Step> {
    [Register(key, MissedMetrics(), MISSED, NO_AREAS), MoveToStaging(0)]
    + ([StartPromotion(key, "lead", None)] + PROMOTION)
  }

  lemma RegisteredAndPromoted(g: GateSettings, st: State, key: Key)
    requires IsNext(st.registry, key.0, key.1) && st.calls == []
    ensures var v := Version(Staging, MissedMetrics(), MISSED, NO_AREAS);
      var next := Run(g, st, RegisterAndPromote(key));
      next.Some? && next.value.calls == [] && next.value.registry == ToProduction(st.registry[key := v], key)
  {
    hide MissedMetrics, Run, IsNext;
    MissedLogged();
    var register := [Register(key, MissedMetrics(), MISSED, NO_AREAS), MoveToStaging(0)];
    RegistrationIsARun(g, st, key, MissedMetrics(), MISSED, NO_AREAS);
    RunConcat(g, st, register, [StartPromotion(key, "lead", None)] + PROMOTION);
    PromotionIsARun(g, Run(g, st, register).value, key, "lead", None);
  }

  /** A promotion between the two reads leaves a label that names another version. */
  lemma ReloadMayMislabel(g: GateSettings) returns (before: seq<Step>, between: seq<Step>)
    ensures Run(g, INITIAL, before).Some? && Run(g, INITIAL, before + between).Some?
    ensures IsLatestIn(Run(g, INITIAL, before).value.registry, "model", Production, Some(1))
    ensures IsLatestIn(Run(g, INITIAL, before + between).value.registry, "model", Production, Some(2))
  {
    hide MissedMetrics, Run, RegisterAndPromote;
    before, between := RegisterAndPromote(("model", 1)), RegisterAndPromote(("model", 2));
    RegisteredAndPromoted(g, INITIAL, ("model", 1));
    RegisteredAndPromoted(g, Run(g, INITIAL, before).value, ("model", 2));
    RunConcat(g, INITIAL, before, between);
  }

  lemma ApprovalsKept(a: seq<Approval>, b: seq<Approval>, name: string, version: nat)
    requires a <= b && HasApproval(a, name, version, Production)
    ensures HasApproval(b, name, version, Production)
  {
    var i :| 0 <= i < |a| && Approves(a[i], name, version, Production);
    assert b[i] == a[i];
  }

  /** The approval check after the write cannot fail, whatever else runs in between. */
  lemma CheckNeverFails(g: GateSettings, st: State, k: nat)
    requires Invariant(g, st) && Apply(g, st, Check(k)).Some?
    ensures Apply(g, st, Check(k)).value.calls == st.calls[k := st.calls[k].(phase := Checked)]
  {
    assert st.calls[k] in st.calls && PastRecording(st.calls[k]);
  }

  // ---- What an automated approval is worth ----

  /** The approved version meets the recall floor in every country of its test set. */
  ghost predicate MeetsFloor(g: GateSettings, r: Registry, a: Approval) {
    var key := (a.modelName, a.modelVersion);
    key in r && forall c :: c in Countries(r[key].testSet) ==> SliceOf(r[key].testSet, c).recall >= Floor(g)
  }

  /** Every approval the automated call ever recorded bears its name and is for a version
      that meets the recall floor. */
  lemma AutoApprovedFloor(g: GateSettings, steps: seq<Step>, e: Event)
    requires Run(g, INITIAL, steps).Some?
    requires e in Run(g, INITIAL, steps).value.log && e.ApprovalRecorded? && e.automated
    ensures e.approval.approvedBy == AUTO_APPROVER
    ensures var r, key := Run(g, INITIAL, steps).value.registry, (e.approval.modelName, e.approval.modelVersion);
      key in r && FloorsMet(g, r[key].testSet) && forall c :: CountryFloorMet(g, r[key].testSet, c)
    ensures MeetsFloor(g, Run(g, INITIAL, steps).value.registry, e.approval)
  {
    hide Run, SliceOf, FairnessRecalls, Passes, LoggedBy, FloorsMet, CountryFloorMet;
    InitiallySafe(g);
    RunSafe(g, INITIAL, steps);
    var st := Run(g, INITIAL, steps).value;
    var a := e.approval;
    var key := (a.modelName, a.modelVersion);
    assert JustifiedEvent(g, st.registry, e);
    var v := st.registry[key];
    var keys :| (forall k :: k in keys <==> k in v.metrics) && Passes(g, v.metrics, FairnessRecalls(v.metrics, keys));
    PerCountryRecallFloor(g, v.metrics, v.testSet, v.areas, keys);
    GateLaw(g, v.metrics, v.testSet, v.areas, keys);
  }

  /** Some hand-made call signs with the automated caller's name. */
  ghost predicate Impersonated(steps: seq<Step>) {
    exists i :: 0 <= i < |steps| && steps[i].StartPromotion? && steps[i].approvedBy == AUTO_APPROVER
  }

  /** No hand-made call or approval bears the automated caller's name. */
  ghost predicate SignedByOwner(st: State) {
    && (forall c :: c in st.calls && c.Promoting? && !c.automated ==> c.approvedBy != AUTO_APPROVER)
    && (forall e :: e in st.log && e.ApprovalRecorded? && !e.automated ==> e.approval.approvedBy != AUTO_APPROVER)
  }

  lemma StepSigns(g: GateSettings, st: State, step: Step)
    requires SignedByOwner(st) && Apply(g, st, step).Some?
    requires step.StartPromotion? ==> step.approvedBy != AUTO_APPROVER
    ensures SignedByOwner(Apply(g, st, step).value)
  {
    hide LoggedBy, Promotable, IsNext, IsLatestStaging, HasApproval, ToProduction, Without;
    if step.MoveToStaging? || step.RunGate? || step.Transition? || step.Crash? || step.Check? || step.ReadStage? {
      WithoutMembers(st.calls, step.call);
    }
    if step.Record? || step.RunGate? || step.Check? || step.ReadStage? {
      assert st.calls[step.call] in st.calls;
    }
  }

  lemma {:induction false} RunSigns(g: GateSettings, st: State, steps: seq<Step>)
    requires SignedByOwner(st) && Run(g, st, steps).Some? && !Impersonated(steps)
    ensures SignedByOwner(Run(g, st, steps).value)
    decreases |steps|
  {
    hide SignedByOwner, Apply;
    if steps != [] {
      assert steps[0].StartPromotion? ==> steps[0].approvedBy != AUTO_APPROVER;
      StepSigns(g, st, steps[0]);
      assert forall i :: 0 <= i < |steps[1..]| ==> steps[1..][i] == steps[i + 1];
      RunSigns(g, Apply(g, st, steps[0]).value, steps[1..]);
    }
  }

  /** Every approval in the table that bears the automated caller's name is for a version that meets the floor. */
  ghost predicate SignatureMeansFloor(g: GateSettings, st: State) {
    forall a :: a in st.approvals && a.approvedBy == AUTO_APPROVER ==> MeetsFloor(g, st.registry, a)
  }

  lemma OwnSignatures(g: GateSettings, steps: seq<Step>)
    requires Run(g, INITIAL, steps).Some? && !Impersonated(steps)
    ensures SignatureMeansFloor(g, Run(g, INITIAL, steps).value)
  {
    hide Run, MeetsFloor, Impersonated;
    var st := Run(g, INITIAL, steps).value;
    InitiallySafe(g);
    RunSafe(g, INITIAL, steps);
    RunSigns(g, INITIAL, steps);
    forall a | a in st.approvals && a.approvedBy == AUTO_APPROVER ensures MeetsFloor(g, st.registry, a) {
      assert InLog(st.log, a);
      var i :| 0 <= i < |st.log| && st.log[i].ApprovalRecorded? && st.log[i].approval == a;
      AutoApprovedFloor(g, steps, st.log[i]);
    }
  }

  // ---- A forged signature ----

  const FORGED: Key := ("model", 1)
  const MISSED := [Example("US", true, 0.0)]
  const NO_AREAS := Areas(0.0, 0.0)

  function MissedMetrics(): Metrics {
    WithSlice(Evaluate(MISSED, NO_AREAS), "US", SliceOf(MISSED, "US"))
  }

  lemma MissedLogged()
    ensures LoggedBy(MissedMetrics(), MISSED, NO_AREAS)
    ensures Countries(MISSED) == {"US"} && SliceOf(MISSED, "US").recall == 0.0
  {
    assert MISSED[1..] == [];
    assert Filter(MISSED, From("US")) == MISSED;
    assert Count(MISSED, Caught) == 0;
    assert MISSED[0] in MISSED;
    assert {} + {"US"} == Countries(MISSED);
    LogCountry(Evaluate(MISSED, NO_AREAS), MISSED, NO_AREAS, {}, "US");
  }

  function ForgedRun(): seq<Step> {
    [Register(FORGED, MissedMetrics(), MISSED, NO_AREAS), MoveToStaging(0)]
    + ([StartPromotion(FORGED, AUTO_APPROVER, None)] + PROMOTION)
  }

  lemma {:induction false} RunConcat(g: GateSettings, st: State, s: seq<Step>, t: seq<Step>)
    requires Run(g, st, s).Some?
    ensures Run(g, st, s + t) == Run(g, Run(g, st, s).value, t)
    decreases |s|
  {
    hide Apply;
    if s == [] {
      assert s + t == t;
    } else {
      assert (s + t)[0] == s[0] && (s + t)[1..] == s[1..] + t;
      RunConcat(g, Apply(g, st, s[0]).value, s[1..], t);
    }
  }

  /** A model that misses the only fraud is promoted by hand under the automated caller's name. */
  lemma ForgedRunShows(g: GateSettings)
    ensures Run(g, INITIAL, ForgedRun()).Some?
    ensures SignatureMeansFloor(g, Run(g, INITIAL, ForgedRun()).value) ==> Floor(g) <= 0.0
  {
    hide MissedMetrics, Run, SliceOf;
    MissedLogged();
    RegistrationIsARun(g, INITIAL, FORGED, MissedMetrics(), MISSED, NO_AREAS);
    var register := [Register(FORGED, MissedMetrics(), MISSED, NO_AREAS), MoveToStaging(0)];
    var st := Run(g, INITIAL, register).value;
    RunConcat(g, INITIAL, register, [StartPromotion(FORGED, AUTO_APPROVER, None)] + PROMOTION);
    PromotionIsARun(g, st, FORGED, AUTO_APPROVER, None);
    var a := Approval(FORGED.0, FORGED.1, Staging, Production, AUTO_APPROVER, None);
    var last := Run(g, INITIAL, ForgedRun()).value;
    assert last.approvals == [a];
    assert a in last.approvals && last.registry[FORGED].testSet == MISSED;
    assert "US" in Countries(MISSED);
  }

  /** Approvals, and calls that have read a stage, are about registered versions. */
  ghost predicate AllRegistered(st: State) {
    && (forall a :: a in st.approvals ==> (a.modelName, a.modelVersion) in st.registry)
    && (forall c :: c in st.calls && c.Promoting? && c.phase != Starting ==> c.key in st.registry)
  }

  lemma StepRegisters(g: GateSettings, st: State, step: Step)
    requires AllRegistered(st) && Apply(g, st, step).Some?
    ensures AllRegistered(Apply(g, st, step).value)
  {
    hide LoggedBy, Promotable, IsNext, IsLatestStaging, HasApproval, Without;
    if step.MoveToStaging? || step.RunGate? || step.Transition? || step.Crash? || step.Check? || step.ReadStage? {
      WithoutMembers(st.calls, step.call);
    }
    if step.Record? || step.RunGate? || step.Check? || step.ReadStage? {
      assert st.calls[step.call] in st.calls;
    }
  }

  lemma {:induction false} RunRegisters(g: GateSettings, st: State, steps: seq<Step>)
    requires AllRegistered(st) && Run(g, st, steps).Some?
    ensures AllRegistered(Run(g, st, steps).value)
    decreases |steps|
  {
    hide AllRegistered, Apply;
    if steps != [] {
      StepRegisters(g, st, steps[0]);
      RunRegisters(g, Apply(g, st, steps[0]).value, steps[1..]);
    }
  }

  lemma NoFloor(g: GateSettings, steps: seq<Step>)
    requires Run(g, INITIAL, steps).Some? && Floor(g) <= 0.0
    ensures SignatureMeansFloor(g, Run(g, INITIAL, steps).value)
  {
    hide Run, Recall;
    var st := Run(g, INITIAL, steps).value;
    RunRegisters(g, INITIAL, steps);
    forall a | a in st.approvals ensures MeetsFloor(g, st.registry, a) {
      var es := st.registry[(a.modelName, a.modelVersion)].testSet;
      forall c ensures SliceOf(es, c).recall >= 0.0 {
        CaughtAreFraud(Filter(es, From(c)));
      }
    }
  }

  /** The automated caller's name on an approval is proof of the floor, over all runs, exactly when
      no hand-made call may use it, or when the floor asks for nothing. */
  lemma SignatureExact(g: GateSettings, mayImpersonate: bool)
    ensures (forall steps :: Run(g, INITIAL, steps).Some? && (Impersonated(steps) ==> mayImpersonate)
               ==> SignatureMeansFloor(g, Run(g, INITIAL, steps).value))
      <==> (!mayImpersonate || Floor(g) <= 0.0)
  {
    hide Run, ForgedRun;
    ForgedRunShows(g);
    forall steps | Run(g, INITIAL, steps).Some? && (Impersonated(steps) ==> mayImpersonate)
      ensures !mayImpersonate || Floor(g) <= 0.0 ==> SignatureMeansFloor(g, Run(g, INITIAL, steps).value)
    {
      if !Impersonated(steps) {
        OwnSignatures(g, steps);
      } else if Floor(g) <= 0.0 {
        NoFloor(g, steps);
      }
    }
  }
}

/**
 The status of a release over whole runs of passes: each decision is written to the status, and the
 status decides which conditions the next pass may touch.
 */
module ReleaseRuns {
  import opened Basics
  import opened ReleaseInternalState
  import opened ReleaseDecision

  datatype ChartRef = ChartRef(name: string, repository: string, clusterRepository: string, version: string)

  datatype Spec = Spec(generation: int, chart: ChartRef, values: Option<string>)

  datatype ReleaseStatus = ReleaseStatus(
    conditions: Conditions,
    observedGeneration: int,
    lastChart: Option<ChartRef>,
    lastValues: Option<string>,
    inventory: seq<string>)

  // ----- which conditions a pass may touch -----

  predicate ChartOutdated(spec: Spec, status: ReleaseStatus) {
    status.lastChart != Some(spec.chart)
  }

  predicate InProgress(cs: Conditions, t: string, reason: string) {
    t in cs && cs[t].status == Unknown && (cs[t].reason == reason || cs[t].reason == RECONCILING)
  }

  predicate IsFalse(cs: Conditions, t: string) {
    t in cs && cs[t].status == False
  }

  function ConditionTypes(spec: Spec, status: ReleaseStatus): seq<string> {
    var cs := status.conditions;
    if status.lastChart.None? || !IsTrue(cs, INSTALLED) then [READY, INSTALLED]
    else
      [READY]
      + (if ChartOutdated(spec, status) || IsFalse(cs, UPDATE_INSTALLED) || InProgress(cs, UPDATE_INSTALLED, "Upgrading")
         then [UPDATE_INSTALLED] else [])
      + (if spec.values != status.lastValues || IsFalse(cs, CONFIGURATION_APPLIED) || InProgress(cs, CONFIGURATION_APPLIED, "ApplyingValues")
         then [CONFIGURATION_APPLIED] else [])
  }

  method GetConditionTypesForUpdate(spec: Spec, status: ReleaseStatus) returns (types: seq<string>)
    ensures types == ConditionTypes(spec, status)
  {
    var cs := status.conditions;
    types := [READY];
    if status.lastChart.None? || !IsTrue(cs, INSTALLED) {
      return types + [INSTALLED];
    }
    if ChartOutdated(spec, status) || IsFalse(cs, UPDATE_INSTALLED) || InProgress(cs, UPDATE_INSTALLED, "Upgrading") {
      types := types + [UPDATE_INSTALLED];
    }
    if spec.values != status.lastValues || IsFalse(cs, CONFIGURATION_APPLIED)
       || InProgress(cs, CONFIGURATION_APPLIED, "ApplyingValues") {
      types := types + [CONFIGURATION_APPLIED];
    }
  }

  // ----- what the internal objects report -----

  /** The conditions of an internal object, its generation, and the artifact it holds. */
  datatype Report = Report(conditions: Conditions, generation: int, artifact: Option<string>)

  datatype ProbeFailure = ProbeFailure(err: string, reason: string, message: string, terminal: bool)

  const PROBE_REQUEUE: nat := 120

  datatype SourceRun =
    | Unresolved(failure: Failure)
    | FromChart(writeErr: Option<string>, report: Report)
    | FromRegistry(probe: Option<ProbeFailure>, writeErr: Option<string>, report: Report, versionRemoved: bool,
                   version: string, repositoryName: string)

  datatype ReleaseRun = ReleaseRun(writeErr: Option<string>, report: Report, latest: Option<Snapshot>, inventory: seq<string>)

  const NO_STATE := InternalState(false, false, Unset, "", "")

  function SourceOf(terminal: seq<TerminalRule>, run: SourceRun): Source {
    match run
    case Unresolved(f) => SourceUnresolved(f)
    case FromChart(writeErr, report) =>
      if writeErr.Some? then ServedByHelmChart(writeErr, None, NO_STATE)
      else ServedByHelmChart(None, report.artifact, Reduce(report.conditions, report.generation, terminal, HELM_CHART_RULES))
    case FromRegistry(probe, writeErr, report, removed, version, repositoryName) =>
      if probe.Some? then
        ServedByOCIRepository(None, None, NO_STATE, Some(probe.value.err), probe.value.reason, probe.value.message, probe.value.terminal,
                              if probe.value.terminal then 0 else PROBE_REQUEUE, false, "", "")
      else if writeErr.Some? then ServedByOCIRepository(writeErr, None, NO_STATE, None, "", "", false, 0, false, "", "")
      else
        ServedByOCIRepository(None, report.artifact, Reduce(report.conditions, report.generation, terminal, OCI_REPOSITORY_RULES),
                              None, "", "", false, 0, removed, version, repositoryName)
  }

  /** The internal HelmRelease is reconciled once its source holds an artifact. */
  function ReleaseOf(terminal: seq<TerminalRule>, source: Source, version: string, run: ReleaseRun): Option<ReleaseOutcome> {
    if Artifact(source).None? then None
    else if run.writeErr.Some? then Some(ReleaseOutcome(run.writeErr, None, NO_STATE, false, []))
    else
      Some(ReleaseOutcome(None, run.latest, Reduce(run.report.conditions, run.report.generation, terminal, HELM_RELEASE_RULES),
                          source.state.Ready() && IsDesiredChartDeployed(version, run.latest, Artifact(source).value), run.inventory))
  }

  /** How a pass ends. A pass that lifts maintenance goes on to one of the other endings. */
  datatype Ending =
    | StepFails(failure: Failure)
    | MaintenanceFails(err: string)
    | MaintenanceBegins
    | Paused
    | Reaches(forced: bool, source: SourceRun, release: ReleaseRun, inventory: Option<seq<string>>, valuesDigest: string)

  function OutcomeOf(terminal: seq<TerminalRule>, spec: Spec, status: ReleaseStatus, e: Ending): Outcome {
    match e
    case StepFails(f) => StepFailed(f)
    case MaintenanceFails(err) => MaintenanceChanged(Some(err), false)
    case MaintenanceBegins => MaintenanceChanged(None, true)
    case Paused => InMaintenance
    case Reaches(forced, run, release, inventory, digest) =>
      var source := SourceOf(terminal, run);
      var r := ReleaseOf(terminal, source, spec.chart.version, release);
      ChartReached(forced, source, r, if r.None? then inventory else None, ChartOutdated(spec, status), digest)
  }

  // ----- the run -----

  function WriteStatus(spec: Spec, status: ReleaseStatus, d: Decision): ReleaseStatus {
    ReleaseStatus(
      (status.conditions + d.conditions) - d.removed,
      if d.observedGeneration.Some? then d.observedGeneration.value else status.observedGeneration,
      if d.applyChart then Some(spec.chart) else status.lastChart,
      if d.applyValues then spec.values else status.lastValues,
      if d.inventory.Some? then d.inventory.value else status.inventory)
  }

  /** What happens to a release: work is announced before it begins, or a pass ends. */
  datatype Turn =
    | Announce(spec: Spec, reason: string, message: string)
    | Pass(spec: Spec, ending: Ending, maintenanceLifted: bool)

  function DecisionOf(terminal: seq<TerminalRule>, status: ReleaseStatus, t: Turn): Decision
    requires t.Pass?
  {
    Evaluate(Inputs(t.spec.generation, status.observedGeneration, ConditionTypes(t.spec, status),
                    OutcomeOf(terminal, t.spec, status, t.ending), t.maintenanceLifted))
  }

  function After(terminal: seq<TerminalRule>, status: ReleaseStatus, t: Turn): ReleaseStatus {
    match t
    case Announce(spec, reason, message) =>
      status.(conditions := status.conditions[RECONCILING := Condition(True, reason, message, spec.generation)])
    case Pass(spec, _, _) => WriteStatus(spec, status, DecisionOf(terminal, status, t))
  }

  function AfterAll(terminal: seq<TerminalRule>, status: ReleaseStatus, ts: seq<Turn>): ReleaseStatus
    decreases |ts|
  {
    if ts == [] then status else AfterAll(terminal, After(terminal, status, ts[0]), ts[1..])
  }

  // ----- what a decision touches -----

  predicate OwnTypes(types: seq<string>) {
    forall i :: 0 <= i < |types| ==> types[i] in {READY, INSTALLED, UPDATE_INSTALLED, CONFIGURATION_APPLIED}
  }

  predicate SameAt(cs: Conditions, cs': Conditions, t: string) {
    (t in cs' <==> t in cs) && (t in cs ==> cs'[t] == cs[t])
  }

  lemma SetConditionAt(d: Decision, generation: int, u: string, v: Verdict, t: string)
    ensures var d' := SetCondition(d, generation, u, v);
            && d' == d.(conditions := d'.conditions)
            && if t == u && !Empty(v)
               then t in d'.conditions && d'.conditions[t] == Condition(v.state.status, v.state.reason, v.state.message, generation)
               else SameAt(d.conditions, d'.conditions, t)
  {
  }

  lemma {:induction false} ProjectAt(types: seq<string>, v: Verdict, generation: int, d: Decision, t: string)
    ensures var p, s := Project(types, v, generation, d), Projected(t, v).state;
            && p == d.(conditions := p.conditions)
            && if t in types && !Empty(Projected(t, v))
               then t in p.conditions && p.conditions[t] == Condition(s.status, s.reason, s.message, generation)
               else SameAt(d.conditions, p.conditions, t)
    decreases |types|
  {
    if types != [] {
      var front, last := types[..|types| - 1], types[|types| - 1];
      ProjectAt(front, v, generation, d, t);
      assert types == front + [last];
      SetConditionAt(Project(front, v, generation, d), generation, last, Projected(last, v), t);
    }
  }

  lemma ProjectTouches(types: seq<string>, v: Verdict, generation: int, d: Decision)
    ensures var p := Project(types, v, generation, d);
            && p == d.(conditions := p.conditions)
            && (forall t :: t !in types || Empty(Projected(t, v)) ==> SameAt(d.conditions, p.conditions, t))
            && (forall t :: t in types && !Empty(Projected(t, v)) ==>
                  var s := Projected(t, v).state;
                  t in p.conditions && p.conditions[t] == Condition(s.status, s.reason, s.message, generation))
  {
    var p := Project(types, v, generation, d);
    ProjectAt(types, v, generation, d, READY);
    forall t
      ensures var s := Projected(t, v).state;
              if t in types && !Empty(Projected(t, v))
              then t in p.conditions && p.conditions[t] == Condition(s.status, s.reason, s.message, generation)
              else SameAt(d.conditions, p.conditions, t)
    {
      ProjectAt(types, v, generation, d, t);
    }
  }

  /** What raising Stalled or Reconciling does to a decision that has raised neither. */
  lemma AbnormalTouches(generation: int, d: Decision, s: Source, verdict: Option<Verdict>)
    requires STALLED !in d.conditions && RECONCILING !in d.conditions && d.removed == {STALLED, RECONCILING}
    ensures var stalled := StalledBy(s, verdict);
            var r := SetProgress(generation, SetStalled(generation, d, s, verdict), Progress(verdict, stalled));
            && r.conditions.Keys <= d.conditions.Keys + {STALLED, RECONCILING}
            && (forall t :: t in d.conditions ==> t in r.conditions && r.conditions[t] == d.conditions[t])
            && (STALLED in r.conditions <==> stalled)
            && (RECONCILING in r.conditions <==> Progress(verdict, stalled).Some?)
            && r.removed == {STALLED, RECONCILING} - r.conditions.Keys
  {
  }

  /** How a decision stands towards the conditions: what it may set, that it removes exactly the
      abnormal ones it does not raise, and that a stall hands no error to the queue. */
  predicate Accounted(d: Decision, types: seq<string>) {
    && (forall t :: t in d.conditions ==> t in types || t in {READY, MANAGED, STALLED, RECONCILING})
    && d.removed == {STALLED, RECONCILING} - d.conditions.Keys
    && !(STALLED in d.conditions && RECONCILING in d.conditions)
    && (STALLED in d.conditions ==> d.err.None?)
  }

  lemma ChartTouches(in_: Inputs)
    requires OwnTypes(in_.conditionTypes) && in_.outcome.ChartReached?
    ensures Accounted(EvaluateChartReached(in_, START), in_.conditionTypes)
  {
    var o := in_.outcome;
    var verdict := Decide(EvaluateChart(o.source), EvaluateRelease(o.release));
    var d1 := if verdict.None? then START
              else Project(in_.conditionTypes, verdict.value, in_.generation, START)
                   .(reported := if verdict.value.failure.err.Some? then Some(verdict.value.failure) else None);
    if verdict.Some? {
      ProjectTouches(in_.conditionTypes, verdict.value, in_.generation, START);
    }
    AbnormalTouches(in_.generation, d1, o.source, verdict);
  }

  lemma StepTouches(generation: int, f: Failure, types: seq<string>)
    ensures Accounted(EvaluateStepFailed(generation, START, f), types)
  {
  }

  lemma LiftKeepsAccount(d: Decision, in_: Inputs)
    requires d == EvaluateOutcome(in_)
    ensures Accounted(d, in_.conditionTypes) ==> Accounted(Evaluate(in_), in_.conditionTypes)
  {
  }

  lemma DecisionAccounted(in_: Inputs)
    requires OwnTypes(in_.conditionTypes) && in_.outcome != MaintenanceChanged(None, false)
    ensures Accounted(Evaluate(in_), in_.conditionTypes)
  {
    LiftKeepsAccount(EvaluateOutcome(in_), in_);
    match in_.outcome
    case StepFailed(f) => StepTouches(in_.generation, f, in_.conditionTypes);
    case MaintenanceChanged(err, _) =>
      StepTouches(in_.generation, Fails(FAILED, "Failed to change maintenance mode", err), in_.conditionTypes);
    case InMaintenance =>
    case ChartReached(_, _, _, _, _, _) => ChartTouches(in_);
  }

  /** No decision sets a condition it removes, or raises Stalled and Reconciling at once; one that
      leaves the release stalled hands nothing to the work queue. */
  lemma DecisionConsistent(terminal: seq<TerminalRule>, status: ReleaseStatus, t: Turn)
    requires t.Pass?
    ensures var d := DecisionOf(terminal, status, t);
            && Accounted(d, ConditionTypes(t.spec, status)) && d.conditions.Keys !! d.removed
  {
    DecisionAccounted(Inputs(t.spec.generation, status.observedGeneration, ConditionTypes(t.spec, status),
                             OutcomeOf(terminal, t.spec, status, t.ending), t.maintenanceLifted));
  }

  /** After every pass the release is not both stalled and reconciling, whatever it was before. */
  lemma NeverBothAfterAPass(terminal: seq<TerminalRule>, status: ReleaseStatus, t: Turn)
    requires t.Pass?
    ensures var cs := After(terminal, status, t).conditions; !(STALLED in cs && RECONCILING in cs)
  {
    DecisionConsistent(terminal, status, t);
  }

  /** Between two passes both stand exactly when work is announced on a release that is stalled. */
  lemma BothWhileAnnouncedIff(terminal: seq<TerminalRule>, status: ReleaseStatus, t: Turn)
    ensures var cs := After(terminal, status, t).conditions;
            (STALLED in cs && RECONCILING in cs) <==> t.Announce? && STALLED in status.conditions
  {
    if t.Pass? {
      NeverBothAfterAPass(terminal, status, t);
    }
  }

  // ----- observed generation -----

  /** The observed generation never goes back, and moves only on a settled verdict, to the generation
      of the spec that was settled. */
  lemma ObservedOnlyWhenSettled(terminal: seq<TerminalRule>, status: ReleaseStatus, t: Turn)
    ensures var after := After(terminal, status, t);
            && status.observedGeneration <= after.observedGeneration
            && (after.observedGeneration != status.observedGeneration ==>
                  && t.Pass? && after.observedGeneration == t.spec.generation
                  && (IsTrue(after.conditions, READY) || IsTrue(after.conditions, STALLED) ||
                      (var d := DecisionOf(terminal, status, t); d.reported.Some? && d.reported.value.badInput)))
            && (t.Pass? && Settled(DecisionOf(terminal, status, t)) ==> t.spec.generation <= after.observedGeneration)
  {
    if t.Pass? {
      DecisionConsistent(terminal, status, t);
    }
  }

  lemma {:induction false} ObservedNeverDecreases(terminal: seq<TerminalRule>, status: ReleaseStatus, ts: seq<Turn>)
    ensures status.observedGeneration <= AfterAll(terminal, status, ts).observedGeneration
    decreases |ts|
  {
    if ts != [] {
      ObservedOnlyWhenSettled(terminal, status, ts[0]);
      ObservedNeverDecreases(terminal, After(terminal, status, ts[0]), ts[1..]);
    }
  }
}

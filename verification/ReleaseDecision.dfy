/**
 What one reconcile pass of a release decides: the conditions it sets and removes, what it records,
 and what it hands to the work queue.
 */
module ReleaseDecision {
  import opened Basics
  import opened ReleaseInternalState

  const INSTALLED := "Installed"
  const UPDATE_INSTALLED := "UpdateInstalled"
  const CONFIGURATION_APPLIED := "ConfigurationApplied"
  const MANAGED := "Managed"

  /** One way a pass can fail; `err` is what is logged and may reach the work queue. */
  datatype Failure = Failure(reason: string, message: string, err: Option<string>, terminal: bool, awaitsWatch: bool,
                             badInput: bool, requeueAfter: nat)

  function Fails(reason: string, message: string, err: Option<string>): Failure {
    Failure(reason, message, err, false, false, false, 0)
  }

  const NO_FAILURE := Fails("", "", None)

  /** The internal source that serves a release, or the failure to decide on one. */
  datatype Source =
    | SourceUnresolved(failure: Failure)
    | ServedByHelmChart(err: Option<string>, artifact: Option<string>, state: InternalState)
    | ServedByOCIRepository(err: Option<string>, artifact: Option<string>, state: InternalState,
                            probeErr: Option<string>, probeReason: string, probeMessage: string, probeTerminal: bool,
                            probeRequeueAfter: nat, versionRemoved: bool, version: string, repositoryName: string)

  /** What came of reconciling the internal HelmRelease. */
  datatype ReleaseOutcome = ReleaseOutcome(err: Option<string>, latest: Option<Snapshot>, state: InternalState, chartDeployed: bool,
                                           inventory: seq<string>)

  /** How a pass ended. */
  datatype Outcome =
    | StepFailed(failure: Failure)
    | MaintenanceChanged(err: Option<string>, activated: bool)
    | InMaintenance
    | ChartReached(forced: bool, source: Source, release: Option<ReleaseOutcome>, inventory: Option<seq<string>>,
                   outdated: bool, valuesDigest: string)

  datatype Inputs = Inputs(generation: int, observedGeneration: int, conditionTypes: seq<string>, outcome: Outcome,
                           maintenanceLifted: bool)

  datatype Decision = Decision(
    conditions: Conditions,
    removed: set<string>,
    observedGeneration: Option<int>,
    forceRecorded: bool,
    reported: Option<Failure>,
    consumeForce: bool,
    inventory: Option<seq<string>>,
    applyChart: bool,
    applyValues: bool,
    requeueAfter: nat,
    err: Option<string>)

  const EMPTY := Decision(map[], {}, None, false, None, false, None, false, false, 0, None)

  /** One verdict, with the failure behind it if there is one. */
  datatype Verdict = Verdict(state: InternalState, failure: Failure)

  const NO_VERDICT := Verdict(InternalState(false, false, Unset, "", ""), NO_FAILURE)

  function FailureVerdict(f: Failure): Verdict {
    Verdict(InternalState(true, false, False, f.reason, f.message), f)
  }

  const MAINTENANCE_ACTIVE :=
    Verdict(InternalState(true, false, False, "MaintenanceModeActive", "Maintenance mode enabled"), NO_FAILURE)
  const MAINTENANCE_LIFTED :=
    Verdict(InternalState(true, false, True, "MaintenanceModeInactive", "Maintenance mode disabled"), NO_FAILURE)

  predicate Empty(v: Verdict) {
    v.state.status == Unset || v.state.reason == ""
  }

  // ----- building a decision -----

  function SetCondition(d: Decision, generation: int, t: string, v: Verdict): Decision {
    if Empty(v) then d
    else d.(conditions := d.conditions[t := Condition(v.state.status, v.state.reason, v.state.message, generation)])
  }

  /** An abnormal-true condition that is raised is not removed. */
  function SetAbnormal(d: Decision, generation: int, t: string, reason: string, message: string): Decision {
    d.(conditions := d.conditions[t := Condition(True, reason, message, generation)], removed := d.removed - {t})
  }

  /** Abnormal-true conditions are present only while they apply, so a decision starts by removing them. */
  const START := EMPTY.(removed := {STALLED, RECONCILING})

  // ----- the ending of a step -----

  /** The first error worth another attempt. */
  function RetryErr(f: Failure): Option<string> {
    if f.terminal || f.awaitsWatch || f.badInput then None else f.err
  }

  function EvaluateStepFailed(generation: int, d: Decision, f: Failure): Decision {
    var d1 := SetCondition(d, generation, READY, FailureVerdict(f));
    var d2 :=
      if f.terminal then SetAbnormal(d1, generation, STALLED, f.reason, f.message).(consumeForce := true)
      else if f.awaitsWatch then SetAbnormal(d1, generation, RECONCILING, RECONCILING, "Waiting for what the failed step needs")
      else SetAbnormal(d1, generation, RECONCILING, PROGRESSING_WITH_RETRY, "Retrying the step that failed");
    d2.(reported := Some(f), err := RetryErr(f), requeueAfter := f.requeueAfter)
  }

  function EvaluateInMaintenance(generation: int, d: Decision): Decision {
    SetCondition(SetCondition(d.(consumeForce := true), generation, MANAGED, MAINTENANCE_ACTIVE), generation, READY, MAINTENANCE_ACTIVE)
  }

  function EvaluateMaintenanceChanged(generation: int, d: Decision, err: Option<string>, activated: bool): Decision {
    if err.Some? then EvaluateStepFailed(generation, d, Fails(FAILED, "Failed to change maintenance mode", err))
    else if !activated then EMPTY.(err := Some("reconcile pass ended on lifted maintenance"))
    else EvaluateInMaintenance(generation, d)
  }

  // ----- the chart -----

  function EvaluateOCIRepo(s: Source): Verdict
    requires s.ServedByOCIRepository?
  {
    if s.probeErr.Some? then FailureVerdict(Fails(s.probeReason, s.probeMessage, s.probeErr))
    else if s.err.Some? then FailureVerdict(Fails(FAILED, "Failed to reconcile oci repository", s.err))
    else if s.versionRemoved && s.state.status != True then
      Verdict(s.state.(reason := "ChartVersionRemoved",
                       message := "Version " + s.version + " is no longer offered by repository " + s.repositoryName + ": " + s.state.message),
              NO_FAILURE)
    else Verdict(s.state, NO_FAILURE)
  }

  function EvaluateChart(s: Source): Verdict {
    match s
    case SourceUnresolved(f) => FailureVerdict(f)
    case ServedByHelmChart(err, _, state) =>
      if err.Some? then FailureVerdict(Fails("HelmChartFailed", "Failed to create helm chart", err)) else Verdict(state, NO_FAILURE)
    case ServedByOCIRepository(_, _, _, _, _, _, _, _, _, _, _) => EvaluateOCIRepo(s)
  }

  /** A chart version changes the artifact without touching the spec of the HelmRelease. */
  function EvaluateRelease(r: Option<ReleaseOutcome>): Verdict {
    if r.None? then NO_VERDICT
    else if r.value.err.Some? then FailureVerdict(Fails("HelmReleaseFailed", "Failed to create helm release", r.value.err))
    else if r.value.state.Ready() && !r.value.chartDeployed then Verdict(IN_FLIGHT, NO_FAILURE)
    else Verdict(r.value.state, NO_FAILURE)
  }

  /** The first step that did not succeed, or the last one that did. */
  function Decide(chart: Verdict, release: Verdict): Option<Verdict> {
    if Empty(chart) then (if Empty(release) then None else Some(release))
    else if !chart.state.Ready() || Empty(release) then Some(chart)
    else Some(release)
  }

  datatype Reasons = Reasons(succeeded: string, inFlight: string, failed: string)

  const LIFECYCLE_REASONS := map[
    INSTALLED := Reasons("InstallSucceeded", "Installing", "InstallFailed"),
    UPDATE_INSTALLED := Reasons("UpgradeSucceeded", "Upgrading", "UpgradeFailed"),
    CONFIGURATION_APPLIED := Reasons("ValuesApplied", "ApplyingValues", "ValuesApplyFailed")]

  function Lifecycle(t: string, v: Verdict): Verdict {
    if t !in LIFECYCLE_REASONS then v
    else
      var reasons := LIFECYCLE_REASONS[t];
      if v.state.status == True then v.(state := v.state.(reason := reasons.succeeded))
      else if v.state.status == Unknown then v.(state := v.state.(reason := reasons.inFlight))
      else if v.state.status == False && v.state.reason == "ReleaseFailed" then v.(state := v.state.(reason := reasons.failed))
      else v
  }

  function Projected(t: string, v: Verdict): Verdict {
    var state := Lifecycle(t, v);
    if t == READY && state.state.status == True then state.(state := state.state.(reason := "Success")) else state
  }

  function Project(types: seq<string>, v: Verdict, generation: int, d: Decision): Decision
    decreases |types|
  {
    if types == [] then d
    else
      var last := types[|types| - 1];
      SetCondition(Project(types[..|types| - 1], v, generation, d), generation, last, Projected(last, v))
  }

  predicate StalledBy(s: Source, verdict: Option<Verdict>) {
    (s.ServedByOCIRepository? && s.probeTerminal) || (verdict.Some? && verdict.value.state.stalled)
  }

  function SetStalled(generation: int, d: Decision, s: Source, verdict: Option<Verdict>): Decision {
    if s.ServedByOCIRepository? && s.probeTerminal then SetAbnormal(d, generation, STALLED, s.probeReason, s.probeMessage)
    else if verdict.Some? && verdict.value.state.stalled then
      SetAbnormal(d, generation, STALLED, verdict.value.state.reason, verdict.value.state.message)
    else d
  }

  /** What Reconciling says while the pass leaves something to wait for. */
  function Progress(verdict: Option<Verdict>, stalled: bool): Option<(string, string)> {
    if stalled || verdict.None? || verdict.value.failure.badInput then None
    else
      match verdict.value.state.status
      case Unknown => Some((verdict.value.state.reason, verdict.value.state.message))
      case False =>
        if verdict.value.failure.awaitsWatch then Some((RECONCILING, "Waiting for the repository to resolve the chart version"))
        else Some((PROGRESSING_WITH_RETRY, "Retrying after a failed reconcile"))
      case _ => None
  }

  function SetProgress(generation: int, d: Decision, progress: Option<(string, string)>): Decision {
    if progress.Some? then SetAbnormal(d, generation, RECONCILING, progress.value.0, progress.value.1) else d
  }

  function Artifact(s: Source): Option<string> {
    if s.SourceUnresolved? then None else s.artifact
  }

  predicate ValuesDeployed(o: Outcome)
    requires o.ChartReached?
  {
    && o.release.Some? && o.release.value.latest.Some?
    && o.release.value.latest.value.status == "deployed"
    && o.release.value.latest.value.configDigest == o.valuesDigest
  }

  function Requeue(s: Source, verdict: Option<Verdict>): nat {
    if s.ServedByOCIRepository? && s.probeRequeueAfter != 0 then s.probeRequeueAfter
    else if verdict.Some? then verdict.value.failure.requeueAfter else 0
  }

  function EvaluateChartReached(in_: Inputs, d: Decision): Decision
    requires in_.outcome.ChartReached?
  {
    var o := in_.outcome;
    var chart, release := EvaluateChart(o.source), EvaluateRelease(o.release);
    var verdict := Decide(chart, release);
    var stalled := StalledBy(o.source, verdict);
    var d1 :=
      if verdict.None? then d
      else Project(in_.conditionTypes, verdict.value, in_.generation, d)
           .(reported := if verdict.value.failure.err.Some? then Some(verdict.value.failure) else None);
    var d2 := SetProgress(in_.generation, SetStalled(in_.generation, d1, o.source, verdict), Progress(verdict, stalled));
    var requeue := Requeue(o.source, verdict);
    d2.(inventory := if o.release.Some? && o.release.value.err.None? then Some(o.release.value.inventory) else o.inventory,
        forceRecorded := o.forced, consumeForce := o.forced,
        applyChart := Artifact(o.source).Some? && o.source.state.Ready() && release.state.Ready() && o.outdated,
        applyValues := o.release.Some? && o.release.value.state.Ready() && ValuesDeployed(o),
        requeueAfter := requeue,
        err := if stalled || requeue != 0 then None
               else if RetryErr(chart.failure).Some? then RetryErr(chart.failure) else RetryErr(release.failure))
  }

  // ----- the pass -----

  function EvaluateOutcome(in_: Inputs): Decision {
    match in_.outcome
    case StepFailed(f) => EvaluateStepFailed(in_.generation, START, f)
    case MaintenanceChanged(err, activated) => EvaluateMaintenanceChanged(in_.generation, START, err, activated)
    case InMaintenance => EvaluateInMaintenance(in_.generation, START)
    case ChartReached(_, _, _, _, _, _) => EvaluateChartReached(in_, START)
  }

  predicate IsTrue(cs: Conditions, t: string) {
    t in cs && cs[t].status == True
  }

  /** Only a verdict the release will keep finishes with the spec: settled, given up, or refused. */
  predicate Settled(d: Decision) {
    IsTrue(d.conditions, READY) || IsTrue(d.conditions, STALLED) || (d.reported.Some? && d.reported.value.badInput)
  }

  function Evaluate(in_: Inputs): Decision {
    var d := EvaluateOutcome(in_);
    var d1 := if in_.maintenanceLifted then SetCondition(d, in_.generation, MANAGED, MAINTENANCE_LIFTED) else d;
    d1.(observedGeneration :=
        if !Settled(d1) then None
        else Some(if in_.generation < in_.observedGeneration then in_.observedGeneration else in_.generation))
  }
}

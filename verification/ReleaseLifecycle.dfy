/**
 What holds over every run of a release's passes: an installation is recorded once, no condition is
 left behind, and the last-applied chart advances only on what is really deployed.
 */
module ReleaseLifecycle {
  import opened Basics
  import opened ReleaseInternalState
  import opened ReleaseDecision
  import opened ReleaseRuns

  // ----- installed once -----

  predicate IsInstalled(status: ReleaseStatus) {
    status.lastChart.Some? && IsTrue(status.conditions, INSTALLED)
  }

  lemma InstalledStays(terminal: seq<TerminalRule>, status: ReleaseStatus, t: Turn)
    requires IsInstalled(status)
    ensures var after := After(terminal, status, t);
            IsInstalled(after) && after.conditions[INSTALLED] == status.conditions[INSTALLED]
  {
    if t.Pass? {
      DecisionConsistent(terminal, status, t);
      var d := DecisionOf(terminal, status, t);
      assert INSTALLED !in d.conditions;
    }
  }

  /** Once installed with a chart on record, the Installed condition never changes again. */
  lemma {:induction false} InstalledForever(terminal: seq<TerminalRule>, status: ReleaseStatus, ts: seq<Turn>)
    requires IsInstalled(status)
    ensures var after := AfterAll(terminal, status, ts);
            IsInstalled(after) && after.conditions[INSTALLED] == status.conditions[INSTALLED]
    decreases |ts|
  {
    if ts != [] {
      InstalledStays(terminal, status, ts[0]);
      InstalledForever(terminal, After(terminal, status, ts[0]), ts[1..]);
    }
  }

  // ----- nothing gets stuck -----

  /** An update or a configuration is reported only on an installed release, and while it is under way
      it says so with its own reason. */
  predicate Tracked(cs: Conditions, t: string, inFlight: string) {
    t in cs ==> cs[t].status != Unset && (cs[t].status == Unknown ==> cs[t].reason == inFlight)
  }

  predicate LifecycleInv(status: ReleaseStatus) {
    var cs := status.conditions;
    && (UPDATE_INSTALLED in cs || CONFIGURATION_APPLIED in cs ==> IsInstalled(status))
    && Tracked(cs, UPDATE_INSTALLED, "Upgrading") && Tracked(cs, CONFIGURATION_APPLIED, "ApplyingValues")
  }

  /** Lifting maintenance is reported under its own type. */
  lemma OutcomeStands(in_: Inputs, t: string)
    requires t != MANAGED
    ensures t in Evaluate(in_).conditions <==> t in EvaluateOutcome(in_).conditions
    ensures t in Evaluate(in_).conditions ==> Evaluate(in_).conditions[t] == EvaluateOutcome(in_).conditions[t]
  {
  }

  lemma LifecycleApart(t: string)
    requires t in LIFECYCLE_REASONS
    ensures t != READY && t != STALLED && t != RECONCILING && t != MANAGED
  {
  }

  lemma FailureLeavesLifecycle(generation: int, f: Failure, t: string)
    requires t != READY && t != STALLED && t != RECONCILING
    ensures t !in EvaluateStepFailed(generation, START, f).conditions
  {
  }

  /** What one decision writes for a lifecycle condition carries that condition's own reasons. */
  lemma DecisionTracks(in_: Inputs, t: string)
    requires OwnTypes(in_.conditionTypes) && t in LIFECYCLE_REASONS
    ensures Tracked(Evaluate(in_).conditions, t, LIFECYCLE_REASONS[t].inFlight)
    ensures t !in in_.conditionTypes ==> t !in Evaluate(in_).conditions
  {
    LifecycleApart(t);
    OutcomeStands(in_, t);
    match in_.outcome
    case StepFailed(f) => FailureLeavesLifecycle(in_.generation, f, t);
    case MaintenanceChanged(err, _) =>
      FailureLeavesLifecycle(in_.generation, Fails(FAILED, "Failed to change maintenance mode", err), t);
    case InMaintenance =>
    case ChartReached(_, _, _, _, _, _) => ChartTracks(in_, t);
  }

  lemma ChartTracks(in_: Inputs, t: string)
    requires OwnTypes(in_.conditionTypes) && t in LIFECYCLE_REASONS && in_.outcome.ChartReached?
    ensures var d := EvaluateChartReached(in_, START);
            Tracked(d.conditions, t, LIFECYCLE_REASONS[t].inFlight) && (t !in in_.conditionTypes ==> t !in d.conditions)
  {
    var o := in_.outcome;
    var verdict := Decide(EvaluateChart(o.source), EvaluateRelease(o.release));
    var d1 := if verdict.None? then START
              else Project(in_.conditionTypes, verdict.value, in_.generation, START)
                   .(reported := if verdict.value.failure.err.Some? then Some(verdict.value.failure) else None);
    LifecycleApart(t);
    if verdict.Some? {
      ProjectTouches(in_.conditionTypes, verdict.value, in_.generation, START);
      if t in d1.conditions {
        ProjectedTracks(t, verdict.value);
      }
    }
    AbnormalTouches(in_.generation, d1, o.source, verdict);
  }

  lemma ProjectedTracks(t: string, v: Verdict)
    requires t in LIFECYCLE_REASONS && !Empty(Projected(t, v))
    ensures Projected(t, v).state.status != Unset
    ensures Projected(t, v).state.status == Unknown ==> Projected(t, v).state.reason == LIFECYCLE_REASONS[t].inFlight
  {
  }

  /** What a turn leaves under a lifecycle type was there, or was the pass's to write. */
  lemma TurnTracks(terminal: seq<TerminalRule>, status: ReleaseStatus, t: Turn, ct: string)
    requires ct in LIFECYCLE_REASONS && Tracked(status.conditions, ct, LIFECYCLE_REASONS[ct].inFlight)
    ensures var after := After(terminal, status, t);
            && Tracked(after.conditions, ct, LIFECYCLE_REASONS[ct].inFlight)
            && (ct in after.conditions ==> ct in status.conditions || (t.Pass? && ct in ConditionTypes(t.spec, status)))
  {
    LifecycleApart(ct);
    if t.Pass? {
      DecisionTracks(Inputs(t.spec.generation, status.observedGeneration, ConditionTypes(t.spec, status),
                            OutcomeOf(terminal, t.spec, status, t.ending), t.maintenanceLifted), ct);
    }
  }

  lemma LifecycleKept(terminal: seq<TerminalRule>, status: ReleaseStatus, t: Turn)
    requires LifecycleInv(status)
    ensures LifecycleInv(After(terminal, status, t))
  {
    TurnTracks(terminal, status, t, UPDATE_INSTALLED);
    TurnTracks(terminal, status, t, CONFIGURATION_APPLIED);
    if IsInstalled(status) {
      InstalledStays(terminal, status, t);
    }
  }

  lemma {:induction false} LifecycleAlongRun(terminal: seq<TerminalRule>, status: ReleaseStatus, ts: seq<Turn>)
    requires LifecycleInv(status)
    ensures LifecycleInv(AfterAll(terminal, status, ts))
    decreases |ts|
  {
    if ts != [] {
      LifecycleKept(terminal, status, ts[0]);
      LifecycleAlongRun(terminal, After(terminal, status, ts[0]), ts[1..]);
    }
  }

  /** After any run from a new release, a lifecycle condition that is not True is among those the next
      pass may write, so none is left standing. */
  lemma NoneGetsStuck(terminal: seq<TerminalRule>, status: ReleaseStatus, ts: seq<Turn>, spec: Spec, t: string)
    requires status.conditions == map[]
    requires t in {INSTALLED, UPDATE_INSTALLED, CONFIGURATION_APPLIED}
    requires var cs := AfterAll(terminal, status, ts).conditions; t in cs && cs[t].status != True
    ensures t in ConditionTypes(spec, AfterAll(terminal, status, ts))
  {
    LifecycleAlongRun(terminal, status, ts);
  }

  // ----- what the last-applied record rests on -----

  /** The object reports that it is ready for the spec it has now, and nothing it raises contradicts it. */
  predicate SaysReady(report: Report, terminal: seq<TerminalRule>, rules: seq<ErrorRule>) {
    var cs, generation := report.conditions, report.generation;
    && READY in cs && cs[READY].status == True && cs[READY].observedGeneration == generation
    && (forall i :: 0 <= i < |rules| ==> !Fires(cs, generation, rules[i]))
    && (forall i :: 0 <= i < |terminal| ==> !Matches(cs, generation, terminal[i]))
    && (UnderWay(cs, generation) ==> GaveUp(cs, generation))
  }

  /** The source was reached without a failure, holds an artifact and is ready. */
  predicate SourceReady(run: SourceRun, terminal: seq<TerminalRule>) {
    match run
    case Unresolved(_) => false
    case FromChart(writeErr, report) => writeErr.None? && report.artifact.Some? && SaysReady(report, terminal, HELM_CHART_RULES)
    case FromRegistry(probe, writeErr, report, _, _, _) =>
      probe.None? && writeErr.None? && report.artifact.Some? && SaysReady(report, terminal, OCI_REPOSITORY_RULES)
  }

  /** The release was written, is ready, and runs the chart of the artifact. */
  predicate ReleaseDeployed(spec: Spec, run: SourceRun, release: ReleaseRun, terminal: seq<TerminalRule>)
    requires SourceReady(run, terminal)
  {
    && release.writeErr.None? && SaysReady(release.report, terminal, HELM_RELEASE_RULES)
    && IsDesiredChartDeployed(spec.chart.version, release.latest, run.report.artifact.value)
  }

  lemma SourceReadyIff(run: SourceRun, terminal: seq<TerminalRule>)
    ensures var source := SourceOf(terminal, run);
            && (Artifact(source).Some? && source.state.Ready() <==> SourceReady(run, terminal))
            && (SourceReady(run, terminal) ==> Artifact(source) == run.report.artifact && EvaluateChart(source) == Verdict(source.state, NO_FAILURE))
  {
    match run
    case Unresolved(_) =>
    case FromChart(_, report) => ReadyIff(report.conditions, report.generation, terminal, HELM_CHART_RULES);
    case FromRegistry(_, _, report, _, _, _) => ReadyIff(report.conditions, report.generation, terminal, OCI_REPOSITORY_RULES);
  }

  lemma ReleaseReadyIff(spec: Spec, run: SourceRun, release: ReleaseRun, terminal: seq<TerminalRule>)
    requires SourceReady(run, terminal)
    ensures var source := SourceOf(terminal, run);
            EvaluateRelease(ReleaseOf(terminal, source, spec.chart.version, release)).state.Ready() <==>
            ReleaseDeployed(spec, run, release, terminal)
  {
    SourceReadyIff(run, terminal);
    ReadyIff(release.report.conditions, release.report.generation, terminal, HELM_RELEASE_RULES);
  }

  /** The record of the last-applied chart advances exactly when the source is ready for its current
      spec, so is the release, and the latest deployed revision is of that artifact. */
  lemma ApplyChartIff(terminal: seq<TerminalRule>, status: ReleaseStatus, t: Turn)
    requires t.Pass?
    ensures DecisionOf(terminal, status, t).applyChart <==>
              && t.ending.Reaches? && SourceReady(t.ending.source, terminal)
              && ReleaseDeployed(t.spec, t.ending.source, t.ending.release, terminal)
              && status.lastChart != Some(t.spec.chart)
  {
    if t.ending.Reaches? {
      SourceReadyIff(t.ending.source, terminal);
      if SourceReady(t.ending.source, terminal) {
        ReleaseReadyIff(t.spec, t.ending.source, t.ending.release, terminal);
      }
    }
  }

  /** Conditions carry a status and a reason, as the API server demands. */
  predicate Reasoned(cs: Conditions) {
    forall t :: t in cs ==> cs[t].reason != "" && cs[t].status != Unset
  }

  /** Where source and release are both as the spec asks, the release's own verdict decides. */
  lemma DeployedVerdict(spec: Spec, run: SourceRun, release: ReleaseRun, terminal: seq<TerminalRule>)
    requires SourceReady(run, terminal) && ReleaseDeployed(spec, run, release, terminal) && Reasoned(release.report.conditions)
    ensures var source := SourceOf(terminal, run);
            var verdict := EvaluateRelease(ReleaseOf(terminal, source, spec.chart.version, release));
            verdict.state.status == True && Decide(EvaluateChart(source), verdict) == Some(verdict)
  {
    SourceReadyIff(run, terminal);
    ReleaseReadyIff(spec, run, release, terminal);
    ReadyReason(release.report.conditions, release.report.generation, terminal, HELM_RELEASE_RULES);
  }

  lemma DeployedIsReported(terminal: seq<TerminalRule>, status: ReleaseStatus, t: Turn)
    requires t.Pass? && t.ending.Reaches? && Reasoned(t.ending.release.report.conditions)
    requires SourceReady(t.ending.source, terminal) && ReleaseDeployed(t.spec, t.ending.source, t.ending.release, terminal)
    ensures var cs := DecisionOf(terminal, status, t).conditions; IsTrue(cs, READY) && cs[READY].reason == "Success"
  {
    DeployedVerdict(t.spec, t.ending.source, t.ending.release, terminal);
    var in_ := Inputs(t.spec.generation, status.observedGeneration, ConditionTypes(t.spec, status),
                      OutcomeOf(terminal, t.spec, status, t.ending), t.maintenanceLifted);
    ReadyWritten(in_, EvaluateRelease(in_.outcome.release));
  }

  lemma ReadyStands(terminal: seq<TerminalRule>, status: ReleaseStatus, t: Turn)
    requires t.Pass? && READY in DecisionOf(terminal, status, t).conditions
    ensures READY in After(terminal, status, t).conditions
    ensures After(terminal, status, t).conditions[READY] == DecisionOf(terminal, status, t).conditions[READY]
  {
    DecisionConsistent(terminal, status, t);
  }

  /** The pass that advances the record also reports the release ready. */
  lemma AppliedMeansReady(terminal: seq<TerminalRule>, status: ReleaseStatus, t: Turn)
    requires t.Pass? && t.ending.Reaches? && Reasoned(t.ending.release.report.conditions)
    requires DecisionOf(terminal, status, t).applyChart
    ensures var cs := After(terminal, status, t).conditions; IsTrue(cs, READY) && cs[READY].reason == "Success"
    ensures After(terminal, status, t).lastChart == Some(t.spec.chart)
  {
    ApplyChartIff(terminal, status, t);
    DeployedIsReported(terminal, status, t);
    ReadyStands(terminal, status, t);
  }

  lemma ReadyReason(cs: Conditions, generation: int, terminal: seq<TerminalRule>, rules: seq<ErrorRule>)
    requires Reduce(cs, generation, terminal, rules).Ready()
    ensures READY in cs && Reduce(cs, generation, terminal, rules).reason == cs[READY].reason
  {
    ReadyIff(cs, generation, terminal, rules);
    MatchTerminalIff(cs, generation, terminal);
    FirstErrorIff(cs, generation, rules, GaveUp(cs, generation));
  }

  /** A verdict projected onto Ready is what the pass reports. */
  lemma ReadyProjected(in_: Inputs, verdict: Verdict)
    requires OwnTypes(in_.conditionTypes) && READY in in_.conditionTypes && in_.outcome.ChartReached?
    requires Decide(EvaluateChart(in_.outcome.source), EvaluateRelease(in_.outcome.release)) == Some(verdict)
    requires !Empty(Projected(READY, verdict))
    ensures var cs, s := EvaluateChartReached(in_, START).conditions, Projected(READY, verdict).state;
            READY in cs && cs[READY] == Condition(s.status, s.reason, s.message, in_.generation)
  {
    ProjectTouches(in_.conditionTypes, verdict, in_.generation, START);
    var d1 := Project(in_.conditionTypes, verdict, in_.generation, START)
              .(reported := if verdict.failure.err.Some? then Some(verdict.failure) else None);
    AbnormalTouches(in_.generation, d1, in_.outcome.source, Some(verdict));
  }

  lemma ReadyWritten(in_: Inputs, verdict: Verdict)
    requires OwnTypes(in_.conditionTypes) && READY in in_.conditionTypes && in_.outcome.ChartReached?
    requires Decide(EvaluateChart(in_.outcome.source), EvaluateRelease(in_.outcome.release)) == Some(verdict)
    requires verdict.state.status == True
    ensures var cs := Evaluate(in_).conditions; IsTrue(cs, READY) && cs[READY].reason == "Success"
  {
    ReadyProjected(in_, verdict);
    OutcomeStands(in_, READY);
  }

  /** A pass reports the release ready exactly when it got to the chart and both the source and the
      release it deploys are what the spec asks for. `Grounded`: a source calls itself ready only while
      it holds an artifact. */
  predicate Grounded(run: SourceRun) {
    run.Unresolved? || (run.report.artifact.None? ==> !(READY in run.report.conditions && run.report.conditions[READY].status == True))
  }

  lemma {:induction false} TerminalReason(cs: Conditions, generation: int, rule: TerminalRule, types: seq<string>)
    ensures MatchTypes(cs, generation, rule, types).Some? ==> MatchTypes(cs, generation, rule, types).value.reason == rule.reason
    decreases |types|
  {
    if types != [] {
      TerminalReason(cs, generation, rule, types[1..]);
    }
  }

  lemma {:induction false} TerminalReasons(cs: Conditions, generation: int, rules: seq<TerminalRule>)
    requires forall i :: 0 <= i < |rules| ==> rules[i].reason != ""
    ensures MatchTerminal(cs, generation, rules).Some? ==> MatchTerminal(cs, generation, rules).value.reason != ""
    decreases |rules|
  {
    if rules != [] {
      TerminalReason(cs, generation, rules[0], rules[0].conditionTypes);
      TerminalReasons(cs, generation, rules[1..]);
    }
  }

  lemma {:induction false} ErrorReasons(cs: Conditions, generation: int, rules: seq<ErrorRule>, gaveUp: bool)
    requires forall i :: 0 <= i < |rules| ==> rules[i].reason != ""
    ensures FirstError(cs, generation, rules, gaveUp).Some? ==> FirstError(cs, generation, rules, gaveUp).value.reason != ""
    decreases |rules|
  {
    if rules != [] {
      ErrorReasons(cs, generation, rules[1..], gaveUp);
    }
  }

  /** A reduced state is an answer, and one that is True is an observed one. */
  lemma ReducedAnswers(cs: Conditions, generation: int, terminal: seq<TerminalRule>, rules: seq<ErrorRule>)
    requires Reasoned(cs)
    requires forall i :: 0 <= i < |terminal| ==> terminal[i].reason != ""
    requires forall i :: 0 <= i < |rules| ==> rules[i].reason != ""
    ensures var s := Reduce(cs, generation, terminal, rules);
            s.reason != "" && s.status != Unset && (s.status == True ==> s.Ready())
  {
    TerminalReasons(cs, generation, terminal);
    MatchTerminalIff(cs, generation, terminal);
    ErrorReasons(cs, generation, rules, GaveUp(cs, generation));
    FirstErrorIff(cs, generation, rules, GaveUp(cs, generation));
  }

  /** Whatever the source reported is an answer. */
  predicate Answers(run: SourceRun) {
    match run
    case Unresolved(f) => f.reason != ""
    case FromChart(_, report) => Reasoned(report.conditions)
    case FromRegistry(probe, _, report, _, _, _) => Reasoned(report.conditions) && (probe.Some? ==> probe.value.reason != "")
  }

  lemma SourceVerdict(run: SourceRun, terminal: seq<TerminalRule>)
    requires Answers(run) && Grounded(run) && forall i :: 0 <= i < |terminal| ==> terminal[i].reason != ""
    ensures var chart := EvaluateChart(SourceOf(terminal, run));
            !Empty(chart) && (chart.state.status == True <==> SourceReady(run, terminal)) && (SourceReady(run, terminal) ==> chart.state.Ready())
  {
    match run
    case Unresolved(_) =>
    case FromChart(_, report) =>
      ReducedAnswers(report.conditions, report.generation, terminal, HELM_CHART_RULES);
      ReadyIff(report.conditions, report.generation, terminal, HELM_CHART_RULES);
    case FromRegistry(_, _, report, _, _, _) =>
      ReducedAnswers(report.conditions, report.generation, terminal, OCI_REPOSITORY_RULES);
      ReadyIff(report.conditions, report.generation, terminal, OCI_REPOSITORY_RULES);
  }

  lemma ReleaseVerdict(spec: Spec, run: SourceRun, release: ReleaseRun, terminal: seq<TerminalRule>)
    requires SourceReady(run, terminal) && Reasoned(release.report.conditions)
    requires forall i :: 0 <= i < |terminal| ==> terminal[i].reason != ""
    ensures var v := EvaluateRelease(ReleaseOf(terminal, SourceOf(terminal, run), spec.chart.version, release));
            !Empty(v) && (v.state.status == True <==> ReleaseDeployed(spec, run, release, terminal))
  {
    SourceReadyIff(run, terminal);
    ReleaseReadyIff(spec, run, release, terminal);
    ReducedAnswers(release.report.conditions, release.report.generation, terminal, HELM_RELEASE_RULES);
  }

  lemma ReadyFromVerdict(in_: Inputs, verdict: Verdict)
    requires OwnTypes(in_.conditionTypes) && READY in in_.conditionTypes && in_.outcome.ChartReached?
    requires Decide(EvaluateChart(in_.outcome.source), EvaluateRelease(in_.outcome.release)) == Some(verdict) && !Empty(verdict)
    ensures IsTrue(Evaluate(in_).conditions, READY) <==> verdict.state.status == True
  {
    ReadyProjected(in_, verdict);
    OutcomeStands(in_, READY);
  }

  lemma ReadyReportedIff(terminal: seq<TerminalRule>, status: ReleaseStatus, t: Turn)
    requires t.Pass? && t.ending.Reaches? && Answers(t.ending.source) && Grounded(t.ending.source)
    requires Reasoned(t.ending.release.report.conditions) && forall i :: 0 <= i < |terminal| ==> terminal[i].reason != ""
    ensures IsTrue(DecisionOf(terminal, status, t).conditions, READY) <==>
              SourceReady(t.ending.source, terminal) && ReleaseDeployed(t.spec, t.ending.source, t.ending.release, terminal)
  {
    var e := t.ending;
    var in_ := Inputs(t.spec.generation, status.observedGeneration, ConditionTypes(t.spec, status),
                      OutcomeOf(terminal, t.spec, status, e), t.maintenanceLifted);
    var chart, release := EvaluateChart(in_.outcome.source), EvaluateRelease(in_.outcome.release);
    SourceVerdict(e.source, terminal);
    if SourceReady(e.source, terminal) {
      ReleaseVerdict(t.spec, e.source, e.release, terminal);
      ReadyFromVerdict(in_, release);
    } else {
      ReadyFromVerdict(in_, chart);
    }
  }

  /** The shipped terminal rules all name a reason. */
  lemma TerminalRulesAnswer(forbidden: string -> bool, postRender: string -> bool)
    ensures forall i :: 0 <= i < |TerminalRules(forbidden, postRender)| ==> TerminalRules(forbidden, postRender)[i].reason != ""
  {
  }

  /** With them, the report rests on nothing but what the internal objects say. */
  lemma ShippedReadyReportedIff(forbidden: string -> bool, postRender: string -> bool, status: ReleaseStatus, t: Turn)
    requires t.Pass? && t.ending.Reaches? && Answers(t.ending.source) && Grounded(t.ending.source)
    requires Reasoned(t.ending.release.report.conditions)
    ensures var rules := TerminalRules(forbidden, postRender);
            IsTrue(DecisionOf(rules, status, t).conditions, READY) <==>
              SourceReady(t.ending.source, rules) && ReleaseDeployed(t.spec, t.ending.source, t.ending.release, rules)
  {
    TerminalRulesAnswer(forbidden, postRender);
    ReadyReportedIff(TerminalRules(forbidden, postRender), status, t);
  }
}

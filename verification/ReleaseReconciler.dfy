/**
 The end of a reconcile pass as the controller runs it: the decision is built step by step, and then
 written onto the release.
 */
module ReleaseReconciler {
  import opened Basics
  import opened ReleaseInternalState
  import opened ReleaseDecision
  import opened ReleaseRuns

  /** The first verdict that is no success, or the last one there is; empty verdicts are no answer. */
  function DecideAmong(states: seq<Verdict>): Option<Verdict>
    decreases |states|
  {
    if states == [] then None
    else if Empty(states[0]) then DecideAmong(states[1..])
    else if !states[0].state.Ready() then Some(states[0])
    else
      var rest := DecideAmong(states[1..]);
      if rest.Some? then rest else Some(states[0])
  }

  lemma DecideBetween(chart: Verdict, release: Verdict)
    ensures DecideAmong([chart, release]) == Decide(chart, release)
  {
    assert [chart, release][1..] == [release];
    assert DecideAmong([release]) == if Empty(release) then None else Some(release);
  }

  method PickVerdict(states: seq<Verdict>) returns (verdict: Option<Verdict>)
    ensures verdict == DecideAmong(states)
  {
    verdict := None;
    var i := 0;
    while i < |states|
      invariant 0 <= i <= |states|
      invariant verdict.None? || verdict.value.state.Ready()
      invariant DecideAmong(states) == if DecideAmong(states[i..]).Some? then DecideAmong(states[i..]) else verdict
    {
      assert states[i..][0] == states[i] && states[i..][1..] == states[i + 1..];
      if !Empty(states[i]) {
        if !states[i].state.Ready() {
          return Some(states[i]);
        }
        verdict := Some(states[i]);
      }
      i := i + 1;
    }
  }

  function FirstRetry(failures: seq<Failure>): Option<string>
    decreases |failures|
  {
    if failures == [] then None
    else if RetryErr(failures[0]).Some? then RetryErr(failures[0]) else FirstRetry(failures[1..])
  }

  lemma RetryAmong(f: Failure, g: Failure)
    ensures FirstRetry([f]) == RetryErr(f)
    ensures FirstRetry([f, g]) == if RetryErr(f).Some? then RetryErr(f) else RetryErr(g)
  {
    assert [f][1..] == [] && [g][1..] == [] && [f, g][1..] == [g];
    assert FirstRetry([g]) == RetryErr(g);
  }

  method PickRetryErr(failures: seq<Failure>) returns (err: Option<string>)
    ensures err == FirstRetry(failures)
  {
    for i := 0 to |failures|
      invariant FirstRetry(failures) == FirstRetry(failures[i..])
    {
      assert failures[i..][0] == failures[i] && failures[i..][1..] == failures[i + 1..];
      var f := failures[i];
      if f.terminal || f.awaitsWatch || f.badInput {
        continue;
      }
      if f.err.Some? {
        return f.err;
      }
    }
    return None;
  }

  /** A decision in the making. */
  class Draft {
    var decision: Decision

    constructor ()
      ensures decision == START
    {
      decision := EMPTY.(removed := {STALLED, RECONCILING});
    }

    method Set(generation: int, t: string, v: Verdict)
      modifies this
      ensures decision == SetCondition(old(decision), generation, t, v)
    {
      if v.state.status == Unset || v.state.reason == "" {
        return;
      }
      decision := decision.(conditions := decision.conditions[t := Condition(v.state.status, v.state.reason, v.state.message, generation)]);
    }

    method Raise(generation: int, t: string, reason: string, message: string)
      modifies this
      ensures decision == SetAbnormal(old(decision), generation, t, reason, message)
    {
      decision := decision.(removed := decision.removed - {t});
      decision := decision.(conditions := decision.conditions[t := Condition(True, reason, message, generation)]);
    }

    method StepFailed(generation: int, f: Failure)
      modifies this
      ensures decision == EvaluateStepFailed(generation, old(decision), f)
    {
      Set(generation, READY, FailureVerdict(f));
      if f.terminal {
        Raise(generation, STALLED, f.reason, f.message);
        decision := decision.(consumeForce := true);
      } else if f.awaitsWatch {
        Raise(generation, RECONCILING, RECONCILING, "Waiting for what the failed step needs");
      } else {
        Raise(generation, RECONCILING, PROGRESSING_WITH_RETRY, "Retrying the step that failed");
      }
      RetryAmong(f, f);
      var err := PickRetryErr([f]);
      decision := decision.(reported := Some(f), err := err, requeueAfter := f.requeueAfter);
    }

    method Maintained(generation: int)
      modifies this
      ensures decision == EvaluateInMaintenance(generation, old(decision))
    {
      decision := decision.(consumeForce := true);
      Set(generation, MANAGED, MAINTENANCE_ACTIVE);
      Set(generation, READY, MAINTENANCE_ACTIVE);
    }

    /** Projects one verdict onto the conditions the pass may write. */
    method ProjectAll(types: seq<string>, verdict: Verdict, generation: int)
      modifies this
      ensures decision == Project(types, verdict, generation, old(decision))
    {
      for i := 0 to |types|
        invariant decision == Project(types[..i], verdict, generation, old(decision))
      {
        assert types[..i + 1][..i] == types[..i];
        var state := Lifecycle(types[i], verdict);
        if types[i] == READY && state.state.status == True {
          state := state.(state := state.state.(reason := "Success"));
        }
        Set(generation, types[i], state);
      }
      assert types[..|types|] == types;
    }

    /** What the verdict of the pass says of the conditions the pass may write. */
    method Conclude(types: seq<string>, verdict: Option<Verdict>, generation: int)
      modifies this
      ensures decision ==
              if verdict.None? then old(decision)
              else Project(types, verdict.value, generation, old(decision))
                   .(reported := if verdict.value.failure.err.Some? then Some(verdict.value.failure) else None)
      ensures decision == old(decision).(conditions := decision.conditions, reported := decision.reported)
    {
      if verdict.Some? {
        ProjectAll(types, verdict.value, generation);
        ProjectTouches(types, verdict.value, generation, old(decision));
        decision := decision.(reported := if verdict.value.failure.err.Some? then Some(verdict.value.failure) else None);
      }
    }

    /** The conditions that stand only while the release has given up or is at work. */
    method Announce(source: Source, verdict: Option<Verdict>, generation: int) returns (stalled: bool)
      modifies this
      ensures stalled == StalledBy(source, verdict)
      ensures decision == SetProgress(generation, SetStalled(generation, old(decision), source, verdict), Progress(verdict, stalled))
      ensures decision == old(decision).(conditions := decision.conditions, removed := decision.removed)
    {
      stalled := false;
      if source.ServedByOCIRepository? && source.probeTerminal {
        stalled := true;
        Raise(generation, STALLED, source.probeReason, source.probeMessage);
      } else if verdict.Some? && verdict.value.state.stalled {
        stalled := true;
        Raise(generation, STALLED, verdict.value.state.reason, verdict.value.state.message);
      }
      var progress := Progress(verdict, stalled);
      if progress.Some? {
        Raise(generation, RECONCILING, progress.value.0, progress.value.1);
      }
    }

    method ChartReached(in_: Inputs)
      requires in_.outcome.ChartReached? && decision == START
      modifies this
      ensures decision == EvaluateChartReached(in_, START)
    {
      var o := in_.outcome;
      var chart, release := EvaluateChart(o.source), EvaluateRelease(o.release);
      DecideBetween(chart, release);
      var verdict := PickVerdict([chart, release]);
      Conclude(in_.conditionTypes, verdict, in_.generation);
      var stalled := Announce(o.source, verdict, in_.generation);
      Record(o, release);
      Schedule(o.source, stalled, verdict, chart.failure, release.failure);
    }

    /** What the pass records besides conditions: only an artifact of the spec asking for it counts. */
    method Record(o: Outcome, release: Verdict)
      requires o.ChartReached?
      modifies this
      ensures decision == old(decision).(
                inventory := if o.release.Some? && o.release.value.err.None? then Some(o.release.value.inventory)
                             else if o.inventory.Some? then o.inventory else old(decision).inventory,
                forceRecorded := old(decision).forceRecorded || o.forced,
                consumeForce := old(decision).consumeForce || o.forced,
                applyChart := Artifact(o.source).Some? && o.source.state.Ready() && release.state.Ready() && o.outdated,
                applyValues := o.release.Some? && o.release.value.state.Ready() && ValuesDeployed(o))
    {
      if o.release.Some? && o.release.value.err.None? {
        decision := decision.(inventory := Some(o.release.value.inventory));
      } else if o.inventory.Some? {
        decision := decision.(inventory := o.inventory);
      }
      if o.forced {
        decision := decision.(forceRecorded := true, consumeForce := true);
      }
      var resolved := Artifact(o.source).Some?;
      decision := decision.(applyChart := resolved && o.source.state.Ready() && release.state.Ready() && o.outdated,
                            applyValues := o.release.Some? && o.release.value.state.Ready() && ValuesDeployed(o));
    }

    method Schedule(source: Source, stalled: bool, verdict: Option<Verdict>, chart: Failure, release: Failure)
      modifies this
      ensures var requeue := Requeue(source, verdict);
              decision == old(decision).(
                requeueAfter := requeue,
                err := if stalled || requeue != 0 then old(decision).err
                       else if RetryErr(chart).Some? then RetryErr(chart) else RetryErr(release))
    {
      var requeue := if source.ServedByOCIRepository? then source.probeRequeueAfter else 0;
      if requeue == 0 {
        requeue := if verdict.Some? then verdict.value.failure.requeueAfter else 0;
      }
      decision := decision.(requeueAfter := requeue);
      if !stalled && requeue == 0 {
        RetryAmong(chart, release);
        var err := PickRetryErr([chart, release]);
        decision := decision.(err := err);
      }
    }
  }

  method RunOutcome(in_: Inputs) returns (draft: Draft)
    ensures fresh(draft) && draft.decision == EvaluateOutcome(in_)
  {
    draft := new Draft();
    match in_.outcome
    case StepFailed(f) => draft.StepFailed(in_.generation, f);
    case MaintenanceChanged(err, activated) =>
      if err.Some? {
        draft.StepFailed(in_.generation, Fails(FAILED, "Failed to change maintenance mode", err));
      } else if !activated {
        draft.decision := EMPTY.(err := Some("reconcile pass ended on lifted maintenance"));
      } else {
        draft.Maintained(in_.generation);
      }
    case InMaintenance => draft.Maintained(in_.generation);
    case ChartReached(_, _, _, _, _, _) => draft.ChartReached(in_);
  }

  method RunEvaluate(in_: Inputs) returns (d: Decision)
    ensures d == Evaluate(in_)
  {
    var draft := RunOutcome(in_);
    if in_.maintenanceLifted {
      // Managed is written whatever the resumed work ends in; Ready is left to that work.
      draft.Set(in_.generation, MANAGED, MAINTENANCE_LIFTED);
    }
    d := draft.decision;
    var observed := None;
    if Settled(d) {
      observed := Some(if in_.generation < in_.observedGeneration then in_.observedGeneration else in_.generation);
    }
    d := d.(observedGeneration := observed);
  }

  /** A release object; conditions are merged, so those this pass did not touch stay. */
  class Release {
    var status: ReleaseStatus

    method SetConditions(conditions: Conditions, removed: set<string>)
      modifies this
      ensures status == old(status).(conditions := (old(status).conditions + conditions) - removed)
    {
      var todo := conditions.Keys;
      while todo != {}
        invariant todo <= conditions.Keys
        invariant status == old(status).(conditions := old(status).conditions + (conditions - todo))
        decreases todo
      {
        var t :| t in todo;
        todo := todo - {t};
        status := status.(conditions := status.conditions[t := conditions[t]]);
      }
      assert conditions - {} == conditions;
      var gone := removed;
      while gone != {}
        invariant gone <= removed
        invariant status == old(status).(conditions := (old(status).conditions + conditions) - (removed - gone))
        decreases gone
      {
        var t :| t in gone;
        gone := gone - {t};
        status := status.(conditions := status.conditions - {t});
      }
      assert removed - {} == removed;
    }

    method Write(spec: Spec, d: Decision)
      modifies this
      ensures status == WriteStatus(spec, old(status), d)
    {
      SetConditions(d.conditions, d.removed);
      if d.observedGeneration.Some? {
        status := status.(observedGeneration := d.observedGeneration.value);
      }
      if d.inventory.Some? {
        status := status.(inventory := d.inventory.value);
      }
      if d.applyChart {
        status := status.(lastChart := Some(spec.chart));
      }
      if d.applyValues {
        status := status.(lastValues := spec.values);
      }
    }
  }
}

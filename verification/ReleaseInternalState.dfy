/**
 What an internal object's own conditions say about it, reduced to one state, and whether the chart
 a release wants is the one it has deployed.
 */
module ReleaseInternalState {
  import opened Basics

  datatype Status = Unset | True | False | Unknown

  datatype Condition = Condition(status: Status, reason: string, message: string, observedGeneration: int)

  /** Conditions by type; an object has at most one of each. */
  type Conditions = map<string, Condition>

  const READY := "Ready"
  const STALLED := "Stalled"
  const RECONCILING := "Reconciling"
  const PROGRESSING_WITH_RETRY := "ProgressingWithRetry"
  const FAILED := "Failed"
  const PREREQUISITES_MESSAGE := "Fulfilling prerequisites"

  /** The state of one internal object. `observed` is false until it reports a verdict for the spec it
      was given; `stalled` says it gave up on that spec. */
  datatype InternalState = InternalState(observed: bool, stalled: bool, status: Status, reason: string, message: string) {
    predicate Ready() {
      observed && status == True
    }
  }

  /** A condition the object raises about itself, and the reason reported because of it. */
  datatype ErrorRule = ErrorRule(conditionType: string, trigger: Status, reason: string)

  /** A message that reports a fault no retry resolves. */
  datatype TerminalRule = TerminalRule(conditionTypes: seq<string>, matches: string -> bool, reason: string)

  /** The terminal rules, given what the two message patterns match. */
  function TerminalRules(forbidden: string -> bool, postRender: string -> bool): seq<TerminalRule> {
    [TerminalRule([READY, "Released", "Remediated"], forbidden, "AccessDenied"),
     TerminalRule([READY, "Released", "Remediated"], postRender, "RenderFailed")]
  }

  const HELM_RELEASE_RULES := [ErrorRule("Released", False, "ReleaseFailed"), ErrorRule("TestSuccess", False, "TestFailed"),
                               ErrorRule("Remediated", True, "Remediated")]

  const HELM_CHART_RULES := [ErrorRule("FetchFailed", True, "ChartFetchFailed"),
                             ErrorRule("StorageOperationFailed", True, "ChartStorageFailed")]

  const OCI_REPOSITORY_RULES := [ErrorRule("FetchFailed", True, "OCIFetchFailed"), ErrorRule("FetchFailed", True, "OCIArtifactPullFailed"),
                                 ErrorRule("IncludeUnavailable", True, "OCIIncludeUnavailable"),
                                 ErrorRule("StorageOperationFailed", True, "OCIStorageFailed"),
                                 ErrorRule("SourceVerified", False, "OCIVerificationFailed")]

  const UPSTREAM_REASONS := map["ArtifactFailed" := "ChartFetchFailed", "SourceNotReady" := "ChartSourceNotReady",
                                "ValuesError" := "InvalidValues", "RetriesExceeded" := "RetriesExceeded"]

  /** A condition with no observed generation counts as current. */
  predicate IsCurrent(cs: Conditions, t: string, generation: int) {
    t in cs && (cs[t].observedGeneration == 0 || cs[t].observedGeneration == generation)
  }

  /** Stricter: Ready is read as proof that the spec was observed. */
  predicate IsObserved(cs: Conditions, t: string, generation: int) {
    t in cs && cs[t].observedGeneration == generation
  }

  /** The first of the types whose current condition carries a matching message. */
  function MatchTypes(cs: Conditions, generation: int, rule: TerminalRule, types: seq<string>): (r: Option<InternalState>)
    decreases |types|
  {
    if types == [] then None
    else if IsCurrent(cs, types[0], generation) && rule.matches(cs[types[0]].message) then
      Some(InternalState(true, true, False, rule.reason, cs[types[0]].message))
    else MatchTypes(cs, generation, rule, types[1..])
  }

  function MatchTerminal(cs: Conditions, generation: int, rules: seq<TerminalRule>): Option<InternalState>
    decreases |rules|
  {
    if rules == [] then None
    else
      var first := MatchTypes(cs, generation, rules[0], rules[0].conditionTypes);
      if first.Some? then first else MatchTerminal(cs, generation, rules[1..])
  }

  function OwnState(status: Status, cond: Condition, stalled: bool): InternalState {
    if status == True then InternalState(true, stalled, status, cond.reason, cond.message)
    else if status == Unknown then InternalState(true, stalled, status, RECONCILING, cond.message)
    else if cond.reason in UPSTREAM_REASONS then InternalState(true, stalled, status, UPSTREAM_REASONS[cond.reason], cond.message)
    else InternalState(true, stalled, status, FAILED, if cond.message != "" then cond.reason + ": " + cond.message else cond.reason)
  }

  predicate Fires(cs: Conditions, generation: int, rule: ErrorRule) {
    IsCurrent(cs, rule.conditionType, generation) && cs[rule.conditionType].status == rule.trigger
  }

  /** The first error rule that fires, in the order of the rules. */
  function FirstError(cs: Conditions, generation: int, rules: seq<ErrorRule>, gaveUp: bool): Option<InternalState>
    decreases |rules|
  {
    if rules == [] then None
    else if Fires(cs, generation, rules[0]) then
      Some(InternalState(true, gaveUp, False, rules[0].reason, cs[rules[0].conditionType].message))
    else FirstError(cs, generation, rules[1..], gaveUp)
  }

  /** Ready only repeats what one of the conditions the rules look at says. */
  predicate Summarized(cs: Conditions, generation: int, rules: seq<ErrorRule>) {
    && READY in cs
    && exists i :: 0 <= i < |rules| && IsCurrent(cs, rules[i].conditionType, generation)
                   && cs[rules[i].conditionType].reason == cs[READY].reason && cs[rules[i].conditionType].message == cs[READY].message
  }

  const IN_FLIGHT := InternalState(false, false, Unknown, RECONCILING, "")

  predicate GaveUp(cs: Conditions, generation: int) {
    IsCurrent(cs, STALLED, generation) && cs[STALLED].status == True
  }

  /** Work is under way, other than the retry of an attempt that failed. */
  predicate UnderWay(cs: Conditions, generation: int) {
    && IsCurrent(cs, RECONCILING, generation) && cs[RECONCILING].status == True
    && cs[RECONCILING].reason != PROGRESSING_WITH_RETRY
  }

  function Reduce(cs: Conditions, generation: int, terminal: seq<TerminalRule>, rules: seq<ErrorRule>): InternalState {
    var fatal := MatchTerminal(cs, generation, terminal);
    if fatal.Some? then fatal.value
    else
      var gaveUp := GaveUp(cs, generation);
      var waits := !gaveUp && UnderWay(cs, generation);
      if waits && (!IsObserved(cs, READY, generation) || cs[READY].status != False || cs[RECONCILING].message != PREREQUISITES_MESSAGE) then
        IN_FLIGHT
      else if waits && !Summarized(cs, generation, rules) then OwnState(cs[READY].status, cs[READY], false)
      else
        var error := FirstError(cs, generation, rules, gaveUp);
        if error.Some? then error.value
        else if !IsObserved(cs, READY, generation) then
          if gaveUp then OwnState(False, cs[STALLED], true) else IN_FLIGHT
        else OwnState(cs[READY].status, cs[READY], gaveUp)
  }

  // ----- what the state means -----

  predicate Matches(cs: Conditions, generation: int, rule: TerminalRule) {
    exists i :: 0 <= i < |rule.conditionTypes| && IsCurrent(cs, rule.conditionTypes[i], generation)
      && rule.matches(cs[rule.conditionTypes[i]].message)
  }

  lemma {:induction false} MatchTypesIff(cs: Conditions, generation: int, rule: TerminalRule, types: seq<string>)
    ensures var r := MatchTypes(cs, generation, rule, types);
            && (r.Some? <==> exists i :: 0 <= i < |types| && IsCurrent(cs, types[i], generation) && rule.matches(cs[types[i]].message))
            && (r.Some? ==> r.value.observed && r.value.stalled && r.value.status == False)
    decreases |types|
  {
    if types != [] {
      MatchTypesIff(cs, generation, rule, types[1..]);
      assert forall i :: 0 < i < |types| ==> types[i] == types[1..][i - 1];
    }
  }

  lemma {:induction false} MatchTerminalIff(cs: Conditions, generation: int, rules: seq<TerminalRule>)
    ensures var r := MatchTerminal(cs, generation, rules);
            && (r.Some? <==> exists i :: 0 <= i < |rules| && Matches(cs, generation, rules[i]))
            && (r.Some? ==> r.value.observed && r.value.stalled && r.value.status == False)
    decreases |rules|
  {
    if rules != [] {
      MatchTypesIff(cs, generation, rules[0], rules[0].conditionTypes);
      MatchTerminalIff(cs, generation, rules[1..]);
      assert forall i :: 0 < i < |rules| ==> rules[i] == rules[1..][i - 1];
    }
  }

  lemma {:induction false} FirstErrorIff(cs: Conditions, generation: int, rules: seq<ErrorRule>, gaveUp: bool)
    ensures var r := FirstError(cs, generation, rules, gaveUp);
            && (r.Some? <==> exists i :: 0 <= i < |rules| && Fires(cs, generation, rules[i]))
            && (r.Some? ==> r.value.observed && r.value.stalled == gaveUp && r.value.status == False)
    decreases |rules|
  {
    if rules != [] {
      FirstErrorIff(cs, generation, rules[1..], gaveUp);
      assert forall i :: 0 < i < |rules| ==> rules[i] == rules[1..][i - 1];
    }
  }

  /** An object counts as ready exactly when it says so of its current generation, no error rule fires,
      no terminal message stands, and it is not at work unless it has given up. */
  lemma ReadyIff(cs: Conditions, generation: int, terminal: seq<TerminalRule>, rules: seq<ErrorRule>)
    ensures Reduce(cs, generation, terminal, rules).Ready() <==>
              && READY in cs && cs[READY].status == True && cs[READY].observedGeneration == generation
              && (forall i :: 0 <= i < |rules| ==> !Fires(cs, generation, rules[i]))
              && (forall i :: 0 <= i < |terminal| ==> !Matches(cs, generation, terminal[i]))
              && (UnderWay(cs, generation) ==> GaveUp(cs, generation))
  {
    MatchTerminalIff(cs, generation, terminal);
    FirstErrorIff(cs, generation, rules, GaveUp(cs, generation));
  }

  /** A state is reported stalled only if the object gave up or hit a terminal message. */
  lemma StalledIff(cs: Conditions, generation: int, terminal: seq<TerminalRule>, rules: seq<ErrorRule>)
    ensures Reduce(cs, generation, terminal, rules).stalled <==>
            (exists i :: 0 <= i < |terminal| && Matches(cs, generation, terminal[i])) || GaveUp(cs, generation)
  {
    MatchTerminalIff(cs, generation, terminal);
    FirstErrorIff(cs, generation, rules, GaveUp(cs, generation));
  }

  /** An object that never calls itself ready and stalled at once is never reduced to both. */
  lemma ReadyNotStalled(cs: Conditions, generation: int, terminal: seq<TerminalRule>, rules: seq<ErrorRule>)
    requires !(READY in cs && cs[READY].status == True && STALLED in cs && cs[STALLED].status == True)
    ensures var s := Reduce(cs, generation, terminal, rules); !(s.Ready() && s.stalled)
  {
    ReadyIff(cs, generation, terminal, rules);
    StalledIff(cs, generation, terminal, rules);
  }

  // ----- which chart is deployed -----

  /** The latest entry of a release's history. */
  datatype Snapshot = Snapshot(status: string, ociDigest: string, chartVersion: string, configDigest: string)

  /** What follows the first `@`. */
  function AfterAt(s: string): (r: Option<string>)
    ensures r.None? <==> '@' !in s
  {
    if s == "" then None else if s[0] == '@' then Some(s[1..]) else AfterAt(s[1..])
  }

  /** The digest is recorded alone for a semver tag and as `<tag>@<algorithm>:<digest>` otherwise. */
  function RecordedOCIDigest(ociDigest: string): string {
    var digest := AfterAt(ociDigest);
    if digest.Some? then digest.value else ociDigest
  }

  predicate IsDesiredChartDeployed(version: string, latest: Option<Snapshot>, artifactRevision: string) {
    if latest.None? || latest.value.status != "deployed" then false
    else if latest.value.ociDigest != "" then
      var digest := AfterAt(artifactRevision);
      digest.Some? && RecordedOCIDigest(latest.value.ociDigest) == digest.value
    else version != "" && latest.value.chartVersion == version
  }

  lemma {:induction false} AfterAtOf(head: string, tail: string)
    requires '@' !in head
    ensures AfterAt(head + "@" + tail) == Some(tail)
  {
    if head == "" {
      assert (head + "@" + tail)[1..] == tail;
    } else {
      AfterAtOf(head[1..], tail);
      assert (head + "@" + tail)[1..] == head[1..] + "@" + tail;
    }
  }

  /** In whichever of its two forms a digest was recorded, the artifact is the deployed one exactly
      when its revision carries the same digest. */
  lemma DeployedByDigestIff(version: string, snapshot: Snapshot, tag: string, recorded: string, name: string, digest: string)
    requires snapshot.status == "deployed" && recorded != ""
    requires '@' !in tag && '@' !in recorded && '@' !in name
    requires snapshot.ociDigest == recorded || snapshot.ociDigest == tag + "@" + recorded
    ensures IsDesiredChartDeployed(version, Some(snapshot), name + "@" + digest) <==> recorded == digest
    ensures !IsDesiredChartDeployed(version, Some(snapshot), name)
  {
    AfterAtOf(name, digest);
    AfterAtOf(tag, recorded);
  }
}

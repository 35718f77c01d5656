/**
 The chart claim protocol: a Lease per repository/chart pair decides which HelmClusterAddon
 may use the pair. The API server is a store of leases and existing addons; every operation on
 a claim is a program counter that advances by one API call at a time, and the calls of
 different addons interleave arbitrarily.
 */
module ClaimProtocol {
  import opened Basics

  datatype Pair = Pair(repo: string, chart: string)

  const CLAIM_PREFIX := "hca-claim"
  const LABEL_MANAGED_BY := "helm.deckhouse.io/managed-by"
  const LABEL_MANAGED_BY_VALUE := "operator-helm"
  const LABEL_SOURCE_NAME := "helm.deckhouse.io/cluster-addon"

  /** What the hash covers. The parts are joined by a dash, so two pairs can share it. */
  function ClaimText(p: Pair): string {
    CLAIM_PREFIX + "-" + p.repo + "-" + p.chart
  }

  /** The lease guarding a pair; `hash` is any function from text to text. */
  function LeaseName(hash: string -> string, p: Pair): string {
    CLAIM_PREFIX + "-" + hash(ClaimText(p))
  }

  function SourceLabels(addon: string): map<string, string> {
    map[LABEL_MANAGED_BY := LABEL_MANAGED_BY_VALUE, LABEL_SOURCE_NAME := addon]
  }

  predicate HasLabels(labels: map<string, string>, wanted: map<string, string>) {
    forall l :: l in wanted ==> l in labels && labels[l] == wanted[l]
  }

  /** A claim lease. A lease that records no holder has the empty one. */
  datatype Lease = Lease(holder: string, labels: map<string, string>, rev: nat)

  /** How one operation of an addon ended. */
  datatype Outcome = Acquired | Refused(holder: string) | Released | Failed

  /** Where an operation of one addon stands between two API calls. */
  datatype Pass =
    | Reading(key: string)
    | Creating(key: string)
    | Rereading(key: string)
    | Checking(key: string, lease: Lease)
    | TakingOver(key: string, lease: Lease)
    | DropReading(key: string)
    | Listing(keep: set<string>)
    | Deleting(todo: map<string, nat>, keep: set<string>)
    | Done(outcome: Outcome)

  datatype System = System(
    leases: map<string, Lease>,
    nextRev: nat,
    existing: set<string>,
    used: set<string>,
    passes: map<string, Pass>,
    held: set<(string, string)>)  // claims acquired and not released, by addon and lease name

  datatype Operation =
    | Acquire(key: string)
    | Drop(key: string)
    | DropStale(current: string, last: Option<string>)
    | DropAll

  /** How the API server answers one call: served, rejected, or served with the answer lost. */
  datatype Fault = Served | Rejected | Unacknowledged

  datatype Event =
    | AddonCreated(addon: string)
    | AddonDeleted(addon: string)
    | Begin(addon: string, op: Operation)
    | Call(addon: string, fault: Fault, target: string)

  // ----- one API call -----

  predicate Idle(s: System, a: string) {
    a in s.passes ==> s.passes[a].Done?
  }

  function At(s: System, a: string, p: Pass): System {
    s.(passes := s.passes[a := p])
  }

  function Fail(s: System, a: string): System {
    At(s, a, Done(Failed))
  }

  /** DropStale frees nothing unless the recorded chart is the one the spec names. */
  function FirstPass(op: Operation): Pass {
    match op
    case Acquire(key) => Reading(key)
    case Drop(key) => DropReading(key)
    case DropStale(current, last) =>
      if last.None? || last.value != current then Done(Released) else Listing({current})
    case DropAll => Listing({})
  }

  /** The pass of an addon deleted meanwhile may still succeed; nobody then has the claim. */
  function Claimed(s: System, a: string, key: string): System {
    At(s, a, Done(Acquired)).(held := s.held + if a in s.existing then {(a, key)} else {})
  }

  /** The ownership check Acquire makes on a lease it has read. */
  function Decide(s: System, a: string, key: string, lease: Lease): System {
    if lease.holder == a then Claimed(s, a, key)
    else if lease.holder == "" then At(s, a, TakingOver(key, lease))
    else At(s, a, Checking(key, lease))
  }

  function WriteLease(s: System, a: string, key: string, labels: map<string, string>): System {
    s.(leases := s.leases[key := Lease(a, labels, s.nextRev)], nextRev := s.nextRev + 1)
  }

  function RemoveLease(s: System, a: string, key: string): System {
    s.(leases := s.leases - {key}, held := s.held - {(a, key)})
  }

  /** The leases dropOwned goes through: labelled for the addon, held by it, not kept. */
  function OwnedLeases(s: System, a: string, keep: set<string>): map<string, nat> {
    map k | k in s.leases && HasLabels(s.leases[k].labels, SourceLabels(a))
            && s.leases[k].holder == a && k !in keep :: s.leases[k].rev
  }

  function Remaining(todo: map<string, nat>, keep: set<string>): Pass {
    if todo == map[] then Done(Released) else Deleting(todo, keep)
  }

  function StepCreate(s: System, a: string, key: string, f: Fault): System {
    if f.Rejected? then Fail(s, a)
    else if key in s.leases then
      if f.Served? then At(s, a, Rereading(key)) else Fail(s, a)
    else
      var s' := WriteLease(s, a, key, SourceLabels(a));
      if f.Served? then Claimed(s', a, key) else Fail(s', a)
  }

  function StepTakeOver(s: System, a: string, key: string, lease: Lease, f: Fault): System {
    if f.Rejected? || key !in s.leases then Fail(s, a)
    else if s.leases[key].rev != lease.rev then
      if f.Served? then At(s, a, Done(Refused(lease.holder))) else Fail(s, a)
    else
      var s' := WriteLease(s, a, key, lease.labels + SourceLabels(a));
      if f.Served? then Claimed(s', a, key) else Fail(s', a)
  }

  function StepDelete(s: System, a: string, todo: map<string, nat>, keep: set<string>, f: Fault, k: string): System {
    if k !in todo then s
    else if f.Rejected? then Fail(s, a)
    else
      var s' := if k in s.leases && s.leases[k].rev == todo[k] then RemoveLease(s, a, k) else s;
      if f.Served? then At(s', a, Remaining(todo - {k}, keep)) else Fail(s', a)
  }

  function StepCall(s: System, a: string, f: Fault, target: string): System
    requires a in s.passes
  {
    match s.passes[a]
    case Reading(key) =>
      if !f.Served? then Fail(s, a)
      else if key in s.leases then Decide(s, a, key, s.leases[key])
      else At(s, a, Creating(key))
    case Creating(key) => StepCreate(s, a, key, f)
    case Rereading(key) =>
      if !f.Served? || key !in s.leases then Fail(s, a) else Decide(s, a, key, s.leases[key])
    case Checking(key, lease) =>
      if !f.Served? then Fail(s, a)
      else if lease.holder in s.existing then At(s, a, Done(Refused(lease.holder)))
      else At(s, a, TakingOver(key, lease))
    case TakingOver(key, lease) => StepTakeOver(s, a, key, lease, f)
    case DropReading(key) =>
      if !f.Served? then Fail(s, a)
      else if key !in s.leases || s.leases[key].holder != a then At(s, a, Done(Released))
      else At(s, a, Deleting(map[key := s.leases[key].rev], {}))
    case Listing(keep) =>
      if !f.Served? then Fail(s, a) else At(s, a, Remaining(OwnedLeases(s, a, keep), keep))
    case Deleting(todo, keep) => StepDelete(s, a, todo, keep, f, target)
    case Done(_) => s
  }

  /** One event. An event that is not enabled changes nothing. */
  function Step(s: System, e: Event): System {
    match e
    case AddonCreated(a) =>
      if a == "" || a in s.existing then s
      else s.(existing := s.existing + {a}, used := s.used + {a})
    case AddonDeleted(a) =>
      // The claims of an addon end with it.
      s.(existing := s.existing - {a}, held := set h | h in s.held && h.0 != a)
    case Begin(a, op) =>
      if a !in s.used || !Idle(s, a) then s else At(s, a, FirstPass(op))
    case Call(a, f, target) =>
      if a !in s.passes then s else StepCall(s, a, f, target)
  }

  function Run(s: System, es: seq<Event>): System
    decreases |es|
  {
    if es == [] then s else Run(Step(s, es[0]), es[1..])
  }

  /** The name of a deleted addon is not given to a new one. */
  predicate Fresh(s: System, e: Event) {
    e.AddonCreated? ==> e.addon in s.existing || e.addon !in s.used
  }

  predicate FreshRun(s: System, es: seq<Event>)
    decreases |es|
  {
    es == [] || (Fresh(s, es[0]) && FreshRun(Step(s, es[0]), es[1..]))
  }

  /** Any cluster nobody works on yet, whatever leases it holds. */
  predicate Init(s: System) {
    && "" !in s.used && s.existing <= s.used
    && s.passes == map[] && s.held == {}
    && forall k :: k in s.leases ==>
         s.leases[k].rev < s.nextRev && (s.leases[k].holder == "" || s.leases[k].holder in s.used)
  }

  // ----- invariant -----

  /** A lease read earlier is the one in the store if their revisions agree. */
  predicate Snapshot(s: System, key: string, lease: Lease) {
    && lease.rev < s.nextRev
    && (key in s.leases && s.leases[key].rev == lease.rev ==> s.leases[key] == lease)
  }

  predicate DeletionsOwned(s: System, a: string, todo: map<string, nat>) {
    forall k :: k in todo ==>
      && todo[k] < s.nextRev
      && (k in s.leases && s.leases[k].rev == todo[k] ==> s.leases[k].holder == a)
  }

  predicate PassInv(s: System, a: string, p: Pass) {
    match p
    case Checking(key, lease) => Snapshot(s, key, lease) && lease.holder != a && lease.holder in s.used
    case TakingOver(key, lease) =>
      Snapshot(s, key, lease) && lease.holder != a && (lease.holder == "" || lease.holder in s.used)
    case Deleting(todo, keep) => DeletionsOwned(s, a, todo) && todo.Keys !! keep && todo != map[]
    case _ => true
  }

  /** A take-over is aimed at a lease whose recorded holder is gone. */
  predicate AimsAtStale(s: System, p: Pass) {
    p.TakingOver? ==> p.lease.holder !in s.existing
  }

  predicate LeasesInv(s: System) {
    forall k :: k in s.leases ==>
      s.leases[k].rev < s.nextRev && (s.leases[k].holder == "" || s.leases[k].holder in s.used)
  }

  /** Every claim acquired and not released is on record as its addon's own. */
  predicate HeldInv(s: System) {
    forall h :: h in s.held ==>
      h.0 in s.existing && h.1 in s.leases && s.leases[h.1].holder == h.0
  }

  predicate BaseInv(s: System) {
    && "" !in s.used && s.existing <= s.used && LeasesInv(s)
    && forall a :: a in s.passes ==> a in s.used && PassInv(s, a, s.passes[a])
  }

  predicate StaleInv(s: System) {
    forall a :: a in s.passes ==> AimsAtStale(s, s.passes[a])
  }

  predicate Inv(s: System) {
    BaseInv(s) && StaleInv(s) && HeldInv(s)
  }

  // ----- every event keeps the invariant -----

  /** Writes get revisions never used before, so an old snapshot cannot match a new lease. */
  predicate Advances(s: System, s': System) {
    && s.nextRev <= s'.nextRev && s.used <= s'.used
    && forall k :: k in s'.leases ==>
         (k in s.leases && s'.leases[k] == s.leases[k]) || s.nextRev <= s'.leases[k].rev
  }

  lemma StepAdvances(s: System, e: Event)
    ensures Advances(s, Step(s, e))
  {
  }

  lemma PassKept(s: System, s': System, a: string, p: Pass)
    requires PassInv(s, a, p) && Advances(s, s')
    ensures PassInv(s', a, p)
  {
  }

  /** Whether an event is a move of the addon's own pass. */
  predicate Moves(e: Event, a: string) {
    (e.Begin? || e.Call?) && e.addon == a
  }

  lemma OthersPassStays(s: System, e: Event, b: string)
    requires !Moves(e, b)
    ensures b in Step(s, e).passes <==> b in s.passes
    ensures b in s.passes ==> Step(s, e).passes[b] == s.passes[b]
  {
  }

  lemma UsersAfter(s: System, e: Event)
    requires "" !in s.used && s.existing <= s.used
    ensures var s' := Step(s, e); "" !in s'.used && s'.existing <= s'.used && s.used <= s'.used
    ensures Fresh(s, e) ==> forall x :: x in s.used && x in Step(s, e).existing ==> x in s.existing
  {
  }

  lemma WriteKeepsLeases(s: System, a: string, key: string, labels: map<string, string>)
    requires LeasesInv(s) && a in s.used
    ensures LeasesInv(WriteLease(s, a, key, labels))
  {
  }

  lemma DecideKeepsPass(s: System, a: string, key: string)
    requires BaseInv(s) && key in s.leases
    ensures var s' := Decide(s, a, key, s.leases[key]);
            a in s'.passes && PassInv(s', a, s'.passes[a]) && s'.leases == s.leases
  {
  }

  lemma OwnWriteKeepsPass(s: System, a: string, f: Fault)
    requires BaseInv(s) && a in s.passes && (s.passes[a].Creating? || s.passes[a].TakingOver?)
    ensures var s' := StepCall(s, a, f, "");
            a in s'.passes && (s'.passes[a].Done? || s'.passes[a].Rereading?) && LeasesInv(s')
  {
    match s.passes[a]
    case Creating(key) => WriteKeepsLeases(s, a, key, SourceLabels(a));
    case TakingOver(key, lease) => WriteKeepsLeases(s, a, key, lease.labels + SourceLabels(a));
  }

  lemma OwnDeleteKeepsPass(s: System, a: string, todo: map<string, nat>, keep: set<string>, f: Fault, k: string)
    requires LeasesInv(s) && a in s.passes && s.passes[a] == Deleting(todo, keep) && PassInv(s, a, s.passes[a])
    ensures var s' := StepDelete(s, a, todo, keep, f, k);
            a in s'.passes && PassInv(s', a, s'.passes[a]) && LeasesInv(s')
  {
    var s' := StepDelete(s, a, todo, keep, f, k);
    assert forall j :: j in s'.leases ==> j in s.leases && s'.leases[j] == s.leases[j];
  }

  lemma OwnCallKeepsPass(s: System, a: string, f: Fault, target: string)
    requires BaseInv(s) && a in s.passes
    ensures var s' := StepCall(s, a, f, target);
            a in s'.passes && PassInv(s', a, s'.passes[a]) && LeasesInv(s')
  {
    assert PassInv(s, a, s.passes[a]);
    match s.passes[a]
    case Deleting(todo, keep) => OwnDeleteKeepsPass(s, a, todo, keep, f, target);
    case Creating(_) => OwnWriteKeepsPass(s, a, f);
    case TakingOver(_, _) => OwnWriteKeepsPass(s, a, f);
    case Reading(key) => if key in s.leases { DecideKeepsPass(s, a, key); }
    case Rereading(key) => if key in s.leases { DecideKeepsPass(s, a, key); }
    case _ =>
  }

  lemma BasePreserved(s: System, e: Event)
    requires BaseInv(s)
    ensures BaseInv(Step(s, e))
  {
    var s' := Step(s, e);
    StepAdvances(s, e);
    UsersAfter(s, e);
    if e.Call? && e.addon in s.passes {
      OwnCallKeepsPass(s, e.addon, e.fault, e.target);
    }
    forall b | b in s'.passes
      ensures b in s'.used && PassInv(s', b, s'.passes[b])
    {
      if !Moves(e, b) {
        OthersPassStays(s, e, b);
        PassKept(s, s', b, s.passes[b]);
      }
    }
  }

  /** A take-over that a call leads to is aimed at a holder just found missing, or at none. */
  lemma OwnCallAims(s: System, a: string, f: Fault, target: string)
    requires BaseInv(s) && a in s.passes && AimsAtStale(s, s.passes[a])
    ensures var s' := StepCall(s, a, f, target); a in s'.passes && AimsAtStale(s', s'.passes[a])
  {
  }

  lemma StalePreserved(s: System, e: Event)
    requires BaseInv(s) && StaleInv(s) && Fresh(s, e)
    ensures StaleInv(Step(s, e))
  {
    var s' := Step(s, e);
    UsersAfter(s, e);
    if e.Call? && e.addon in s.passes {
      OwnCallAims(s, e.addon, e.fault, e.target);
    }
    forall b | b in s'.passes
      ensures AimsAtStale(s', s'.passes[b])
    {
      if !Moves(e, b) {
        OthersPassStays(s, e, b);
        assert AimsAtStale(s, s.passes[b]) && PassInv(s, b, s.passes[b]);
      }
    }
  }

  /** The one event that takes a claim away from an addon that has it: a take-over still locked
      to the revision of a lease whose recorded holder exists and holds the claim. */
  predicate Steals(s: System, e: Event) {
    && e.Call? && e.addon in s.passes && !e.fault.Rejected?
    && var p := s.passes[e.addon];
    && p.TakingOver? && p.key in s.leases && s.leases[p.key].rev == p.lease.rev
    && p.lease.holder in s.existing && (p.lease.holder, p.key) in s.held
  }

  lemma HeldLostIff(s: System, e: Event)
    requires BaseInv(s) && HeldInv(s)
    ensures HeldInv(Step(s, e)) <==> !Steals(s, e)
  {
    var s' := Step(s, e);
    if e.Call? && e.addon in s.passes {
      var p := s.passes[e.addon];
      assert PassInv(s, e.addon, p);
      if Steals(s, e) {
        var h := (p.lease.holder, p.key);
        assert h in s'.held && h.0 in s'.existing && s'.leases[p.key].holder == e.addon;
      }
    }
  }

  // ----- safety over runs -----

  lemma InvStep(s: System, e: Event)
    requires Inv(s) && Fresh(s, e)
    ensures Inv(Step(s, e))
  {
    BasePreserved(s, e);
    StalePreserved(s, e);
    HeldLostIff(s, e);
    if e.Call? && e.addon in s.passes {
      assert AimsAtStale(s, s.passes[e.addon]);
    }
  }

  lemma {:induction false} InvAlongRun(s: System, es: seq<Event>)
    requires Inv(s) && FreshRun(s, es)
    ensures Inv(Run(s, es))
    decreases |es|
  {
    if es != [] {
      InvStep(s, es[0]);
      InvAlongRun(Step(s, es[0]), es[1..]);
    }
  }

  /** At most one existing addon holds the claim on a lease, however the calls interleave. */
  lemma MutualExclusion(s: System, es: seq<Event>, a: string, b: string, key: string)
    requires Init(s) && FreshRun(s, es)
    requires (a, key) in Run(s, es).held && (b, key) in Run(s, es).held
    ensures a == b
  {
    InvAlongRun(s, es);
  }

  /** The same for pairs, whatever the hash: one that collides costs conflicts, not safety. */
  lemma PairExclusion(hash: string -> string, s: System, es: seq<Event>, a: string, b: string, p: Pair)
    requires Init(s) && FreshRun(s, es)
    requires (a, LeaseName(hash, p)) in Run(s, es).held && (b, LeaseName(hash, p)) in Run(s, es).held
    ensures a == b && a in Run(s, es).existing
  {
    InvAlongRun(s, es);
  }

  /** With a hash that keeps the texts of two pairs apart, the pairs share a lease exactly when their
      parts read the same once joined by the dash. */
  lemma SharedLeaseIff(hash: string -> string, p: Pair, q: Pair)
    requires hash(ClaimText(p)) == hash(ClaimText(q)) ==> ClaimText(p) == ClaimText(q)
    ensures LeaseName(hash, p) == LeaseName(hash, q) <==> p.repo + "-" + p.chart == q.repo + "-" + q.chart
  {
    var head := CLAIM_PREFIX + "-";
    assert forall h: string :: (head + h)[|head|..] == h;
    assert ClaimText(p) == head + (p.repo + "-" + p.chart);
    assert ClaimText(q) == head + (q.repo + "-" + q.chart);
    if LeaseName(hash, p) == LeaseName(hash, q) {
      assert (head + hash(ClaimText(p)))[|head|..] == (head + hash(ClaimText(q)))[|head|..];
    }
  }

  lemma DistinctPairsShareALease(hash: string -> string)
    ensures LeaseName(hash, Pair("a-b", "c")) == LeaseName(hash, Pair("a", "b-c"))
  {
    assert ClaimText(Pair("a-b", "c")) == ClaimText(Pair("a", "b-c"));
  }

  /** A lease changes hands only by a take-over, and only away from an addon that is gone. */
  lemma HandOver(s: System, e: Event, key: string)
    requires Inv(s)
    requires key in s.leases && key in Step(s, e).leases
    requires Step(s, e).leases[key].holder != s.leases[key].holder
    ensures s.leases[key].holder !in s.existing
    ensures e.Call? && Step(s, e).leases[key].holder == e.addon
  {
    assert AimsAtStale(s, s.passes[e.addon]);
    assert PassInv(s, e.addon, s.passes[e.addon]);
  }

  /** A lease is deleted only by its own holder, and never one that holder meant to keep. */
  lemma DeletedByItsHolder(s: System, e: Event, key: string)
    requires Inv(s)
    requires key in s.leases && key !in Step(s, e).leases
    ensures e.Call? && s.leases[key].holder == e.addon
    ensures s.passes[e.addon].Deleting? && key !in s.passes[e.addon].keep
  {
    assert PassInv(s, e.addon, s.passes[e.addon]);
  }
}

/**
 What whole operations on a claim achieve while other addons keep working: a finished teardown
 leaves nothing behind, DropStale never frees the pair in use, an undisturbed Acquire decides by
 the holder alone, and reusing an addon's name is what breaks exclusion.
 */
module ClaimRuns {
  import opened Basics
  import opened ClaimProtocol

  // ----- a sweep over an addon's leases -----

  predicate Labelled(s: System) {
    forall k :: k in s.leases && s.leases[k].holder != "" ==>
      HasLabels(s.leases[k].labels, SourceLabels(s.leases[k].holder))
  }

  lemma OwnLabels(labels: map<string, string>, a: string)
    ensures HasLabels(SourceLabels(a), SourceLabels(a)) && HasLabels(labels + SourceLabels(a), SourceLabels(a))
  {
  }

  /** A call leaves every lease as it was, or writes one for its addon, labels and all. */
  lemma CallWrites(s: System, a: string, f: Fault, target: string, k: string)
    requires a in s.passes && k in StepCall(s, a, f, target).leases
    ensures var t := StepCall(s, a, f, target);
            (k in s.leases && t.leases[k] == s.leases[k]) || HasLabels(t.leases[k].labels, SourceLabels(t.leases[k].holder))
  {
    match s.passes[a]
    case Creating(_) => OwnLabels(map[], a);
    case TakingOver(_, lease) => OwnLabels(lease.labels, a);
    case _ =>
  }

  lemma LabelledPreserved(s: System, e: Event)
    requires Labelled(s)
    ensures Labelled(Step(s, e))
  {
    var s' := Step(s, e);
    if e.Call? && e.addon in s.passes {
      forall k | k in s'.leases && s'.leases[k].holder != ""
        ensures HasLabels(s'.leases[k].labels, SourceLabels(s'.leases[k].holder))
      {
        CallWrites(s, e.addon, e.fault, e.target, k);
      }
    } else {
      assert s'.leases == s.leases;
    }
  }

  predicate NotBegun(a: string, es: seq<Event>) {
    forall i :: 0 <= i < |es| ==> es[i] != AddonDeleted(a) && !(es[i].Begin? && es[i].addon == a)
  }

  /** Every lease of the addon still to go is on the list the sweep works through. */
  predicate Sweeping(s: System, a: string, keep: set<string>) {
    && a in s.passes && a != ""
    && match s.passes[a]
       case Listing(keep') => keep' == keep
       case Deleting(todo, keep') => keep' == keep &&
         forall k :: k in s.leases && s.leases[k].holder == a && k !in keep ==>
           k in todo && todo[k] == s.leases[k].rev
       case Done(Released) => forall k :: k in s.leases && s.leases[k].holder == a ==> k in keep
       case Done(Failed) => true
       case _ => false
  }

  /** Nobody but an addon writes its name on a lease, and only its own calls remove its leases. */
  lemma OthersLeaveLeases(s: System, e: Event, a: string)
    requires BaseInv(s) && a != "" && !(e.Call? && e.addon == a)
    ensures forall k :: k in Step(s, e).leases && Step(s, e).leases[k].holder == a ==>
              k in s.leases && s.leases[k] == Step(s, e).leases[k]
  {
  }

  lemma OwnDeletion(s: System, a: string, keep: set<string>, todo: map<string, nat>, f: Fault, target: string)
    requires BaseInv(s) && Sweeping(s, a, keep) && s.passes[a] == Deleting(todo, keep)
    ensures Sweeping(StepDelete(s, a, todo, keep, f, target), a, keep)
  {
    assert PassInv(s, a, s.passes[a]);
    var s' := StepDelete(s, a, todo, keep, f, target);
    if target in todo && f.Served? {
      forall k | k in s'.leases && s'.leases[k].holder == a && k !in keep
        ensures k in todo - {target} && todo[k] == s'.leases[k].rev
      {
        assert k in todo && todo[k] == s.leases[k].rev;
      }
    }
  }

  lemma OwnListing(s: System, a: string, keep: set<string>, f: Fault, target: string)
    requires BaseInv(s) && Labelled(s) && Sweeping(s, a, keep) && s.passes[a] == Listing(keep)
    ensures Sweeping(StepCall(s, a, f, target), a, keep)
  {
    var owned := OwnedLeases(s, a, keep);
    forall k | k in s.leases && s.leases[k].holder == a && k !in keep
      ensures k in owned && owned[k] == s.leases[k].rev
    {
    }
  }

  lemma SweepStep(s: System, e: Event, a: string, keep: set<string>)
    requires BaseInv(s) && Labelled(s) && Sweeping(s, a, keep)
    requires !(e.Begin? && e.addon == a)
    ensures Sweeping(Step(s, e), a, keep)
  {
    if e.Call? && e.addon == a {
      match s.passes[a]
      case Listing(_) => OwnListing(s, a, keep, e.fault, e.target);
      case Deleting(todo, _) => OwnDeletion(s, a, keep, todo, e.fault, e.target);
      case _ =>
    } else {
      OthersLeaveLeases(s, e, a);
      assert a in Step(s, e).passes && Step(s, e).passes[a] == s.passes[a];
    }
  }

  lemma {:induction false} SweepAlongRun(s: System, es: seq<Event>, a: string, keep: set<string>)
    requires BaseInv(s) && Labelled(s) && Sweeping(s, a, keep) && NotBegun(a, es)
    ensures Sweeping(Run(s, es), a, keep)
    decreases |es|
  {
    if es != [] {
      SweepStep(s, es[0], a, keep);
      BasePreserved(s, es[0]);
      LabelledPreserved(s, es[0]);
      SweepAlongRun(Step(s, es[0]), es[1..], a, keep);
    }
  }

  /** A DropAll that reports success leaves its addon no lease, whatever ran beside it. */
  lemma DropAllLeavesNothing(s: System, es: seq<Event>, a: string)
    requires BaseInv(s) && Labelled(s)
    requires a in s.used && Idle(s, a) && NotBegun(a, es)
    requires var t := Run(Step(s, Begin(a, DropAll)), es); a in t.passes && t.passes[a] == Done(Released)
    ensures var t := Run(Step(s, Begin(a, DropAll)), es);
            forall k :: k in t.leases ==> t.leases[k].holder != a
  {
    var s1 := Step(s, Begin(a, DropAll));
    BasePreserved(s, Begin(a, DropAll));
    SweepAlongRun(s1, es, a, {});
  }

  // ----- DropStale keeps what may be deployed -----

  predicate Owns(s: System, a: string, key: string) {
    key in s.leases && s.leases[key].holder == a
  }

  /** The operation of `a` is one that leaves `key` alone. */
  predicate Spares(s: System, a: string, key: string) {
    a in s.passes && match s.passes[a]
                     case Listing(keep) => key in keep
                     case Deleting(todo, keep) => key in keep
                     case Done(_) => true
                     case _ => false
  }

  lemma OwnPassSpares(s: System, e: Event, a: string, key: string)
    requires Spares(s, a, key) && e.Call? && e.addon == a
    ensures Spares(Step(s, e), a, key)
  {
  }

  lemma SparedStep(s: System, e: Event, a: string, key: string)
    requires Inv(s) && Fresh(s, e) && e != AddonDeleted(a) && !(e.Begin? && e.addon == a)
    requires Spares(s, a, key) && Owns(s, a, key) && a in s.existing
    ensures Spares(Step(s, e), a, key) && Owns(Step(s, e), a, key)
  {
    if !Moves(e, a) {
      OthersPassStays(s, e, a);
    } else {
      OwnPassSpares(s, e, a, key);
    }
    if key !in Step(s, e).leases {
      DeletedByItsHolder(s, e, key);
    } else if Step(s, e).leases[key].holder != a {
      HandOver(s, e, key);
    }
  }

  lemma {:induction false} SparedAlongRun(s: System, es: seq<Event>, a: string, key: string)
    requires Inv(s) && FreshRun(s, es) && NotBegun(a, es)
    requires Spares(s, a, key) && Owns(s, a, key) && a in s.existing
    ensures Owns(Run(s, es), a, key)
    decreases |es|
  {
    if es != [] {
      SparedStep(s, es[0], a, key);
      InvStep(s, es[0]);
      SparedAlongRun(Step(s, es[0]), es[1..], a, key);
    }
  }

  /** Neither the pair the spec names nor the one the record still names loses its claim to a
      DropStale: the first is kept, and while the two differ nothing is freed. */
  lemma DropStaleKeepsPairsInUse(hash: string -> string, s: System, es: seq<Event>, a: string,
                                 spec: Pair, last: Option<Pair>, p: Pair)
    requires Inv(s) && a in s.existing && Idle(s, a) && NotBegun(a, es)
    requires p == spec || last == Some(p)
    requires Owns(s, a, LeaseName(hash, p))
    requires var op := DropStale(LeaseName(hash, spec), if last.None? then None else Some(LeaseName(hash, last.value)));
             FreshRun(Step(s, Begin(a, op)), es)
    ensures var op := DropStale(LeaseName(hash, spec), if last.None? then None else Some(LeaseName(hash, last.value)));
            Owns(Run(Step(s, Begin(a, op)), es), a, LeaseName(hash, p))
  {
    var op := DropStale(LeaseName(hash, spec), if last.None? then None else Some(LeaseName(hash, last.value)));
    var s1 := Step(s, Begin(a, op));
    InvStep(s, Begin(a, op));
    SparedAlongRun(s1, es, a, LeaseName(hash, p));
  }

  // ----- Acquire when nothing interferes -----

  function Alone(s: System, a: string, n: nat): System
    decreases n
  {
    if n == 0 then s else Alone(Step(s, Call(a, Served, "")), a, n - 1)
  }

  /** An undisturbed Acquire ends within three calls, and succeeds exactly when the lease is free,
      already its own, or recorded for nobody who exists. */
  lemma AcquireAlone(s: System, a: string, key: string)
    requires Inv(s) && a in s.existing && Idle(s, a)
    ensures var t := Alone(Step(s, Begin(a, Acquire(key))), a, 3);
            && a in t.passes && t.passes[a].Done?
            && (t.passes[a].outcome == Acquired <==>
                key !in s.leases || s.leases[key].holder == a || s.leases[key].holder !in s.existing)
            && (t.passes[a].outcome == Acquired ==> Owns(t, a, key) && (a, key) in t.held)
            && (t.passes[a].outcome != Acquired ==>
                t.passes[a].outcome == Refused(s.leases[key].holder) && t.leases == s.leases)
  {
    var s1 := Step(s, Begin(a, Acquire(key)));
    var s2 := Step(s1, Call(a, Served, ""));
    var s3 := Step(s2, Call(a, Served, ""));
    var s4 := Step(s3, Call(a, Served, ""));
    assert Alone(s1, a, 3) == Alone(s2, a, 2) == Alone(s3, a, 1) == Alone(s4, a, 0) == s4;
  }

  // ----- the assumption on names -----

  lemma {:induction false} RunSplit(s: System, xs: seq<Event>, ys: seq<Event>)
    ensures Run(s, xs + ys) == Run(Run(s, xs), ys)
    ensures FreshRun(s, xs + ys) <==> FreshRun(s, xs) && FreshRun(Run(s, xs), ys)
    decreases |xs|
  {
    if xs == [] {
      assert xs + ys == ys;
    } else {
      assert (xs + ys)[1..] == xs[1..] + ys;
      RunSplit(Step(s, xs[0]), xs[1..], ys);
    }
  }

  /** Acquire on a free lease, call by call. */
  lemma ClaimFree(s: System, a: string, k: string)
    requires a in s.used && a in s.existing && Idle(s, a) && k !in s.leases
    ensures Alone(Step(s, Begin(a, Acquire(k))), a, 2) ==
            System(s.leases[k := Lease(a, SourceLabels(a), s.nextRev)], s.nextRev + 1, s.existing, s.used,
                   s.passes[a := Done(Acquired)], s.held + {(a, k)})
  {
    var s1 := Step(s, Begin(a, Acquire(k)));
    var s2 := Step(s1, Call(a, Served, ""));
    var s3 := Step(s2, Call(a, Served, ""));
    assert Alone(s1, a, 2) == Alone(s2, a, 1) == Alone(s3, a, 0) == s3;
    assert s3.passes == s.passes[a := Done(Acquired)];
  }

  /** Acquire on a lease whose holder is gone, up to the take-over itself. */
  lemma ReachTakeOver(s: System, a: string, k: string)
    requires a in s.used && Idle(s, a) && k in s.leases
    requires s.leases[k].holder !in s.existing && s.leases[k].holder != "" && s.leases[k].holder != a
    ensures Alone(Step(s, Begin(a, Acquire(k))), a, 2) == At(s, a, TakingOver(k, s.leases[k]))
  {
    var s1 := Step(s, Begin(a, Acquire(k)));
    var s2 := Step(s1, Call(a, Served, ""));
    var s3 := Step(s2, Call(a, Served, ""));
    assert Alone(s1, a, 2) == Alone(s2, a, 1) == Alone(s3, a, 0) == s3;
    assert s3.passes == s.passes[a := TakingOver(k, s.leases[k])];
  }

  const EMPTY_CLUSTER := System(map[], 0, {}, {}, map[], {})

  function Attempt(a: string, k: string): seq<Event> {
    [Begin(a, Acquire(k)), Call(a, Served, ""), Call(a, Served, "")]
  }

  lemma AttemptRun(s: System, a: string, k: string)
    ensures Run(s, Attempt(a, k)) == Alone(Step(s, Begin(a, Acquire(k))), a, 2)
  {
    var es := Attempt(a, k);
    var s1 := Step(s, es[0]);
    var s2 := Step(s1, es[1]);
    assert Run(s, es) == Run(s1, es[1..]) == Run(s2, es[1..][1..]);
    assert Alone(s1, a, 2) == Alone(s2, a, 1);
    assert Run(s2, es[1..][1..]) == Run(Step(s2, es[2]), []);
  }

  /** Addon "a" claims the lease and is deleted; "b" reads all this and prepares to take over. */
  function BeforeReuse(k: string): seq<Event> {
    [AddonCreated("a"), AddonCreated("b")] + (Attempt("a", k) + ([AddonDeleted("a")] + Attempt("b", k)))
  }

  function Reuse(k: string): seq<Event> {
    [AddonCreated("a"), Begin("a", Acquire(k)), Call("a", Served, ""), Call("b", Served, "")]
  }

  lemma UpToReuse(k: string)
    ensures var s := Run(EMPTY_CLUSTER, BeforeReuse(k));
            && s.existing == {"b"} && "a" in s.used && Idle(s, "a")
            && k in s.leases && s.leases[k].holder == "a"
            && "b" in s.passes && s.passes["b"] == TakingOver(k, s.leases[k])
  {
    var both := [AddonCreated("a"), AddonCreated("b")];
    var deletion := [AddonDeleted("a")];
    RunSplit(EMPTY_CLUSTER, both, Attempt("a", k) + (deletion + Attempt("b", k)));
    var s2 := Run(EMPTY_CLUSTER, both);
    assert s2 == System(map[], 0, {"a", "b"}, {"a", "b"}, map[], {}) by {
      assert s2 == Run(Step(EMPTY_CLUSTER, both[0]), both[1..]);
    }
    RunSplit(s2, Attempt("a", k), deletion + Attempt("b", k));
    AttemptRun(s2, "a", k);
    ClaimFree(s2, "a", k);
    var s5 := Run(s2, Attempt("a", k));
    RunSplit(s5, deletion, Attempt("b", k));
    var s6 := Run(s5, deletion);
    assert s6 == Step(s5, AddonDeleted("a")) by {
      assert s6 == Run(Step(s5, deletion[0]), deletion[1..]);
    }
    AttemptRun(s6, "b", k);
    ReachTakeOver(s6, "b", k);
  }

  /** Once the name of a deleted addon is given to a new one, two existing addons can hold the
      same claim: the namesake finds the lease recorded for it and changes nothing, so the
      take-over another addon had already begun still succeeds. */
  lemma NameReuseBreaksExclusion(k: string)
    ensures Init(EMPTY_CLUSTER) && !FreshRun(EMPTY_CLUSTER, BeforeReuse(k) + Reuse(k))
    ensures var t := Run(EMPTY_CLUSTER, BeforeReuse(k) + Reuse(k)); ("a", k) in t.held && ("b", k) in t.held
  {
    RunSplit(EMPTY_CLUSTER, BeforeReuse(k), Reuse(k));
    UpToReuse(k);
    var s := Run(EMPTY_CLUSTER, BeforeReuse(k));
    AfterReuse(s, k);
    var s1 := Step(s, Reuse(k)[0]);
    var s2 := Step(s1, Reuse(k)[1]);
    assert Run(s, Reuse(k)) == Run(s1, Reuse(k)[1..]) == Run(s2, Reuse(k)[1..][1..]);
    var s3 := Step(s2, Reuse(k)[2]);
    assert Run(s2, Reuse(k)[1..][1..]) == Run(s3, Reuse(k)[1..][1..][1..]);
    assert Run(s3, Reuse(k)[1..][1..][1..]) == Run(Step(s3, Reuse(k)[3]), []);
  }

  /** The namesake acquires without a write; then the pending take-over goes through. */
  lemma AfterReuse(s: System, k: string)
    requires "a" !in s.existing && "b" in s.existing && k in s.leases && s.leases[k].holder == "a"
    requires Idle(s, "a") && "b" in s.passes && s.passes["b"] == TakingOver(k, s.leases[k])
    ensures var t := Step(Step(Step(s, AddonCreated("a")), Begin("a", Acquire(k))), Call("a", Served, ""));
            ("a", k) in Step(t, Call("b", Served, "")).held && ("b", k) in Step(t, Call("b", Served, "")).held
  {
  }
}

/**
 The operations on a claim as the controller runs them, against an API server other addons keep
 using: before every call is answered the server serves any number of their events, and any call
 may be rejected or lose its answer. Each method is proved to be one operation of the protocol.
 */
module ClaimClient {
  import opened Basics
  import opened ClaimProtocol
  import ClaimRuns

  /** What happens around one call: the events served first, and how the call itself fares. */
  datatype Turn = Turn(before: seq<Event>, fault: Fault)

  datatype Reply<+T> = Success(value: T) | NotFound | AlreadyExists | Conflict | Error

  predicate By(me: string, e: Event) {
    (e.Begin? || e.Call?) && e.addon == me
  }

  predicate NoneBy(me: string, es: seq<Event>) {
    forall i :: 0 <= i < |es| ==> !By(me, es[i])
  }

  function Others(me: string, es: seq<Event>): (r: seq<Event>)
    ensures NoneBy(me, r)
  {
    if es == [] then [] else (if By(me, es[0]) then [] else [es[0]]) + Others(me, es[1..])
  }

  /** The events of one operation of `me`, with the events of everybody else in between. */
  predicate OneOperation(me: string, op: Operation, es: seq<Event>) {
    && es != [] && es[0] == Begin(me, op)
    && forall i :: 0 < i < |es| ==> !(es[i].Begin? && es[i].addon == me)
  }

  lemma {:induction false} OthersKeepPass(s: System, es: seq<Event>, me: string)
    requires NoneBy(me, es)
    ensures me in s.passes ==> me in Run(s, es).passes && Run(s, es).passes[me] == s.passes[me]
    ensures s.used <= Run(s, es).used
    decreases |es|
  {
    if es != [] {
      assert !By(me, es[0]);
      OthersPassStays(s, es[0], me);
      StepAdvances(s, es[0]);
      OthersKeepPass(Step(s, es[0]), es[1..], me);
    }
  }

  lemma RunOne(s: System, es: seq<Event>, e: Event)
    ensures Run(s, es + [e]) == Step(Run(s, es), e)
  {
    ClaimRuns.RunSplit(s, es, [e]);
    assert Run(Run(s, es), [e]) == Run(Step(Run(s, es), e), []);
  }

  class ApiServer {
    var sys: System
    var turns: seq<Turn>

    constructor (sys: System, turns: seq<Turn>)
      ensures this.sys == sys && this.turns == turns
    {
      this.sys := sys;
      this.turns := turns;
    }

    /** Serves everybody else, then says how the next call of `me` fares. */
    method Await(me: string) returns (fault: Fault, ghost env: seq<Event>)
      modifies this
      ensures NoneBy(me, env) && sys == Run(old(sys), env)
    {
      fault, env := Served, [];
      if turns != [] {
        var before := Others(me, turns[0].before);
        fault, env := turns[0].fault, before;
        sys := Run(sys, before);
        turns := turns[1..];
      }
    }

    method Start(me: string, op: Operation)
      modifies this
      ensures sys == Step(old(sys), Begin(me, op))
    {
      sys := Step(sys, Begin(me, op));
    }

    method Get(me: string, key: string) returns (r: Reply<Lease>, ghost at: System, ghost ran: seq<Event>)
      requires me in sys.passes
      requires sys.passes[me] in {Reading(key), Rereading(key), DropReading(key)}
      modifies this
      ensures me in at.passes && at.passes[me] == old(sys.passes[me])
      ensures sys == Run(old(sys), ran) && !BeginsIn(me, ran)
      ensures r == Error || (if key in at.leases then r == Success(at.leases[key]) else r == NotFound)
      ensures sys == StepCall(at, me, if r == Error then Rejected else Served, "")
    {
      var fault, env := Await(me);
      OthersKeepPass(old(sys), env, me);
      at := sys;
      var answer := if fault.Served? then Served else Rejected;
      ran := env + [Call(me, answer, "")];
      RunOne(old(sys), env, Call(me, answer, ""));
      r := if !fault.Served? then Error else if key in sys.leases then Success(sys.leases[key]) else NotFound;
      sys := Step(sys, Call(me, answer, ""));
    }

    method AddonExists(me: string, addon: string) returns (r: Reply<bool>, ghost at: System, ghost ran: seq<Event>)
      requires me in sys.passes && sys.passes[me].Checking? && sys.passes[me].lease.holder == addon
      modifies this
      ensures me in at.passes && at.passes[me] == old(sys.passes[me])
      ensures sys == Run(old(sys), ran) && !BeginsIn(me, ran)
      ensures r == Error || r == Success(addon in at.existing)
      ensures sys == StepCall(at, me, if r == Error then Rejected else Served, "")
    {
      var fault, env := Await(me);
      OthersKeepPass(old(sys), env, me);
      at := sys;
      var answer := if fault.Served? then Served else Rejected;
      ran := env + [Call(me, answer, "")];
      RunOne(old(sys), env, Call(me, answer, ""));
      r := if !fault.Served? then Error else Success(addon in sys.existing);
      sys := Step(sys, Call(me, answer, ""));
    }

    method Create(me: string, key: string, holder: string, labels: map<string, string>)
      returns (r: Reply<()>, ghost at: System, ghost ran: seq<Event>, ghost fault: Fault)
      requires me in sys.passes && sys.passes[me] == Creating(key)
      requires holder == me && labels == SourceLabels(me)
      modifies this
      ensures me in at.passes && at.passes[me] == old(sys.passes[me])
      ensures sys == Run(old(sys), ran) && !BeginsIn(me, ran)
      ensures r == if !fault.Served? then Error else if key in at.leases then AlreadyExists else Success(())
      ensures sys == StepCall(at, me, fault, "")
    {
      var f, env := Await(me);
      fault := f;
      OthersKeepPass(old(sys), env, me);
      at := sys;
      ran := env + [Call(me, f, "")];
      RunOne(old(sys), env, Call(me, f, ""));
      r := if !f.Served? then Error else if key in sys.leases then AlreadyExists else Success(());
      sys := Step(sys, Call(me, f, ""));
    }

    /** Writes the lease only if the store still has the revision it was read at. */
    method Update(me: string, key: string, ghost read: Lease, lease: Lease)
      returns (r: Reply<()>, ghost at: System, ghost ran: seq<Event>, ghost fault: Fault)
      requires me in sys.passes && sys.passes[me] == TakingOver(key, read)
      requires lease == Lease(me, read.labels + SourceLabels(me), read.rev)
      modifies this
      ensures me in at.passes && at.passes[me] == old(sys.passes[me])
      ensures sys == Run(old(sys), ran) && !BeginsIn(me, ran)
      ensures r == if !fault.Served? then Error else if key !in at.leases then NotFound
                   else if at.leases[key].rev != lease.rev then Conflict else Success(())
      ensures sys == StepCall(at, me, fault, "")
    {
      var f, env := Await(me);
      fault := f;
      OthersKeepPass(old(sys), env, me);
      at := sys;
      ran := env + [Call(me, f, "")];
      RunOne(old(sys), env, Call(me, f, ""));
      r := if !f.Served? then Error else if key !in sys.leases then NotFound
           else if sys.leases[key].rev != lease.rev then Conflict else Success(());
      sys := Step(sys, Call(me, f, ""));
    }

    /** Deletes only the revision named in the precondition. */
    method Delete(me: string, key: string, rev: nat)
      returns (r: Reply<()>, ghost at: System, ghost ran: seq<Event>, ghost fault: Fault)
      requires me in sys.passes && sys.passes[me].Deleting?
      requires key in sys.passes[me].todo && sys.passes[me].todo[key] == rev
      modifies this
      ensures me in at.passes && at.passes[me] == old(sys.passes[me])
      ensures sys == Run(old(sys), ran) && !BeginsIn(me, ran)
      ensures r == if !fault.Served? then Error else if key !in at.leases then NotFound
                   else if at.leases[key].rev != rev then Conflict else Success(())
      ensures sys == StepCall(at, me, fault, key)
    {
      var f, env := Await(me);
      fault := f;
      OthersKeepPass(old(sys), env, me);
      at := sys;
      ran := env + [Call(me, f, key)];
      RunOne(old(sys), env, Call(me, f, key));
      r := if !f.Served? then Error else if key !in sys.leases then NotFound
           else if sys.leases[key].rev != rev then Conflict else Success(());
      sys := Step(sys, Call(me, f, key));
    }

    /** The leases that carry the wanted labels, in any order. */
    method List(me: string, wanted: map<string, string>)
      returns (r: Reply<seq<(string, Lease)>>, ghost at: System, ghost ran: seq<Event>)
      requires me in sys.passes && sys.passes[me].Listing? && wanted == SourceLabels(me)
      modifies this
      ensures me in at.passes && at.passes[me] == old(sys.passes[me])
      ensures sys == Run(old(sys), ran) && !BeginsIn(me, ran)
      ensures r == Error || (r.Success? && Lists(r.value, at.leases, wanted))
      ensures sys == StepCall(at, me, if r == Error then Rejected else Served, "")
    {
      var fault, env := Await(me);
      OthersKeepPass(old(sys), env, me);
      at := sys;
      var answer := if fault.Served? then Served else Rejected;
      ran := env + [Call(me, answer, "")];
      RunOne(old(sys), env, Call(me, answer, ""));
      r := Error;
      if fault.Served? {
        var items: seq<(string, Lease)> := [];
        var rest := set k | k in sys.leases && HasLabels(sys.leases[k].labels, wanted);
        while rest != {}
          invariant sys == at
          invariant forall k :: k in rest ==> k in sys.leases && HasLabels(sys.leases[k].labels, wanted)
          invariant forall k :: k in sys.leases && HasLabels(sys.leases[k].labels, wanted) ==>
                      k in rest || (k, sys.leases[k]) in items
          invariant forall i :: 0 <= i < |items| ==>
                      && items[i].0 in sys.leases && items[i].0 !in rest && items[i].1 == sys.leases[items[i].0]
                      && HasLabels(items[i].1.labels, wanted)
          invariant forall i, j :: 0 <= i < j < |items| ==> items[i].0 != items[j].0
          decreases rest
        {
          var k :| k in rest;
          items := items + [(k, sys.leases[k])];
          rest := rest - {k};
        }
        r := Success(items);
      }
      sys := Step(sys, Call(me, answer, ""));
    }
  }

  ghost predicate BeginsIn(me: string, es: seq<Event>) {
    exists i :: 0 <= i < |es| && es[i].Begin? && es[i].addon == me
  }

  ghost predicate Lists(items: seq<(string, Lease)>, leases: map<string, Lease>, wanted: map<string, string>) {
    && (forall i, j :: 0 <= i < j < |items| ==> items[i].0 != items[j].0)
    && (forall i :: 0 <= i < |items| ==>
          items[i].0 in leases && items[i].1 == leases[items[i].0] && HasLabels(items[i].1.labels, wanted))
    && (forall k :: k in leases && HasLabels(leases[k].labels, wanted) ==> (k, leases[k]) in items)
  }

  /** The operation has run its course: `es` is all that happened, and it is that operation's. */
  ghost predicate Ran(before: System, after: System, me: string, op: Operation, es: seq<Event>) {
    && OneOperation(me, op, es) && after == Run(before, es)
    && me in after.passes && after.passes[me].Done?
  }

  lemma Extend(s: System, me: string, op: Operation, es: seq<Event>, ran: seq<Event>)
    requires OneOperation(me, op, es) && !BeginsIn(me, ran)
    ensures OneOperation(me, op, es + ran) && Run(s, es + ran) == Run(Run(s, es), ran)
  {
    ClaimRuns.RunSplit(s, es, ran);
  }

  lemma Concat(s: System, me: string, xs: seq<Event>, ys: seq<Event>)
    requires !BeginsIn(me, xs) && !BeginsIn(me, ys)
    ensures !BeginsIn(me, xs + ys) && Run(s, xs + ys) == Run(Run(s, xs), ys)
  {
    ClaimRuns.RunSplit(s, xs, ys);
  }

  method CreateLease(server: ApiServer, me: string, key: string)
    returns (created: bool, err: bool, ghost ran: seq<Event>)
    requires me in server.sys.passes && server.sys.passes[me] == Creating(key)
    modifies server
    ensures server.sys == Run(old(server.sys), ran) && !BeginsIn(me, ran) && me in server.sys.passes
    ensures server.sys.passes[me] == if err then Done(Failed) else if created then Done(Acquired) else Rereading(key)
  {
    var r, at, ran', fault := server.Create(me, key, me, SourceLabels(me));
    ran := ran';
    if r == AlreadyExists {
      return false, false, ran;
    }
    if !r.Success? {
      return false, true, ran;
    }
    return true, false, ran;
  }

  method IsHolderStale(server: ApiServer, me: string, holder: string)
    returns (stale: bool, err: bool, ghost ran: seq<Event>)
    requires me in server.sys.passes
    requires if holder == "" then server.sys.passes[me].TakingOver?
             else server.sys.passes[me].Checking? && server.sys.passes[me].lease.holder == holder
    modifies server
    ensures server.sys == Run(old(server.sys), ran) && !BeginsIn(me, ran) && me in server.sys.passes
    ensures var p := old(server.sys.passes[me]);
            server.sys.passes[me] == if err then Done(Failed)
                                     else if stale then TakingOver(p.key, p.lease) else Done(Refused(holder))
  {
    if holder == "" {
      return true, false, [];
    }
    var r, at, ran' := server.AddonExists(me, holder);
    ran := ran';
    if r == Error {
      return false, true, ran;
    }
    return !r.value, false, ran;
  }

  /** Where the pass stands once Acquire has a lease to judge. */
  function Judging(me: string, key: string, lease: Lease): Pass {
    if lease.holder == me then Done(Acquired)
    else if lease.holder == "" then TakingOver(key, lease)
    else Checking(key, lease)
  }

  /** Reads the lease, or creates it and reads the winning one if the create race is lost. */
  method ReadOrCreate(server: ApiServer, me: string, key: string)
    returns (created: bool, err: bool, lease: Lease, ghost ran: seq<Event>)
    requires me in server.sys.passes && server.sys.passes[me] == Reading(key)
    modifies server
    ensures server.sys == Run(old(server.sys), ran) && !BeginsIn(me, ran) && me in server.sys.passes
    ensures server.sys.passes[me] == if err then Done(Failed) else if created then Done(Acquired)
                                     else Judging(me, key, lease)
  {
    var s0 := server.sys;
    created, err, lease := false, false, Lease("", map[], 0);
    var r, at, ran0 := server.Get(me, key);
    ran := ran0;
    if r == NotFound {
      ghost var ran1;
      created, err, ran1 := CreateLease(server, me, key);
      Concat(s0, me, ran, ran1);
      ran := ran + ran1;
      if created || err {
        return;
      }
      // Lost the create race: the winner's lease is read and checked like any other.
      ghost var ran2;
      r, at, ran2 := server.Get(me, key);
      Concat(s0, me, ran, ran2);
      ran := ran + ran2;
    }
    if r.Success? {
      lease := r.value;
    } else {
      err := true;
    }
  }

  method TakeOver(server: ApiServer, me: string, key: string, lease: Lease)
    returns (err: bool, conflict: bool, ghost ran: seq<Event>)
    requires me in server.sys.passes && server.sys.passes[me] == TakingOver(key, lease)
    modifies server
    ensures server.sys == Run(old(server.sys), ran) && !BeginsIn(me, ran) && me in server.sys.passes
    ensures server.sys.passes[me] == Done(if err then Failed else if conflict then Refused(lease.holder) else Acquired)
    ensures !(err && conflict)
  {
    var ours := lease.(holder := me, labels := lease.labels + SourceLabels(me));
    var u, at, ran', f := server.Update(me, key, lease, ours);
    return u != Success(()) && u != Conflict, u == Conflict, ran';
  }

  /** Acquire reports the claim acquired exactly when its operation of the protocol ends so. */
  method Acquire(server: ApiServer, me: string, key: string)
    returns (acquired: bool, holder: string, err: bool, ghost es: seq<Event>)
    requires me in server.sys.used && Idle(server.sys, me)
    modifies server
    ensures Ran(old(server.sys), server.sys, me, ClaimProtocol.Acquire(key), es)
    ensures server.sys.passes[me].outcome == if err then Failed else if acquired then Acquired else Refused(holder)
    ensures acquired ==> !err && holder == me
  {
    var s0 := server.sys;
    var op := ClaimProtocol.Acquire(key);
    server.Start(me, op);
    es := [Begin(me, op)];
    RunOne(s0, [], Begin(me, op));
    assert [] + [Begin(me, op)] == es;

    var created, findErr, lease, ran := ReadOrCreate(server, me, key);
    Extend(s0, me, op, es, ran);
    es := es + ran;
    if findErr {
      return false, "", true, es;
    }
    if created {
      return true, me, false, es;
    }
    holder := lease.holder;
    if holder == me {
      return true, holder, false, es;
    }
    var stale, staleErr, ran1 := IsHolderStale(server, me, holder);
    Extend(s0, me, op, es, ran1);
    es := es + ran1;
    if staleErr {
      return false, "", true, es;
    }
    if !stale {
      return false, holder, false, es;
    }
    var takeErr, conflict, ran2 := TakeOver(server, me, key, lease);
    Extend(s0, me, op, es, ran2);
    es := es + ran2;
    if conflict {
      return false, holder, false, es;
    }
    if takeErr {
      return false, "", true, es;
    }
    return true, me, false, es;
  }

  /** Between the beginning of an Acquire and the next operation of the same addon, the pass is
      under way, or has failed, or holds the claim unless the addon was deleted. */
  predicate Acquiring(s: System, me: string, key: string) {
    && me in s.passes
    && match s.passes[me]
       case Reading(k) => k == key
       case Creating(k) => k == key
       case Rereading(k) => k == key
       case Checking(k, _) => k == key
       case TakingOver(k, _) => k == key
       case Done(outcome) => outcome == Acquired && me in s.existing ==> (me, key) in s.held
       case _ => false
  }

  lemma OthersClaimsStay(s: System, e: Event, me: string, key: string)
    requires !Moves(e, me) && (me, key) in s.held && me in Step(s, e).existing
    ensures (me, key) in Step(s, e).held
  {
  }

  lemma AcquiringStep(s: System, e: Event, me: string, key: string)
    requires Inv(s) && Fresh(s, e) && Acquiring(s, me, key) && !(e.Begin? && e.addon == me)
    ensures Acquiring(Step(s, e), me, key)
  {
    assert PassInv(s, me, s.passes[me]);
    UsersAfter(s, e);
    if !Moves(e, me) {
      OthersPassStays(s, e, me);
      if (me, key) in s.held && me in Step(s, e).existing {
        OthersClaimsStay(s, e, me, key);
      }
    }
  }

  lemma {:induction false} AcquiringAlongRun(s: System, es: seq<Event>, me: string, key: string)
    requires Inv(s) && FreshRun(s, es) && Acquiring(s, me, key) && !BeginsIn(me, es)
    ensures Acquiring(Run(s, es), me, key)
    decreases |es|
  {
    if es != [] {
      AcquiringStep(s, es[0], me, key);
      InvStep(s, es[0]);
      assert forall i :: 0 <= i < |es| - 1 ==> es[1..][i] == es[i + 1];
      AcquiringAlongRun(Step(s, es[0]), es[1..], me, key);
    }
  }

  /** An Acquire that reports success holds the claim for an addon that still exists, whatever the
      others did in between. */
  lemma AcquiredIsHeld(s: System, es: seq<Event>, me: string, key: string)
    requires Inv(s) && FreshRun(s, es) && me in s.used && Idle(s, me)
    requires OneOperation(me, ClaimProtocol.Acquire(key), es)
    requires me in Run(s, es).passes && Run(s, es).passes[me] == Done(Acquired) && me in Run(s, es).existing
    ensures (me, key) in Run(s, es).held
  {
    InvStep(s, es[0]);
    assert forall i :: 0 <= i < |es| - 1 ==> es[1..][i] == es[i + 1];
    AcquiringAlongRun(Step(s, es[0]), es[1..], me, key);
  }

  /** `todo` is what dropOwned deletes of the listed leases: those held by `me` and not kept. */
  ghost predicate Covers(items: seq<(string, Lease)>, me: string, keep: set<string>, todo: map<string, nat>) {
    && (forall i, j :: 0 <= i < j < |items| ==> items[i].0 != items[j].0)
    && (forall i :: 0 <= i < |items| ==>
          if items[i].0 !in keep && items[i].1.holder == me
          then items[i].0 in todo && todo[items[i].0] == items[i].1.rev else items[i].0 !in todo)
    && (forall k :: k in todo ==> exists i :: 0 <= i < |items| && items[i].0 == k)
  }

  lemma ListCovers(items: seq<(string, Lease)>, at: System, me: string, keep: set<string>)
    requires Lists(items, at.leases, SourceLabels(me))
    ensures Covers(items, me, keep, OwnedLeases(at, me, keep))
  {
    var todo := OwnedLeases(at, me, keep);
    forall k | k in todo
      ensures exists i :: 0 <= i < |items| && items[i].0 == k
    {
      assert (k, at.leases[k]) in items;
    }
  }

  lemma CoversRest(items: seq<(string, Lease)>, me: string, keep: set<string>, todo: map<string, nat>)
    requires items != [] && Covers(items, me, keep, todo)
    ensures Covers(items[1..], me, keep, todo - {items[0].0})
    ensures items[0].0 !in todo ==> todo - {items[0].0} == todo
  {
    forall k | k in todo - {items[0].0}
      ensures exists i :: 0 <= i < |items[1..]| && items[1..][i].0 == k
    {
      var i :| 0 <= i < |items| && items[i].0 == k;
      assert items[1..][i - 1].0 == k;
    }
  }

  lemma CoversNone(me: string, keep: set<string>, todo: map<string, nat>)
    requires Covers([], me, keep, todo)
    ensures todo == map[] && Remaining(todo, keep) == Done(Released)
  {
  }

  /** A lease changed or deleted in the meantime is left as it is, and is no error. */
  method DeleteOwned(server: ApiServer, me: string, name: string, rev: nat,
                     ghost todo: map<string, nat>, ghost keep: set<string>)
    returns (err: bool, ghost ran: seq<Event>)
    requires me in server.sys.passes && server.sys.passes[me] == Deleting(todo, keep)
    requires name in todo && todo[name] == rev
    modifies server
    ensures server.sys == Run(old(server.sys), ran) && !BeginsIn(me, ran) && me in server.sys.passes
    ensures server.sys.passes[me] == if err then Done(Failed) else Remaining(todo - {name}, keep)
  {
    var d, at, ran', f := server.Delete(me, name, rev);
    ran := ran';
    if d == Conflict {
      return false, ran;
    }
    return d == Error, ran;
  }

  /** Deletes the leases on the list that `me` holds, one call each, and stops at the first error. */
  method DropOwned(server: ApiServer, me: string, keep: set<string>)
    returns (err: bool, ghost ran: seq<Event>)
    requires me in server.sys.passes && server.sys.passes[me] == Listing(keep)
    modifies server
    ensures server.sys == Run(old(server.sys), ran) && !BeginsIn(me, ran) && me in server.sys.passes
    ensures server.sys.passes[me] == if err then Done(Failed) else Done(Released)
  {
    var s0 := server.sys;
    var r, at, ran0 := server.List(me, SourceLabels(me));
    ran := ran0;
    if r == Error {
      return true, ran;
    }
    var items := r.value;
    ghost var todo := OwnedLeases(at, me, keep);
    ListCovers(items, at, me, keep);
    assert items[0..] == items;
    var i := 0;
    while i < |items|
      invariant 0 <= i <= |items|
      invariant server.sys == Run(s0, ran) && !BeginsIn(me, ran) && me in server.sys.passes
      invariant server.sys.passes[me] == Remaining(todo, keep) && Covers(items[i..], me, keep, todo)
    {
      var name, lease := items[i].0, items[i].1;
      CoversRest(items[i..], me, keep, todo);
      assert items[i..][1..] == items[i + 1..];
      i := i + 1;
      if name in keep || lease.holder != me {
        continue;
      }
      var e, ran' := DeleteOwned(server, me, name, lease.rev, todo, keep);
      Concat(s0, me, ran, ran');
      ran := ran + ran';
      todo := todo - {name};
      if e {
        return true, ran;
      }
    }
    assert items[i..] == [];
    CoversNone(me, keep, todo);
    return false, ran;
  }

  method DropStale(server: ApiServer, hash: string -> string, me: string, spec: Pair, last: Option<Pair>)
    returns (err: bool, ghost es: seq<Event>)
    requires me in server.sys.used && Idle(server.sys, me)
    modifies server
    ensures var op := ClaimProtocol.DropStale(LeaseName(hash, spec),
                        if last.None? then None else Some(LeaseName(hash, last.value)));
            Ran(old(server.sys), server.sys, me, op, es)
    ensures server.sys.passes[me].outcome == if err then Failed else Released
  {
    var s0 := server.sys;
    var op := ClaimProtocol.DropStale(LeaseName(hash, spec),
                                      if last.None? then None else Some(LeaseName(hash, last.value)));
    server.Start(me, op);
    es := [Begin(me, op)];
    RunOne(s0, [], Begin(me, op));
    assert [] + [Begin(me, op)] == es;
    if last.None? {
      return false, es;
    }
    var current := LeaseName(hash, spec);
    if LeaseName(hash, last.value) != current {
      return false, es;
    }
    var e, ran := DropOwned(server, me, {current});
    Extend(s0, me, op, es, ran);
    return e, es + ran;
  }

  method DropAll(server: ApiServer, me: string) returns (err: bool, ghost es: seq<Event>)
    requires me in server.sys.used && Idle(server.sys, me)
    modifies server
    ensures Ran(old(server.sys), server.sys, me, ClaimProtocol.DropAll, es)
    ensures server.sys.passes[me].outcome == if err then Failed else Released
  {
    var s0 := server.sys;
    server.Start(me, ClaimProtocol.DropAll);
    es := [Begin(me, ClaimProtocol.DropAll)];
    RunOne(s0, [], Begin(me, ClaimProtocol.DropAll));
    assert [] + [Begin(me, ClaimProtocol.DropAll)] == es;
    var e, ran := DropOwned(server, me, {});
    Extend(s0, me, ClaimProtocol.DropAll, es, ran);
    return e, es + ran;
  }

  method Drop(server: ApiServer, me: string, key: string) returns (err: bool, ghost es: seq<Event>)
    requires me in server.sys.used && Idle(server.sys, me)
    modifies server
    ensures Ran(old(server.sys), server.sys, me, ClaimProtocol.Drop(key), es)
    ensures server.sys.passes[me].outcome == if err then Failed else Released
  {
    var s0 := server.sys;
    var op := ClaimProtocol.Drop(key);
    server.Start(me, op);
    es := [Begin(me, op)];
    RunOne(s0, [], Begin(me, op));
    assert [] + [Begin(me, op)] == es;
    var r, at, ran := server.Get(me, key);
    Extend(s0, me, op, es, ran);
    es := es + ran;
    if r == NotFound {
      return false, es;
    }
    if !r.Success? {
      return true, es;
    }
    if r.value.holder != me {
      return false, es;
    }
    var d, at', ran', f := server.Delete(me, key, r.value.rev);
    Extend(s0, me, op, es, ran');
    es := es + ran';
    return d == Error, es;
  }
}

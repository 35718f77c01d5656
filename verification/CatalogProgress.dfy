/**
 Passes that run out of budget still get through every tag of a repository: the tags never seen,
 marked stale or listed again are probed first, and each pass leaves fewer of them.
 */
module CatalogProgress {
  import opened Basics
  import opened CatalogOrder
  import opened CatalogMerge
  import opened CatalogFetch
  import opened CatalogPasses

  /** A listed tag with no verdict, a stale one, or one that says the tag was removed. */
  predicate Owed(had: Option<Entry>) {
    had.None? || had.value.reexamine || had.value.reason == RemovedFromRepository
  }

  function Todo(es: seq<Entry>, offered: seq<string>): set<string> {
    set t | t in offered && Owed(Find(es, t))
  }

  function CandidatesOf(es: seq<Entry>, full: bool, offered: seq<string>): seq<Candidate> {
    seq(|offered|, i requires 0 <= i < |offered| => CandidateFor(KnownOf(es), full, offered[i]))
  }

  /** The order a pass probes in. */
  function Order(es: seq<Entry>, full: bool, offered: seq<string>): (r: seq<nat>)
    ensures forall k :: 0 <= k < |r| ==> r[k] < |offered|
  {
    var cs := CandidatesOf(es, full, offered);
    ProbeOrderMembers(cs);
    assert forall k :: 0 <= k < |ProbeOrder(cs)| ==> ProbeOrder(cs)[k] in ProbeOrder(cs);
    ProbeOrder(cs)
  }

  /** The pass got a verdict on the first `n` tags it meant to probe, whatever came of the others;
      none of the offered tags is gone when asked for. */
  predicate Completes(parse: Parser, es: seq<Entry>, p: Pass, n: nat) {
    var offered := Offered(parse, p.tags);
    var order := Order(es, p.full, offered);
    && NoRepeats(p.tags) && Read(parse, es, p).Ok?
    && n <= |order|
    && (forall k :: 0 <= k < n ==> VerdictOn(KnownOf(es), p.full, p.probes, offered[order[k]]).Recorded?)
    && forall t :: t in offered ==> !VerdictOn(KnownOf(es), p.full, p.probes, t).Gone?
  }

  function TagsAt(order: seq<nat>, offered: seq<string>): set<string>
    requires forall k :: 0 <= k < |order| ==> order[k] < |offered|
  {
    set k | 0 <= k < |order| :: offered[order[k]]
  }

  lemma TagsAtLast(order: seq<nat>, offered: seq<string>)
    requires order != [] && forall k :: 0 <= k < |order| ==> order[k] < |offered|
    ensures TagsAt(order, offered) == TagsAt(order[..|order| - 1], offered) + {offered[order[|order| - 1]]}
  {
    var n := |order| - 1;
    var front := order[..n];
    forall t | t in TagsAt(front, offered)
      ensures t in TagsAt(order, offered)
    {
      var k :| 0 <= k < |front| && offered[front[k]] == t;
      assert offered[order[k]] == t;
    }
    forall t | t in TagsAt(order, offered)
      ensures t in TagsAt(front, offered) || t == offered[order[n]]
    {
      var k :| 0 <= k < |order| && offered[order[k]] == t;
      assert k == n || offered[front[k]] == t;
    }
  }

  lemma LastTagIsNew(order: seq<nat>, offered: seq<string>)
    requires order != [] && forall k :: 0 <= k < |order| ==> order[k] < |offered|
    requires forall k, l :: 0 <= k < l < |order| ==> order[k] != order[l]
    requires NoRepeats(offered)
    ensures offered[order[|order| - 1]] !in TagsAt(order[..|order| - 1], offered)
  {
    var n := |order| - 1;
    var front := order[..n];
    forall k | 0 <= k < |front|
      ensures offered[front[k]] != offered[order[n]]
    {
      assert front[k] == order[k] && order[k] != order[n];
    }
  }

  lemma {:induction false} TagsAtSize(order: seq<nat>, offered: seq<string>)
    requires forall k :: 0 <= k < |order| ==> order[k] < |offered|
    requires forall k, l :: 0 <= k < l < |order| ==> order[k] != order[l]
    requires NoRepeats(offered)
    ensures |TagsAt(order, offered)| == |order|
  {
    if order == [] {
      assert TagsAt(order, offered) == {};
    } else {
      TagsAtSize(order[..|order| - 1], offered);
      TagsAtLast(order, offered);
      LastTagIsNew(order, offered);
    }
  }

  /** The first three groups hold exactly the tags that owe a verdict. */
  lemma FrontIsTodo(es: seq<Entry>, full: bool, offered: seq<string>)
    requires NoRepeats(offered)
    ensures var order := Order(es, full, offered);
            && |Todo(es, offered)| <= |order|
            && TagsAt(order[..|Todo(es, offered)|], offered) == Todo(es, offered)
            && forall k, l :: 0 <= k < l < |order| ==> order[k] != order[l]
  {
    var cs := CandidatesOf(es, full, offered);
    var order := Order(es, full, offered);
    var front := Group(0, cs, |cs|) + Group(1, cs, |cs|) + Group(2, cs, |cs|);
    ProbeOrderGroups(cs);
    ProbeOrderIsExact(KnownOf(es), full, offered);
    assert cs == seq(|offered|, i requires 0 <= i < |offered| => CandidateFor(KnownOf(es), full, offered[i]));
    assert order == front + Group(3, cs, |cs|);
    assert order[..|front|] == front;
    forall k, l | 0 <= k < l < |front|
      ensures front[k] != front[l]
    {
      assert order[k] == front[k] && order[l] == front[l];
    }
    assert forall k :: 0 <= k < |front| ==> front[k] == order[k];
    FrontTags(es, full, offered, front);
    TagsAtSize(front, offered);
  }

  /** What stands in the first three groups, by what is known of the tag. */
  lemma FrontMembers(es: seq<Entry>, full: bool, offered: seq<string>, front: seq<nat>)
    requires var cs := CandidatesOf(es, full, offered);
             front == Group(0, cs, |cs|) + Group(1, cs, |cs|) + Group(2, cs, |cs|)
    ensures forall i: nat :: i in front <==> i < |offered| && Owed(Find(es, offered[i]))
  {
    var cs := CandidatesOf(es, full, offered);
    GroupMembers(0, cs, |cs|);
    GroupMembers(1, cs, |cs|);
    GroupMembers(2, cs, |cs|);
    forall i: nat | i < |offered|
      ensures Owed(Find(es, offered[i])) <==>
              cs[i].known.None? && (InGroup(0, cs[i]) || InGroup(1, cs[i]) || InGroup(2, cs[i]))
    {
    }
  }

  lemma FrontTags(es: seq<Entry>, full: bool, offered: seq<string>, front: seq<nat>)
    requires forall k :: 0 <= k < |front| ==> front[k] < |offered|
    requires var cs := CandidatesOf(es, full, offered);
             front == Group(0, cs, |cs|) + Group(1, cs, |cs|) + Group(2, cs, |cs|)
    ensures TagsAt(front, offered) == Todo(es, offered)
  {
    FrontMembers(es, full, offered, front);
    forall t | t in Todo(es, offered)
      ensures t in TagsAt(front, offered)
    {
      var i: nat :| i < |offered| && offered[i] == t;
      assert i in front;
      var k :| 0 <= k < |front| && front[k] == i;
      assert offered[front[k]] == t;
    }
    forall t | t in TagsAt(front, offered)
      ensures t in Todo(es, offered)
    {
      var k :| 0 <= k < |front| && offered[front[k]] == t;
      assert front[k] in front;
    }
  }

  /** Every tag of the completed part leaves the work list, and none joins it. */
  lemma TodoShrinks(parse: Parser, es: seq<Entry>, p: Pass, n: nat)
    requires Distinct(es) && Completes(parse, es, p, n)
    ensures var offered := Offered(parse, p.tags);
            Todo(AfterPass(parse, es, p), offered) <= Todo(es, offered) - TagsAt(Order(es, p.full, offered)[..n], offered)
  {
    var offered := Offered(parse, p.tags);
    var order := Order(es, p.full, offered);
    var es' := AfterPass(parse, es, p);
    PassMeaning(parse, es, p);
    forall t | t in Todo(es', offered)
      ensures t in Todo(es, offered) - TagsAt(order[..n], offered)
    {
      assert Find(es', t) == VersionAfter(t, Find(es, t), true, p.full, p.probes(t), t in p.inUse);
      SameVerdict(es, p, t);
      NotRefused(parse, es, p, t);
      if t in TagsAt(order[..n], offered) {
        DoneIsRecorded(parse, es, p, n, t);
      }
      VerdictSettles(t, Find(es, t), p.full, p.probes(t), t in p.inUse);
    }
  }

  lemma DoneIsRecorded(parse: Parser, es: seq<Entry>, p: Pass, n: nat, t: string)
    requires Completes(parse, es, p, n)
    requires t in TagsAt(Order(es, p.full, Offered(parse, p.tags))[..n], Offered(parse, p.tags))
    ensures VerdictOn(KnownOf(es), p.full, p.probes, t).Recorded?
  {
    var offered := Offered(parse, p.tags);
    var order := Order(es, p.full, offered);
    var k :| 0 <= k < n && offered[order[..n][k]] == t;
    assert order[k] == order[..n][k];
  }

  lemma VerdictSettles(t: string, had: Option<Entry>, full: bool, probe: Probe, used: bool)
    ensures var verdict := VerdictOn(if had.Some? then map[t := KnownFrom(had.value)] else map[], full, _ => probe, t);
            var after := VersionAfter(t, had, true, full, probe, used);
            && (verdict.Recorded? ==> !Owed(after))
            && (verdict.Unexamined? ==> after == had)
  {
  }

  /** Of the work there was, as many tags are done as the completed part can cover. */
  lemma WorkDone(parse: Parser, es: seq<Entry>, p: Pass, n: nat) returns (done: set<string>)
    requires Distinct(es) && Completes(parse, es, p, n)
    ensures var offered := Offered(parse, p.tags);
            var before := Todo(es, offered);
            && done <= before && |done| == (if n <= |before| then n else |before|)
            && done <= TagsAt(Order(es, p.full, offered)[..n], offered)
  {
    var offered := Offered(parse, p.tags);
    var order := Order(es, p.full, offered);
    var before := Todo(es, offered);
    OfferedNoRepeats(parse, p.tags);
    FrontIsTodo(es, p.full, offered);
    var m := if n <= |before| then n else |before|;
    done := TagsAt(order[..m], offered);
    TagsAtSize(order[..m], offered);
    TagsAtGrows(order, offered, m, n);
    TagsAtGrows(order, offered, m, |before|);
  }

  lemma Remainder(before: set<string>, after: set<string>, done: set<string>)
    requires done <= before && after <= before - done
    ensures |after| <= |before| - |done|
  {
    assert (before - done) + done == before;
    Sizes(after, before - done);
  }

  /** One pass: the work left shrinks by what the pass completed of it. */
  lemma PassProgress(parse: Parser, es: seq<Entry>, p: Pass, n: nat)
    requires Distinct(es) && Completes(parse, es, p, n)
    ensures var offered := Offered(parse, p.tags);
            var before, after := Todo(es, offered), Todo(AfterPass(parse, es, p), offered);
            after <= before && |after| <= if n <= |before| then |before| - n else 0
  {
    var done := WorkDone(parse, es, p, n);
    TodoShrinks(parse, es, p, n);
    var offered := Offered(parse, p.tags);
    Remainder(Todo(es, offered), Todo(AfterPass(parse, es, p), offered), done);
  }

  lemma TagsAtGrows(order: seq<nat>, offered: seq<string>, m: nat, n: nat)
    requires forall k :: 0 <= k < |order| ==> order[k] < |offered|
    requires m <= n <= |order|
    ensures TagsAt(order[..m], offered) <= TagsAt(order[..n], offered)
  {
    forall t | t in TagsAt(order[..m], offered)
      ensures t in TagsAt(order[..n], offered)
    {
      var k :| 0 <= k < m && offered[order[..m][k]] == t;
      assert offered[order[..n][k]] == t;
    }
  }

  lemma {:induction false} Sizes(a: set<string>, b: set<string>)
    requires a <= b
    ensures |a| <= |b|
  {
    if a != {} {
      var x :| x in a;
      Sizes(a - {x}, b - {x});
    }
  }

  /** A run of passes over the same listing; a failed one records nothing, every other completes a
      part of its probe order that is empty only when there is nothing left to probe. */
  predicate Steady(parse: Parser, es: seq<Entry>, tags: seq<string>, ps: seq<Pass>)
    decreases |ps|
  {
    ps == [] ||
    (&& ps[0].tags == tags
     && (Read(parse, es, ps[0]).Ok? ==>
           Completes(parse, es, ps[0], if Order(es, ps[0].full, Offered(parse, tags)) == [] then 0 else 1))
     && Steady(parse, AfterPass(parse, es, ps[0]), tags, ps[1..]))
  }

  function AfterPasses(parse: Parser, es: seq<Entry>, ps: seq<Pass>): seq<Entry>
    decreases |ps|
  {
    if ps == [] then es else AfterPasses(parse, AfterPass(parse, es, ps[0]), ps[1..])
  }

  function Successes(parse: Parser, es: seq<Entry>, ps: seq<Pass>): nat
    decreases |ps|
  {
    if ps == [] then 0
    else (if Read(parse, es, ps[0]).Ok? then 1 else 0) + Successes(parse, AfterPass(parse, es, ps[0]), ps[1..])
  }

  /** Main result: over any run the tags owing a verdict only get fewer, and after as many
      successful passes as there were such tags every offered tag has been examined. */
  lemma {:induction false} EveryTagIsExamined(parse: Parser, es: seq<Entry>, tags: seq<string>, ps: seq<Pass>)
    requires NoRepeats(tags) && Distinct(es) && Steady(parse, es, tags, ps)
    ensures var offered := Offered(parse, tags);
            && Todo(AfterPasses(parse, es, ps), offered) <= Todo(es, offered)
            && (|Todo(es, offered)| <= Successes(parse, es, ps) ==> Todo(AfterPasses(parse, es, ps), offered) == {})
            && (Successes(parse, es, ps) <= |Todo(es, offered)| ==>
                  |Todo(AfterPasses(parse, es, ps), offered)| <= |Todo(es, offered)| - Successes(parse, es, ps))
    decreases |ps|
  {
    if ps != [] {
      var offered := Offered(parse, tags);
      var p, es' := ps[0], AfterPass(parse, es, ps[0]);
      if Read(parse, es, p).Ok? {
        var n := if Order(es, p.full, offered) == [] then 0 else 1;
        PassMeaning(parse, es, p);
        PassProgress(parse, es, p, n);
        OfferedNoRepeats(parse, tags);
        FrontIsTodo(es, p.full, offered);
      }
      EveryTagIsExamined(parse, es', tags, ps[1..]);
    }
  }
}

/**
 Repeating a migration that stopped: for which names and labels every run that succeeds in the end
 reaches the catalog of an undisturbed run, however often and wherever it was stopped before.
 */
module CatalogMigrationRepetition {
  import opened Basics
  import opened CatalogOrder
  import opened CatalogMerge
  import opened CatalogFetch
  import opened CatalogSync
  import opened CatalogMigration
  import opened CatalogMigrationRuns

  /** One attempt: how many of its writes succeed, and whether the one that fails takes effect anyway. */
  datatype Attempt = Attempt(writes: nat, lost: bool)

  function Try(s: Scheme, catalog: Catalog, a: Attempt): Work {
    Migrate(s, catalog, a.writes, a.lost)
  }

  function AfterAttempts(s: Scheme, catalog: Catalog, attempts: seq<Attempt>): Catalog
    decreases |attempts|
  {
    if attempts == [] then catalog
    else AfterAttempts(s, Try(s, catalog, attempts[0]).catalog, attempts[1..])
  }

  /** Whatever was attempted before, a run that succeeds reaches what an undisturbed one reaches. */
  ghost predicate Repeatable(s: Scheme, catalog: Catalog) {
    forall attempts, last, only ::
      !Try(s, AfterAttempts(s, catalog, attempts), last).failed && !Try(s, catalog, only).failed ==>
        Try(s, AfterAttempts(s, catalog, attempts), last).catalog == Try(s, catalog, only).catalog
  }

  /** The same objects under the same labels, whatever versions they record. */
  predicate SameShape(a: Catalog, b: Catalog) {
    a.Keys == b.Keys && forall n :: n in a ==> a[n].chart == b[n].chart
  }

  /** Two labels of the catalog derive different names. */
  predicate LabelsApart(s: Scheme, catalog: Catalog) {
    forall n :: n in catalog && catalog[n].chart != "" ==> ApartLabels(s, catalog, catalog[n].chart)
  }

  // ----- if no name is claimed later -----

  lemma {:induction false} AttemptsOnTheWay(s: Scheme, catalog: Catalog, attempts: seq<Attempt>)
    requires NoRepeats(s.order) && Tidy(catalog) && Covers(s, s.order, catalog) && NoLaterClaim(s, s.order, catalog)
    ensures var c := AfterAttempts(s, catalog, attempts);
            && Tidy(c) && Covers(s, s.order, c) && NoLaterClaim(s, s.order, c)
            && Final(s, s.order, c) == Final(s, s.order, catalog)
    decreases |attempts|
  {
    if attempts != [] {
      var a := attempts[0];
      var w := Work(catalog, a.writes, false);
      OnTheWay(s, catalog, s.order, w, a.lost);
      MoveAllUntouched(s, catalog, s.order, w, a.lost);
      StillUnclaimed(s, s.order, catalog, Try(s, catalog, a).catalog);
      AttemptsOnTheWay(s, Try(s, catalog, a).catalog, attempts[1..]);
    }
  }

  lemma UnclaimedIsRepeatable(s: Scheme, catalog: Catalog)
    requires NoRepeats(s.order) && Tidy(catalog) && Covers(s, s.order, catalog) && NoLaterClaim(s, s.order, catalog)
    ensures Repeatable(s, catalog)
  {
    forall attempts, last, only | !Try(s, AfterAttempts(s, catalog, attempts), last).failed && !Try(s, catalog, only).failed
      ensures Try(s, AfterAttempts(s, catalog, attempts), last).catalog == Try(s, catalog, only).catalog
    {
      AttemptsOnTheWay(s, catalog, attempts);
      RepeatedRunReachesTheSame(s, catalog, only.writes, only.lost, 0, false);
      RepeatedRunReachesTheSame(s, AfterAttempts(s, catalog, attempts), last.writes, last.lost, 0, false);
    }
  }

  // ----- what a move costs -----

  /** The object a move finds or creates under its destination. */
  function Ready(s: Scheme, listed: Catalog, n: string, c: Catalog): Obj
    requires n in listed
  {
    var chart := listed[n].chart;
    if s.objName(chart) in c then c[s.objName(chart)].(chart := chart) else Obj(chart, "", [])
  }

  function DestinationWrites(n: string, chart: string, c: Catalog): nat {
    if n in c && c[n].chart == chart then 0 else 1
  }

  function CarryWrites(current: Obj, legacy: Obj): nat {
    if NothingToJoin(current, legacy) then 0 else 1
  }

  function WritesOf(s: Scheme, listed: Catalog, n: string, c: Catalog): (r: nat)
    ensures r <= 3
  {
    if !IsLegacy(s, listed, n) then 0
    else DestinationWrites(s.objName(listed[n].chart), listed[n].chart, c) + CarryWrites(Ready(s, listed, n, c), listed[n]) + 1
  }

  function MovedTo(s: Scheme, listed: Catalog, n: string, c: Catalog): Catalog {
    if !IsLegacy(s, listed, n) then c
    else c[s.objName(listed[n].chart) := Joined(s.parse, Ready(s, listed, n, c), listed[n])] - {n}
  }

  lemma DestinationWithin(n: string, chart: string, w: Work, lost: bool)
    requires !w.failed && w.writes >= DestinationWrites(n, chart, w.catalog)
    ensures var o := if n in w.catalog then w.catalog[n].(chart := chart) else Obj(chart, "", []);
            Destination(n, chart, w, lost) == Work(w.catalog[n := o], w.writes - DestinationWrites(n, chart, w.catalog), false)
  {
    Landed(n, chart, w, lost);
  }

  lemma CarryWithin(parse: Parser, n: string, legacy: Obj, w: Work, lost: bool)
    requires n in w.catalog && !w.failed && w.writes >= CarryWrites(w.catalog[n], legacy)
    ensures CarryOver(parse, n, legacy, w, lost)
         == Work(w.catalog[n := Joined(parse, w.catalog[n], legacy)], w.writes - CarryWrites(w.catalog[n], legacy), false)
  {
    CarriedOver(parse, n, legacy, w, lost);
  }

  lemma InThreeWrites(s: Scheme, listed: Catalog, n: string, w: Work, w1: Work, w2: Work, lost: bool)
    requires IsLegacy(s, listed, n) && !w1.failed && !w2.failed
    requires Destination(s.objName(listed[n].chart), listed[n].chart, w, lost) == w1
    requires CarryOver(s.parse, s.objName(listed[n].chart), listed[n], w1, lost) == w2
    ensures MoveOne(s, listed, n, w, lost) == Drop(w2, n, lost)
  {
  }

  lemma LegacyWithin(s: Scheme, listed: Catalog, n: string, w: Work, lost: bool)
    requires IsLegacy(s, listed, n) && !w.failed && w.writes >= WritesOf(s, listed, n, w.catalog)
    ensures MoveOne(s, listed, n, w, lost) == Work(MovedTo(s, listed, n, w.catalog), w.writes - WritesOf(s, listed, n, w.catalog), false)
  {
    var dest, o := s.objName(listed[n].chart), Ready(s, listed, n, w.catalog);
    var joined := Joined(s.parse, o, listed[n]);
    var w1 := Work(w.catalog[dest := o], w.writes - DestinationWrites(dest, listed[n].chart, w.catalog), false);
    var w2 := Work(w1.catalog[dest := joined], w1.writes - CarryWrites(o, listed[n]), false);
    DestinationWithin(dest, listed[n].chart, w, lost);
    CarryWithin(s.parse, dest, listed[n], w1, lost);
    InThreeWrites(s, listed, n, w, w1, w2, lost);
    PutTwice(w.catalog, dest, o, joined);
  }

  lemma MoveWithin(s: Scheme, listed: Catalog, n: string, w: Work, lost: bool)
    requires !w.failed && w.writes >= WritesOf(s, listed, n, w.catalog)
    ensures MoveOne(s, listed, n, w, lost) == Work(MovedTo(s, listed, n, w.catalog), w.writes - WritesOf(s, listed, n, w.catalog), false)
  {
    if IsLegacy(s, listed, n) {
      LegacyWithin(s, listed, n, w, lost);
    }
  }

  lemma {:induction false} EnoughWrites(s: Scheme, listed: Catalog, names: seq<string>, w: Work, lost: bool)
    requires !w.failed && w.writes >= 3 * |names|
    ensures !MoveAll(s, listed, names, w, lost).failed
    decreases |names|
  {
    if names != [] {
      MoveWithin(s, listed, names[0], w, lost);
      EnoughWrites(s, listed, names[1..], MoveOne(s, listed, names[0], w, lost), lost);
    }
  }

  // ----- stopped where a name is claimed -----

  function Labels(c: Catalog): set<string> {
    set n | n in c :: c[n].chart
  }

  /** What is listed is still there for every object whose turn has not come. */
  predicate Pending(s: Scheme, listed: Catalog, names: seq<string>, c: Catalog) {
    forall n :: n in names && IsLegacy(s, listed, n) ==> n in c && c[n] == listed[n]
  }

  predicate Claims(s: Scheme, listed: Catalog, names: seq<string>, i: nat, j: nat) {
    && i < j < |names| && IsLegacy(s, listed, names[i]) && IsLegacy(s, listed, names[j])
    && names[j] == s.objName(listed[names[i]].chart)
  }

  /** Relabelled for the object that claims its name, which has not been carried over yet. */
  predicate StoppedAt(s: Scheme, listed: Catalog, n: string, m: string, c: Catalog) {
    && Tidy(c) && Labels(c) <= Labels(listed)
    && n in listed && n in c && c[n] == listed[n]
    && m in c && c[m].chart == listed[n].chart
  }

  lemma MovedToKeeps(s: Scheme, listed: Catalog, names: seq<string>, c: Catalog)
    requires names != [] && NoRepeats(names) && Tidy(listed) && Tidy(c) && Labels(c) <= Labels(listed)
    requires Pending(s, listed, names, c) && forall j :: !Claims(s, listed, names, 0, j)
    ensures var c1 := MovedTo(s, listed, names[0], c);
            Tidy(c1) && Labels(c1) <= Labels(listed) && Pending(s, listed, names[1..], c1)
  {
    var n := names[0];
    if IsLegacy(s, listed, n) {
      JoinedMeaning(s.parse, Ready(s, listed, n, c), listed[n]);
      forall k | k in names[1..] && IsLegacy(s, listed, k)
        ensures k in names && k != n && k != s.objName(listed[n].chart)
      {
        var j :| 0 <= j < |names[1..]| && names[1..][j] == k;
        assert !Claims(s, listed, names, 0, j + 1);
      }
      forall k | k in MovedTo(s, listed, n, c)
        ensures MovedTo(s, listed, n, c)[k].chart in Labels(listed)
      {
        if k in c {
          assert c[k].chart in Labels(c);
        }
      }
    }
  }

  /** The run over these names that stops after `writes` writes stops at this claim. */
  predicate StopsAt(s: Scheme, listed: Catalog, names: seq<string>, c: Catalog, writes: nat, i: nat, j: nat) {
    && Claims(s, listed, names, i, j)
    && StoppedAt(s, listed, names[i], names[j], MoveAll(s, listed, names, Work(c, writes, false), false).catalog)
  }

  lemma StopHere(s: Scheme, listed: Catalog, names: seq<string>, c: Catalog, j: nat)
    requires Tidy(listed) && Tidy(c) && Labels(c) <= Labels(listed)
    requires Claims(s, listed, names, 0, j) && Pending(s, listed, names, c)
    ensures StopsAt(s, listed, names, c, 1, 0, j)
  {
    var n, m := names[0], names[j];
    var chart := listed[n].chart;
    var w1 := Work(c[m := c[m].(chart := chart)], 0, false);
    assert Destination(m, chart, Work(c, 1, false), false) == w1;
    assert MoveOne(s, listed, n, Work(c, 1, false), false) == w1.(failed := true);
    FailedStays(s, listed, names[1..], w1.(failed := true), false);
    forall k | k in w1.catalog
      ensures w1.catalog[k].chart in Labels(listed)
    {
      assert c[k].chart in Labels(c);
    }
  }

  lemma OneMoveBefore(s: Scheme, listed: Catalog, names: seq<string>, w: Work, w1: Work, lost: bool)
    requires names != [] && !w.failed && MoveOne(s, listed, names[0], w, lost) == w1
    ensures MoveAll(s, listed, names, w, lost) == MoveAll(s, listed, names[1..], w1, lost)
  {
  }

  lemma StopLater(s: Scheme, listed: Catalog, names: seq<string>, c: Catalog, writes: nat, i: nat, j: nat)
    requires names != [] && StopsAt(s, listed, names[1..], MovedTo(s, listed, names[0], c), writes, i, j)
    ensures StopsAt(s, listed, names, c, WritesOf(s, listed, names[0], c) + writes, i + 1, j + 1)
  {
    var w := Work(c, WritesOf(s, listed, names[0], c) + writes, false);
    MoveWithin(s, listed, names[0], w, false);
    OneMoveBefore(s, listed, names, w, Work(MovedTo(s, listed, names[0], c), writes, false), false);
    assert names[1..][i] == names[i + 1] && names[1..][j] == names[j + 1];
  }

  /** The run up to the first object that claims the name of a later one, stopped after relabelling it. */
  lemma {:induction false} StopAtClaim(s: Scheme, listed: Catalog, names: seq<string>, c: Catalog)
    returns (writes: nat, i: nat, j: nat)
    requires NoRepeats(names) && Tidy(listed) && Tidy(c) && Labels(c) <= Labels(listed)
    requires Pending(s, listed, names, c) && !NoLaterClaim(s, names, listed)
    ensures StopsAt(s, listed, names, c, writes, i, j)
    decreases |names|
  {
    if j0: nat :| Claims(s, listed, names, 0, j0) {
      StopHere(s, listed, names, c, j0);
      return 1, 0, j0;
    }
    MovedToKeeps(s, listed, names, c);
    ClaimIsLater(s, names, listed);
    var more, i1, j1 := StopAtClaim(s, listed, names[1..], MovedTo(s, listed, names[0], c));
    StopLater(s, listed, names, c, more, i1, j1);
    return WritesOf(s, listed, names[0], c) + more, i1 + 1, j1 + 1;
  }

  lemma ClaimIsLater(s: Scheme, names: seq<string>, listed: Catalog)
    requires !NoLaterClaim(s, names, listed) && forall j :: !Claims(s, listed, names, 0, j)
    ensures names != [] && !NoLaterClaim(s, names[1..], listed)
  {
    var i: nat, j: nat :| i < j < |names| && IsLegacy(s, listed, names[i]) && IsLegacy(s, listed, names[j])
      && names[j] == s.objName(listed[names[i]].chart);
    assert Claims(s, listed, names, i, j);
    assert i != 0;
    assert names[1..][i - 1] == names[i] && names[1..][j - 1] == names[j];
  }

  // ----- a catalog that shows it -----

  /** Every object records one version, named after the object. */
  function Signed(shape: Catalog): Catalog {
    map n | n in shape :: Obj(shape[n].chart, "", [Entry(n, "", "", Usable, "", false)])
  }

  lemma SignedRecords(shape: Catalog)
    ensures Tidy(Signed(shape)) && SameShape(Signed(shape), shape)
    ensures forall n, v :: n in shape ==> (Records(Signed(shape)[n], v, false) <==> v == n)
  {
    forall n, v | n in shape
      ensures Records(Signed(shape)[n], v, false) <==> v == n
    {
      assert Signed(shape)[n].versions[..0] == [];
    }
  }

  lemma SameShapeAgrees(s: Scheme, a: Catalog, b: Catalog)
    requires SameShape(a, b)
    ensures forall n :: IsLegacy(s, a, n) <==> IsLegacy(s, b, n)
    ensures Covers(s, s.order, a) <==> Covers(s, s.order, b)
    ensures NoLaterClaim(s, s.order, a) <==> NoLaterClaim(s, s.order, b)
    ensures LabelsApart(s, a) <==> LabelsApart(s, b)
  {
    assert forall n :: IsLegacy(s, a, n) <==> IsLegacy(s, b, n);
    assert forall chart :: ApartLabels(s, a, chart) <==> ApartLabels(s, b, chart);
  }

  lemma ApartStays(s: Scheme, before: Catalog, after: Catalog, chart: string)
    requires ApartLabels(s, before, chart) && Labels(after) <= Labels(before)
    ensures ApartLabels(s, after, chart)
  {
    forall n | n in after && after[n].chart != "" && s.objName(after[n].chart) == s.objName(chart)
      ensures after[n].chart == chart
    {
      assert after[n].chart in Labels(after);
      var k :| k in before && before[k].chart == after[n].chart;
    }
  }

  /** Stopped at the claim and repeated, the version is there; undisturbed, it is not. */
  lemma ClaimTells(s: Scheme, shape: Catalog, stopped: Catalog, i: nat, j: nat, writes: nat, lost: bool)
    requires NoRepeats(s.order) && Covers(s, s.order, shape) && LabelsApart(s, shape)
    requires var c := Signed(shape);
             Claims(s, c, s.order, i, j) && StoppedAt(s, c, s.order[i], s.order[j], stopped) && LegacyUntouched(s, c, stopped)
    requires !Migrate(s, stopped, writes, lost).failed && !Migrate(s, Signed(shape), writes, lost).failed
    ensures Migrate(s, stopped, writes, lost).catalog != Migrate(s, Signed(shape), writes, lost).catalog
  {
    var c := Signed(shape);
    var n, m := s.order[i], s.order[j];
    var chart := c[n].chart;
    SignedRecords(shape);
    SameShapeAgrees(s, c, shape);
    ApartStays(s, c, stopped, chart);
    VersionSurvivesIff(s, c, writes, lost, chart, n, false);
    assert !Later(s.order, m, n);
    assert !Survives(s, c, chart, n, false);
    assert Covers(s, s.order, stopped);
    VersionSurvivesIff(s, stopped, writes, lost, chart, n, false);
    assert Contributes(s, stopped, chart, n);
    assert Survives(s, stopped, chart, n, false);
  }

  lemma ClaimIsNotRepeatable(s: Scheme, shape: Catalog)
    requires NoRepeats(s.order) && Covers(s, s.order, shape) && LabelsApart(s, shape) && !NoLaterClaim(s, s.order, shape)
    ensures Tidy(Signed(shape)) && SameShape(Signed(shape), shape) && !Repeatable(s, Signed(shape))
  {
    var c := Signed(shape);
    SignedRecords(shape);
    SameShapeAgrees(s, c, shape);
    var writes, i, j := StopAtClaim(s, c, s.order, c);
    var first, enough := Attempt(writes, false), Attempt(3 * |s.order|, false);
    var stopped := Try(s, c, first).catalog;
    MoveAllUntouched(s, c, s.order, Work(c, writes, false), false);
    EnoughWrites(s, c, s.order, Work(c, enough.writes, false), false);
    EnoughWrites(s, stopped, s.order, Work(stopped, enough.writes, false), false);
    ClaimTells(s, shape, stopped, i, j, enough.writes, false);
    assert AfterAttempts(s, c, [first]) == stopped by {
      assert [first][1..] == [];
    }
    assert !Try(s, AfterAttempts(s, c, [first]), enough).failed && !Try(s, c, enough).failed;
  }

  /** Main result, exactly when a migration can be repeated: with these names and labels, every catalog
      ends as an undisturbed run would leave it, wherever and however often runs stopped before, iff no
      object still to be moved carries the current name of a chart moved before it. */
  lemma RepetitionIff(s: Scheme, shape: Catalog)
    requires NoRepeats(s.order) && Covers(s, s.order, shape) && LabelsApart(s, shape)
    ensures (forall c :: Tidy(c) && SameShape(c, shape) ==> Repeatable(s, c)) <==> NoLaterClaim(s, s.order, shape)
  {
    if NoLaterClaim(s, s.order, shape) {
      forall c | Tidy(c) && SameShape(c, shape)
        ensures Repeatable(s, c)
      {
        SameShapeAgrees(s, c, shape);
        UnclaimedIsRepeatable(s, c);
      }
    } else {
      ClaimIsNotRepeatable(s, shape);
    }
  }
}

/**
 The renaming of catalog objects over whole runs: nothing legacy is left, and exactly which versions
 and marks survive. As long as no object still to be moved carries the current name of a chart moved
 before it, nothing is lost, and a run that stopped reaches the same catalog once it is repeated;
 CatalogMigrationRepetition shows that repeating needs that condition.
 */
module CatalogMigrationRuns {
  import opened Basics
  import opened CatalogOrder
  import opened CatalogMerge
  import opened CatalogPasses
  import opened CatalogFetch
  import opened CatalogSync
  import opened CatalogRetention
  import opened CatalogMigration

  predicate IsLegacy(s: Scheme, catalog: Catalog, n: string) {
    n in catalog && Legacy(s.objName, n, catalog[n])
  }

  predicate Tidy(catalog: Catalog) {
    forall n :: n in catalog ==> Distinct(catalog[n].versions)
  }

  /** No object still to be moved carries the current name of a chart moved before it. */
  predicate NoLaterClaim(s: Scheme, names: seq<string>, catalog: Catalog) {
    forall i, j :: 0 <= i < j < |names| && IsLegacy(s, catalog, names[i]) && IsLegacy(s, catalog, names[j]) ==>
      names[j] != s.objName(catalog[names[i]].chart)
  }

  predicate Covers(s: Scheme, names: seq<string>, catalog: Catalog) {
    forall n :: n in catalog && IsLegacy(s, catalog, n) ==> n in names
  }

  function Relabelled(catalog: Catalog, n: string, chart: string): Catalog {
    catalog[n := if n in catalog then catalog[n].(chart := chart) else Obj(chart, "", [])]
  }

  function Carried(s: Scheme, catalog: Catalog, n: string, legacy: Obj): Catalog
    requires n in catalog
  {
    catalog[n := Joined(s.parse, catalog[n], legacy)]
  }

  /** One object moved: its chart's object takes its versions, and it is gone. */
  function Moved(s: Scheme, n: string, catalog: Catalog): Catalog
    requires IsLegacy(s, catalog, n)
  {
    var dest := s.objName(catalog[n].chart);
    Carried(s, Relabelled(catalog, dest, catalog[n].chart), dest, catalog[n]) - {n}
  }

  /** The catalog a run reaches when nothing fails. */
  function Final(s: Scheme, names: seq<string>, catalog: Catalog): Catalog
    decreases |names|
  {
    if names == [] then catalog
    else if IsLegacy(s, catalog, names[0]) then Final(s, names[1..], Moved(s, names[0], catalog))
    else Final(s, names[1..], catalog)
  }

  // ----- one object, stopped anywhere -----

  /** Legacy objects are only ever deleted. */
  predicate LegacyUntouched(s: Scheme, before: Catalog, after: Catalog) {
    forall n :: n in after && IsLegacy(s, after, n) ==> n in before && before[n] == after[n]
  }

  lemma RelabelledStage(s: Scheme, n: string, catalog: Catalog)
    requires Tidy(catalog) && IsLegacy(s, catalog, n)
    ensures var dest := s.objName(catalog[n].chart);
            var c1 := Relabelled(catalog, dest, catalog[n].chart);
            && Tidy(c1) && LegacyUntouched(s, catalog, c1) && IsLegacy(s, c1, n) && c1[n] == catalog[n]
            && Moved(s, n, c1) == Moved(s, n, catalog)
  {
    var dest := s.objName(catalog[n].chart);
    var c1 := Relabelled(catalog, dest, catalog[n].chart);
    assert Relabelled(c1, dest, catalog[n].chart) == c1;
  }

  lemma CarriedStage(s: Scheme, n: string, catalog: Catalog)
    requires Tidy(catalog) && IsLegacy(s, catalog, n)
    requires var dest := s.objName(catalog[n].chart); dest in catalog && catalog[dest].chart == catalog[n].chart
    ensures var c2 := Carried(s, catalog, s.objName(catalog[n].chart), catalog[n]);
            && Tidy(c2) && LegacyUntouched(s, catalog, c2) && IsLegacy(s, c2, n) && c2[n] == catalog[n]
            && Moved(s, n, c2) == Moved(s, n, catalog)
  {
    var dest := s.objName(catalog[n].chart);
    var c2 := Carried(s, catalog, dest, catalog[n]);
    JoinedMeaning(s.parse, catalog[dest], catalog[n]);
    JoinedTwice(s.parse, catalog[dest], catalog[n]);
    assert Relabelled(catalog, dest, catalog[n].chart) == catalog;
    assert Relabelled(c2, dest, catalog[n].chart) == c2;
    assert Carried(s, c2, dest, catalog[n]) == c2;
  }

  lemma MovedStage(s: Scheme, n: string, catalog: Catalog)
    requires Tidy(catalog) && IsLegacy(s, catalog, n)
    ensures var c := Moved(s, n, catalog);
            && Tidy(c) && n !in c && LegacyUntouched(s, catalog, c)
            && forall m :: m in catalog && m != n && m != s.objName(catalog[n].chart) ==> m in c && c[m] == catalog[m]
  {
    var dest := s.objName(catalog[n].chart);
    RelabelledStage(s, n, catalog);
    var c1 := Relabelled(catalog, dest, catalog[n].chart);
    CarriedStage(s, n, c1);
  }

  /** What a step of the run may leave behind. */
  predicate Leads(s: Scheme, n: string, before: Catalog, after: Catalog) {
    && Tidy(after) && LegacyUntouched(s, before, after)
    && (IsLegacy(s, before, n) ==>
          after == Moved(s, n, before) || (IsLegacy(s, after, n) && after[n] == before[n] && Moved(s, n, after) == Moved(s, n, before)))
    && (!IsLegacy(s, before, n) ==> after == before)
  }

  lemma DestinationLeads(s: Scheme, n: string, w: Work, lost: bool)
    requires Tidy(w.catalog) && IsLegacy(s, w.catalog, n) && !w.failed
    ensures var chart := w.catalog[n].chart;
            var w1 := Destination(s.objName(chart), chart, w, lost);
            && Leads(s, n, w.catalog, w1.catalog) && IsLegacy(s, w1.catalog, n) && w1.catalog[n] == w.catalog[n]
            && (!w1.failed ==> w1.catalog == Relabelled(w.catalog, s.objName(chart), chart))
  {
    RelabelledStage(s, n, w.catalog);
    var chart := w.catalog[n].chart;
    var dest := s.objName(chart);
    if dest in w.catalog && w.catalog[dest].chart == chart {
      assert Relabelled(w.catalog, dest, chart) == w.catalog;
    }
  }

  lemma CarryOverLeads(s: Scheme, n: string, w: Work, lost: bool)
    requires Tidy(w.catalog) && IsLegacy(s, w.catalog, n) && !w.failed
    requires var dest := s.objName(w.catalog[n].chart); dest in w.catalog && w.catalog[dest].chart == w.catalog[n].chart
    ensures var dest := s.objName(w.catalog[n].chart);
            var w2 := CarryOver(s.parse, dest, w.catalog[n], w, lost);
            && Leads(s, n, w.catalog, w2.catalog) && IsLegacy(s, w2.catalog, n) && w2.catalog[n] == w.catalog[n]
            && (!w2.failed ==> w2.catalog == Carried(s, w.catalog, dest, w.catalog[n]))
  {
    CarriedStage(s, n, w.catalog);
    var dest := s.objName(w.catalog[n].chart);
    if NothingToJoin(w.catalog[dest], w.catalog[n]) {
      assert Carried(s, w.catalog, dest, w.catalog[n]) == w.catalog;
    }
  }

  lemma LeadsOn(s: Scheme, n: string, a: Catalog, b: Catalog, c: Catalog)
    requires IsLegacy(s, a, n) && Leads(s, n, a, b) && IsLegacy(s, b, n) && b[n] == a[n] && Leads(s, n, b, c)
    requires n !in Moved(s, n, a)
    ensures Leads(s, n, a, c)
  {
  }

  lemma MoveOneLeads(s: Scheme, listed: Catalog, n: string, w: Work, lost: bool)
    requires Tidy(w.catalog) && !w.failed
    requires IsLegacy(s, listed, n) ==> n in w.catalog && w.catalog[n] == listed[n]
    requires !IsLegacy(s, listed, n) ==> !IsLegacy(s, w.catalog, n)
    ensures var w' := MoveOne(s, listed, n, w, lost);
            && Leads(s, n, w.catalog, w'.catalog)
            && (!w'.failed ==> w'.catalog == if IsLegacy(s, w.catalog, n) then Moved(s, n, w.catalog) else w.catalog)
  {
    if IsLegacy(s, listed, n) {
      var chart := listed[n].chart;
      var dest := s.objName(chart);
      MovedStage(s, n, w.catalog);
      var w1 := Destination(dest, chart, w, lost);
      DestinationLeads(s, n, w, lost);
      if !w1.failed {
        var w2 := CarryOver(s.parse, dest, listed[n], w1, lost);
        CarryOverLeads(s, n, w1, lost);
        LeadsOn(s, n, w.catalog, w1.catalog, w2.catalog);
        if !w2.failed {
          assert w2.catalog - {n} == Moved(s, n, w.catalog);
        }
      }
    }
  }

  // ----- the whole run -----

  lemma {:induction false} SkippedHead(s: Scheme, names: seq<string>, catalog: Catalog)
    requires names != [] && !IsLegacy(s, catalog, names[0])
    ensures Final(s, names, catalog) == Final(s, names[1..], catalog)
  {
  }

  lemma DestinationUntouched(s: Scheme, chart: string, w: Work, lost: bool)
    ensures var w1 := Destination(s.objName(chart), chart, w, lost);
            && LegacyUntouched(s, w.catalog, w1.catalog)
            && (!w.failed && !w1.failed ==> s.objName(chart) in w1.catalog && w1.catalog[s.objName(chart)].chart == chart)
  {
  }

  lemma CarryOverUntouched(s: Scheme, chart: string, legacy: Obj, w: Work, lost: bool)
    requires s.objName(chart) in w.catalog && w.catalog[s.objName(chart)].chart == chart
    ensures LegacyUntouched(s, w.catalog, CarryOver(s.parse, s.objName(chart), legacy, w, lost).catalog)
  {
  }

  lemma DropUntouched(s: Scheme, n: string, w: Work, lost: bool)
    ensures LegacyUntouched(s, w.catalog, Drop(w, n, lost).catalog)
  {
  }

  lemma MoveOneUntouched(s: Scheme, listed: Catalog, n: string, w: Work, lost: bool)
    requires !w.failed
    ensures LegacyUntouched(s, w.catalog, MoveOne(s, listed, n, w, lost).catalog)
  {
    if IsLegacy(s, listed, n) {
      var chart := listed[n].chart;
      var w1 := Destination(s.objName(chart), chart, w, lost);
      DestinationUntouched(s, chart, w, lost);
      if !w1.failed {
        CarryOverUntouched(s, chart, listed[n], w1, lost);
        DropUntouched(s, n, CarryOver(s.parse, s.objName(chart), listed[n], w1, lost), lost);
      }
    }
  }

  lemma {:induction false} MoveAllUntouched(s: Scheme, listed: Catalog, names: seq<string>, w: Work, lost: bool)
    ensures LegacyUntouched(s, w.catalog, MoveAll(s, listed, names, w, lost).catalog)
    decreases |names|
  {
    if names != [] && !w.failed {
      MoveOneUntouched(s, listed, names[0], w, lost);
      MoveAllUntouched(s, listed, names[1..], MoveOne(s, listed, names[0], w, lost), lost);
    }
  }

  /** What was listed is still there for every object whose turn has not come. */
  predicate Current(s: Scheme, listed: Catalog, names: seq<string>, catalog: Catalog) {
    forall n :: n in names ==>
      && (IsLegacy(s, listed, n) ==> n in catalog && catalog[n] == listed[n])
      && (!IsLegacy(s, listed, n) ==> !IsLegacy(s, catalog, n))
  }

  lemma CurrentAfter(s: Scheme, listed: Catalog, names: seq<string>, w: Work, lost: bool)
    requires names != [] && NoRepeats(names) && Tidy(w.catalog) && !w.failed
    requires Current(s, listed, names, w.catalog) && NoLaterClaim(s, names, listed)
    requires !MoveOne(s, listed, names[0], w, lost).failed
    ensures Current(s, listed, names[1..], MoveOne(s, listed, names[0], w, lost).catalog)
    ensures NoLaterClaim(s, names[1..], listed)
  {
    var n, rest := names[0], names[1..];
    MoveOneLeads(s, listed, n, w, lost);
    if IsLegacy(s, listed, n) {
      MovedStage(s, n, w.catalog);
    }
    assert forall i :: 0 <= i < |rest| ==> rest[i] == names[i + 1];
    forall m | m in rest && IsLegacy(s, listed, m)
      ensures m != n && (IsLegacy(s, listed, n) ==> m != s.objName(listed[n].chart))
    {
      var i :| 0 <= i < |rest| && rest[i] == m;
      assert names[i + 1] == m;
    }
  }

  /** A run stopped anywhere is on the way to the same catalog, and a run that is not stopped gets
      there. */
  lemma {:induction false} OnTheWay(s: Scheme, listed: Catalog, names: seq<string>, w: Work, lost: bool)
    requires NoRepeats(names) && Tidy(w.catalog) && !w.failed
    requires Current(s, listed, names, w.catalog) && NoLaterClaim(s, names, listed)
    ensures var w' := MoveAll(s, listed, names, w, lost);
            && Tidy(w'.catalog)
            && Final(s, names, w'.catalog) == Final(s, names, w.catalog)
            && (!w'.failed ==> w'.catalog == Final(s, names, w.catalog) && forall n :: n in names ==> !IsLegacy(s, w'.catalog, n))
    decreases |names|
  {
    if names != [] {
      var n, rest := names[0], names[1..];
      var w1 := MoveOne(s, listed, n, w, lost);
      MoveOneLeads(s, listed, n, w, lost);
      if IsLegacy(s, w.catalog, n) {
        MovedStage(s, n, w.catalog);
      }
      if w1.failed {
        assert MoveAll(s, listed, names, w, lost) == w1;
      } else {
        CurrentAfter(s, listed, names, w, lost);
        OnTheWay(s, listed, rest, w1, lost);
        MoveAllUntouched(s, listed, rest, w1, lost);
        SkippedHead(s, names, MoveAll(s, listed, names, w, lost).catalog);
      }
    }
  }

  lemma StillUnclaimed(s: Scheme, names: seq<string>, before: Catalog, after: Catalog)
    requires LegacyUntouched(s, before, after) && Covers(s, names, before) && NoLaterClaim(s, names, before)
    ensures Covers(s, names, after) && NoLaterClaim(s, names, after)
  {
    assert forall n :: IsLegacy(s, after, n) ==> IsLegacy(s, before, n);
  }

  /** If no name is claimed later: stop a run after any write, repeat it, and the catalog is the one an
      undisturbed run reaches. */
  lemma RepeatedRunReachesTheSame(s: Scheme, catalog: Catalog, writes: nat, lost: bool, writes': nat, lost': bool)
    requires NoRepeats(s.order) && Tidy(catalog) && Covers(s, s.order, catalog) && NoLaterClaim(s, s.order, catalog)
    ensures var stopped := Migrate(s, catalog, writes, lost);
            var again := Migrate(s, stopped.catalog, writes', lost');
            !again.failed ==> again.catalog == Final(s, s.order, catalog)
    ensures !Migrate(s, catalog, writes, lost).failed ==> Migrate(s, catalog, writes, lost).catalog == Final(s, s.order, catalog)
  {
    OnTheWay(s, catalog, s.order, Work(catalog, writes, false), lost);
    var stopped := Migrate(s, catalog, writes, lost);
    MoveAllUntouched(s, catalog, s.order, Work(catalog, writes, false), lost);
    StillUnclaimed(s, s.order, catalog, stopped.catalog);
    OnTheWay(s, stopped.catalog, s.order, Work(stopped.catalog, writes', false), lost');
  }

  /** What has had its turn is not legacy any more: a name is written again only as a current one. */
  lemma {:induction false} NoneLeft(s: Scheme, listed: Catalog, names: seq<string>, w: Work, lost: bool)
    requires LegacyUntouched(s, listed, w.catalog) && !w.failed && !MoveAll(s, listed, names, w, lost).failed
    ensures forall n :: n in names ==> !IsLegacy(s, MoveAll(s, listed, names, w, lost).catalog, n)
    decreases |names|
  {
    if names != [] {
      var n := names[0];
      var w1 := MoveOne(s, listed, n, w, lost);
      assert !w1.failed;
      MoveOneUntouched(s, listed, n, w, lost);
      MoveAllUntouched(s, listed, names[1..], w1, lost);
      NoneLeft(s, listed, names[1..], w1, lost);
      assert IsLegacy(s, listed, n) ==> n !in w1.catalog;
    }
  }

  lemma {:induction false} FailedStays(s: Scheme, listed: Catalog, names: seq<string>, w: Work, lost: bool)
    requires w.failed
    ensures MoveAll(s, listed, names, w, lost) == w
  {
  }

  /** After a run that succeeds every labelled object carries the name its label derives. */
  lemma NoLegacyLeft(s: Scheme, catalog: Catalog, writes: nat, lost: bool)
    requires Covers(s, s.order, catalog) && !Migrate(s, catalog, writes, lost).failed
    ensures WellNamed(s.objName, Migrate(s, catalog, writes, lost).catalog)
  {
    var w := Work(catalog, writes, false);
    NoneLeft(s, catalog, s.order, w, lost);
    MoveAllUntouched(s, catalog, s.order, w, lost);
    var c := Migrate(s, catalog, writes, lost).catalog;
    forall n | n in c && c[n].chart != ""
      ensures n == s.objName(c[n].chart)
    {
      assert IsLegacy(s, c, n) ==> IsLegacy(s, catalog, n);
    }
  }

  /** With one object per chart there is nothing to move, so passes that keep the names never need
      another run. */
  lemma {:induction false} NothingToMove(s: Scheme, listed: Catalog, names: seq<string>, w: Work, lost: bool)
    requires WellNamed(s.objName, listed) && !w.failed
    ensures MoveAll(s, listed, names, w, lost) == w
    decreases |names|
  {
    if names != [] {
      NothingToMove(s, listed, names[1..], w, lost);
    }
  }

  // ----- what survives -----

  /** The version, with an outstanding mark if that is asked for. */
  predicate Records(o: Obj, v: string, mark: bool) {
    Find(o.versions, v).Some? && (mark ==> Find(o.versions, v).value.reexamine)
  }

  predicate Holds(catalog: Catalog, n: string, chart: string, v: string, mark: bool) {
    n in catalog && catalog[n].chart == chart && Records(catalog[n], v, mark)
  }

  /** No other chart of the catalog has the object name of this one. */
  predicate ApartLabels(s: Scheme, catalog: Catalog, chart: string) {
    forall n :: n in catalog && catalog[n].chart != "" && s.objName(catalog[n].chart) == s.objName(chart) ==> catalog[n].chart == chart
  }

  predicate LegacyOf(s: Scheme, catalog: Catalog, n: string, chart: string) {
    IsLegacy(s, catalog, n) && catalog[n].chart == chart
  }

  predicate Moves(s: Scheme, listed: Catalog, names: seq<string>, chart: string) {
    exists n :: n in names && LegacyOf(s, listed, n, chart)
  }

  predicate Brings(s: Scheme, listed: Catalog, names: seq<string>, chart: string, v: string, mark: bool) {
    exists n :: n in names && LegacyOf(s, listed, n, chart) && Records(listed[n], v, mark)
  }

  lemma JoinedRecords(parse: Parser, current: Obj, legacy: Obj, v: string, mark: bool)
    requires Distinct(current.versions) && Distinct(legacy.versions)
    ensures var r := Joined(parse, current, legacy);
            && r.chart == current.chart && Distinct(r.versions)
            && (Records(r, v, mark) <==> Records(current, v, mark) || Records(legacy, v, mark))
  {
    JoinedMeaning(parse, current, legacy);
  }

  /** The object a move goes to. */
  function Landing(s: Scheme, listed: Catalog, n: string, before: Catalog): Obj
    requires n in listed
  {
    var m := s.objName(listed[n].chart);
    Joined(s.parse, if m in before then before[m].(chart := listed[n].chart) else Obj(listed[n].chart, "", []), listed[n])
  }

  lemma Landed(n: string, chart: string, w: Work, lost: bool)
    requires !w.failed && !Destination(n, chart, w, lost).failed
    ensures Destination(n, chart, w, lost).catalog
         == w.catalog[n := if n in w.catalog then w.catalog[n].(chart := chart) else Obj(chart, "", [])]
  {
  }

  lemma CarriedOver(parse: Parser, n: string, legacy: Obj, w: Work, lost: bool)
    requires n in w.catalog && !w.failed && !CarryOver(parse, n, legacy, w, lost).failed
    ensures CarryOver(parse, n, legacy, w, lost).catalog == w.catalog[n := Joined(parse, w.catalog[n], legacy)]
  {
  }

  lemma PutTwice(catalog: Catalog, n: string, o: Obj, o': Obj)
    ensures catalog[n := o][n := o'] == catalog[n := o']
  {
  }

  lemma DestinationThenCarry(parse: Parser, m: string, legacy: Obj, w: Work, lost: bool)
    requires !w.failed
    requires var w1 := Destination(m, legacy.chart, w, lost); !w1.failed && !CarryOver(parse, m, legacy, w1, lost).failed
    ensures var o := if m in w.catalog then w.catalog[m].(chart := legacy.chart) else Obj(legacy.chart, "", []);
            CarryOver(parse, m, legacy, Destination(m, legacy.chart, w, lost), lost).catalog == w.catalog[m := Joined(parse, o, legacy)]
  {
    var o := if m in w.catalog then w.catalog[m].(chart := legacy.chart) else Obj(legacy.chart, "", []);
    var w1 := Destination(m, legacy.chart, w, lost);
    Landed(m, legacy.chart, w, lost);
    CarriedOver(parse, m, legacy, w1, lost);
    PutTwice(w.catalog, m, o, Joined(parse, o, legacy));
  }

  lemma MoveOneLands(s: Scheme, listed: Catalog, n: string, w: Work, lost: bool)
    requires IsLegacy(s, listed, n) && !w.failed && !MoveOne(s, listed, n, w, lost).failed
    ensures MoveOne(s, listed, n, w, lost).catalog == w.catalog[s.objName(listed[n].chart) := Landing(s, listed, n, w.catalog)] - {n}
  {
    DestinationThenCarry(s.parse, s.objName(listed[n].chart), listed[n], w, lost);
  }

  /** What one move makes of the object under a chart's current name. */
  lemma MoveOneAt(s: Scheme, listed: Catalog, n: string, w: Work, lost: bool, chart: string, v: string, mark: bool)
    requires Tidy(listed) && Tidy(w.catalog) && ApartLabels(s, listed, chart) && chart != ""
    requires !w.failed && !MoveOne(s, listed, n, w, lost).failed
    ensures var m := s.objName(chart);
            var c := MoveOne(s, listed, n, w, lost).catalog;
            && Tidy(c)
            && if LegacyOf(s, listed, n, chart)
               then m in c && c[m].chart == chart
                    && (Records(c[m], v, mark) <==> (m in w.catalog && Records(w.catalog[m], v, mark)) || Records(listed[n], v, mark))
               else if IsLegacy(s, listed, n) && n == m then m !in c
               else (m in c <==> m in w.catalog) && (m in w.catalog ==> c[m] == w.catalog[m])
  {
    if IsLegacy(s, listed, n) {
      MoveOneLands(s, listed, n, w, lost);
      var dest := s.objName(listed[n].chart);
      JoinedRecords(s.parse, if dest in w.catalog then w.catalog[dest].(chart := listed[n].chart) else Obj(listed[n].chart, "", []),
                    listed[n], v, mark);
    }
  }

  /** From a point where the object under the chart's current name is not moved away any more. */
  lemma {:induction false} Gathered(s: Scheme, listed: Catalog, names: seq<string>, w: Work, lost: bool, chart: string, v: string, mark: bool)
    requires Tidy(listed) && Tidy(w.catalog) && ApartLabels(s, listed, chart) && chart != ""
    requires !w.failed && !MoveAll(s, listed, names, w, lost).failed
    requires !(s.objName(chart) in names && IsLegacy(s, listed, s.objName(chart)))
    ensures var m := s.objName(chart);
            var c := MoveAll(s, listed, names, w, lost).catalog;
            && (m in c && c[m].chart == chart <==> Moves(s, listed, names, chart) || (m in w.catalog && w.catalog[m].chart == chart))
            && (Holds(c, m, chart, v, mark) <==>
                  || Brings(s, listed, names, chart, v, mark)
                  || (m in w.catalog && Records(w.catalog[m], v, mark) && (w.catalog[m].chart == chart || Moves(s, listed, names, chart))))
            && (!Moves(s, listed, names, chart) ==> (m in c <==> m in w.catalog))
    decreases |names|
  {
    if names != [] {
      var n, rest := names[0], names[1..];
      var w1 := MoveOne(s, listed, n, w, lost);
      assert !w1.failed;
      MoveOneAt(s, listed, n, w, lost, chart, v, mark);
      Gathered(s, listed, rest, w1, lost, chart, v, mark);
      OneMoreName(s, listed, names, chart, v, mark);
    }
  }

  lemma OneMoreName(s: Scheme, listed: Catalog, names: seq<string>, chart: string, v: string, mark: bool)
    requires names != []
    ensures Moves(s, listed, names, chart) <==> LegacyOf(s, listed, names[0], chart) || Moves(s, listed, names[1..], chart)
    ensures Brings(s, listed, names, chart, v, mark) <==>
              (LegacyOf(s, listed, names[0], chart) && Records(listed[names[0]], v, mark)) || Brings(s, listed, names[1..], chart, v, mark)
  {
    assert forall n :: n in names <==> n == names[0] || n in names[1..];
  }

  /** If another chart's object carries the current name, only what is moved after it counts. */
  lemma {:induction false} GatheredAfter(s: Scheme, listed: Catalog, names: seq<string>, w: Work, lost: bool, j: nat,
                                         chart: string, v: string, mark: bool)
    requires NoRepeats(names) && Tidy(listed) && Tidy(w.catalog) && ApartLabels(s, listed, chart) && chart != ""
    requires !w.failed && !MoveAll(s, listed, names, w, lost).failed
    requires j < |names| && names[j] == s.objName(chart) && IsLegacy(s, listed, names[j])
    ensures var m := s.objName(chart);
            var c := MoveAll(s, listed, names, w, lost).catalog;
            && (m in c && c[m].chart == chart <==> Moves(s, listed, names[j + 1..], chart))
            && (Holds(c, m, chart, v, mark) <==> Brings(s, listed, names[j + 1..], chart, v, mark))
            && (!Moves(s, listed, names[j + 1..], chart) ==> m !in c)
    decreases |names|
  {
    var n, rest := names[0], names[1..];
    var w1 := MoveOne(s, listed, n, w, lost);
    assert !w1.failed;
    MoveOneAt(s, listed, n, w, lost, chart, v, mark);
    assert forall i :: 0 <= i < |rest| ==> rest[i] == names[i + 1];
    if j == 0 {
      Gathered(s, listed, rest, w1, lost, chart, v, mark);
    } else {
      GatheredAfter(s, listed, rest, w1, lost, j - 1, chart, v, mark);
      assert rest[j..] == names[j + 1..];
    }
  }

  predicate Later(order: seq<string>, a: string, b: string) {
    exists i, j :: 0 <= i < j < |order| && order[i] == a && order[j] == b
  }

  /** An object whose record ends under the chart's current name: one of the chart that is not moved
      before an object of another chart with that name, or one without a label that already has the name. */
  predicate Contributes(s: Scheme, catalog: Catalog, chart: string, n: string)
    requires n in catalog
  {
    var m := s.objName(chart);
    || (catalog[n].chart == chart && (!IsLegacy(s, catalog, m) || Later(s.order, m, n)))
    || (n == m && catalog[n].chart == "" && Moves(s, catalog, s.order, chart))
  }

  predicate Survives(s: Scheme, catalog: Catalog, chart: string, v: string, mark: bool) {
    exists n :: n in catalog && Contributes(s, catalog, chart, n) && Records(catalog[n], v, mark)
  }

  lemma AfterIsLater(order: seq<string>, j: nat, n: string)
    requires NoRepeats(order) && j < |order|
    ensures n in order[j + 1..] <==> Later(order, order[j], n)
  {
    if n in order[j + 1..] {
      var i :| 0 <= i < |order[j + 1..]| && order[j + 1..][i] == n;
      assert order[j] == order[j] && order[j + 1 + i] == n;
    }
    if i, k :| 0 <= i < k < |order| && order[i] == order[j] && order[k] == n {
      assert i == j && order[j + 1..][k - j - 1] == n;
    }
  }

  /** An object of the chart is legacy unless it has the current name. */
  lemma LegacyInOrder(s: Scheme, catalog: Catalog, chart: string, n: string)
    requires Covers(s, s.order, catalog) && chart != "" && n in catalog && catalog[n].chart == chart && n != s.objName(chart)
    ensures LegacyOf(s, catalog, n, chart) && n in s.order
  {
  }

  /** Main result, exactly what a migration keeps: a version, or a mark on it, is under the chart's
      current name afterwards iff some listed object recorded it and contributes. */
  lemma VersionSurvivesIff(s: Scheme, catalog: Catalog, writes: nat, lost: bool, chart: string, v: string, mark: bool)
    requires NoRepeats(s.order) && Tidy(catalog) && Covers(s, s.order, catalog) && !Migrate(s, catalog, writes, lost).failed
    requires chart != "" && ApartLabels(s, catalog, chart)
    ensures Holds(Migrate(s, catalog, writes, lost).catalog, s.objName(chart), chart, v, mark) <==> Survives(s, catalog, chart, v, mark)
  {
    var m, w := s.objName(chart), Work(catalog, writes, false);
    if IsLegacy(s, catalog, m) {
      var j :| 0 <= j < |s.order| && s.order[j] == m;
      GatheredAfter(s, catalog, s.order, w, lost, j, chart, v, mark);
      forall n | n in catalog
        ensures Contributes(s, catalog, chart, n) <==> n in s.order[j + 1..] && LegacyOf(s, catalog, n, chart)
      {
        AfterIsLater(s.order, j, n);
      }
    } else {
      Gathered(s, catalog, s.order, w, lost, chart, v, mark);
      forall n | n in catalog && catalog[n].chart == chart && n != m
        ensures LegacyOf(s, catalog, n, chart) && n in s.order
      {
        LegacyInOrder(s, catalog, chart, n);
      }
      if m in catalog && Records(catalog[m], v, mark) && (catalog[m].chart == chart || Moves(s, catalog, s.order, chart)) {
        assert Contributes(s, catalog, chart, m);
      }
    }
  }

  /** The same for the object: a chart has one afterwards iff it had one that was not moved too early. */
  lemma CurrentNameSurvivesIff(s: Scheme, catalog: Catalog, writes: nat, lost: bool, chart: string)
    requires NoRepeats(s.order) && Tidy(catalog) && Covers(s, s.order, catalog) && !Migrate(s, catalog, writes, lost).failed
    requires chart != "" && ApartLabels(s, catalog, chart)
    ensures var m := s.objName(chart);
            var c := Migrate(s, catalog, writes, lost).catalog;
            && (m in c && c[m].chart == chart <==>
                  exists n :: n in catalog && catalog[n].chart == chart && Contributes(s, catalog, chart, n))
            && forall v, mark :: Holds(c, m, chart, v, mark) <==> Survives(s, catalog, chart, v, mark)
  {
    var m, w := s.objName(chart), Work(catalog, writes, false);
    forall v, mark
      ensures Holds(Migrate(s, catalog, writes, lost).catalog, m, chart, v, mark) <==> Survives(s, catalog, chart, v, mark)
    {
      VersionSurvivesIff(s, catalog, writes, lost, chart, v, mark);
    }
    if IsLegacy(s, catalog, m) {
      var j :| 0 <= j < |s.order| && s.order[j] == m;
      GatheredAfter(s, catalog, s.order, w, lost, j, chart, "", false);
      forall n
        ensures n in s.order[j + 1..] <==> Later(s.order, m, n)
      {
        AfterIsLater(s.order, j, n);
      }
    } else {
      Gathered(s, catalog, s.order, w, lost, chart, "", false);
      forall n | n in catalog && catalog[n].chart == chart && n != m
        ensures LegacyOf(s, catalog, n, chart) && n in s.order
      {
        LegacyInOrder(s, catalog, chart, n);
      }
    }
  }

  /** The verdict recorded under a name, whether or not a mark was added to it. */
  predicate Verdict(catalog: Catalog, n: string, v: string, e: Entry) {
    n in catalog && (Find(catalog[n].versions, v) == Some(e) || Find(catalog[n].versions, v) == Some(e.(reexamine := true)))
  }

  lemma {:induction false} VerdictStays(s: Scheme, listed: Catalog, names: seq<string>, w: Work, lost: bool, m: string, v: string, e: Entry)
    requires Tidy(listed) && Tidy(w.catalog) && !w.failed && !MoveAll(s, listed, names, w, lost).failed
    requires !IsLegacy(s, listed, m) && Verdict(w.catalog, m, v, e)
    ensures Verdict(MoveAll(s, listed, names, w, lost).catalog, m, v, e)
    decreases |names|
  {
    if names != [] {
      var n := names[0];
      var w1 := MoveOne(s, listed, n, w, lost);
      assert !w1.failed;
      if IsLegacy(s, listed, n) {
        MoveOneLands(s, listed, n, w, lost);
        var dest := s.objName(listed[n].chart);
        JoinedMeaning(s.parse, if dest in w.catalog then w.catalog[dest].(chart := listed[n].chart) else Obj(listed[n].chart, "", []), listed[n]);
      }
      VerdictStays(s, listed, names[1..], w1, lost, m, v, e);
    }
  }

  /** For one version of one object: it ends under its chart's current name, mark and all, exactly if it
      survives; it always does if no object of another chart carries that name, and a verdict already
      recorded under the name stays. */
  lemma MigrationLosesNothing(s: Scheme, catalog: Catalog, writes: nat, lost: bool, n: string, v: string)
    requires NoRepeats(s.order) && Tidy(catalog) && Covers(s, s.order, catalog) && !Migrate(s, catalog, writes, lost).failed
    requires n in catalog && catalog[n].chart != "" && Find(catalog[n].versions, v).Some? && ApartLabels(s, catalog, catalog[n].chart)
    ensures var c := Migrate(s, catalog, writes, lost).catalog;
            var chart, e := catalog[n].chart, Find(catalog[n].versions, v).value;
            var m := s.objName(chart);
            && (Holds(c, m, chart, v, e.reexamine) <==> Survives(s, catalog, chart, v, e.reexamine))
            && (!IsLegacy(s, catalog, m) || Later(s.order, m, n) ==> Holds(c, m, chart, v, e.reexamine))
            && (n == m ==> Verdict(c, m, v, e))
  {
    var chart, e := catalog[n].chart, Find(catalog[n].versions, v).value;
    VersionSurvivesIff(s, catalog, writes, lost, chart, v, e.reexamine);
    assert Records(catalog[n], v, e.reexamine);
    if n == s.objName(chart) {
      VerdictStays(s, catalog, s.order, Work(catalog, writes, false), lost, n, v, e);
    }
  }

  // ----- an object whose name another chart's current name claims -----

  const CLAIMED: Catalog := map["a" := Obj("x", "", [Entry("1", "", "", Usable, "", false)]), "b" := Obj("y", "", [])]

  /** A chart whose current name an object listed later still carries is lost. */
  lemma LaterClaimLosesChart(s: Scheme, writes: nat, lost: bool)
    requires s.order == ["a", "b"] && s.objName("x") == "b" && s.objName("y") == "c"
    requires !Migrate(s, CLAIMED, writes, lost).failed
    ensures !NoLaterClaim(s, s.order, CLAIMED) && Find(CLAIMED["a"].versions, "1").Some?
    ensures s.objName("x") !in Migrate(s, CLAIMED, writes, lost).catalog
  {
    ClaimedLabels(s);
    assert s.order[0] == "a" && s.order[1] == "b" && s.order[2..] == [];
    GatheredAfter(s, CLAIMED, s.order, Work(CLAIMED, writes, false), lost, 1, "x", "1", false);
  }

  lemma ClaimedLabels(s: Scheme)
    requires s.objName("x") == "b" && s.objName("y") == "c"
    ensures IsLegacy(s, CLAIMED, "a") && IsLegacy(s, CLAIMED, "b") && ApartLabels(s, CLAIMED, "x") && Tidy(CLAIMED)
    ensures CLAIMED["a"].chart == "x" && Find(CLAIMED["a"].versions, "1").Some?
  {
  }

  const RECLAIMED: Catalog := CLAIMED["d" := Obj("x", "", [Entry("2", "", "", Usable, "", false)])]

  /** A chart can have its object back and still have lost a version: what was moved before the name was
      claimed is gone, what is moved afterwards is there. */
  lemma ReclaimedNameLosesVersion(s: Scheme, writes: nat, lost: bool)
    requires s.order == ["a", "b", "d"] && s.objName("x") == "b" && s.objName("y") == "c"
    requires !Migrate(s, RECLAIMED, writes, lost).failed
    ensures Records(RECLAIMED["a"], "1", false)
    ensures var c := Migrate(s, RECLAIMED, writes, lost).catalog;
            Holds(c, "b", "x", "2", false) && !Holds(c, "b", "x", "1", false)
  {
    var w := Work(RECLAIMED, writes, false);
    ReclaimedRecords(s);
    assert s.order[2..] == ["d"];
    GatheredAfter(s, RECLAIMED, s.order, w, lost, 1, "x", "1", false);
    GatheredAfter(s, RECLAIMED, s.order, w, lost, 1, "x", "2", false);
  }

  lemma ReclaimedRecords(s: Scheme)
    requires s.objName("x") == "b" && s.objName("y") == "c"
    ensures IsLegacy(s, RECLAIMED, "b") && LegacyOf(s, RECLAIMED, "d", "x") && ApartLabels(s, RECLAIMED, "x") && Tidy(RECLAIMED)
    ensures Records(RECLAIMED["a"], "1", false) && Records(RECLAIMED["d"], "2", false) && !Records(RECLAIMED["d"], "1", false)
  {
    assert RECLAIMED["d"].versions[..0] == [];
  }

  /** Nor can such a run simply be repeated: stopped after its first write, it leaves the other chart's
      object under the name for good. */
  lemma LaterClaimBreaksRepetition(s: Scheme, writes: nat, lost: bool, writes': nat, lost': bool)
    requires s.order == ["a", "b"] && s.objName("x") == "b" && s.objName("y") == "c"
    ensures var stopped := Migrate(s, CLAIMED, 1, false);
            var again, whole := Migrate(s, stopped.catalog, writes', lost'), Migrate(s, CLAIMED, writes, lost);
            stopped.failed && (!again.failed && !whole.failed ==> again.catalog != whole.catalog)
  {
    var stopped := Migrate(s, CLAIMED, 1, false);
    StoppedAfterRelabelling(s);
    if !Migrate(s, CLAIMED, writes, lost).failed {
      LaterClaimLosesChart(s, writes, lost);
    }
    if !Migrate(s, stopped.catalog, writes', lost').failed {
      RelabelledStays(s, stopped.catalog, writes', lost');
    }
  }

  lemma RelabelledStays(s: Scheme, catalog: Catalog, writes: nat, lost: bool)
    requires s.objName("x") == "b" && catalog == CLAIMED["b" := Obj("x", "", [])] && !Migrate(s, catalog, writes, lost).failed
    ensures "b" in Migrate(s, catalog, writes, lost).catalog
  {
    Gathered(s, catalog, s.order, Work(catalog, writes, false), lost, "x", "1", false);
  }

  lemma StoppedAfterRelabelling(s: Scheme)
    requires s.order == ["a", "b"] && s.objName("x") == "b" && s.objName("y") == "c"
    ensures Migrate(s, CLAIMED, 1, false) == Work(CLAIMED["b" := Obj("x", "", [])], 0, true)
  {
    var w1 := Work(CLAIMED["b" := Obj("x", "", [])], 0, false);
    assert Destination("b", "x", Work(CLAIMED, 1, false), false) == w1;
    assert Find([], "1").None? && Missing([], CLAIMED["a"].versions) != [];
    assert CarryOver(s.parse, "b", CLAIMED["a"], w1, false) == w1.(failed := true);
    assert MoveOne(s, CLAIMED, "a", Work(CLAIMED, 1, false), false) == w1.(failed := true);
    FailedStays(s, CLAIMED, s.order[1..], w1.(failed := true), false);
  }
}

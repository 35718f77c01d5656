/**
 Moving the catalog objects of a repository to the names the current scheme derives. The destination
 keeps its verdicts and takes over the versions and the marks it lacks; only then is the old object
 deleted. Any write may fail and end the run.
 */
module CatalogMigration {
  import opened Basics
  import opened CatalogOrder
  import opened CatalogMerge
  import opened CatalogPasses
  import opened CatalogFetch
  import opened CatalogSync
  import opened CatalogStore

  /** `order` is the order the API server lists names in, whichever of them exist. */
  datatype Scheme = Scheme(parse: Parser, objName: string -> string, order: seq<string>)

  // ----- joining the status of two objects -----

  predicate LastOfItsVersion(es: seq<Entry>, i: nat)
    requires i < |es|
  {
    forall j :: i < j < |es| ==> es[j].version != es[i].version
  }

  predicate Refreshed(legacy: seq<Entry>, v: string) {
    exists i :: 0 <= i < |legacy| && legacy[i].version == v && legacy[i].reexamine
  }

  /** The destination's verdicts win, but a mark is not a verdict and comes over. */
  function MarkHeld(current: seq<Entry>, legacy: seq<Entry>): (r: seq<Entry>)
    ensures |r| == |current|
  {
    seq(|current|, i requires 0 <= i < |current| =>
        if LastOfItsVersion(current, i) && Refreshed(legacy, current[i].version) then current[i].(reexamine := true) else current[i])
  }

  function Missing(current: seq<Entry>, legacy: seq<Entry>): seq<Entry> {
    if legacy == [] then []
    else
      var last := legacy[|legacy| - 1];
      Missing(current, legacy[..|legacy| - 1]) + if Find(current, last.version).None? then [last] else []
  }

  predicate NothingToJoin(current: Obj, legacy: Obj) {
    && Missing(current.versions, legacy.versions) == []
    && MarkHeld(current.versions, legacy.versions) == current.versions
    && (current.icon != "" || legacy.icon == "")
  }

  /** The icon is a property of the chart, so it comes over with the versions. */
  function Joined(parse: Parser, current: Obj, legacy: Obj): Obj {
    if NothingToJoin(current, legacy) then current
    else Obj(current.chart, if current.icon == "" then legacy.icon else current.icon,
             Sort(parse, MarkHeld(current.versions, legacy.versions) + Missing(current.versions, legacy.versions)))
  }

  // ----- the run -----

  predicate Legacy(objName: string -> string, n: string, o: Obj) {
    o.chart != "" && n != objName(o.chart)
  }

  function Destination(n: string, chart: string, w: Work, lost: bool): Work {
    if n !in w.catalog then Put(w, n, Obj(chart, "", []), lost)
    else if w.catalog[n].chart == chart then w
    else Put(w, n, w.catalog[n].(chart := chart), lost)
  }

  function CarryOver(parse: Parser, n: string, legacy: Obj, w: Work, lost: bool): Work {
    if n !in w.catalog || NothingToJoin(w.catalog[n], legacy) then w
    else Put(w, n, Joined(parse, w.catalog[n], legacy), lost)
  }

  /** Moves one listed object; `listed` is the catalog as it was listed. */
  function MoveOne(s: Scheme, listed: Catalog, n: string, w: Work, lost: bool): Work {
    if n !in listed || !Legacy(s.objName, n, listed[n]) then w
    else
      var dest := s.objName(listed[n].chart);
      var w1 := Destination(dest, listed[n].chart, w, lost);
      if w1.failed then w1
      else
        var w2 := CarryOver(s.parse, dest, listed[n], w1, lost);
        if w2.failed then w2 else Drop(w2, n, lost)
  }

  function MoveAll(s: Scheme, listed: Catalog, names: seq<string>, w: Work, lost: bool): Work
    decreases |names|
  {
    if names == [] || w.failed then w else MoveAll(s, listed, names[1..], MoveOne(s, listed, names[0], w, lost), lost)
  }

  function Migrate(s: Scheme, catalog: Catalog, writes: nat, lost: bool): Work {
    MoveAll(s, catalog, s.order, Work(catalog, writes, false), lost)
  }

  // ----- the methods -----

  /** Where each version is held: at its last place. */
  ghost predicate HeldAt(es: seq<Entry>, held: map<string, nat>) {
    forall v :: (v in held <==> Find(es, v).Some?)
                && (v in held ==> held[v] < |es| && es[held[v]].version == v && LastOfItsVersion(es, held[v]))
  }

  method HeldVersions(es: seq<Entry>) returns (held: map<string, nat>)
    ensures HeldAt(es, held)
  {
    held := map[];
    for i := 0 to |es|
      invariant forall v :: v in held ==> held[v] < i && es[held[v]].version == v
                                          && forall j :: held[v] < j < i ==> es[j].version != v
      invariant forall j :: 0 <= j < i ==> es[j].version in held
    {
      held := held[es[i].version := i];
    }
    forall v
      ensures v in held <==> Find(es, v).Some?
    {
    }
  }

  ghost predicate MarksWanted(es: seq<Entry>, ls: seq<Entry>, marks: set<nat>) {
    forall i: nat :: i in marks <==> i < |es| && !es[i].reexamine && LastOfItsVersion(es, i) && Refreshed(ls, es[i].version)
  }

  lemma OneMoreMark(es: seq<Entry>, held: map<string, nat>, ls: seq<Entry>, k: nat, marks: set<nat>)
    requires HeldAt(es, held) && k < |ls| && MarksWanted(es, ls[..k], marks)
    ensures var v := ls[k].version;
            MarksWanted(es, ls[..k + 1],
                        if v in held && ls[k].reexamine && !es[held[v]].reexamine then marks + {held[v]} else marks)
  {
    RefreshedOneMore(ls, k);
    var v := ls[k].version;
    if v in held {
      assert forall j: nat :: j < |es| && LastOfItsVersion(es, j) && es[j].version == v ==> j == held[v];
    } else {
      assert forall j: nat :: j < |es| ==> es[j].version != v;
    }
  }

  method JoinInto(parse: Parser, current: Obj, legacy: Obj) returns (r: Obj, patch: bool)
    ensures r == Joined(parse, current, legacy) && patch == !NothingToJoin(current, legacy)
  {
    var es, ls := current.versions, legacy.versions;
    var held := HeldVersions(es);
    var marks: set<nat> := {};
    var missing: seq<Entry> := [];
    for k := 0 to |ls|
      invariant missing == Missing(es, ls[..k])
      invariant MarksWanted(es, ls[..k], marks)
    {
      assert ls[..k + 1][..k] == ls[..k];
      OneMoreMark(es, held, ls, k, marks);
      var version := ls[k];
      if version.version in held {
        var i := held[version.version];
        if version.reexamine && !es[i].reexamine {
          marks := marks + {i};
        }
        continue;
      }
      missing := missing + [version];
    }
    assert ls[..|ls|] == ls;
    var icon := current.icon == "" && legacy.icon != "";
    MarksAreHeld(es, ls, marks);
    if missing == [] && !icon && marks == {} {
      return current, false;
    }
    var versions := seq(|es|, i requires 0 <= i < |es| => if i in marks then es[i].(reexamine := true) else es[i]);
    assert versions == MarkHeld(es, ls);
    r := Obj(current.chart, if icon then legacy.icon else current.icon, Sort(parse, versions + missing));
    return r, true;
  }

  lemma RefreshedOneMore(ls: seq<Entry>, k: nat)
    requires k < |ls|
    ensures forall v :: Refreshed(ls[..k + 1], v) <==> Refreshed(ls[..k], v) || (ls[k].version == v && ls[k].reexamine)
  {
    forall v
      ensures Refreshed(ls[..k + 1], v) <==> Refreshed(ls[..k], v) || (ls[k].version == v && ls[k].reexamine)
    {
      if Refreshed(ls[..k], v) {
        var i :| 0 <= i < k && ls[..k][i].version == v && ls[..k][i].reexamine;
        assert ls[..k + 1][i] == ls[..k][i];
      }
      if ls[k].version == v && ls[k].reexamine {
        assert ls[..k + 1][k] == ls[k];
      }
    }
  }

  lemma MarksAreHeld(es: seq<Entry>, ls: seq<Entry>, marks: set<nat>)
    requires MarksWanted(es, ls, marks)
    ensures marks == {} <==> MarkHeld(es, ls) == es
    ensures forall i :: 0 <= i < |es| ==> MarkHeld(es, ls)[i] == if i in marks then es[i].(reexamine := true) else es[i]
  {
    if MarkHeld(es, ls) == es {
      forall i: nat | i < |es|
        ensures i !in marks
      {
        assert MarkHeld(es, ls)[i] == es[i];
      }
    }
  }

  method MoveObject(cluster: Cluster, s: Scheme, n: string, legacy: Obj) returns (err: bool)
    requires Legacy(s.objName, n, legacy)
    modifies cluster
    ensures forall listed :: n in listed && listed[n] == legacy ==>
              cluster.At(err) == MoveOne(s, listed, n, old(cluster.At(false)), cluster.lost)
  {
    var dest := s.objName(legacy.chart);
    if dest !in cluster.objects {
      var created := cluster.Patch(dest, Obj(legacy.chart, "", []));
      if created {
        return true;
      }
    } else if cluster.objects[dest].chart != legacy.chart {
      var relabelled := cluster.Patch(dest, cluster.objects[dest].(chart := legacy.chart));
      if relabelled {
        return true;
      }
    }
    var joined, patch := JoinInto(s.parse, cluster.objects[dest], legacy);
    if patch {
      var carried := cluster.Patch(dest, joined);
      if carried {
        return true;
      }
    }
    err := cluster.Delete(n);
  }

  /** Remembers that the catalog has been moved: one pass settles it for good. */
  class Renamer {
    var migrated: bool

    constructor ()
      ensures !migrated
    {
      migrated := false;
    }

    method MigrateNames(cluster: Cluster, s: Scheme) returns (err: bool)
      modifies this, cluster
      ensures old(migrated) ==> !err && migrated && cluster.At(false) == old(cluster.At(false))
      ensures !old(migrated) ==>
                && cluster.At(err) == Migrate(s, old(cluster.objects), old(cluster.writes), cluster.lost)
                && migrated == !err
    {
      if migrated {
        return false;
      }
      var listed := cluster.objects;
      ghost var w0 := cluster.At(false);
      for i := 0 to |s.order|
        invariant !migrated
        invariant MoveAll(s, listed, s.order, w0, cluster.lost) == MoveAll(s, listed, s.order[i..], cluster.At(false), cluster.lost)
      {
        var n := s.order[i];
        assert s.order[i..][0] == n && s.order[i..][1..] == s.order[i + 1..];
        if n !in listed || listed[n].chart == "" {
          continue;
        }
        if n == s.objName(listed[n].chart) {
          continue;
        }
        var failed := MoveObject(cluster, s, n, listed[n]);
        if failed {
          return true;
        }
      }
      migrated := true;
      return false;
    }
  }

  // ----- what joining means -----

  function JoinedVersion(current: Option<Entry>, legacy: Option<Entry>): Option<Entry> {
    if current.None? then legacy
    else if legacy.Some? && legacy.value.reexamine then Some(current.value.(reexamine := true))
    else current
  }

  lemma {:induction false} MissingMembers(current: seq<Entry>, legacy: seq<Entry>)
    ensures forall e :: e in Missing(current, legacy) <==> e in legacy && Find(current, e.version).None?
    ensures Distinct(legacy) ==> Distinct(Missing(current, legacy))
    decreases |legacy|
  {
    if legacy != [] {
      var front, last := legacy[..|legacy| - 1], legacy[|legacy| - 1];
      MissingMembers(current, front);
      assert legacy == front + [last];
      var es := Missing(current, front);
      if Distinct(legacy) {
        forall i | 0 <= i < |es|
          ensures es[i].version != last.version
        {
          assert es[i] in front;
          var k :| 0 <= k < |front| && front[k] == es[i];
          assert legacy[k].version != legacy[|legacy| - 1].version;
        }
      }
    }
  }

  lemma RefreshedFind(legacy: seq<Entry>, v: string)
    requires Distinct(legacy)
    ensures Refreshed(legacy, v) <==> Find(legacy, v).Some? && Find(legacy, v).value.reexamine
  {
    if Refreshed(legacy, v) {
      var i :| 0 <= i < |legacy| && legacy[i].version == v && legacy[i].reexamine;
      FindDistinct(legacy, legacy[i]);
    }
    if Find(legacy, v).Some? {
      var i :| 0 <= i < |legacy| && legacy[i] == Find(legacy, v).value;
    }
  }

  lemma HeldOrMissing(current: seq<Entry>, legacy: seq<Entry>)
    requires Distinct(current) && Distinct(legacy)
    ensures Distinct(MarkHeld(current, legacy) + Missing(current, legacy))
  {
    MissingMembers(current, legacy);
    var held := MarkHeld(current, legacy);
    assert forall i :: 0 <= i < |held| ==> held[i].version == current[i].version;
    forall x, y | x in held && y in Missing(current, legacy)
      ensures x.version != y.version
    {
      var i :| 0 <= i < |held| && held[i] == x;
    }
    ConcatDistinct(held, Missing(current, legacy));
  }

  lemma HeldOrMissingFind(current: seq<Entry>, legacy: seq<Entry>, all: seq<Entry>, v: string)
    requires Distinct(current) && Distinct(legacy) && Distinct(all)
    requires forall e :: e in all <==> e in MarkHeld(current, legacy) + Missing(current, legacy)
    ensures Find(all, v) == JoinedVersion(Find(current, v), Find(legacy, v))
  {
    MissingMembers(current, legacy);
    RefreshedFind(legacy, v);
    var held := MarkHeld(current, legacy);
    if Find(current, v).Some? {
      var i :| 0 <= i < |current| && current[i] == Find(current, v).value;
      assert LastOfItsVersion(current, i);
      assert held[i] in held;
      FindDistinct(all, held[i]);
    } else if Find(legacy, v).Some? {
      var e := Find(legacy, v).value;
      assert e in Missing(current, legacy);
      FindDistinct(all, e);
    } else {
      forall e | e in all
        ensures e.version != v
      {
        if e in held {
          var i :| 0 <= i < |held| && held[i] == e;
          assert current[i].version == e.version;
        } else {
          var i :| 0 <= i < |legacy| && legacy[i] == e;
        }
      }
      FindAbsent(all, v);
    }
  }

  /** Joining keeps every version of both, the destination's verdicts, and every mark. */
  lemma JoinedMeaning(parse: Parser, current: Obj, legacy: Obj)
    requires Distinct(current.versions) && Distinct(legacy.versions)
    ensures var r := Joined(parse, current, legacy);
            && r.chart == current.chart && Distinct(r.versions)
            && r.icon == (if current.icon == "" then legacy.icon else current.icon)
            && forall v :: Find(r.versions, v) == JoinedVersion(Find(current.versions, v), Find(legacy.versions, v))
  {
    var es, ls := current.versions, legacy.versions;
    var all := MarkHeld(es, ls) + Missing(es, ls);
    var r := Joined(parse, current, legacy);
    HeldOrMissing(es, ls);
    DistinctByMultiset(all, Sort(parse, all));
    SameMembers(all, Sort(parse, all));
    forall v
      ensures Find(r.versions, v) == JoinedVersion(Find(es, v), Find(ls, v))
    {
      if Missing(es, ls) == [] && MarkHeld(es, ls) == es {
        assert all == es;
        HeldOrMissingFind(es, ls, es, v);
      }
      HeldOrMissingFind(es, ls, Sort(parse, all), v);
    }
  }

  /** Joining once more changes nothing. */
  lemma JoinedTwice(parse: Parser, current: Obj, legacy: Obj)
    requires Distinct(current.versions) && Distinct(legacy.versions)
    ensures Joined(parse, Joined(parse, current, legacy), legacy) == Joined(parse, current, legacy)
  {
    var r := Joined(parse, current, legacy);
    JoinedMeaning(parse, current, legacy);
    NothingMissing(r.versions, legacy.versions);
    var held := MarkHeld(r.versions, legacy.versions);
    forall i | 0 <= i < |held|
      ensures held[i] == r.versions[i]
    {
      var e := r.versions[i];
      FindDistinct(r.versions, e);
      RefreshedFind(legacy.versions, e.version);
    }
    assert held == r.versions;
  }

  lemma NothingMissing(current: seq<Entry>, legacy: seq<Entry>)
    requires forall v :: Find(legacy, v).Some? ==> Find(current, v).Some?
    ensures Missing(current, legacy) == []
  {
    MissingMembers(current, legacy);
    if Missing(current, legacy) != [] {
      var e := Missing(current, legacy)[0];
      assert e in legacy;
      FoundIffNamed(legacy, e.version);
    }
  }
}

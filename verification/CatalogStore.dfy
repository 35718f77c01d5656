/**
 The synchronization as the controller runs it, object by object against the cluster. Every method
 is proved to be the step of CatalogSync it stands for.
 */
module CatalogStore {
  import opened Basics
  import opened CatalogOrder
  import opened CatalogMerge
  import opened CatalogFetch
  import opened CatalogPasses
  import opened CatalogSync

  /** The catalog objects of one repository, and how many more writes the API server serves. */
  class Cluster {
    var objects: Catalog
    var writes: nat
    const lost: bool

    constructor (objects: Catalog, writes: nat, lost: bool)
      ensures this.objects == objects && this.writes == writes && this.lost == lost
    {
      this.objects, this.writes, this.lost := objects, writes, lost;
    }

    ghost function At(err: bool): Work
      reads this
    {
      Work(objects, writes, err)
    }

    /** Writes one object. A write that fails may still take effect. */
    method Patch(n: string, o: Obj) returns (err: bool)
      modifies this
      ensures At(err) == Put(old(At(false)), n, o, lost)
    {
      if writes > 0 {
        objects, writes := objects[n := o], writes - 1;
        return false;
      }
      if lost {
        objects := objects[n := o];
      }
      return true;
    }

    method Delete(n: string) returns (err: bool)
      modifies this
      ensures At(err) == Drop(old(At(false)), n, lost)
    {
      if writes > 0 {
        objects, writes := objects - {n}, writes - 1;
        return false;
      }
      if lost {
        objects := objects - {n};
      }
      return true;
    }
  }

  // ----- marking -----

  /** Marks the versions of one object in place; `patch` says whether any of them changed. */
  method MarkVersions(recorded: seq<Entry>) returns (versions: seq<Entry>, patch: bool)
    ensures versions == MarkAll(recorded) && patch == NeedsMark(recorded)
  {
    versions, patch := recorded, false;
    for i := 0 to |recorded|
      invariant |versions| == |recorded|
      invariant forall j :: 0 <= j < |recorded| ==> versions[j] == if j < i then MarkEntry(recorded[j]) else recorded[j]
      invariant patch <==> exists j :: 0 <= j < i && recorded[j].reason != ResolvePending && !recorded[j].reexamine
    {
      // A version already awaiting a verdict is examined by every pass anyway.
      if versions[i].reason == ResolvePending {
        continue;
      }
      if !versions[i].reexamine {
        versions := versions[i := versions[i].(reexamine := true)];
        patch := true;
      }
    }
  }

  method MarkForReexamination(cluster: Cluster, listing: seq<string>) returns (err: bool)
    modifies cluster
    ensures cluster.At(err) == MarkObjects(listing, old(cluster.At(false)), cluster.lost)
  {
    ghost var w0 := cluster.At(false);
    for i := 0 to |listing|
      invariant MarkObjects(listing, w0, cluster.lost) == MarkObjects(listing[i..], cluster.At(false), cluster.lost)
    {
      var n := listing[i];
      assert listing[i..][0] == n && listing[i..][1..] == listing[i + 1..];
      if n in cluster.objects {
        var versions, patch := MarkVersions(cluster.objects[n].versions);
        if !patch {
          continue;
        }
        var failed := cluster.Patch(n, cluster.objects[n].(versions := versions));
        if failed {
          return true;
        }
      }
    }
    return false;
  }

  // ----- what earlier passes know -----

  lemma KnownOfOneMore(es: seq<Entry>, i: nat)
    requires i < |es|
    ensures KnownOf(es[..i + 1]) == KnownOf(es[..i])[es[i].version := KnownFrom(es[i])]
  {
    var xs := es[..i + 1];
    assert xs[..|xs| - 1] == es[..i] && xs[|xs| - 1] == es[i];
    forall v
      ensures Find(xs, v) == if v == es[i].version then Some(es[i]) else Find(es[..i], v)
    {
    }
  }

  method KnownVersions(recorded: seq<Entry>) returns (versions: map<string, Known>)
    ensures versions == KnownOf(recorded)
  {
    versions := map[];
    for i := 0 to |recorded|
      invariant versions == KnownOf(recorded[..i])
    {
      KnownOfOneMore(recorded, i);
      var e := recorded[i];
      versions := versions[e.version := Known(e.mediaType, e.reason, e.message, e.reexamine)];
    }
    assert recorded[..|recorded|] == recorded;
  }

  /** The recorded verdicts, chart by chart. Objects without a chart label have no key to sit under. */
  method KnownCharts(cluster: Cluster, listing: seq<string>) returns (known: map<string, map<string, Known>>)
    ensures forall chart :: KnownFor(listing, cluster.objects, chart) == if chart in known then known[chart] else map[]
  {
    known := map[];
    for i := 0 to |listing|
      invariant "" !in known
      invariant forall chart :: KnownFor(listing[..i], cluster.objects, chart) == if chart in known then known[chart] else map[]
    {
      assert listing[..i + 1][..i] == listing[..i];
      var n := listing[i];
      if n in cluster.objects && cluster.objects[n].chart != "" {
        var versions := KnownVersions(cluster.objects[n].versions);
        known := known[cluster.objects[n].chart := versions];
      }
    }
    assert listing[..|listing|] == listing;
  }

  // ----- reconciling -----

  method EnsureObject(cluster: Cluster, env: Env, n: string, chart: string) returns (err: bool)
    requires cluster.lost == env.lost
    modifies cluster
    ensures cluster.At(err) == Ensure(env, n, chart, old(cluster.At(false)))
    ensures !err ==> n in cluster.objects
  {
    if n in env.listing && n in cluster.objects {
      if cluster.objects[n].chart == chart {
        return false;
      }
      err := cluster.Patch(n, cluster.objects[n].(chart := chart));
      return err;
    }
    if n in cluster.objects {
      // Written after this pass read the catalog: repaired, and the pass reported lost.
      if cluster.objects[n].chart != chart {
        var failed := cluster.Patch(n, cluster.objects[n].(chart := chart));
      }
      return true;
    }
    err := cluster.Patch(n, Obj(chart, "", []));
  }

  method PublishVersions(cluster: Cluster, env: Env, n: string, ch: FetchedChart) returns (err: bool)
    requires n in cluster.objects && cluster.lost == env.lost
    modifies cluster
    ensures cluster.At(err) == Publish(env, n, ch, old(cluster.At(false)))
  {
    var o := cluster.objects[n];
    if ch.versions != [] {
      o := o.(icon := ch.icon);
    }
    var inUse := InUse(env, ch.name);
    var versions := MergeChartVersions(env.parse, ch.versions, o.versions, inUse, ch.unexamined);
    err := cluster.Patch(n, o.(versions := versions));
  }

  /** The charts reported as skipped: their names are no valid label. */
  function Skipped(env: Env, charts: seq<FetchedChart>): seq<string> {
    if charts == [] then []
    else
      var last := charts[|charts| - 1].name;
      Skipped(env, charts[..|charts| - 1]) + if env.validLabel(last) then [] else [last]
  }

  lemma OneMoreChart(env: Env, charts: seq<FetchedChart>, ch: FetchedChart)
    ensures Desired(env, charts + [ch]) == Desired(env, charts) + if env.validLabel(ch.name) then {env.objName(ch.name)} else {}
    ensures Incomplete(charts + [ch]) <==> Incomplete(charts) || ch.unexamined != []
    ensures Skipped(env, charts + [ch]) == Skipped(env, charts) + if env.validLabel(ch.name) then [] else [ch.name]
  {
    var more := charts + [ch];
    assert more[..|charts|] == charts && more[|charts|] == ch;
    if Incomplete(charts) {
      var i :| 0 <= i < |charts| && charts[i].unexamined != [];
      assert more[i].unexamined != [];
    }
  }

  /** Ensures the object of a chart with a valid label and publishes its versions. */
  method ReconcileOne(cluster: Cluster, env: Env, ch: FetchedChart) returns (err: bool)
    requires cluster.lost == env.lost && env.validLabel(ch.name)
    modifies cluster
    ensures cluster.At(err) == ReconcileChart(env, ch, old(cluster.At(false)))
  {
    var n := env.objName(ch.name);
    err := EnsureObject(cluster, env, n, ch.name);
    if !err {
      err := PublishVersions(cluster, env, n, ch);
    }
  }

  method ReconcileAll(cluster: Cluster, env: Env, charts: seq<FetchedChart>)
    returns (desired: set<string>, incomplete: bool, skipped: seq<string>, err: bool)
    requires cluster.lost == env.lost
    modifies cluster
    ensures cluster.At(err) == ReconcileCharts(env, charts, old(cluster.At(false)))
    ensures !err ==> desired == Desired(env, charts) && incomplete == Incomplete(charts)
    ensures !err ==> skipped == Skipped(env, charts)
  {
    ghost var w0 := cluster.At(false);
    desired, incomplete, skipped := {}, false, [];
    for i := 0 to |charts|
      invariant ReconcileCharts(env, charts, w0) == ReconcileCharts(env, charts[i..], cluster.At(false))
      invariant desired == Desired(env, charts[..i])
      invariant incomplete == Incomplete(charts[..i]) && skipped == Skipped(env, charts[..i])
    {
      var ch := charts[i];
      assert charts[i..][0] == ch && charts[i..][1..] == charts[i + 1..];
      assert charts[..i + 1] == charts[..i] + [ch];
      OneMoreChart(env, charts[..i], ch);
      if ch.unexamined != [] {
        incomplete := true;
      }
      if !env.validLabel(ch.name) {
        skipped := skipped + [ch.name];
        continue;
      }
      desired := desired + {env.objName(ch.name)};
      var failed := ReconcileOne(cluster, env, ch);
      if failed {
        return desired, incomplete, skipped, true;
      }
    }
    assert charts[..|charts|] == charts;
    return desired, incomplete, skipped, false;
  }

  method RecordAbsence(cluster: Cluster, env: Env, n: string, inUse: set<string>) returns (err: bool)
    requires n in cluster.objects && cluster.lost == env.lost
    modifies cluster
    ensures var o := old(cluster.objects)[n];
            cluster.At(err) == Put(old(cluster.At(false)), n, o.(versions := Merge(env.parse, [], o.versions, inUse, {})), env.lost)
  {
    var o := cluster.objects[n];
    var none: seq<string> := [];
    var versions := MergeChartVersions(env.parse, [], o.versions, inUse, none);
    assert (set v | v in none) == {};
    err := cluster.Patch(n, o.(versions := versions));
  }

  method PruneAll(cluster: Cluster, env: Env, desired: set<string>) returns (err: bool)
    requires cluster.lost == env.lost
    modifies cluster
    ensures cluster.At(err) == PruneObjects(env, desired, env.listing, old(cluster.At(false)))
  {
    ghost var w0 := cluster.At(false);
    for i := 0 to |env.listing|
      invariant PruneObjects(env, desired, env.listing, w0) == PruneObjects(env, desired, env.listing[i..], cluster.At(false))
    {
      var n := env.listing[i];
      assert env.listing[i..][0] == n && env.listing[i..][1..] == env.listing[i + 1..];
      if n in desired {
        continue;
      }
      if n in cluster.objects {
        var inUse := InUse(env, cluster.objects[n].chart);
        var failed;
        if inUse != {} {
          failed := RecordAbsence(cluster, env, n, inUse);
        } else {
          failed := cluster.Delete(n);
        }
        if failed {
          return true;
        }
      }
    }
    return false;
  }

  method ReconcileCatalog(cluster: Cluster, env: Env, charts: seq<FetchedChart>) returns (err: bool)
    requires cluster.lost == env.lost
    modifies cluster
    ensures cluster.At(err) == Reconcile(env, charts, old(cluster.At(false)))
  {
    var desired, incomplete, skipped, failed := ReconcileAll(cluster, env, charts);
    if failed || incomplete {
      return failed;
    }
    err := PruneAll(cluster, env, desired);
  }

  // ----- one synchronization -----

  method ReadCharts(env: Env, source: Source, known: map<string, Known>, full: bool) returns (charts: Option<seq<FetchedChart>>)
    ensures charts == FetchCharts(env, source, known, full)
  {
    match source
    case Helm(read) => return read;
    case Oci(chart, listed, probes, cancelled) =>
      if chart == "" || listed.None? {
        return None;
      }
      var r := ResolveChartVersions(env.parse, listed.value, known, full, probes, cancelled);
      match r
      case Err(_) => return None;
      case Ok(read) => return Some([FetchedChart(chart, "", read.versions, read.unexamined)]);
  }

  /** Marks first, then reads what is known, then the repository, then reconciles. */
  method Synchronize(cluster: Cluster, env: Env, request: Request, source: Source)
    returns (recorded: bool, attempted: bool, read: bool, failed: bool)
    requires cluster.lost == env.lost && cluster.writes == env.writes
    modifies cluster
    ensures Outcome(cluster.objects, recorded, attempted, read, failed) == Sync(env, request, source, old(cluster.objects))
  {
    var marking := request.refresh && source.Oci?;
    if !request.readable {
      return !marking, false, false, true;
    }
    if marking {
      var err := MarkForReexamination(cluster, env.listing);
      if err {
        return false, false, false, true;
      }
    }
    var known := KnownCharts(cluster, env.listing);
    var chart := SourceChart(source);
    var charts := ReadCharts(env, source, if chart in known then known[chart] else map[], request.refresh);
    if charts.None? {
      return true, true, false, false;
    }
    var err := ReconcileCatalog(cluster, env, charts.value);
    return true, true, true, err;
  }
}

/**
 What consumers reference stays in the catalog: the version, its media type, and the object of its
 chart; and a pass that saw only part of the repository deletes no object.
 */
module CatalogRetention {
  import opened Basics
  import opened CatalogOrder
  import opened CatalogMerge
  import opened CatalogFetch
  import opened CatalogPasses
  import opened CatalogSync
  import opened CatalogMarks

  // ----- which versions are in use -----

  datatype RepositoryRef = RepositoryRef(kind: string, namespace: string, name: string)

  datatype AppliedChart = AppliedChart(repository: RepositoryRef, chart: string, version: string)

  /** A release that references a chart: the version of its spec and the chart it applied last. */
  datatype Release = Release(version: string, lastApplied: Option<AppliedChart>)

  /** The last-applied record can lag behind the spec, so it counts only for the pair it names. */
  predicate References(r: Release, repo: RepositoryRef, chart: string, v: string) {
    r.version == v || (r.lastApplied.Some? && r.lastApplied.value == AppliedChart(repo, chart, v))
  }

  method ChartConsumers(releases: seq<Release>, repo: RepositoryRef, chart: string) returns (inUse: set<string>)
    ensures forall v :: v in inUse <==> exists i :: 0 <= i < |releases| && References(releases[i], repo, chart, v)
  {
    inUse := {};
    for i := 0 to |releases|
      invariant forall v :: v in inUse <==> exists j :: 0 <= j < i && References(releases[j], repo, chart, v)
    {
      var rel := releases[i];
      inUse := inUse + {rel.version};
      if rel.lastApplied.Some? {
        var last := rel.lastApplied.value;
        if last.chart == chart && last.repository == repo {
          inUse := inUse + {last.version};
        }
      }
      assert forall v :: v in inUse <==> (exists j :: 0 <= j < i && References(releases[j], repo, chart, v)) || References(releases[i], repo, chart, v);
    }
  }

  // ----- retention -----

  /** The chart's object records the version; `typed` adds that its media type is recorded too. */
  predicate Keeps(o: Obj, chart: string, v: string, typed: bool) {
    && o.chart == chart && v in Names(o.versions)
    && (typed ==> forall e :: e in o.versions && e.version == v ==> e.mediaType != "")
  }

  predicate Retains(catalog: Catalog, n: string, chart: string, v: string, typed: bool) {
    n in catalog && Keeps(catalog[n], chart, v, typed)
  }

  /** The repository gives the version no reference into a registry. */
  predicate NoReference(charts: seq<FetchedChart>, chart: string, v: string) {
    forall ch, f :: ch in charts && ch.name == chart && f in ch.versions && f.version == v ==> f.ociRef == ""
  }

  /** No other chart the repository was read to offer has the object name of this one. */
  predicate ApartFrom(objName: string -> string, validLabel: string -> bool, read: seq<FetchedChart>, chart: string) {
    forall ch :: ch in read && validLabel(ch.name) && objName(ch.name) == objName(chart) ==> ch.name == chart
  }

  lemma MergeTyped(fetched: seq<Fetched>, current: seq<Entry>, inUse: set<string>, deferred: set<string>, merged: seq<Entry>, v: string)
    requires MadeOf(merged, fetched, current, inUse, deferred) && v in inUse && v in Names(current)
    requires forall e :: e in current && e.version == v ==> e.mediaType != ""
    requires forall f :: f in fetched && f.version == v ==> f.ociRef == ""
    ensures forall e :: e in merged && e.version == v ==> e.mediaType != ""
  {
    FoundIffNamed(current, v);
    forall e | e in merged && e.version == v
      ensures e.mediaType != ""
    {
      if f :| f in fetched && FreshEntry(f, Find(current, f.version), f.version in inUse) == e {
        assert Find(current, f.version).value in current;
      }
    }
  }

  lemma MergeRetains(parse: Parser, fetched: seq<Fetched>, current: seq<Entry>, inUse: set<string>, deferred: set<string>, v: string,
                     typed: bool)
    requires v in inUse && v in Names(current)
    requires typed ==> forall e :: e in current && e.version == v ==> e.mediaType != ""
    requires typed ==> forall f :: f in fetched && f.version == v ==> f.ociRef == ""
    ensures var merged := Merge(parse, fetched, current, inUse, deferred);
            && v in Names(merged)
            && (typed ==> forall e :: e in merged && e.version == v ==> e.mediaType != "")
  {
    MergeMembers(parse, fetched, current, inUse, deferred);
    var merged := Merge(parse, fetched, current, inUse, deferred);
    if v in Listed(fetched) {
      var f :| f in fetched && f.version == v;
      assert FreshEntry(f, Find(current, v), true) in merged;
    } else {
      var c :| c in current && c.version == v;
      var kept := KeptEntry(c, Listed(fetched), inUse, deferred);
      assert kept.value in merged;
    }
    if typed {
      MergeTyped(fetched, current, inUse, deferred, merged, v);
    }
  }

  lemma MarkRetains(n: string, w: Work, lost: bool, m: string, chart: string, v: string, typed: bool)
    requires Retains(w.catalog, m, chart, v, typed)
    ensures Retains(MarkObject(n, w, lost).catalog, m, chart, v, typed)
  {
    MarkAllRetains(w.catalog[m], chart, v, typed);
  }

  lemma MarkAllRetains(o: Obj, chart: string, v: string, typed: bool)
    requires Keeps(o, chart, v, typed)
    ensures Keeps(o.(versions := MarkAll(o.versions)), chart, v, typed)
  {
    MarkAllOwes(o.versions, v);
    forall e | e in MarkAll(o.versions) && e.version == v
      ensures typed ==> e.mediaType != ""
    {
      var i :| 0 <= i < |o.versions| && MarkAll(o.versions)[i] == e;
      assert o.versions[i] in o.versions;
    }
  }

  lemma {:induction false} MarkingRetains(names: seq<string>, w: Work, lost: bool, m: string, chart: string, v: string, typed: bool)
    requires Retains(w.catalog, m, chart, v, typed)
    ensures Retains(MarkObjects(names, w, lost).catalog, m, chart, v, typed)
    decreases |names|
  {
    if names != [] && !w.failed {
      MarkRetains(names[0], w, lost, m, chart, v, typed);
      MarkingRetains(names[1..], MarkObject(names[0], w, lost), lost, m, chart, v, typed);
    }
  }

  lemma PublishRetains(env: Env, n: string, ch: FetchedChart, w: Work, m: string, chart: string, v: string, typed: bool)
    requires Retains(w.catalog, m, chart, v, typed)
    requires m == n ==> v in InUse(env, ch.name) && (typed ==> forall f :: f in ch.versions && f.version == v ==> f.ociRef == "")
    ensures Retains(Publish(env, n, ch, w).catalog, m, chart, v, typed)
  {
    if m == n {
      MergeRetains(env.parse, ch.versions, w.catalog[n].versions, InUse(env, ch.name), (set u | u in ch.unexamined), v, typed);
    }
  }

  lemma ChartRetains(env: Env, ch: FetchedChart, w: Work, chart: string, v: string, typed: bool)
    requires ApartFrom(env.objName, env.validLabel, [ch], chart) && chart != "" && v in env.consumers(chart)
    requires Retains(w.catalog, env.objName(chart), chart, v, typed)
    requires typed ==> NoReference([ch], chart, v)
    ensures Retains(ReconcileChart(env, ch, w).catalog, env.objName(chart), chart, v, typed)
  {
    if env.validLabel(ch.name) {
      var n := env.objName(ch.name);
      var w1 := Ensure(env, n, ch.name, w);
      assert ch in [ch];
      assert n == env.objName(chart) ==> ch.name == chart;
      assert Retains(w1.catalog, env.objName(chart), chart, v, typed);
      PublishRetains(env, n, ch, w1, env.objName(chart), chart, v, typed);
    }
  }

  lemma {:induction false} ChartsRetain(env: Env, charts: seq<FetchedChart>, w: Work, chart: string, v: string, typed: bool)
    requires ApartFrom(env.objName, env.validLabel, charts, chart) && chart != "" && v in env.consumers(chart)
    requires Retains(w.catalog, env.objName(chart), chart, v, typed)
    requires typed ==> NoReference(charts, chart, v)
    ensures Retains(ReconcileCharts(env, charts, w).catalog, env.objName(chart), chart, v, typed)
    decreases |charts|
  {
    if charts != [] && !w.failed {
      ChartRetains(env, charts[0], w, chart, v, typed);
      ChartsRetain(env, charts[1..], ReconcileChart(env, charts[0], w), chart, v, typed);
    }
  }

  lemma PruneRetains(env: Env, desired: set<string>, n: string, w: Work, m: string, chart: string, v: string, typed: bool)
    requires chart != "" && v in env.consumers(chart) && Retains(w.catalog, m, chart, v, typed)
    ensures Retains(PruneObject(env, desired, n, w).catalog, m, chart, v, typed)
  {
    if n == m {
      MergeRetains(env.parse, [], w.catalog[m].versions, env.consumers(chart), {}, v, typed);
    }
  }

  lemma {:induction false} PruningRetains(env: Env, desired: set<string>, names: seq<string>, w: Work, m: string, chart: string,
                                          v: string, typed: bool)
    requires chart != "" && v in env.consumers(chart) && Retains(w.catalog, m, chart, v, typed)
    ensures Retains(PruneObjects(env, desired, names, w).catalog, m, chart, v, typed)
    decreases |names|
  {
    if names != [] && !w.failed {
      PruneRetains(env, desired, names[0], w, m, chart, v, typed);
      PruningRetains(env, desired, names[1..], PruneObject(env, desired, names[0], w), m, chart, v, typed);
    }
  }

  /** The charts a round reads are free of a registry reference for the version. */
  predicate Plain(r: Round, catalog: Catalog, chart: string, v: string) {
    var charts := Fetch(r.env, r.request, r.source, Marked(r.env, r.request, r.source, catalog).catalog);
    charts.Some? ==> NoReference(charts.value, chart, v)
  }

  /** The repository, as the round finds it, offers no other chart under the object name of this one. */
  predicate ReadsApart(r: Round, chart: string) {
    match r.source
    case Helm(charts) => charts.Some? ==> ApartFrom(r.env.objName, r.env.validLabel, charts.value, chart)
    case Oci(own, _, _, _) => r.env.validLabel(own) && r.env.objName(own) == r.env.objName(chart) ==> own == chart
  }

  lemma SyncRetains(catalog: Catalog, r: Round, chart: string, v: string, typed: bool)
    requires ReadsApart(r, chart) && chart != "" && v in r.env.consumers(chart)
    requires Retains(catalog, r.env.objName(chart), chart, v, typed)
    requires typed ==> Plain(r, catalog, chart, v)
    ensures Retains(After(catalog, r).catalog, r.env.objName(chart), chart, v, typed)
  {
    var env, n := r.env, r.env.objName(chart);
    MarkingRetains(env.listing, Work(catalog, env.writes, false), env.lost, n, chart, v, typed);
    var w := Marked(env, r.request, r.source, catalog);
    var charts := Fetch(env, r.request, r.source, w.catalog);
    if charts.Some? {
      ChartsRetain(env, charts.value, w, chart, v, typed);
      PruningRetains(env, Desired(env, charts.value), env.listing, ReconcileCharts(env, charts.value, w), n, chart, v, typed);
    }
  }

  /** The version is referenced whenever a pass of the run looks. */
  ghost predicate ReferencedThroughout(objName: string -> string, rs: seq<Round>, chart: string, v: string) {
    forall i :: 0 <= i < |rs| ==> rs[i].env.objName == objName && v in rs[i].env.consumers(chart)
  }

  predicate ApartThroughout(rs: seq<Round>, chart: string) {
    forall i :: 0 <= i < |rs| ==> ReadsApart(rs[i], chart)
  }

  predicate PlainThroughout(catalog: Catalog, rs: seq<Round>, chart: string, v: string)
    decreases |rs|
  {
    rs == [] || (Plain(rs[0], catalog, chart, v) && PlainThroughout(After(catalog, rs[0]).catalog, rs[1..], chart, v))
  }

  /** Main result: over any run, whatever fails, a referenced version and its chart's object stay, and
      so does its media type unless the repository gives it a reference into a registry. */
  lemma {:induction false} ReferencedVersionsStay(objName: string -> string, catalog: Catalog, rs: seq<Round>, chart: string, v: string,
                                                  typed: bool)
    requires chart != "" && ReferencedThroughout(objName, rs, chart, v) && ApartThroughout(rs, chart)
    requires Retains(catalog, objName(chart), chart, v, typed)
    requires typed ==> PlainThroughout(catalog, rs, chart, v)
    ensures Retains(AfterAll(catalog, rs), objName(chart), chart, v, typed)
    decreases |rs|
  {
    if rs != [] {
      assert rs[0].env.objName == objName && v in rs[0].env.consumers(chart) && ReadsApart(rs[0], chart);
      SyncRetains(catalog, rs[0], chart, v, typed);
      assert forall i :: 0 <= i < |rs[1..]| ==> rs[1..][i] == rs[i + 1];
      ReferencedVersionsStay(objName, After(catalog, rs[0]).catalog, rs[1..], chart, v, typed);
    }
  }

  // ----- what is deleted -----

  lemma {:induction false} MarkingDeletesNothing(names: seq<string>, w: Work, lost: bool)
    ensures w.catalog.Keys == MarkObjects(names, w, lost).catalog.Keys
    decreases |names|
  {
    if names != [] && !w.failed {
      MarkingDeletesNothing(names[1..], MarkObject(names[0], w, lost), lost);
    }
  }

  lemma ChartDeletesNothing(env: Env, ch: FetchedChart, w: Work)
    ensures w.catalog.Keys <= ReconcileChart(env, ch, w).catalog.Keys
  {
    var n := env.objName(ch.name);
    assert w.catalog.Keys <= Ensure(env, n, ch.name, w).catalog.Keys;
  }

  lemma {:induction false} ChartsDeleteNothing(env: Env, charts: seq<FetchedChart>, w: Work)
    ensures w.catalog.Keys <= ReconcileCharts(env, charts, w).catalog.Keys
    decreases |charts|
  {
    if charts != [] && !w.failed {
      ChartDeletesNothing(env, charts[0], w);
      ChartsDeleteNothing(env, charts[1..], ReconcileChart(env, charts[0], w));
    }
  }

  /** A pass that could not read the whole repository deletes no object. */
  lemma PartialReadDeletesNothing(env: Env, request: Request, source: Source, catalog: Catalog)
    requires var charts := Fetch(env, request, source, Marked(env, request, source, catalog).catalog);
             charts.None? || Incomplete(charts.value)
    ensures catalog.Keys <= Sync(env, request, source, catalog).catalog.Keys
  {
    MarkingDeletesNothing(env.listing, Work(catalog, env.writes, false), env.lost);
    var w := Marked(env, request, source, catalog);
    var charts := Fetch(env, request, source, w.catalog);
    if charts.Some? {
      ChartsDeleteNothing(env, charts.value, w);
    }
  }

  lemma WriteElsewhere(w: Work, n: string, o: Obj, lost: bool, m: string)
    requires m != n
    ensures m in Put(w, n, o, lost).catalog <==> m in w.catalog
    ensures m in Drop(w, n, lost).catalog <==> m in w.catalog
    ensures m in w.catalog ==> Put(w, n, o, lost).catalog[m] == w.catalog[m] && Drop(w, n, lost).catalog[m] == w.catalog[m]
  {
  }

  lemma PruneElsewhere(env: Env, desired: set<string>, n: string, w: Work, m: string)
    requires m != n
    ensures m in PruneObject(env, desired, n, w).catalog <==> m in w.catalog
    ensures m in w.catalog ==> PruneObject(env, desired, n, w).catalog[m] == w.catalog[m]
  {
    if n in w.catalog {
      var o := w.catalog[n];
      WriteElsewhere(w, n, o.(versions := Merge(env.parse, [], o.versions, InUse(env, o.chart), {})), env.lost, m);
    }
  }

  lemma {:induction false} PruningElsewhere(env: Env, desired: set<string>, names: seq<string>, w: Work, m: string)
    requires m !in names
    ensures m in PruneObjects(env, desired, names, w).catalog <==> m in w.catalog
    decreases |names|
  {
    if names != [] && !w.failed {
      PruneElsewhere(env, desired, names[0], w, m);
      PruningElsewhere(env, desired, names[1..], PruneObject(env, desired, names[0], w), m);
    }
  }

  /** A complete pruning deletes exactly the objects whose chart is neither offered nor in use; one
      without a chart label counts as not in use. */
  lemma {:induction false} PrunedExactly(env: Env, desired: set<string>, names: seq<string>, w: Work, n: string)
    requires NoRepeats(names) && n in names && n in w.catalog && !w.failed
    requires !PruneObjects(env, desired, names, w).failed
    ensures n in PruneObjects(env, desired, names, w).catalog <==> n in desired || InUse(env, w.catalog[n].chart) != {}
    decreases |names|
  {
    var w1 := PruneObject(env, desired, names[0], w);
    assert !w1.failed;
    if names[0] == n {
      assert n !in names[1..];
      PruningElsewhere(env, desired, names[1..], w1, n);
    } else {
      PruneElsewhere(env, desired, names[0], w, n);
      PrunedExactly(env, desired, names[1..], w1, n);
    }
  }
}

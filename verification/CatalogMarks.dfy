/**
 A forced refresh that was recorded is not forgotten: every verdict recorded at that time stays
 outstanding until the registry answers for its tag or stops offering it.
 */
module CatalogMarks {
  import opened Basics
  import opened CatalogOrder
  import opened CatalogMerge
  import opened CatalogFetch
  import opened CatalogPasses
  import opened CatalogSync

  /** Every pass examines such a version: it is marked, or still awaits a verdict. */
  predicate Awaits(e: Entry) {
    e.reexamine || e.reason == ResolvePending
  }

  predicate Owes(es: seq<Entry>, v: string) {
    v in Names(es) && forall e :: e in es && e.version == v ==> Awaits(e)
  }

  predicate Outstanding(catalog: Catalog, n: string, v: string) {
    n in catalog && Owes(catalog[n].versions, v)
  }

  /** What a pass learnt about a version, as far as the registry is concerned: the repository was
      read, and it no longer offers the version or its answer for the tag came in time. */
  predicate Answered(env: Env, source: Source, n: string, v: string) {
    match source
    case Helm(_) => true
    case Oci(chart, listed, probes, _) =>
      || n != env.objName(chart) || !env.validLabel(chart) || listed.None?
      || v !in Offered(env.parse, listed.value)
      || !Probed(v, probes(v)).Unexamined?
  }

  // ----- marking -----

  lemma MarkAllOwes(es: seq<Entry>, v: string)
    requires v in Names(es)
    ensures Owes(MarkAll(es), v)
  {
    var e :| e in es && e.version == v;
    var i :| 0 <= i < |es| && es[i] == e;
    assert MarkAll(es)[i].version == v;
    forall e' | e' in MarkAll(es)
      ensures Awaits(e')
    {
      var j :| 0 <= j < |es| && MarkAll(es)[j] == e';
    }
  }

  lemma MarkObjectKeeps(n: string, w: Work, lost: bool, m: string, v: string)
    requires Outstanding(w.catalog, m, v)
    ensures Outstanding(MarkObject(n, w, lost).catalog, m, v)
  {
    MarkAllOwes(w.catalog[m].versions, v);
  }

  lemma MarkObjectMarks(n: string, w: Work, lost: bool, v: string)
    requires n in w.catalog && v in Names(w.catalog[n].versions) && !MarkObject(n, w, lost).failed
    ensures Outstanding(MarkObject(n, w, lost).catalog, n, v)
  {
    MarkAllOwes(w.catalog[n].versions, v);
    if !NeedsMark(w.catalog[n].versions) {
      var es := w.catalog[n].versions;
      forall e | e in es
        ensures Awaits(e)
      {
        var i :| 0 <= i < |es| && es[i] == e;
      }
    }
  }

  lemma {:induction false} MarkingKeeps(names: seq<string>, w: Work, lost: bool, m: string, v: string)
    requires Outstanding(w.catalog, m, v)
    ensures Outstanding(MarkObjects(names, w, lost).catalog, m, v)
    decreases |names|
  {
    if names != [] && !w.failed {
      MarkObjectKeeps(names[0], w, lost, m, v);
      MarkingKeeps(names[1..], MarkObject(names[0], w, lost), lost, m, v);
    }
  }

  lemma MarkObjectElsewhere(n: string, w: Work, lost: bool, m: string)
    requires m != n && m in w.catalog
    ensures m in MarkObject(n, w, lost).catalog && MarkObject(n, w, lost).catalog[m] == w.catalog[m]
  {
  }

  lemma {:induction false} MarkingMarks(names: seq<string>, w: Work, lost: bool, m: string, v: string)
    requires m in names && m in w.catalog && v in Names(w.catalog[m].versions)
    requires !w.failed && !MarkObjects(names, w, lost).failed
    ensures Outstanding(MarkObjects(names, w, lost).catalog, m, v)
    decreases |names|
  {
    var w1 := MarkObject(names[0], w, lost);
    assert !w1.failed;
    if names[0] == m {
      MarkObjectMarks(m, w, lost, v);
      MarkingKeeps(names[1..], w1, lost, m, v);
    } else {
      MarkObjectElsewhere(names[0], w, lost, m);
      MarkingMarks(names[1..], w1, lost, m, v);
    }
  }

  // ----- reconciling -----

  /** The fetch says nothing about the version: its chart was read without reaching the tag. */
  predicate Passed(env: Env, ch: FetchedChart, n: string, v: string) {
    env.validLabel(ch.name) && env.objName(ch.name) == n ==> v in ch.unexamined && v !in Listed(ch.versions)
  }

  lemma MergeKeepsOwed(parse: Parser, fetched: seq<Fetched>, current: seq<Entry>, inUse: set<string>, deferred: set<string>, v: string)
    requires Owes(current, v) && v in deferred && v !in Listed(fetched)
    ensures Owes(Merge(parse, fetched, current, inUse, deferred), v)
  {
    MergeMembers(parse, fetched, current, inUse, deferred);
    var e :| e in current && e.version == v;
    assert KeptEntry(e, Listed(fetched), inUse, deferred) == Some(e);
    assert e in Merge(parse, fetched, current, inUse, deferred);
  }

  lemma EnsureKeeps(env: Env, n: string, chart: string, w: Work, m: string, v: string)
    requires Outstanding(w.catalog, m, v)
    ensures Outstanding(Ensure(env, n, chart, w).catalog, m, v)
  {
  }

  lemma PublishKeeps(env: Env, n: string, ch: FetchedChart, w: Work, m: string, v: string)
    requires Outstanding(w.catalog, m, v) && (m == n ==> v in ch.unexamined && v !in Listed(ch.versions))
    ensures Outstanding(Publish(env, n, ch, w).catalog, m, v)
  {
    if m == n {
      MergeKeepsOwed(env.parse, ch.versions, w.catalog[n].versions, InUse(env, ch.name), (set u | u in ch.unexamined), v);
    }
  }

  lemma {:induction false} ChartsKeep(env: Env, charts: seq<FetchedChart>, w: Work, n: string, v: string)
    requires Outstanding(w.catalog, n, v) && forall ch :: ch in charts ==> Passed(env, ch, n, v)
    ensures Outstanding(ReconcileCharts(env, charts, w).catalog, n, v)
    decreases |charts|
  {
    if charts != [] && !w.failed {
      var ch := charts[0];
      assert Passed(env, ch, n, v);
      if env.validLabel(ch.name) {
        EnsureKeeps(env, env.objName(ch.name), ch.name, w, n, v);
        PublishKeeps(env, env.objName(ch.name), ch, Ensure(env, env.objName(ch.name), ch.name, w), n, v);
      }
      ChartsKeep(env, charts[1..], ReconcileChart(env, ch, w), n, v);
    }
  }

  lemma {:induction false} PruningSpares(env: Env, desired: set<string>, names: seq<string>, w: Work, n: string)
    requires n in desired && n in w.catalog
    ensures var w' := PruneObjects(env, desired, names, w); n in w'.catalog && w'.catalog[n] == w.catalog[n]
    decreases |names|
  {
    if names != [] && !w.failed {
      PruningSpares(env, desired, names[1..], PruneObject(env, desired, names[0], w), n);
    }
  }

  // ----- what the fetch leaves open -----

  /** A version that awaits an answer and gets none is reported unexamined, never carried over. */
  lemma AwaitedIsPassed(env: Env, request: Request, source: Source, catalog: Catalog, n: string, v: string)
    requires WellNamed(env.objName, catalog) && Outstanding(catalog, n, v) && !Answered(env, source, n, v)
    requires Fetch(env, request, source, catalog).Some?
    ensures var charts := Fetch(env, request, source, catalog).value;
            && n in Desired(env, charts) && forall ch :: ch in charts ==> Passed(env, ch, n, v)
  {
    var known := KnownFor(env.listing, catalog, source.chart);
    KnownIsItsOwn(env, env.listing, catalog, source.chart);
    assert NeedsExamination(known, request.refresh, v) by {
      if v in known {
        assert known == KnownOf(catalog[n].versions);
        assert Awaits(Find(catalog[n].versions, v).value);
      }
    }
    var offered := Offered(env.parse, source.listed.value);
    var charts := Fetch(env, request, source, catalog).value;
    assert VerdictOn(known, request.refresh, source.probes, v) == Unexamined;
    UnexaminedIsReported(env.parse, source.listed.value, known, request.refresh, source.probes, source.cancelled, v);
    assert charts[0] in charts;
  }

  lemma UnexaminedIsReported(parse: Parser, tags: seq<string>, known: map<string, Known>, full: bool, probes: string -> Probe,
                             cancelled: bool, v: string)
    requires Resolve(parse, tags, known, full, probes, cancelled).Ok?
    requires v in Offered(parse, tags) && VerdictOn(known, full, probes, v) == Unexamined
    ensures var read := Resolve(parse, tags, known, full, probes, cancelled).value;
            v in read.unexamined && v !in Listed(read.versions)
  {
    var offered := Offered(parse, tags);
    NotReachedMembers(known, full, probes, offered);
    VersionsMembers(known, full, probes, offered);
    ReorderedMembers(Versions(known, full, probes, offered), NewestFirst(parse, Versions(known, full, probes, offered)));
  }

  // ----- one synchronization -----

  /** No mark is cleared by a carried-over verdict: short of an answer, or of a listing without the
      tag, an outstanding version stays outstanding, wherever the pass fails. */
  lemma OutstandingStays(env: Env, request: Request, source: Source, catalog: Catalog, n: string, v: string)
    requires WellNamed(env.objName, catalog) && Outstanding(catalog, n, v)
    requires Sync(env, request, source, catalog).read ==> !Answered(env, source, n, v)
    ensures Outstanding(Sync(env, request, source, catalog).catalog, n, v)
  {
    MarkingKeeps(env.listing, Work(catalog, env.writes, false), env.lost, n, v);
    WellNamedMarking(env, env.listing, Work(catalog, env.writes, false));
    var w := Marked(env, request, source, catalog);
    if request.readable && !w.failed && Fetch(env, request, source, w.catalog).Some? {
      ReconcileKeeps(env, request, source, w, n, v);
    }
  }

  lemma ReconcileKeeps(env: Env, request: Request, source: Source, w: Work, n: string, v: string)
    requires WellNamed(env.objName, w.catalog) && Outstanding(w.catalog, n, v) && !Answered(env, source, n, v)
    requires Fetch(env, request, source, w.catalog).Some?
    ensures Outstanding(Reconcile(env, Fetch(env, request, source, w.catalog).value, w).catalog, n, v)
  {
    AwaitedIsPassed(env, request, source, w.catalog, n, v);
    var charts := Fetch(env, request, source, w.catalog).value;
    ChartsKeep(env, charts, w, n, v);
    PruningSpares(env, Desired(env, charts), env.listing, ReconcileCharts(env, charts, w), n);
  }

  /** A refresh of an oci repository is reported recorded only once every recorded version is marked. */
  lemma RecordedMeansMarked(env: Env, request: Request, source: Source, catalog: Catalog, n: string, v: string)
    requires Lists(env.listing, catalog) && Marking(request, source) && Sync(env, request, source, catalog).recorded
    requires n in catalog && v in Names(catalog[n].versions)
    ensures Outstanding(Marked(env, request, source, catalog).catalog, n, v)
  {
    MarkingMarks(env.listing, Work(catalog, env.writes, false), env.lost, n, v);
  }

  // ----- runs -----

  datatype Round = Round(env: Env, request: Request, source: Source)

  function After(catalog: Catalog, r: Round): Outcome {
    Sync(r.env, r.request, r.source, catalog)
  }

  function AfterAll(catalog: Catalog, rs: seq<Round>): Catalog
    decreases |rs|
  {
    if rs == [] then catalog else AfterAll(After(catalog, rs[0]).catalog, rs[1..])
  }

  function RecordedPairs(catalog: Catalog): set<(string, string)> {
    set n, v | n in catalog && v in Names(catalog[n].versions) :: (n, v)
  }

  /** The answers a run still owes: those of every refresh it recorded, less those it got. */
  function StillOwed(owed: set<(string, string)>, catalog: Catalog, r: Round): set<(string, string)> {
    var out := After(catalog, r);
    var asked := if Marking(r.request, r.source) && out.recorded then RecordedPairs(catalog) else {};
    set p | p in owed + asked && !(out.read && Answered(r.env, r.source, p.0, p.1))
  }

  function OwedAfter(owed: set<(string, string)>, catalog: Catalog, rs: seq<Round>): set<(string, string)>
    decreases |rs|
  {
    if rs == [] then owed else OwedAfter(StillOwed(owed, catalog, rs[0]), After(catalog, rs[0]).catalog, rs[1..])
  }

  /** Each round reads the catalog the one before it left. */
  ghost predicate Chained(objName: string -> string, catalog: Catalog, rs: seq<Round>)
    decreases |rs|
  {
    rs == [] ||
    (&& rs[0].env.objName == objName && Lists(rs[0].env.listing, catalog)
     && Chained(objName, After(catalog, rs[0]).catalog, rs[1..]))
  }

  lemma OwedStep(catalog: Catalog, r: Round, owed: set<(string, string)>, n: string, v: string)
    requires WellNamed(r.env.objName, catalog) && Lists(r.env.listing, catalog)
    requires (n, v) in owed ==> Outstanding(catalog, n, v)
    requires (n, v) in StillOwed(owed, catalog, r)
    ensures Outstanding(After(catalog, r).catalog, n, v)
  {
    if (n, v) in owed {
      OutstandingStays(r.env, r.request, r.source, catalog, n, v);
    } else {
      RecordedMeansMarked(r.env, r.request, r.source, catalog, n, v);
      WellNamedMarking(r.env, r.env.listing, Work(catalog, r.env.writes, false));
      var w := Marked(r.env, r.request, r.source, catalog);
      if !w.failed && Fetch(r.env, r.request, r.source, w.catalog).Some? {
        ReconcileKeeps(r.env, r.request, r.source, w, n, v);
      }
    }
  }

  /** Main result: along every run, whatever fails, every version owed an answer is outstanding. */
  lemma {:induction false} MarksSurvive(objName: string -> string, catalog: Catalog, rs: seq<Round>, owed: set<(string, string)>)
    requires WellNamed(objName, catalog) && Chained(objName, catalog, rs)
    requires forall p :: p in owed ==> Outstanding(catalog, p.0, p.1)
    ensures forall p :: p in OwedAfter(owed, catalog, rs) ==> Outstanding(AfterAll(catalog, rs), p.0, p.1)
    decreases |rs|
  {
    if rs != [] {
      var r := rs[0];
      SyncKeepsNames(r.env, r.request, r.source, catalog);
      forall p | p in StillOwed(owed, catalog, r)
        ensures Outstanding(After(catalog, r).catalog, p.0, p.1)
      {
        OwedStep(catalog, r, owed, p.0, p.1);
      }
      MarksSurvive(objName, After(catalog, r).catalog, rs[1..], StillOwed(owed, catalog, r));
    }
  }

  // ----- what clears a mark nobody answered -----

  lemma ChartPublished(env: Env, ch: FetchedChart, w: Work, n: string)
    requires env.validLabel(ch.name) && env.objName(ch.name) == n && n in w.catalog && !ReconcileChart(env, ch, w).failed
    ensures var c := ReconcileChart(env, ch, w).catalog;
            n in c && c[n].versions == Merge(env.parse, ch.versions, w.catalog[n].versions, InUse(env, ch.name), set u | u in ch.unexamined)
  {
    var w1 := Ensure(env, n, ch.name, w);
    assert n in w1.catalog && w1.catalog[n].versions == w.catalog[n].versions;
  }

  lemma OneChart(env: Env, ch: FetchedChart, w: Work)
    requires !w.failed
    ensures ReconcileCharts(env, [ch], w) == ReconcileChart(env, ch, w)
  {
    assert [ch][1..] == [];
    assert ReconcileCharts(env, [], ReconcileChart(env, ch, w)) == ReconcileChart(env, ch, w);
  }

  /** A pass over one oci chart that runs to its end publishes what it merged. */
  lemma OneChartPublished(env: Env, ch: FetchedChart, w: Work, n: string)
    requires env.validLabel(ch.name) && env.objName(ch.name) == n && n in w.catalog && !w.failed
    requires !Reconcile(env, [ch], w).failed
    ensures var c := Reconcile(env, [ch], w).catalog;
            n in c && c[n].versions == Merge(env.parse, ch.versions, w.catalog[n].versions, InUse(env, ch.name), set u | u in ch.unexamined)
  {
    var w1 := ReconcileChart(env, ch, w);
    OneChart(env, ch, w);
    assert !w1.failed;
    ChartPublished(env, ch, w, n);
    assert ch in [ch];
    PruningSpares(env, Desired(env, [ch]), env.listing, w1, n);
  }

  lemma CarriedOwesNothing(parse: Parser, fetched: seq<Fetched>, current: seq<Entry>, inUse: set<string>, deferred: set<string>, f: Fetched)
    requires f in fetched && f.reason != ResolvePending
    ensures !Owes(Merge(parse, fetched, current, inUse, deferred), f.version)
  {
    MergeMembers(parse, fetched, current, inUse, deferred);
    var e := FreshEntry(f, Find(current, f.version), f.version in inUse);
    assert e in Merge(parse, fetched, current, inUse, deferred) && !Awaits(e);
  }

  lemma CarriedIsReported(parse: Parser, tags: seq<string>, known: map<string, Known>, full: bool, probes: string -> Probe,
                          cancelled: bool, v: string)
    requires Resolve(parse, tags, known, full, probes, cancelled).Ok?
    requires v in Offered(parse, tags) && !NeedsExamination(known, full, v)
    ensures CarryKnown(v, known[v]) in Resolve(parse, tags, known, full, probes, cancelled).value.versions
  {
    var fs := Versions(known, full, probes, Offered(parse, tags));
    VersionsMembers(known, full, probes, Offered(parse, tags));
    ReorderedMembers(fs, NewestFirst(parse, fs));
  }

  /** Exactly when an outstanding version survives a whole pass that did not get to its tag: the verdicts
      the pass takes over, wherever they are recorded, must leave the tag to be examined. */
  lemma UnansweredStaysIff(env: Env, request: Request, source: Source, catalog: Catalog, v: string)
    requires source.Oci? && Sync(env, request, source, catalog).read && !Sync(env, request, source, catalog).failed
    requires env.validLabel(source.chart) && Outstanding(catalog, env.objName(source.chart), v)
    requires v in Offered(env.parse, source.listed.value) && Probed(v, source.probes(v)).Unexamined?
    ensures Outstanding(Sync(env, request, source, catalog).catalog, env.objName(source.chart), v) <==>
            NeedsExamination(KnownFor(env.listing, Marked(env, request, source, catalog).catalog, source.chart), request.refresh, v)
  {
    var n := env.objName(source.chart);
    MarkingKeeps(env.listing, Work(catalog, env.writes, false), env.lost, n, v);
    var w := Marked(env, request, source, catalog);
    var known := KnownFor(env.listing, w.catalog, source.chart);
    var ch := Fetch(env, request, source, w.catalog).value[0];
    assert Fetch(env, request, source, w.catalog).value == [ch];
    OneChartPublished(env, ch, w, n);
    if NeedsExamination(known, request.refresh, v) {
      UnexaminedIsReported(env.parse, source.listed.value, known, request.refresh, source.probes, source.cancelled, v);
      MergeKeepsOwed(env.parse, ch.versions, w.catalog[n].versions, InUse(env, ch.name), (set u | u in ch.unexamined), v);
    } else {
      CarriedIsReported(env.parse, source.listed.value, known, request.refresh, source.probes, source.cancelled, v);
      CarriedOwesNothing(env.parse, ch.versions, w.catalog[n].versions, InUse(env, ch.name), (set u | u in ch.unexamined),
                         CarryKnown(v, known[v]));
    }
  }

  // ----- why a pass needs one object per chart -----

  const MARKED_VERSION := Entry("1", "", "", UnsupportedMediaType, "", true)
  const CARRIED_VERSION := Entry("1", "", "", UnsupportedMediaType, "", false)

  /** A chart under its current name, marked, and an object left under another name, not marked. */
  const TWINS: Catalog := map["current" := Obj("chart", "", [MARKED_VERSION]), "legacy" := Obj("chart", "", [CARRIED_VERSION])]

  const TWIN_SOURCE := Oci("chart", Some(["1"]), (t: string) => NotStarted, false)
  const TWIN_FETCHED := Fetched("1", "", "", UnsupportedMediaType, "")
  const TWIN_CHART := FetchedChart("chart", "", [TWIN_FETCHED], [])

  lemma OnlyTag(parse: Parser)
    requires parse("1").Some?
    ensures Offered(parse, ["1"]) == ["1"]
  {
    assert ["1"][..0] == [];
    assert Offered(parse, []) == [];
  }

  /** The object listed last speaks for the chart. */
  lemma TwinKnown(listing: seq<string>)
    requires listing == ["current", "legacy"]
    ensures KnownFor(listing, TWINS, "chart") == KnownOf([CARRIED_VERSION])
  {
    assert listing[|listing| - 1] == "legacy";
    assert TWINS["legacy"] == Obj("chart", "", [CARRIED_VERSION]);
  }

  /** A chart with one offered tag, whose verdict an earlier pass recorded. */
  lemma OneCarried(parse: Parser, tag: string, known: map<string, Known>, probes: string -> Probe)
    requires Offered(parse, [tag]) == [tag] && tag in known && !NeedsExamination(known, false, tag)
    ensures Resolve(parse, [tag], known, false, probes, false) == Ok(ChartRead([CarryKnown(tag, known[tag])], []))
  {
    var f := CarryKnown(tag, known[tag]);
    assert VerdictOn(known, false, probes, tag) == Recorded(f);
    assert forall t :: t in [tag] ==> t == tag;
    assert [tag][..0] == [] && [f][1..] == [];
    assert Versions(known, false, probes, []) == [] && NotReached(known, false, probes, []) == [];
    assert Versions(known, false, probes, [tag]) == [] + [f] && NotReached(known, false, probes, [tag]) == [];
    assert NewestFirst(parse, []) == [] && NewestFirst(parse, [f]) == Place(parse, f, []) == [f];
  }

  lemma TwinVerdictIsCarried(env: Env)
    requires env.parse("1").Some? && env.listing == ["current", "legacy"]
    ensures Fetch(env, Request(false, true), TWIN_SOURCE, TWINS) == Some([TWIN_CHART])
  {
    var known := KnownOf([CARRIED_VERSION]);
    TwinKnown(env.listing);
    assert Find([CARRIED_VERSION], "1") == Some(CARRIED_VERSION);
    assert "1" in known && CarryKnown("1", known["1"]) == TWIN_FETCHED;
    OnlyTag(env.parse);
    OneCarried(env.parse, "1", known, TWIN_SOURCE.probes);
  }

  lemma TwinIsCleared(env: Env, w: Work)
    requires env.validLabel("chart") && env.objName("chart") == "current" && "current" in env.listing
    requires w.catalog == TWINS && w.writes > 0 && !w.failed
    ensures var w' := ReconcileCharts(env, [TWIN_CHART], w);
            "current" in w'.catalog && !Owes(w'.catalog["current"].versions, "1")
  {
    var w' := ReconcileCharts(env, [TWIN_CHART], w);
    assert [TWIN_CHART][1..] == [];
    var w1 := ReconcileChart(env, TWIN_CHART, w);
    assert ReconcileCharts(env, [TWIN_CHART][1..], w1) == w1;
    assert w' == w1;
    assert Ensure(env, "current", "chart", w) == w;
    var inUse := InUse(env, "chart");
    MergeMembers(env.parse, [TWIN_FETCHED], [MARKED_VERSION], inUse, {});
    var cleared := FreshEntry(TWIN_FETCHED, Find([MARKED_VERSION], "1"), "1" in inUse);
    assert TWIN_FETCHED in [TWIN_FETCHED] && !Awaits(cleared) && cleared.version == "1";
    assert cleared in Merge(env.parse, [TWIN_FETCHED], [MARKED_VERSION], inUse, {});
    assert (set v | v in TWIN_CHART.unexamined) == {};
  }

  /** The mark is outstanding, and the registry says nothing of the version. */
  lemma TwinIsUnanswered(env: Env)
    requires env.parse("1").Some? && env.validLabel("chart") && env.objName("chart") == "current"
    requires env.listing == ["current", "legacy"]
    ensures Lists(env.listing, TWINS) && Outstanding(TWINS, "current", "1") && !Answered(env, TWIN_SOURCE, "current", "1")
  {
    OnlyTag(env.parse);
    assert "1" in ["1"];
    assert MARKED_VERSION in TWINS["current"].versions;
  }

  /** With a second object under the same chart label the mark is cleared by the other's verdict,
      although the registry answered nothing. */
  lemma UnmigratedTwinClearsMark(env: Env)
    requires env.parse("1").Some? && env.validLabel("chart") && env.objName("chart") == "current"
    requires env.listing == ["current", "legacy"] && env.writes > 0
    ensures Lists(env.listing, TWINS) && Outstanding(TWINS, "current", "1") && !Answered(env, TWIN_SOURCE, "current", "1")
    ensures !Outstanding(Sync(env, Request(false, true), TWIN_SOURCE, TWINS).catalog, "current", "1")
  {
    var w := Work(TWINS, env.writes, false);
    var charts := [TWIN_CHART];
    TwinIsUnanswered(env);
    TwinVerdictIsCarried(env);
    TwinIsCleared(env, w);
    assert TWIN_CHART in charts && "current" in Desired(env, charts);
    PruningSpares(env, Desired(env, charts), env.listing, ReconcileCharts(env, charts, w), "current");
  }
}

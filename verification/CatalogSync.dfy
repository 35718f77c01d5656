/**
 One synchronization of a repository with its chart catalog: mark, read the repository, reconcile.
 Any write to the cluster may fail, and its effect may land although it is reported failed.
 */
module CatalogSync {
  import opened Basics
  import opened CatalogOrder
  import opened CatalogMerge
  import opened CatalogFetch
  import opened CatalogPasses

  /** A catalog object: its chart label ("" if it has none), its icon and its versions. */
  datatype Obj = Obj(chart: string, icon: string, versions: seq<Entry>)

  type Catalog = map<string, Obj>

  /** A pass at work: the first write that is not among the `writes` left fails and ends it. */
  datatype Work = Work(catalog: Catalog, writes: nat, failed: bool)

  /** What one pass depends on besides the catalog and the repository. `listing` is the order the API
      server lists the objects in; `lost` says whether the write that fails takes effect anyway. */
  datatype Env = Env(
    parse: Parser,
    objName: string -> string,
    validLabel: string -> bool,
    consumers: string -> set<string>,
    listing: seq<string>,
    writes: nat,
    lost: bool)

  /** One chart of the repository as a pass read it; `icon` is that of its first version. */
  datatype FetchedChart = FetchedChart(name: string, icon: string, versions: seq<Fetched>, unexamined: seq<string>)

  /** The repository as one pass finds it. The index of a helm repository answers for everything. */
  datatype Source =
    | Helm(charts: Option<seq<FetchedChart>>)
    | Oci(chart: string, listed: Option<seq<string>>, probes: string -> Probe, cancelled: bool)

  predicate Lists(listing: seq<string>, catalog: Catalog) {
    NoRepeats(listing) && (forall n :: n in listing ==> n in catalog) && forall n :: n in catalog ==> n in listing
  }

  // ----- writes -----

  function Write(w: Work, catalog: Catalog, lost: bool): Work {
    if w.writes > 0 then Work(catalog, w.writes - 1, false)
    else Work(if lost then catalog else w.catalog, 0, true)
  }

  function Put(w: Work, n: string, o: Obj, lost: bool): Work {
    Write(w, w.catalog[n := o], lost)
  }

  function Drop(w: Work, n: string, lost: bool): Work {
    Write(w, w.catalog - {n}, lost)
  }

  // ----- marking -----

  predicate NeedsMark(es: seq<Entry>) {
    exists i :: 0 <= i < |es| && es[i].reason != ResolvePending && !es[i].reexamine
  }

  function MarkObject(n: string, w: Work, lost: bool): Work {
    if n !in w.catalog || !NeedsMark(w.catalog[n].versions) then w
    else Put(w, n, w.catalog[n].(versions := MarkAll(w.catalog[n].versions)), lost)
  }

  function MarkObjects(names: seq<string>, w: Work, lost: bool): Work
    decreases |names|
  {
    if names == [] || w.failed then w else MarkObjects(names[1..], MarkObject(names[0], w, lost), lost)
  }

  // ----- what earlier passes know -----

  /** The verdicts recorded under a chart label; the object listed last counts. */
  function KnownFor(listing: seq<string>, catalog: Catalog, chart: string): map<string, Known>
    decreases |listing|
  {
    if listing == [] || chart == "" then map[]
    else
      var last := listing[|listing| - 1];
      if last in catalog && catalog[last].chart == chart then KnownOf(catalog[last].versions)
      else KnownFor(listing[..|listing| - 1], catalog, chart)
  }

  function FetchCharts(env: Env, source: Source, known: map<string, Known>, full: bool): Option<seq<FetchedChart>> {
    match source
    case Helm(charts) => charts
    case Oci(chart, listed, probes, cancelled) =>
      if chart == "" || listed.None? then None
      else
        match Resolve(env.parse, listed.value, known, full, probes, cancelled)
        case Err(_) => None
        case Ok(read) => Some([FetchedChart(chart, "", read.versions, read.unexamined)])
  }

  // ----- reconciling -----

  /** An object without a chart label is protected by nobody. */
  function InUse(env: Env, chart: string): set<string> {
    if chart == "" then {} else env.consumers(chart)
  }

  /** An object that appeared since the catalog was read has its label repaired; the pass is lost. */
  function Ensure(env: Env, n: string, chart: string, w: Work): Work {
    if n in env.listing && n in w.catalog then
      if w.catalog[n].chart == chart then w else Put(w, n, w.catalog[n].(chart := chart), env.lost)
    else if n in w.catalog then
      (if w.catalog[n].chart == chart then w else Put(w, n, w.catalog[n].(chart := chart), env.lost)).(failed := true)
    else Put(w, n, Obj(chart, "", []), env.lost)
  }

  function Publish(env: Env, n: string, ch: FetchedChart, w: Work): Work {
    if n !in w.catalog then w
    else
      var o := w.catalog[n];
      var deferred := set v | v in ch.unexamined;
      Put(w, n, Obj(o.chart, if ch.versions == [] then o.icon else ch.icon,
                    Merge(env.parse, ch.versions, o.versions, InUse(env, ch.name), deferred)), env.lost)
  }

  function ReconcileChart(env: Env, ch: FetchedChart, w: Work): Work {
    if !env.validLabel(ch.name) then w
    else
      var n := env.objName(ch.name);
      var w1 := Ensure(env, n, ch.name, w);
      if w1.failed then w1 else Publish(env, n, ch, w1)
  }

  function ReconcileCharts(env: Env, charts: seq<FetchedChart>, w: Work): Work
    decreases |charts|
  {
    if charts == [] || w.failed then w else ReconcileCharts(env, charts[1..], ReconcileChart(env, charts[0], w))
  }

  function Desired(env: Env, charts: seq<FetchedChart>): set<string> {
    set ch | ch in charts && env.validLabel(ch.name) :: env.objName(ch.name)
  }

  predicate Incomplete(charts: seq<FetchedChart>) {
    exists i :: 0 <= i < |charts| && charts[i].unexamined != []
  }

  function PruneObject(env: Env, desired: set<string>, n: string, w: Work): Work {
    if n in desired || n !in w.catalog then w
    else
      var o := w.catalog[n];
      var inUse := InUse(env, o.chart);
      if inUse == {} then Drop(w, n, env.lost)
      else Put(w, n, o.(versions := Merge(env.parse, [], o.versions, inUse, {})), env.lost)
  }

  function PruneObjects(env: Env, desired: set<string>, names: seq<string>, w: Work): Work
    decreases |names|
  {
    if names == [] || w.failed then w
    else PruneObjects(env, desired, names[1..], PruneObject(env, desired, names[0], w))
  }

  function Reconcile(env: Env, charts: seq<FetchedChart>, w: Work): Work {
    var w1 := ReconcileCharts(env, charts, w);
    if w1.failed || Incomplete(charts) then w1 else PruneObjects(env, Desired(env, charts), env.listing, w1)
  }

  // ----- one synchronization -----

  /** `refresh`: a forced refresh or a pending change of the spec. `readable`: the catalog could be read. */
  datatype Request = Request(refresh: bool, readable: bool)

  /** `recorded`: the refresh needs its annotation no longer. `attempted` and `read`: the repository was
      asked, and answered. `failed`: the catalog could not be read or written. */
  datatype Outcome = Outcome(catalog: Catalog, recorded: bool, attempted: bool, read: bool, failed: bool)

  predicate Marking(request: Request, source: Source) {
    request.refresh && source.Oci?
  }

  function Marked(env: Env, request: Request, source: Source, catalog: Catalog): Work {
    var w := Work(catalog, env.writes, false);
    if Marking(request, source) then MarkObjects(env.listing, w, env.lost) else w
  }

  function SourceChart(source: Source): string {
    if source.Oci? then source.chart else ""
  }

  function Fetch(env: Env, request: Request, source: Source, catalog: Catalog): Option<seq<FetchedChart>> {
    FetchCharts(env, source, KnownFor(env.listing, catalog, SourceChart(source)), request.refresh)
  }

  function Sync(env: Env, request: Request, source: Source, catalog: Catalog): Outcome {
    if !request.readable then Outcome(catalog, !Marking(request, source), false, false, true)
    else
      var w := Marked(env, request, source, catalog);
      if w.failed then Outcome(w.catalog, false, false, false, true)
      else
        match Fetch(env, request, source, w.catalog)
        case None => Outcome(w.catalog, true, true, false, false)
        case Some(charts) =>
          var w' := Reconcile(env, charts, w);
          Outcome(w'.catalog, true, true, true, w'.failed)
  }

  /** Every object that names its chart carries the name derived from it: one object per chart. */
  predicate WellNamed(objName: string -> string, catalog: Catalog) {
    forall n :: n in catalog && catalog[n].chart != "" ==> n == objName(catalog[n].chart)
  }

  lemma {:induction false} KnownIsItsOwn(env: Env, listing: seq<string>, catalog: Catalog, chart: string)
    requires WellNamed(env.objName, catalog) && chart != ""
    ensures var n := env.objName(chart);
            KnownFor(listing, catalog, chart) ==
            if n in listing && n in catalog && catalog[n].chart == chart then KnownOf(catalog[n].versions) else map[]
    decreases |listing|
  {
    if listing != [] {
      var last := listing[|listing| - 1];
      KnownIsItsOwn(env, listing[..|listing| - 1], catalog, chart);
      assert listing == listing[..|listing| - 1] + [last];
    }
  }

  // ----- names stay derived -----

  lemma WellNamedPut(objName: string -> string, w: Work, n: string, o: Obj, lost: bool)
    requires WellNamed(objName, w.catalog) && (o.chart != "" ==> n == objName(o.chart))
    ensures WellNamed(objName, Put(w, n, o, lost).catalog)
  {
  }

  lemma WellNamedChart(env: Env, ch: FetchedChart, w: Work)
    requires WellNamed(env.objName, w.catalog)
    ensures WellNamed(env.objName, ReconcileChart(env, ch, w).catalog)
  {
    var n := env.objName(ch.name);
    var w1 := Ensure(env, n, ch.name, w);
    WellNamedPut(env.objName, w, n, Obj(ch.name, "", []), env.lost);
    if n in w.catalog {
      WellNamedPut(env.objName, w, n, w.catalog[n].(chart := ch.name), env.lost);
    }
    assert WellNamed(env.objName, w1.catalog);
    WellNamedPublish(env, n, ch, w1);
  }

  lemma WellNamedPublish(env: Env, n: string, ch: FetchedChart, w: Work)
    requires WellNamed(env.objName, w.catalog)
    ensures WellNamed(env.objName, Publish(env, n, ch, w).catalog)
  {
    if n in w.catalog {
      var o := w.catalog[n];
      var versions := Merge(env.parse, ch.versions, o.versions, InUse(env, ch.name), set v | v in ch.unexamined);
      WellNamedPut(env.objName, w, n, Obj(o.chart, if ch.versions == [] then o.icon else ch.icon, versions), env.lost);
    }
  }

  lemma WellNamedPrune(env: Env, desired: set<string>, n: string, w: Work)
    requires WellNamed(env.objName, w.catalog)
    ensures WellNamed(env.objName, PruneObject(env, desired, n, w).catalog)
  {
  }

  lemma {:induction false} WellNamedMarking(env: Env, names: seq<string>, w: Work)
    requires WellNamed(env.objName, w.catalog)
    ensures WellNamed(env.objName, MarkObjects(names, w, env.lost).catalog)
    decreases |names|
  {
    if names != [] && !w.failed {
      if names[0] in w.catalog {
        WellNamedPut(env.objName, w, names[0], w.catalog[names[0]].(versions := MarkAll(w.catalog[names[0]].versions)), env.lost);
      }
      WellNamedMarking(env, names[1..], MarkObject(names[0], w, env.lost));
    }
  }

  lemma {:induction false} WellNamedCharts(env: Env, charts: seq<FetchedChart>, w: Work)
    requires WellNamed(env.objName, w.catalog)
    ensures WellNamed(env.objName, ReconcileCharts(env, charts, w).catalog)
    decreases |charts|
  {
    if charts != [] && !w.failed {
      WellNamedChart(env, charts[0], w);
      WellNamedCharts(env, charts[1..], ReconcileChart(env, charts[0], w));
    }
  }

  lemma {:induction false} WellNamedPruning(env: Env, desired: set<string>, names: seq<string>, w: Work)
    requires WellNamed(env.objName, w.catalog)
    ensures WellNamed(env.objName, PruneObjects(env, desired, names, w).catalog)
    decreases |names|
  {
    if names != [] && !w.failed {
      WellNamedPrune(env, desired, names[0], w);
      WellNamedPruning(env, desired, names[1..], PruneObject(env, desired, names[0], w));
    }
  }

  /** A synchronization gives no chart a second object. */
  lemma SyncKeepsNames(env: Env, request: Request, source: Source, catalog: Catalog)
    requires WellNamed(env.objName, catalog)
    ensures WellNamed(env.objName, Sync(env, request, source, catalog).catalog)
  {
    var w := Work(catalog, env.writes, false);
    WellNamedMarking(env, env.listing, w);
    var marked := Marked(env, request, source, catalog);
    var charts := Fetch(env, request, source, marked.catalog);
    if charts.Some? {
      WellNamedCharts(env, charts.value, marked);
      WellNamedPruning(env, Desired(env, charts.value), env.listing, ReconcileCharts(env, charts.value, marked));
    }
  }
}

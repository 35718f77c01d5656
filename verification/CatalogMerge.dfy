/**
 Merging what a pass fetched for one chart into the versions the catalog records for it.
 */
module CatalogMerge {
  import opened Basics
  import opened CatalogOrder

  datatype Reason = Usable | ResolvePending | RemovedFromRepository | UnsupportedMediaType | InvalidChartReference

  /** A version as the catalog records it. `reexamine` says its verdict is stale. */
  datatype Entry = Entry(version: string, ociRef: string, mediaType: string,
                         reason: Reason, message: string, reexamine: bool)

  /** A version as a pass fetched it. */
  datatype Fetched = Fetched(version: string, ociRef: string, mediaType: string, reason: Reason, message: string)

  const REMOVED_MESSAGE := "the repository no longer offers this version"

  // ----- sorting -----

  function Insert(parse: Parser, e: Entry, es: seq<Entry>): (r: seq<Entry>)
    ensures |r| == |es| + 1 && multiset(r) == multiset(es) + multiset{e}
  {
    if es == [] then [e]
    else if Before(parse, es[0].version, e.version) then
      assert es == [es[0]] + es[1..];
      [es[0]] + Insert(parse, e, es[1..])
    else [e] + es
  }

  /** The stable sort of a version list. */
  function Sort(parse: Parser, es: seq<Entry>): (r: seq<Entry>)
    ensures multiset(r) == multiset(es)
  {
    if es == [] then []
    else
      assert es == [es[0]] + es[1..];
      Insert(parse, es[0], Sort(parse, es[1..]))
  }

  predicate Sorted(parse: Parser, es: seq<Entry>) {
    forall i, j :: 0 <= i < j < |es| ==> !Before(parse, es[j].version, es[i].version)
  }

  predicate Distinct(es: seq<Entry>) {
    forall i, j :: 0 <= i < j < |es| ==> es[i].version != es[j].version
  }

  lemma {:induction false} InsertSorts(parse: Parser, e: Entry, es: seq<Entry>)
    requires Sorted(parse, es)
    ensures Sorted(parse, Insert(parse, e, es))
  {
    var r := Insert(parse, e, es);
    if es != [] && Before(parse, es[0].version, e.version) {
      InsertSorts(parse, e, es[1..]);
      forall j | 0 < j < |r|
        ensures !Before(parse, r[j].version, es[0].version)
      {
        assert r[j] in multiset(Insert(parse, e, es[1..])) && r[j] == Insert(parse, e, es[1..])[j - 1];
        assert r[j] == e || r[j] in es[1..];
        BeforeIsStrictTotalOrder(parse, es[0].version, e.version, es[0].version);
      }
    } else if es != [] {
      forall j | 0 < j < |r|
        ensures !Before(parse, r[j].version, e.version)
      {
        BeforeIsStrictTotalOrder(parse, r[j].version, e.version, es[0].version);
        BeforeIsStrictTotalOrder(parse, es[0].version, e.version, r[j].version);
        BeforeIsStrictTotalOrder(parse, r[j].version, es[0].version, e.version);
      }
    }
  }

  lemma {:induction false} SortSorts(parse: Parser, es: seq<Entry>)
    ensures Sorted(parse, Sort(parse, es))
  {
    if es != [] {
      SortSorts(parse, es[1..]);
      InsertSorts(parse, es[0], Sort(parse, es[1..]));
    }
  }

  lemma SameMembers(es: seq<Entry>, fs: seq<Entry>)
    requires multiset(es) == multiset(fs)
    ensures |es| == |fs| && forall e :: e in es <==> e in fs
  {
    assert |multiset(es)| == |es| && |multiset(fs)| == |fs|;
    forall e ensures e in es <==> e in fs {
      assert e in es <==> e in multiset(es);
      assert e in fs <==> e in multiset(fs);
    }
  }

  lemma DistinctCounts(es: seq<Entry>, e: Entry)
    requires Distinct(es) && e in es
    ensures multiset(es)[e] == 1
  {
    var i :| 0 <= i < |es| && es[i] == e;
    assert es == es[..i] + [e] + es[i + 1..];
    assert e !in es[..i] && e !in es[i + 1..];
  }

  lemma TwiceCounted(es: seq<Entry>, i: nat, j: nat)
    requires i < j < |es| && es[i] == es[j]
    ensures multiset(es)[es[i]] >= 2
  {
    assert es == es[..j] + es[j..];
    assert es[i] in multiset(es[..j]) && es[j] in multiset(es[j..]) by {
      assert es[..j][i] == es[i] && es[j..][0] == es[j];
    }
    assert multiset(es) == multiset(es[..j]) + multiset(es[j..]);
  }

  lemma SameVersionSameEntry(es: seq<Entry>, e: Entry, f: Entry)
    requires Distinct(es) && e in es && f in es && e.version == f.version
    ensures e == f
  {
    var i :| 0 <= i < |es| && es[i] == e;
    var j :| 0 <= j < |es| && es[j] == f;
  }

  lemma DistinctByMultiset(es: seq<Entry>, fs: seq<Entry>)
    requires Distinct(es) && multiset(es) == multiset(fs)
    ensures Distinct(fs)
  {
    SameMembers(es, fs);
    forall i, j | 0 <= i < j < |fs|
      ensures fs[i].version != fs[j].version
    {
      assert fs[i] in es && fs[j] in es;
      DistinctCounts(es, fs[i]);
      if fs[i].version == fs[j].version {
        SameVersionSameEntry(es, fs[i], fs[j]);
        TwiceCounted(fs, i, j);
      }
    }
  }

  lemma SameHead(parse: Parser, es: seq<Entry>, fs: seq<Entry>)
    requires es != [] && Sorted(parse, es) && Sorted(parse, fs) && Distinct(es) && multiset(es) == multiset(fs)
    ensures fs != [] && es[0] == fs[0]
  {
    SameMembers(es, fs);
    assert es[0] in fs && fs[0] in es;
    var i :| 0 <= i < |es| && es[i] == fs[0];
    var j :| 0 <= j < |fs| && fs[j] == es[0];
    BeforeIsStrictTotalOrder(parse, es[0].version, fs[0].version, es[0].version);
  }

  lemma TailCounts(es: seq<Entry>)
    requires es != []
    ensures multiset(es[1..]) == multiset(es) - multiset{es[0]}
  {
    assert es == [es[0]] + es[1..];
  }

  /** Two sorted lists of the same distinct versions are the same list. */
  lemma {:induction false} SortedUnique(parse: Parser, es: seq<Entry>, fs: seq<Entry>)
    requires Sorted(parse, es) && Sorted(parse, fs) && Distinct(es) && multiset(es) == multiset(fs)
    ensures es == fs
    decreases |es|
  {
    SameMembers(es, fs);
    if es != [] {
      SameHead(parse, es, fs);
      TailCounts(es);
      TailCounts(fs);
      SortedUnique(parse, es[1..], fs[1..]);
      assert es == [es[0]] + es[1..] && fs == [fs[0]] + fs[1..];
    }
  }

  // ----- merging -----

  /** The entry recorded for a version; the last one if it is recorded twice. */
  function Find(es: seq<Entry>, v: string): (r: Option<Entry>)
    ensures r.Some? ==> r.value in es && r.value.version == v
    ensures r.None? ==> forall i :: 0 <= i < |es| ==> es[i].version != v
  {
    if es == [] then None
    else if es[|es| - 1].version == v then Some(es[|es| - 1])
    else Find(es[..|es| - 1], v)
  }

  /** A listed version is written afresh; only a version in use inherits a recorded media type, and
      not when the index points it at a registry. */
  function FreshEntry(f: Fetched, had: Option<Entry>, used: bool): Entry {
    var mediaType := if f.mediaType == "" && f.ociRef == "" && used && had.Some? then had.value.mediaType else f.mediaType;
    Entry(f.version, f.ociRef, mediaType, f.reason, f.message, false)
  }

  function RemovedEntry(e: Entry): Entry {
    e.(reason := RemovedFromRepository, message := REMOVED_MESSAGE, reexamine := false)
  }

  function Listed(fetched: seq<Fetched>): set<string> {
    set f | f in fetched :: f.version
  }

  function FreshEntries(fetched: seq<Fetched>, current: seq<Entry>, inUse: set<string>): seq<Entry> {
    if fetched == [] then []
    else
      var f := fetched[|fetched| - 1];
      FreshEntries(fetched[..|fetched| - 1], current, inUse) + [FreshEntry(f, Find(current, f.version), f.version in inUse)]
  }

  /** What becomes of a recorded version that was not fetched. */
  function KeptEntry(e: Entry, listed: set<string>, inUse: set<string>, deferred: set<string>): Option<Entry> {
    if e.version in listed then None
    else if e.version in deferred then Some(e)
    else if e.version in inUse then Some(RemovedEntry(e))
    else None
  }

  function KeptEntries(current: seq<Entry>, listed: set<string>, inUse: set<string>, deferred: set<string>): seq<Entry> {
    if current == [] then []
    else
      var kept := KeptEntries(current[..|current| - 1], listed, inUse, deferred);
      var last := KeptEntry(current[|current| - 1], listed, inUse, deferred);
      if last.Some? then kept + [last.value] else kept
  }

  function Merge(parse: Parser, fetched: seq<Fetched>, current: seq<Entry>, inUse: set<string>, deferred: set<string>): seq<Entry> {
    Sort(parse, FreshEntries(fetched, current, inUse) + KeptEntries(current, Listed(fetched), inUse, deferred))
  }

  /** The versions recorded now; of several entries for one version the last counts. */
  method ByVersion(current: seq<Entry>) returns (byVersion: map<string, Entry>)
    ensures forall v :: (v in byVersion <==> Find(current, v).Some?) && (v in byVersion ==> Some(byVersion[v]) == Find(current, v))
  {
    byVersion := map[];
    for i := 0 to |current|
      invariant forall v :: (v in byVersion <==> Find(current[..i], v).Some?)
                            && (v in byVersion ==> Some(byVersion[v]) == Find(current[..i], v))
    {
      assert current[..i + 1][..i] == current[..i];
      byVersion := byVersion[current[i].version := current[i]];
    }
    assert current[..|current|] == current;
  }

  lemma ListedOneMore(fetched: seq<Fetched>, i: nat)
    requires i < |fetched|
    ensures Listed(fetched[..i + 1]) == Listed(fetched[..i]) + {fetched[i].version}
  {
    assert fetched[..i + 1] == fetched[..i] + [fetched[i]];
  }

  method WriteFetched(fetched: seq<Fetched>, current: seq<Entry>, inUse: set<string>) returns (merged: seq<Entry>, listed: set<string>)
    ensures merged == FreshEntries(fetched, current, inUse) && listed == Listed(fetched)
  {
    merged, listed := [], {};
    var currentByVersion := ByVersion(current);
    for i := 0 to |fetched|
      invariant merged == FreshEntries(fetched[..i], current, inUse) && listed == Listed(fetched[..i])
    {
      assert fetched[..i + 1][..i] == fetched[..i];
      ListedOneMore(fetched, i);
      var f := fetched[i];
      listed := listed + {f.version};
      var mediaType := f.mediaType;
      if mediaType == "" && f.ociRef == "" {
        if f.version in inUse {
          if f.version in currentByVersion && currentByVersion[f.version].mediaType != "" {
            mediaType := currentByVersion[f.version].mediaType;
          }
        }
      }
      merged := merged + [Entry(f.version, f.ociRef, mediaType, f.reason, f.message, false)];
    }
    assert fetched[..|fetched|] == fetched;
  }

  method KeepRecorded(written: seq<Entry>, current: seq<Entry>, listed: set<string>, inUse: set<string>, deferred: set<string>)
    returns (merged: seq<Entry>)
    ensures merged == written + KeptEntries(current, listed, inUse, deferred)
  {
    merged := written;
    for i := 0 to |current|
      invariant merged == written + KeptEntries(current[..i], listed, inUse, deferred)
    {
      assert current[..i + 1][..i] == current[..i];
      var e := current[i];
      if e.version in listed {
        continue;
      }
      if e.version in deferred {
        merged := merged + [e];
        continue;
      }
      if e.version !in inUse {
        continue;
      }
      merged := merged + [e.(reason := RemovedFromRepository, message := REMOVED_MESSAGE, reexamine := false)];
    }
    assert current[..|current|] == current;
  }

  method MergeChartVersions(parse: Parser, fetched: seq<Fetched>, current: seq<Entry>, inUse: set<string>, unexamined: seq<string>)
    returns (merged: seq<Entry>)
    ensures merged == Merge(parse, fetched, current, inUse, set v | v in unexamined)
  {
    var deferred: set<string> := {};
    for i := 0 to |unexamined|
      invariant deferred == set v | v in unexamined[..i]
    {
      deferred := deferred + {unexamined[i]};
    }
    assert unexamined[..|unexamined|] == unexamined;
    var written, listed := WriteFetched(fetched, current, inUse);
    merged := KeepRecorded(written, current, listed, inUse, deferred);
    merged := Sort(parse, merged);
  }

  // ----- what a merge means for one version -----

  predicate DistinctFetched(fs: seq<Fetched>) {
    forall i, j :: 0 <= i < j < |fs| ==> fs[i].version != fs[j].version
  }

  function FindFetched(fs: seq<Fetched>, v: string): (r: Option<Fetched>)
    ensures r.Some? ==> r.value in fs && r.value.version == v
    ensures r.None? ==> v !in Listed(fs)
  {
    if fs == [] then None
    else if fs[|fs| - 1].version == v then Some(fs[|fs| - 1])
    else FindFetched(fs[..|fs| - 1], v)
  }

  /** The rule of the merge, version by version. */
  function MergedVersion(f: Option<Fetched>, had: Option<Entry>, used: bool, deferred: bool): Option<Entry> {
    if f.Some? then Some(FreshEntry(f.value, had, used))
    else if had.Some? && deferred then had
    else if had.Some? && used then Some(RemovedEntry(had.value))
    else None
  }

  lemma FindDistinct(es: seq<Entry>, e: Entry)
    requires Distinct(es) && e in es
    ensures Find(es, e.version) == Some(e)
  {
    assert Find(es, e.version).Some?;
  }

  lemma FindAbsent(es: seq<Entry>, v: string)
    requires forall e :: e in es ==> e.version != v
    ensures Find(es, v) == None
  {
  }

  lemma FindFetchedDistinct(fs: seq<Fetched>, f: Fetched)
    requires DistinctFetched(fs) && f in fs
    ensures FindFetched(fs, f.version) == Some(f)
  {
    assert FindFetched(fs, f.version).Some?;
  }

  lemma {:induction false} FreshMembers(fetched: seq<Fetched>, current: seq<Entry>, inUse: set<string>)
    ensures var es := FreshEntries(fetched, current, inUse);
            && |es| == |fetched|
            && forall i :: 0 <= i < |es| ==>
                 es[i] == FreshEntry(fetched[i], Find(current, fetched[i].version), fetched[i].version in inUse)
    decreases |fetched|
  {
    if fetched != [] {
      FreshMembers(fetched[..|fetched| - 1], current, inUse);
    }
  }

  lemma {:induction false} KeptMembers(current: seq<Entry>, listed: set<string>, inUse: set<string>, deferred: set<string>)
    ensures forall e :: e in KeptEntries(current, listed, inUse, deferred) <==>
              exists c :: c in current && KeptEntry(c, listed, inUse, deferred) == Some(e)
    decreases |current|
  {
    if current != [] {
      var front, last := current[..|current| - 1], current[|current| - 1];
      KeptMembers(front, listed, inUse, deferred);
      forall c ensures c in current <==> c in front || c == last {
        assert current == front + [last];
      }
    }
  }

  lemma {:induction false} KeptDistinct(current: seq<Entry>, listed: set<string>, inUse: set<string>, deferred: set<string>)
    requires Distinct(current)
    ensures Distinct(KeptEntries(current, listed, inUse, deferred))
    decreases |current|
  {
    if current != [] {
      var front, last := current[..|current| - 1], current[|current| - 1];
      KeptDistinct(front, listed, inUse, deferred);
      KeptMembers(front, listed, inUse, deferred);
      forall e | e in KeptEntries(front, listed, inUse, deferred)
        ensures e.version != last.version
      {
        var c :| c in front && KeptEntry(c, listed, inUse, deferred) == Some(e);
        var i :| 0 <= i < |front| && front[i] == c;
        assert current[i].version != current[|current| - 1].version;
      }
    }
  }

  lemma ConcatDistinct(xs: seq<Entry>, ys: seq<Entry>)
    requires Distinct(xs) && Distinct(ys) && forall x, y :: x in xs && y in ys ==> x.version != y.version
    ensures Distinct(xs + ys)
  {
  }

  lemma FreshDistinct(fetched: seq<Fetched>, current: seq<Entry>, inUse: set<string>)
    requires DistinctFetched(fetched)
    ensures Distinct(FreshEntries(fetched, current, inUse))
  {
    FreshMembers(fetched, current, inUse);
  }

  /** Main result on one merge: version by version it follows the rule, and lists nothing twice. */
  lemma MergeMeaning(parse: Parser, fetched: seq<Fetched>, current: seq<Entry>, inUse: set<string>, deferred: set<string>)
    requires DistinctFetched(fetched) && Distinct(current)
    ensures Distinct(Merge(parse, fetched, current, inUse, deferred))
    ensures forall v :: Find(Merge(parse, fetched, current, inUse, deferred), v) ==
              MergedVersion(FindFetched(fetched, v), Find(current, v), v in inUse, v in deferred)
  {
    var listed := Listed(fetched);
    var xs, ys := FreshEntries(fetched, current, inUse), KeptEntries(current, listed, inUse, deferred);
    var merged := Merge(parse, fetched, current, inUse, deferred);
    FreshMembers(fetched, current, inUse);
    FreshDistinct(fetched, current, inUse);
    KeptMembers(current, listed, inUse, deferred);
    KeptDistinct(current, listed, inUse, deferred);
    ConcatDistinct(xs, ys);
    DistinctByMultiset(xs + ys, merged);
    MergeMembers(parse, fetched, current, inUse, deferred);
    forall v
      ensures Find(merged, v) == MergedVersion(FindFetched(fetched, v), Find(current, v), v in inUse, v in deferred)
    {
      MergedFind(fetched, current, inUse, deferred, merged, v);
    }
  }

  /** What a merged list is made of. */
  ghost predicate MadeOf(merged: seq<Entry>, fetched: seq<Fetched>, current: seq<Entry>, inUse: set<string>, deferred: set<string>) {
    forall e :: e in merged <==>
      || (exists f :: f in fetched && FreshEntry(f, Find(current, f.version), f.version in inUse) == e)
      || (exists c :: c in current && KeptEntry(c, Listed(fetched), inUse, deferred) == Some(e))
  }

  lemma FoundFresh(fetched: seq<Fetched>, current: seq<Entry>, inUse: set<string>, deferred: set<string>,
                   merged: seq<Entry>, f: Fetched)
    requires Distinct(merged) && MadeOf(merged, fetched, current, inUse, deferred) && f in fetched
    ensures Find(merged, f.version) == Some(FreshEntry(f, Find(current, f.version), f.version in inUse))
  {
    FindDistinct(merged, FreshEntry(f, Find(current, f.version), f.version in inUse));
  }

  lemma FoundKept(fetched: seq<Fetched>, current: seq<Entry>, inUse: set<string>, deferred: set<string>,
                  merged: seq<Entry>, c: Entry)
    requires Distinct(merged) && MadeOf(merged, fetched, current, inUse, deferred) && c in current
    requires KeptEntry(c, Listed(fetched), inUse, deferred).Some?
    ensures Find(merged, c.version) == KeptEntry(c, Listed(fetched), inUse, deferred)
  {
    FindDistinct(merged, KeptEntry(c, Listed(fetched), inUse, deferred).value);
  }

  lemma FoundNowhere(fetched: seq<Fetched>, current: seq<Entry>, inUse: set<string>, deferred: set<string>,
                     merged: seq<Entry>, v: string)
    requires MadeOf(merged, fetched, current, inUse, deferred) && v !in Listed(fetched)
    requires forall c :: c in current && c.version == v ==> KeptEntry(c, Listed(fetched), inUse, deferred).None?
    ensures Find(merged, v) == None
  {
    FindAbsent(merged, v);
  }

  lemma MergedFind(fetched: seq<Fetched>, current: seq<Entry>, inUse: set<string>, deferred: set<string>,
                   merged: seq<Entry>, v: string)
    requires Distinct(current) && Distinct(merged) && MadeOf(merged, fetched, current, inUse, deferred)
    ensures Find(merged, v) == MergedVersion(FindFetched(fetched, v), Find(current, v), v in inUse, v in deferred)
  {
    var f := FindFetched(fetched, v);
    if f.Some? {
      FoundFresh(fetched, current, inUse, deferred, merged, f.value);
    } else if Find(current, v).Some? {
      var c := Find(current, v).value;
      if KeptEntry(c, Listed(fetched), inUse, deferred).Some? {
        FoundKept(fetched, current, inUse, deferred, merged, c);
      } else {
        forall d | d in current && d.version == v
          ensures d == c
        {
          FindDistinct(current, d);
        }
        FoundNowhere(fetched, current, inUse, deferred, merged, v);
      }
    } else {
      FoundNowhere(fetched, current, inUse, deferred, merged, v);
    }
  }

  // ----- what follows for whole lists -----

  lemma SameFindings(es: seq<Entry>, fs: seq<Entry>)
    requires Distinct(es) && Distinct(fs) && forall v :: Find(es, v) == Find(fs, v)
    ensures multiset(es) == multiset(fs)
  {
    forall e
      ensures multiset(es)[e] == multiset(fs)[e]
    {
      assert (e in es <==> e in multiset(es)) && (e in fs <==> e in multiset(fs));
      assert Find(es, e.version) == Find(fs, e.version);
      if e in es {
        FindDistinct(es, e);
        DistinctCounts(es, e);
      }
      if e in fs {
        FindDistinct(fs, e);
        DistinctCounts(fs, e);
      }
    }
  }

  /** A catalog list is fixed by what it records for each version. */
  lemma CatalogIsItsFindings(parse: Parser, es: seq<Entry>, fs: seq<Entry>)
    requires Sorted(parse, es) && Sorted(parse, fs) && Distinct(es) && Distinct(fs)
    requires forall v :: Find(es, v) == Find(fs, v)
    ensures es == fs
  {
    SameFindings(es, fs);
    SortedUnique(parse, es, fs);
  }

  /** Merging the same fetch once more changes nothing. */
  lemma MergeIdempotent(parse: Parser, fetched: seq<Fetched>, current: seq<Entry>, inUse: set<string>, deferred: set<string>)
    requires DistinctFetched(fetched) && Distinct(current)
    ensures var merged := Merge(parse, fetched, current, inUse, deferred);
            Merge(parse, fetched, merged, inUse, deferred) == merged
  {
    var merged := Merge(parse, fetched, current, inUse, deferred);
    var again := Merge(parse, fetched, merged, inUse, deferred);
    MergeMeaning(parse, fetched, current, inUse, deferred);
    MergeMeaning(parse, fetched, merged, inUse, deferred);
    SortSorts(parse, FreshEntries(fetched, current, inUse) + KeptEntries(current, Listed(fetched), inUse, deferred));
    SortSorts(parse, FreshEntries(fetched, merged, inUse) + KeptEntries(merged, Listed(fetched), inUse, deferred));
    CatalogIsItsFindings(parse, again, merged);
  }

  /** The order either list came in does not matter. */
  lemma MergeIgnoresOrder(parse: Parser, fetched: seq<Fetched>, fetched': seq<Fetched>, current: seq<Entry>, current': seq<Entry>,
                          inUse: set<string>, deferred: set<string>)
    requires DistinctFetched(fetched) && DistinctFetched(fetched') && forall f :: f in fetched <==> f in fetched'
    requires Distinct(current) && Distinct(current') && forall e :: e in current <==> e in current'
    ensures Merge(parse, fetched, current, inUse, deferred) == Merge(parse, fetched', current', inUse, deferred)
  {
    MergeMeaning(parse, fetched, current, inUse, deferred);
    MergeMeaning(parse, fetched', current', inUse, deferred);
    SortSorts(parse, FreshEntries(fetched, current, inUse) + KeptEntries(current, Listed(fetched), inUse, deferred));
    SortSorts(parse, FreshEntries(fetched', current', inUse) + KeptEntries(current', Listed(fetched'), inUse, deferred));
    forall v
      ensures FindFetched(fetched, v) == FindFetched(fetched', v) && Find(current, v) == Find(current', v)
    {
      FindFetchedSame(fetched, fetched', v);
      FindSame(current, current', v);
    }
    CatalogIsItsFindings(parse, Merge(parse, fetched, current, inUse, deferred), Merge(parse, fetched', current', inUse, deferred));
  }

  lemma FindSame(es: seq<Entry>, fs: seq<Entry>, v: string)
    requires Distinct(es) && Distinct(fs) && forall e :: e in es <==> e in fs
    ensures Find(es, v) == Find(fs, v)
  {
    if Find(es, v).Some? {
      FindDistinct(fs, Find(es, v).value);
    } else {
      assert forall e :: e in fs ==> e.version != v;
      FindAbsent(fs, v);
    }
  }

  lemma FindFetchedSame(es: seq<Fetched>, fs: seq<Fetched>, v: string)
    requires DistinctFetched(es) && DistinctFetched(fs) && forall f :: f in es <==> f in fs
    ensures FindFetched(es, v) == FindFetched(fs, v)
  {
    if FindFetched(es, v).Some? {
      FindFetchedDistinct(fs, FindFetched(es, v).value);
    } else {
      assert v !in Listed(fs);
    }
  }

  lemma FreshByFetch(fetched: seq<Fetched>, current: seq<Entry>, inUse: set<string>)
    ensures forall e :: e in FreshEntries(fetched, current, inUse) <==>
              exists f :: f in fetched && FreshEntry(f, Find(current, f.version), f.version in inUse) == e
  {
    var xs := FreshEntries(fetched, current, inUse);
    FreshMembers(fetched, current, inUse);
    forall e | e in xs
      ensures exists f :: f in fetched && FreshEntry(f, Find(current, f.version), f.version in inUse) == e
    {
      var i :| 0 <= i < |xs| && xs[i] == e;
      assert fetched[i] in fetched;
    }
    forall f | f in fetched
      ensures FreshEntry(f, Find(current, f.version), f.version in inUse) in xs
    {
      var i :| 0 <= i < |fetched| && fetched[i] == f;
      assert xs[i] in xs;
    }
  }

  /** Membership in a merge, duplicate versions or not. */
  lemma MergeMembers(parse: Parser, fetched: seq<Fetched>, current: seq<Entry>, inUse: set<string>, deferred: set<string>)
    ensures MadeOf(Merge(parse, fetched, current, inUse, deferred), fetched, current, inUse, deferred)
  {
    var xs, ys := FreshEntries(fetched, current, inUse), KeptEntries(current, Listed(fetched), inUse, deferred);
    FreshByFetch(fetched, current, inUse);
    KeptMembers(current, Listed(fetched), inUse, deferred);
    SameMembers(xs + ys, Merge(parse, fetched, current, inUse, deferred));
  }
}

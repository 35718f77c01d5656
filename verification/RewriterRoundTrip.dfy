/** Whole objects and lists come back as they were, from either side. */
module RewriterRoundTrip {
  import opened Basics
  import opened RewriterText
  import opened RewriterNames
  import opened RewriterMaps
  import opened RewriterJson
  import opened RewriterRules
  import opened RewriterObjects
  import opened RewriterFields
  import RewriterShipped

  // ----- an object's rewriting as edits apart from each other -----

  function TypeEdits(r: Rules, a: Action): seq<Edit> {
    [Edit(["apiVersion"], VersionChange(r, a)), Edit(["kind"], KindChange(r, a)),
     Edit(["metadata", "managedFields"], ManagedChange(r, a))]
  }

  function RefEdits(r: Rules, a: Action, paths: seq<Path>): (es: seq<Edit>)
    ensures |es| == |paths| && forall i :: 0 <= i < |es| ==> es[i] == Edit(paths[i], RefChange(r, a))
  {
    seq(|paths|, i requires 0 <= i < |paths| => Edit(paths[i], RefChange(r, a)))
  }

  function MetaEdits(r: Rules, a: Action): seq<Edit> {
    [Edit(["labels"], MapChange(r.labels, a)), Edit(["annotations"], MapChange(r.annotations, a)),
     Edit(["finalizers"], ListChange(r.finalizers, a)), Edit(["ownerReferences"], OwnersChange(r, a))]
  }

  function ItemEdits(r: Rules, a: Action, paths: seq<Path>): seq<Edit> {
    TypeEdits(r, a) + RefEdits(r, a, paths) + Under("metadata", MetaEdits(r, a))
  }

  predicate Typed(j: Json) {
    && j.Obj? && "apiVersion" in j.fields && j.fields["apiVersion"].Str?
    && "kind" in j.fields && j.fields["kind"].Str?
  }

  lemma EditsOne(j: Json, e: Edit)
    ensures Edits(j, [e]) == At(j, e.path, e.change)
  {
    assert [e][1..] == [];
    assert Edits(At(j, e.path, e.change), []) == At(j, e.path, e.change);
  }

  lemma EditsCons(j: Json, e: Edit, es: seq<Edit>)
    ensures Edits(j, [e] + es) == Edits(At(j, e.path, e.change), es)
  {
    assert ([e] + es)[1..] == es && ([e] + es)[0] == e;
  }

  lemma SetIsAt(j: Json, k: string, f: Change)
    requires j.Obj? && k in j.fields
    ensures At(j, [k], f) == SetField(j, k, f(j.fields[k]))
  {
    assert [k][1..] == [] && [k][0] == k;
    assert At(j.fields[k], [], f) == f(j.fields[k]);
  }

  lemma TypeMetaIsEdits(r: Rules, a: Action, j: Json)
    requires Typed(j)
    ensures RewriteTypeMeta(r, a, j) == At(At(j, ["apiVersion"], VersionChange(r, a)), ["kind"], KindChange(r, a))
  {
    SetIsAt(j, "apiVersion", VersionChange(r, a));
    var j1 := At(j, ["apiVersion"], VersionChange(r, a));
    SetIsAt(j1, "kind", KindChange(r, a));
  }

  lemma ResourceIsEdits(r: Rules, a: Action, j: Json)
    requires Typed(j)
    ensures RewriteResource(r, a, j) == Edits(j, TypeEdits(r, a))
  {
    TypeMetaIsEdits(r, a, j);
    var e0, e1, e2 := TypeEdits(r, a)[0], TypeEdits(r, a)[1], TypeEdits(r, a)[2];
    assert TypeEdits(r, a) == [e0] + ([e1] + [e2]);
    EditsCons(j, e0, [e1] + [e2]);
    EditsCons(At(j, e0.path, e0.change), e1, [e2]);
    EditsOne(At(At(j, e0.path, e0.change), e1.path, e1.change), e2);
  }

  lemma {:induction false} RefsAreEdits(r: Rules, a: Action, j: Json, paths: seq<Path>)
    ensures RewriteRefsAt(r, a, j, paths) == Edits(j, RefEdits(r, a, paths))
    decreases |paths|
  {
    if paths != [] {
      RefsAreEdits(r, a, At(j, paths[0], RefChange(r, a)), paths[1..]);
      assert RefEdits(r, a, paths)[1..] == RefEdits(r, a, paths[1..]);
    }
  }

  lemma MetadataIsEdits(r: Rules, a: Action, m: Json)
    ensures RewriteMetadata(r, a, m) == Edits(m, MetaEdits(r, a))
  {
    var es := MetaEdits(r, a);
    assert es == [es[0]] + ([es[1]] + ([es[2]] + [es[3]]));
    EditsCons(m, es[0], [es[1]] + ([es[2]] + [es[3]]));
    var m1 := At(m, es[0].path, es[0].change);
    EditsCons(m1, es[1], [es[2]] + [es[3]]);
    var m2 := At(m1, es[1].path, es[1].change);
    EditsCons(m2, es[2], [es[3]]);
    EditsOne(At(m2, es[2].path, es[2].change), es[3]);
  }

  lemma {:induction false} EditsNeedObject(j: Json, es: seq<Edit>)
    requires !j.Obj? && forall i :: 0 <= i < |es| ==> es[i].path != []
    ensures Edits(j, es) == j
    decreases |es|
  {
    if es != [] {
      assert forall i :: 0 <= i < |es[1..]| ==> es[1..][i] == es[i + 1];
      EditsNeedObject(j, es[1..]);
    }
  }

  lemma MetadataInside(r: Rules, a: Action, j: Json)
    ensures At(j, ["metadata"], MetadataChange(r, a)) == Edits(j, Under("metadata", MetaEdits(r, a)))
  {
    var g := (x: Json) => Edits(x, MetaEdits(r, a));
    if Content(j, ["metadata"]).Some? {
      var m := Content(j, ["metadata"]).value;
      if m.Obj? {
        MetadataIsEdits(r, a, m);
      } else {
        EditsNeedObject(m, MetaEdits(r, a));
      }
      assert MetadataChange(r, a)(m) == g(m);
    }
    AtSame(j, ["metadata"], MetadataChange(r, a), g);
    EditsInside(j, "metadata", MetaEdits(r, a));
  }

  function RewriteItem(r: Rules, a: Action, j: Json): Json {
    RewriteCommon(r, a, RewriteResource(r, a, j))
  }

  lemma ItemIsEdits(r: Rules, a: Action, j: Json)
    requires Typed(j)
    ensures RewriteItem(r, a, j) == Edits(j, ItemEdits(r, a, RefPaths(r, RewriteResource(r, a, j))))
  {
    var j1 := RewriteResource(r, a, j);
    var paths := RefPaths(r, j1);
    ResourceIsEdits(r, a, j);
    RefsAreEdits(r, a, j1, paths);
    MetadataInside(r, a, RewriteSpecKindRefs(r, a, j1));
    EditsJoin(j, TypeEdits(r, a), RefEdits(r, a, paths));
    EditsJoin(j, TypeEdits(r, a) + RefEdits(r, a, paths), Under("metadata", MetaEdits(r, a)));
  }

  // ----- which references an object holds -----

  function ClientKind(r: Rules, a: Action, j: Json): string {
    if a.ToServer? then TextOf(j, "kind") else RestoreKind(r, TextOf(j, "kind"))
  }

  function ClientVersion(r: Rules, a: Action, j: Json): string {
    if a.ToServer? then TextOf(j, "apiVersion") else RestoreApiVersion(r, TextOf(j, "apiVersion"))
  }

  /** Kind and API version belong to the side the object is rewritten from. */
  predicate OwnType(r: Rules, a: Action, j: Json) {
    && Typed(j) && TextOf(j, "apiVersion") != ""
    && OwnVersion(r, a, TextOf(j, "apiVersion")) && OwnKind(r, a, TextOf(j, "kind"))
    && !HasPrefix(ClientKind(r, a, j), r.kindPrefix)
  }

  function PathsFor(r: Rules, kind: string, apiVersion: string): seq<Path> {
    if kind !in r.kindRefPaths || !HasKindRule(r, apiVersion, kind) then [] else r.kindRefPaths[kind]
  }

  lemma OriginalStays(r: Rules, v: string)
    requires GroupOf(v) !in r.groupsBack
    ensures RestoreApiVersion(r, v) == v
  {
  }

  /** Rewriting the type gives the other side its own, with the same client kind and version. */
  lemma TypeRewritten(r: Rules, a: Action, j: Json, j': Json)
    requires RulesOk(r) && OwnType(r, a, j) && Typed(j')
    requires TextOf(j', "kind") == KindFor(r, a, TextOf(j, "kind"))
    requires TextOf(j', "apiVersion") == ApiVersionFor(r, a, TextOf(j, "apiVersion"))
    ensures OwnType(r, Opposite(a), j')
    ensures ClientKind(r, Opposite(a), j') == ClientKind(r, a, j) && ClientVersion(r, Opposite(a), j') == ClientVersion(r, a, j)
    ensures RefPaths(r, j') == PathsFor(r, ClientKind(r, a, j), ClientVersion(r, a, j))
  {
    var k, v := TextOf(j, "kind"), TextOf(j, "apiVersion");
    KindRoundTrip(r, k);
    ApiVersionRoundTripIff(r, v);
    GroupRewritten(r, v);
    VersionStays(r, a, v);
    var g := GroupOf(v);
    if g in r.groups {
      assert GroupOk(r, g);
    }
    if g in r.groupsBack {
      assert GroupOk(r, r.groupsBack[g]);
    }
    if a.ToClient? {
      OriginalStays(r, RestoreApiVersion(r, v));
    }
  }

  lemma ResourceTexts(r: Rules, a: Action, j: Json)
    requires Typed(j)
    ensures var j' := RewriteResource(r, a, j);
            && Typed(j') && TextOf(j', "kind") == KindFor(r, a, TextOf(j, "kind"))
            && TextOf(j', "apiVersion") == ApiVersionFor(r, a, TextOf(j, "apiVersion"))
  {
  }

  // ----- what an object must hold to come back -----

  predicate OwnRef(r: Rules, a: Action, x: Json) {
    x.Obj? ==> OwnKindRef(r, a, x)
  }

  predicate OwnOwners(r: Rules, a: Action, x: Json) {
    x.Arr? ==> forall i :: 0 <= i < |x.items| ==> OwnGVK(r, a, x.items[i])
  }

  /** The metadata speaks of one side only: managed fields, labels, annotations, finalizers, owners. */
  predicate OwnMetadata(r: Rules, a: Action, j: Json) {
    var at := (k: string) => Content(j, ["metadata", k]);
    && (at("managedFields").Some? ==> OwnManaged(r, a, at("managedFields").value))
    && (at("labels").Some? ==> OwnMap(r.labels, a, at("labels").value))
    && (at("annotations").Some? ==> OwnMap(r.annotations, a, at("annotations").value))
    && (at("finalizers").Some? ==> OwnList(r.finalizers, a, at("finalizers").value))
    && (at("ownerReferences").Some? ==> OwnOwners(r, a, at("ownerReferences").value))
  }

  /** And so do the references at the given paths. */
  predicate OwnRefs(r: Rules, a: Action, j: Json, paths: seq<Path>) {
    forall i :: 0 <= i < |paths| && Content(j, paths[i]).Some? ==> OwnRef(r, a, Content(j, paths[i]).value)
  }

  predicate OwnItem(r: Rules, a: Action, j: Json) {
    OwnType(r, a, j) && OwnMetadata(r, a, j) && OwnRefs(r, a, j, PathsFor(r, ClientKind(r, a, j), ClientVersion(r, a, j)))
  }

  // ----- the edits are apart and undo each other -----

  lemma UndoesJoin(j: Json, es: seq<Edit>, fs: seq<Edit>, es': seq<Edit>, fs': seq<Edit>)
    requires Undoes(j, es, fs) && Undoes(j, es', fs')
    ensures Undoes(j, es + es', fs + fs')
  {
    forall i | 0 <= i < |es + es'|
      ensures (es + es')[i].path == (fs + fs')[i].path
      ensures Content(j, (es + es')[i].path).Some? ==>
                (fs + fs')[i].change((es + es')[i].change(Content(j, (es + es')[i].path).value)) == Content(j, (es + es')[i].path).value
    {
      if i < |es| {
        assert (es + es')[i] == es[i] && (fs + fs')[i] == fs[i];
      } else {
        assert (es + es')[i] == es'[i - |es|] && (fs + fs')[i] == fs'[i - |es|];
      }
    }
  }

  lemma ApartJoin(es: seq<Edit>, fs: seq<Edit>)
    requires EditsApart(es) && EditsApart(fs)
    requires forall i, k :: 0 <= i < |es| && 0 <= k < |fs| ==> Diverge(es[i].path, fs[k].path)
    ensures EditsApart(es + fs)
  {
    forall i, k | 0 <= i < k < |es + fs|
      ensures Diverge((es + fs)[i].path, (es + fs)[k].path)
    {
      if k < |es| {
        assert (es + fs)[i] == es[i] && (es + fs)[k] == es[k];
      } else if i < |es| {
        assert (es + fs)[i] == es[i] && (es + fs)[k] == fs[k - |es|];
      } else {
        assert (es + fs)[i] == fs[i - |es|] && (es + fs)[k] == fs[k - |es|];
      }
    }
  }

  lemma DivergeAt(p: Path, q: Path, i: nat)
    requires i < |p| && i < |q| && p[i] != q[i]
    ensures Diverge(p, q)
  {
  }

  lemma TypeApart(r: Rules, a: Action)
    ensures EditsApart(TypeEdits(r, a))
  {
    DivergeAt(["apiVersion"], ["kind"], 0);
    DivergeAt(["apiVersion"], ["metadata", "managedFields"], 0);
    DivergeAt(["kind"], ["metadata", "managedFields"], 0);
  }

  lemma MetaApart(r: Rules, a: Action)
    ensures EditsApart(Under("metadata", MetaEdits(r, a)))
  {
    var es := Under("metadata", MetaEdits(r, a));
    assert es[0].path == ["metadata", "labels"] && es[1].path == ["metadata", "annotations"];
    assert es[2].path == ["metadata", "finalizers"] && es[3].path == ["metadata", "ownerReferences"];
    DivergeAt(es[0].path, es[1].path, 1);
    DivergeAt(es[0].path, es[2].path, 1);
    DivergeAt(es[0].path, es[3].path, 1);
    DivergeAt(es[1].path, es[2].path, 1);
    DivergeAt(es[1].path, es[3].path, 1);
    DivergeAt(es[2].path, es[3].path, 1);
  }

  lemma ItemApart(r: Rules, a: Action, paths: seq<Path>)
    requires PathsOk(paths)
    ensures EditsApart(ItemEdits(r, a, paths))
  {
    var ts, rs, ms := TypeEdits(r, a), RefEdits(r, a, paths), Under("metadata", MetaEdits(r, a));
    TypeApart(r, a);
    MetaApart(r, a);
    assert ts[0].path[0] == "apiVersion" && ts[1].path[0] == "kind" && ts[2].path[0] == "metadata";
    forall i, k | 0 <= i < |ts| && 0 <= k < |rs|
      ensures Diverge(ts[i].path, rs[k].path)
    {
      DivergeAt(ts[i].path, rs[k].path, 0);
    }
    ApartJoin(ts, rs);
    forall i, k | 0 <= i < |ts + rs| && 0 <= k < |ms|
      ensures Diverge((ts + rs)[i].path, ms[k].path)
    {
      MetaDiverges(r, a, (ts + rs)[i].path, k);
    }
    ApartJoin(ts + rs, ms);
  }

  lemma MetaDiverges(r: Rules, a: Action, p: Path, k: nat)
    requires k < 4 && (p == ["apiVersion"] || p == ["kind"] || p == ["metadata", "managedFields"] || (|p| > 1 && p[0] == "spec"))
    ensures Diverge(p, Under("metadata", MetaEdits(r, a))[k].path)
  {
    var q := Under("metadata", MetaEdits(r, a))[k].path;
    assert |q| == 2 && q[0] == "metadata" && q[1] == MetaEdits(r, a)[k].path[0];
    if p == ["metadata", "managedFields"] {
      DivergeAt(p, q, 1);
    } else {
      DivergeAt(p, q, 0);
    }
  }

  lemma TextUndone(j: Json, k: string, f: Change, g: Change)
    requires Typed(j) && (k == "apiVersion" || k == "kind") && g(f(j.fields[k])) == j.fields[k]
    ensures Content(j, [k]).Some? && g(f(Content(j, [k]).value)) == Content(j, [k]).value
  {
    TopContent(j, k);
  }

  /** The version, the kind and one more place, each undone. */
  lemma TypedUndone(j: Json, f: Change, f': Change, g: Change, g': Change, p: Path, h: Change, h': Change)
    requires Typed(j) && f'(f(j.fields["apiVersion"])) == j.fields["apiVersion"] && g'(g(j.fields["kind"])) == j.fields["kind"]
    requires Content(j, p).Some? ==> h'(h(Content(j, p).value)) == Content(j, p).value
    ensures Undoes(j, [Edit(["apiVersion"], f), Edit(["kind"], g), Edit(p, h)], [Edit(["apiVersion"], f'), Edit(["kind"], g'), Edit(p, h')])
  {
    TextUndone(j, "apiVersion", f, f');
    TextUndone(j, "kind", g, g');
  }

  lemma TypeUndone(r: Rules, a: Action, j: Json)
    requires RulesOk(r) && OwnType(r, a, j) && OwnMetadata(r, a, j)
    ensures Undoes(j, TypeEdits(r, a), TypeEdits(r, Opposite(a)))
  {
    var b := Opposite(a);
    TopUndone(r, a, j);
    var managed := Content(j, ["metadata", "managedFields"]);
    if managed.Some? {
      ManagedUndone(r, a, managed.value);
    }
    TypedUndone(j, VersionChange(r, a), VersionChange(r, b), KindChange(r, a), KindChange(r, b),
                ["metadata", "managedFields"], ManagedChange(r, a), ManagedChange(r, b));
  }

  lemma RefsUndone(r: Rules, a: Action, j: Json, paths: seq<Path>)
    requires RulesOk(r) && OwnRefs(r, a, j, paths)
    ensures Undoes(j, RefEdits(r, a, paths), RefEdits(r, Opposite(a), paths))
  {
    forall i | 0 <= i < |paths| && Content(j, paths[i]).Some?
      ensures RefChange(r, Opposite(a))(RefChange(r, a)(Content(j, paths[i]).value)) == Content(j, paths[i]).value
    {
      RefUndone(r, a, Content(j, paths[i]).value);
    }
  }

  lemma RefUndone(r: Rules, a: Action, x: Json)
    requires RulesOk(r) && OwnRef(r, a, x)
    ensures RefChange(r, Opposite(a))(RefChange(r, a)(x)) == x
  {
    if x.Obj? {
      KindRefUndone(r, a, x);
      RefStaysObject(r, a, x);
    }
  }

  lemma RefStaysObject(r: Rules, a: Action, x: Json)
    requires x.Obj?
    ensures RewriteKindRef(r, a, x).Obj?
  {
  }

  lemma OwnersUndone(r: Rules, a: Action, x: Json)
    requires RulesOk(r) && OwnOwners(r, a, x)
    ensures OwnersChange(r, Opposite(a))(OwnersChange(r, a)(x)) == x
  {
    if x.Arr? {
      forall i | 0 <= i < |x.items|
        ensures GVKChange(r, Opposite(a))(GVKChange(r, a)(x.items[i])) == x.items[i]
      {
        GVKUndone(r, a, x.items[i]);
      }
    }
    RewriterJson.ItemsUndone(x, GVKChange(r, a), GVKChange(r, Opposite(a)));
  }

  lemma MetaUndone(r: Rules, a: Action, j: Json)
    requires RulesOk(r) && OwnMetadata(r, a, j)
    ensures Undoes(j, Under("metadata", MetaEdits(r, a)), Under("metadata", MetaEdits(r, Opposite(a))))
  {
    var es, fs := Under("metadata", MetaEdits(r, a)), Under("metadata", MetaEdits(r, Opposite(a)));
    forall i | 0 <= i < |es| && Content(j, es[i].path).Some?
      ensures fs[i].change(es[i].change(Content(j, es[i].path).value)) == Content(j, es[i].path).value
    {
      MetaPartUndone(r, a, j, i);
    }
  }

  lemma MetaPartUndone(r: Rules, a: Action, j: Json, i: nat)
    requires RulesOk(r) && OwnMetadata(r, a, j) && i < 4
    requires Content(j, ["metadata"] + MetaEdits(r, a)[i].path).Some?
    ensures var c := Content(j, ["metadata"] + MetaEdits(r, a)[i].path).value;
            MetaEdits(r, Opposite(a))[i].change(MetaEdits(r, a)[i].change(c)) == c
  {
    var p := MetaEdits(r, a)[i].path;
    var c := Content(j, ["metadata"] + p).value;
    assert ["metadata"] + p == ["metadata", p[0]];
    if i == 0 {
      MapUndone(r.labels, a, c);
    } else if i == 1 {
      MapUndone(r.annotations, a, c);
    } else if i == 2 {
      ListUndone(r.finalizers, a, c);
    } else {
      OwnersUndone(r, a, c);
    }
  }

  lemma ItemUndoes(r: Rules, a: Action, j: Json, paths: seq<Path>)
    requires RulesOk(r) && OwnType(r, a, j) && OwnMetadata(r, a, j) && OwnRefs(r, a, j, paths)
    ensures Undoes(j, ItemEdits(r, a, paths), ItemEdits(r, Opposite(a), paths))
  {
    var b := Opposite(a);
    TypeUndone(r, a, j);
    RefsUndone(r, a, j, paths);
    MetaUndone(r, a, j);
    UndoesJoin(j, TypeEdits(r, a), TypeEdits(r, b), RefEdits(r, a, paths), RefEdits(r, b, paths));
    UndoesJoin(j, TypeEdits(r, a) + RefEdits(r, a, paths), TypeEdits(r, b) + RefEdits(r, b, paths),
               Under("metadata", MetaEdits(r, a)), Under("metadata", MetaEdits(r, b)));
  }

  // ----- one item -----

  lemma PathsForOk(r: Rules, kind: string, apiVersion: string)
    requires RulesOk(r)
    ensures PathsOk(PathsFor(r, kind, apiVersion))
  {
  }

  lemma CommonKeepsTop(r: Rules, a: Action, j: Json, k: string)
    requires PathsOk(RefPaths(r, j)) && k != "spec" && k != "metadata"
    ensures Content(RewriteCommon(r, a, j), [k]) == Content(j, [k])
  {
    var paths := RefPaths(r, j);
    var es := RefEdits(r, a, paths) + Under("metadata", MetaEdits(r, a));
    RefsAreEdits(r, a, j, paths);
    MetadataInside(r, a, RewriteSpecKindRefs(r, a, j));
    EditsJoin(j, RefEdits(r, a, paths), Under("metadata", MetaEdits(r, a)));
    forall i | 0 <= i < |es|
      ensures Diverge(es[i].path, [k])
    {
      assert es[i].path[0] == "spec" || es[i].path[0] == "metadata";
      DivergeAt(es[i].path, [k], 0);
    }
    ContentAfterEdits(j, es, [k]);
  }

  /** Rewriting an item leaves its type rewritten and nothing else of its type. */
  lemma ItemTexts(r: Rules, a: Action, j: Json)
    requires RulesOk(r) && OwnType(r, a, j)
    ensures var j' := RewriteItem(r, a, j);
            && Typed(j') && TextOf(j', "kind") == KindFor(r, a, TextOf(j, "kind"))
            && TextOf(j', "apiVersion") == ApiVersionFor(r, a, TextOf(j, "apiVersion"))
  {
    var j1 := RewriteResource(r, a, j);
    ResourceTexts(r, a, j);
    TypeRewritten(r, a, j, j1);
    PathsForOk(r, ClientKind(r, a, j), ClientVersion(r, a, j));
    CommonKeepsTop(r, a, j1, "apiVersion");
    CommonKeepsTop(r, a, j1, "kind");
    SameTop(j1, RewriteItem(r, a, j));
  }

  lemma SameTop(j: Json, j': Json)
    requires Typed(j) && Content(j', ["apiVersion"]) == Content(j, ["apiVersion"]) && Content(j', ["kind"]) == Content(j, ["kind"])
    ensures Typed(j') && TextOf(j', "apiVersion") == TextOf(j, "apiVersion") && TextOf(j', "kind") == TextOf(j, "kind")
  {
    TopContent(j, "apiVersion");
    TopContent(j, "kind");
    TopContent(j', "apiVersion");
    TopContent(j', "kind");
  }

  lemma TopContent(j: Json, k: string)
    ensures Content(j, [k]) == if j.Obj? && k in j.fields then Some(j.fields[k]) else None
  {
    assert [k][1..] == [];
    if j.Obj? && k in j.fields {
      assert Content(j.fields[k], []) == Some(j.fields[k]);
    }
  }

  /** An item comes back as it was. */
  lemma ItemRoundTrip(r: Rules, a: Action, j: Json)
    requires RulesOk(r) && OwnItem(r, a, j)
    ensures RewriteItem(r, Opposite(a), RewriteItem(r, a, j)) == j
  {
    var b := Opposite(a);
    var j' := RewriteItem(r, a, j);
    var paths := PathsFor(r, ClientKind(r, a, j), ClientVersion(r, a, j));
    ResourceTexts(r, a, j);
    TypeRewritten(r, a, j, RewriteResource(r, a, j));
    ItemIsEdits(r, a, j);
    ItemTexts(r, a, j);
    TypeRewritten(r, a, j, j');
    ResourceTexts(r, b, j');
    TypeRewritten(r, b, j', RewriteResource(r, b, j'));
    ItemIsEdits(r, b, j');
    PathsForOk(r, ClientKind(r, a, j), ClientVersion(r, a, j));
    ItemApart(r, a, paths);
    ItemUndoes(r, a, j, paths);
    EditsUndone(j, ItemEdits(r, a, paths), ItemEdits(r, b, paths));
  }

  // ----- payloads -----

  /** Neither the kind nor what it is rewritten to has a rewriter of its own. */
  predicate NoneOfTheirOwn(r: Rules, own: Dispatch, a: Action, j: Json) {
    TextOf(j, "kind") !in own && KindFor(r, a, TextOf(j, "kind")) !in own
  }

  /** A single custom resource whose kind has a rule. */
  predicate RuledItem(r: Rules, own: Dispatch, a: Action, j: Json) {
    && OwnItem(r, a, j) && NoneOfTheirOwn(r, own, a, j)
    && HasKindRule(r, ClientVersion(r, a, j), ClientKind(r, a, j)) && !HasListKind(r, ClientVersion(r, a, j), ClientKind(r, a, j))
    && (a.ToClient? ==> IsRenamedGroup(r, TextOf(j, "apiVersion")))
  }

  /** Under the shipped rules no object of a kind that has a rule takes another path. */
  lemma ShippedTakesTheCommonPath(own: Dispatch, a: Action, j: Json)
    requires forall k :: k in own ==> RewriterShipped.HasOwnRewriter(k)
    requires var r := RewriterShipped.SHIPPED; OwnType(r, a, j) && HasKindRule(r, ClientVersion(r, a, j), ClientKind(r, a, j))
    ensures NoneOfTheirOwn(RewriterShipped.SHIPPED, own, a, j)
  {
    var r := RewriterShipped.SHIPPED;
    RewriterShipped.ShippedKindsAreCommon(ClientVersion(r, a, j), ClientKind(r, a, j));
    KindRoundTrip(r, TextOf(j, "kind"));
  }

  lemma SingleKind(r: Rules, v: string, k: string)
    requires RulesOk(r) && HasKindRule(r, v, k) && !HasListKind(r, v, k)
    ensures !HasSuffix(k, "List") && !HasSuffix(RenameKind(r, k), "List")
  {
    var g := GroupOf(v);
    var p :| p in r.groups[g].resources && (r.groups[g].resources[p].kind == k || r.groups[g].resources[p].listKind == k);
    assert ResourceOk(r, r.groups[g].resources[p]);
    assert r.groups[g].resources[p].kind == k;
  }

  lemma ListKind(r: Rules, v: string, k: string)
    requires RulesOk(r) && HasListKind(r, v, k)
    ensures HasSuffix(k, "List") && HasSuffix(RenameKind(r, k), "List") && HasKindRule(r, v, k)
  {
    var g := GroupOf(v);
    var p :| p in r.groups[g].resources && r.groups[g].resources[p].listKind == k;
    assert ResourceOk(r, r.groups[g].resources[p]);
  }

  lemma SinglePayload(r: Rules, own: Dispatch, a: Action, j: Json)
    requires RulesOk(r) && OwnType(r, a, j) && TextOf(j, "kind") !in own
    requires HasKindRule(r, ClientVersion(r, a, j), ClientKind(r, a, j)) && !HasListKind(r, ClientVersion(r, a, j), ClientKind(r, a, j))
    requires a.ToClient? ==> IsRenamedGroup(r, TextOf(j, "apiVersion"))
    ensures RewritePayload(r, own, a, j) == RewriteItem(r, a, j)
  {
    SingleKind(r, ClientVersion(r, a, j), ClientKind(r, a, j));
    ResourceTexts(r, a, j);
  }

  lemma GroupRenamed(r: Rules, j: Json)
    requires RulesOk(r) && OwnType(r, ToServer, j) && HasKindRule(r, TextOf(j, "apiVersion"), TextOf(j, "kind"))
    ensures IsRenamedGroup(r, RenameApiVersion(r, TextOf(j, "apiVersion")))
  {
    GroupRewritten(r, TextOf(j, "apiVersion"));
    assert GroupOk(r, GroupOf(TextOf(j, "apiVersion")));
  }

  /** Main result, one object: restoring what was renamed, and renaming what was restored, give the
      object back: API version, kind, managed fields, owners, finalizers, labels, annotations and kind
      references together. */
  lemma PayloadRoundTrip(r: Rules, own: Dispatch, a: Action, j: Json)
    requires RulesOk(r) && RuledItem(r, own, a, j)
    ensures RewritePayload(r, own, Opposite(a), RewritePayload(r, own, a, j)) == j
  {
    var j' := RewriteItem(r, a, j);
    SinglePayload(r, own, a, j);
    ItemTexts(r, a, j);
    TypeRewritten(r, a, j, j');
    if a.ToServer? {
      GroupRenamed(r, j);
    }
    SinglePayload(r, own, Opposite(a), j');
    ItemRoundTrip(r, a, j);
  }

  // ----- lists -----

  predicate OwnItems(r: Rules, a: Action, x: Json) {
    x.Arr? ==> forall i :: 0 <= i < |x.items| ==> OwnItem(r, a, x.items[i])
  }

  /** A list of custom resources whose kind has a rule; its items carry API version and kind. */
  predicate RuledList(r: Rules, own: Dispatch, a: Action, j: Json) {
    && OwnType(r, a, j) && NoneOfTheirOwn(r, own, a, j) && HasListKind(r, ClientVersion(r, a, j), ClientKind(r, a, j))
    && (a.ToClient? ==> IsRenamedGroup(r, TextOf(j, "apiVersion")))
    && (Content(j, ["items"]).Some? ==> OwnItems(r, a, Content(j, ["items"]).value))
  }

  function ItemsChange(r: Rules, a: Action): Change {
    x => EachItem(x, y => RewriteItem(r, a, y))
  }

  function ListEdits(r: Rules, a: Action): seq<Edit> {
    [Edit(["apiVersion"], VersionChange(r, a)), Edit(["kind"], KindChange(r, a)), Edit(["items"], ItemsChange(r, a))]
  }

  lemma ItemsTwice(r: Rules, a: Action, x: Json)
    ensures CommonsChange(r, a)(ResourcesChange(r, a)(x)) == ItemsChange(r, a)(x)
  {
  }

  /** The first stage of a list's rewriting: its own type, and the types of its items. */
  function TypedList(r: Rules, a: Action, j: Json): Json {
    At(RewriteTypeMeta(r, a, j), ["items"], ResourcesChange(r, a))
  }

  lemma ListFirst(r: Rules, a: Action, j: Json)
    requires RulesOk(r) && OwnType(r, a, j) && HasListKind(r, ClientVersion(r, a, j), ClientKind(r, a, j))
    requires a.ToClient? ==> IsRenamedGroup(r, TextOf(j, "apiVersion"))
    ensures RewriteCustomResourceOrList(r, a, j) == TypedList(r, a, j)
  {
    ListKind(r, ClientVersion(r, a, j), ClientKind(r, a, j));
  }

  lemma TypedListKind(r: Rules, a: Action, j: Json)
    requires Typed(j)
    ensures TextOf(TypedList(r, a, j), "kind") == KindFor(r, a, TextOf(j, "kind"))
  {
    var j1 := RewriteTypeMeta(r, a, j);
    DivergeAt(["items"], ["kind"], 0);
    ContentElsewhere(j1, ["items"], ResourcesChange(r, a), ["kind"]);
    TopContent(j1, "kind");
    TopContent(TypedList(r, a, j), "kind");
  }

  lemma ItemsInOne(r: Rules, a: Action, j: Json)
    ensures At(At(j, ["items"], ResourcesChange(r, a)), ["items"], CommonsChange(r, a)) == At(j, ["items"], ItemsChange(r, a))
  {
    var both := (x: Json) => CommonsChange(r, a)(ResourcesChange(r, a)(x));
    AtAgain(j, ["items"], ResourcesChange(r, a), CommonsChange(r, a));
    if Content(j, ["items"]).Some? {
      ItemsTwice(r, a, Content(j, ["items"]).value);
    }
    AtSame(j, ["items"], both, ItemsChange(r, a));
  }

  lemma ListPayload(r: Rules, own: Dispatch, a: Action, j: Json)
    requires RulesOk(r) && OwnType(r, a, j) && TextOf(j, "kind") !in own && HasListKind(r, ClientVersion(r, a, j), ClientKind(r, a, j))
    requires a.ToClient? ==> IsRenamedGroup(r, TextOf(j, "apiVersion"))
    ensures RewritePayload(r, own, a, j) == Edits(j, ListEdits(r, a))
  {
    ListFirst(r, a, j);
    TypedListKind(r, a, j);
    ListKind(r, ClientVersion(r, a, j), ClientKind(r, a, j));
    KindRoundTrip(r, TextOf(j, "kind"));
    assert RewritePayload(r, own, a, j) == At(TypedList(r, a, j), ["items"], CommonsChange(r, a));
    ItemsInOne(r, a, RewriteTypeMeta(r, a, j));
    TypeMetaIsEdits(r, a, j);
    ThreeEdits(j, ListEdits(r, a));
  }

  lemma ThreeEdits(j: Json, es: seq<Edit>)
    requires |es| == 3
    ensures Edits(j, es) == At(At(At(j, es[0].path, es[0].change), es[1].path, es[1].change), es[2].path, es[2].change)
  {
    assert es == [es[0]] + ([es[1]] + [es[2]]);
    EditsCons(j, es[0], [es[1]] + [es[2]]);
    EditsCons(At(j, es[0].path, es[0].change), es[1], [es[2]]);
    EditsOne(At(At(j, es[0].path, es[0].change), es[1].path, es[1].change), es[2]);
  }

  lemma ItemsUndone(r: Rules, a: Action, x: Json)
    requires RulesOk(r) && OwnItems(r, a, x)
    ensures ItemsChange(r, Opposite(a))(ItemsChange(r, a)(x)) == x
  {
    var f, g := ((y: Json) => RewriteItem(r, a, y)), ((y: Json) => RewriteItem(r, Opposite(a), y));
    if x.Arr? {
      forall i | 0 <= i < |x.items|
        ensures g(f(x.items[i])) == x.items[i]
      {
        ItemRoundTrip(r, a, x.items[i]);
      }
    }
    RewriterJson.ItemsUndone(x, f, g);
    assert ItemsChange(r, a)(x) == EachItem(x, f);
    assert ItemsChange(r, Opposite(a))(EachItem(x, f)) == EachItem(EachItem(x, f), g);
  }

  lemma TopUndone(r: Rules, a: Action, j: Json)
    requires RulesOk(r) && OwnType(r, a, j)
    ensures VersionChange(r, Opposite(a))(VersionChange(r, a)(j.fields["apiVersion"])) == j.fields["apiVersion"]
    ensures KindChange(r, Opposite(a))(KindChange(r, a)(j.fields["kind"])) == j.fields["kind"]
  {
    VersionUndone(r, a, TextOf(j, "apiVersion"));
    KindUndone(r, a, TextOf(j, "kind"));
  }

  lemma ListApart(r: Rules, a: Action)
    ensures EditsApart(ListEdits(r, a))
  {
    DivergeAt(["apiVersion"], ["kind"], 0);
    DivergeAt(["apiVersion"], ["items"], 0);
    DivergeAt(["kind"], ["items"], 0);
  }

  lemma ListUndoes(r: Rules, own: Dispatch, a: Action, j: Json)
    requires RulesOk(r) && RuledList(r, own, a, j)
    ensures Undoes(j, ListEdits(r, a), ListEdits(r, Opposite(a)))
  {
    var b := Opposite(a);
    TopUndone(r, a, j);
    if Content(j, ["items"]).Some? {
      ItemsUndone(r, a, Content(j, ["items"]).value);
    }
    TypedUndone(j, VersionChange(r, a), VersionChange(r, b), KindChange(r, a), KindChange(r, b),
                ["items"], ItemsChange(r, a), ItemsChange(r, b));
  }

  lemma ItemsLeaveType(j: Json, change: Change)
    requires Typed(j)
    ensures var j' := At(j, ["items"], change);
            Typed(j') && TextOf(j', "apiVersion") == TextOf(j, "apiVersion") && TextOf(j', "kind") == TextOf(j, "kind")
  {
    DivergeAt(["items"], ["kind"], 0);
    DivergeAt(["items"], ["apiVersion"], 0);
    ContentElsewhere(j, ["items"], change, ["kind"]);
    ContentElsewhere(j, ["items"], change, ["apiVersion"]);
    SameTop(j, At(j, ["items"], change));
  }

  lemma ListTexts(r: Rules, a: Action, j: Json)
    requires OwnType(r, a, j)
    ensures var j' := Edits(j, ListEdits(r, a));
            && Typed(j') && TextOf(j', "kind") == KindFor(r, a, TextOf(j, "kind"))
            && TextOf(j', "apiVersion") == ApiVersionFor(r, a, TextOf(j, "apiVersion"))
  {
    ThreeEdits(j, ListEdits(r, a));
    TypeMetaIsEdits(r, a, j);
    var j1 := RewriteTypeMeta(r, a, j);
    ItemsLeaveType(j1, ItemsChange(r, a));
  }

  /** Main result, a list: it comes back with all its items. */
  lemma ListRoundTrip(r: Rules, own: Dispatch, a: Action, j: Json)
    requires RulesOk(r) && RuledList(r, own, a, j)
    ensures RewritePayload(r, own, Opposite(a), RewritePayload(r, own, a, j)) == j
  {
    var j' := Edits(j, ListEdits(r, a));
    ListPayload(r, own, a, j);
    ListTexts(r, a, j);
    TypeRewritten(r, a, j, j');
    if a.ToServer? {
      ListKind(r, ClientVersion(r, a, j), ClientKind(r, a, j));
      GroupRenamed(r, j);
    }
    ListPayload(r, own, Opposite(a), j');
    ListUndoes(r, own, a, j);
    ListApart(r, a);
    EditsUndone(j, ListEdits(r, a), ListEdits(r, Opposite(a)));
  }
}

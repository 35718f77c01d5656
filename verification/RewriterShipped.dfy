/** The rules this repository ships are well formed. */
module RewriterShipped {
  import opened Basics
  import opened RewriterText
  import opened RewriterNames
  import opened RewriterMaps
  import opened RewriterJson
  import opened RewriterRules

  const SOURCE_GROUP := "source.toolkit.fluxcd.io"
  const HELM_GROUP := "helm.toolkit.fluxcd.io"
  const INTERNAL := "internal.operator-helm.deckhouse.io"
  const SOURCE_RENAMED := "source." + INTERNAL
  const HELM_RENAMED := "helm." + INTERNAL

  function Plain(original: string, renamed: string): Rule {
    Rule(original, renamed, "", "")
  }

  const GROUP_PREFIXES := [Plain(SOURCE_GROUP, SOURCE_RENAMED), Plain(HELM_GROUP, HELM_RENAMED)]

  const SHIPPED_LABELS := Replacements(GROUP_PREFIXES, GROUP_PREFIXES)

  const SHIPPED_ANNOTATIONS := Replacements(
    [Plain("reconcile.fluxcd.io" + "/" + "requestedAt", "reconcile." + INTERNAL + "/" + "requestedAt"),
     Plain("reconcile.fluxcd.io" + "/" + "forceAt", "reconcile." + INTERNAL + "/" + "forceAt"),
     Plain("reconcile.fluxcd.io" + "/" + "resetAt", "reconcile." + INTERNAL + "/" + "resetAt")],
    GROUP_PREFIXES)

  const SHIPPED_FINALIZERS := Replacements([Plain("finalizers.fluxcd.io", "finalizers." + INTERNAL)], [])

  function Resource(kind: string, plural: string): ResourceRule {
    ResourceRule(kind, kind + "List", plural)
  }

  const SOURCE_RESOURCES: map<string, ResourceRule> := map["buckets" := Resource("Bucket", "buckets")]
    ["externalartifacts" := Resource("ExternalArtifact", "externalartifacts")]
    ["gitrepositories" := Resource("GitRepository", "gitrepositories")]
    ["helmcharts" := Resource("HelmChart", "helmcharts")]
    ["helmrepositories" := Resource("HelmRepository", "helmrepositories")]
    ["ocirepositories" := Resource("OCIRepository", "ocirepositories")]

  const HELM_RESOURCES := map["helmreleases" := Resource("HelmRelease", "helmreleases")]

  const SHIPPED := Rules(
    "InternalNelmOperator", "internalnelmoperator",
    map[SOURCE_GROUP := GroupRule(SOURCE_GROUP, SOURCE_RENAMED, SOURCE_RESOURCES),
        HELM_GROUP := GroupRule(HELM_GROUP, HELM_RENAMED, HELM_RESOURCES)],
    map[SOURCE_RENAMED := SOURCE_GROUP, HELM_RENAMED := HELM_GROUP],
    map["HelmChart" := [["spec", "sourceRef"]], "HelmRelease" := [["spec", "chart", "spec", "sourceRef"], ["spec", "chartRef"]]],
    NewRewriter(SHIPPED_LABELS), NewRewriter(SHIPPED_ANNOTATIONS), NewRewriter(SHIPPED_FINALIZERS))

  // ----- the indexed name rules -----

  predicate NoMark(s: string) {
    '=' !in s && '/' !in s && !IsPreserved(s)
  }

  lemma OnePlain(a: string, b: string)
    ensures NewRewriter(Replacements([Plain(a, b)], [])) == Rewriter(map[a := b], map[b := a], map[], map[])
  {
    assert [Plain(a, b)][..0] == [];
  }

  lemma TwoPlain(rules: seq<Rule>, a: string, b: string, c: string, d: string)
    requires rules == [Plain(a, b), Plain(c, d)]
    ensures Index(rules) == map[a := b][c := d] && IndexBack(rules) == map[b := a][d := c]
  {
    assert rules[..1] == [Plain(a, b)] && rules[..1][..0] == [];
    assert Index(rules[..1]) == map[a := b] && IndexBack(rules[..1]) == map[b := a];
  }

  lemma InternalParts()
    ensures '=' !in INTERNAL && '/' !in INTERNAL && INTERNAL[0] == 'i'
  {
  }

  lemma InternalMark(head: string)
    requires '=' !in head && '/' !in head && head != "" && head[0] != 'p'
    requires '=' !in INTERNAL && '/' !in INTERNAL
    ensures NoMark(head + INTERNAL)
  {
    assert PRESERVED[0] == 'p' && (head + INTERNAL)[0] == head[0];
  }

  lemma SourceName()
    ensures NoMark(SOURCE_GROUP)
  {
    assert PRESERVED[0] == 'p' && SOURCE_GROUP[0] == 's';
  }

  lemma HelmName()
    ensures NoMark(HELM_GROUP)
  {
    assert PRESERVED[0] == 'p' && HELM_GROUP[0] == 'h';
  }

  lemma SourceRenamedName()
    ensures NoMark(SOURCE_RENAMED)
  {
    InternalParts();
    InternalMark("source.");
  }

  lemma HelmRenamedName()
    ensures NoMark(HELM_RENAMED)
  {
    InternalParts();
    InternalMark("helm.");
  }

  lemma GroupNamesApart()
    ensures SOURCE_GROUP != SOURCE_RENAMED && SOURCE_GROUP != HELM_GROUP && SOURCE_GROUP != HELM_RENAMED
    ensures HELM_GROUP != SOURCE_RENAMED && HELM_GROUP != HELM_RENAMED && SOURCE_RENAMED != HELM_RENAMED
  {
    InternalParts();
    assert SOURCE_GROUP[0] == 's' && SOURCE_RENAMED[0] == 's' && SOURCE_GROUP[7] == 't' && SOURCE_RENAMED[7] == 'i';
    assert HELM_GROUP[0] == 'h' && HELM_RENAMED[0] == 'h' && HELM_GROUP[5] == 't' && HELM_RENAMED[5] == 'i';
  }

  lemma PrefixIndexes()
    ensures Index(GROUP_PREFIXES) == map[SOURCE_GROUP := SOURCE_RENAMED][HELM_GROUP := HELM_RENAMED]
    ensures IndexBack(GROUP_PREFIXES) == map[SOURCE_RENAMED := SOURCE_GROUP][HELM_RENAMED := HELM_GROUP]
  {
    TwoPlain(GROUP_PREFIXES, SOURCE_GROUP, SOURCE_RENAMED, HELM_GROUP, HELM_RENAMED);
  }

  lemma NoPrefix(s: string, prefixes: map<string, string>)
    requires '/' !in s
    ensures !HasPrefixIn(s, prefixes)
  {
  }

  predicate FourApart(a: string, b: string, c: string, d: string) {
    a != b && a != c && a != d && b != c && b != d && c != d
  }

  lemma TwoWellFormed(a: string, b: string, c: string, d: string)
    requires NoMark(a) && NoMark(b) && NoMark(c) && NoMark(d) && FourApart(a, b, c, d)
    ensures var m, n := map[a := b][c := d], map[b := a][d := c];
            WellFormed(Rewriter(m, n, m, n)) && ValueFree(Rewriter(m, n, m, n))
  {
    var m, n := map[a := b][c := d], map[b := a][d := c];
    var rw := Rewriter(m, n, m, n);
    forall k | k in m
      ensures NameRuleOk(rw, k) && PrefixRuleOk(rw, k)
    {
      NoPrefix(k, m);
      NoPrefix(k, n);
      NoPrefix(m[k], m);
      NoPrefix(m[k], n);
    }
  }

  lemma LabelsWellFormed()
    ensures WellFormed(NewRewriter(SHIPPED_LABELS)) && ValueFree(NewRewriter(SHIPPED_LABELS))
  {
    SourceName();
    HelmName();
    SourceRenamedName();
    HelmRenamedName();
    GroupNamesApart();
    PrefixIndexes();
    TwoWellFormed(SOURCE_GROUP, SOURCE_RENAMED, HELM_GROUP, HELM_RENAMED);
  }

  const FINALIZER := "finalizers.fluxcd.io"
  const FINALIZER_RENAMED := "finalizers." + INTERNAL

  lemma FinalizersWellFormed()
    ensures WellFormed(NewRewriter(SHIPPED_FINALIZERS)) && ValueFree(NewRewriter(SHIPPED_FINALIZERS))
  {
    OnePlain(FINALIZER, FINALIZER_RENAMED);
    FinalizerName();
    FinalizerRenamedName();
    InternalParts();
    assert FINALIZER[11] == 'f' && FINALIZER_RENAMED[11] == 'i';
    OneWellFormed(FINALIZER, FINALIZER_RENAMED);
  }

  lemma FinalizerName()
    ensures NoMark(FINALIZER)
  {
    assert PRESERVED[0] == 'p' && FINALIZER[0] == 'f';
  }

  lemma FinalizerRenamedName()
    ensures NoMark(FINALIZER_RENAMED)
  {
    InternalParts();
    InternalMark("finalizers.");
  }

  lemma OneWellFormed(a: string, b: string)
    requires NoMark(a) && NoMark(b) && a != b
    ensures var rw := Rewriter(map[a := b], map[b := a], map[], map[]); WellFormed(rw) && ValueFree(rw)
  {
  }

  // ----- annotations: three names under one prefix -----

  const RECONCILE := "reconcile.fluxcd.io"
  const RECONCILE_RENAMED := "reconcile." + INTERNAL

  lemma ReconcileName()
    ensures NoMark(RECONCILE)
  {
    assert PRESERVED[0] == 'p' && RECONCILE[0] == 'r';
  }

  lemma ReconcileRenamedName()
    ensures NoMark(RECONCILE_RENAMED)
  {
    InternalParts();
    InternalMark("reconcile.");
  }

  lemma ReconcileApart()
    ensures RECONCILE != SOURCE_GROUP && RECONCILE != HELM_GROUP && RECONCILE != SOURCE_RENAMED && RECONCILE != HELM_RENAMED
    ensures RECONCILE_RENAMED != SOURCE_GROUP && RECONCILE_RENAMED != HELM_GROUP
    ensures RECONCILE_RENAMED != SOURCE_RENAMED && RECONCILE_RENAMED != HELM_RENAMED
  {
    assert RECONCILE[0] == 'r' && RECONCILE_RENAMED[0] == 'r';
    assert SOURCE_GROUP[0] == 's' && HELM_GROUP[0] == 'h' && SOURCE_RENAMED[0] == 's' && HELM_RENAMED[0] == 'h';
  }

  function Under(p: string, x: string): string {
    p + "/" + x
  }

  lemma UnderParts(p: string, x: string)
    requires NoMark(p) && '=' !in x
    ensures Cut(Under(p, x), '/') == Some((p, x)) && !IsKV(Under(p, x)) && !IsPreserved(Under(p, x))
  {
    CutJoined(p, '/', x);
    if IsPreserved(Under(p, x)) {
      PreservedPrefix(p, x);
    }
  }

  lemma UnderApart(p: string, x: string, q: string, y: string)
    requires NoMark(p) && NoMark(q) && '=' !in x && '=' !in y
    ensures Under(p, x) == Under(q, y) <==> p == q && x == y
  {
    UnderParts(p, x);
    UnderParts(q, y);
  }

  lemma ThreePlain(rules: seq<Rule>, a: string, b: string, c: string, d: string, e: string, f: string)
    requires rules == [Plain(a, b), Plain(c, d), Plain(e, f)]
    ensures Index(rules) == map[a := b][c := d][e := f] && IndexBack(rules) == map[b := a][d := c][f := e]
  {
    assert rules[..2] == [Plain(a, b), Plain(c, d)];
    TwoPlain(rules[..2], a, b, c, d);
  }

  lemma UnderRuleOk(rw: Rewriter, p: string, q: string, w: string)
    requires NoMark(p) && NoMark(q) && '=' !in w
    requires p !in rw.prefixes && p !in rw.prefixesBack && q !in rw.prefixes && q !in rw.prefixesBack
    requires Under(p, w) in rw.names && rw.names[Under(p, w)] == Under(q, w) && Under(p, w) !in rw.namesBack
    requires Under(q, w) in rw.namesBack && rw.namesBack[Under(q, w)] == Under(p, w) && Under(q, w) !in rw.names
    ensures NameRuleOk(rw, Under(p, w))
  {
    UnderParts(p, w);
    UnderParts(q, w);
  }

  function UnderMap(p: string, q: string, x: string, y: string, z: string): map<string, string> {
    map[Under(p, x) := Under(q, x)][Under(p, y) := Under(q, y)][Under(p, z) := Under(q, z)]
  }

  /** Three names that keep their last part while the first is replaced. */
  lemma UnderRules(p: string, q: string, x: string, y: string, z: string, prefixes: map<string, string>, back: map<string, string>)
    requires NoMark(p) && NoMark(q) && p != q && '=' !in x && '=' !in y && '=' !in z && x != y && x != z && y != z
    requires p !in prefixes && p !in back && q !in prefixes && q !in back
    requires WellFormed(Rewriter(map[], map[], prefixes, back))
    ensures var rw := Rewriter(UnderMap(p, q, x, y, z), UnderMap(q, p, x, y, z), prefixes, back);
            WellFormed(rw) && ValueFree(rw)
  {
    var rw := Rewriter(UnderMap(p, q, x, y, z), UnderMap(q, p, x, y, z), prefixes, back);
    UnderNames(p, q, x, y, z, prefixes, back);
    UnderBack(p, q, x, y, z);
    PrefixRulesCarry(Rewriter(map[], map[], prefixes, back), rw);
  }

  /** The three entries, and no other. */
  lemma UnderEntries(p: string, q: string, x: string, y: string, z: string)
    requires NoMark(p) && NoMark(q) && p != q && '=' !in x && '=' !in y && '=' !in z && x != y && x != z && y != z
    ensures var m := UnderMap(p, q, x, y, z);
            && m.Keys == {Under(p, x), Under(p, y), Under(p, z)}
            && m[Under(p, x)] == Under(q, x) && m[Under(p, y)] == Under(q, y) && m[Under(p, z)] == Under(q, z)
            && Under(q, x) !in m && Under(q, y) !in m && Under(q, z) !in m
  {
    UnderKeys(p, q, x, y, z);
  }

  lemma UnderNames(p: string, q: string, x: string, y: string, z: string, prefixes: map<string, string>, back: map<string, string>)
    requires NoMark(p) && NoMark(q) && p != q && '=' !in x && '=' !in y && '=' !in z && x != y && x != z && y != z
    requires p !in prefixes && p !in back && q !in prefixes && q !in back
    ensures var rw := Rewriter(UnderMap(p, q, x, y, z), UnderMap(q, p, x, y, z), prefixes, back);
            forall k :: k in rw.names ==> NameRuleOk(rw, k) && !IsKV(k)
  {
    var rw := Rewriter(UnderMap(p, q, x, y, z), UnderMap(q, p, x, y, z), prefixes, back);
    UnderEntries(p, q, x, y, z);
    UnderEntries(q, p, x, y, z);
    forall w | w in [x, y, z]
      ensures NameRuleOk(rw, Under(p, w)) && !IsKV(Under(p, w))
    {
      UnderRuleOk(rw, p, q, w);
      UnderParts(p, w);
    }
    assert x in [x, y, z] && y in [x, y, z] && z in [x, y, z];
  }

  lemma UnderBack(p: string, q: string, x: string, y: string, z: string)
    requires NoMark(p) && NoMark(q) && p != q && '=' !in x && '=' !in y && '=' !in z && x != y && x != z && y != z
    ensures var m, n := UnderMap(p, q, x, y, z), UnderMap(q, p, x, y, z);
            forall k :: k in n ==> n[k] in m && m[n[k]] == k
  {
    UnderKeys(p, q, x, y, z);
  }

  lemma PrefixRulesCarry(base: Rewriter, rw: Rewriter)
    requires WellFormed(base) && base.prefixes == rw.prefixes && base.prefixesBack == rw.prefixesBack
    ensures forall k :: k in rw.prefixes ==> PrefixRuleOk(rw, k)
    ensures forall k :: k in rw.prefixesBack ==> rw.prefixesBack[k] in rw.prefixes && rw.prefixes[rw.prefixesBack[k]] == k
  {
    forall k | k in rw.prefixes
      ensures PrefixRuleOk(rw, k)
    {
      assert PrefixRuleOk(base, k);
    }
  }

  lemma UnderKeys(p: string, q: string, x: string, y: string, z: string)
    requires NoMark(p) && NoMark(q) && p != q && '=' !in x && '=' !in y && '=' !in z && x != y && x != z && y != z
    ensures Under(p, x) != Under(p, y) && Under(p, x) != Under(p, z) && Under(p, y) != Under(p, z)
    ensures Under(q, x) != Under(q, y) && Under(q, x) != Under(q, z) && Under(q, y) != Under(q, z)
    ensures forall v, w :: v in [x, y, z] && w in [x, y, z] ==> Under(p, v) != Under(q, w)
  {
    UnderApart(p, x, p, y);
    UnderApart(p, x, p, z);
    UnderApart(p, y, p, z);
    UnderApart(q, x, q, y);
    UnderApart(q, x, q, z);
    UnderApart(q, y, q, z);
    forall v, w | v in [x, y, z] && w in [x, y, z]
      ensures Under(p, v) != Under(q, w)
    {
      UnderApart(p, v, q, w);
    }
  }

  lemma PrefixesAlone(rw: Rewriter)
    requires WellFormed(rw)
    ensures WellFormed(Rewriter(map[], map[], rw.prefixes, rw.prefixesBack))
  {
    forall k | k in rw.prefixes
      ensures PrefixRuleOk(Rewriter(map[], map[], rw.prefixes, rw.prefixesBack), k)
    {
      assert PrefixRuleOk(rw, k);
    }
  }

  lemma LastParts()
    ensures '=' !in "requestedAt" && '=' !in "forceAt" && '=' !in "resetAt"
    ensures "requestedAt" != "forceAt" && "requestedAt" != "resetAt" && "forceAt" != "resetAt"
  {
    assert "requestedAt"[0] == 'r' && "forceAt"[0] == 'f' && "resetAt"[0] == 'r';
    assert |"requestedAt"| == 11 && |"resetAt"| == 7;
  }

  lemma AnnotationsWellFormed()
    ensures WellFormed(NewRewriter(SHIPPED_ANNOTATIONS)) && ValueFree(NewRewriter(SHIPPED_ANNOTATIONS))
  {
    var p, q := RECONCILE, RECONCILE_RENAMED;
    LabelsWellFormed();
    PrefixesAlone(NewRewriter(SHIPPED_LABELS));
    PrefixIndexes();
    ReconcileName();
    ReconcileRenamedName();
    InternalParts();
    assert p[10] == 'f' && q[10] == 'i';
    ReconcileApart();
    LastParts();
    ThreePlain(SHIPPED_ANNOTATIONS.names, Under(p, "requestedAt"), Under(q, "requestedAt"), Under(p, "forceAt"), Under(q, "forceAt"),
               Under(p, "resetAt"), Under(q, "resetAt"));
    UnderRules(p, q, "requestedAt", "forceAt", "resetAt", Index(GROUP_PREFIXES), IndexBack(GROUP_PREFIXES));
  }

  // ----- groups, kinds and paths -----

  lemma KindOk(kind: string, plural: string)
    requires |kind| >= 4 && kind[0] != 'I' && kind[|kind| - 4] != 'L'
    ensures ResourceOk(SHIPPED, Resource(kind, plural))
  {
    var prefix, listKind := SHIPPED.kindPrefix, kind + "List";
    assert prefix[0] == 'I' && listKind[0] == kind[0];
    ListEnds(kind);
    ListEnds(prefix + kind);
    NoListEnds(kind);
    NoListEnds(prefix + kind);
    assert prefix + listKind == prefix + kind + "List";
  }

  lemma ListEnds(s: string)
    ensures HasSuffix(s + "List", "List")
  {
  }

  lemma NoListEnds(s: string)
    requires |s| >= 4 && s[|s| - 4] != 'L'
    ensures !HasSuffix(s, "List")
  {
    assert "List"[0] == 'L' && s[|s| - 4..][0] == s[|s| - 4];
  }

  predicate AllOk(resources: map<string, ResourceRule>) {
    forall p :: p in resources ==> ResourceOk(SHIPPED, resources[p])
  }

  lemma OneMoreKind(resources: map<string, ResourceRule>, kind: string, plural: string) returns (more: map<string, ResourceRule>)
    requires AllOk(resources) && |kind| >= 4 && kind[0] != 'I' && kind[|kind| - 4] != 'L'
    ensures more == resources[plural := Resource(kind, plural)] && AllOk(more)
  {
    KindOk(kind, plural);
    more := resources[plural := Resource(kind, plural)];
  }

  lemma SourceKindsOk()
    ensures AllOk(SOURCE_RESOURCES)
  {
    var m: map<string, ResourceRule> := map[];
    m := OneMoreKind(m, "Bucket", "buckets");
    m := OneMoreKind(m, "ExternalArtifact", "externalartifacts");
    m := OneMoreKind(m, "GitRepository", "gitrepositories");
    m := OneMoreKind(m, "HelmChart", "helmcharts");
    m := OneMoreKind(m, "HelmRepository", "helmrepositories");
    m := OneMoreKind(m, "OCIRepository", "ocirepositories");
    assert m == SOURCE_RESOURCES;
  }

  lemma HelmKindsOk()
    ensures AllOk(HELM_RESOURCES)
  {
    KindOk("HelmRelease", "helmreleases");
  }

  lemma PathsShipped()
    ensures forall k :: k in SHIPPED.kindRefPaths ==> PathsOk(SHIPPED.kindRefPaths[k])
  {
    var p, q := ["spec", "chart", "spec", "sourceRef"], ["spec", "chartRef"];
    assert p[1] != q[1] by {
      assert |p[1]| == 5 && |q[1]| == 8;
    }
    assert Diverge(p, q);
  }

  lemma TwoGroupsOk(r: Rules, g: string, g': string, gs: map<string, ResourceRule>, h: string, h': string, hs: map<string, ResourceRule>)
    requires r.groups == map[g := GroupRule(g, g', gs), h := GroupRule(h, h', hs)] && r.groupsBack == map[g' := g, h' := h]
    requires g != g' && g != h && g != h' && h != g' && h != h' && g' != h'
    requires '/' !in g && '/' !in g' && '/' !in h && '/' !in h' && g != "" && g' != "" && h != "" && h' != ""
    ensures forall k :: k in r.groups ==> GroupOk(r, k)
    ensures forall q :: q in r.groupsBack ==> r.groupsBack[q] in r.groups && r.groups[r.groupsBack[q]].renamed == q
  {
  }

  lemma GroupsShipped()
    ensures forall g :: g in SHIPPED.groups ==> GroupOk(SHIPPED, g)
    ensures forall q :: q in SHIPPED.groupsBack ==>
              SHIPPED.groupsBack[q] in SHIPPED.groups && SHIPPED.groups[SHIPPED.groupsBack[q]].renamed == q
  {
    SourceName();
    HelmName();
    SourceRenamedName();
    HelmRenamedName();
    GroupNamesApart();
    TwoGroupsOk(SHIPPED, SOURCE_GROUP, SOURCE_RENAMED, SOURCE_RESOURCES, HELM_GROUP, HELM_RENAMED, HELM_RESOURCES);
  }

  lemma ResourcesShipped()
    ensures forall g :: g in SHIPPED.groups ==> AllOk(SHIPPED.groups[g].resources)
  {
    SourceKindsOk();
    HelmKindsOk();
    GroupNamesApart();
  }

  // ----- kinds with rewriters of their own -----

  const DISCOVERY_KINDS := {"APIGroupList", "APIGroup", "APIResourceList", "APIGroupDiscoveryList", "AdmissionReview"}

  const RESOURCE_KINDS := {
    "CustomResourceDefinition", "MutatingWebhookConfiguration", "ValidatingWebhookConfiguration", "Event", "ClusterRole", "Role",
    "Deployment", "StatefulSet", "DaemonSet", "Pod", "PodDisruptionBudget", "Job", "Service", "PersistentVolumeClaim",
    "ServiceMonitor", "ValidatingAdmissionPolicyBinding", "ValidatingAdmissionPolicy"}

  /** The kinds a payload of which is not rewritten as a custom resource. */
  predicate HasOwnRewriter(kind: string) {
    kind in DISCOVERY_KINDS || exists k :: k in RESOURCE_KINDS && (kind == k || kind == k + "List")
  }

  /** The first two letters tell them from every kind the shipped rules name. */
  predicate Foreign(kind: string) {
    |kind| > 1 && (kind[0] in {'B', 'G', 'H', 'I', 'O'} || (kind[0] == 'E' && kind[1] == 'x'))
  }

  lemma OwnRewritersApart(kind: string)
    requires Foreign(kind)
    ensures !HasOwnRewriter(kind)
  {
    forall k | k in RESOURCE_KINDS
      ensures kind != k && kind != k + "List"
    {
      assert |k| > 1 && k[0] in {'A', 'C', 'M', 'V', 'R', 'D', 'S', 'P', 'J', 'E'} && k[1] != 'x';
      assert (k + "List")[0] == k[0] && (k + "List")[1] == k[1];
    }
    forall k | k in DISCOVERY_KINDS
      ensures k[0] == 'A'
    {
    }
  }

  lemma ShippedKindForeign(resources: map<string, ResourceRule>, p: string)
    requires (resources == SOURCE_RESOURCES || resources == HELM_RESOURCES) && p in resources
    ensures Foreign(resources[p].kind) && resources[p].listKind == resources[p].kind + "List"
  {
  }

  /** Neither a kind of the shipped rules nor what it is renamed to is one of them. */
  lemma ShippedKindsAreCommon(apiVersion: string, kind: string)
    requires HasKindRule(SHIPPED, apiVersion, kind)
    ensures !HasOwnRewriter(kind) && !HasOwnRewriter(RenameKind(SHIPPED, kind))
  {
    var g := GroupOf(apiVersion);
    GroupNamesApart();
    var resources := SHIPPED.groups[g].resources;
    var p :| p in resources && (resources[p].kind == kind || resources[p].listKind == kind);
    ShippedKindForeign(resources, p);
    OwnRewritersApart(kind);
    OwnRewritersApart(RenameKind(SHIPPED, kind));
  }

  // ----- everything together -----

  /** The shipped rules satisfy everything the round trips ask of rules. */
  lemma ShippedRulesOk()
    ensures RulesOk(SHIPPED) && ValueFree(SHIPPED.labels) && ValueFree(SHIPPED.annotations) && ValueFree(SHIPPED.finalizers)
  {
    GroupsShipped();
    ResourcesShipped();
    LabelsWellFormed();
    AnnotationsWellFormed();
    FinalizersWellFormed();
    PathsShipped();
    Assembled(SHIPPED);
  }

  lemma Assembled(r: Rules)
    requires r.kindPrefix != ""
    requires forall g :: g in r.groups ==> GroupOk(r, g)
    requires forall q :: q in r.groupsBack ==> r.groupsBack[q] in r.groups && r.groups[r.groupsBack[q]].renamed == q
    requires forall g, p :: g in r.groups && p in r.groups[g].resources ==> ResourceOk(r, r.groups[g].resources[p])
    requires forall k :: k in r.kindRefPaths ==> PathsOk(r.kindRefPaths[k])
    requires WellFormed(r.labels) && WellFormed(r.annotations) && WellFormed(r.finalizers)
    ensures RulesOk(r)
  {
  }
}

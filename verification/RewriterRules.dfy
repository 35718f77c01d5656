/** Rules for API groups and kinds, and the rules this repository ships. */
module RewriterRules {
  import opened Basics
  import opened RewriterText
  import opened RewriterNames
  import opened RewriterMaps
  import opened RewriterJson

  datatype ResourceRule = ResourceRule(kind: string, listKind: string, plural: string)

  datatype GroupRule = GroupRule(group: string, renamed: string, resources: map<string, ResourceRule>)

  /** `groups` files each rule under its group; `groupsBack` is the index from renamed groups to original ones. */
  datatype Rules = Rules(
    kindPrefix: string,
    resourcePrefix: string,
    groups: map<string, GroupRule>,
    groupsBack: map<string, string>,
    kindRefPaths: map<string, seq<Path>>,
    labels: Rewriter,
    annotations: Rewriter,
    finalizers: Rewriter)

  // ----- the two-way index of groups -----

  class MapIndexer {
    var idx: map<string, string>
    var reverse: map<string, string>

    constructor ()
      ensures idx == map[] && reverse == map[]
    {
      idx, reverse := map[], map[];
    }

    method AddPair(original: string, renamed: string)
      modifies this
      ensures idx == old(idx)[original := renamed] && reverse == old(reverse)[renamed := original]
    {
      idx := idx[original := renamed];
      reverse := reverse[renamed := original];
    }

    method Rename(original: string) returns (r: string)
      ensures r == if original in idx then idx[original] else original
    {
      if original in idx {
        return idx[original];
      }
      return original;
    }

    method Restore(renamed: string) returns (r: string)
      ensures r == if renamed in reverse then reverse[renamed] else renamed
    {
      if renamed in reverse {
        return reverse[renamed];
      }
      return renamed;
    }
  }

  predicate GroupsApart(groups: map<string, GroupRule>) {
    forall g, h :: g in groups && h in groups && g != h ==> groups[g].group != groups[h].group && groups[g].renamed != groups[h].renamed
  }

  predicate IsKey(m: map<string, string>, k: string) {
    k in m
  }

  /** The two indexes hold one pair for each rule, its own group and the renamed one, and no other. */
  ghost predicate Indexed(idx: map<string, string>, reverse: map<string, string>, groups: map<string, GroupRule>, done: set<string>) {
    && (forall g :: g in groups && g in done ==>
          && groups[g].group in idx && idx[groups[g].group] == groups[g].renamed
          && groups[g].renamed in reverse && reverse[groups[g].renamed] == groups[g].group)
    && (forall o :: IsKey(idx, o) ==> exists g :: g in groups && g in done && groups[g].group == o)
    && (forall q :: IsKey(reverse, q) ==> exists g :: g in groups && g in done && groups[g].renamed == q)
  }

  lemma OneMorePair(idx: map<string, string>, reverse: map<string, string>, groups: map<string, GroupRule>, done: set<string>, g: string)
    requires GroupsApart(groups) && g in groups && g !in done && Indexed(idx, reverse, groups, done)
    ensures Indexed(idx[groups[g].group := groups[g].renamed], reverse[groups[g].renamed := groups[g].group], groups, done + {g})
  {
    var idx', reverse' := idx[groups[g].group := groups[g].renamed], reverse[groups[g].renamed := groups[g].group];
    forall o | IsKey(idx', o)
      ensures exists h :: h in groups && h in done + {g} && groups[h].group == o
    {
      if o == groups[g].group {
        assert g in done + {g};
      } else {
        assert IsKey(idx, o);
      }
    }
    forall q | IsKey(reverse', q)
      ensures exists h :: h in groups && h in done + {g} && groups[h].renamed == q
    {
      if q == groups[g].renamed {
        assert g in done + {g};
      } else {
        assert IsKey(reverse, q);
      }
    }
  }

  method AddRule(m: MapIndexer, groups: map<string, GroupRule>, g: string, ghost done: set<string>)
    requires GroupsApart(groups) && g in groups && g !in done && Indexed(m.idx, m.reverse, groups, done)
    modifies m
    ensures Indexed(m.idx, m.reverse, groups, done + {g})
  {
    OneMorePair(m.idx, m.reverse, groups, done, g);
    m.AddPair(groups[g].group, groups[g].renamed);
  }

  /** Rules with names of their own are indexed both ways, by the group each of them names. */
  method IndexGroups(groups: map<string, GroupRule>) returns (m: MapIndexer)
    requires GroupsApart(groups)
    ensures fresh(m) && Indexed(m.idx, m.reverse, groups, groups.Keys)
  {
    m := new MapIndexer();
    var todo := groups.Keys;
    ghost var done: set<string> := {};
    while todo != {}
      invariant fresh(m) && done + todo == groups.Keys && done !! todo
      invariant Indexed(m.idx, m.reverse, groups, done)
      decreases todo
    {
      var g :| g in todo;
      AddRule(m, groups, g, done);
      todo := todo - {g};
      done := done + {g};
    }
  }

  // ----- kinds and API versions -----

  function RenameKind(r: Rules, kind: string): string {
    r.kindPrefix + kind
  }

  function RestoreKind(r: Rules, kind: string): string {
    TrimPrefix(kind, r.kindPrefix)
  }

  function RenameResource(r: Rules, resource: string): string {
    r.resourcePrefix + resource
  }

  function RenameGroup(r: Rules, group: string): string {
    if group in r.groups then r.groups[group].renamed else group
  }

  function RestoreGroup(r: Rules, group: string): string {
    if group in r.groupsBack then r.groupsBack[group] else group
  }

  /** The group of an API version, which may be a group alone. */
  function GroupOf(apiVersion: string): string {
    Before(apiVersion, '/')
  }

  function RenameApiVersion(r: Rules, apiVersion: string): string {
    var parts := Cut(apiVersion, '/');
    if parts.None? then RenameGroup(r, apiVersion) else RenameGroup(r, parts.value.0) + "/" + parts.value.1
  }

  function RestoreApiVersion(r: Rules, apiVersion: string): string {
    var parts := Cut(apiVersion, '/');
    if parts.None? then RestoreGroup(r, apiVersion) else RestoreGroup(r, parts.value.0) + "/" + parts.value.1
  }

  predicate IsRenamedGroup(r: Rules, apiVersion: string) {
    GroupOf(apiVersion) in r.groupsBack
  }

  /** Some resource of the group has this kind, or this list kind. */
  predicate HasKindRule(r: Rules, apiVersion: string, kind: string) {
    var g := GroupOf(apiVersion);
    && g in r.groups
    && exists p :: p in r.groups[g].resources
                   && (r.groups[g].resources[p].kind == kind || r.groups[g].resources[p].listKind == kind)
  }

  predicate HasListKind(r: Rules, apiVersion: string, kind: string) {
    var g := GroupOf(apiVersion);
    g in r.groups && exists p :: p in r.groups[g].resources && r.groups[g].resources[p].listKind == kind
  }

  /** Some resource of any group has this kind. */
  predicate IsKnownKind(r: Rules, kind: string) {
    exists g, p :: g in r.groups && p in r.groups[g].resources && r.groups[g].resources[p].kind == kind
  }

  // ----- well-formed rules -----

  predicate GroupOk(r: Rules, g: string)
    requires g in r.groups
  {
    var q := r.groups[g].renamed;
    && r.groups[g].group == g && q in r.groupsBack && r.groupsBack[q] == g && g !in r.groupsBack && q !in r.groups
    && '/' !in g && '/' !in q && g != "" && q != ""
  }

  predicate ResourceOk(r: Rules, res: ResourceRule) {
    && res.kind != "" && !HasPrefix(res.kind, r.kindPrefix) && !HasPrefix(res.listKind, r.kindPrefix)
    && HasSuffix(res.listKind, "List") && !HasSuffix(r.kindPrefix + res.kind, "List") && !HasSuffix(res.kind, "List")
    && HasSuffix(r.kindPrefix + res.listKind, "List")
  }

  predicate PathsOk(paths: seq<Path>) {
    && (forall i :: 0 <= i < |paths| ==> |paths[i]| > 1 && paths[i][0] == "spec")
    && forall i, j :: 0 <= i < j < |paths| ==> Diverge(paths[i], paths[j])
  }

  predicate RulesOk(r: Rules) {
    && r.kindPrefix != ""
    && (forall g :: g in r.groups ==> GroupOk(r, g))
    && (forall q :: q in r.groupsBack ==> r.groupsBack[q] in r.groups && r.groups[r.groupsBack[q]].renamed == q)
    && (forall g, p :: g in r.groups && p in r.groups[g].resources ==> ResourceOk(r, r.groups[g].resources[p]))
    && (forall k :: k in r.kindRefPaths ==> PathsOk(r.kindRefPaths[k]))
    && WellFormed(r.labels) && WellFormed(r.annotations) && WellFormed(r.finalizers)
  }

  /** Well-formed rules are looked up as the two indexes say. */
  lemma IndexedLookups(r: Rules, idx: map<string, string>, reverse: map<string, string>, group: string)
    requires RulesOk(r) && Indexed(idx, reverse, r.groups, r.groups.Keys)
    ensures RenameGroup(r, group) == if group in idx then idx[group] else group
    ensures RestoreGroup(r, group) == if group in reverse then reverse[group] else group
    ensures group in r.groupsBack <==> group in reverse
  {
    if group in r.groups {
      assert GroupOk(r, group);
    }
    if IsKey(idx, group) {
      var g :| g in r.groups && r.groups[g].group == group;
      assert GroupOk(r, g);
    }
    if IsKey(reverse, group) {
      var g :| g in r.groups && r.groups[g].renamed == group;
      assert GroupOk(r, g);
    }
    if group in r.groupsBack {
      assert GroupOk(r, r.groupsBack[group]);
    }
  }

  /** The group part is looked up in the index, the version part is kept. */
  method RenameByIndex(index: MapIndexer, r: Rules, apiVersion: string) returns (renamed: string)
    requires RulesOk(r) && Indexed(index.idx, index.reverse, r.groups, r.groups.Keys)
    ensures renamed == RenameApiVersion(r, apiVersion)
  {
    var parts := Cut(apiVersion, '/');
    IndexedLookups(r, index.idx, index.reverse, if parts.None? then apiVersion else parts.value.0);
    if parts.None? {
      renamed := index.Rename(apiVersion);
    } else {
      var group := index.Rename(parts.value.0);
      renamed := group + "/" + parts.value.1;
    }
  }

  method RestoreByIndex(index: MapIndexer, r: Rules, apiVersion: string) returns (restored: string)
    requires RulesOk(r) && Indexed(index.idx, index.reverse, r.groups, r.groups.Keys)
    ensures restored == RestoreApiVersion(r, apiVersion)
  {
    var parts := Cut(apiVersion, '/');
    IndexedLookups(r, index.idx, index.reverse, if parts.None? then apiVersion else parts.value.0);
    if parts.None? {
      restored := index.Restore(apiVersion);
    } else {
      var group := index.Restore(parts.value.0);
      restored := group + "/" + parts.value.1;
    }
  }

  // ----- round trips -----

  lemma KindRoundTrip(r: Rules, kind: string)
    ensures RestoreKind(r, RenameKind(r, kind)) == kind
    ensures r.kindPrefix != "" ==> (RenameKind(r, RestoreKind(r, kind)) == kind <==> HasPrefix(kind, r.kindPrefix))
  {
    TrimAdded(r.kindPrefix, kind);
    if HasPrefix(kind, r.kindPrefix) {
      AddTrimmed(r.kindPrefix, kind);
    }
  }

  lemma VersionKept(r: Rules, group: string, rest: string)
    requires '/' !in group && '/' !in RenameGroup(r, group) && '/' !in RestoreGroup(r, group)
    ensures Cut(RenameGroup(r, group) + "/" + rest, '/') == Some((RenameGroup(r, group), rest))
    ensures Cut(RestoreGroup(r, group) + "/" + rest, '/') == Some((RestoreGroup(r, group), rest))
  {
    CutJoined(RenameGroup(r, group), '/', rest);
    CutJoined(RestoreGroup(r, group), '/', rest);
  }

  lemma GroupsHaveNoSlash(r: Rules, group: string)
    requires RulesOk(r) && '/' !in group
    ensures '/' !in RenameGroup(r, group) && '/' !in RestoreGroup(r, group)
  {
    if group in r.groups {
      assert GroupOk(r, group);
    }
    if group in r.groupsBack {
      assert GroupOk(r, r.groupsBack[group]);
    }
  }

  /** What becomes of the group of an API version. */
  lemma GroupRewritten(r: Rules, apiVersion: string)
    requires RulesOk(r)
    ensures GroupOf(RenameApiVersion(r, apiVersion)) == RenameGroup(r, GroupOf(apiVersion))
    ensures GroupOf(RestoreApiVersion(r, apiVersion)) == RestoreGroup(r, GroupOf(apiVersion))
  {
    var parts := Cut(apiVersion, '/');
    GroupsHaveNoSlash(r, GroupOf(apiVersion));
    if parts.Some? {
      VersionKept(r, parts.value.0, parts.value.1);
    } else {
      NoCut(RenameGroup(r, apiVersion));
      NoCut(RestoreGroup(r, apiVersion));
    }
  }

  lemma NoCut(s: string)
    requires '/' !in s
    ensures Before(s, '/') == s
  {
  }

  /** A renamed API version is restored exactly unless its group was a renamed one to begin with, and
      the other way round. */
  lemma ApiVersionRoundTripIff(r: Rules, apiVersion: string)
    requires RulesOk(r)
    ensures RestoreApiVersion(r, RenameApiVersion(r, apiVersion)) == apiVersion <==> GroupOf(apiVersion) !in r.groupsBack
    ensures RenameApiVersion(r, RestoreApiVersion(r, apiVersion)) == apiVersion <==> GroupOf(apiVersion) !in r.groups
  {
    var g := GroupOf(apiVersion);
    var parts := Cut(apiVersion, '/');
    if g in r.groups {
      assert GroupOk(r, g);
    }
    if g in r.groupsBack {
      assert GroupOk(r, r.groupsBack[g]);
    }
    GroupsHaveNoSlash(r, g);
    if parts.Some? {
      VersionKept(r, g, parts.value.1);
      SameHead(RestoreGroup(r, RenameGroup(r, g)), g, parts.value.1);
      SameHead(RenameGroup(r, RestoreGroup(r, g)), g, parts.value.1);
    }
  }

  lemma SameHead(a: string, b: string, rest: string)
    ensures a + "/" + rest == b + "/" + rest <==> a == b
  {
    if a + "/" + rest == b + "/" + rest {
      assert |a| == |b|;
      assert (a + "/" + rest)[..|a|] == a && (b + "/" + rest)[..|b|] == b;
    }
  }
}

/** Objects kept from the client: by rules of their own, and every original kind that has a rule. */
module RewriterExcludes {
  import opened Basics
  import opened RewriterText
  import opened RewriterJson
  import opened RewriterRules
  import opened RewriterObjects
  import opened RewriterFields
  import opened RewriterRoundTrip

  datatype ExcludeRule = ExcludeRule(groups: seq<string>, kinds: seq<string>, matchNames: seq<string>, matchLabels: map<string, string>)

  /** What an object's labels say; a missing label reads as the empty text. */
  function LabelText(obj: Json, k: string): string {
    var labels := Content(obj, ["metadata", "labels"]);
    if labels.Some? then TextOf(labels.value, k) else ""
  }

  function NameOf(obj: Json): string {
    var metadata := Content(obj, ["metadata"]);
    if metadata.Some? then TextOf(metadata.value, "name") else ""
  }

  /** The API version and the kind are read from the object only where none is given. */
  predicate Matches(e: ExcludeRule, obj: Json, apiVersion: string, kind: string) {
    var group := GroupOf(if apiVersion == "" then TextOf(obj, "apiVersion") else apiVersion);
    var objKind := if kind == "" then TextOf(obj, "kind") else kind;
    && (e.groups == [] || group in e.groups)
    && (e.kinds == [] || objKind in e.kinds)
    && (forall k :: k in e.matchLabels ==> LabelText(obj, k) == e.matchLabels[k])
    && (e.matchNames == [] || NameOf(obj) in e.matchNames)
  }

  method Among(s: string, all: seq<string>) returns (found: bool)
    ensures found == (all == [] || s in all)
  {
    found := |all| == 0;
    var i := 0;
    while i < |all|
      invariant 0 <= i <= |all| && found == (|all| == 0) && s !in all[..i]
    {
      if s == all[i] {
        return true;
      }
      i := i + 1;
    }
    assert all[..|all|] == all;
  }

  method Match(e: ExcludeRule, obj: Json, apiVersion: string, kind: string) returns (matches: bool)
    ensures matches == Matches(e, obj, apiVersion, kind)
  {
    var objApiVersion := apiVersion;
    if objApiVersion == "" {
      objApiVersion := TextOf(obj, "apiVersion");
    }
    var groupMatch := Among(GroupOf(objApiVersion), e.groups);
    var objKind := kind;
    if objKind == "" {
      objKind := TextOf(obj, "kind");
    }
    var kindMatch := Among(objKind, e.kinds);
    var labelsMatch := true;
    var todo := e.matchLabels.Keys;
    while todo != {} && labelsMatch
      invariant todo <= e.matchLabels.Keys
      invariant labelsMatch <==> forall k :: k in e.matchLabels && k !in todo ==> LabelText(obj, k) == e.matchLabels[k]
      decreases todo
    {
      var k :| k in todo;
      todo := todo - {k};
      if LabelText(obj, k) != e.matchLabels[k] {
        labelsMatch := false;
      }
    }
    var nameMatch := Among(NameOf(obj), e.matchNames);
    return groupMatch && kindMatch && labelsMatch && nameMatch;
  }

  predicate ShouldExclude(excludes: seq<ExcludeRule>, obj: Json, apiVersion: string, kind: string) {
    exists i :: 0 <= i < |excludes| && Matches(excludes[i], obj, apiVersion, kind)
  }

  // ----- filtering -----

  function Kept(excludes: seq<ExcludeRule>, items: seq<Json>, apiVersion: string, kind: string): seq<Json> {
    if items == [] then []
    else
      var last := items[|items| - 1];
      Kept(excludes, items[..|items| - 1], apiVersion, kind) + if ShouldExclude(excludes, last, apiVersion, kind) then [] else [last]
  }

  method KeepItems(excludes: seq<ExcludeRule>, items: seq<Json>, apiVersion: string, kind: string) returns (kept: seq<Json>)
    ensures kept == Kept(excludes, items, apiVersion, kind)
  {
    kept := [];
    for i := 0 to |items|
      invariant kept == Kept(excludes, items[..i], apiVersion, kind)
    {
      assert items[..i + 1][..i] == items[..i];
      var excluded := false;
      var n := 0;
      while n < |excludes| && !excluded
        invariant 0 <= n <= |excludes|
        invariant excluded <==> exists m :: 0 <= m < n && Matches(excludes[m], items[i], apiVersion, kind)
      {
        excluded := Match(excludes[n], items[i], apiVersion, kind);
        n := n + 1;
      }
      if excluded {
        continue;
      }
      kept := kept + [items[i]];
    }
    assert items[..|items|] == items;
  }

  /** Discovery documents and admission reviews have schemas of their own. */
  predicate Excludable(kind: string) {
    kind !in {"APIGroupList", "APIGroup", "APIResourceList", "APIGroupDiscoveryList", "AdmissionReview"}
  }

  function TrimSuffix(s: string, suffix: string): string {
    if HasSuffix(s, suffix) then s[..|s| - |suffix|] else s
  }

  function KeepChange(excludes: seq<ExcludeRule>, apiVersion: string, kind: string): Change {
    (x: Json) => if x.Arr? then Arr(Kept(excludes, x.items, apiVersion, kind)) else x
  }

  /** None stands for an object that is skipped as a whole. */
  function FilterExcludes(excludes: seq<ExcludeRule>, a: Action, obj: Json): Option<Json> {
    var kind, apiVersion := TextOf(obj, "kind"), TextOf(obj, "apiVersion");
    if a.ToServer? || !Excludable(kind) then Some(obj)
    else if ShouldExclude(excludes, obj, apiVersion, kind) then None
    else if !HasSuffix(kind, "List") then Some(obj)
    else Some(At(obj, ["items"], KeepChange(excludes, apiVersion, TrimSuffix(kind, "List"))))
  }

  /** A whole payload: filtered, then rewritten. */
  function RewriteJSONPayload(r: Rules, own: Dispatch, excludes: seq<ExcludeRule>, a: Action, obj: Json): Option<Json> {
    var kept := FilterExcludes(excludes, a, obj);
    if kept.None? then None else Some(RewritePayload(r, own, a, kept.value))
  }

  // ----- the excludes the rules imply -----

  /** One exclude for each group, for the kinds it has rules for. */
  ghost predicate Implied(r: Rules, excludes: seq<ExcludeRule>) {
    && (forall i :: 0 <= i < |excludes| ==>
          && excludes[i].matchNames == [] && excludes[i].matchLabels == map[] && excludes[i].kinds != []
          && |excludes[i].groups| == 1 && '/' !in excludes[i].groups[0])
    && (forall i, k :: 0 <= i < |excludes| && k in excludes[i].kinds ==> HasKindRule(r, excludes[i].groups[0], k))
    && (forall g, k :: g in r.groups && HasKindRule(r, g, k) ==>
          exists i :: 0 <= i < |excludes| && excludes[i].groups == [g] && k in excludes[i].kinds)
  }

  method OriginalKinds(resources: map<string, ResourceRule>) returns (kinds: seq<string>)
    ensures forall k :: k in kinds <==> exists p :: p in resources && (resources[p].kind == k || resources[p].listKind == k)
  {
    kinds := [];
    var todo := resources.Keys;
    while todo != {}
      invariant todo <= resources.Keys
      invariant forall k :: k in kinds <==> exists p :: p in resources && p !in todo && (resources[p].kind == k || resources[p].listKind == k)
      decreases todo
    {
      var p :| p in todo;
      todo := todo - {p};
      kinds := kinds + [resources[p].kind, resources[p].listKind];
    }
  }

  /** The excludes that are added to the rules when they are put to use. */
  method ImplyExcludes(r: Rules) returns (excludes: seq<ExcludeRule>)
    requires forall g :: g in r.groups ==> '/' !in g
    ensures Implied(r, excludes)
  {
    excludes := [];
    var todo := r.groups.Keys;
    while todo != {}
      invariant todo <= r.groups.Keys
      invariant forall i :: 0 <= i < |excludes| ==>
                  && excludes[i].matchNames == [] && excludes[i].matchLabels == map[] && excludes[i].kinds != []
                  && |excludes[i].groups| == 1 && excludes[i].groups[0] in r.groups
      invariant forall i, k :: 0 <= i < |excludes| && k in excludes[i].kinds ==> HasKindRule(r, excludes[i].groups[0], k)
      invariant forall g, k :: g in r.groups && g !in todo && HasKindRule(r, g, k) ==>
                  exists i :: 0 <= i < |excludes| && excludes[i].groups == [g] && k in excludes[i].kinds
      decreases todo
    {
      ghost var before, done := excludes, r.groups.Keys - todo;
      var g :| g in todo;
      todo := todo - {g};
      GroupAlone(g);
      var kinds := OriginalKinds(r.groups[g].resources);
      if |kinds| > 0 {
        excludes := excludes + [ExcludeRule([g], kinds, [], map[])];
      }
      forall h, k | h in r.groups && h !in todo && HasKindRule(r, h, k)
        ensures exists i :: 0 <= i < |excludes| && excludes[i].groups == [h] && k in excludes[i].kinds
      {
        if h == g {
          assert k in kinds;
          assert excludes[|excludes| - 1].groups == [h] && k in excludes[|excludes| - 1].kinds;
        } else {
          var i :| 0 <= i < |before| && before[i].groups == [h] && k in before[i].kinds;
          assert excludes[i] == before[i];
        }
      }
    }
  }

  lemma GroupAlone(g: string)
    requires '/' !in g
    ensures GroupOf(g) == g
  {
  }

  /** Objects of the server that are not renamed but have a rule are hidden, and no others are. */
  lemma ImpliedExcludesIff(r: Rules, excludes: seq<ExcludeRule>, obj: Json, apiVersion: string, kind: string)
    requires Implied(r, excludes) && apiVersion != "" && kind != ""
    ensures ShouldExclude(excludes, obj, apiVersion, kind) <==> HasKindRule(r, apiVersion, kind)
  {
    if HasKindRule(r, apiVersion, kind) {
      RuledIsExcluded(r, excludes, obj, apiVersion, kind);
    }
    if ShouldExclude(excludes, obj, apiVersion, kind) {
      ExcludedIsRuled(r, excludes, obj, apiVersion, kind);
    }
  }

  lemma ExcludedIsRuled(r: Rules, excludes: seq<ExcludeRule>, obj: Json, apiVersion: string, kind: string)
    requires Implied(r, excludes) && apiVersion != "" && kind != "" && ShouldExclude(excludes, obj, apiVersion, kind)
    ensures HasKindRule(r, apiVersion, kind)
  {
    var i :| 0 <= i < |excludes| && Matches(excludes[i], obj, apiVersion, kind);
    var g := excludes[i].groups[0];
    assert GroupOf(apiVersion) == g && kind in excludes[i].kinds;
    RuleOfItsGroup(r, apiVersion, kind);
  }

  lemma RuleOfItsGroup(r: Rules, apiVersion: string, kind: string)
    ensures HasKindRule(r, GroupOf(apiVersion), kind) <==> HasKindRule(r, apiVersion, kind)
  {
    GroupOfGroup(apiVersion);
  }

  lemma RuledIsExcluded(r: Rules, excludes: seq<ExcludeRule>, obj: Json, apiVersion: string, kind: string)
    requires Implied(r, excludes) && apiVersion != "" && kind != "" && HasKindRule(r, apiVersion, kind)
    ensures ShouldExclude(excludes, obj, apiVersion, kind)
  {
    var g := GroupOf(apiVersion);
    RuleOfItsGroup(r, apiVersion, kind);
    var i :| 0 <= i < |excludes| && excludes[i].groups == [g] && kind in excludes[i].kinds;
    assert Matches(excludes[i], obj, apiVersion, kind);
  }

  lemma GroupOfGroup(apiVersion: string)
    ensures GroupOf(GroupOf(apiVersion)) == GroupOf(apiVersion)
  {
  }

  /** A renamed object is never hidden. */
  lemma SentIsKept(r: Rules, excludes: seq<ExcludeRule>, obj: Json, sent: Json)
    requires RulesOk(r) && Implied(r, excludes) && OwnType(r, ToServer, obj)
    requires var v, k := TextOf(obj, "apiVersion"), TextOf(obj, "kind");
             && HasKindRule(r, v, k) && !HasListKind(r, v, k)
             && TextOf(sent, "apiVersion") == RenameApiVersion(r, v) && TextOf(sent, "kind") == RenameKind(r, k)
    ensures FilterExcludes(excludes, ToClient, sent) == Some(sent)
  {
    NotRuled(r, obj);
    SingleKind(r, TextOf(obj, "apiVersion"), TextOf(obj, "kind"));
    ImpliedExcludesIff(r, excludes, sent, TextOf(sent, "apiVersion"), TextOf(sent, "kind"));
  }

  /** An object a client sends comes back to it whole. */
  lemma SentObjectReturns(r: Rules, own: Dispatch, excludes: seq<ExcludeRule>, obj: Json)
    requires RulesOk(r) && Implied(r, excludes) && RuledItem(r, own, ToServer, obj)
    ensures var sent := RewriteJSONPayload(r, own, excludes, ToServer, obj);
            sent.Some? && RewriteJSONPayload(r, own, excludes, ToClient, sent.value) == Some(obj)
  {
    var sent := RewritePayload(r, own, ToServer, obj);
    SinglePayload(r, own, ToServer, obj);
    ItemTexts(r, ToServer, obj);
    SentIsKept(r, excludes, obj, sent);
    PayloadRoundTrip(r, own, ToServer, obj);
  }

  lemma NotRuled(r: Rules, obj: Json)
    requires RulesOk(r) && OwnType(r, ToServer, obj) && HasKindRule(r, TextOf(obj, "apiVersion"), TextOf(obj, "kind"))
    ensures var v, k := RenameApiVersion(r, TextOf(obj, "apiVersion")), RenameKind(r, TextOf(obj, "kind"));
            !HasKindRule(r, v, k) && v != "" && k != "" && forall kind :: !HasKindRule(r, v, kind)
  {
    GroupRenamed(r, obj);
    var q := GroupOf(RenameApiVersion(r, TextOf(obj, "apiVersion")));
    assert GroupOk(r, r.groupsBack[q]);
    VersionStays(r, ToServer, TextOf(obj, "apiVersion"));
  }

  /** The items of a renamed list are all kept. */
  lemma {:induction false} NothingExcluded(excludes: seq<ExcludeRule>, items: seq<Json>, apiVersion: string, kind: string)
    requires forall i :: 0 <= i < |items| ==> !ShouldExclude(excludes, items[i], apiVersion, kind)
    ensures Kept(excludes, items, apiVersion, kind) == items
    decreases |items|
  {
    if items != [] {
      NothingExcluded(excludes, items[..|items| - 1], apiVersion, kind);
    }
  }

  /** A list whose own kind and item kind have no rule passes the filter as it is. */
  lemma ListNotFiltered(r: Rules, excludes: seq<ExcludeRule>, obj: Json)
    requires Implied(r, excludes)
    requires var v, k := TextOf(obj, "apiVersion"), TextOf(obj, "kind");
             v != "" && TrimSuffix(k, "List") != "" && k != "" && forall kind :: !HasKindRule(r, v, kind)
    ensures FilterExcludes(excludes, ToClient, obj) == Some(obj)
  {
    var v, k := TextOf(obj, "apiVersion"), TextOf(obj, "kind");
    ImpliedExcludesIff(r, excludes, obj, v, k);
    var single := TrimSuffix(k, "List");
    if Content(obj, ["items"]).Some? {
      KeepsAll(r, excludes, Content(obj, ["items"]).value, v, single);
    }
    AtIdentity(obj, ["items"], KeepChange(excludes, v, single));
  }

  lemma SentListReturns(r: Rules, own: Dispatch, excludes: seq<ExcludeRule>, obj: Json)
    requires RulesOk(r) && Implied(r, excludes) && RuledList(r, own, ToServer, obj)
    ensures var sent := RewriteJSONPayload(r, own, excludes, ToServer, obj);
            sent.Some? && RewriteJSONPayload(r, own, excludes, ToClient, sent.value) == Some(obj)
  {
    var sent := RewritePayload(r, own, ToServer, obj);
    ListPayload(r, own, ToServer, obj);
    ListTexts(r, ToServer, obj);
    ListKind(r, TextOf(obj, "apiVersion"), TextOf(obj, "kind"));
    NotRuled(r, obj);
    assert TrimSuffix(TextOf(sent, "kind"), "List") != "" by {
      NotJustList(TextOf(sent, "kind"));
    }
    ListNotFiltered(r, excludes, sent);
    ListRoundTrip(r, own, ToServer, obj);
  }

  lemma NotJustList(k: string)
    requires k != "" && k != "List"
    ensures TrimSuffix(k, "List") != ""
  {
  }

  lemma KeepsAll(r: Rules, excludes: seq<ExcludeRule>, x: Json, apiVersion: string, kind: string)
    requires Implied(r, excludes) && apiVersion != "" && kind != "" && !HasKindRule(r, apiVersion, kind)
    ensures KeepChange(excludes, apiVersion, kind)(x) == x
  {
    if x.Arr? {
      forall i | 0 <= i < |x.items|
        ensures !ShouldExclude(excludes, x.items[i], apiVersion, kind)
      {
        ImpliedExcludesIff(r, excludes, x.items[i], apiVersion, kind);
      }
      NothingExcluded(excludes, x.items, apiVersion, kind);
    }
  }
}

/** Rewriting one field of an object and rewriting it back. */
module RewriterFields {
  import opened Basics
  import opened RewriterText
  import opened RewriterNames
  import opened RewriterMaps
  import opened RewriterJson
  import opened RewriterRules
  import opened RewriterObjects

  function Opposite(a: Action): Action {
    if a.ToServer? then ToClient else ToServer
  }

  /** A field that is a text if it is there. */
  predicate TextField(j: Json, k: string) {
    j.Obj? && (k in j.fields ==> j.fields[k].Str?)
  }

  // ----- API versions and kinds -----

  /** An API version that belongs to the side it is rewritten from. */
  predicate OwnVersion(r: Rules, a: Action, apiVersion: string) {
    if a.ToServer? then GroupOf(apiVersion) !in r.groupsBack else GroupOf(apiVersion) !in r.groups
  }

  /** A kind that belongs to the side it is rewritten from. */
  predicate OwnKind(r: Rules, a: Action, kind: string) {
    a.ToServer? || HasPrefix(kind, r.kindPrefix)
  }

  lemma VersionUndone(r: Rules, a: Action, apiVersion: string)
    requires RulesOk(r) && OwnVersion(r, a, apiVersion)
    ensures ApiVersionFor(r, Opposite(a), ApiVersionFor(r, a, apiVersion)) == apiVersion
  {
    ApiVersionRoundTripIff(r, apiVersion);
  }

  lemma KindUndone(r: Rules, a: Action, kind: string)
    requires RulesOk(r) && OwnKind(r, a, kind)
    ensures KindFor(r, Opposite(a), KindFor(r, a, kind)) == kind
  {
    KindRoundTrip(r, kind);
  }

  predicate OwnManagedEntry(r: Rules, a: Action, x: Json) {
    x.Obj? && "apiVersion" in x.fields ==> x.fields["apiVersion"].Str? && OwnVersion(r, a, x.fields["apiVersion"].text)
  }

  predicate OwnManaged(r: Rules, a: Action, x: Json) {
    x.Arr? ==> forall i :: 0 <= i < |x.items| ==> OwnManagedEntry(r, a, x.items[i])
  }

  lemma ManagedEntryUndone(r: Rules, a: Action, x: Json)
    requires RulesOk(r) && OwnManagedEntry(r, a, x)
    ensures ManagedEntry(r, Opposite(a))(ManagedEntry(r, a)(x)) == x
  {
    var f, g := ((v: Json) => Str(ApiVersionFor(r, a, ItemText(v)))), ((v: Json) => Str(ApiVersionFor(r, Opposite(a), ItemText(v))));
    AtAgain(x, ["apiVersion"], f, g);
    if x.Obj? && "apiVersion" in x.fields {
      VersionUndone(r, a, x.fields["apiVersion"].text);
      assert Content(x, ["apiVersion"]) == Some(x.fields["apiVersion"]);
    }
    AtIdentity(x, ["apiVersion"], v => g(f(v)));
  }

  lemma ManagedUndone(r: Rules, a: Action, x: Json)
    requires RulesOk(r) && OwnManaged(r, a, x)
    ensures EachItem(EachItem(x, ManagedEntry(r, a)), ManagedEntry(r, Opposite(a))) == x
  {
    if x.Arr? {
      forall i | 0 <= i < |x.items|
        ensures ManagedEntry(r, Opposite(a))(ManagedEntry(r, a)(x.items[i])) == x.items[i]
      {
        ManagedEntryUndone(r, a, x.items[i]);
      }
    }
    ItemsUndone(x, ManagedEntry(r, a), ManagedEntry(r, Opposite(a)));
  }

  // ----- maps and lists of texts -----

  predicate AllTexts(fields: map<string, Json>) {
    forall k :: k in fields ==> fields[k].Str?
  }

  /** A map of texts whose names belong to the side it is rewritten from. */
  predicate OwnMap(rw: Rewriter, a: Action, x: Json) {
    x.Obj? ==>
      && AllTexts(x.fields)
      && (a.ToServer? ==> VisibleMap(rw, TextsOf(x.fields)))
      && (a.ToClient? ==> NonePreserved(TextsOf(x.fields)) && NoMerge(TextsOf(x.fields), Restoring(rw)))
  }

  lemma TextsBack(m: map<string, string>)
    ensures TextsOf(FromTexts(m).fields) == m
  {
  }

  lemma TextsForth(fields: map<string, Json>)
    requires AllTexts(fields)
    ensures FromTexts(TextsOf(fields)) == Obj(fields)
  {
    assert FromTexts(TextsOf(fields)).fields == fields;
  }

  lemma ImageNonempty(m: map<string, string>, f: Rewrite)
    requires NoMerge(m, f) && m != map[]
    ensures Image(m, f) != map[]
  {
    var k :| k in m;
    ImageAt(m, f, k);
  }

  lemma TextMapRewritten(m: map<string, string>, f: Rewrite)
    requires m != map[] && NoMerge(m, f)
    ensures RewriteTextMap(FromTexts(m), f) == FromTexts(Image(m, f))
  {
    TextsBack(m);
    var k :| k in m;
    assert k in FromTexts(m).fields;
  }

  lemma SentMapUndone(rw: Rewriter, m: map<string, string>)
    requires WellFormed(rw) && VisibleMap(rw, m) && m != map[]
    ensures RewriteTextMap(RewriteTextMap(FromTexts(m), Renaming(rw)), Restoring(rw)) == FromTexts(m)
  {
    RenamedMapRestores(rw, m);
    TextMapUndone(m, Renaming(rw), Restoring(rw));
  }

  lemma ShownMapUndone(rw: Rewriter, m: map<string, string>)
    requires WellFormed(rw) && NonePreserved(m) && NoMerge(m, Restoring(rw)) && m != map[]
    ensures RewriteTextMap(RewriteTextMap(FromTexts(m), Restoring(rw)), Renaming(rw)) == FromTexts(m)
  {
    RestoredMapRenames(rw, m);
    TextMapUndone(m, Restoring(rw), Renaming(rw));
  }

  lemma MapUndone(rw: Rewriter, a: Action, x: Json)
    requires WellFormed(rw) && OwnMap(rw, a, x)
    ensures RewriteTextMap(RewriteTextMap(x, NamesFor(rw, a)), NamesFor(rw, Opposite(a))) == x
  {
    if x.Obj? && x.fields != map[] {
      var m := TextsOf(x.fields);
      var k :| k in x.fields;
      assert k in m;
      TextsForth(x.fields);
      assert x == FromTexts(m);
      if a.ToServer? {
        SentMapUndone(rw, m);
      } else {
        ShownMapUndone(rw, m);
      }
    }
  }

  lemma TextMapUndone(m: map<string, string>, f: Rewrite, g: Rewrite)
    requires m != map[] && NoMerge(m, f) && NoMerge(Image(m, f), g) && Image(Image(m, f), g) == m
    ensures RewriteTextMap(RewriteTextMap(FromTexts(m), f), g) == FromTexts(m)
  {
    ImageNonempty(m, f);
    TextMapRewritten(m, f);
    TextMapRewritten(Image(m, f), g);
  }

  predicate OwnList(rw: Rewriter, a: Action, x: Json) {
    x.Arr? ==> forall i :: 0 <= i < |x.items| ==>
                 x.items[i].Str? && if a.ToServer? then ClientVisible(rw, x.items[i].text, "") else !IsPreserved(x.items[i].text)
  }

  lemma NameUndone(rw: Rewriter, a: Action, t: string)
    requires WellFormed(rw) && if a.ToServer? then ClientVisible(rw, t, "") else !IsPreserved(t)
    ensures NamesFor(rw, Opposite(a))(NamesFor(rw, a)(t, "").0, "").0 == t
  {
    EmptyValueKept(rw, t);
    RestoreRenamedIff(rw, t, "");
    RenameRestoredIff(rw, t, "");
  }

  lemma ListUndone(rw: Rewriter, a: Action, x: Json)
    requires WellFormed(rw) && OwnList(rw, a, x)
    ensures RewriteTextList(RewriteTextList(x, NamesFor(rw, a)), NamesFor(rw, Opposite(a))) == x
  {
    var f, g := NamesFor(rw, a), NamesFor(rw, Opposite(a));
    var there, back := ((y: Json) => Str(f(ItemText(y), "").0)), ((y: Json) => Str(g(ItemText(y), "").0));
    if x.Arr? {
      forall i | 0 <= i < |x.items|
        ensures back(there(x.items[i])) == x.items[i]
      {
        var t := x.items[i].text;
        NameUndone(rw, a, t);
        assert x.items[i].Str?;
        assert ItemText(x.items[i]) == t;
        assert there(x.items[i]) == Str(f(t, "").0);
        var sent := f(t, "").0;
        assert ItemText(Str(sent)) == sent;
        assert back(Str(sent)) == Str(g(sent, "").0);
      }
      ItemsUndone(x, there, back);
    }
  }

  // ----- references -----

  /** A reference with an API version that belongs to the side it is rewritten from: the client's has
      no renamed group, the server's no kind with a rule under its original group, and prefixed kinds
      in renamed groups. */
  predicate OwnGVK(r: Rules, a: Action, x: Json) {
    && TextField(x, "kind") && TextField(x, "apiVersion")
    && var k, v := TextOf(x, "kind"), TextOf(x, "apiVersion");
       if a.ToServer? then !IsRenamedGroup(r, v)
       else if IsRenamedGroup(r, v) && HasKindRule(r, RestoreApiVersion(r, v), RestoreKind(r, k)) then HasPrefix(k, r.kindPrefix)
       else !HasKindRule(r, v, k)
  }

  /** A rule speaks only of kinds and groups that are there, and of kinds without the prefix. */
  lemma RuledKind(r: Rules, apiVersion: string, kind: string)
    requires RulesOk(r) && HasKindRule(r, apiVersion, kind)
    ensures apiVersion != "" && kind != "" && !HasPrefix(kind, r.kindPrefix) && GroupOf(apiVersion) in r.groups
    ensures GroupOf(apiVersion) !in r.groupsBack
  {
    var g := GroupOf(apiVersion);
    assert GroupOk(r, g);
    var p :| p in r.groups[g].resources && (r.groups[g].resources[p].kind == kind || r.groups[g].resources[p].listKind == kind);
    assert ResourceOk(r, r.groups[g].resources[p]);
    assert Cut("", '/').None?;
  }

  function SetBoth(x: Json, k: string, v: string): Json {
    SetField(SetField(x, "kind", Str(k)), "apiVersion", Str(v))
  }

  lemma BothSet(x: Json, k: string, v: string)
    requires x.Obj?
    ensures SetBoth(x, k, v).Obj? && TextOf(SetBoth(x, k, v), "kind") == k && TextOf(SetBoth(x, k, v), "apiVersion") == v
  {
  }

  predicate HasBoth(x: Json, k: string, v: string) {
    x.Obj? && "kind" in x.fields && x.fields["kind"] == Str(k) && "apiVersion" in x.fields && x.fields["apiVersion"] == Str(v)
  }

  lemma BothSetBack(x: Json, k: string, v: string, k': string, v': string)
    requires HasBoth(x, k, v)
    ensures SetBoth(SetBoth(x, k', v'), k, v) == x
  {
    assert x.fields["kind" := Str(k')]["apiVersion" := Str(v')]["kind" := Str(k)]["apiVersion" := Str(v)] == x.fields;
  }

  /** The guard under which kind and group are rewritten. */
  predicate Rewrites(r: Rules, a: Action, k: string, v: string) {
    if a.ToServer? then HasKindRule(r, v, k)
    else IsRenamedGroup(r, v) && HasKindRule(r, RestoreApiVersion(r, v), RestoreKind(r, k))
  }

  lemma GVKSets(r: Rules, a: Action, x: Json)
    ensures var k, v := TextOf(x, "kind"), TextOf(x, "apiVersion");
            RewriteGVK(r, a, x) == if Rewrites(r, a, k, v) then SetBoth(x, KindFor(r, a, k), ApiVersionFor(r, a, v)) else x
  {
  }

  lemma GVKSetBack(r: Rules, a: Action, x: Json, k: string, v: string)
    requires HasBoth(x, k, v) && Rewrites(r, a, k, v)
    requires var k', v' := KindFor(r, a, k), ApiVersionFor(r, a, v);
             Rewrites(r, Opposite(a), k', v') && KindFor(r, Opposite(a), k') == k && ApiVersionFor(r, Opposite(a), v') == v
    ensures RewriteGVK(r, Opposite(a), RewriteGVK(r, a, x)) == x
  {
    var k', v' := KindFor(r, a, k), ApiVersionFor(r, a, v);
    GVKSets(r, a, x);
    BothSet(x, k', v');
    GVKSets(r, Opposite(a), SetBoth(x, k', v'));
    BothSetBack(x, k, v, k', v');
  }

  lemma RuledBothWays(r: Rules, k: string, v: string)
    requires RulesOk(r) && HasKindRule(r, v, k)
    ensures Rewrites(r, ToClient, RenameKind(r, k), RenameApiVersion(r, v))
    ensures RestoreKind(r, RenameKind(r, k)) == k && RestoreApiVersion(r, RenameApiVersion(r, v)) == v
  {
    RuledKind(r, v, k);
    GroupRewritten(r, v);
    assert GroupOk(r, GroupOf(v));
    ApiVersionRoundTripIff(r, v);
    KindRoundTrip(r, k);
  }

  lemma GVKToServerUndone(r: Rules, x: Json)
    requires RulesOk(r) && OwnGVK(r, ToServer, x)
    ensures RewriteGVK(r, ToClient, RewriteGVK(r, ToServer, x)) == x
  {
    var k, v := TextOf(x, "kind"), TextOf(x, "apiVersion");
    GVKSets(r, ToServer, x);
    if HasKindRule(r, v, k) {
      RuledKind(r, v, k);
      RuledBothWays(r, k, v);
      GVKSetBack(r, ToServer, x, k, v);
    } else {
      GVKSets(r, ToClient, x);
    }
  }

  lemma GVKToClientUndone(r: Rules, x: Json)
    requires RulesOk(r) && OwnGVK(r, ToClient, x)
    ensures RewriteGVK(r, ToServer, RewriteGVK(r, ToClient, x)) == x
  {
    var k, v := TextOf(x, "kind"), TextOf(x, "apiVersion");
    GVKSets(r, ToClient, x);
    if Rewrites(r, ToClient, k, v) {
      assert GroupOk(r, r.groupsBack[GroupOf(v)]);
      ApiVersionRoundTripIff(r, v);
      KindRoundTrip(r, k);
      PresentPrefixed(r, x, k, v);
      GVKSetBack(r, ToClient, x, k, v);
    } else {
      GVKSets(r, ToServer, x);
    }
  }

  lemma PresentPrefixed(r: Rules, x: Json, k: string, v: string)
    requires RulesOk(r) && TextField(x, "kind") && TextField(x, "apiVersion")
    requires k == TextOf(x, "kind") && v == TextOf(x, "apiVersion") && HasPrefix(k, r.kindPrefix) && IsRenamedGroup(r, v)
    ensures "kind" in x.fields && "apiVersion" in x.fields && x.fields["kind"] == Str(k) && x.fields["apiVersion"] == Str(v)
  {
    assert GroupOk(r, r.groupsBack[GroupOf(v)]);
    assert Cut("", '/').None?;
  }

  lemma GVKUndone(r: Rules, a: Action, x: Json)
    requires RulesOk(r) && OwnGVK(r, a, x)
    ensures RewriteGVK(r, Opposite(a), RewriteGVK(r, a, x)) == x
  {
    if a.ToServer? {
      GVKToServerUndone(r, x);
    } else {
      GVKToClientUndone(r, x);
    }
  }

  predicate OwnKindRef(r: Rules, a: Action, x: Json) {
    && TextField(x, "kind") && TextField(x, "apiVersion")
    && var k := TextOf(x, "kind");
       if TextOf(x, "apiVersion") != "" then OwnGVK(r, a, x)
       else if a.ToServer? then !HasPrefix(k, r.kindPrefix) else !IsKnownKind(r, k)
  }

  lemma KnownKind(r: Rules, kind: string)
    requires RulesOk(r) && IsKnownKind(r, kind)
    ensures kind != "" && !HasPrefix(kind, r.kindPrefix)
  {
    var g, p :| g in r.groups && p in r.groups[g].resources && r.groups[g].resources[p].kind == kind;
    assert ResourceOk(r, r.groups[g].resources[p]);
  }

  lemma KindSetTwice(x: Json, k: string, k': string)
    requires x.Obj? && "kind" in x.fields && x.fields["kind"] == Str(k)
    ensures SetField(SetField(x, "kind", Str(k')), "kind", Str(k)) == x
  {
    assert x.fields["kind" := Str(k')]["kind" := Str(k)] == x.fields;
  }

  lemma BareRefSets(r: Rules, a: Action, x: Json)
    requires TextOf(x, "apiVersion") == ""
    ensures var k := TextOf(x, "kind");
            var known := if a.ToServer? then k else RestoreKind(r, k);
            RewriteKindRef(r, a, x) ==
            if k == "" || !IsKnownKind(r, known) || KindFor(r, a, k) == "" || KindFor(r, a, k) == k then x
            else SetField(x, "kind", Str(KindFor(r, a, k)))
  {
  }

  /** A reference whose kind is rewritten is rewritten back. */
  lemma BareKindUndone(r: Rules, a: Action, x: Json, k: string, k': string)
    requires x.Obj? && "kind" in x.fields && x.fields["kind"] == Str(k) && TextOf(x, "apiVersion") == ""
    requires k != "" && k' != "" && k' != k
    requires RewriteKindRef(r, a, x) == SetField(x, "kind", Str(k'))
    requires KindFor(r, Opposite(a), k') == k && IsKnownKind(r, if a.ToServer? then RestoreKind(r, k') else k')
    ensures RewriteKindRef(r, Opposite(a), RewriteKindRef(r, a, x)) == x
  {
    var y := SetField(x, "kind", Str(k'));
    KindSetTwice(x, k, k');
    assert TextOf(y, "kind") == k' && TextOf(y, "apiVersion") == "";
    BareRefSets(r, Opposite(a), y);
  }

  lemma BareRefUndone(r: Rules, a: Action, x: Json)
    requires RulesOk(r) && OwnKindRef(r, a, x) && TextOf(x, "apiVersion") == ""
    ensures RewriteKindRef(r, Opposite(a), RewriteKindRef(r, a, x)) == x
  {
    var k := TextOf(x, "kind");
    var k' := KindFor(r, a, k);
    var known := if a.ToServer? then k else RestoreKind(r, k);
    KindRoundTrip(r, k);
    BareRefSets(r, a, x);
    if k != "" && IsKnownKind(r, known) {
      KnownKind(r, known);
      assert RenameKind(r, known) != known;
      if k' != k {
        assert known == if a.ToServer? then RestoreKind(r, k') else k';
        assert KindFor(r, Opposite(a), k') == k;
        BareKindUndone(r, a, x, k, k');
      }
    } else {
      BareRefSets(r, Opposite(a), x);
    }
  }

  lemma VersionStays(r: Rules, a: Action, v: string)
    requires RulesOk(r) && v != ""
    ensures ApiVersionFor(r, a, v) != ""
  {
    var g := GroupOf(v);
    if g in r.groups {
      assert GroupOk(r, g);
    }
    if g in r.groupsBack {
      assert GroupOk(r, r.groupsBack[g]);
    }
  }

  lemma KindRefUndone(r: Rules, a: Action, x: Json)
    requires RulesOk(r) && OwnKindRef(r, a, x)
    ensures RewriteKindRef(r, Opposite(a), RewriteKindRef(r, a, x)) == x
  {
    var k, v := TextOf(x, "kind"), TextOf(x, "apiVersion");
    if v == "" {
      BareRefUndone(r, a, x);
    } else if k != "" {
      GVKUndone(r, a, x);
      VersionStays(r, a, v);
      GVKKeepsKind(r, a, x);
    }
  }

  /** A reference that names a kind still names one after it is rewritten. */
  lemma GVKKeepsKind(r: Rules, a: Action, x: Json)
    requires RulesOk(r) && x.Obj? && TextOf(x, "kind") != "" && TextOf(x, "apiVersion") != ""
    ensures var y := RewriteGVK(r, a, x); TextOf(y, "kind") != "" && TextOf(y, "apiVersion") != ""
  {
    var k, v := TextOf(x, "kind"), TextOf(x, "apiVersion");
    GVKSets(r, a, x);
    VersionStays(r, a, v);
    BothSet(x, KindFor(r, a, k), ApiVersionFor(r, a, v));
    if a.ToClient? && Rewrites(r, a, k, v) {
      RuledKind(r, RestoreApiVersion(r, v), RestoreKind(r, k));
    }
  }
}

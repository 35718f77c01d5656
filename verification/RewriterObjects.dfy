/**
 Rewriting of custom resources and of the metadata and kind references every resource carries, from
 the client's names to the server's and back.
 */
module RewriterObjects {
  import opened Basics
  import opened RewriterText
  import opened RewriterNames
  import opened RewriterMaps
  import opened RewriterJson
  import opened RewriterRules

  datatype Action = ToServer | ToClient

  function ApiVersionFor(r: Rules, a: Action, apiVersion: string): string {
    if a.ToServer? then RenameApiVersion(r, apiVersion) else RestoreApiVersion(r, apiVersion)
  }

  function KindFor(r: Rules, a: Action, kind: string): string {
    if a.ToServer? then RenameKind(r, kind) else RestoreKind(r, kind)
  }

  function NamesFor(rw: Rewriter, a: Action): Rewrite {
    if a.ToServer? then Renaming(rw) else Restoring(rw)
  }

  // ----- one field -----

  function TextsOf(fields: map<string, Json>): map<string, string> {
    map k | k in fields :: TextOf(Obj(fields), k)
  }

  function FromTexts(m: map<string, string>): Json {
    Obj(map k | k in m :: Str(m[k]))
  }

  /** A map of texts; where names would merge the result depends on the order and is left open. */
  function RewriteTextMap(j: Json, f: Rewrite): Json {
    if !j.Obj? || j.fields == map[] || !NoMerge(TextsOf(j.fields), f) then j else FromTexts(Image(TextsOf(j.fields), f))
  }

  function ItemText(j: Json): string {
    match j
    case Str(s) => s
    case Num(s) => s
    case Bool(b) => if b then "true" else "false"
    case _ => ""
  }

  function RewriteTextList(j: Json, f: Rewrite): Json {
    EachItem(j, x => Str(f(ItemText(x), "").0))
  }

  /** The API version of one managedFields entry. */
  function ManagedEntry(r: Rules, a: Action): Change {
    x => At(x, ["apiVersion"], v => Str(ApiVersionFor(r, a, ItemText(v))))
  }

  /** Kind and group together, if the two have a rule. */
  function RewriteGVK(r: Rules, a: Action, j: Json): Json {
    var kind, apiVersion := TextOf(j, "kind"), TextOf(j, "apiVersion");
    if a.ToServer? && !HasKindRule(r, apiVersion, kind) then j
    else if a.ToClient? && !(IsRenamedGroup(r, apiVersion) && HasKindRule(r, RestoreApiVersion(r, apiVersion), RestoreKind(r, kind))) then j
    else SetField(SetField(j, "kind", Str(KindFor(r, a, kind))), "apiVersion", Str(ApiVersionFor(r, a, apiVersion)))
  }

  /** A reference to a kind; without an API version any known kind counts. */
  function RewriteKindRef(r: Rules, a: Action, j: Json): Json {
    var kind := TextOf(j, "kind");
    if kind == "" then j
    else if TextOf(j, "apiVersion") != "" then RewriteGVK(r, a, j)
    else
      var known := if a.ToServer? then kind else RestoreKind(r, kind);
      var renamed := KindFor(r, a, kind);
      if !IsKnownKind(r, known) || renamed == "" || renamed == kind then j else SetField(j, "kind", Str(renamed))
  }

  // ----- changes at one place -----

  function VersionChange(r: Rules, a: Action): Change {
    x => Str(ApiVersionFor(r, a, ItemText(x)))
  }

  function KindChange(r: Rules, a: Action): Change {
    x => Str(KindFor(r, a, ItemText(x)))
  }

  function ManagedChange(r: Rules, a: Action): Change {
    x => EachItem(x, ManagedEntry(r, a))
  }

  function MapChange(rw: Rewriter, a: Action): Change {
    x => RewriteTextMap(x, NamesFor(rw, a))
  }

  function ListChange(rw: Rewriter, a: Action): Change {
    x => RewriteTextList(x, NamesFor(rw, a))
  }

  function GVKChange(r: Rules, a: Action): Change {
    x => RewriteGVK(r, a, x)
  }

  function OwnersChange(r: Rules, a: Action): Change {
    x => EachItem(x, GVKChange(r, a))
  }

  /** References are objects; anything else at their place is left alone. */
  function RefChange(r: Rules, a: Action): Change {
    (x: Json) => if x.Obj? then RewriteKindRef(r, a, x) else x
  }

  // ----- the parts of an object -----

  /** Labels, annotations, finalizers, owner references. */
  function RewriteMetadata(r: Rules, a: Action, metadata: Json): Json {
    var m1 := At(metadata, ["labels"], MapChange(r.labels, a));
    var m2 := At(m1, ["annotations"], MapChange(r.annotations, a));
    var m3 := At(m2, ["finalizers"], ListChange(r.finalizers, a));
    At(m3, ["ownerReferences"], OwnersChange(r, a))
  }

  function MetadataChange(r: Rules, a: Action): Change {
    (x: Json) => if x.Obj? then RewriteMetadata(r, a, x) else x
  }

  /** The paths of an object that hold references to kinds, found by its original kind. */
  function RefPaths(r: Rules, j: Json): seq<Path> {
    var kind := RestoreKind(r, TextOf(j, "kind"));
    var apiVersion := TextOf(j, "apiVersion");
    if kind !in r.kindRefPaths then []
    else if apiVersion != "" && !HasKindRule(r, RestoreApiVersion(r, apiVersion), kind) then []
    else r.kindRefPaths[kind]
  }

  function RewriteRefsAt(r: Rules, a: Action, j: Json, paths: seq<Path>): Json
    decreases |paths|
  {
    if paths == [] then j else RewriteRefsAt(r, a, At(j, paths[0], RefChange(r, a)), paths[1..])
  }

  function RewriteSpecKindRefs(r: Rules, a: Action, j: Json): Json {
    RewriteRefsAt(r, a, j, RefPaths(r, j))
  }

  /** The loop over the reference paths, replacing the object each time. */
  method RewriteSpecKindRefsLoop(r: Rules, a: Action, obj: Json) returns (j: Json)
    ensures j == RewriteSpecKindRefs(r, a, obj)
  {
    j := obj;
    var paths := RefPaths(r, obj);
    for i := 0 to |paths|
      invariant RewriteRefsAt(r, a, obj, paths) == RewriteRefsAt(r, a, j, paths[i..])
    {
      assert paths[i..][0] == paths[i] && paths[i..][1..] == paths[i + 1..];
      j := At(j, paths[i], RefChange(r, a));
    }
  }

  function RewriteTypeMeta(r: Rules, a: Action, j: Json): Json {
    SetField(SetField(j, "apiVersion", Str(ApiVersionFor(r, a, TextOf(j, "apiVersion")))), "kind", Str(KindFor(r, a, TextOf(j, "kind"))))
  }

  /** A custom resource: its API version and kind, and those its managed fields record. */
  function RewriteResource(r: Rules, a: Action, j: Json): Json {
    At(RewriteTypeMeta(r, a, j), ["metadata", "managedFields"], ManagedChange(r, a))
  }

  function ResourcesChange(r: Rules, a: Action): Change {
    x => EachItem(x, y => RewriteResource(r, a, y))
  }

  function RewriteCustomResourceOrList(r: Rules, a: Action, j: Json): Json {
    var kind, apiVersion := TextOf(j, "kind"), TextOf(j, "apiVersion");
    if a.ToClient? && !IsRenamedGroup(r, apiVersion) then j
    else
      var k := if a.ToClient? then RestoreKind(r, kind) else kind;
      var v := if a.ToClient? then RestoreApiVersion(r, apiVersion) else apiVersion;
      if !HasKindRule(r, v, k) then j
      else if HasListKind(r, v, k) then At(RewriteTypeMeta(r, a, j), ["items"], ResourcesChange(r, a))
      else RewriteResource(r, a, j)
  }

  /** What every single resource has rewritten, whatever its kind. */
  function RewriteCommon(r: Rules, a: Action, j: Json): Json {
    At(RewriteSpecKindRefs(r, a, j), ["metadata"], MetadataChange(r, a))
  }

  function CommonsChange(r: Rules, a: Action): Change {
    x => EachItem(x, y => RewriteCommon(r, a, y))
  }

  function RewriteCommonOrList(r: Rules, a: Action, j: Json): Json {
    if HasSuffix(TextOf(j, "kind"), "List") then At(j, ["items"], CommonsChange(r, a)) else RewriteCommon(r, a, j)
  }

  /** The kinds that have rewriters of their own, and what a payload of each of them becomes. */
  type Dispatch = map<string, (Action, Json) -> Json>

  /** A payload by its kind: what has no rewriter of its own is a custom resource, or a list of them. */
  function RewritePayload(r: Rules, own: Dispatch, a: Action, j: Json): Json {
    if TextOf(j, "kind") in own then own[TextOf(j, "kind")](a, j)
    else RewriteCommonOrList(r, a, RewriteCustomResourceOrList(r, a, j))
  }
}

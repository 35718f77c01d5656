/**
 Paths of the API server: taking an /apis path apart, printing it again, and renaming the group and
 the resource in it. Paths under /api, the root and unknown ones are passed on as they are.
 */
module RewriterEndpoint {
  import opened Basics
  import opened RewriterText
  import opened RewriterRules
  import RewriterShipped

  const APIS := "apis"
  const NAMESPACES := "namespaces"
  const CRD_GROUP := "apiextensions.k8s.io"
  const CRD_RESOURCE := "customresourcedefinitions"

  /** An endpoint under /apis, part by part; parts a path does not have are empty. */
  datatype Endpoint = Endpoint(
    prefix: string,
    group: string,
    version: string,
    namespace: string,
    resourceType: string,
    name: string,
    subresource: string,
    remainder: seq<string>,
    isCRD: bool,
    crdResourceType: string,
    crdGroup: string)

  const NOTHING := Endpoint("", "", "", "", "", "", "", [], false, "", "")

  // ----- taking a path apart -----

  /** The items of a path still to be read. */
  class PathItems {
    var items: seq<string>

    constructor (items: seq<string>)
      ensures this.items == items
    {
      this.items := items;
    }

    /** Takes the first item off, and says whether it was the last. */
    method Shift() returns (first: string, isLast: bool)
      modifies this
      ensures if old(items) == [] then first == "" && isLast && items == []
              else first == old(items)[0] && items == old(items)[1..] && isLast == (items == [])
    {
      if |items| == 0 {
        return "", true;
      }
      first := items[0];
      items := items[1..];
      isLast := |items| == 0;
    }
  }

  function CRDParts(name: string): (string, string) {
    var parts := Cut(name, '.');
    if parts.Some? then parts.value else (name, "")
  }

  function Item(items: seq<string>, i: nat): string {
    if i < |items| then items[i] else ""
  }

  /** The first five items, before it is known whether the resource lies in a namespace. */
  function Head(items: seq<string>): Endpoint {
    var isCRD := |items| >= 4 && items[1] == CRD_GROUP && items[3] == CRD_RESOURCE;
    var crd := if isCRD && |items| >= 5 then CRDParts(items[4]) else ("", "");
    NOTHING.(prefix := Item(items, 0), group := Item(items, 1), version := Item(items, 2), resourceType := Item(items, 3),
             name := Item(items, 4), isCRD := isCRD, crdResourceType := crd.0, crdGroup := crd.1)
  }

  /** A sixth item is a subresource, or the resource type inside a namespace. */
  function Sixth(ae: Endpoint, item: string): Endpoint {
    if ae.resourceType == NAMESPACES then ae.(namespace := ae.name, resourceType := item, name := "", subresource := "")
    else ae.(subresource := item)
  }

  function ParseApis(items: seq<string>): Endpoint {
    if |items| <= 5 then Head(items)
    else
      var ae := Sixth(Head(items), items[5]);
      if |items| == 6 then ae
      else if |items| == 7 then ae.(name := items[6])
      else ae.(name := items[6], subresource := items[7], remainder := items[8..])
  }

  /** Up to the fifth item. */
  method ParseHead(path: PathItems) returns (ae: Endpoint, isLast: bool)
    modifies path
    ensures ae == Head(old(path.items)) && isLast == (|old(path.items)| <= 5)
    ensures !isLast ==> path.items == old(path.items)[5..]
  {
    var part;
    ae := NOTHING;

    part, isLast := path.Shift();
    ae := ae.(prefix := part);
    if isLast {
      return;
    }
    part, isLast := path.Shift();
    ae := ae.(group := part);
    if isLast {
      return;
    }
    part, isLast := path.Shift();
    ae := ae.(version := part);
    if isLast {
      return;
    }
    part, isLast := path.Shift();
    ae := ae.(resourceType := part);
    if ae.group == CRD_GROUP && ae.resourceType == CRD_RESOURCE {
      ae := ae.(isCRD := true);
    }
    if isLast {
      return;
    }
    part, isLast := path.Shift();
    ae := ae.(name := part);
    if ae.isCRD {
      ae := ae.(crdResourceType := CRDParts(part).0, crdGroup := CRDParts(part).1);
    }
  }

  method ParseAPIsEndpoint(segments: seq<string>) returns (ae: Endpoint)
    ensures ae == ParseApis(segments)
  {
    var path := new PathItems(segments);
    var isLast;
    ae, isLast := ParseHead(path);
    if isLast {
      return;
    }
    ae := ParseTail(path, ae);
    if |segments| >= 8 {
      assert segments[5..][1..][1..][1..] == segments[8..];
    }
  }

  /** From the sixth item on. */
  method ParseTail(path: PathItems, head: Endpoint) returns (ae: Endpoint)
    requires path.items != []
    modifies path
    ensures var items := old(path.items);
            var six := Sixth(head, items[0]);
            ae == if |items| == 1 then six
                  else if |items| == 2 then six.(name := items[1])
                  else six.(name := items[1], subresource := items[2], remainder := items[1..][1..][1..])
    ensures |old(path.items)| <= 2 ==> path.items == []
  {
    ae := head;
    var part, isLast := path.Shift();
    ae := ae.(subresource := part);
    if ae.resourceType == NAMESPACES {
      ae := ae.(namespace := ae.name, resourceType := ae.subresource, name := "", subresource := "");
    }
    if isLast {
      return;
    }
    part, isLast := path.Shift();
    ae := ae.(name := part);
    if isLast {
      return;
    }
    part, isLast := path.Shift();
    ae := ae.(subresource := part);
    ae := ae.(remainder := path.items);
  }

  // ----- printing -----

  function NonEmpty(parts: seq<string>): seq<string> {
    if parts == [] then [] else NonEmpty(parts[..|parts| - 1]) + if parts[|parts| - 1] != "" then [parts[|parts| - 1]] else []
  }

  function Join(parts: seq<string>): string {
    if parts == [] then "" else if |parts| == 1 then parts[0] else parts[0] + "/" + Join(parts[1..])
  }

  /** The parts in printing order; the namespace is printed with its own word before it. */
  function Parts(ae: Endpoint): seq<string> {
    [ae.prefix, ae.group, ae.version, if ae.namespace != "" then NAMESPACES + "/" + ae.namespace else "",
     ae.resourceType, ae.name, ae.subresource] + ae.remainder
  }

  function Path(ae: Endpoint): string {
    "/" + Join(NonEmpty(Parts(ae)))
  }

  method PrintPath(ae: Endpoint) returns (path: string)
    ensures path == Path(ae)
  {
    var ns := "";
    if ae.namespace != "" {
      ns := NAMESPACES + "/" + ae.namespace;
    }
    var parts := [ae.prefix, ae.group, ae.version, ns, ae.resourceType, ae.name, ae.subresource];
    if |ae.remainder| > 0 {
      parts := parts + ae.remainder;
    }
    assert parts == Parts(ae);
    var nonEmptyParts: seq<string> := [];
    for i := 0 to |parts|
      invariant nonEmptyParts == NonEmpty(parts[..i])
    {
      assert parts[..i + 1][..i] == parts[..i];
      if parts[i] != "" {
        nonEmptyParts := nonEmptyParts + [parts[i]];
      }
    }
    assert parts[..|parts|] == parts;
    path := "/" + Join(nonEmptyParts);
  }

  /** The same, segment by segment. */
  function Namespaced(ae: Endpoint): seq<string> {
    if ae.namespace != "" then [NAMESPACES, ae.namespace] else []
  }

  function Segments(ae: Endpoint): seq<string> {
    NonEmpty([ae.prefix, ae.group, ae.version]) + Namespaced(ae) + NonEmpty([ae.resourceType, ae.name, ae.subresource]) + NonEmpty(ae.remainder)
  }

  // ----- paths as texts -----

  function Split(s: string): (r: seq<string>)
    ensures r != []
    decreases |s|
  {
    var parts := Cut(s, '/');
    if parts.None? then [s] else [parts.value.0] + Split(parts.value.1)
  }

  function TrimSlashes(s: string): string
    decreases |s|
  {
    if s != "" && s[0] == '/' then TrimSlashes(s[1..])
    else if s != "" && s[|s| - 1] == '/' then TrimSlashes(s[..|s| - 1])
    else s
  }

  predicate WellSegmented(segments: seq<string>) {
    segments != [] && forall i :: 0 <= i < |segments| ==> segments[i] != "" && '/' !in segments[i]
  }

  lemma {:induction false} SplitJoined(segments: seq<string>)
    requires WellSegmented(segments)
    ensures Split(Join(segments)) == segments
    decreases |segments|
  {
    if |segments| > 1 {
      SplitJoined(segments[1..]);
      CutJoined(segments[0], '/', Join(segments[1..]));
    }
  }

  lemma {:induction false} JoinEnds(segments: seq<string>)
    requires WellSegmented(segments)
    ensures var s := Join(segments); s != "" && s[0] != '/' && s[|s| - 1] != '/'
    decreases |segments|
  {
    var first := segments[0];
    assert first[0] in first && first[|first| - 1] in first;
    if |segments| > 1 {
      JoinEnds(segments[1..]);
    }
  }

  /** What a printed path is split into. */
  lemma PathSplits(segments: seq<string>)
    requires WellSegmented(segments)
    ensures Split(TrimSlashes("/" + Join(segments))) == segments
  {
    JoinEnds(segments);
    SplitJoined(segments);
    assert ("/" + Join(segments))[1..] == Join(segments);
  }

  lemma {:induction false} NonEmptyConcat(a: seq<string>, b: seq<string>)
    ensures NonEmpty(a + b) == NonEmpty(a) + NonEmpty(b)
    decreases |b|
  {
    if b == [] {
      assert a + b == a;
    } else {
      NonEmptyConcat(a, b[..|b| - 1]);
      assert (a + b)[..|a + b| - 1] == a + b[..|b| - 1];
    }
  }

  lemma {:induction false} NonEmptyAll(parts: seq<string>)
    requires forall i :: 0 <= i < |parts| ==> parts[i] != ""
    ensures NonEmpty(parts) == parts
  {
    if parts != [] {
      var n := |parts| - 1;
      NonEmptyAll(parts[..n]);
      assert NonEmpty(parts) == parts[..n] + [parts[n]];
    }
  }

  lemma {:induction false} JoinConcat(a: seq<string>, b: seq<string>)
    requires a != [] && b != []
    ensures Join(a + b) == Join(a) + "/" + Join(b)
    decreases |a|
  {
    if |a| == 1 {
      assert (a + b)[1..] == b;
    } else {
      JoinConcat(a[1..], b);
      assert (a + b)[1..] == a[1..] + b;
    }
  }

  lemma One(s: string)
    ensures NonEmpty([s]) == if s != "" then [s] else []
  {
    assert [s][..0] == [];
  }

  lemma FourConcat(a: seq<string>, b: seq<string>, c: seq<string>, d: seq<string>)
    ensures NonEmpty(a + b + c + d) == NonEmpty(a) + NonEmpty(b) + NonEmpty(c) + NonEmpty(d)
  {
    NonEmptyConcat(a + b + c, d);
    NonEmptyConcat(a + b, c);
    NonEmptyConcat(a, b);
  }

  function Front(ae: Endpoint): seq<string> {
    NonEmpty([ae.prefix, ae.group, ae.version])
  }

  function Back(ae: Endpoint): seq<string> {
    NonEmpty([ae.resourceType, ae.name, ae.subresource]) + NonEmpty(ae.remainder)
  }

  lemma PrintedParts(ae: Endpoint, ns: string)
    requires ns == if ae.namespace != "" then NAMESPACES + "/" + ae.namespace else ""
    ensures NonEmpty(Parts(ae)) == Front(ae) + NonEmpty([ns]) + Back(ae)
  {
    var head, tail := [ae.prefix, ae.group, ae.version], [ae.resourceType, ae.name, ae.subresource];
    assert Parts(ae) == head + [ns] + tail + ae.remainder;
    FourConcat(head, [ns], tail, ae.remainder);
  }

  lemma FrontThere(ae: Endpoint)
    requires ae.prefix != ""
    ensures Front(ae) != []
  {
    NonEmptyThree(ae.prefix, ae.group, ae.version);
  }

  lemma ThreeParts(h: seq<string>, m: seq<string>, t: seq<string>)
    ensures h + m + t == h + (m + t) && h + [] + t == h + t
  {
  }

  lemma SegmentsAre(ae: Endpoint)
    ensures Segments(ae) == Front(ae) + (Namespaced(ae) + Back(ae))
  {
    var t1, t2 := NonEmpty([ae.resourceType, ae.name, ae.subresource]), NonEmpty(ae.remainder);
    assert Front(ae) + Namespaced(ae) + t1 + t2 == Front(ae) + (Namespaced(ae) + (t1 + t2));
  }

  /** Printing joins the segments. */
  lemma PathJoinsSegments(ae: Endpoint)
    requires ae.prefix != ""
    ensures Path(ae) == "/" + Join(Segments(ae))
  {
    var ns := if ae.namespace != "" then NAMESPACES + "/" + ae.namespace else "";
    var h, t := Front(ae), Back(ae);
    PrintedParts(ae, ns);
    FrontThere(ae);
    SegmentsAre(ae);
    One(ns);
    ThreeParts(h, [ns], t);
    if ae.namespace != "" {
      NamespaceJoins(h, ae.namespace, t);
    } else {
      assert [] + t == t;
    }
  }

  lemma NamespaceJoins(h: seq<string>, namespace: string, t: seq<string>)
    requires h != []
    ensures Join(h + ([NAMESPACES + "/" + namespace] + t)) == Join(h + ([NAMESPACES, namespace] + t))
  {
    JoinConcat(h, [NAMESPACES + "/" + namespace] + t);
    JoinConcat(h, [NAMESPACES, namespace] + t);
    assert Join([NAMESPACES, namespace]) == NAMESPACES + "/" + namespace by {
      assert [NAMESPACES, namespace][1..] == [namespace];
    }
    if t != [] {
      JoinConcat([NAMESPACES + "/" + namespace], t);
      JoinConcat([NAMESPACES, namespace], t);
    } else {
      assert [NAMESPACES + "/" + namespace] + t == [NAMESPACES + "/" + namespace];
      assert [NAMESPACES, namespace] + t == [NAMESPACES, namespace];
    }
  }

  // ----- what survives -----

  predicate ApisPath(segments: seq<string>) {
    WellSegmented(segments) && segments[0] == APIS
  }

  /** A path whose parts an endpoint has room for. */
  predicate Fits(segments: seq<string>) {
    |segments| <= 6 || segments[3] == NAMESPACES
  }

  lemma NonEmptyThree(a: string, b: string, c: string)
    ensures NonEmpty([a, b, c]) == (if a != "" then [a] else []) + (if b != "" then [b] else []) + (if c != "" then [c] else [])
  {
    NonEmptyConcat([a, b], [c]);
    NonEmptyConcat([a], [b]);
    One(a);
    One(b);
    One(c);
    assert [a, b] == [a] + [b] && [a, b, c] == [a, b] + [c];
  }

  lemma RemainderKept(segments: seq<string>)
    requires WellSegmented(segments) && |segments| >= 8
    ensures NonEmpty(segments[8..]) == segments[8..]
  {
    NonEmptyAll(segments[8..]);
  }

  lemma Nothing()
    ensures NonEmpty([]) == []
  {
  }

  lemma ShortSegments(segments: seq<string>)
    requires ApisPath(segments) && |segments| <= 5
    ensures Segments(ParseApis(segments)) == segments
  {
    NonEmptyThree(Item(segments, 0), Item(segments, 1), Item(segments, 2));
    NonEmptyThree(Item(segments, 3), Item(segments, 4), "");
    Nothing();
  }

  lemma SixSegments(segments: seq<string>)
    requires ApisPath(segments) && |segments| == 6
    ensures Segments(ParseApis(segments)) == segments
  {
    var ae := ParseApis(segments);
    NonEmptyThree(segments[0], segments[1], segments[2]);
    NonEmptyThree(ae.resourceType, ae.name, ae.subresource);
    Nothing();
    assert segments == [segments[0], segments[1], segments[2], segments[3], segments[4], segments[5]];
  }

  /** From seven segments on: what the tail of the endpoint prints. */
  lemma LongTail(segments: seq<string>)
    requires ApisPath(segments) && |segments| >= 7
    ensures var ae := ParseApis(segments);
            && ae.prefix == segments[0] && ae.group == segments[1] && ae.version == segments[2]
            && ae.name == segments[6] && NonEmpty(ae.remainder) == segments[if |segments| >= 8 then 8 else 7..]
            && (segments[3] == NAMESPACES ==> ae.namespace == segments[4] && ae.resourceType == segments[5])
            && (segments[3] != NAMESPACES ==> ae.namespace == "" && ae.resourceType == segments[3])
            && ae.subresource == (if |segments| >= 8 then segments[7] else if segments[3] == NAMESPACES then "" else segments[5])
  {
    if |segments| >= 8 {
      RemainderKept(segments);
    } else {
      Nothing();
    }
  }

  lemma NamespacedSegments(segments: seq<string>)
    requires ApisPath(segments) && |segments| >= 7 && segments[3] == NAMESPACES
    ensures Segments(ParseApis(segments)) == segments
  {
    var ae := ParseApis(segments);
    LongTail(segments);
    NonEmptyThree(segments[0], segments[1], segments[2]);
    NonEmptyThree(ae.resourceType, ae.name, ae.subresource);
    var front := [segments[0], segments[1], segments[2]] + [segments[3], segments[4]];
    assert segments[..5] == front;
    if |segments| == 7 {
      assert Segments(ae) == front + [segments[5], segments[6]] + [];
    } else {
      assert segments[5..8] == [segments[5], segments[6], segments[7]];
      assert Segments(ae) == front + segments[5..8] + segments[8..];
    }
  }

  /** Beyond six segments a cluster-scoped resource loses its own name. */
  lemma ClusterSegments(segments: seq<string>)
    requires ApisPath(segments) && |segments| >= 7 && segments[3] != NAMESPACES
    ensures var all := Segments(ParseApis(segments));
            if |segments| == 7 then all == segments[..4] + [segments[6], segments[5]]
            else all == segments[..4] + [segments[6], segments[7]] + segments[8..]
  {
    var ae := ParseApis(segments);
    LongTail(segments);
    NonEmptyThree(segments[0], segments[1], segments[2]);
    NonEmptyThree(ae.resourceType, ae.name, ae.subresource);
  }

  lemma SegmentsOf(segments: seq<string>)
    requires ApisPath(segments)
    ensures Segments(ParseApis(segments)) == segments <==> Fits(segments)
  {
    if |segments| <= 5 {
      ShortSegments(segments);
    } else if |segments| == 6 {
      SixSegments(segments);
    } else {
      if segments[3] == NAMESPACES {
        NamespacedSegments(segments);
      } else {
        ClusterSegments(segments);
        assert |Segments(ParseApis(segments))| < |segments|;
      }
    }
  }

  /** A path survives being taken apart and printed exactly when it has at most six segments or names
      a namespace: beyond that a cluster-scoped name is overwritten. */
  lemma ParsePrintIff(segments: seq<string>)
    requires ApisPath(segments)
    ensures Segments(ParseApis(segments)) == segments <==> Fits(segments)
    ensures Fits(segments) ==> Path(ParseApis(segments)) == "/" + Join(segments)
  {
    SegmentsOf(segments);
    PathJoinsSegments(ParseApis(segments));
  }

  /** A path is passed on as it is unless it lies under /apis. */
  datatype Parsed = AsIs(path: string) | Apis(endpoint: Endpoint)

  function ParsePath(path: string): Parsed {
    var items := Split(TrimSlashes(path));
    if TrimSlashes(path) != "" && items[0] == APIS then Apis(ParseApis(items)) else AsIs(path)
  }

  function PrintParsed(p: Parsed): string {
    match p
    case AsIs(path) => path
    case Apis(ae) => Path(ae)
  }

  lemma PrintedSegmented(segments: seq<string>)
    requires ApisPath(segments)
    ensures WellSegmented(Segments(ParseApis(segments)))
  {
    if Fits(segments) {
      SegmentsOf(segments);
    } else {
      ClusterSegments(segments);
    }
  }

  /** The same for paths as texts. */
  lemma PathSurvivesIff(segments: seq<string>)
    requires ApisPath(segments)
    ensures var path := "/" + Join(segments); PrintParsed(ParsePath(path)) == path <==> Fits(segments)
  {
    var path, ae := "/" + Join(segments), ParseApis(segments);
    PathSplits(segments);
    JoinEnds(segments);
    assert path[1..] == Join(segments);
    assert ParsePath(path) == Apis(ae);
    SegmentsOf(segments);
    PathJoinsSegments(ae);
    PrintedSegmented(segments);
    SplitJoined(segments);
    SplitJoined(Segments(ae));
    if Path(ae) == path {
      assert Join(Segments(ae)) == Path(ae)[1..] == path[1..];
    }
  }

  // ----- renaming -----

  predicate HasResourceRule(r: Rules, apiGroup: string, resource: string) {
    var g := GroupOf(apiGroup);
    g in r.groups && Before(resource, '/') in r.groups[g].resources
  }

  /** None stands for an endpoint that is left as it is. */
  function RewriteResourceEndpoint(r: Rules, ae: Endpoint): Option<Endpoint> {
    if ae.group == "" || ae.group !in r.groups then None
    else
      var newGroup := RenameApiVersion(r, ae.group);
      if ae.resourceType != "" && !HasResourceRule(r, ae.group, ae.resourceType) then None
      else
        var newResource := if ae.resourceType != "" then RenameResource(r, ae.resourceType) else "";
        if newGroup == "" && newResource == "" then None
        else Some(ae.(group := if newGroup != "" then newGroup else ae.group,
                      resourceType := if newResource != "" then newResource else ae.resourceType))
  }

  function RewriteCRDEndpoint(r: Rules, ae: Endpoint): Option<Endpoint> {
    if (ae.crdGroup == "" && ae.crdResourceType == "") || !HasResourceRule(r, ae.crdGroup, ae.crdResourceType) then None
    else
      var newGroup, newResource := RenameApiVersion(r, ae.crdGroup), RenameResource(r, ae.crdResourceType);
      Some(ae.(crdGroup := newGroup, crdResourceType := newResource, name := newResource + "." + newGroup))
  }

  function RewriteEndpoint(r: Rules, ae: Endpoint): Option<Endpoint> {
    if ae.isCRD then RewriteCRDEndpoint(r, ae) else RewriteResourceEndpoint(r, ae)
  }

  /** Renamed groups and resources are names a path can hold, and mean nothing else in it. */
  predicate EndpointRulesOk(r: Rules) {
    && (forall g :: g in r.groups ==>
          && g != "" && '/' !in g && r.groups[g].renamed != "" && '/' !in r.groups[g].renamed && r.groups[g].renamed != CRD_GROUP
          && NAMESPACES !in r.groups[g].resources
          && forall p :: p in r.groups[g].resources ==> r.resourcePrefix + p != NAMESPACES)
    && '/' !in r.resourcePrefix && '.' !in r.resourcePrefix
  }

  /** The shipped rules are such rules. */
  lemma ShippedEndpointRulesOk()
    ensures EndpointRulesOk(RewriterShipped.SHIPPED)
  {
    RewriterShipped.SourceName();
    RewriterShipped.HelmName();
    RewriterShipped.SourceRenamedName();
    RewriterShipped.HelmRenamedName();
    ShippedNotDefinitions();
    ShippedNotNamespaces(RewriterShipped.SOURCE_RESOURCES);
    ShippedNotNamespaces(RewriterShipped.HELM_RESOURCES);
    TwoGroupsEndpointsOk(RewriterShipped.SHIPPED, RewriterShipped.SOURCE_GROUP, RewriterShipped.HELM_GROUP);
  }

  lemma TwoGroupsEndpointsOk(r: Rules, g: string, h: string)
    requires r.groups.Keys == {g, h} && '/' !in r.resourcePrefix && '.' !in r.resourcePrefix
    requires g != "" && '/' !in g && h != "" && '/' !in h
    requires forall k :: k in {g, h} ==>
               && r.groups[k].renamed != "" && '/' !in r.groups[k].renamed && r.groups[k].renamed != CRD_GROUP
               && NAMESPACES !in r.groups[k].resources
               && forall p :: p in r.groups[k].resources ==> r.resourcePrefix + p != NAMESPACES
    ensures EndpointRulesOk(r)
  {
  }

  lemma ShippedNotDefinitions()
    ensures RewriterShipped.SOURCE_RENAMED != CRD_GROUP && RewriterShipped.HELM_RENAMED != CRD_GROUP
  {
    assert CRD_GROUP[0] == 'a';
  }

  /** Neither a plural nor its renamed form is the word for namespaces: none begins like it. */
  lemma ShippedNotNamespaces(resources: map<string, ResourceRule>)
    requires resources == RewriterShipped.SOURCE_RESOURCES || resources == RewriterShipped.HELM_RESOURCES
    ensures NAMESPACES !in resources && forall p :: p in resources ==> RewriterShipped.SHIPPED.resourcePrefix + p != NAMESPACES
  {
    assert NAMESPACES[0] == 'n' && RewriterShipped.SHIPPED.resourcePrefix[0] == 'i';
  }

  /** Where a path names its resource. */
  function ResourceAt(segments: seq<string>): nat {
    if |segments| >= 6 && segments[3] == NAMESPACES then 5 else 3
  }

  /** The path with its group and resource renamed, or the name of the definition it asks for. */
  function NewSegments(r: Rules, segments: seq<string>): seq<string>
    requires |segments| >= 2
  {
    var ae := ParseApis(segments);
    if ae.isCRD then
      if |segments| <= 4 then segments
      else segments[4 := RenameResource(r, ae.crdResourceType) + "." + RenameApiVersion(r, ae.crdGroup)]
    else
      var grouped := segments[1 := RenameApiVersion(r, segments[1])];
      if |segments| <= ResourceAt(segments) then grouped
      else grouped[ResourceAt(segments) := RenameResource(r, segments[ResourceAt(segments)])]
  }

  lemma NoSeparator(a: string, b: string, c: char)
    requires c !in a && c !in b
    ensures c !in a + b
  {
  }

  lemma GroupRenames(r: Rules, g: string)
    requires EndpointRulesOk(r) && g in r.groups
    ensures RenameApiVersion(r, g) == r.groups[g].renamed && GroupOf(g) == g
  {
  }

  lemma PlainResource(s: string)
    requires '/' !in s
    ensures Before(s, '/') == s
  {
  }

  lemma DefinitionParts(r: Rules, resource: string, group: string)
    requires EndpointRulesOk(r) && '.' !in resource
    ensures CRDParts(RenameResource(r, resource) + "." + group) == (RenameResource(r, resource), group)
  {
    NoSeparator(r.resourcePrefix, resource, '.');
    CutJoined(RenameResource(r, resource), '.', group);
  }

  lemma DefinitionName(name: string)
    requires '/' !in name
    ensures var (resource, group) := CRDParts(name); '/' !in resource && '/' !in group && (group != "" ==> '.' !in resource)
  {
    var parts := Cut(name, '.');
    if parts.Some? {
      assert forall c :: c in parts.value.0 ==> c in name;
      assert forall c :: c in parts.value.1 ==> c in name;
    }
  }

  lemma DefinitionRewritten(r: Rules, segments: seq<string>)
    requires EndpointRulesOk(r) && ApisPath(segments) && Fits(segments) && ParseApis(segments).isCRD
    requires RewriteEndpoint(r, ParseApis(segments)).Some?
    ensures var renamed := NewSegments(r, segments);
            ApisPath(renamed) && Fits(renamed) && ParseApis(renamed) == RewriteEndpoint(r, ParseApis(segments)).value
  {
    var ae := ParseApis(segments);
    assert |segments| == 5 || |segments| == 6;
    assert segments[4] == ae.name && '/' !in segments[4];
    DefinitionName(ae.name);
    var g := GroupOf(ae.crdGroup);
    assert Cut("", '/').None?;
    GroupRenames(r, g);
    PlainResource(ae.crdGroup);
    DefinitionParts(r, ae.crdResourceType, RenameApiVersion(r, ae.crdGroup));
    NoSeparator(r.resourcePrefix, ae.crdResourceType, '/');
    var name := RenameResource(r, ae.crdResourceType) + "." + RenameApiVersion(r, ae.crdGroup);
    NoSeparator(RenameResource(r, ae.crdResourceType), ".", '/');
    NoSeparator(RenameResource(r, ae.crdResourceType) + ".", RenameApiVersion(r, ae.crdGroup), '/');
    assert '/' !in name && name != "";
  }

  lemma ResourceRewritten(r: Rules, segments: seq<string>)
    requires EndpointRulesOk(r) && ApisPath(segments) && Fits(segments) && !ParseApis(segments).isCRD
    requires RewriteEndpoint(r, ParseApis(segments)).Some?
    ensures |segments| >= 2
    ensures var renamed := NewSegments(r, segments);
            ApisPath(renamed) && Fits(renamed) && ParseApis(renamed) == RewriteEndpoint(r, ParseApis(segments)).value
  {
    var ae := ParseApis(segments);
    assert |segments| >= 2 && ae.group == segments[1];
    var k := ResourceAt(segments);
    GroupRenames(r, ae.group);
    if |segments| > k {
      assert ae.resourceType == segments[k] && '/' !in segments[k];
      PlainResource(segments[k]);
      NoSeparator(r.resourcePrefix, segments[k], '/');
      assert segments[k] != NAMESPACES;
    }
  }

  /** Main result: a renamed path, printed and taken apart again, is the renamed endpoint, and only the
      group and the resource of the path, or the definition's name, have changed in it. */
  lemma RewrittenEndpointReparses(r: Rules, segments: seq<string>)
    requires EndpointRulesOk(r) && ApisPath(segments) && Fits(segments)
    requires RewriteEndpoint(r, ParseApis(segments)).Some?
    ensures var ae := RewriteEndpoint(r, ParseApis(segments)).value;
            && |segments| >= 2 && Segments(ae) == NewSegments(r, segments)
            && ParseApis(Split(TrimSlashes(Path(ae)))) == ae
  {
    var ae := RewriteEndpoint(r, ParseApis(segments)).value;
    if ParseApis(segments).isCRD {
      DefinitionRewritten(r, segments);
    } else {
      ResourceRewritten(r, segments);
    }
    var renamed := NewSegments(r, segments);
    SegmentsOf(renamed);
    PathJoinsSegments(ae);
    PathSplits(renamed);
  }
}

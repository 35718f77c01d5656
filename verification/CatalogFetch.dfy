/**
 Reading one OCI repository: which of the listed tags a pass examines, in which order, and what it
 reports when its budget runs out on the way. What the registry answers is a parameter.
 */
module CatalogFetch {
  import opened Basics
  import opened CatalogOrder
  import opened CatalogMerge

  /** The verdict an earlier pass recorded for a tag. */
  datatype Known = Known(mediaType: string, reason: Reason, message: string, reexamine: bool)

  /** What the registry says about one tag. */
  datatype Answer = Chart(mediaType: string) | Unsupported(message: string) | Pending(message: string) | Vanished | Denied

  /** How the probe of a tag fares in one pass: the budget may be spent before it starts, or by the
      time its answer is in. */
  datatype Probe = NotStarted | Answered(answer: Answer, expired: bool)

  /** What a pass makes of one tag. */
  datatype Verdict = Recorded(version: Fetched) | Gone | Unexamined | Refused

  datatype FetchError = AccessDenied | Cancelled

  /** One chart as a pass read it. */
  datatype ChartRead = ChartRead(versions: seq<Fetched>, unexamined: seq<string>)

  predicate NeedsExamination(known: map<string, Known>, full: bool, tag: string) {
    if full then true
    else if tag !in known then true
    else if known[tag].reexamine then true
    else if known[tag].reason == ResolvePending then true
    else if known[tag].reason == RemovedFromRepository then true
    else if known[tag].mediaType != "" then false
    else known[tag].reason != UnsupportedMediaType
  }

  predicate HasSuffix(s: string, suffix: string) {
    |suffix| <= |s| && s[|s| - |suffix|..] == suffix
  }

  predicate IsCosignTag(tag: string) {
    HasSuffix(tag, ".att") || HasSuffix(tag, ".sbom") || HasSuffix(tag, ".sig")
  }

  /** A listed tag that names a chart version. */
  predicate IsVersion(parse: Parser, tag: string) {
    !IsCosignTag(tag) && parse(tag).Some?
  }

  function Offered(parse: Parser, tags: seq<string>): (r: seq<string>)
    ensures forall t :: t in r <==> t in tags && IsVersion(parse, t)
  {
    if tags == [] then []
    else
      var last := tags[|tags| - 1];
      assert tags == tags[..|tags| - 1] + [last];
      Offered(parse, tags[..|tags| - 1]) + if IsVersion(parse, last) then [last] else []
  }

  function CarryKnown(tag: string, known: Known): Fetched {
    Fetched(tag, "", known.mediaType, known.reason, known.message)
  }

  /** A pending answer that came after the budget was spent is not the registry's. */
  function Probed(tag: string, p: Probe): Verdict {
    match p
    case NotStarted => Unexamined
    case Answered(Chart(mediaType), _) => Recorded(Fetched(tag, "", mediaType, Usable, ""))
    case Answered(Unsupported(message), _) => Recorded(Fetched(tag, "", "", UnsupportedMediaType, message))
    case Answered(Pending(message), expired) =>
      if expired then Unexamined else Recorded(Fetched(tag, "", "", ResolvePending, message))
    case Answered(Vanished, _) => Gone
    case Answered(Denied, _) => Refused
  }

  function VerdictOn(known: map<string, Known>, full: bool, probes: string -> Probe, tag: string): Verdict {
    if NeedsExamination(known, full, tag) then Probed(tag, probes(tag)) else Recorded(CarryKnown(tag, known[tag]))
  }

  function Versions(known: map<string, Known>, full: bool, probes: string -> Probe, tags: seq<string>): seq<Fetched> {
    if tags == [] then []
    else
      var v := VerdictOn(known, full, probes, tags[|tags| - 1]);
      Versions(known, full, probes, tags[..|tags| - 1]) + if v.Recorded? then [v.version] else []
  }

  function NotReached(known: map<string, Known>, full: bool, probes: string -> Probe, tags: seq<string>): seq<string> {
    if tags == [] then []
    else
      var last := tags[|tags| - 1];
      NotReached(known, full, probes, tags[..|tags| - 1]) + if VerdictOn(known, full, probes, last).Unexamined? then [last] else []
  }

  // ----- newest first -----

  predicate Newer(parse: Parser, f: Fetched, g: Fetched) {
    parse(f.version).Some? && parse(g.version).Some? && Compare(parse(f.version).value, parse(g.version).value) > 0
  }

  function Place(parse: Parser, f: Fetched, fs: seq<Fetched>): (r: seq<Fetched>)
    ensures multiset(r) == multiset(fs) + multiset{f}
  {
    if fs == [] then [f]
    else if Newer(parse, fs[0], f) then
      assert fs == [fs[0]] + fs[1..];
      [fs[0]] + Place(parse, f, fs[1..])
    else [f] + fs
  }

  function NewestFirst(parse: Parser, fs: seq<Fetched>): (r: seq<Fetched>)
    ensures multiset(r) == multiset(fs)
  {
    if fs == [] then []
    else
      assert fs == [fs[0]] + fs[1..];
      Place(parse, fs[0], NewestFirst(parse, fs[1..]))
  }

  predicate AllParse(parse: Parser, fs: seq<Fetched>) {
    forall f :: f in fs ==> parse(f.version).Some?
  }

  predicate Descends(parse: Parser, fs: seq<Fetched>) {
    forall i, j :: 0 <= i < j < |fs| ==> !Newer(parse, fs[j], fs[i])
  }

  // ----- the pass -----

  /** What reading the repository comes to, given how each probe fares. */
  function Resolve(parse: Parser, tags: seq<string>, known: map<string, Known>, full: bool, probes: string -> Probe, cancelled: bool)
    : Result<ChartRead, FetchError>
  {
    var offered := Offered(parse, tags);
    if exists t :: t in offered && VerdictOn(known, full, probes, t).Refused? then Err(AccessDenied)
    else if cancelled then Err(Cancelled)
    else Ok(ChartRead(NewestFirst(parse, Versions(known, full, probes, offered)), NotReached(known, full, probes, offered)))
  }

  datatype Candidate = Candidate(tag: string, known: Option<Known>, recorded: bool, stale: bool, relisted: bool)

  function CandidateFor(known: map<string, Known>, full: bool, tag: string): Candidate {
    Candidate(tag,
              if NeedsExamination(known, full, tag) then None else Some(known[tag]),
              tag in known,
              tag in known && known[tag].reexamine,
              tag in known && known[tag].reason == RemovedFromRepository)
  }

  /** The groups tags are probed in: never seen, stale, listed again, still unanswered. */
  predicate InGroup(g: nat, c: Candidate) {
    match g
    case 0 => !c.recorded
    case 1 => c.stale
    case 2 => c.relisted && !c.stale
    case 3 => c.recorded && !c.stale && !c.relisted
    case _ => false
  }

  function Group(g: nat, cs: seq<Candidate>, n: nat): seq<nat>
    requires n <= |cs|
  {
    if n == 0 then []
    else if cs[n - 1].known.None? && InGroup(g, cs[n - 1]) then Group(g, cs, n - 1) + [n - 1]
    else Group(g, cs, n - 1)
  }

  lemma {:induction false} GroupMembers(g: nat, cs: seq<Candidate>, n: nat)
    requires n <= |cs|
    ensures forall i: nat :: i in Group(g, cs, n) <==> i < n && cs[i].known.None? && InGroup(g, cs[i])
    ensures forall i, j :: 0 <= i < j < |Group(g, cs, n)| ==> Group(g, cs, n)[i] < Group(g, cs, n)[j]
  {
    if n > 0 {
      GroupMembers(g, cs, n - 1);
      var front := Group(g, cs, n - 1);
      assert forall i :: 0 <= i < |front| ==> front[i] in front;
    }
  }

  function Groups(count: nat, cs: seq<Candidate>): seq<nat> {
    if count == 0 then [] else Groups(count - 1, cs) + Group(count - 1, cs, |cs|)
  }

  function ProbeOrder(cs: seq<Candidate>): seq<nat> {
    Groups(4, cs)
  }

  lemma ProbeOrderGroups(cs: seq<Candidate>)
    ensures ProbeOrder(cs) == Group(0, cs, |cs|) + Group(1, cs, |cs|) + Group(2, cs, |cs|) + Group(3, cs, |cs|)
  {
    assert Groups(1, cs) == Group(0, cs, |cs|);
    assert Groups(2, cs) == Groups(1, cs) + Group(1, cs, |cs|);
    assert Groups(3, cs) == Groups(2, cs) + Group(2, cs, |cs|);
  }

  predicate Consistent(cs: seq<Candidate>) {
    forall i :: 0 <= i < |cs| ==> (cs[i].stale || cs[i].relisted ==> cs[i].recorded)
  }

  lemma ProbeOrderMembers(cs: seq<Candidate>)
    ensures forall i: nat :: i in ProbeOrder(cs) <==> i < |cs| && cs[i].known.None?
  {
    ProbeOrderGroups(cs);
    GroupMembers(0, cs, |cs|);
    GroupMembers(1, cs, |cs|);
    GroupMembers(2, cs, |cs|);
    GroupMembers(3, cs, |cs|);
    forall i: nat | i < |cs|
      ensures InGroup(0, cs[i]) || InGroup(1, cs[i]) || InGroup(2, cs[i]) || InGroup(3, cs[i])
    {
    }
  }

  lemma ProbedOnce(cs: seq<Candidate>)
    requires Consistent(cs)
    ensures forall k, l :: 0 <= k < l < |ProbeOrder(cs)| ==> ProbeOrder(cs)[k] != ProbeOrder(cs)[l]
  {
    var g0, g1, g2, g3 := Group(0, cs, |cs|), Group(1, cs, |cs|), Group(2, cs, |cs|), Group(3, cs, |cs|);
    ProbeOrderGroups(cs);
    GroupMembers(0, cs, |cs|);
    GroupMembers(1, cs, |cs|);
    GroupMembers(2, cs, |cs|);
    GroupMembers(3, cs, |cs|);
    GroupsDiffer(cs, 0, 1);
    Unmixed(g0, g1);
    GroupsDiffer(cs, 0, 2);
    GroupsDiffer(cs, 1, 2);
    Unmixed(g0 + g1, g2);
    GroupsDiffer(cs, 0, 3);
    GroupsDiffer(cs, 1, 3);
    GroupsDiffer(cs, 2, 3);
    Unmixed(g0 + g1 + g2, g3);
  }

  /** Every tag that needs examination is probed, each of them once, and no other. */
  lemma ProbeOrderIsExact(known: map<string, Known>, full: bool, tags: seq<string>)
    ensures var cs := seq(|tags|, i requires 0 <= i < |tags| => CandidateFor(known, full, tags[i]));
            var order := ProbeOrder(cs);
            && (forall i: nat :: i in order <==> i < |tags| && NeedsExamination(known, full, tags[i]))
            && forall k, l :: 0 <= k < l < |order| ==> order[k] != order[l]
  {
    var cs := seq(|tags|, i requires 0 <= i < |tags| => CandidateFor(known, full, tags[i]));
    ProbeOrderMembers(cs);
    ProbedOnce(cs);
  }

  lemma GroupsDiffer(cs: seq<Candidate>, g: nat, h: nat)
    requires g < h < 4 && Consistent(cs)
    ensures forall i: nat :: i in Group(g, cs, |cs|) ==> i !in Group(h, cs, |cs|)
  {
    GroupMembers(g, cs, |cs|);
    GroupMembers(h, cs, |cs|);
  }

  lemma Unmixed(xs: seq<nat>, ys: seq<nat>)
    requires forall i, j :: 0 <= i < j < |xs| ==> xs[i] != xs[j]
    requires forall i, j :: 0 <= i < j < |ys| ==> ys[i] != ys[j]
    requires forall x :: x in xs ==> x !in ys
    ensures forall i, j :: 0 <= i < j < |xs + ys| ==> (xs + ys)[i] != (xs + ys)[j]
  {
    forall i, j | 0 <= i < j < |xs + ys|
      ensures (xs + ys)[i] != (xs + ys)[j]
    {
      if i < |xs| && |xs| <= j {
        assert xs[i] in xs && ys[j - |xs|] in ys;
      }
    }
  }

  /** How a verdict stands in the two arrays a pass fills. */
  predicate Settled(resolved: Option<Fetched>, examined: bool, v: Verdict) {
    match v
    case Recorded(f) => examined && resolved == Some(f)
    case Gone => examined && resolved.None?
    case Unexamined => !examined && resolved.None?
    case Refused => !examined && resolved.None?
  }

  method Candidates(parse: Parser, tags: seq<string>, known: map<string, Known>, full: bool) returns (candidates: seq<Candidate>)
    ensures var offered := Offered(parse, tags);
            |candidates| == |offered| && forall j :: 0 <= j < |offered| ==> candidates[j] == CandidateFor(known, full, offered[j])
  {
    candidates := [];
    for i := 0 to |tags|
      invariant |candidates| == |Offered(parse, tags[..i])|
      invariant forall j :: 0 <= j < |candidates| ==> candidates[j] == CandidateFor(known, full, Offered(parse, tags[..i])[j])
    {
      assert tags[..i + 1][..i] == tags[..i];
      var tag := tags[i];
      if IsCosignTag(tag) {
        continue;
      }
      if parse(tag).None? {
        continue;
      }
      var recorded := tag in known;
      var c := Candidate(tag, None, recorded, recorded && known[tag].reexamine,
                         recorded && known[tag].reason == RemovedFromRepository);
      if !NeedsExamination(known, full, tag) {
        c := c.(known := Some(known[tag]));
      }
      candidates := candidates + [c];
    }
    assert tags[..|tags|] == tags;
  }

  method AppendGroup(g: nat, candidates: seq<Candidate>, probeOrder: seq<nat>) returns (r: seq<nat>)
    ensures r == probeOrder + Group(g, candidates, |candidates|)
  {
    r := probeOrder;
    for i := 0 to |candidates|
      invariant r == probeOrder + Group(g, candidates, i)
    {
      if candidates[i].known.None? && InGroup(g, candidates[i]) {
        r := r + [i];
      }
    }
  }

  method OrderProbes(candidates: seq<Candidate>) returns (probeOrder: seq<nat>)
    ensures probeOrder == ProbeOrder(candidates)
  {
    probeOrder := [];
    for g := 0 to 4
      invariant probeOrder == Groups(g, candidates)
    {
      probeOrder := AppendGroup(g, candidates, probeOrder);
    }
  }

  /** A recorded verdict costs no request and survives an expired budget. */
  method CarryAll(candidates: seq<Candidate>, resolved: array<Option<Fetched>>, examined: array<bool>)
    requires resolved.Length == examined.Length == |candidates|
    modifies resolved, examined
    ensures forall j :: 0 <= j < |candidates| ==>
              if candidates[j].known.Some?
              then Settled(resolved[j], examined[j], Recorded(CarryKnown(candidates[j].tag, candidates[j].known.value)))
              else resolved[j] == old(resolved[j]) && examined[j] == old(examined[j])
  {
    for i := 0 to |candidates|
      invariant forall j :: 0 <= j < |candidates| ==>
                  if j < i && candidates[j].known.Some?
                  then Settled(resolved[j], examined[j], Recorded(CarryKnown(candidates[j].tag, candidates[j].known.value)))
                  else resolved[j] == old(resolved[j]) && examined[j] == old(examined[j])
    {
      if candidates[i].known.Some? {
        resolved[i], examined[i] := Some(CarryKnown(candidates[i].tag, candidates[i].known.value)), true;
      }
    }
  }

  /** One probe writes only its own place; a denied one fails the pass. */
  method ProbeOne(tag: string, index: nat, p: Probe, resolved: array<Option<Fetched>>, examined: array<bool>) returns (refused: bool)
    requires index < resolved.Length == examined.Length
    requires !examined[index] && resolved[index].None?
    modifies resolved, examined
    ensures Settled(resolved[index], examined[index], Probed(tag, p)) && refused == Probed(tag, p).Refused?
    ensures forall j :: 0 <= j < resolved.Length && j != index ==> resolved[j] == old(resolved[j]) && examined[j] == old(examined[j])
  {
    refused := false;
    match p
    case NotStarted =>
    case Answered(answer, expired) =>
      match answer {
        case Denied => refused := true;
        case Vanished => resolved[index], examined[index] := None, true;
        case Chart(mediaType) =>
          resolved[index], examined[index] := Some(Fetched(tag, "", mediaType, Usable, "")), true;
        case Unsupported(message) =>
          resolved[index], examined[index] := Some(Fetched(tag, "", "", UnsupportedMediaType, message)), true;
        case Pending(message) =>
          if !expired {
            resolved[index], examined[index] := Some(Fetched(tag, "", "", ResolvePending, message)), true;
          }
      }
  }

  predicate AnyRefused(candidates: seq<Candidate>, order: seq<nat>, probes: string -> Probe) {
    exists k :: 0 <= k < |order| && order[k] < |candidates|
                && Probed(candidates[order[k]].tag, probes(candidates[order[k]].tag)).Refused?
  }

  /** A carried verdict is never a refusal, so only the probed tags decide. */
  lemma RefusedAmongProbed(known: map<string, Known>, full: bool, probes: string -> Probe, offered: seq<string>,
                           candidates: seq<Candidate>, order: seq<nat>)
    requires |candidates| == |offered| && forall j :: 0 <= j < |offered| ==> candidates[j] == CandidateFor(known, full, offered[j])
    requires forall i: nat :: i in order <==> i < |offered| && NeedsExamination(known, full, offered[i])
    ensures AnyRefused(candidates, order, probes) <==> exists t :: t in offered && VerdictOn(known, full, probes, t).Refused?
  {
    if t :| t in offered && VerdictOn(known, full, probes, t).Refused? {
      var j: nat :| j < |offered| && offered[j] == t;
      assert j in order;
      var k :| 0 <= k < |order| && order[k] == j;
      assert Probed(candidates[order[k]].tag, probes(candidates[order[k]].tag)).Refused?;
    }
    if AnyRefused(candidates, order, probes) {
      var k :| 0 <= k < |order| && order[k] < |candidates| && Probed(candidates[order[k]].tag, probes(candidates[order[k]].tag)).Refused?;
      assert order[k] in order && offered[order[k]] in offered;
    }
  }

  method ProbeAll(candidates: seq<Candidate>, probeOrder: seq<nat>, probes: string -> Probe,
                  resolved: array<Option<Fetched>>, examined: array<bool>)
    returns (refused: bool)
    requires resolved.Length == examined.Length == |candidates|
    requires forall k :: 0 <= k < |probeOrder| ==> probeOrder[k] < |candidates|
    requires forall k, l :: 0 <= k < l < |probeOrder| ==> probeOrder[k] != probeOrder[l]
    requires forall k :: 0 <= k < |probeOrder| ==> !examined[probeOrder[k]] && resolved[probeOrder[k]].None?
    modifies resolved, examined
    ensures forall j :: 0 <= j < |candidates| ==>
              if j in probeOrder then Settled(resolved[j], examined[j], Probed(candidates[j].tag, probes(candidates[j].tag)))
              else resolved[j] == old(resolved[j]) && examined[j] == old(examined[j])
    ensures refused <==> AnyRefused(candidates, probeOrder, probes)
  {
    refused := false;
    for k := 0 to |probeOrder|
      invariant forall j :: 0 <= j < |candidates| ==>
                  if j in probeOrder[..k] then Settled(resolved[j], examined[j], Probed(candidates[j].tag, probes(candidates[j].tag)))
                  else resolved[j] == old(resolved[j]) && examined[j] == old(examined[j])
      invariant refused <==> exists l :: 0 <= l < k && Probed(candidates[probeOrder[l]].tag, probes(candidates[probeOrder[l]].tag)).Refused?
    {
      var index := probeOrder[k];
      assert index !in probeOrder[..k];
      assert forall j :: j in probeOrder[..k + 1] <==> j in probeOrder[..k] || j == index;
      var denied := ProbeOne(candidates[index].tag, index, probes(candidates[index].tag), resolved, examined);
      if denied {
        refused := true;
      }
    }
    assert probeOrder[..|probeOrder|] == probeOrder;
  }

  method Partition(candidates: seq<Candidate>, resolved: array<Option<Fetched>>, examined: array<bool>,
                   ghost known: map<string, Known>, ghost full: bool, ghost probes: string -> Probe, ghost offered: seq<string>)
    returns (versions: seq<Fetched>, unexamined: seq<string>)
    requires resolved.Length == examined.Length == |candidates| == |offered|
    requires forall j :: 0 <= j < |offered| ==> candidates[j].tag == offered[j]
    requires forall j :: 0 <= j < |offered| ==> Settled(resolved[j], examined[j], VerdictOn(known, full, probes, offered[j]))
    requires forall j :: 0 <= j < |offered| ==> !VerdictOn(known, full, probes, offered[j]).Refused?
    ensures versions == Versions(known, full, probes, offered) && unexamined == NotReached(known, full, probes, offered)
  {
    versions, unexamined := [], [];
    for i := 0 to |candidates|
      invariant versions == Versions(known, full, probes, offered[..i])
      invariant unexamined == NotReached(known, full, probes, offered[..i])
    {
      assert offered[..i + 1][..i] == offered[..i];
      if !examined[i] {
        unexamined := unexamined + [candidates[i].tag];
      } else if resolved[i].Some? {
        versions := versions + [resolved[i].value];
      }
    }
    assert offered[..|candidates|] == offered;
  }

  /** Carries the recorded verdicts over and probes the other tags. */
  method ExamineAll(ghost known: map<string, Known>, ghost full: bool, ghost offered: seq<string>, candidates: seq<Candidate>,
                    probeOrder: seq<nat>, probes: string -> Probe, resolved: array<Option<Fetched>>, examined: array<bool>)
    returns (refused: bool)
    requires |candidates| == |offered| && forall j :: 0 <= j < |offered| ==> candidates[j] == CandidateFor(known, full, offered[j])
    requires forall i: nat :: i in probeOrder <==> i < |offered| && NeedsExamination(known, full, offered[i])
    requires forall k, l :: 0 <= k < l < |probeOrder| ==> probeOrder[k] != probeOrder[l]
    requires resolved.Length == examined.Length == |candidates|
    requires forall j :: 0 <= j < |candidates| ==> resolved[j].None? && !examined[j]
    modifies resolved, examined
    ensures refused <==> exists t :: t in offered && VerdictOn(known, full, probes, t).Refused?
    ensures forall j :: 0 <= j < |offered| ==> Settled(resolved[j], examined[j], VerdictOn(known, full, probes, offered[j]))
  {
    assert forall k :: 0 <= k < |probeOrder| ==> probeOrder[k] in probeOrder;
    RefusedAmongProbed(known, full, probes, offered, candidates, probeOrder);
    CarryAll(candidates, resolved, examined);
    refused := ProbeAll(candidates, probeOrder, probes, resolved, examined);
    forall j: nat | j < |offered|
      ensures Settled(resolved[j], examined[j], VerdictOn(known, full, probes, offered[j]))
    {
      assert j in probeOrder <==> NeedsExamination(known, full, offered[j]);
    }
  }

  method ResolveChartVersions(parse: Parser, tags: seq<string>, known: map<string, Known>, full: bool,
                              probes: string -> Probe, cancelled: bool)
    returns (r: Result<ChartRead, FetchError>)
    ensures r == Resolve(parse, tags, known, full, probes, cancelled)
  {
    ghost var offered := Offered(parse, tags);
    var candidates := Candidates(parse, tags, known, full);
    var probeOrder := OrderProbes(candidates);
    var n := |candidates|;
    assert candidates == seq(n, i requires 0 <= i < n => CandidateFor(known, full, offered[i]));
    ProbeOrderIsExact(known, full, offered);

    var resolved := new Option<Fetched>[n](_ => None);
    var examined := new bool[n](_ => false);
    var refused := ExamineAll(known, full, offered, candidates, probeOrder, probes, resolved, examined);
    if refused {
      return Err(AccessDenied);
    }
    if cancelled {
      return Err(Cancelled);
    }
    assert forall j :: 0 <= j < |offered| ==> offered[j] in offered;
    var versions, unexamined := Partition(candidates, resolved, examined, known, full, probes, offered);
    return Ok(ChartRead(NewestFirst(parse, versions), unexamined));
  }

  // ----- what a pass reports -----

  lemma {:induction false} PlaceDescends(parse: Parser, f: Fetched, fs: seq<Fetched>)
    requires parse(f.version).Some? && AllParse(parse, fs) && Descends(parse, fs)
    ensures Descends(parse, Place(parse, f, fs))
  {
    if fs == [] {
    } else if Newer(parse, fs[0], f) {
      PlaceDescends(parse, f, fs[1..]);
      var rest := Place(parse, f, fs[1..]);
      forall g | g in rest
        ensures !Newer(parse, g, fs[0])
      {
        assert g in multiset(rest);
        CompareAntisymmetric(parse(fs[0].version).value, parse(f.version).value);
        if g != f {
          assert g in fs[1..];
        }
      }
      HeadDescends(parse, fs[0], rest);
    } else {
      forall g | g in fs
        ensures !Newer(parse, g, f)
      {
        CompareAntisymmetric(parse(fs[0].version).value, parse(fs[0].version).value);
        NewerThrough(parse, g, fs[0], f);
      }
      HeadDescends(parse, f, fs);
    }
  }

  lemma HeadDescends(parse: Parser, f: Fetched, fs: seq<Fetched>)
    requires Descends(parse, fs) && forall g :: g in fs ==> !Newer(parse, g, f)
    ensures Descends(parse, [f] + fs)
  {
  }

  lemma NewerThrough(parse: Parser, f: Fetched, g: Fetched, h: Fetched)
    requires parse(f.version).Some? && parse(g.version).Some? && parse(h.version).Some?
    requires !Newer(parse, f, g) && !Newer(parse, g, h)
    ensures !Newer(parse, f, h)
  {
    CompareTransitive(parse(f.version).value, parse(g.version).value, parse(h.version).value);
  }

  /** The newest version is read off the front. */
  lemma {:induction false} NewestFirstDescends(parse: Parser, fs: seq<Fetched>)
    requires AllParse(parse, fs)
    ensures Descends(parse, NewestFirst(parse, fs))
  {
    if fs != [] {
      NewestFirstDescends(parse, fs[1..]);
      var rest := NewestFirst(parse, fs[1..]);
      ReorderedMembers(fs[1..], rest);
      PlaceDescends(parse, fs[0], rest);
    }
  }

  predicate NoRepeats(tags: seq<string>) {
    forall i, j :: 0 <= i < j < |tags| ==> tags[i] != tags[j]
  }

  lemma {:induction false} OfferedNoRepeats(parse: Parser, tags: seq<string>)
    requires NoRepeats(tags)
    ensures NoRepeats(Offered(parse, tags))
    decreases |tags|
  {
    if tags != [] {
      var front := tags[..|tags| - 1];
      OfferedNoRepeats(parse, front);
      forall t | t in Offered(parse, front)
        ensures t != tags[|tags| - 1]
      {
        var i :| 0 <= i < |front| && front[i] == t;
      }
    }
  }

  lemma {:induction false} VersionsMembers(known: map<string, Known>, full: bool, probes: string -> Probe, tags: seq<string>)
    ensures forall f :: f in Versions(known, full, probes, tags) <==>
              f.version in tags && VerdictOn(known, full, probes, f.version) == Recorded(f)
    decreases |tags|
  {
    if tags != [] {
      VersionsMembers(known, full, probes, tags[..|tags| - 1]);
      assert tags == tags[..|tags| - 1] + [tags[|tags| - 1]];
    }
  }

  lemma {:induction false} VersionsDistinct(known: map<string, Known>, full: bool, probes: string -> Probe, tags: seq<string>)
    requires NoRepeats(tags)
    ensures DistinctFetched(Versions(known, full, probes, tags))
    decreases |tags|
  {
    if tags != [] {
      var front, last := tags[..|tags| - 1], tags[|tags| - 1];
      VersionsDistinct(known, full, probes, front);
      VersionsMembers(known, full, probes, front);
      var fs := Versions(known, full, probes, front);
      assert forall i :: 0 <= i < |fs| ==> fs[i] in fs;
      assert last !in front;
    }
  }

  lemma {:induction false} NotReachedMembers(known: map<string, Known>, full: bool, probes: string -> Probe, tags: seq<string>)
    ensures forall t :: t in NotReached(known, full, probes, tags) <==> t in tags && VerdictOn(known, full, probes, t).Unexamined?
    decreases |tags|
  {
    if tags != [] {
      NotReachedMembers(known, full, probes, tags[..|tags| - 1]);
      assert tags == tags[..|tags| - 1] + [tags[|tags| - 1]];
    }
  }

  lemma DistinctSurvivesReordering(fs: seq<Fetched>, gs: seq<Fetched>)
    requires DistinctFetched(fs) && multiset(fs) == multiset(gs)
    ensures DistinctFetched(gs)
  {
    forall i, j | 0 <= i < j < |gs|
      ensures gs[i].version != gs[j].version
    {
      assert gs[i] in multiset(gs) && gs[j] in multiset(gs);
      assert gs[i] in fs && gs[j] in fs;
      if gs[i].version == gs[j].version {
        OnceFetched(fs, gs[i], gs[j]);
        TwiceFetched(gs, i, j);
      }
    }
  }

  lemma OnceFetched(fs: seq<Fetched>, f: Fetched, g: Fetched)
    requires DistinctFetched(fs) && f in fs && g in fs && f.version == g.version
    ensures f == g && multiset(fs)[f] == 1
  {
    var i :| 0 <= i < |fs| && fs[i] == f;
    assert fs == fs[..i] + [f] + fs[i + 1..];
    assert f !in fs[..i] && f !in fs[i + 1..];
  }

  lemma TwiceFetched(fs: seq<Fetched>, i: nat, j: nat)
    requires i < j < |fs| && fs[i] == fs[j]
    ensures multiset(fs)[fs[i]] >= 2
  {
    assert fs == fs[..j] + fs[j..];
    assert fs[..j][i] == fs[i] && fs[j..][0] == fs[j];
    assert multiset(fs) == multiset(fs[..j]) + multiset(fs[j..]);
  }

  /** Every offered tag ends as one reported version, or as unexamined, or as vanished; nothing else
      is reported. */
  lemma ResolveMeaning(parse: Parser, tags: seq<string>, known: map<string, Known>, full: bool, probes: string -> Probe, cancelled: bool)
    requires NoRepeats(tags) && Resolve(parse, tags, known, full, probes, cancelled).Ok?
    ensures var c := Resolve(parse, tags, known, full, probes, cancelled).value;
            && DistinctFetched(c.versions)
            && (forall v :: FindFetched(c.versions, v) ==
                  if v in Offered(parse, tags) && VerdictOn(known, full, probes, v).Recorded?
                  then Some(VerdictOn(known, full, probes, v).version) else None)
            && (forall v :: v in c.unexamined <==> v in Offered(parse, tags) && VerdictOn(known, full, probes, v).Unexamined?)
            && Descends(parse, c.versions)
  {
    var c := Resolve(parse, tags, known, full, probes, cancelled).value;
    var offered := Offered(parse, tags);
    var fs := Versions(known, full, probes, offered);
    OfferedNoRepeats(parse, tags);
    VersionsMembers(known, full, probes, offered);
    VersionsDistinct(known, full, probes, offered);
    NotReachedMembers(known, full, probes, offered);
    DistinctSurvivesReordering(fs, c.versions);
    NewestFirstDescends(parse, fs);
    ReorderedMembers(fs, c.versions);
    forall v
      ensures FindFetched(c.versions, v) ==
              if v in offered && VerdictOn(known, full, probes, v).Recorded?
              then Some(VerdictOn(known, full, probes, v).version) else None
    {
      FoundVersion(known, full, probes, offered, c.versions, v);
    }
  }

  lemma ReorderedMembers(fs: seq<Fetched>, gs: seq<Fetched>)
    requires multiset(fs) == multiset(gs)
    ensures forall f :: f in fs <==> f in gs
  {
    assert forall f :: (f in fs <==> f in multiset(fs)) && (f in gs <==> f in multiset(gs));
  }

  lemma FoundVersion(known: map<string, Known>, full: bool, probes: string -> Probe, offered: seq<string>, fs: seq<Fetched>, v: string)
    requires DistinctFetched(fs)
    requires forall f :: f in fs <==> f.version in offered && VerdictOn(known, full, probes, f.version) == Recorded(f)
    ensures FindFetched(fs, v) ==
            if v in offered && VerdictOn(known, full, probes, v).Recorded?
            then Some(VerdictOn(known, full, probes, v).version) else None
  {
    VerdictNamesItsTag(known, full, probes, v);
    if v in offered && VerdictOn(known, full, probes, v).Recorded? {
      FindFetchedDistinct(fs, VerdictOn(known, full, probes, v).version);
    }
  }

  lemma VerdictNamesItsTag(known: map<string, Known>, full: bool, probes: string -> Probe, tag: string)
    ensures VerdictOn(known, full, probes, tag).Recorded? ==> VerdictOn(known, full, probes, tag).version.version == tag
  {
  }
}

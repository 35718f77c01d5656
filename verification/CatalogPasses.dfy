/**
 Runs of passes over the recorded versions of one chart of an OCI repository: incremental passes
 agree with full ones, and passes cut short still get through every tag.
 */
module CatalogPasses {
  import opened Basics
  import opened CatalogOrder
  import opened CatalogMerge
  import opened CatalogFetch

  function Names(es: seq<Entry>): set<string> {
    set e | e in es :: e.version
  }

  lemma FoundIffNamed(es: seq<Entry>, v: string)
    ensures Find(es, v).Some? <==> v in Names(es)
  {
    if v in Names(es) {
      var e :| e in es && e.version == v;
      var i :| 0 <= i < |es| && es[i] == e;
    }
  }

  function KnownFrom(e: Entry): Known {
    Known(e.mediaType, e.reason, e.message, e.reexamine)
  }

  /** The verdicts a pass starts from. */
  function KnownOf(es: seq<Entry>): (r: map<string, Known>)
    ensures forall v :: (v in r <==> Find(es, v).Some?) && (v in r ==> r[v] == KnownFrom(Find(es, v).value))
  {
    assert forall v :: Find(es, v).Some? <==> v in Names(es) by {
      forall v ensures Find(es, v).Some? <==> v in Names(es) { FoundIffNamed(es, v); }
    }
    map v | v in Names(es) :: KnownFrom(Find(es, v).value)
  }

  /** One pass: what the listing offered, how the probes fared, and which versions were in use. */
  datatype Pass = Pass(tags: seq<string>, full: bool, probes: string -> Probe, cancelled: bool, inUse: set<string>)

  function Read(parse: Parser, es: seq<Entry>, p: Pass): Result<ChartRead, FetchError> {
    Resolve(parse, p.tags, KnownOf(es), p.full, p.probes, p.cancelled)
  }

  function AfterPass(parse: Parser, es: seq<Entry>, p: Pass): seq<Entry> {
    match Read(parse, es, p)
    case Err(_) => es
    case Ok(c) => Merge(parse, c.versions, es, p.inUse, set v | v in c.unexamined)
  }

  /** A forced refresh marks every verdict; a version awaiting one is examined anyway. */
  function MarkEntry(e: Entry): Entry {
    if e.reason == ResolvePending then e else e.(reexamine := true)
  }

  function MarkAll(es: seq<Entry>): (r: seq<Entry>)
    ensures |r| == |es| && forall i :: 0 <= i < |es| ==> r[i] == MarkEntry(es[i])
  {
    seq(|es|, i requires 0 <= i < |es| => MarkEntry(es[i]))
  }

  datatype Turn = Refresh | Examine(pass: Pass)

  function AfterTurn(parse: Parser, es: seq<Entry>, t: Turn): seq<Entry> {
    match t
    case Refresh => MarkAll(es)
    case Examine(p) => AfterPass(parse, es, p)
  }

  function AfterTurns(parse: Parser, es: seq<Entry>, ts: seq<Turn>): seq<Entry>
    decreases |ts|
  {
    if ts == [] then es else AfterTurns(parse, AfterTurn(parse, es, ts[0]), ts[1..])
  }

  // ----- one pass, version by version -----

  function VersionAfter(v: string, had: Option<Entry>, offered: bool, full: bool, probe: Probe, used: bool): Option<Entry> {
    var known := if had.Some? then map[v := KnownFrom(had.value)] else map[];
    var verdict := VerdictOn(known, full, _ => probe, v);
    if !offered || verdict.Gone? || verdict.Refused? then
      if had.Some? && used then Some(RemovedEntry(had.value)) else None
    else if verdict.Unexamined? then had
    else Some(FreshEntry(verdict.version, had, used))
  }

  lemma PassMeaning(parse: Parser, es: seq<Entry>, p: Pass)
    requires NoRepeats(p.tags) && Distinct(es) && Read(parse, es, p).Ok?
    ensures Distinct(AfterPass(parse, es, p))
    ensures forall v :: Find(AfterPass(parse, es, p), v) ==
              VersionAfter(v, Find(es, v), v in Offered(parse, p.tags), p.full, p.probes(v), v in p.inUse)
  {
    var c := Read(parse, es, p).value;
    ResolveMeaning(parse, p.tags, KnownOf(es), p.full, p.probes, p.cancelled);
    MergeMeaning(parse, c.versions, es, p.inUse, set v | v in c.unexamined);
    forall v
      ensures Find(AfterPass(parse, es, p), v) ==
              VersionAfter(v, Find(es, v), v in Offered(parse, p.tags), p.full, p.probes(v), v in p.inUse)
    {
      SameVerdict(es, p, v);
      if v in Offered(parse, p.tags) {
        NotRefused(parse, es, p, v);
      }
      MergedAsRead(v, Find(es, v), v in Offered(parse, p.tags), p.full, p.probes(v), v in p.inUse,
                   VerdictOn(KnownOf(es), p.full, p.probes, v), FindFetched(c.versions, v), v in c.unexamined);
    }
  }

  lemma MergedAsRead(v: string, had: Option<Entry>, offered: bool, full: bool, probe: Probe, used: bool,
                     verdict: Verdict, found: Option<Fetched>, deferred: bool)
    requires verdict == VerdictOn(if had.Some? then map[v := KnownFrom(had.value)] else map[], full, _ => probe, v)
    requires offered ==> !verdict.Refused?
    requires found == if offered && verdict.Recorded? then Some(verdict.version) else None
    requires deferred <==> offered && verdict.Unexamined?
    ensures MergedVersion(found, had, used, deferred) == VersionAfter(v, had, offered, full, probe, used)
  {
  }

  lemma SameVerdict(es: seq<Entry>, p: Pass, v: string)
    ensures VerdictOn(KnownOf(es), p.full, p.probes, v) ==
            VerdictOn(if Find(es, v).Some? then map[v := KnownFrom(Find(es, v).value)] else map[], p.full, _ => p.probes(v), v)
  {
  }

  lemma NotRefused(parse: Parser, es: seq<Entry>, p: Pass, v: string)
    requires Read(parse, es, p).Ok? && v in Offered(parse, p.tags)
    ensures !VerdictOn(KnownOf(es), p.full, p.probes, v).Refused?
  {
  }

  // ----- incremental passes agree with full ones -----

  /** A recorded verdict that a pass would carry over. */
  predicate Established(e: Entry) {
    !NeedsExamination(map[e.version := KnownFrom(e)], false, e.version)
  }

  /** An established verdict is what the registry would answer. */
  predicate AgreesWith(e: Entry, answer: Answer) {
    Established(e) ==>
      match answer
      case Chart(mediaType) => e.reason == Usable && e.mediaType == mediaType && e.message == ""
      case Unsupported(message) => e.reason == UnsupportedMediaType && e.message == message
      case _ => false
  }

  predicate Agrees(es: seq<Entry>, answers: string -> Answer) {
    forall e :: e in es ==> AgreesWith(e, answers(e.version))
  }

  /** A registry that gives every chart its media type. */
  ghost predicate Registry(answers: string -> Answer) {
    forall t :: answers(t).Chart? ==> answers(t).mediaType != ""
  }

  /** The probes ask that registry; any of them may be cut short, fail on the way or be denied. */
  predicate AskedOne(answer: Answer, p: Probe) {
    p.NotStarted? || p.answer == answer || p.answer.Pending? || p.answer.Denied?
  }

  ghost predicate Asks(answers: string -> Answer, p: Pass) {
    NoRepeats(p.tags) && forall t :: AskedOne(answers(t), p.probes(t))
  }

  ghost predicate AsksAlong(answers: string -> Answer, ts: seq<Turn>) {
    forall i :: 0 <= i < |ts| && ts[i].Examine? ==> Asks(answers, ts[i].pass)
  }

  lemma VersionAgrees(v: string, had: Option<Entry>, offered: bool, full: bool, probe: Probe, used: bool, answer: Answer)
    requires had.Some? ==> had.value.version == v && AgreesWith(had.value, answer)
    requires AskedOne(answer, probe) && (answer.Chart? ==> answer.mediaType != "")
    ensures var e := VersionAfter(v, had, offered, full, probe, used);
            e.Some? ==> e.value.version == v && AgreesWith(e.value, answer)
  {
  }

  lemma TurnKeepsAgreement(parse: Parser, es: seq<Entry>, t: Turn, answers: string -> Answer)
    requires Registry(answers) && Distinct(es) && Agrees(es, answers) && AsksAlong(answers, [t])
    ensures Distinct(AfterTurn(parse, es, t)) && Agrees(AfterTurn(parse, es, t), answers)
  {
    match t
    case Refresh =>
      forall e | e in MarkAll(es)
        ensures AgreesWith(e, answers(e.version))
      {
        var i :| 0 <= i < |es| && MarkAll(es)[i] == e;
        assert es[i] in es;
      }
    case Examine(p) =>
      assert Asks(answers, [t][0].pass);
      if Read(parse, es, p).Ok? {
        PassMeaning(parse, es, p);
        var es' := AfterPass(parse, es, p);
        forall e | e in es'
          ensures AgreesWith(e, answers(e.version))
        {
          FindDistinct(es', e);
          var v := e.version;
          VersionAgrees(v, Find(es, v), v in Offered(parse, p.tags), p.full, p.probes(v), v in p.inUse, answers(v));
        }
      }
  }

  lemma {:induction false} RunKeepsAgreement(parse: Parser, es: seq<Entry>, ts: seq<Turn>, answers: string -> Answer)
    requires Registry(answers) && Distinct(es) && Agrees(es, answers) && AsksAlong(answers, ts)
    ensures Distinct(AfterTurns(parse, es, ts)) && Agrees(AfterTurns(parse, es, ts), answers)
    decreases |ts|
  {
    if ts != [] {
      TurnKeepsAgreement(parse, es, ts[0], answers);
      assert forall i :: 0 <= i < |ts[1..]| ==> ts[1..][i] == ts[i + 1];
      RunKeepsAgreement(parse, AfterTurn(parse, es, ts[0]), ts[1..], answers);
    }
  }

  /** A pass nothing cuts short. */
  ghost predicate Uncut(answers: string -> Answer, p: Pass) {
    NoRepeats(p.tags) && !p.cancelled && forall t :: p.probes(t) == Answered(answers(t), false)
  }

  /** Only an unsupported version nobody uses may keep a media type a full pass would drop. */
  predicate SameOffer(had: Option<Entry>, a: Option<Entry>, b: Option<Entry>, offered: bool, used: bool) {
    && a.Some? == b.Some?
    && (a.Some? ==>
          && a.value.(mediaType := "") == b.value.(mediaType := "")
          && (a.value.mediaType != b.value.mediaType <==>
                && offered && !used && had.Some? && Established(had.value)
                && had.value.reason == UnsupportedMediaType && had.value.mediaType != ""))
  }

  lemma VersionSameOffer(v: string, had: Option<Entry>, offered: bool, answer: Answer, used: bool)
    requires had.Some? ==> had.value.version == v && AgreesWith(had.value, answer)
    ensures SameOffer(had, VersionAfter(v, had, offered, false, Answered(answer, false), used),
                      VersionAfter(v, had, offered, true, Answered(answer, false), used), offered, used)
  {
  }

  /** Main result: after any run against an unchanging registry, from a catalog that has no outdated
      verdict (an empty or a freshly marked one), a pass that skips recorded verdicts offers what a
      full pass would. */
  lemma IncrementalAgreesWithFull(parse: Parser, es: seq<Entry>, ts: seq<Turn>, answers: string -> Answer, p: Pass)
    requires Registry(answers) && Distinct(es) && Agrees(es, answers) && AsksAlong(answers, ts)
    requires Uncut(answers, p) && forall t :: !answers(t).Denied?
    ensures var now := AfterTurns(parse, es, ts);
            forall v :: SameOffer(Find(now, v), Find(AfterPass(parse, now, p.(full := false)), v),
                                  Find(AfterPass(parse, now, p.(full := true)), v), v in Offered(parse, p.tags), v in p.inUse)
  {
    RunKeepsAgreement(parse, es, ts, answers);
    var now := AfterTurns(parse, es, ts);
    var inc, all := p.(full := false), p.(full := true);
    UncutReads(parse, now, answers, inc);
    UncutReads(parse, now, answers, all);
    PassMeaning(parse, now, inc);
    PassMeaning(parse, now, all);
    forall v
      ensures SameOffer(Find(now, v), Find(AfterPass(parse, now, inc), v), Find(AfterPass(parse, now, all), v),
                        v in Offered(parse, p.tags), v in p.inUse)
    {
      VersionSameOffer(v, Find(now, v), v in Offered(parse, p.tags), answers(v), v in p.inUse);
    }
  }

  lemma UncutReads(parse: Parser, es: seq<Entry>, answers: string -> Answer, p: Pass)
    requires Uncut(answers, p) && forall t :: !answers(t).Denied?
    ensures Read(parse, es, p).Ok?
  {
  }

  /** The two catalogs a run may start from. */
  lemma AgreementStarts(es: seq<Entry>, answers: string -> Answer)
    ensures Agrees([], answers) && Agrees(MarkAll(es), answers)
  {
    forall e | e in MarkAll(es)
      ensures AgreesWith(e, answers(e.version))
    {
      var i :| 0 <= i < |es| && MarkAll(es)[i] == e;
    }
  }
}

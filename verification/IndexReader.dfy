/**
 The decoder as it runs: one loop over the bytes of the file that updates the index, the pending
 batch and the pending top-level block in place.
 */
module IndexReader {
  import opened Basics
  import opened IndexLines
  import opened IndexDecoder
  import opened IndexLayout
  import IndexAccepted

  datatype Verdict = Continue | Ended | Failed(error: Failure)

  /** A batch kept between two lines: its last version is within the limit for one, and what
      precedes that is less than a full batch. */
  predicate Kept(st: State, lim: Limits) {
    st.batch != [] ==>
      && st.itemStart <= Bytes(st.batch) && Bytes(st.batch) - st.itemStart <= lim.maxEntry
      && (lim.batch.Some? ==> st.itemStart < lim.batch.value)
  }

  lemma GrowKept(st: State, line: Line, lim: Limits)
    requires Kept(st, lim) && st.batch != [] && GrowBatch(st, line, lim).Go?
    ensures Kept(GrowBatch(st, line, lim).st, lim)
  {
    BytesConcat(st.batch, [line]);
  }

  lemma ItemKept(y: Yaml, st: State, line: Line, lim: Limits)
    requires Kept(st, lim) && (lim.batch.Some? ==> lim.batch.value > 0) && |line.text| <= lim.maxEntry
    requires StepItem(y, st, line, lim).Go?
    ensures Kept(StepItem(y, st, line, lim).st, lim)
  {
    var st1 := if lim.batch.Some? && Bytes(st.batch) >= lim.batch.value then FlushBatch(y, st).value else st;
    BytesConcat(st1.batch, [line]);
    assert Bytes([line]) == |line.text| && Bytes([]) == 0;
  }

  lemma FlushesBatch(y: Yaml, st: State)
    ensures FlushBatch(y, st).Some? ==> FlushBatch(y, st).value.batch == []
    ensures Flush(y, st).Some? ==> Flush(y, st).value.batch == []
  {
  }

  lemma OpeningKeepsBatch(y: Yaml, st: State, line: Line)
    ensures OpenTop(y, st, line).Go? ==> OpenTop(y, st, line).st.batch == st.batch
    ensures OpenChart(y, st, line).Go? ==> OpenChart(y, st, line).st.batch == st.batch
  {
  }

  lemma BoundaryKept(y: Yaml, st: State, line: Line)
    ensures StepTopKey(y, st, line).Go? ==> StepTopKey(y, st, line).st.batch == []
    ensures StepChart(y, st, line).Go? ==> StepChart(y, st, line).st.batch == []
  {
    FlushesBatch(y, st);
    if Flush(y, st).Some? {
      OpeningKeepsBatch(y, Flush(y, st).value, line);
    }
    if FlushBatch(y, st).Some? {
      OpeningKeepsBatch(y, FlushBatch(y, st).value, line);
    }
  }

  lemma StepKept(y: Yaml, st: State, line: Line, lim: Limits)
    requires Kept(st, lim) && (lim.batch.Some? ==> lim.batch.value > 0)
    requires StepLine(y, st, line, lim).Go?
    ensures Kept(StepLine(y, st, line, lim).st, lim)
  {
    BoundaryKept(y, st, line);
    if st.batch != [] && GrowBatch(st, line, lim).Go? {
      GrowKept(st, line, lim);
    }
    if StepItem(y, st, line, lim).Go? {
      ItemKept(y, st, line, lim);
    }
  }

  /** Over any file, a batch never amounts to a full batch and one more version. */
  lemma {:induction false} KeptAlways(y: Yaml, st: State, lines: seq<Line>, maxEntry: nat, batchSize: nat)
    requires batchSize > 0 && Kept(st, Limits(maxEntry, Some(batchSize)))
    requires After(y, st, lines, Limits(maxEntry, Some(batchSize))).Go?
    ensures var st' := After(y, st, lines, Limits(maxEntry, Some(batchSize))).st;
            Kept(st', Limits(maxEntry, Some(batchSize))) && Bytes(st'.batch) < batchSize + maxEntry
    decreases |lines|
  {
    if lines != [] {
      var lim := Limits(maxEntry, Some(batchSize));
      StepKept(y, st, lines[0], lim);
      KeptAlways(y, StepLine(y, st, lines[0], lim).st, lines[1..], maxEntry, batchSize);
    }
  }

  lemma StartedFlush(y: Yaml, st: State, line: Line)
    ensures StepTopKey(y, st.(started := true), line) == StepTopKey(y, st, line)
  {
    var st' := st.(started := true);
    if FlushBatch(y, st).Some? {
      assert FlushBatch(y, st').value == FlushBatch(y, st).value.(started := true);
      if Flush(y, st).Some? {
        assert Flush(y, st').value == Flush(y, st).value.(started := true);
      }
    }
  }

  class Reader {
    const y: Yaml
    const lim: Limits
    var apiVersion: string
    var entries: Option<map<string, seq<ChartVersion>>>
    var started: bool
    var marked: bool
    var seenTop: set<string>
    var top: seq<Line>
    var topKey: string
    var inEntries: bool
    var chart: string
    var chartClosed: bool
    var chartIndent: int
    var itemIndent: int
    var batch: seq<Line>
    var itemStart: nat

    constructor (y: Yaml, lim: Limits)
      ensures this.y == y && this.lim == lim && Value() == Initial()
    {
      this.y, this.lim := y, lim;
      apiVersion, entries := "", None;
      started, marked, seenTop := false, false, {};
      top, topKey, inEntries := [], "", false;
      chart, chartClosed, chartIndent, itemIndent := "", false, -1, -1;
      batch, itemStart := [], 0;
    }

    function Value(): State
      reads this
    {
      State(Index(apiVersion, entries), started, marked, seenTop, top, topKey, inEntries,
            chart, chartClosed, chartIndent, itemIndent, batch, itemStart)
    }

    method DoFlushBatch() returns (ok: bool)
      modifies `entries, `batch
      ensures ok <==> FlushBatch(y, old(Value())).Some?
      ensures ok ==> Value() == FlushBatch(y, old(Value())).value
    {
      if batch == [] {
        return true;
      }
      var versions := DecodeBatch(y, batch);
      if versions.None? {
        return false;
      }
      var known := if entries.Some? then entries.value else map[];
      entries := Some(known[chart := (if chart in known then known[chart] else []) + versions.value]);
      batch := [];
      return true;
    }

    method DoFlushTop() returns (ok: bool)
      modifies `apiVersion, `top
      ensures ok <==> FlushTop(y, old(Value())).Some?
      ensures ok ==> Value() == FlushTop(y, old(Value())).value
    {
      if top == [] {
        return true;
      }
      var api := y.top(top);
      if api.None? {
        return false;
      }
      if topKey == "apiVersion" {
        apiVersion := api.value;
      }
      top := [];
      return true;
    }

    method DoFlush() returns (ok: bool)
      modifies `entries, `batch, `apiVersion, `top
      ensures ok <==> Flush(y, old(Value())).Some?
      ensures ok ==> Value() == Flush(y, old(Value())).value
    {
      ok := DoFlushBatch();
      if ok {
        ok := DoFlushTop();
      }
    }

    method DoGrowBatch(line: Line) returns (v: Verdict)
      modifies `batch
      ensures Tells(v, Value(), GrowBatch(old(Value()), line, lim))
    {
      batch := batch + [line];
      if Bytes(batch) - itemStart > lim.maxEntry {
        return Failed(TooLarge);
      }
      return Continue;
    }

    method DoGrowTop(line: Line) returns (v: Verdict)
      modifies `top
      ensures Tells(v, Value(), GrowTop(old(Value()), line, lim))
    {
      top := top + [line];
      if Bytes(top) > lim.maxEntry {
        return Failed(TooLarge);
      }
      return Continue;
    }

    method TakeTopKey(line: Line) returns (v: Verdict)
      modifies this
      ensures Tells(v, Value(), StepTopKey(y, old(Value()), line))
    {
      StartedFlush(y, Value(), line);
      started := true;
      var ok := DoFlush();
      if !ok {
        return Failed(Undecodable);
      }
      v := OpenTopKey(line);
    }

    method OpenTopKey(line: Line) returns (v: Verdict)
      requires started
      modifies `top, `topKey, `inEntries, `entries, `chart, `chartIndent, `itemIndent, `seenTop
      ensures Tells(v, Value(), OpenTop(y, old(Value()), line))
    {
      inEntries, chart, chartIndent, itemIndent := false, "", -1, -1;
      var key := y.key(line.text);
      if key.None? {
        return Failed(Layout);
      }
      var (name, node) := key.value;
      if name in seenTop {
        return Failed(Layout);
      }
      seenTop := seenTop + {name};
      assert Value() == old(Value()).(inEntries := false, chart := "", chartIndent := -1, itemIndent := -1,
                                      seenTop := old(seenTop) + {name});
      v := OpenNamedKey(line, name, node);
    }

    method OpenNamedKey(line: Line, name: string, node: Node) returns (v: Verdict)
      modifies `top, `topKey, `inEntries, `entries
      ensures Tells(v, Value(), OpenNamed(old(Value()), line, name, node))
    {
      if name != "entries" {
        top, topKey := [line], name;
        return Continue;
      }
      match node {
        case Open => inEntries := true;
        case Null =>
        case EmptyMapping => entries := Some(map[]);
        case Given(_) => return Failed(Layout);
      }
      return Continue;
    }

    method TakeChart(line: Line) returns (v: Verdict)
      modifies this
      ensures Tells(v, Value(), StepChart(y, old(Value()), line))
    {
      var ok := DoFlushBatch();
      if !ok {
        return Failed(Undecodable);
      }
      var key := y.key(line.trimmed);
      if key.None? {
        return Failed(Layout);
      }
      var (name, node) := key.value;
      var known := if entries.Some? then entries.value else map[];
      if name in known {
        return Failed(Layout);
      }
      var versions := NodeVersions(node);
      if versions.None? {
        return Failed(Undecodable);
      }
      chart, chartClosed, chartIndent, itemIndent := name, !node.Open?, line.indent, -1;
      entries := Some(known[name := versions.value]);
      return Continue;
    }

    method TakeItem(line: Line) returns (v: Verdict)
      modifies this
      ensures Tells(v, Value(), StepItem(y, old(Value()), line, lim))
    {
      if lim.batch.Some? && Bytes(batch) >= lim.batch.value {
        var ok := DoFlushBatch();
        if !ok {
          return Failed(Undecodable);
        }
      }
      itemIndent, itemStart := line.indent, Bytes(batch);
      batch := batch + [line];
      return Continue;
    }

    method TakeLine(line: Line) returns (v: Verdict)
      modifies this
      ensures Tells(v, Value(), StepLine(y, old(Value()), line, lim))
    {
      if |line.text| > lim.maxEntry {
        return Failed(TooLarge);
      }
      if line.kind.Filler? {
        if batch != [] {
          v := DoGrowBatch(line);
        } else if top != [] {
          v := DoGrowTop(line);
        } else {
          v := Continue;
        }
        return;
      }
      if line.indent == 0 {
        if line.kind.Directive? {
          return if started || marked then Failed(Layout) else Continue;
        }
        if line.kind.Marker? {
          if !line.kind.bare {
            return Failed(Layout);
          }
          if started || marked {
            return Ended;
          }
          marked := true;
          return Continue;
        }
        v := TakeTopKey(line);
        return;
      }
      if !inEntries {
        if top == [] {
          return Failed(Layout);
        }
        v := DoGrowTop(line);
        return;
      }
      if line.kind.Item? && chart != "" && !chartClosed && (itemIndent == -1 || line.indent == itemIndent)
         && line.indent >= chartIndent {
        v := TakeItem(line);
      } else if batch != [] && line.indent > itemIndent {
        v := DoGrowBatch(line);
      } else if !line.kind.Item? && (chartIndent == -1 || line.indent == chartIndent) {
        v := TakeChart(line);
      } else {
        v := Failed(Layout);
      }
    }
  }

  /** A verdict and the state left behind say what the step of the specification says. */
  ghost predicate Tells(v: Verdict, st: State, next: Next) {
    match next
    case Go(st') => v == Continue && st == st'
    case Stop(st') => v == Ended && st == st'
    case Fail(e) => v.Failed? && v.error == e
  }

  /** The whole pass over a file. Between two lines the pending batch stays below both limits
      together, whatever the file holds. */
  method DecodeIndexByEntry(y: Yaml, body: string, maxEntry: nat, batchSize: nat)
    returns (r: Result<Index, Failure>)
    requires batchSize > 0
    ensures r == Decode(y, Initial(), ReadAll(SplitLines(body)), Limits(maxEntry, Some(batchSize)))
  {
    var lim := Limits(maxEntry, Some(batchSize));
    var reader := new Reader(y, lim);
    var rest := body;
    while rest != ""
      invariant reader.y == y && reader.lim == lim
      invariant Decode(y, Initial(), ReadAll(SplitLines(body)), lim)
             == Decode(y, reader.Value(), ReadAll(SplitLines(rest)), lim)
      invariant Kept(reader.Value(), lim) && Bytes(reader.batch) < batchSize + maxEntry
      decreases |rest|
    {
      var n := LineEnd(rest);
      var line := Read(rest[..n]);
      ghost var lines := ReadAll(SplitLines(rest));
      assert lines[0] == line && lines[1..] == ReadAll(SplitLines(rest[n..]));
      rest := rest[n..];
      ghost var before := reader.Value();
      var v := reader.TakeLine(line);
      match v
      case Failed(e) => return Err(e);
      case Ended => break;
      case Continue =>
        StepKept(y, before, line, lim);
    }
    var ok := reader.DoFlush();
    if !ok {
      return Err(Undecodable);
    }
    return Ok(Index(reader.apiVersion, reader.entries));
  }

  // ----- from bytes to lines -----

  function Texts(lines: seq<Line>): seq<string> {
    if lines == [] then [] else [lines[0].text] + Texts(lines[1..])
  }

  /** The lines are those of a file; the last one may lack its newline. */
  predicate FromTexts(lines: seq<Line>) {
    forall i :: 0 <= i < |lines| ==>
      lines[i] == Read(lines[i].text) && if i < |lines| - 1 then IsLine(lines[i].text) else IsLastLine(lines[i].text)
  }

  lemma {:induction false} LinesOfText(lines: seq<Line>)
    requires FromTexts(lines)
    ensures ReadAll(Texts(lines)) == lines && AreLines(Texts(lines)) && |Texts(lines)| == |lines|
  {
    if lines != [] {
      var more := lines[1..];
      assert forall i :: 0 <= i < |more| ==> more[i] == lines[i + 1];
      LinesOfText(more);
      assert Texts(lines) == [lines[0].text] + Texts(more) && Texts(lines)[1..] == Texts(more);
      assert forall i :: 0 < i < |Texts(lines)| ==> Texts(lines)[i] == Texts(more)[i - 1];
      assert lines == [lines[0]] + more;
    }
  }

  /** A document rendered as text is read back as its lines. */
  lemma RenderedLines(d: Document)
    requires FromTexts(Lines(d))
    ensures ReadAll(SplitLines(Join(Texts(Lines(d))))) == Lines(d)
  {
    LinesOfText(Lines(d));
    JoinSplits(Texts(Lines(d)));
  }

  /** A document in block layout that is written out as text is accepted exactly if its pieces keep to the
      limit and decode, and it is decoded to what it means. */
  lemma RenderedDocumentDecodes(y: Yaml, d: Document, lim: Limits)
    requires InBlockLayout(y, d) && FromTexts(Lines(d))
    ensures var r := Decode(y, Initial(), ReadAll(SplitLines(Join(Texts(Lines(d))))), lim);
            if Fits(d, lim.maxEntry) && WholeIndex(y, d).Some? then r == Ok(WholeIndex(y, d).value) else r.Err?
  {
    RenderedLines(d);
    BlockLayoutDecodes(y, d, lim);
  }

  /** `whole` is the decode of a file in one piece. All that is asked of it is that a file in block layout
      whose pieces decode alone decodes to what they mean together; a file whose pieces do not, because one
      refers to another, it may decode or not. Then every file within the limit for a whole decode, in any
      layout, is decoded as `whole` does; a larger one exactly if it is in block layout and its pieces fit
      and decode. */
  method DecodeIndex(y: Yaml, whole: string -> Option<Index>, body: string, maxEntry: nat, maxWhole: nat, batchSize: nat)
    returns (r: Result<Index, Failure>)
    requires batchSize > 0
    requires forall d :: InBlockLayout(y, d) && Lines(d) == ReadAll(SplitLines(body)) && WholeIndex(y, d).Some? ==>
               whole(body) == WholeIndex(y, d)
    ensures r.Ok? ==> whole(body) == Some(r.value)
    ensures |body| <= maxWhole ==> (r.Ok? <==> whole(body).Some?)
    ensures |body| > maxWhole ==>
              (r.Ok? <==> exists d :: InBlockLayout(y, d) && Lines(d) == ReadAll(SplitLines(body))
                                      && Fits(d, maxEntry) && WholeIndex(y, d).Some?)
  {
    IndexAccepted.AcceptedIffLaidOut(y, ReadAll(SplitLines(body)), Limits(maxEntry, Some(batchSize)));
    r := DecodeIndexByEntry(y, body, maxEntry, batchSize);
    if r.Ok? || |body| > maxWhole {
      return;
    }
    var index := whole(body);
    return if index.Some? then Ok(index.value) else Err(Undecodable);
  }
}

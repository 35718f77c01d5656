/**
 The other direction: whatever the line decoder accepts is an index in block layout, so what it
 returns is what the document means.
 */
module IndexAccepted {
  import opened Basics
  import opened IndexLines
  import opened IndexDecoder
  import opened IndexLayout

  /** What is still to come of a document: of the block or version under way, of the chart, of the
      entries, of the document, and after it. */
  datatype Remainder = Remainder(rest: seq<Line>, items: seq<ListItem>, charts: seq<ChartBlock>, tops: seq<Top>, tail: seq<Line>)

  function RemainingLines(r: Remainder): seq<Line> {
    r.rest + (ItemsLines(r.items) + (ChartsLines(r.charts) + (TopsLines(r.tops) + r.tail)))
  }

  /** Where the decoder can stand between two lines, once it has seen a key. */
  datatype Place = InBlock | InEntries | AfterEntries | InChart | InVersion

  function PlaceOf(st: State): Place {
    if st.top != [] then InBlock
    else if !st.inEntries then AfterEntries
    else if st.chartIndent == -1 then InEntries
    else if st.batch == [] then InChart
    else InVersion
  }

  predicate Running(st: State) {
    && st.started && (st.top != [] ==> !st.inEntries) && (st.batch != [] ==> PlaceOf(st).InVersion?)
    && (PlaceOf(st).InEntries? ==> st.itemIndent == -1 && st.chart == "")
    && (PlaceOf(st).InChart? ==> st.chartIndent > 0 && st.itemIndent == -1)
    && (PlaceOf(st).InVersion? ==> 0 < st.chartIndent <= st.itemIndent && st.chart != "" && !st.chartClosed)
  }

  predicate VersionsFrom(items: seq<ListItem>, indent: int) {
    items != [] ==> items[0].first.indent >= indent && ItemsLaidOut(items, items[0].first.indent)
  }

  /** The remainder is laid out as the place demands. */
  predicate Continues(y: Yaml, st: State, r: Remainder)
    requires Running(st)
  {
    && TopsLaidOut(y, r.tops, st.seenTop) && TailLaidOut(r.tail)
    && match PlaceOf(st)
       case InBlock => Deeper(r.rest, 0) && r.items == [] && r.charts == []
       case AfterEntries => Fillers(r.rest) && r.items == [] && r.charts == []
       case InEntries => Fillers(r.rest) && r.items == [] && (r.charts != [] ==> ChartsLaidOut(y, r.charts, r.charts[0].key.indent))
       case InChart =>
         && Fillers(r.rest) && ChartsLaidOut(y, r.charts, st.chartIndent) && VersionsFrom(r.items, st.chartIndent)
         && (r.items != [] ==> st.chart != "" && !st.chartClosed)
       case InVersion => Deeper(r.rest, st.itemIndent) && ItemsLaidOut(r.items, st.itemIndent) && ChartsLaidOut(y, r.charts, st.chartIndent)
  }

  // ----- one line taken back -----

  /** The line goes on with what is under way. */
  predicate GoesOn(st: State, line: Line) {
    || line.kind.Filler?
    || (PlaceOf(st).InBlock? && line.indent > 0)
    || (PlaceOf(st).InVersion? && line.indent > st.itemIndent)
  }

  lemma DeeperCons(line: Line, rest: seq<Line>, indent: int)
    ensures indent >= 0 && Deeper(rest, indent) && (line.kind.Filler? || line.indent > indent) ==> Deeper([line] + rest, indent)
    ensures Fillers(rest) && line.kind.Filler? ==> Fillers([line] + rest)
  {
  }

  lemma LineGoesOn(y: Yaml, st: State, line: Line, st': State, r: Remainder)
    requires Running(st) && Running(st') && GoesOn(st, line)
    requires PlaceOf(st') == PlaceOf(st) && st' == st.(top := st'.top, batch := st'.batch)
    requires Continues(y, st', r)
    ensures Continues(y, st, r.(rest := [line] + r.rest))
  {
    DeeperCons(line, r.rest, 0);
    DeeperCons(line, r.rest, st.itemIndent);
  }

  lemma RestLines(line: Line, r: Remainder)
    ensures RemainingLines(r.(rest := [line] + r.rest)) == [line] + RemainingLines(r)
  {
  }

  lemma Regroup(a: seq<Line>, b: seq<Line>, c: seq<Line>, d: seq<Line>, e: seq<Line>)
    ensures a + b + c + (d + e) == a + (b + (c + (d + e))) && a + b + c + d + e == a + (b + (c + (d + e)))
  {
  }

  lemma ItemsCons(item: ListItem, items: seq<ListItem>)
    ensures ItemsLines([item] + items) == ItemLines(item) + ItemsLines(items)
    ensures forall indent :: ItemLaidOut(item, indent) && ItemsLaidOut(items, indent) ==> ItemsLaidOut([item] + items, indent)
  {
    assert ([item] + items)[1..] == items;
  }

  lemma ChartsCons(y: Yaml, chart: ChartBlock, charts: seq<ChartBlock>)
    ensures ChartsLines([chart] + charts) == ChartLines(chart) + ChartsLines(charts)
    ensures forall indent :: ChartLaidOut(y, chart, indent) && ChartsLaidOut(y, charts, indent) ==> ChartsLaidOut(y, [chart] + charts, indent)
  {
    assert ([chart] + charts)[1..] == charts;
  }

  lemma LineStartsVersion(y: Yaml, st: State, line: Line, st': State, r: Remainder)
    requires Running(st) && Running(st') && (PlaceOf(st).InChart? || PlaceOf(st).InVersion?) && TakesItem(st, line)
    requires PlaceOf(st').InVersion? && st'.itemIndent == line.indent && st'.chartIndent == st.chartIndent && st'.seenTop == st.seenTop
    requires Continues(y, st', r)
    ensures Continues(y, st, Remainder([], [ListItem(line, r.rest)] + r.items, r.charts, r.tops, r.tail))
  {
    var item := ListItem(line, r.rest);
    assert ItemLaidOut(item, line.indent);
    ItemsCons(item, r.items);
  }

  lemma VersionLines(line: Line, r: Remainder)
    ensures RemainingLines(Remainder([], [ListItem(line, r.rest)] + r.items, r.charts, r.tops, r.tail)) == [line] + RemainingLines(r)
  {
    ItemsCons(ListItem(line, r.rest), r.items);
    Regroup([line], r.rest, ItemsLines(r.items), ChartsLines(r.charts), TopsLines(r.tops) + r.tail);
  }

  lemma LineStartsChart(y: Yaml, st: State, line: Line, st': State, r: Remainder)
    requires Running(st) && Running(st') && (PlaceOf(st).InEntries? || PlaceOf(st).InChart? || PlaceOf(st).InVersion?)
    requires line.indent > 0 && !line.kind.Filler? && !line.kind.Item? && (st.chartIndent == -1 || line.indent == st.chartIndent)
    requires PlaceOf(st').InChart? && st'.chartIndent == line.indent && st'.seenTop == st.seenTop
    requires y.key(line.trimmed).Some? && st'.chart == y.key(line.trimmed).value.0 && st'.chartClosed == !y.key(line.trimmed).value.1.Open?
    requires Continues(y, st', r)
    ensures Continues(y, st, Remainder([], [], [ChartBlock(line, r.rest, r.items)] + r.charts, r.tops, r.tail))
  {
    var chart := ChartBlock(line, r.rest, r.items);
    assert ChartLaidOut(y, chart, line.indent);
    ChartsCons(y, chart, r.charts);
  }

  lemma ChartBlockLines(y: Yaml, line: Line, r: Remainder)
    ensures RemainingLines(Remainder([], [], [ChartBlock(line, r.rest, r.items)] + r.charts, r.tops, r.tail)) == [line] + RemainingLines(r)
  {
    ChartsCons(y, ChartBlock(line, r.rest, r.items), r.charts);
    Regroup([line], r.rest, ItemsLines(r.items), ChartsLines(r.charts), TopsLines(r.tops) + r.tail);
    assert ItemsLines([]) == [];
    assert [] + ([] + (ChartLines(ChartBlock(line, r.rest, r.items)) + ChartsLines(r.charts) + (TopsLines(r.tops) + r.tail)))
        == ChartLines(ChartBlock(line, r.rest, r.items)) + ChartsLines(r.charts) + (TopsLines(r.tops) + r.tail);
  }

  /** The top-level value a key starts, with what followed it up to the next one. */
  function TopStarted(name: string, line: Line, r: Remainder): Top {
    if name != "entries" then Block(line, r.rest) else EntriesBlock(line, r.rest, r.charts)
  }

  lemma LineStartsTop(y: Yaml, seen: set<string>, line: Line, st': State, r: Remainder)
    requires line.indent == 0 && line.kind in {Item, Other} && y.key(line.text).Some? && y.key(line.text).value.0 !in seen
    requires Running(st') && st'.seenTop == seen + {y.key(line.text).value.0}
    requires var (name, node) := y.key(line.text).value;
             PlaceOf(st') == (if name != "entries" then InBlock else if node.Open? then InEntries else AfterEntries)
    requires Continues(y, st', r)
    ensures TopsLaidOut(y, [TopStarted(y.key(line.text).value.0, line, r)] + r.tops, seen)
  {
    var top := TopStarted(y.key(line.text).value.0, line, r);
    assert ([top] + r.tops)[1..] == r.tops;
    assert TopLaidOut(y, top) && TopName(y, top) == y.key(line.text).value.0;
  }

  lemma TopStartedLines(name: string, line: Line, r: Remainder)
    requires r.items == [] && (name != "entries" ==> r.charts == [])
    ensures TopsLines([TopStarted(name, line, r)] + r.tops) + r.tail == [line] + RemainingLines(r)
  {
    var top := TopStarted(name, line, r);
    assert ([top] + r.tops)[1..] == r.tops && ItemsLines([]) == [] && ChartsLines([]) == [];
    assert TopLines(top) == [line] + r.rest + ChartsLines(r.charts);
    Regroup([line], r.rest, ChartsLines(r.charts), TopsLines(r.tops), r.tail);
    assert [] + (ChartsLines(r.charts) + (TopsLines(r.tops) + r.tail)) == ChartsLines(r.charts) + (TopsLines(r.tops) + r.tail);
  }

  // ----- whole files -----

  /** Where a line that starts a top-level value leads. */
  lemma TopKeyLeads(y: Yaml, st: State, line: Line, lim: Limits)
    requires StepTopKey(y, st, line).Go?
    ensures var st' := StepTopKey(y, st, line).st;
            && y.key(line.text).Some? && y.key(line.text).value.0 !in st.seenTop
            && st'.seenTop == st.seenTop + {y.key(line.text).value.0} && Running(st')
            && var (name, node) := y.key(line.text).value;
               PlaceOf(st') == (if name != "entries" then InBlock else if node.Open? then InEntries else AfterEntries)
  {
    var st1 := Flush(y, st).value;
    assert st1.batch == [] && st1.top == [] && st1.seenTop == st.seenTop;
  }

  lemma ChartLeads(y: Yaml, st: State, line: Line)
    requires Running(st) && st.inEntries && line.indent > 0 && StepChart(y, st, line).Go?
    ensures var st' := StepChart(y, st, line).st;
            && Running(st') && PlaceOf(st').InChart? && st'.chartIndent == line.indent && st'.seenTop == st.seenTop
            && y.key(line.trimmed).Some? && st'.chart == y.key(line.trimmed).value.0
            && st'.chartClosed == !y.key(line.trimmed).value.1.Open?
  {
    var st1 := FlushBatch(y, st).value;
    assert st1.batch == [] && st1.top == [] && st1.seenTop == st.seenTop && st1.started && st1.inEntries;
  }

  lemma VersionLeads(y: Yaml, st: State, line: Line, lim: Limits)
    requires Running(st) && st.inEntries && line.indent > 0 && TakesItem(st, line) && StepItem(y, st, line, lim).Go?
    ensures var st' := StepItem(y, st, line, lim).st;
            && (PlaceOf(st).InChart? || PlaceOf(st).InVersion?) && Running(st') && PlaceOf(st').InVersion?
            && st'.itemIndent == line.indent && st'.chartIndent == st.chartIndent && st'.seenTop == st.seenTop
  {
    var st1 := if lim.batch.Some? && Bytes(st.batch) >= lim.batch.value then FlushBatch(y, st).value else st;
    assert st1 == st.(index := st1.index, batch := st1.batch);
    assert AddItem(st1, line).batch == st1.batch + [line];
  }

  lemma GoesOnLeads(y: Yaml, st: State, line: Line, lim: Limits)
    requires Running(st) && GoesOn(st, line) && StepLine(y, st, line, lim).Go?
    ensures var st' := StepLine(y, st, line, lim).st;
            Running(st') && PlaceOf(st') == PlaceOf(st) && st' == st.(top := st'.top, batch := st'.batch)
  {
  }

  /** Which step an accepted line takes. */
  lemma StepTaken(y: Yaml, st: State, line: Line, lim: Limits)
    requires Running(st) && StepLine(y, st, line, lim).Go? && !GoesOn(st, line)
    ensures if line.indent == 0 then line.kind in {Item, Other} && StepLine(y, st, line, lim) == StepTopKey(y, st, line)
            else st.inEntries
                 && if TakesItem(st, line) then StepLine(y, st, line, lim) == StepItem(y, st, line, lim)
                    else !line.kind.Item? && (st.chartIndent == -1 || line.indent == st.chartIndent)
                         && StepLine(y, st, line, lim) == StepChart(y, st, line)
  {
  }

  lemma StaysRunning(y: Yaml, st: State, line: Line, lim: Limits)
    requires Running(st) && StepLine(y, st, line, lim).Go?
    ensures Running(StepLine(y, st, line, lim).st)
  {
    if GoesOn(st, line) {
      GoesOnLeads(y, st, line, lim);
    } else {
      StepTaken(y, st, line, lim);
      if line.indent == 0 {
        TopKeyLeads(y, st, line, lim);
      } else if TakesItem(st, line) {
        VersionLeads(y, st, line, lim);
      } else {
        ChartLeads(y, st, line);
      }
    }
  }

  /** What is still to come before a line, given what is still to come after it. */
  lemma StepBack(y: Yaml, st: State, line: Line, lim: Limits, r: Remainder) returns (r': Remainder)
    requires Running(st) && StepLine(y, st, line, lim).Go? && Running(StepLine(y, st, line, lim).st)
    requires Continues(y, StepLine(y, st, line, lim).st, r)
    ensures Continues(y, st, r') && RemainingLines(r') == [line] + RemainingLines(r)
  {
    var st' := StepLine(y, st, line, lim).st;
    if GoesOn(st, line) {
      GoesOnLeads(y, st, line, lim);
      LineGoesOn(y, st, line, st', r);
      RestLines(line, r);
      return r.(rest := [line] + r.rest);
    }
    StepTaken(y, st, line, lim);
    if line.indent == 0 {
      r' := TopBack(y, st, line, lim, r);
    } else if TakesItem(st, line) {
      VersionLeads(y, st, line, lim);
      LineStartsVersion(y, st, line, st', r);
      VersionLines(line, r);
      r' := Remainder([], [ListItem(line, r.rest)] + r.items, r.charts, r.tops, r.tail);
    } else {
      ChartLeads(y, st, line);
      LineStartsChart(y, st, line, st', r);
      ChartBlockLines(y, line, r);
      r' := Remainder([], [], [ChartBlock(line, r.rest, r.items)] + r.charts, r.tops, r.tail);
    }
  }

  lemma TopBack(y: Yaml, st: State, line: Line, lim: Limits, r: Remainder) returns (r': Remainder)
    requires line.indent == 0 && line.kind in {Item, Other}
    requires StepTopKey(y, st, line).Go? && Running(StepTopKey(y, st, line).st) && Continues(y, StepTopKey(y, st, line).st, r)
    ensures r'.rest == [] && r'.items == [] && r'.charts == [] && r'.tops != []
    ensures TopsLaidOut(y, r'.tops, st.seenTop) && r'.tail == r.tail && RemainingLines(r') == [line] + RemainingLines(r)
  {
    TopKeyLeads(y, st, line, lim);
    var name := y.key(line.text).value.0;
    LineStartsTop(y, st.seenTop, line, StepTopKey(y, st, line).st, r);
    TopStartedLines(name, line, r);
    r' := Remainder([], [], [], [TopStarted(name, line, r)] + r.tops, r.tail);
    assert ItemsLines([]) == [] && ChartsLines([]) == [];
  }

  /** What the lines ahead of an accepting decoder are. */
  lemma {:induction false} Accepted(y: Yaml, st: State, lines: seq<Line>, lim: Limits) returns (r: Remainder)
    requires Running(st) && Decode(y, st, lines, lim).Ok?
    ensures RemainingLines(r) == lines && Continues(y, st, r)
    decreases |lines|
  {
    if lines == [] || StepLine(y, st, lines[0], lim).Stop? {
      r := Remainder([], [], [], [], lines);
      EndsHere(y, st, lines, lim);
    } else {
      StaysRunning(y, st, lines[0], lim);
      var after := Accepted(y, StepLine(y, st, lines[0], lim).st, lines[1..], lim);
      r := StepBack(y, st, lines[0], lim, after);
      assert lines == [lines[0]] + lines[1..];
    }
  }

  lemma EndsHere(y: Yaml, st: State, lines: seq<Line>, lim: Limits)
    requires Running(st) && (lines == [] || StepLine(y, st, lines[0], lim).Stop?)
    ensures var r := Remainder([], [], [], [], lines); RemainingLines(r) == lines && Continues(y, st, r)
  {
    if lines != [] {
      StopsAtMarker(y, st, lines[0], lim);
    }
    NothingAhead(y, st, lines);
  }

  lemma NothingAhead(y: Yaml, st: State, tail: seq<Line>)
    requires Running(st) && TailLaidOut(tail)
    ensures var r := Remainder([], [], [], [], tail); RemainingLines(r) == tail && Continues(y, st, r)
  {
    assert ItemsLines([]) == [] && ChartsLines([]) == [] && TopsLines([]) == [];
  }

  lemma StopsAtMarker(y: Yaml, st: State, line: Line, lim: Limits)
    requires StepLine(y, st, line, lim).Stop?
    ensures line.indent == 0 && line.kind == Marker(true) && (st.started || st.marked)
  {
  }

  // ----- before the first key -----

  predicate Fresh(st: State) {
    !st.started && !st.inEntries && st.batch == [] && st.top == [] && st.seenTop == {}
  }

  /** A document read from a point before its first key; `marked` says whether a marker came already. */
  predicate LaidOutFrom(y: Yaml, d: Document, marked: bool) {
    && HeadLaidOut(d.head, marked) && TopsLaidOut(y, d.tops, {}) && TailLaidOut(d.tail)
    && (d.tail != [] ==> d.tops != [] || marked || Marked(d.head))
  }

  lemma HeadLines(line: Line, d: Document)
    ensures Lines(d.(head := [line] + d.head)) == [line] + Lines(d)
  {
    var a, b, c := d.head, TopsLines(d.tops), d.tail;
    assert [line] + a + b + c == [line] + (a + b + c);
  }

  lemma MarkedCons(line: Line, head: seq<Line>)
    ensures Marked([line] + head) <==> line.kind.Marker? || Marked(head)
  {
    if Marked(head) {
      var i :| 0 <= i < |head| && head[i].kind.Marker?;
      assert ([line] + head)[i + 1].kind.Marker?;
    }
    if line.kind.Marker? {
      assert ([line] + head)[0].kind.Marker?;
    }
  }

  lemma HeadBack(y: Yaml, line: Line, d: Document, marked: bool)
    requires LaidOutFrom(y, d, marked || line.kind.Marker?)
    requires line.kind.Filler? || (line.indent == 0 && !marked && (line.kind.Directive? || line.kind == Marker(true)))
    ensures LaidOutFrom(y, d.(head := [line] + d.head), marked)
  {
    assert ([line] + d.head)[1..] == d.head;
    MarkedCons(line, d.head);
  }

  lemma HeadStep(y: Yaml, st: State, line: Line, lim: Limits)
    requires Fresh(st) && StepLine(y, st, line, lim).Go?
    ensures var next := StepLine(y, st, line, lim);
            if line.kind in {Item, Other} then line.indent == 0 && next == StepTopKey(y, st, line)
            else && (line.kind.Filler? || (line.indent == 0 && !st.marked && (line.kind.Directive? || line.kind == Marker(true))))
                 && next.st == st.(marked := st.marked || line.kind.Marker?)
  {
  }

  /** Nothing but a tail of a new document, which a marker must have come before. */
  lemma OnlyTail(y: Yaml, st: State, lines: seq<Line>, lim: Limits)
    requires Fresh(st) && (lines == [] || StepLine(y, st, lines[0], lim).Stop?)
    ensures Lines(Document([], [], lines)) == lines && LaidOutFrom(y, Document([], [], lines), st.marked)
  {
    if lines != [] {
      StopsAtMarker(y, st, lines[0], lim);
    }
    assert TopsLines([]) == [];
  }

  /** What is ahead of an accepting decoder at a first key is a document without a head. */
  lemma KeysOnly(y: Yaml, r: Remainder, marked: bool)
    requires r.rest == [] && r.items == [] && r.charts == [] && r.tops != []
    requires TopsLaidOut(y, r.tops, {}) && TailLaidOut(r.tail)
    ensures Lines(Document([], r.tops, r.tail)) == RemainingLines(r) && LaidOutFrom(y, Document([], r.tops, r.tail), marked)
  {
    assert ItemsLines([]) == [] && ChartsLines([]) == [];
    assert [] + TopsLines(r.tops) + r.tail == TopsLines(r.tops) + r.tail;
  }

  /** The keys from the first one on, as the decoder accepts them. */
  lemma AcceptedTops(y: Yaml, st: State, line: Line, rest: seq<Line>, lim: Limits) returns (d: Document)
    requires Fresh(st) && line.indent == 0 && line.kind in {Item, Other}
    requires StepTopKey(y, st, line).Go? && Decode(y, StepTopKey(y, st, line).st, rest, lim).Ok?
    ensures Lines(d) == [line] + rest && LaidOutFrom(y, d, st.marked)
  {
    TopKeyLeads(y, st, line, lim);
    var after := Accepted(y, StepTopKey(y, st, line).st, rest, lim);
    var r := TopBack(y, st, line, lim, after);
    KeysOnly(y, r, st.marked);
    d := Document([], r.tops, r.tail);
  }

  /** One more line ahead of the first key. */
  lemma HeadAccepted(y: Yaml, st: State, line: Line, rest: Document, lim: Limits)
    requires Fresh(st) && StepLine(y, st, line, lim).Go? && line.kind !in {Item, Other}
    requires LaidOutFrom(y, rest, StepLine(y, st, line, lim).st.marked)
    ensures Lines(rest.(head := [line] + rest.head)) == [line] + Lines(rest)
    ensures LaidOutFrom(y, rest.(head := [line] + rest.head), st.marked)
  {
    HeadStep(y, st, line, lim);
    HeadBack(y, line, rest, st.marked);
    HeadLines(line, rest);
  }

  lemma {:induction false} AcceptedFrom(y: Yaml, st: State, lines: seq<Line>, lim: Limits) returns (d: Document)
    requires Fresh(st) && Decode(y, st, lines, lim).Ok?
    ensures Lines(d) == lines && LaidOutFrom(y, d, st.marked)
    decreases |lines|
  {
    if lines == [] || StepLine(y, st, lines[0], lim).Stop? {
      OnlyTail(y, st, lines, lim);
      return Document([], [], lines);
    }
    var line := lines[0];
    assert lines == [line] + lines[1..];
    HeadStep(y, st, line, lim);
    if line.kind in {Item, Other} {
      d := AcceptedTops(y, st, line, lines[1..], lim);
    } else {
      var rest := AcceptedFrom(y, StepLine(y, st, line, lim).st, lines[1..], lim);
      HeadAccepted(y, st, line, rest, lim);
      d := rest.(head := [line] + rest.head);
    }
  }

  /** Main result: the line decoder accepts exactly the indexes in block layout that decode and keep to
      the size limit, and returns what they mean. */
  lemma AcceptedIffLaidOut(y: Yaml, lines: seq<Line>, lim: Limits)
    ensures Decode(y, Initial(), lines, lim).Ok? <==>
              exists d :: InBlockLayout(y, d) && Lines(d) == lines && Fits(d, lim.maxEntry) && WholeIndex(y, d).Some?
    ensures forall d :: InBlockLayout(y, d) && Lines(d) == lines && Decode(y, Initial(), lines, lim).Ok? ==>
              WholeIndex(y, d) == Some(Decode(y, Initial(), lines, lim).value)
  {
    forall d | InBlockLayout(y, d) && Lines(d) == lines
      ensures if Fits(d, lim.maxEntry) && WholeIndex(y, d).Some?
              then Decode(y, Initial(), lines, lim) == Ok(WholeIndex(y, d).value) else Decode(y, Initial(), lines, lim).Err?
    {
      BlockLayoutDecodes(y, d, lim);
    }
    if Decode(y, Initial(), lines, lim).Ok? {
      var d := AcceptedFrom(y, Initial(), lines, lim);
      assert InBlockLayout(y, d);
    }
  }
}

/**
 The streaming decoder against the meaning of a document: an index in helm's block layout is a tree
 of top-level values, charts and chart versions, and decoding its lines gives what decoding the tree
 gives, for every batch size, exactly when no piece is over the size limit.
 */
module IndexLayout {
  import opened Basics
  import opened IndexLines
  import opened IndexDecoder
  import IndexBatches

  /** A chart version: its first line and the deeper lines that follow. */
  datatype ListItem = ListItem(first: Line, rest: seq<Line>)

  /** A chart: its key, comments, and its versions; a chart with inline versions has no items. */
  datatype ChartBlock = ChartBlock(key: Line, gap: seq<Line>, items: seq<ListItem>)

  datatype Top =
    | Block(key: Line, rest: seq<Line>)
    | EntriesBlock(key: Line, gap: seq<Line>, charts: seq<ChartBlock>)

  /** What precedes the first key, the top-level values, and what follows the end of the document. */
  datatype Document = Document(head: seq<Line>, tops: seq<Top>, tail: seq<Line>)

  // ----- the lines of a tree -----

  function ItemLines(item: ListItem): seq<Line> {
    [item.first] + item.rest
  }

  function ItemsLines(items: seq<ListItem>): seq<Line> {
    if items == [] then [] else ItemLines(items[0]) + ItemsLines(items[1..])
  }

  function ChartLines(c: ChartBlock): seq<Line> {
    [c.key] + c.gap + ItemsLines(c.items)
  }

  function ChartsLines(charts: seq<ChartBlock>): seq<Line> {
    if charts == [] then [] else ChartLines(charts[0]) + ChartsLines(charts[1..])
  }

  function TopLines(t: Top): seq<Line> {
    match t
    case Block(key, rest) => [key] + rest
    case EntriesBlock(key, gap, charts) => [key] + gap + ChartsLines(charts)
  }

  function TopsLines(tops: seq<Top>): seq<Line> {
    if tops == [] then [] else TopLines(tops[0]) + TopsLines(tops[1..])
  }

  function Lines(d: Document): seq<Line> {
    d.head + TopsLines(d.tops) + d.tail
  }

  // ----- what a tree means -----

  function WholeItems(y: Yaml, items: seq<ListItem>): Option<seq<ChartVersion>> {
    if items == [] then Some([]) else Prepend(y.item(ItemLines(items[0])), WholeItems(y, items[1..]))
  }

  function WholeChart(y: Yaml, c: ChartBlock): Option<seq<ChartVersion>> {
    if y.key(c.key.trimmed).None? then None
    else IndexBatches.Both(NodeVersions(y.key(c.key.trimmed).value.1), WholeItems(y, c.items))
  }

  /** A chart listed twice is an error, as any repeated key is. */
  function AddChart(y: Yaml, index: Index, c: ChartBlock): Option<Index> {
    if y.key(c.key.trimmed).None? then None
    else
      var name := y.key(c.key.trimmed).value.0;
      var entries := if index.entries.Some? then index.entries.value else map[];
      if name in entries || WholeChart(y, c).None? then None
      else Some(index.(entries := Some(entries[name := WholeChart(y, c).value])))
  }

  function AddCharts(y: Yaml, index: Index, charts: seq<ChartBlock>): Option<Index>
    decreases |charts|
  {
    if charts == [] then Some(index)
    else
      match AddChart(y, index, charts[0])
      case None => None
      case Some(index') => AddCharts(y, index', charts[1..])
  }

  function AddTop(y: Yaml, index: Index, t: Top): Option<Index> {
    if y.key(t.key.text).None? then None
    else
      match t
      case Block(key, rest) =>
        var api := y.top([key] + rest);
        if api.None? then None
        else if y.key(key.text).value.0 == "apiVersion" then Some(index.(apiVersion := api.value))
        else Some(index)
      case EntriesBlock(key, gap, charts) =>
        match y.key(key.text).value.1
        case Open => AddCharts(y, index, charts)
        case Null => Some(index)
        case EmptyMapping => Some(index.(entries := Some(map[])))
        case Given(_) => None
  }

  function AddTops(y: Yaml, index: Index, tops: seq<Top>): Option<Index>
    decreases |tops|
  {
    if tops == [] then Some(index)
    else
      match AddTop(y, index, tops[0])
      case None => None
      case Some(index') => AddTops(y, index', tops[1..])
  }

  /** The document decoded as a whole. */
  function WholeIndex(y: Yaml, d: Document): Option<Index> {
    AddTops(y, Index("", None), d.tops)
  }

  // ----- the block layout -----

  predicate Fillers(lines: seq<Line>) {
    forall i :: 0 <= i < |lines| ==> lines[i].kind.Filler?
  }

  predicate Deeper(lines: seq<Line>, indent: nat) {
    forall i :: 0 <= i < |lines| ==> lines[i].kind.Filler? || lines[i].indent > indent
  }

  predicate ItemLaidOut(item: ListItem, indent: nat) {
    item.first.kind.Item? && item.first.indent == indent && Deeper(item.rest, indent)
  }

  /** All versions of a chart are indented alike, no less than the chart's own key. */
  predicate ItemsLaidOut(items: seq<ListItem>, indent: nat) {
    forall i :: 0 <= i < |items| ==> ItemLaidOut(items[i], indent)
  }

  predicate ChartLaidOut(y: Yaml, c: ChartBlock, indent: nat) {
    && c.key.indent == indent && indent > 0 && !c.key.kind.Filler? && !c.key.kind.Item? && Fillers(c.gap)
    && (c.items != [] ==>
          && c.items[0].first.indent >= indent && ItemsLaidOut(c.items, c.items[0].first.indent)
          && y.key(c.key.trimmed).Some? && y.key(c.key.trimmed).value.0 != "" && y.key(c.key.trimmed).value.1.Open?)
  }

  predicate ChartsLaidOut(y: Yaml, charts: seq<ChartBlock>, indent: nat) {
    forall i :: 0 <= i < |charts| ==> ChartLaidOut(y, charts[i], indent)
  }

  predicate TopLaidOut(y: Yaml, t: Top) {
    && t.key.indent == 0 && t.key.kind in {Item, Other} && y.key(t.key.text).Some?
    && match t
       case Block(key, rest) => y.key(key.text).value.0 != "entries" && Deeper(rest, 0)
       case EntriesBlock(key, gap, charts) =>
         && y.key(key.text).value.0 == "entries" && Fillers(gap)
         && (charts != [] ==> y.key(key.text).value.1.Open? && ChartsLaidOut(y, charts, charts[0].key.indent))
  }

  function TopName(y: Yaml, t: Top): string {
    if y.key(t.key.text).Some? then y.key(t.key.text).value.0 else ""
  }

  predicate TopsLaidOut(y: Yaml, tops: seq<Top>, seen: set<string>)
  {
    tops != [] ==>
      && TopLaidOut(y, tops[0]) && TopName(y, tops[0]) !in seen
      && TopsLaidOut(y, tops[1..], seen + {TopName(y, tops[0])})
  }

  /** Comments and directives, then perhaps a marker and more comments. */
  predicate HeadLaidOut(head: seq<Line>, marked: bool) {
    head != [] ==>
      && HeadLaidOut(head[1..], marked || head[0].kind.Marker?)
      && (head[0].kind.Filler? || (head[0].indent == 0 && !marked &&
                                   (head[0].kind.Directive? || head[0].kind == Marker(true))))
  }

  predicate Marked(head: seq<Line>) {
    exists i :: 0 <= i < |head| && head[i].kind.Marker?
  }

  predicate TailLaidOut(tail: seq<Line>) {
    tail != [] ==> tail[0].indent == 0 && tail[0].kind == Marker(true)
  }

  /** A marker ends the document once there is content, or a marker before it. */
  predicate InBlockLayout(y: Yaml, d: Document) {
    && HeadLaidOut(d.head, false) && TopsLaidOut(y, d.tops, {}) && TailLaidOut(d.tail)
    && (d.tail != [] ==> d.tops != [] || Marked(d.head))
  }

  // ----- the size limit -----

  predicate LinesFit(lines: seq<Line>, maxEntry: nat) {
    forall i :: 0 <= i < |lines| ==> |lines[i].text| <= maxEntry
  }

  predicate ItemsFit(items: seq<ListItem>, maxEntry: nat) {
    forall i :: 0 <= i < |items| ==> Bytes(ItemLines(items[i])) <= maxEntry
  }

  predicate ChartFits(c: ChartBlock, maxEntry: nat) {
    |c.key.text| <= maxEntry && LinesFit(c.gap, maxEntry) && ItemsFit(c.items, maxEntry)
  }

  predicate ChartsFit(charts: seq<ChartBlock>, maxEntry: nat) {
    forall i :: 0 <= i < |charts| ==> ChartFits(charts[i], maxEntry)
  }

  predicate TopFits(t: Top, maxEntry: nat) {
    match t
    case Block(key, rest) => Bytes([key] + rest) <= maxEntry
    case EntriesBlock(key, gap, charts) =>
      |key.text| <= maxEntry && LinesFit(gap, maxEntry) && ChartsFit(charts, maxEntry)
  }

  predicate TopsFit(tops: seq<Top>, maxEntry: nat) {
    forall i :: 0 <= i < |tops| ==> TopFits(tops[i], maxEntry)
  }

  /** Every line, every chart version and every other top-level value is within the limit. */
  predicate Fits(d: Document, maxEntry: nat) {
    && LinesFit(d.head, maxEntry) && (d.tail != [] ==> |d.tail[0].text| <= maxEntry)
    && TopsFit(d.tops, maxEntry)
  }

  lemma ItemsFitSplit(items: seq<ListItem>, maxEntry: nat)
    requires items != []
    ensures ItemsFit(items, maxEntry) <==> Bytes(ItemLines(items[0])) <= maxEntry && ItemsFit(items[1..], maxEntry)
  {
    assert items == [items[0]] + items[1..];
  }

  lemma ChartsFitSplit(charts: seq<ChartBlock>, maxEntry: nat)
    requires charts != []
    ensures ChartsFit(charts, maxEntry) <==> ChartFits(charts[0], maxEntry) && ChartsFit(charts[1..], maxEntry)
  {
    assert charts == [charts[0]] + charts[1..];
  }

  lemma TopsFitSplit(tops: seq<Top>, maxEntry: nat)
    requires tops != []
    ensures TopsFit(tops, maxEntry) <==> TopFits(tops[0], maxEntry) && TopsFit(tops[1..], maxEntry)
  {
    assert tops == [tops[0]] + tops[1..];
  }

  // ----- running over a piece of the document -----

  function After(y: Yaml, st: State, lines: seq<Line>, lim: Limits): Next
    decreases |lines|
  {
    if lines == [] then Go(st)
    else
      var next := StepLine(y, st, lines[0], lim);
      if next.Go? then After(y, next.st, lines[1..], lim) else next
  }

  function Then(y: Yaml, next: Next, lines: seq<Line>, lim: Limits): Next {
    if next.Go? then After(y, next.st, lines, lim) else next
  }

  function Conclude(y: Yaml, next: Next, lines: seq<Line>, lim: Limits): Result<Index, Failure> {
    match next
    case Fail(e) => Err(e)
    case Stop(st) => Finish(y, st)
    case Go(st) => Decode(y, st, lines, lim)
  }

  lemma {:induction false} AfterConcat(y: Yaml, st: State, xs: seq<Line>, ys: seq<Line>, lim: Limits)
    ensures After(y, st, xs + ys, lim) == Then(y, After(y, st, xs, lim), ys, lim)
    ensures Decode(y, st, xs + ys, lim) == Conclude(y, After(y, st, xs, lim), ys, lim)
    decreases |xs|
  {
    if xs == [] {
      assert xs + ys == ys;
    } else {
      assert (xs + ys)[1..] == xs[1..] + ys;
      var next := StepLine(y, st, xs[0], lim);
      if next.Go? {
        AfterConcat(y, next.st, xs[1..], ys, lim);
      }
    }
  }

  lemma {:induction false} GapRun(y: Yaml, st: State, gap: seq<Line>, lim: Limits)
    requires Fillers(gap) && st.batch == [] && st.top == []
    ensures if LinesFit(gap, lim.maxEntry) then After(y, st, gap, lim) == Go(st)
            else After(y, st, gap, lim).Fail?
    decreases |gap|
  {
    if gap != [] {
      GapRun(y, st, gap[1..], lim);
      assert LinesFit(gap, lim.maxEntry) <==> |gap[0].text| <= lim.maxEntry && LinesFit(gap[1..], lim.maxEntry);
    }
  }

  lemma {:induction false} RestRun(y: Yaml, st: State, rest: seq<Line>, lim: Limits)
    requires st.inEntries && st.batch != [] && st.itemIndent >= 0 && Deeper(rest, st.itemIndent)
    requires st.chartIndent <= st.itemIndent && st.itemStart <= Bytes(st.batch)
    requires Bytes(st.batch) - st.itemStart <= lim.maxEntry
    ensures if Bytes(st.batch) - st.itemStart + Bytes(rest) <= lim.maxEntry
            then After(y, st, rest, lim) == Go(st.(batch := st.batch + rest))
            else After(y, st, rest, lim).Fail?
    decreases |rest|
  {
    if rest == [] {
      assert st.batch + rest == st.batch;
    } else {
      BytesConcat(st.batch, [rest[0]]);
      assert Bytes([rest[0]]) == |rest[0].text|;
      var next := StepLine(y, st, rest[0], lim);
      if next.Go? {
        assert next == GrowBatch(st, rest[0], lim);
        RestRun(y, next.st, rest[1..], lim);
        assert st.batch + [rest[0]] + rest[1..] == st.batch + rest;
      }
    }
  }

  // ----- versions -----

  lemma ItemRun(y: Yaml, st: State, item: ListItem, lim: Limits)
    requires st.inEntries && st.chart != "" && !st.chartClosed && lim.batch.None?
    requires st.itemIndent == -1 || st.itemIndent == item.first.indent
    requires item.first.indent >= st.chartIndent && item.first.indent > 0 && ItemLaidOut(item, item.first.indent)
    ensures if Bytes(ItemLines(item)) <= lim.maxEntry
            then After(y, st, ItemLines(item), lim) == Go(AddItem(st, item.first).(batch := st.batch + ItemLines(item)))
            else After(y, st, ItemLines(item), lim).Fail?
  {
    var st1 := AddItem(st, item.first);
    BytesConcat(st.batch, [item.first]);
    BytesConcat([item.first], item.rest);
    assert Bytes([item.first]) == |item.first.text|;
    assert ItemLines(item)[1..] == item.rest;
    if |item.first.text| <= lim.maxEntry {
      assert StepLine(y, st, item.first, lim) == Go(st1);
      RestRun(y, st1, item.rest, lim);
      assert st.batch + [item.first] + item.rest == st.batch + ItemLines(item);
    }
  }

  lemma ItemThenMore(y: Yaml, st: State, item: ListItem, more: seq<Line>, lim: Limits)
    requires st.inEntries && st.chart != "" && !st.chartClosed && lim.batch.None?
    requires st.itemIndent == -1 || st.itemIndent == item.first.indent
    requires item.first.indent >= st.chartIndent && item.first.indent > 0 && ItemLaidOut(item, item.first.indent)
    ensures var r := After(y, st, ItemLines(item) + more, lim);
            if Bytes(ItemLines(item)) <= lim.maxEntry
            then r == After(y, AddItem(st, item.first).(batch := st.batch + ItemLines(item)), more, lim)
            else r.Fail?
  {
    ItemRun(y, st, item, lim);
    AfterConcat(y, st, ItemLines(item), more, lim);
  }

  /** `st'` has taken in more lines of versions, the last of them at `indent`. */
  predicate TookItems(st: State, st': State, lines: seq<Line>, indent: int) {
    st' == st.(batch := st.batch + lines, itemIndent := indent, itemStart := st'.itemStart)
  }

  lemma MoreTaken(st: State, item: ListItem, more: seq<ListItem>, r: Next, indent: nat)
    requires item.first.indent == indent
    requires r.Go? ==>
               TookItems(AddItem(st, item.first).(batch := st.batch + ItemLines(item)), r.st, ItemsLines(more), indent)
    ensures r.Go? ==> TookItems(st, r.st, ItemLines(item) + ItemsLines(more), indent)
  {
    assert st.batch + ItemLines(item) + ItemsLines(more) == st.batch + (ItemLines(item) + ItemsLines(more));
  }

  lemma {:induction false} ItemsRun(y: Yaml, st: State, items: seq<ListItem>, indent: nat, lim: Limits)
    requires st.inEntries && st.chart != "" && !st.chartClosed && lim.batch.None?
    requires st.itemIndent == -1 || st.itemIndent == indent
    requires indent >= st.chartIndent && indent > 0 && ItemsLaidOut(items, indent)
    ensures var r := After(y, st, ItemsLines(items), lim);
            if ItemsFit(items, lim.maxEntry)
            then r.Go? && TookItems(st, r.st, ItemsLines(items), if items == [] then st.itemIndent else indent)
            else r.Fail?
    decreases |items|
  {
    if items == [] {
      assert st.batch + ItemsLines(items) == st.batch;
    } else {
      var item, more := items[0], items[1..];
      assert ItemLaidOut(item, indent) && ItemsLaidOut(more, indent);
      ItemsFitSplit(items, lim.maxEntry);
      ItemThenMore(y, st, item, ItemsLines(more), lim);
      if Bytes(ItemLines(item)) <= lim.maxEntry {
        var st1 := AddItem(st, item.first).(batch := st.batch + ItemLines(item));
        ItemsRun(y, st1, more, indent, lim);
        MoreTaken(st, item, items[1..], After(y, st1, ItemsLines(more), lim), indent);
      }
    }
  }

  lemma {:induction false} ItemEndAt(first: Line, rest: seq<Line>, more: seq<Line>, indent: nat)
    requires Deeper(rest, indent) && (more != [] ==> StartsItem(more[0], indent))
    ensures ItemEnd([first] + rest + more, indent) == 1 + |rest|
    decreases |rest|
  {
    var lines := [first] + rest + more;
    if rest == [] {
      assert lines[1..] == more;
    } else {
      assert lines[1] == rest[0];
      assert lines[1..] == [rest[0]] + rest[1..] + more;
      ItemEndAt(rest[0], rest[1..], more, indent);
    }
  }

  /** The batch decoder finds the versions where the tree has them. */
  lemma {:induction false} ItemsDecode(y: Yaml, items: seq<ListItem>, indent: nat)
    requires ItemsLaidOut(items, indent)
    ensures DecodeItems(y, ItemsLines(items), indent) == WholeItems(y, items)
    ensures items != [] ==> ItemsLines(items) != [] && ItemsLines(items)[0] == items[0].first
    decreases |items|
  {
    if items != [] {
      var item, more := items[0], ItemsLines(items[1..]);
      ItemsDecode(y, items[1..], indent);
      ItemEndAt(item.first, item.rest, more, indent);
      var lines := ItemsLines(items);
      assert lines == [item.first] + item.rest + more;
      assert lines[..1 + |item.rest|] == ItemLines(item) && lines[1 + |item.rest|..] == more;
    }
  }

  // ----- charts -----

  /** The index once the pending batch is decoded, if nothing has failed. */
  function Outcome(y: Yaml, next: Next): Option<Index> {
    if next.Go? && FlushBatch(y, next.st).Some? then Some(FlushBatch(y, next.st).value.index) else None
  }

  /** What a chart leaves alone. */
  predicate SameTop(st: State, st': State) {
    && st'.started == st.started && st'.marked == st.marked && st'.seenTop == st.seenTop
    && st'.top == st.top && st'.topKey == st.topKey && st'.inEntries == st.inEntries
  }

  /** The pending batch, if any, belongs to a chart at the given indentation. */
  predicate AtChart(st: State, indent: nat) {
    st.chartIndent == indent && (st.batch != [] ==> st.itemIndent >= indent)
  }

  /** A pending batch of laid-out versions decodes to what the versions mean. */
  lemma PendingItems(y: Yaml, st: State, items: seq<ListItem>, indent: nat)
    requires items != [] && ItemsLaidOut(items, indent) && st.batch == ItemsLines(items)
    requires st.index.entries.Some? && st.chart in st.index.entries.value && st.index.entries.value[st.chart] == []
    ensures Outcome(y, Go(st)) ==
            if WholeItems(y, items).None? then None
            else Some(st.index.(entries := Some(st.index.entries.value[st.chart := WholeItems(y, items).value])))
  {
    ItemsDecode(y, items, indent);
    if WholeItems(y, items).Some? {
      assert [] + WholeItems(y, items).value == WholeItems(y, items).value;
    }
  }

  lemma OpenedChartRun(y: Yaml, st: State, c: ChartBlock, lim: Limits)
    requires st.inEntries && st.top == [] && st.batch == [] && lim.batch.None?
    requires ChartLaidOut(y, c, c.key.indent) && c.items != []
    requires y.key(c.key.trimmed).value.0 == st.chart && !st.chartClosed
    requires st.chartIndent == c.key.indent && st.itemIndent == -1
    requires st.index.entries.Some? && st.chart in st.index.entries.value && st.index.entries.value[st.chart] == []
    ensures var r := After(y, st, ItemsLines(c.items), lim);
            && !r.Stop? && (r.Go? ==> SameTop(st, r.st) && AtChart(r.st, c.key.indent))
            && Outcome(y, r) ==
               if !ItemsFit(c.items, lim.maxEntry) || WholeItems(y, c.items).None? then None
               else Some(st.index.(entries := Some(st.index.entries.value[st.chart := WholeItems(y, c.items).value])))
  {
    var indent := c.items[0].first.indent;
    ItemsRun(y, st, c.items, indent, lim);
    var r := After(y, st, ItemsLines(c.items), lim);
    if r.Go? {
      assert st.batch + ItemsLines(c.items) == ItemsLines(c.items);
      PendingItems(y, r.st, c.items, indent);
    }
  }

  lemma ChartBodyRun(y: Yaml, st: State, c: ChartBlock, lim: Limits)
    requires st.inEntries && st.top == [] && st.batch == [] && lim.batch.None?
    requires ChartLaidOut(y, c, c.key.indent)
    ensures var r := Then(y, OpenChart(y, st, c.key), c.gap + ItemsLines(c.items), lim);
            && !r.Stop? && (r.Go? ==> SameTop(st, r.st) && AtChart(r.st, c.key.indent))
            && Outcome(y, r) ==
               if !LinesFit(c.gap, lim.maxEntry) || !ItemsFit(c.items, lim.maxEntry) then None
               else AddChart(y, st.index, c)
  {
    var next := OpenChart(y, st, c.key);
    if next.Go? {
      var versions := NodeVersions(y.key(c.key.trimmed).value.1).value;
      AfterConcat(y, next.st, c.gap, ItemsLines(c.items), lim);
      GapRun(y, next.st, c.gap, lim);
      if c.items == [] {
        assert WholeChart(y, c) == Some(versions) by {
          assert versions + [] == versions;
        }
      } else {
        OpenedChartRun(y, next.st, c, lim);
        if WholeItems(y, c.items).Some? {
          var ws := WholeItems(y, c.items).value;
          assert [] + ws == ws;
          assert Entries(next.st)[next.st.chart := ws] == Entries(st)[next.st.chart := ws];
        }
      }
    }
  }

  lemma ChartRun(y: Yaml, st: State, c: ChartBlock, lim: Limits)
    requires st.inEntries && st.top == [] && lim.batch.None?
    requires ChartLaidOut(y, c, c.key.indent)
    requires AtChart(st, c.key.indent) || (st.chartIndent == -1 && st.batch == [])
    ensures var r := After(y, st, ChartLines(c), lim);
            && !r.Stop? && (r.Go? ==> SameTop(st, r.st) && AtChart(r.st, c.key.indent))
            && Outcome(y, r) ==
               if FlushBatch(y, st).None? || !ChartFits(c, lim.maxEntry) then None
               else AddChart(y, FlushBatch(y, st).value.index, c)
  {
    assert ChartLines(c) == [c.key] + (c.gap + ItemsLines(c.items));
    assert ChartLines(c)[1..] == c.gap + ItemsLines(c.items);
    if |c.key.text| <= lim.maxEntry {
      assert StepLine(y, st, c.key, lim) == StepChart(y, st, c.key);
      if FlushBatch(y, st).Some? {
        ChartBodyRun(y, FlushBatch(y, st).value, c, lim);
      }
    }
  }

  lemma {:induction false} ChartsRun(y: Yaml, st: State, charts: seq<ChartBlock>, indent: nat, lim: Limits)
    requires st.inEntries && st.top == [] && lim.batch.None? && ChartsLaidOut(y, charts, indent)
    requires AtChart(st, indent) || (st.chartIndent == -1 && st.batch == [])
    ensures var r := After(y, st, ChartsLines(charts), lim);
            && !r.Stop? && (r.Go? ==> SameTop(st, r.st))
            && Outcome(y, r) ==
               if FlushBatch(y, st).None? || !ChartsFit(charts, lim.maxEntry) then None
               else AddCharts(y, FlushBatch(y, st).value.index, charts)
    decreases |charts|
  {
    if charts != [] {
      var c, more := charts[0], charts[1..];
      assert ChartLaidOut(y, c, c.key.indent) && c.key.indent == indent;
      ChartRun(y, st, c, lim);
      AfterConcat(y, st, ChartLines(c), ChartsLines(more), lim);
      var r := After(y, st, ChartLines(c), lim);
      ChartsFitSplit(charts, lim.maxEntry);
      if r.Go? {
        ChartsRun(y, r.st, more, indent, lim);
      }
    }
  }

  // ----- top-level values -----

  lemma {:induction false} BlockRun(y: Yaml, st: State, rest: seq<Line>, lim: Limits)
    requires !st.inEntries && st.batch == [] && st.top != [] && Deeper(rest, 0) && Bytes(st.top) <= lim.maxEntry
    ensures if Bytes(st.top) + Bytes(rest) <= lim.maxEntry
            then After(y, st, rest, lim) == Go(st.(top := st.top + rest))
            else After(y, st, rest, lim).Fail?
    decreases |rest|
  {
    if rest == [] {
      assert st.top + rest == st.top;
    } else {
      BytesConcat(st.top, [rest[0]]);
      assert Bytes([rest[0]]) == |rest[0].text|;
      var next := StepLine(y, st, rest[0], lim);
      if next.Go? {
        assert next == GrowTop(st, rest[0], lim);
        BlockRun(y, next.st, rest[1..], lim);
        assert st.top + [rest[0]] + rest[1..] == st.top + rest;
      }
    }
  }

  /** The index once everything pending is decoded, if nothing has failed. */
  function Settled(y: Yaml, next: Next): Option<Index> {
    if next.Go? && Flush(y, next.st).Some? then Some(Flush(y, next.st).value.index) else None
  }

  /** A top-level value is done with: only one of a batch and a block can be pending. */
  predicate AtTop(st: State, seen: set<string>) {
    st.seenTop == seen && (st.batch != [] ==> st.top == []) && (st.inEntries ==> st.top == [])
  }

  lemma BlockTopRun(y: Yaml, st: State, t: Top, lim: Limits)
    requires t.Block? && TopLaidOut(y, t) && TopName(y, t) !in st.seenTop && st.batch == [] && st.top == []
    requires |t.key.text| <= lim.maxEntry
    ensures var r := Then(y, OpenTop(y, st, t.key), t.rest, lim);
            && !r.Stop? && (r.Go? ==> AtTop(r.st, st.seenTop + {TopName(y, t)}) && r.st.started)
            && Settled(y, r) == if !TopFits(t, lim.maxEntry) then None else AddTop(y, st.index, t)
  {
    var next := OpenTop(y, st, t.key);
    assert Bytes([t.key]) == |t.key.text|;
    BytesConcat([t.key], t.rest);
    BlockRun(y, next.st, t.rest, lim);
  }

  lemma EntriesTopRun(y: Yaml, st: State, t: Top, lim: Limits)
    requires t.EntriesBlock? && TopLaidOut(y, t) && TopName(y, t) !in st.seenTop && st.batch == [] && st.top == []
    requires |t.key.text| <= lim.maxEntry && lim.batch.None?
    ensures var r := Then(y, OpenTop(y, st, t.key), t.gap + ChartsLines(t.charts), lim);
            && !r.Stop? && (r.Go? ==> AtTop(r.st, st.seenTop + {TopName(y, t)}) && r.st.started)
            && Settled(y, r) == if !TopFits(t, lim.maxEntry) then None else AddTop(y, st.index, t)
  {
    var next := OpenTop(y, st, t.key);
    if next.Go? {
      AfterConcat(y, next.st, t.gap, ChartsLines(t.charts), lim);
      GapRun(y, next.st, t.gap, lim);
      if t.charts != [] {
        ChartsRun(y, next.st, t.charts, t.charts[0].key.indent, lim);
        var r := After(y, next.st, ChartsLines(t.charts), lim);
        if r.Go? {
          assert Settled(y, r) == Outcome(y, r);
        }
      }
    }
  }

  function TopRest(t: Top): seq<Line> {
    if t.Block? then t.rest else t.gap + ChartsLines(t.charts)
  }

  lemma TopBodyRun(y: Yaml, st: State, t: Top, lim: Limits)
    requires TopLaidOut(y, t) && TopName(y, t) !in st.seenTop && st.batch == [] && st.top == []
    requires |t.key.text| <= lim.maxEntry && lim.batch.None?
    ensures var r := Then(y, OpenTop(y, st, t.key), TopRest(t), lim);
            && !r.Stop? && (r.Go? ==> AtTop(r.st, st.seenTop + {TopName(y, t)}) && r.st.started)
            && Settled(y, r) == if !TopFits(t, lim.maxEntry) then None else AddTop(y, st.index, t)
  {
    if t.Block? {
      BlockTopRun(y, st, t, lim);
    } else {
      EntriesTopRun(y, st, t, lim);
    }
  }

  lemma TopLinesSplit(t: Top, maxEntry: nat)
    ensures TopLines(t) != [] && TopLines(t)[0] == t.key && TopLines(t)[1..] == TopRest(t)
    ensures TopFits(t, maxEntry) ==> |t.key.text| <= maxEntry
  {
    assert TopLines(t) == [t.key] + TopRest(t);
    if t.Block? {
      BytesConcat([t.key], t.rest);
      assert Bytes([t.key]) == |t.key.text|;
    }
  }

  lemma TopRun(y: Yaml, st: State, t: Top, lim: Limits)
    requires TopLaidOut(y, t) && AtTop(st, st.seenTop) && TopName(y, t) !in st.seenTop && lim.batch.None?
    ensures var r := After(y, st, TopLines(t), lim);
            && !r.Stop? && (r.Go? ==> AtTop(r.st, st.seenTop + {TopName(y, t)}) && r.st.started)
            && Settled(y, r) ==
               if Flush(y, st).None? || !TopFits(t, lim.maxEntry) then None
               else AddTop(y, Flush(y, st).value.index, t)
  {
    TopLinesSplit(t, lim.maxEntry);
    if |t.key.text| <= lim.maxEntry {
      assert StepLine(y, st, t.key, lim) == StepTopKey(y, st, t.key);
      if Flush(y, st).Some? {
        TopBodyRun(y, Flush(y, st).value, t, lim);
      }
    }
  }

  lemma {:induction false} TopsRun(y: Yaml, st: State, tops: seq<Top>, lim: Limits)
    requires TopsLaidOut(y, tops, st.seenTop) && AtTop(st, st.seenTop) && lim.batch.None?
    ensures var r := After(y, st, TopsLines(tops), lim);
            && !r.Stop? && (r.Go? && tops != [] ==> r.st.started)
            && Settled(y, r) ==
               if Flush(y, st).None? || !TopsFit(tops, lim.maxEntry) then None
               else AddTops(y, Flush(y, st).value.index, tops)
    decreases |tops|
  {
    if tops != [] {
      var t, more := tops[0], tops[1..];
      TopRun(y, st, t, lim);
      AfterConcat(y, st, TopLines(t), TopsLines(more), lim);
      TopsFitSplit(tops, lim.maxEntry);
      var r := After(y, st, TopLines(t), lim);
      if r.Go? {
        TopsRun(y, r.st, more, lim);
      }
    }
  }

  lemma {:induction false} HeadRun(y: Yaml, st: State, head: seq<Line>, lim: Limits)
    requires HeadLaidOut(head, st.marked) && !st.started && st.batch == [] && st.top == []
    ensures if LinesFit(head, lim.maxEntry)
            then After(y, st, head, lim) == Go(st.(marked := st.marked || Marked(head)))
            else After(y, st, head, lim).Fail?
    decreases |head|
  {
    if head != [] {
      assert Marked(head) <==> head[0].kind.Marker? || Marked(head[1..]);
      assert LinesFit(head, lim.maxEntry) <==> |head[0].text| <= lim.maxEntry && LinesFit(head[1..], lim.maxEntry);
      if |head[0].text| <= lim.maxEntry {
        HeadRun(y, st.(marked := st.marked || head[0].kind.Marker?), head[1..], lim);
      }
    }
  }

  lemma TailRun(y: Yaml, st: State, tail: seq<Line>, lim: Limits)
    requires tail != [] ==> (st.started || st.marked) && tail[0].indent == 0 && tail[0].kind == Marker(true)
    ensures if tail != [] && |tail[0].text| > lim.maxEntry then Decode(y, st, tail, lim).Err?
            else Decode(y, st, tail, lim) == Finish(y, st)
  {
  }

  lemma BodyDecodes(y: Yaml, st: State, tops: seq<Top>, tail: seq<Line>, lim: Limits)
    requires TopsLaidOut(y, tops, st.seenTop) && AtTop(st, st.seenTop) && st.batch == [] && st.top == []
    requires TailLaidOut(tail) && (tail != [] ==> tops != [] || st.marked) && lim.batch.None?
    ensures var r := Decode(y, st, TopsLines(tops) + tail, lim);
            var whole := AddTops(y, st.index, tops);
            if TopsFit(tops, lim.maxEntry) && (tail != [] ==> |tail[0].text| <= lim.maxEntry) && whole.Some?
            then r == Ok(whole.value) else r.Err?
  {
    TopsRun(y, st, tops, lim);
    AfterConcat(y, st, TopsLines(tops), tail, lim);
    var r := After(y, st, TopsLines(tops), lim);
    if r.Go? {
      TailRun(y, r.st, tail, lim);
    }
  }

  /** With one batch a chart, the decoder returns what the document means, or fails with it. */
  lemma UnbatchedDecodes(y: Yaml, d: Document, lim: Limits)
    requires InBlockLayout(y, d) && lim.batch.None?
    ensures var r := Decode(y, Initial(), Lines(d), lim);
            if Fits(d, lim.maxEntry) && WholeIndex(y, d).Some? then r == Ok(WholeIndex(y, d).value) else r.Err?
  {
    var st := Initial();
    var body := TopsLines(d.tops) + d.tail;
    assert Lines(d) == d.head + body;
    AfterConcat(y, st, d.head, body, lim);
    HeadRun(y, st, d.head, lim);
    if LinesFit(d.head, lim.maxEntry) {
      BodyDecodes(y, After(y, st, d.head, lim).st, d.tops, d.tail, lim);
    }
  }

  /** Main result: whatever the batch size, an index in block layout decodes to what it means,
      exactly when no piece of it is over the limit and the document decodes at all. */
  lemma BlockLayoutDecodes(y: Yaml, d: Document, lim: Limits)
    requires InBlockLayout(y, d)
    ensures var r := Decode(y, Initial(), Lines(d), lim);
            if Fits(d, lim.maxEntry) && WholeIndex(y, d).Some? then r == Ok(WholeIndex(y, d).value) else r.Err?
  {
    var unbatched := lim.(batch := None);
    UnbatchedDecodes(y, d, unbatched);
    IndexBatches.Simulation(y, Initial(), Initial(), [], Lines(d), lim);
  }
}

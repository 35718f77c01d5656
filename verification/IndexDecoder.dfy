/**
 The streaming decoder of index.yaml: one pass over the lines cuts out top-level blocks, charts
 and chart versions by indentation and hands the versions to the YAML decoder in batches. The YAML
 decoder itself is a parameter.
 */
module IndexDecoder {
  import opened Basics
  import opened IndexLines

  datatype ChartVersion = ChartVersion(icon: string, version: string, digest: string, removed: bool, urls: seq<string>)

  /** The value a mapping line gives its key. */
  datatype Node =
    | Open                              // still to come on the following lines
    | Null                              // an explicit null
    | EmptyMapping
    | Given(versions: Option<seq<ChartVersion>>)   // anything else, and what it decodes to as chart versions

  /** What the YAML decoder makes of the pieces it is given; None is an error. */
  datatype Yaml = Yaml(
    item: seq<Line> -> Option<ChartVersion>,       // the lines of one chart version
    key: string -> Option<(string, Node)>,         // a text holding exactly one key
    top: seq<Line> -> Option<string>)              // a top-level block, decoded for its apiVersion

  datatype Index = Index(apiVersion: string, entries: Option<map<string, seq<ChartVersion>>>)

  datatype Failure = Layout | TooLarge | Undecodable

  /** `batch` is None for a decoder that never decodes before a chart is complete. */
  datatype Limits = Limits(maxEntry: nat, batch: Option<nat>)

  // ----- a batch, decoded on its own -----

  /** The list item that starts the lines ends where the next line is as little indented. */
  function ItemEnd(lines: seq<Line>, indent: nat): (n: nat)
    requires lines != []
    ensures 0 < n <= |lines|
  {
    if |lines| == 1 || StartsItem(lines[1], indent) then 1 else 1 + ItemEnd(lines[1..], indent)
  }

  predicate StartsItem(line: Line, indent: nat) {
    !line.kind.Filler? && line.indent <= indent
  }

  function DecodeItems(y: Yaml, lines: seq<Line>, indent: nat): Option<seq<ChartVersion>>
    decreases |lines|
  {
    if lines == [] then Some([])
    else
      var n := ItemEnd(lines, indent);
      Prepend(y.item(lines[..n]), DecodeItems(y, lines[n..], indent))
  }

  function Prepend(v: Option<ChartVersion>, vs: Option<seq<ChartVersion>>): Option<seq<ChartVersion>> {
    if v.Some? && vs.Some? then Some([v.value] + vs.value) else None
  }

  function DecodeBatch(y: Yaml, batch: seq<Line>): Option<seq<ChartVersion>> {
    if batch == [] then Some([]) else DecodeItems(y, batch, batch[0].indent)
  }

  function NodeVersions(n: Node): Option<seq<ChartVersion>> {
    match n
    case Open => Some([])
    case Null => Some([])
    case EmptyMapping => None
    case Given(vs) => vs
  }

  // ----- one line -----

  datatype State = State(
    index: Index,
    started: bool, marked: bool,
    seenTop: set<string>,
    top: seq<Line>, topKey: string,
    inEntries: bool,
    chart: string, chartClosed: bool,
    chartIndent: int, itemIndent: int,
    batch: seq<Line>, itemStart: nat)

  datatype Next = Go(st: State) | Stop(st: State) | Fail(error: Failure)

  function Initial(): State {
    State(Index("", None), false, false, {}, [], "", false, "", false, -1, -1, [], 0)
  }

  function Entries(st: State): map<string, seq<ChartVersion>> {
    if st.index.entries.Some? then st.index.entries.value else map[]
  }

  /** What the current chart has been given so far. */
  function Had(st: State): seq<ChartVersion> {
    if st.chart in Entries(st) then Entries(st)[st.chart] else []
  }

  function AddVersions(st: State, vs: seq<ChartVersion>): State {
    st.(index := st.index.(entries := Some(Entries(st)[st.chart := Had(st) + vs])), batch := [])
  }

  function FlushBatch(y: Yaml, st: State): Option<State> {
    if st.batch == [] then Some(st)
    else
      match DecodeBatch(y, st.batch)
      case None => None
      case Some(vs) => Some(AddVersions(st, vs))
  }

  function FlushTop(y: Yaml, st: State): Option<State> {
    if st.top == [] then Some(st)
    else
      match y.top(st.top)
      case None => None
      case Some(api) =>
        Some((if st.topKey == "apiVersion" then st.(index := st.index.(apiVersion := api)) else st).(top := []))
  }

  function Flush(y: Yaml, st: State): Option<State> {
    match FlushBatch(y, st)
    case None => None
    case Some(st1) => FlushTop(y, st1)
  }

  function GrowBatch(st: State, line: Line, lim: Limits): Next {
    var batch := st.batch + [line];
    if Bytes(batch) - st.itemStart > lim.maxEntry then Fail(TooLarge) else Go(st.(batch := batch))
  }

  function GrowTop(st: State, line: Line, lim: Limits): Next {
    var top := st.top + [line];
    if Bytes(top) > lim.maxEntry then Fail(TooLarge) else Go(st.(top := top))
  }

  function StepFiller(st: State, line: Line, lim: Limits): Next {
    if st.batch != [] then GrowBatch(st, line, lim)
    else if st.top != [] then GrowTop(st, line, lim)
    else Go(st)
  }

  function StepMarker(st: State, line: Line): Next
    requires line.kind.Marker?
  {
    if !line.kind.bare then Fail(Layout)
    else if st.started || st.marked then Stop(st)
    else Go(st.(marked := true))
  }

  function StepTopKey(y: Yaml, st: State, line: Line): Next {
    match Flush(y, st)
    case None => Fail(Undecodable)
    case Some(st1) => OpenTop(y, st1, line)
  }

  function OpenTop(y: Yaml, st: State, line: Line): Next {
    var st1 := st.(started := true, inEntries := false, chart := "", chartIndent := -1, itemIndent := -1);
    match y.key(line.text)
    case None => Fail(Layout)
    case Some((name, node)) =>
      if name in st1.seenTop then Fail(Layout) else OpenNamed(st1.(seenTop := st1.seenTop + {name}), line, name, node)
  }

  function OpenNamed(st: State, line: Line, name: string, node: Node): Next {
    if name != "entries" then Go(st.(top := [line], topKey := name))
    else match node
         case Open => Go(st.(inEntries := true))
         case Null => Go(st)
         case EmptyMapping => Go(st.(index := st.index.(entries := Some(map[]))))
         case Given(_) => Fail(Layout)
  }

  function StepItem(y: Yaml, st: State, line: Line, lim: Limits): Next {
    match if lim.batch.Some? && Bytes(st.batch) >= lim.batch.value then FlushBatch(y, st) else Some(st)
    case None => Fail(Undecodable)
    case Some(st1) => Go(AddItem(st1, line))
  }

  function AddItem(st: State, line: Line): State {
    st.(itemIndent := line.indent, itemStart := Bytes(st.batch), batch := st.batch + [line])
  }

  function StepChart(y: Yaml, st: State, line: Line): Next {
    match FlushBatch(y, st)
    case None => Fail(Undecodable)
    case Some(st1) => OpenChart(y, st1, line)
  }

  function OpenChart(y: Yaml, st: State, line: Line): Next {
    match y.key(line.trimmed)
    case None => Fail(Layout)
    case Some((name, node)) =>
      if name in Entries(st) then Fail(Layout)
      else
        match NodeVersions(node)
        case None => Fail(Undecodable)
        case Some(vs) =>
          Go(st.(index := st.index.(entries := Some(Entries(st)[name := vs])),
                 chart := name, chartClosed := !node.Open?,
                 chartIndent := line.indent, itemIndent := -1))
  }

  predicate TakesItem(st: State, line: Line) {
    && line.kind.Item? && st.chart != "" && !st.chartClosed
    && (st.itemIndent == -1 || line.indent == st.itemIndent) && line.indent >= st.chartIndent
  }

  function StepLine(y: Yaml, st: State, line: Line, lim: Limits): Next {
    if |line.text| > lim.maxEntry then Fail(TooLarge)
    else if line.kind.Filler? then StepFiller(st, line, lim)
    else if line.indent == 0 then
      if line.kind.Directive? then
        if st.started || st.marked then Fail(Layout) else Go(st)
      else if line.kind.Marker? then StepMarker(st, line)
      else StepTopKey(y, st, line)
    else if !st.inEntries then
      if st.top == [] then Fail(Layout) else GrowTop(st, line, lim)
    else if TakesItem(st, line) then StepItem(y, st, line, lim)
    else if st.batch != [] && line.indent > st.itemIndent then GrowBatch(st, line, lim)
    else if !line.kind.Item? && (st.chartIndent == -1 || line.indent == st.chartIndent) then StepChart(y, st, line)
    else Fail(Layout)
  }

  function Finish(y: Yaml, st: State): Result<Index, Failure> {
    match Flush(y, st)
    case None => Err(Undecodable)
    case Some(st1) => Ok(st1.index)
  }

  function Decode(y: Yaml, st: State, lines: seq<Line>, lim: Limits): Result<Index, Failure>
    decreases |lines|
  {
    if lines == [] then Finish(y, st)
    else
      match StepLine(y, st, lines[0], lim)
      case Fail(e) => Err(e)
      case Stop(st') => Finish(y, st')
      case Go(st') => Decode(y, st', lines[1..], lim)
  }
}

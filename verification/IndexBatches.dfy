/**
 How the index is cut into batches does not show in the result: for every file, in any layout, and
 for any two batch sizes the decoder succeeds for both or for neither and returns the same index.
 Both are compared with a decoder that keeps every chart in one batch.
 */
module IndexBatches {
  import opened Basics
  import opened IndexLines
  import opened IndexDecoder

  function Both(x: Option<seq<ChartVersion>>, y: Option<seq<ChartVersion>>): Option<seq<ChartVersion>> {
    if x.Some? && y.Some? then Some(x.value + y.value) else None
  }

  lemma {:induction false} ItemEndConcat(xs: seq<Line>, ys: seq<Line>, indent: nat)
    requires xs != [] && (ys != [] ==> StartsItem(ys[0], indent))
    ensures ItemEnd(xs + ys, indent) == ItemEnd(xs, indent)
  {
    if |xs| > 1 {
      assert (xs + ys)[1..] == xs[1..] + ys && (xs + ys)[1] == xs[1];
      if !StartsItem(xs[1], indent) {
        ItemEndConcat(xs[1..], ys, indent);
      }
    }
  }

  /** A block list decodes piece by piece when it is cut where an item starts. */
  lemma {:induction false} DecodeConcat(y: Yaml, xs: seq<Line>, ys: seq<Line>, indent: nat)
    requires ys != [] ==> StartsItem(ys[0], indent)
    ensures DecodeItems(y, xs + ys, indent) == Both(DecodeItems(y, xs, indent), DecodeItems(y, ys, indent))
    decreases |xs|
  {
    if xs == [] {
      assert xs + ys == ys;
      if DecodeItems(y, ys, indent).Some? {
        assert [] + DecodeItems(y, ys, indent).value == DecodeItems(y, ys, indent).value;
      }
    } else {
      ItemEndConcat(xs, ys, indent);
      var n := ItemEnd(xs, indent);
      assert (xs + ys)[..n] == xs[..n] && (xs + ys)[n..] == xs[n..] + ys;
      assert DecodeItems(y, xs + ys, indent) == Prepend(y.item(xs[..n]), DecodeItems(y, xs[n..] + ys, indent));
      DecodeConcat(y, xs[n..], ys, indent);
      PrependBoth(y.item(xs[..n]), DecodeItems(y, xs[n..], indent), DecodeItems(y, ys, indent));
    }
  }

  lemma PrependBoth(v: Option<ChartVersion>, xs: Option<seq<ChartVersion>>, ys: Option<seq<ChartVersion>>)
    ensures Prepend(v, Both(xs, ys)) == Both(Prepend(v, xs), ys)
  {
    if v.Some? && xs.Some? && ys.Some? {
      assert [v.value] + (xs.value + ys.value) == [v.value] + xs.value + ys.value;
    }
  }

  function Whole(lim: Limits): Limits {
    lim.(batch := None)
  }

  /** `u` has kept in its batch the lines `done` that `st` has already decoded. */
  predicate Ahead(y: Yaml, st: State, u: State, done: seq<Line>) {
    && st == u.(index := st.index, batch := st.batch, itemStart := st.itemStart)
    && u.batch == done + st.batch && st.index.apiVersion == u.index.apiVersion
    && (st.batch != [] ==> u.itemStart == Bytes(done) + st.itemStart && st.itemIndent == st.batch[0].indent)
    && (done == [] ==> st.index == u.index)
    && (done != [] ==>
          && st.batch != [] && st.itemIndent == done[0].indent && StartsItem(st.batch[0], st.itemIndent)
          && DecodeItems(y, done, st.itemIndent).Some?
          && st.index.entries ==
             Some(Entries(u)[u.chart := Had(u) + DecodeItems(y, done, st.itemIndent).value]))
  }

  predicate Agree(r: Result<Index, Failure>, r': Result<Index, Failure>) {
    (r.Ok? <==> r'.Ok?) && (r.Ok? ==> r == r')
  }

  lemma BatchAhead(y: Yaml, st: State, u: State, done: seq<Line>)
    requires Ahead(y, st, u, done) && done != []
    ensures DecodeBatch(y, u.batch) == Both(DecodeItems(y, done, st.itemIndent), DecodeBatch(y, st.batch))
  {
    DecodeConcat(y, done, st.batch, st.itemIndent);
    assert u.batch[0] == done[0];
  }

  lemma AddTwice(st: State, u: State, ds: seq<ChartVersion>, bs: seq<ChartVersion>)
    requires st == u.(index := st.index, batch := st.batch, itemStart := st.itemStart)
    requires st.index == u.index.(entries := Some(Entries(u)[u.chart := Had(u) + ds]))
    ensures AddVersions(st, bs) == AddVersions(u, ds + bs).(itemStart := st.itemStart)
  {
    assert Had(u) + (ds + bs) == (Had(u) + ds) + bs;
    assert Entries(st)[st.chart := Had(st) + bs] == Entries(u)[u.chart := Had(u) + (ds + bs)];
  }

  lemma FlushAgrees(y: Yaml, st: State, u: State, done: seq<Line>)
    requires Ahead(y, st, u, done)
    ensures FlushBatch(y, st).None? <==> FlushBatch(y, u).None?
    ensures FlushBatch(y, st).Some? ==> Alike(FlushBatch(y, st).value, FlushBatch(y, u).value)
  {
    if done == [] {
      assert done + st.batch == st.batch;
    } else {
      BatchAhead(y, st, u, done);
      if DecodeBatch(y, st.batch).Some? {
        AddTwice(st, u, DecodeItems(y, done, st.itemIndent).value, DecodeBatch(y, st.batch).value);
      }
    }
  }

  /** The lines of complete items at the front of a batch do not decode. */
  predicate Doomed(y: Yaml, u: State, bad: seq<Line>) {
    && bad != [] && |bad| < |u.batch| && bad == u.batch[..|bad|]
    && StartsItem(u.batch[|bad|], bad[0].indent) && DecodeItems(y, bad, bad[0].indent).None?
  }

  lemma DoomedFlush(y: Yaml, u: State, bad: seq<Line>)
    requires Doomed(y, u, bad)
    ensures FlushBatch(y, u).None?
  {
    assert u.batch == bad + u.batch[|bad|..];
    DecodeConcat(y, bad, u.batch[|bad|..], bad[0].indent);
  }

  /** A batch that does not decode is only ever added to. */
  lemma PendingStep(y: Yaml, u: State, line: Line, lim: Limits)
    requires u.batch != [] && FlushBatch(y, u).None? && lim.batch.None?
    ensures var next := StepLine(y, u, line, lim);
            && (next.Stop? ==> next.st == u)
            && (next.Go? ==> next.st.batch == u.batch || next.st.batch == u.batch + [line])
  {
  }

  lemma {:induction false} DoomedFails(y: Yaml, u: State, bad: seq<Line>, lines: seq<Line>, lim: Limits)
    requires Doomed(y, u, bad) && lim.batch.None?
    ensures Decode(y, u, lines, lim).Err?
    decreases |lines|
  {
    DoomedFlush(y, u, bad);
    if lines != [] {
      var next := StepLine(y, u, lines[0], lim);
      PendingStep(y, u, lines[0], lim);
      if next.Go? {
        DoomedFails(y, next.st, bad, lines[1..], lim);
      }
    }
  }

  /** Two states that differ only in where a batch neither has begins. */
  predicate Alike(st: State, u: State) {
    st.batch == [] && st == u.(itemStart := st.itemStart)
  }

  lemma AlikeIsAhead(y: Yaml, st: State, u: State)
    requires Alike(st, u)
    ensures Ahead(y, st, u, [])
  {
  }

  lemma FlushTopAlike(y: Yaml, st: State, u: State)
    requires Alike(st, u)
    ensures FlushTop(y, st).None? <==> FlushTop(y, u).None?
    ensures FlushTop(y, st).Some? ==> Alike(FlushTop(y, st).value, FlushTop(y, u).value)
  {
  }

  lemma FinishAgrees(y: Yaml, st: State, u: State, done: seq<Line>)
    requires Ahead(y, st, u, done)
    ensures Agree(Finish(y, st), Finish(y, u))
  {
    FlushAgrees(y, st, u, done);
    if FlushBatch(y, st).Some? {
      FlushTopAlike(y, FlushBatch(y, st).value, FlushBatch(y, u).value);
    }
  }

  lemma OpenTopAlike(y: Yaml, st: State, u: State, line: Line)
    requires Alike(st, u)
    ensures var next, next' := OpenTop(y, st, line), OpenTop(y, u, line);
            !next.Stop? && !next'.Stop? && (next.Go? <==> next'.Go?) && (next.Go? ==> Alike(next.st, next'.st))
  {
  }

  /** A line that ends the batch leads to the same place from both states. */
  lemma TopKeyAgrees(y: Yaml, st: State, u: State, done: seq<Line>, line: Line)
    requires Ahead(y, st, u, done)
    ensures var next, next' := StepTopKey(y, st, line), StepTopKey(y, u, line);
            !next.Stop? && !next'.Stop? && (next.Go? <==> next'.Go?) && (next.Go? ==> Alike(next.st, next'.st))
  {
    FlushAgrees(y, st, u, done);
    if FlushBatch(y, st).Some? {
      var st1, u1 := FlushBatch(y, st).value, FlushBatch(y, u).value;
      FlushTopAlike(y, st1, u1);
      if FlushTop(y, st1).Some? {
        OpenTopAlike(y, FlushTop(y, st1).value, FlushTop(y, u1).value, line);
      }
    }
  }

  lemma ChartAgrees(y: Yaml, st: State, u: State, done: seq<Line>, line: Line)
    requires Ahead(y, st, u, done)
    ensures var next, next' := StepChart(y, st, line), StepChart(y, u, line);
            !next.Stop? && !next'.Stop? && (next.Go? <==> next'.Go?) && (next.Go? ==> Alike(next.st, next'.st))
  {
    FlushAgrees(y, st, u, done);
  }

  lemma GrowAhead(y: Yaml, st: State, u: State, done: seq<Line>, line: Line, lim: Limits)
    requires Ahead(y, st, u, done) && st.batch != []
    ensures GrowBatch(st, line, lim).Fail? <==> GrowBatch(u, line, Whole(lim)).Fail?
    ensures GrowBatch(st, line, lim).Go? ==>
              Ahead(y, GrowBatch(st, line, lim).st, GrowBatch(u, line, Whole(lim)).st, done)
  {
    assert u.batch + [line] == done + (st.batch + [line]);
    BytesConcat(done, st.batch + [line]);
  }

  lemma ItemJoins(y: Yaml, st: State, u: State, done: seq<Line>, line: Line)
    requires Ahead(y, st, u, done) && TakesItem(st, line) && !line.kind.Filler?
    ensures Ahead(y, AddItem(st, line), AddItem(u, line), done)
  {
    BytesConcat(done, st.batch);
    assert u.batch + [line] == done + (st.batch + [line]);
  }

  /** A new item: `st` may decode its batch first; then it is further ahead, or `u` is doomed. */
  lemma ItemAhead(y: Yaml, st: State, u: State, done: seq<Line>, line: Line, lim: Limits)
    requires Ahead(y, st, u, done) && TakesItem(st, line) && !line.kind.Filler?
    ensures var next, next' := StepItem(y, st, line, lim), StepItem(y, u, line, Whole(lim));
            && next'.Go? && !next.Stop?
            && (next.Fail? ==> Doomed(y, next'.st, u.batch))
            && (next.Go? ==> Ahead(y, next.st, next'.st, done) || Ahead(y, next.st, next'.st, u.batch))
  {
    if lim.batch.Some? && Bytes(st.batch) >= lim.batch.value && st.batch != [] {
      ItemAfterFlush(y, st, u, done, line, lim);
    } else {
      ItemJoins(y, st, u, done, line);
    }
  }

  lemma ItemPast(y: Yaml, st: State, u: State, line: Line)
    requires u.batch != [] && u.itemIndent == u.batch[0].indent == line.indent && !line.kind.Filler?
    requires DecodeBatch(y, u.batch).Some? && Alike(st, AddVersions(u, DecodeBatch(y, u.batch).value))
    ensures Ahead(y, AddItem(st, line), AddItem(u, line), u.batch)
  {
    var st', u' := AddItem(st, line), AddItem(u, line);
    assert st'.batch == [line] && u'.batch == u.batch + [line];
  }

  lemma ItemAfterFlush(y: Yaml, st: State, u: State, done: seq<Line>, line: Line, lim: Limits)
    requires Ahead(y, st, u, done) && TakesItem(st, line) && !line.kind.Filler?
    requires lim.batch.Some? && Bytes(st.batch) >= lim.batch.value && st.batch != []
    ensures var next, next' := StepItem(y, st, line, lim), StepItem(y, u, line, Whole(lim));
            && next'.Go? && !next.Stop?
            && (next.Fail? ==> Doomed(y, next'.st, u.batch))
            && (next.Go? ==> Ahead(y, next.st, next'.st, u.batch))
  {
    assert u.batch != [] && u.batch[0].indent == st.itemIndent by {
      if done == [] {
        assert u.batch == st.batch;
      }
    }
    FlushAgrees(y, st, u, done);
    if FlushBatch(y, st).Some? {
      ItemPast(y, FlushBatch(y, st).value, u, line);
    } else {
      var u' := AddItem(u, line);
      assert u'.batch[..|u.batch|] == u.batch && u'.batch[|u.batch|] == line;
    }
  }

  lemma {:induction false} Simulation(y: Yaml, st: State, u: State, done: seq<Line>,
                                         lines: seq<Line>, lim: Limits)
    requires Ahead(y, st, u, done)
    ensures Agree(Decode(y, st, lines, lim), Decode(y, u, lines, Whole(lim)))
    decreases |lines|
  {
    FinishAgrees(y, st, u, done);
    if lines != [] {
      var line := lines[0];
      var next, next' := StepLine(y, st, line, lim), StepLine(y, u, line, Whole(lim));
      if |line.text| <= lim.maxEntry && !line.kind.Filler? && line.indent > 0 && st.inEntries && TakesItem(st, line) {
        ItemAhead(y, st, u, done, line, lim);
        if next.Fail? {
          DoomedFails(y, next'.st, u.batch, lines[1..], Whole(lim));
        } else if Ahead(y, next.st, next'.st, done) {
          Simulation(y, next.st, next'.st, done, lines[1..], lim);
        } else {
          Simulation(y, next.st, next'.st, u.batch, lines[1..], lim);
        }
      } else {
        OtherLine(y, st, u, done, line, lim);
        if next.Go? {
          if Alike(next.st, next'.st) {
            AlikeIsAhead(y, next.st, next'.st);
            Simulation(y, next.st, next'.st, [], lines[1..], lim);
          } else {
            Simulation(y, next.st, next'.st, done, lines[1..], lim);
          }
        } else if next.Stop? {
          FinishAgrees(y, next.st, next'.st, done);
        }
      }
    }
  }

  lemma OtherLine(y: Yaml, st: State, u: State, done: seq<Line>, line: Line, lim: Limits)
    requires Ahead(y, st, u, done)
    requires |line.text| <= lim.maxEntry && !line.kind.Filler? && line.indent > 0 && st.inEntries ==> !TakesItem(st, line)
    ensures var next, next' := StepLine(y, st, line, lim), StepLine(y, u, line, Whole(lim));
            && (next.Fail? <==> next'.Fail?) && (next.Stop? <==> next'.Stop?)
            && (next.Go? ==> Alike(next.st, next'.st) || Ahead(y, next.st, next'.st, done))
            && (next.Stop? ==> Ahead(y, next.st, next'.st, done))
  {
    if |line.text| > lim.maxEntry {
    } else if line.kind.Filler? {
      if st.batch != [] {
        GrowAhead(y, st, u, done, line, lim);
      }
    } else if line.indent == 0 {
      if !line.kind.Directive? && !line.kind.Marker? {
        TopKeyAgrees(y, st, u, done, line);
      }
    } else if st.inEntries {
      if st.batch != [] && line.indent > st.itemIndent {
        GrowAhead(y, st, u, done, line, lim);
      } else {
        ChartAgrees(y, st, u, done, line);
      }
    }
  }

  /** The result does not depend on the batch size, for any file at all. */
  lemma BatchSizeIrrelevant(y: Yaml, body: string, maxEntry: nat, b: nat, b': nat)
    ensures Agree(Decode(y, Initial(), ReadAll(SplitLines(body)), Limits(maxEntry, Some(b))),
                  Decode(y, Initial(), ReadAll(SplitLines(body)), Limits(maxEntry, Some(b'))))
  {
    var st: State := Initial();
    Simulation(y, st, st, [], ReadAll(SplitLines(body)), Limits(maxEntry, Some(b)));
    Simulation(y, st, st, [], ReadAll(SplitLines(body)), Limits(maxEntry, Some(b')));
  }
}

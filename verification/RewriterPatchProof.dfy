/** Renaming commutes with applying patches, for everything a client can send. */
module RewriterPatchProof {
  import opened Basics
  import opened RewriterText
  import opened RewriterNames
  import opened RewriterMaps
  import opened RewriterPointer
  import opened RewriterPatch

  predicate Plain(rw: Rewriter) {
    WellFormed(rw) && ValueFree(rw)
  }

  // ----- one map -----

  lemma TableIsImage(rw: Rewriter, m: map<string, string>)
    requires Plain(rw) && Shown(rw, m)
    ensures NoMerge(m, Renaming(rw)) && NewTable(rw, m) == Image(m, Renaming(rw))
  {
    forall n | n in m
      ensures ClientVisible(rw, n, m[n])
    {
      ValueFreeNames(rw, n, m[n]);
    }
    VisibleNamesDoNotMerge(rw, m);
  }

  lemma NewNamesApart(rw: Rewriter, a: string, b: string)
    requires Plain(rw) && ClientVisible(rw, a, "") && ClientVisible(rw, b, "")
    ensures NewName(rw, a) == NewName(rw, b) <==> a == b
  {
    if a != b {
      VisibleNamesApart(rw, a, b, "", "");
    }
  }

  /** The renamed map holds a name's new name, with its value, exactly when the map holds the name. */
  lemma TableHas(rw: Rewriter, m: map<string, string>, k: string)
    requires Plain(rw) && Shown(rw, m) && ClientVisible(rw, k, "")
    ensures var t := NewTable(rw, m);
            (NewName(rw, k) in t <==> k in m) && (k in m ==> t[NewName(rw, k)] == m[k])
  {
    TableIsImage(rw, m);
    var f := Renaming(rw);
    if k in m {
      ValueFreeNames(rw, k, m[k]);
      ImageAt(m, f, k);
    }
    if NewName(rw, k) in NewTable(rw, m) {
      var l := TableSource(rw, m, NewName(rw, k));
      NewNamesApart(rw, k, l);
    }
  }

  lemma TableSource(rw: Rewriter, m: map<string, string>, n: string) returns (k: string)
    requires Plain(rw) && Shown(rw, m) && n in NewTable(rw, m)
    ensures k in m && NewName(rw, k) == n
  {
    TableIsImage(rw, m);
    k :| k in m && Renaming(rw)(k, m[k]).0 == n;
    ValueFreeNames(rw, k, m[k]);
  }

  /** Two maps that hold the new names of the same map are the same. */
  lemma SameTable(rw: Rewriter, m: map<string, string>, t: map<string, string>)
    requires Plain(rw) && Shown(rw, m)
    requires forall k :: k in m ==> NewName(rw, k) in t && t[NewName(rw, k)] == m[k]
    requires forall n :: n in t ==> exists k :: k in m && NewName(rw, k) == n
    ensures NewTable(rw, m) == t
  {
    var u := NewTable(rw, m);
    forall n | n in u
      ensures n in t && t[n] == u[n]
    {
      var k := TableSource(rw, m, n);
      TableHas(rw, m, k);
    }
    forall n | n in t
      ensures n in u
    {
      var k :| k in m && NewName(rw, k) == n;
      TableHas(rw, m, k);
    }
    SameMap(t, u);
  }

  lemma TableAdds(rw: Rewriter, m: map<string, string>, k: string, v: string)
    requires Plain(rw) && Shown(rw, m) && ClientVisible(rw, k, "")
    ensures Shown(rw, m[k := v]) && NewTable(rw, m[k := v]) == NewTable(rw, m)[NewName(rw, k) := v]
  {
    var t := NewTable(rw, m)[NewName(rw, k) := v];
    forall l | l in m[k := v]
      ensures NewName(rw, l) in t && t[NewName(rw, l)] == m[k := v][l]
    {
      NewNamesApart(rw, l, k);
      TableHas(rw, m, l);
    }
    forall n | n in t
      ensures exists l :: l in m[k := v] && NewName(rw, l) == n
    {
      if n == NewName(rw, k) {
        assert k in m[k := v];
      } else {
        var l := TableSource(rw, m, n);
        assert l in m[k := v];
      }
    }
    SameTable(rw, m[k := v], t);
  }

  lemma TableDrops(rw: Rewriter, m: map<string, string>, k: string)
    requires Plain(rw) && Shown(rw, m) && ClientVisible(rw, k, "")
    ensures Shown(rw, m - {k}) && NewTable(rw, m - {k}) == NewTable(rw, m) - {NewName(rw, k)}
  {
    var t := NewTable(rw, m) - {NewName(rw, k)};
    forall l | l in m - {k}
      ensures NewName(rw, l) in t && t[NewName(rw, l)] == (m - {k})[l]
    {
      NewNamesApart(rw, l, k);
      TableHas(rw, m, l);
    }
    forall n | n in t
      ensures exists l :: l in m - {k} && NewName(rw, l) == n
    {
      var l := TableSource(rw, m, n);
      assert l in m - {k};
    }
    SameTable(rw, m - {k}, t);
  }

  lemma TablesApart(rw: Rewriter, m: map<string, string>, l: map<string, string>)
    requires Plain(rw) && Shown(rw, m) && Shown(rw, l)
    ensures NewTable(rw, m) == NewTable(rw, l) <==> m == l
  {
    if NewTable(rw, m) == NewTable(rw, l) {
      forall k | k in m || k in l
        ensures k in m && k in l && m[k] == l[k]
      {
        TableHas(rw, m, k);
        TableHas(rw, l, k);
      }
      assert m == l;
    }
  }

  // ----- paths -----

  lemma KeyOfEncoded(table: string, k: string)
    ensures KeyOf(table + "/" + Encode(k), table) == Some(k)
  {
    var path := table + "/" + Encode(k);
    assert TrimPrefix(path, table + "/") == Encode(k);
    DecodeEncoded(k);
    EscapedIsValid(k);
  }

  lemma TablesDiffer(t: string)
    ensures !HasPrefix(ANNOTATIONS + "/" + t, LABELS + "/") && !HasPrefix(LABELS + "/" + t, ANNOTATIONS + "/")
    ensures LABELS + "/" + t != LABELS && LABELS + "/" + t != ANNOTATIONS
    ensures ANNOTATIONS + "/" + t != LABELS && ANNOTATIONS + "/" + t != ANNOTATIONS
  {
    assert (ANNOTATIONS + "/" + t)[10] == 'a' && (LABELS + "/" + t)[10] == 'l';
    assert (LABELS + "/")[10] == 'l' && (ANNOTATIONS + "/")[10] == 'a';
    assert |LABELS + "/" + t| > |LABELS| && |ANNOTATIONS + "/" + t| > |ANNOTATIONS|;
    assert LABELS[10] == 'l' && ANNOTATIONS[10] == 'a';
  }

  /** The renamed path points at the renamed target. */
  lemma PathRenamed(rws: Rewriters, path: string)
    requires ValidPath(path)
    ensures TargetOf(NewPath(rws, path)) == RenameTarget(rws, TargetOf(path))
  {
    if HasPrefix(path, LABELS + "/") {
      var t := TrimPrefix(path, LABELS + "/");
      assert path == LABELS + "/" + t;
      TablesDiffer(t);
      TablesDiffer(Encode(NewName(rws.labels, Decode(t))));
      KeyOfEncoded(LABELS, NewName(rws.labels, Decode(t)));
    } else if HasPrefix(path, ANNOTATIONS + "/") {
      var t := TrimPrefix(path, ANNOTATIONS + "/");
      assert path == ANNOTATIONS + "/" + t;
      TablesDiffer(t);
      TablesDiffer(Encode(NewName(rws.annotations, Decode(t))));
      KeyOfEncoded(ANNOTATIONS, NewName(rws.annotations, Decode(t)));
    }
  }

  // ----- one operation -----

  function RenameFound(rws: Rewriters, t: Target, v: Option<Value>): Option<Value> {
    match v
    case None => None
    case Some(Text(s)) => v
    case Some(Table(m)) =>
      if t.AllLabels? then Some(Table(NewTable(rws.labels, m)))
      else if t.AllAnnotations? then Some(Table(NewTable(rws.annotations, m)))
      else v
  }

  function RenameResult(rws: Rewriters, m: Option<Meta>): Option<Meta> {
    if m.Some? then Some(RenameMeta(rws, m.value)) else None
  }

  lemma LookupRenamed(rws: Rewriters, m: Meta, t: Target)
    requires Ready(rws) && VisibleMeta(rws, m) && VisibleTarget(rws, t)
    ensures Lookup(RenameMeta(rws, m), RenameTarget(rws, t)) == RenameFound(rws, t, Lookup(m, t))
  {
    match t
    case Label(k) =>
      if m.labels.Some? {
        TableHas(rws.labels, m.labels.value, k);
      }
    case Annotation(k) =>
      if m.annotations.Some? {
        TableHas(rws.annotations, m.annotations.value, k);
      }
    case _ =>
  }

  predicate VisibleAt(rws: Rewriters, t: Target, v: Value) {
    v.Table? ==> (t.AllLabels? ==> Shown(rws.labels, v.table)) && (t.AllAnnotations? ==> Shown(rws.annotations, v.table))
  }

  lemma PutRenamed(rws: Rewriters, m: Meta, t: Target, v: Value)
    requires Ready(rws) && VisibleMeta(rws, m) && VisibleTarget(rws, t) && VisibleAt(rws, t, v)
    ensures Put(RenameMeta(rws, m), RenameTarget(rws, t), RenameFound(rws, t, Some(v)).value) == RenameResult(rws, Put(m, t, v))
    ensures Put(m, t, v).Some? ==> VisibleMeta(rws, Put(m, t, v).value)
  {
    match t
    case Label(k) =>
      if m.labels.Some? && v.Text? {
        TableAdds(rws.labels, m.labels.value, k, v.text);
      }
    case Annotation(k) =>
      if m.annotations.Some? && v.Text? {
        TableAdds(rws.annotations, m.annotations.value, k, v.text);
      }
    case _ =>
  }

  lemma DeleteRenamed(rws: Rewriters, m: Meta, t: Target)
    requires Ready(rws) && VisibleMeta(rws, m) && VisibleTarget(rws, t)
    ensures Delete(RenameMeta(rws, m), RenameTarget(rws, t)) == RenameResult(rws, Delete(m, t))
    ensures Delete(m, t).Some? ==> VisibleMeta(rws, Delete(m, t).value)
  {
    LookupRenamed(rws, m, t);
    match t
    case Label(k) =>
      if m.labels.Some? {
        TableDrops(rws.labels, m.labels.value, k);
      }
    case Annotation(k) =>
      if m.annotations.Some? {
        TableDrops(rws.annotations, m.annotations.value, k);
      }
    case _ =>
  }

  lemma ValueRenamed(rws: Rewriters, path: string, v: Value)
    requires ValidPath(path)
    ensures NewValue(rws, path, v) == RenameFound(rws, TargetOf(path), Some(v)).value
  {
    if HasPrefix(path, LABELS + "/") {
      assert path == LABELS + "/" + TrimPrefix(path, LABELS + "/");
      TablesDiffer(TrimPrefix(path, LABELS + "/"));
    } else if HasPrefix(path, ANNOTATIONS + "/") {
      assert path == ANNOTATIONS + "/" + TrimPrefix(path, ANNOTATIONS + "/");
      TablesDiffer(TrimPrefix(path, ANNOTATIONS + "/"));
    }
  }

  lemma TestRenamed(rws: Rewriters, m: Meta, t: Target, v: Value)
    requires Ready(rws) && VisibleMeta(rws, m) && VisibleTarget(rws, t) && VisibleAt(rws, t, v)
    ensures Lookup(RenameMeta(rws, m), RenameTarget(rws, t)) == RenameFound(rws, t, Some(v)) <==> Lookup(m, t) == Some(v)
  {
    LookupRenamed(rws, m, t);
    if v.Table? && t.AllLabels? && m.labels.Some? {
      TablesApart(rws.labels, m.labels.value, v.table);
    } else if v.Table? && t.AllAnnotations? && m.annotations.Some? {
      TablesApart(rws.annotations, m.annotations.value, v.table);
    }
  }

  lemma WritesCommute(rws: Rewriters, m: Meta, op: Op)
    requires Ready(rws) && VisibleMeta(rws, m) && VisibleOp(rws, op) && (op.Add? || op.Remove? || op.Replace? || op.Test?)
    ensures Apply(RenameMeta(rws, m), RenameOp(rws, op)) == RenameResult(rws, Apply(m, op))
    ensures Apply(m, op).Some? ==> VisibleMeta(rws, Apply(m, op).value)
  {
    var t := TargetOf(op.path);
    PathRenamed(rws, op.path);
    LookupRenamed(rws, m, t);
    if op.Remove? {
      DeleteRenamed(rws, m, t);
    } else {
      TargetKinds(op.path);
      ValueRenamed(rws, op.path, op.value);
      PutRenamed(rws, m, t, op.value);
      TestRenamed(rws, m, t, op.value);
    }
  }

  lemma TargetKinds(path: string)
    ensures TargetOf(path).AllLabels? <==> path == LABELS
    ensures TargetOf(path).AllAnnotations? <==> path == ANNOTATIONS
  {
  }

  predicate OneKey(t: Target) {
    t.Label? || t.Annotation?
  }

  /** Names that both maps rename alike can be shown in the second as well. */
  lemma AlikeNamesShow(rw: Rewriter, rw': Rewriter, n: string)
    requires Plain(rw) && Plain(rw') && Alike(rw, rw') && ClientVisible(rw, n, "")
    ensures ClientVisible(rw', n, "")
  {
    if IsPreserved(n) {
      var x := TrimPrefix(n, PRESERVED);
      OriginalIsPlain(rw, x);
      RenamedApart(rw, x);
      assert NewName(rw', x) != x;
    } else if !IsOriginal(rw', n, "") && IsRenamed(rw', n, "") {
      RenamedUnlike(rw, rw', n);
    }
  }

  /** A name that a rule speaks of does not carry the preserved prefix. */
  lemma OriginalIsPlain(rw: Rewriter, x: string)
    requires WellFormed(rw) && IsOriginal(rw, x, "")
    ensures !IsPreserved(x) && ClientVisible(rw, x, "")
  {
    if x in rw.names {
      assert NameRuleOk(rw, x);
    } else {
      var parts := Cut(x, '/').value;
      assert PrefixRuleOk(rw, parts.0);
      if IsPreserved(x) {
        PreservedPrefix(parts.0, parts.1);
      }
    }
  }

  lemma RenamedApart(rw: Rewriter, x: string)
    requires WellFormed(rw) && IsOriginal(rw, x, "")
    ensures NewName(rw, x) != x
  {
    OriginalIsPlain(rw, x);
    if x in rw.names {
      assert NameRuleOk(rw, x);
    } else {
      var parts := Cut(x, '/').value;
      assert PrefixRuleOk(rw, parts.0);
      if rw.prefixes[parts.0] + "/" + parts.1 == x {
        CutJoined(rw.prefixes[parts.0], '/', parts.1);
      }
    }
  }

  /** If the first map shows a name that only the second one's server has, the two rename some name
      differently. */
  lemma RenamedUnlike(rw: Rewriter, rw': Rewriter, n: string)
    requires Plain(rw) && Plain(rw') && ClientVisible(rw, n, "") && !IsPreserved(n)
    requires !IsOriginal(rw', n, "") && IsRenamed(rw', n, "")
    ensures !Alike(rw, rw')
  {
    var o := Unrenamed(rw', n);
    assert NewName(rw', n) == n;
    if ClientVisible(rw, o, "") {
      NewNamesApart(rw, n, o);
      assert NewName(rw, n) != NewName(rw', n) || NewName(rw, o) != NewName(rw', o);
    } else {
      var u := Unrenamed(rw, o);
      if IsOriginal(rw', u, "") {
        UndoneWhenCovered(rw', u, "");
      }
      assert ClientVisible(rw, u, "") && NewName(rw', u) != NewName(rw, u);
    }
  }

  /** The original of a name the server has. */
  lemma Unrenamed(rw: Rewriter, n: string) returns (o: string)
    requires Plain(rw) && !IsOriginal(rw, n, "") && IsRenamed(rw, n, "")
    ensures o != n && NewName(rw, o) == n && IsOriginal(rw, o, "") && !IsPreserved(o) && ClientVisible(rw, o, "")
  {
    FlippedWellFormed(rw);
    UndoneWhenCovered(Flipped(rw), n, "");
    o := Restore(rw, n, "").0;
    ValueFreeNames(rw, n, "");
    OriginalIsPlain(rw, o);
    RenamedApart(rw, o);
  }

  lemma AlikeTables(rw: Rewriter, rw': Rewriter, m: map<string, string>)
    requires Plain(rw) && Plain(rw') && Alike(rw, rw') && Shown(rw, m)
    ensures Shown(rw', m) && NewTable(rw', m) == NewTable(rw, m)
  {
    forall n | n in m
      ensures ClientVisible(rw', n, "")
    {
      AlikeNamesShow(rw, rw', n);
    }
    forall n | n in NewTable(rw, m)
      ensures exists k :: k in m && NewName(rw', k) == n
    {
      var k := TableSource(rw, m, n);
    }
    forall k | k in m
      ensures NewName(rw', k) in NewTable(rw, m) && NewTable(rw, m)[NewName(rw', k)] == m[k]
    {
      TableHas(rw, m, k);
    }
    SameTable(rw', m, NewTable(rw, m));
  }

  predicate Commutes(rws: Rewriters, m: Meta, op: Op) {
    Apply(RenameMeta(rws, m), RenameOp(rws, op)) == RenameResult(rws, Apply(m, op))
  }

  /** What renaming makes of a move or a copy, by its targets: only the place it goes to is renamed. */
  predicate Agrees(rws: Rewriters, m: Meta, f: Target, t: Target, move: bool) {
    Transfer(RenameMeta(rws, m), f, RenameTarget(rws, t), move) == RenameResult(rws, Transfer(m, f, t, move))
  }

  /** TransferOk, by targets. */
  ghost predicate OkAt(rws: Rewriters, f: Target, t: Target) {
    if OneKey(f) && OneKey(t) then RenameTarget(rws, f) == f
    else if f.AllLabels? && t.AllAnnotations? then Alike(rws.labels, rws.annotations)
    else if f.AllAnnotations? && t.AllLabels? then Alike(rws.annotations, rws.labels)
    else true
  }

  lemma TransferApplies(m: Meta, from: string, path: string)
    ensures Apply(m, Move(from, path)) == Transfer(m, TargetOf(from), TargetOf(path), true)
    ensures Apply(m, Copy(from, path)) == Transfer(m, TargetOf(from), TargetOf(path), false)
  {
  }

  lemma RenamedTransferApplies(rws: Rewriters, m: Meta, from: string, path: string)
    requires ValidPath(path)
    ensures Apply(m, RenameOp(rws, Move(from, path))) == Transfer(m, TargetOf(from), RenameTarget(rws, TargetOf(path)), true)
    ensures Apply(m, RenameOp(rws, Copy(from, path))) == Transfer(m, TargetOf(from), RenameTarget(rws, TargetOf(path)), false)
  {
    PathRenamed(rws, path);
    TransferApplies(m, from, NewPath(rws, path));
  }

  lemma TransferCommutesAt(rws: Rewriters, m: Meta, from: string, path: string)
    requires ValidPath(path)
    ensures Commutes(rws, m, Move(from, path)) <==> Agrees(rws, m, TargetOf(from), TargetOf(path), true)
    ensures Commutes(rws, m, Copy(from, path)) <==> Agrees(rws, m, TargetOf(from), TargetOf(path), false)
  {
    TransferApplies(m, from, path);
    RenamedTransferApplies(rws, RenameMeta(rws, m), from, path);
  }

  lemma OkAtTargets(rws: Rewriters, from: string, path: string)
    requires ValidPath(from)
    ensures TransferOk(rws, from, path) <==> OkAt(rws, TargetOf(from), TargetOf(path))
  {
    if OneKey(TargetOf(from)) {
      PathStaysIff(rws, from);
    }
  }

  /** The path of a key is renamed exactly if the key is. */
  lemma PathStaysIff(rws: Rewriters, path: string)
    requires ValidPath(path) && OneKey(TargetOf(path))
    ensures NewPath(rws, path) == path <==> RenameTarget(rws, TargetOf(path)) == TargetOf(path)
  {
    PathRenamed(rws, path);
    if HasPrefix(path, LABELS + "/") {
      assert path == LABELS + "/" + TrimPrefix(path, LABELS + "/");
      TablesDiffer(TrimPrefix(path, LABELS + "/"));
    } else if HasPrefix(path, ANNOTATIONS + "/") {
      assert path == ANNOTATIONS + "/" + TrimPrefix(path, ANNOTATIONS + "/");
      TablesDiffer(TrimPrefix(path, ANNOTATIONS + "/"));
    }
  }

  lemma TextPut(rws: Rewriters, m: Meta, t: Target, text: string)
    requires Ready(rws) && VisibleMeta(rws, m) && VisibleTarget(rws, t)
    ensures Put(RenameMeta(rws, m), RenameTarget(rws, t), Text(text)) == RenameResult(rws, Put(m, t, Text(text)))
    ensures Put(m, t, Text(text)).Some? ==> VisibleMeta(rws, Put(m, t, Text(text)).value)
  {
    PutRenamed(rws, m, t, Text(text));
  }

  lemma MoveIs(m: Meta, left: Meta, f: Target, t: Target, v: Value)
    requires !f.Elsewhere? && !t.Elsewhere? && Lookup(m, f) == Some(v) && Delete(m, f) == Some(left)
    ensures Transfer(m, f, t, true) == Put(left, t, v)
  {
  }

  lemma CopyIs(m: Meta, f: Target, t: Target, v: Value)
    requires !f.Elsewhere? && !t.Elsewhere? && Lookup(m, f) == Some(v)
    ensures Transfer(m, f, t, false) == Put(m, t, v)
  {
  }

  lemma KeyFound(rws: Rewriters, m: Meta, f: Target)
    requires Ready(rws) && VisibleMeta(rws, m) && VisibleTarget(rws, f) && OneKey(f) && RenameTarget(rws, f) == f
    ensures Lookup(RenameMeta(rws, m), f) == Lookup(m, f)
    ensures Lookup(m, f).Some? ==> Lookup(m, f).value.Text?
  {
    LookupRenamed(rws, m, f);
  }

  lemma KeyMoveAgrees(rws: Rewriters, m: Meta, f: Target, t: Target)
    requires Ready(rws) && VisibleMeta(rws, m) && VisibleTarget(rws, f) && VisibleTarget(rws, t)
    requires OneKey(f) && OneKey(t) && RenameTarget(rws, f) == f && Lookup(m, f).Some?
    ensures Agrees(rws, m, f, t, true)
    ensures Transfer(m, f, t, true).Some? ==> VisibleMeta(rws, Transfer(m, f, t, true).value)
  {
    var v, left := Lookup(m, f).value, Delete(m, f).value;
    KeyFound(rws, m, f);
    DeleteRenamed(rws, m, f);
    MoveIs(m, left, f, t, v);
    MoveIs(RenameMeta(rws, m), RenameMeta(rws, left), f, RenameTarget(rws, t), v);
    TextPut(rws, left, t, v.text);
  }

  lemma KeyCopyAgrees(rws: Rewriters, m: Meta, f: Target, t: Target)
    requires Ready(rws) && VisibleMeta(rws, m) && VisibleTarget(rws, f) && VisibleTarget(rws, t)
    requires OneKey(f) && OneKey(t) && RenameTarget(rws, f) == f && Lookup(m, f).Some?
    ensures Agrees(rws, m, f, t, false)
    ensures Transfer(m, f, t, false).Some? ==> VisibleMeta(rws, Transfer(m, f, t, false).value)
  {
    var v := Lookup(m, f).value;
    KeyFound(rws, m, f);
    CopyIs(m, f, t, v);
    CopyIs(RenameMeta(rws, m), f, RenameTarget(rws, t), v);
    TextPut(rws, m, t, v.text);
  }

  lemma NothingMoves(m: Meta, f: Target, t: Target, move: bool)
    requires !f.Elsewhere? && !t.Elsewhere? && Lookup(m, f).None?
    ensures Transfer(m, f, t, move).None?
  {
  }

  lemma KeyAgrees(rws: Rewriters, m: Meta, f: Target, t: Target, move: bool)
    requires Ready(rws) && VisibleMeta(rws, m) && VisibleTarget(rws, f) && VisibleTarget(rws, t)
    requires OneKey(f) && OneKey(t) && RenameTarget(rws, f) == f
    ensures Agrees(rws, m, f, t, move)
    ensures Transfer(m, f, t, move).Some? ==> VisibleMeta(rws, Transfer(m, f, t, move).value)
  {
    if Lookup(m, f).None? {
      KeyFound(rws, m, f);
      NothingMoves(m, f, t, move);
      NothingMoves(RenameMeta(rws, m), f, RenameTarget(rws, t), move);
    } else if move {
      KeyMoveAgrees(rws, m, f, t);
    } else {
      KeyCopyAgrees(rws, m, f, t);
    }
  }

  lemma TableAgrees(rws: Rewriters, m: Meta, f: Target, t: Target, move: bool)
    requires Ready(rws) && VisibleMeta(rws, m) && !OneKey(f) && !OneKey(t) && OkAt(rws, f, t)
    ensures Agrees(rws, m, f, t, move)
    ensures Transfer(m, f, t, move).Some? ==> VisibleMeta(rws, Transfer(m, f, t, move).value)
  {
    if f.AllLabels? && t.AllAnnotations? && m.labels.Some? {
      AlikeTables(rws.labels, rws.annotations, m.labels.value);
    } else if f.AllAnnotations? && t.AllLabels? && m.annotations.Some? {
      AlikeTables(rws.annotations, rws.labels, m.annotations.value);
    }
  }

  /** A text where a map belongs, or a map where a text does: the transfer fails on both sides. */
  lemma MixedFails(rws: Rewriters, m: Meta, f: Target, t: Target, move: bool)
    requires OneKey(f) != OneKey(t) && !f.Elsewhere? && !t.Elsewhere?
    ensures Transfer(m, f, t, move).None? && Agrees(rws, m, f, t, move)
  {
  }

  lemma TransferAgrees(rws: Rewriters, m: Meta, f: Target, t: Target, move: bool)
    requires Ready(rws) && VisibleMeta(rws, m) && VisibleTarget(rws, f) && VisibleTarget(rws, t)
    requires (f.Elsewhere? <==> t.Elsewhere?) && OkAt(rws, f, t)
    ensures Agrees(rws, m, f, t, move)
    ensures Transfer(m, f, t, move).Some? ==> VisibleMeta(rws, Transfer(m, f, t, move).value)
  {
    if OneKey(f) && OneKey(t) {
      KeyAgrees(rws, m, f, t, move);
    } else if OneKey(f) || OneKey(t) {
      MixedFails(rws, m, f, t, move);
    } else {
      TableAgrees(rws, m, f, t, move);
    }
  }

  lemma TransfersCommute(rws: Rewriters, m: Meta, op: Op)
    requires Ready(rws) && VisibleMeta(rws, m) && VisibleOp(rws, op) && (op.Move? || op.Copy?)
    ensures Commutes(rws, m, op)
    ensures Apply(m, op).Some? ==> VisibleMeta(rws, Apply(m, op).value)
  {
    TransferCommutesAt(rws, m, op.from, op.path);
    OkAtTargets(rws, op.from, op.path);
    TransferAgrees(rws, m, TargetOf(op.from), TargetOf(op.path), op.Move?);
  }

  lemma OperationCommutes(rws: Rewriters, m: Meta, op: Op)
    requires Ready(rws) && VisibleMeta(rws, m) && VisibleOp(rws, op)
    ensures Apply(RenameMeta(rws, m), RenameOp(rws, op)) == RenameResult(rws, Apply(m, op))
    ensures Apply(m, op).Some? ==> VisibleMeta(rws, Apply(m, op).value)
  {
    if op.Move? || op.Copy? {
      TransfersCommute(rws, m, op);
    } else {
      WritesCommute(rws, m, op);
    }
  }

  /** Main result: a renamed patch does to the renamed object what the patch does to the object; it
      fails there exactly when it fails here. */
  lemma {:induction false} PatchCommutes(rws: Rewriters, m: Meta, ops: seq<Op>)
    requires Ready(rws) && VisibleMeta(rws, m) && forall i :: 0 <= i < |ops| ==> VisibleOp(rws, ops[i])
    ensures ApplyAll(RenameMeta(rws, m), RenamePatch(rws, ops)) == RenameResult(rws, ApplyAll(m, ops))
    decreases |ops|
  {
    if ops != [] {
      OperationCommutes(rws, m, ops[0]);
      assert RenamePatch(rws, ops)[1..] == RenamePatch(rws, ops[1..]);
      var first := Apply(m, ops[0]);
      if first.Some? {
        PatchCommutes(rws, first.value, ops[1..]);
      }
    }
  }

  // ----- exactly which moves and copies can be renamed -----

  ghost predicate AlwaysCommutes(rws: Rewriters, op: Op) {
    forall m :: VisibleMeta(rws, m) ==> Commutes(rws, m, op)
  }

  /** An object with nothing but the key a transfer takes from, and an empty map for the other. */
  function Holding(t: Target): Meta {
    match t
    case Label(k) => Meta(Some(map[k := ""]), Some(map[]))
    case Annotation(k) => Meta(Some(map[]), Some(map[k := ""]))
    case _ => Meta(None, None)
  }

  lemma OneEntry(rw: Rewriter, k: string)
    requires Plain(rw) && ClientVisible(rw, k, "")
    ensures Shown(rw, map[k := ""]) && forall n :: n in NewTable(rw, map[k := ""]) <==> n == NewName(rw, k)
  {
    TableHas(rw, map[k := ""], k);
    forall n | n in NewTable(rw, map[k := ""])
      ensures n == NewName(rw, k)
    {
      var l := TableSource(rw, map[k := ""], n);
    }
  }

  /** On an object with both maps a transfer from one key to another works iff the key is there. */
  lemma KeyMoves(m: Meta, f: Target, t: Target, move: bool)
    requires OneKey(f) && OneKey(t) && m.labels.Some? && m.annotations.Some?
    ensures Transfer(m, f, t, move).Some? <==> Lookup(m, f).Some?
  {
  }

  /** The renamed maps do not have the key under its old name. */
  predicate Gone(rws: Rewriters, m: Meta, f: Target)
    requires m.labels.Some? && m.annotations.Some?
  {
    match f
    case Label(k) => k !in NewTable(rws.labels, m.labels.value)
    case Annotation(k) => k !in NewTable(rws.annotations, m.annotations.value)
    case _ => false
  }

  lemma GoneIsNone(rws: Rewriters, m: Meta, f: Target)
    requires m.labels.Some? && m.annotations.Some? && Gone(rws, m, f)
    ensures var r := RenameMeta(rws, m); r.labels.Some? && r.annotations.Some? && Lookup(r, f).None?
  {
    RenamedTables(rws, m.labels, m.annotations);
  }

  lemma OneEntryOf(rw: Rewriter, k: string, table: map<string, string>)
    requires Plain(rw) && ClientVisible(rw, k, "") && NewName(rw, k) != k && table == map[k := ""]
    ensures Shown(rw, table) && k !in NewTable(rw, table)
  {
    OneEntry(rw, k);
  }

  lemma HoldingLabel(rws: Rewriters, k: string, one: map<string, string>, none: map<string, string>)
    requires Ready(rws) && VisibleTarget(rws, Label(k)) && NewName(rws.labels, k) != k && one == map[k := ""] && none == map[]
    ensures var m := Meta(Some(one), Some(none)); VisibleMeta(rws, m) && Gone(rws, m, Label(k))
  {
    OneEntryOf(rws.labels, k, one);
  }

  lemma HoldingAnnotation(rws: Rewriters, k: string, one: map<string, string>, none: map<string, string>)
    requires Ready(rws) && VisibleTarget(rws, Annotation(k)) && NewName(rws.annotations, k) != k && one == map[k := ""] && none == map[]
    ensures var m := Meta(Some(none), Some(one)); VisibleMeta(rws, m) && Gone(rws, m, Annotation(k))
  {
    OneEntryOf(rws.annotations, k, one);
  }

  lemma HoldingTells(rws: Rewriters, f: Target, m: Meta)
    requires Ready(rws) && VisibleTarget(rws, f) && OneKey(f) && RenameTarget(rws, f) != f && m == Holding(f)
    ensures VisibleMeta(rws, m) && Lookup(m, f).Some? && m.labels.Some? && m.annotations.Some? && Gone(rws, m, f)
  {
    if f.Label? {
      HoldingLabel(rws, f.key, m.labels.value, m.annotations.value);
    } else {
      HoldingAnnotation(rws, f.key, m.annotations.value, m.labels.value);
    }
  }

  lemma HoldingMoves(rws: Rewriters, f: Target, t: Target, move: bool)
    requires Ready(rws) && VisibleTarget(rws, f) && OneKey(f) && OneKey(t) && RenameTarget(rws, f) != f
    ensures var m := Holding(f);
            VisibleMeta(rws, m) && Transfer(m, f, t, move).Some? && Transfer(RenameMeta(rws, m), f, RenameTarget(rws, t), move).None?
  {
    var m := Holding(f);
    HoldingTells(rws, f, m);
    GoneIsNone(rws, m, f);
    KeyMoves(m, f, t, move);
    KeyMoves(RenameMeta(rws, m), f, RenameTarget(rws, t), move);
  }

  /** The place a key is taken from is not renamed: moving or copying a label or an annotation that has
      another name on the server works on the object a client sees and fails on the server's. */
  lemma MoveFromIsNotRenamed(rws: Rewriters, from: string, path: string)
    requires Ready(rws) && SentPath(rws, from) && ValidPath(path) && OneKey(TargetOf(from)) && OneKey(TargetOf(path))
    requires NewPath(rws, from) != from
    ensures var m := Holding(TargetOf(from));
            && VisibleMeta(rws, m)
            && Apply(m, Move(from, path)).Some? && Apply(RenameMeta(rws, m), RenameOp(rws, Move(from, path))).None?
            && Apply(m, Copy(from, path)).Some? && Apply(RenameMeta(rws, m), RenameOp(rws, Copy(from, path))).None?
  {
    var f, t := TargetOf(from), TargetOf(path);
    PathStaysIff(rws, from);
    HoldingMoves(rws, f, t, true);
    HoldingMoves(rws, f, t, false);
    TransferApplies(Holding(f), from, path);
    RenamedTransferApplies(rws, RenameMeta(rws, Holding(f)), from, path);
  }

  /** The renamed map of one name holds no name but its new one, whether a client sees it or not. */
  lemma NoOtherName(rw: Rewriter, k: string, n: string)
    requires n != NewName(rw, k)
    ensures n !in NewTable(rw, map[k := ""])
  {
    assert NoMerge(map[k := ""], Renaming(rw));
    assert forall l :: l in map[k := ""] ==> Renaming(rw)(l, map[k := ""][l]).0 == NewName(rw, k);
  }

  /** A name the two maps rename differently keeps their tables apart. */
  lemma TablesUnlike(rw: Rewriter, rw': Rewriter, n: string)
    requires Plain(rw) && ClientVisible(rw, n, "") && NewName(rw, n) != NewName(rw', n)
    ensures Shown(rw, map[n := ""]) && NewTable(rw, map[n := ""]) != NewTable(rw', map[n := ""])
  {
    OneEntry(rw, n);
    assert NewName(rw, n) in NewTable(rw, map[n := ""]);
    NoOtherName(rw', n, NewName(rw, n));
  }

  lemma WholeTransfer(m: map<string, string>, move: bool)
    ensures Transfer(Meta(Some(m), None), AllLabels, AllAnnotations, move) == Some(Meta(if move then None else Some(m), Some(m)))
    ensures Transfer(Meta(None, Some(m)), AllAnnotations, AllLabels, move) == Some(Meta(Some(m), if move then None else Some(m)))
  {
  }

  lemma RenamedTables(rws: Rewriters, labels: Option<map<string, string>>, annotations: Option<map<string, string>>)
    ensures var r := RenameMeta(rws, Meta(labels, annotations));
            && r.labels == (if labels.Some? then Some(NewTable(rws.labels, labels.value)) else None)
            && r.annotations == (if annotations.Some? then Some(NewTable(rws.annotations, annotations.value)) else None)
  {
  }

  /** The labels become the annotations on both sides, but are renamed as what they were on one only. */
  lemma LabelsDisagree(rws: Rewriters, m: map<string, string>, move: bool)
    requires NewTable(rws.labels, m) != NewTable(rws.annotations, m)
    ensures !Agrees(rws, Meta(Some(m), None), AllLabels, AllAnnotations, move)
  {
    var before, after := Meta(Some(m), None), Meta(if move then None else Some(m), Some(m));
    RenamedTables(rws, before.labels, before.annotations);
    RenamedTables(rws, after.labels, after.annotations);
    WholeTransfer(m, move);
    var r := RenameMeta(rws, before);
    assert r == Meta(Some(r.labels.value), None) && r.labels.value != RenameMeta(rws, after).annotations.value;
    WholeTransfer(r.labels.value, move);
    assert RenameTarget(rws, AllAnnotations) == AllAnnotations;
  }

  lemma AnnotationsDisagree(rws: Rewriters, m: map<string, string>, move: bool)
    requires NewTable(rws.annotations, m) != NewTable(rws.labels, m)
    ensures !Agrees(rws, Meta(None, Some(m)), AllAnnotations, AllLabels, move)
  {
    var before, after := Meta(None, Some(m)), Meta(Some(m), if move then None else Some(m));
    RenamedTables(rws, before.labels, before.annotations);
    RenamedTables(rws, after.labels, after.annotations);
    WholeTransfer(m, move);
    var r := RenameMeta(rws, before);
    assert r == Meta(None, Some(r.annotations.value)) && r.annotations.value != RenameMeta(rws, after).labels.value;
    WholeTransfer(r.annotations.value, move);
    assert RenameTarget(rws, AllLabels) == AllLabels;
  }

  /** A whole map that becomes the other although the two do not rename alike. */
  lemma UnlikeDisagrees(rws: Rewriters, f: Target, t: Target, n: string, move: bool)
    requires Ready(rws) && ((f.AllLabels? && t.AllAnnotations?) || (f.AllAnnotations? && t.AllLabels?))
    requires var (rw, rw') := if f.AllLabels? then (rws.labels, rws.annotations) else (rws.annotations, rws.labels);
             ClientVisible(rw, n, "") && NewName(rw, n) != NewName(rw', n)
    ensures var m := if f.AllLabels? then Meta(Some(map[n := ""]), None) else Meta(None, Some(map[n := ""]));
            VisibleMeta(rws, m) && !Agrees(rws, m, f, t, move)
  {
    if f.AllLabels? {
      TablesUnlike(rws.labels, rws.annotations, n);
      LabelsDisagree(rws, map[n := ""], move);
    } else {
      TablesUnlike(rws.annotations, rws.labels, n);
      AnnotationsDisagree(rws, map[n := ""], move);
    }
  }

  /** Where TransferOk fails there is an object on which the two sides part. */
  lemma Disagreement(rws: Rewriters, f: Target, t: Target) returns (m: Meta)
    requires Ready(rws) && VisibleTarget(rws, f) && !f.Elsewhere? && !t.Elsewhere? && !OkAt(rws, f, t)
    ensures VisibleMeta(rws, m) && !Agrees(rws, m, f, t, true) && !Agrees(rws, m, f, t, false)
  {
    if OneKey(f) {
      m := Holding(f);
      HoldingMoves(rws, f, t, true);
      HoldingMoves(rws, f, t, false);
    } else {
      var (rw, rw') := if f.AllLabels? then (rws.labels, rws.annotations) else (rws.annotations, rws.labels);
      var n :| ClientVisible(rw, n, "") && NewName(rw, n) != NewName(rw', n);
      m := if f.AllLabels? then Meta(Some(map[n := ""]), None) else Meta(None, Some(map[n := ""]));
      UnlikeDisagrees(rws, f, t, n, true);
      UnlikeDisagrees(rws, f, t, n, false);
    }
  }

  /** Main result on moves and copies: the renamed one does the same to every renamed object exactly if
      it meets TransferOk. */
  lemma TransferCommutesIff(rws: Rewriters, from: string, path: string)
    requires Ready(rws) && SentPath(rws, from) && SentPath(rws, path)
    requires !TargetOf(from).Elsewhere? && !TargetOf(path).Elsewhere?
    ensures AlwaysCommutes(rws, Move(from, path)) <==> TransferOk(rws, from, path)
    ensures AlwaysCommutes(rws, Copy(from, path)) <==> TransferOk(rws, from, path)
  {
    var f, t := TargetOf(from), TargetOf(path);
    OkAtTargets(rws, from, path);
    if OkAt(rws, f, t) {
      forall m | VisibleMeta(rws, m)
        ensures Commutes(rws, m, Move(from, path)) && Commutes(rws, m, Copy(from, path))
      {
        TransferCommutesAt(rws, m, from, path);
        TransferAgrees(rws, m, f, t, true);
        TransferAgrees(rws, m, f, t, false);
      }
    } else {
      var m := Disagreement(rws, f, t);
      TransferCommutesAt(rws, m, from, path);
    }
  }

  // ----- rules bound to a value -----

  /** Renaming commutes with everything a client can do to one object. */
  ghost predicate AllCommute(rws: Rewriters) {
    forall m, op :: VisibleMeta(rws, m) && VisibleOp(rws, op) ==> Commutes(rws, m, op)
  }

  lemma KeyPath(table: string, k: string)
    requires table == LABELS || table == ANNOTATIONS
    ensures var path := table + "/" + Encode(k);
            TargetOf(path) == (if table == LABELS then Label(k) else Annotation(k)) && ValidPath(path) && !Above(path)
  {
    var path := table + "/" + Encode(k);
    KeyOfEncoded(table, k);
    TablesDiffer(Encode(k));
    DecodeEncoded(k);
    EscapedIsValid(k);
    assert TrimPrefix(path, table + "/") == Encode(k);
    assert |path| > |table| >= 16;
  }

  /** A rule bound to a value leaves the name as it is where only the name is looked at. */
  lemma BoundName(rw: Rewriter, k: string)
    requires WellFormed(rw) && k in rw.names && IsKV(k)
    ensures var n := SplitKV(k).0; !IsPreserved(n) && ClientVisible(rw, n, "") && NewName(rw, n) == n
  {
    assert NameRuleOk(rw, k);
    var (n, v) := SplitKV(k);
    SplitJoined(k);
    assert n + ("=" + v) == JoinKV(n, v);
    if IsPreserved(n) {
      PreservedExtends(n, "=" + v);
    }
  }

  lemma BoundRename(rw: Rewriter, k: string)
    requires WellFormed(rw) && k in rw.names && IsKV(k)
    ensures var (n, v) := SplitKV(k); Rename(rw, n, v) != (n, v)
  {
    assert NameRuleOk(rw, k);
    BoundName(rw, k);
    SplitJoined(k);
    SplitJoined(rw.names[k]);
  }

  /** The entry itself it renames. */
  lemma BoundEntry(rw: Rewriter, n: string, v: string)
    requires Rename(rw, n, v) != (n, v)
    ensures NewTable(rw, map[n := v]) != map[n := v]
  {
    SingleImage(Renaming(rw), n, v);
    var r := Rename(rw, n, v);
    assert map[r.0 := r.1] != map[n := v] by {
      if r.0 == n {
        assert map[r.0 := r.1][n] == r.1;
      } else {
        assert n !in map[r.0 := r.1];
      }
    }
  }

  lemma EmptyTable(rw: Rewriter, empty: map<string, string>)
    requires empty == map[]
    ensures NewTable(rw, empty) == empty
  {
  }

  lemma AddApplies(rws: Rewriters, m: Meta, path: string, text: string)
    requires ValidPath(path) && OneKey(TargetOf(path))
    ensures Commutes(rws, m, Add(path, Text(text))) <==>
              Put(RenameMeta(rws, m), RenameTarget(rws, TargetOf(path)), Text(text)) == RenameResult(rws, Put(m, TargetOf(path), Text(text)))
  {
    PathRenamed(rws, path);
  }

  lemma BoundLabelPut(rws: Rewriters, n: string, v: string, empty: map<string, string>, one: map<string, string>)
    requires NewName(rws.labels, n) == n && one == empty[n := v]
    requires NewTable(rws.labels, one) != one && NewTable(rws.labels, empty) == empty
    ensures var m := Meta(Some(empty), None);
            Put(RenameMeta(rws, m), RenameTarget(rws, Label(n)), Text(v)) != RenameResult(rws, Put(m, Label(n), Text(v)))
  {
    var m := Meta(Some(empty), None);
    RenamedTables(rws, m.labels, m.annotations);
    RenamedTables(rws, Some(one), None);
    assert RenameMeta(rws, m) == m && RenameTarget(rws, Label(n)) == Label(n);
    var after := Meta(Some(one), None);
    assert RenameMeta(rws, after).labels.value != after.labels.value;
    assert Put(m, Label(n), Text(v)) == Some(after);
  }

  lemma BoundAnnotationPut(rws: Rewriters, n: string, v: string, empty: map<string, string>, one: map<string, string>)
    requires NewName(rws.annotations, n) == n && one == empty[n := v]
    requires NewTable(rws.annotations, one) != one && NewTable(rws.annotations, empty) == empty
    ensures var m := Meta(None, Some(empty));
            Put(RenameMeta(rws, m), RenameTarget(rws, Annotation(n)), Text(v)) != RenameResult(rws, Put(m, Annotation(n), Text(v)))
  {
    var m := Meta(None, Some(empty));
    RenamedTables(rws, m.labels, m.annotations);
    RenamedTables(rws, None, Some(one));
    assert RenameMeta(rws, m) == m && RenameTarget(rws, Annotation(n)) == Annotation(n);
    var after := Meta(None, Some(one));
    assert RenameMeta(rws, after).annotations.value != after.annotations.value;
    assert Put(m, Annotation(n), Text(v)) == Some(after);
  }

  lemma BoundRuleParts(rws: Rewriters, k: string, onLabels: bool)
    requires var rw := if onLabels then rws.labels else rws.annotations; WellFormed(rw) && k in rw.names && IsKV(k)
    ensures !AllCommute(rws)
  {
    var rw := if onLabels then rws.labels else rws.annotations;
    var table := if onLabels then LABELS else ANNOTATIONS;
    var (n, v) := SplitKV(k);
    var path := table + "/" + Encode(n);
    BoundName(rw, k);
    BoundRename(rw, k);
    BoundEntry(rw, n, v);
    EmptyTable(rw, map[]);
    KeyPath(table, n);
    var m := if onLabels then Meta(Some(map[]), None) else Meta(None, Some(map[]));
    if onLabels {
      BoundLabelPut(rws, n, v, map[], map[n := v]);
    } else {
      BoundAnnotationPut(rws, n, v, map[], map[n := v]);
    }
    AddApplies(rws, m, path, v);
    assert VisibleMeta(rws, m) && VisibleOp(rws, Add(path, Text(v)));
  }

  /** Exactly which rules let every patch be renamed: those that bind no rule to a value, because a path
      of a single key is renamed by the name alone. */
  lemma AllCommuteIff(rws: Rewriters)
    requires WellFormed(rws.labels) && WellFormed(rws.annotations)
    ensures AllCommute(rws) <==> Ready(rws)
  {
    if Ready(rws) {
      forall m, op | VisibleMeta(rws, m) && VisibleOp(rws, op)
        ensures Commutes(rws, m, op)
      {
        OperationCommutes(rws, m, op);
      }
    } else if !ValueFree(rws.labels) {
      var k :| k in rws.labels.names && IsKV(k);
      BoundRuleParts(rws, k, true);
    } else {
      var k :| k in rws.annotations.names && IsKV(k);
      BoundRuleParts(rws, k, false);
    }
  }
}

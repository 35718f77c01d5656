/** JSON values, and editing them at a path of field names. */
module RewriterJson {
  import opened Basics

  datatype Json = Null | Bool(flag: bool) | Num(text: string) | Str(text: string) | Arr(items: seq<Json>) | Obj(fields: map<string, Json>)

  type Path = seq<string>

  type Change = Json -> Json

  /** The value at a path, if it is there. */
  function Content(j: Json, path: Path): Option<Json>
    decreases |path|
  {
    if path == [] then Some(j)
    else if j.Obj? && path[0] in j.fields then Content(j.fields[path[0]], path[1..])
    else None
  }

  /** Changes the value at a path; nothing happens where there is none. */
  function At(j: Json, path: Path, f: Change): Json
    decreases |path|
  {
    if path == [] then f(j)
    else if j.Obj? && path[0] in j.fields then Obj(j.fields[path[0] := At(j.fields[path[0]], path[1..], f)])
    else j
  }

  function SetField(j: Json, k: string, v: Json): Json {
    if j.Obj? then Obj(j.fields[k := v]) else j
  }

  /** A field read as text; what is not there reads as the empty one. */
  function TextOf(j: Json, k: string): string {
    if j.Obj? && k in j.fields then
      match j.fields[k]
      case Str(s) => s
      case Num(s) => s
      case Bool(b) => if b then "true" else "false"
      case _ => ""
    else ""
  }

  function EachItem(j: Json, f: Change): Json {
    if j.Arr? then Arr(seq(|j.items|, i requires 0 <= i < |j.items| => f(j.items[i]))) else j
  }

  /** The source's loop over an array: each item is replaced by what the change makes of it. */
  method RewriteItems(items: seq<Json>, f: Change) returns (r: seq<Json>)
    ensures Arr(r) == EachItem(Arr(items), f)
  {
    r := [];
    for i := 0 to |items|
      invariant |r| == i && forall j :: 0 <= j < i ==> r[j] == f(items[j])
    {
      r := r + [f(items[i])];
    }
  }

  // ----- laws -----

  /** Two paths that part before either ends. */
  predicate Diverge(p: Path, q: Path) {
    exists i :: 0 <= i < |p| && i < |q| && p[i] != q[i]
  }

  lemma {:induction false} AtAgain(j: Json, p: Path, f: Change, g: Change)
    ensures At(At(j, p, f), p, g) == At(j, p, x => g(f(x)))
    decreases |p|
  {
    if p != [] && j.Obj? && p[0] in j.fields {
      AtAgain(j.fields[p[0]], p[1..], f, g);
    }
  }

  lemma {:induction false} AtIdentity(j: Json, p: Path, f: Change)
    requires Content(j, p).Some? ==> f(Content(j, p).value) == Content(j, p).value
    ensures At(j, p, f) == j
    decreases |p|
  {
    if p != [] && j.Obj? && p[0] in j.fields {
      AtIdentity(j.fields[p[0]], p[1..], f);
      assert j.fields[p[0] := j.fields[p[0]]] == j.fields;
    }
  }

  lemma DivergeTail(p: Path, q: Path)
    requires Diverge(p, q) && p[0] == q[0]
    ensures Diverge(p[1..], q[1..])
  {
    var i :| 0 <= i < |p| && i < |q| && p[i] != q[i];
    assert p[1..][i - 1] != q[1..][i - 1];
  }

  lemma {:induction false} AtCommute(j: Json, p: Path, f: Change, q: Path, g: Change)
    requires Diverge(p, q)
    ensures At(At(j, p, f), q, g) == At(At(j, q, g), p, f)
    decreases |p|
  {
    if j.Obj? && p[0] in j.fields && q[0] in j.fields {
      var a, b := j.fields[p[0]], j.fields[q[0]];
      if p[0] == q[0] {
        DivergeTail(p, q);
        AtCommute(a, p[1..], f, q[1..], g);
      } else {
        assert j.fields[p[0] := At(a, p[1..], f)][q[0] := At(b, q[1..], g)] ==
               j.fields[q[0] := At(b, q[1..], g)][p[0] := At(a, p[1..], f)];
      }
    }
  }

  lemma {:induction false} ContentElsewhere(j: Json, p: Path, f: Change, q: Path)
    requires Diverge(p, q)
    ensures Content(At(j, p, f), q) == Content(j, q)
    decreases |p|
  {
    if j.Obj? && p[0] in j.fields && p[0] == q[0] {
      DivergeTail(p, q);
      ContentElsewhere(j.fields[p[0]], p[1..], f, q[1..]);
    }
  }

  lemma {:induction false} AtSame(j: Json, p: Path, f: Change, g: Change)
    requires Content(j, p).Some? ==> f(Content(j, p).value) == g(Content(j, p).value)
    ensures At(j, p, f) == At(j, p, g)
    decreases |p|
  {
    if p != [] && j.Obj? && p[0] in j.fields {
      AtSame(j.fields[p[0]], p[1..], f, g);
    }
  }

  // ----- several edits -----

  datatype Edit = Edit(path: Path, change: Change)

  function Edits(j: Json, es: seq<Edit>): Json
    decreases |es|
  {
    if es == [] then j else Edits(At(j, es[0].path, es[0].change), es[1..])
  }

  predicate EditsApart(es: seq<Edit>) {
    forall i, k :: 0 <= i < k < |es| ==> Diverge(es[i].path, es[k].path)
  }

  predicate SamePaths(es: seq<Edit>, fs: seq<Edit>) {
    |es| == |fs| && forall i :: 0 <= i < |es| ==> es[i].path == fs[i].path
  }

  /** Each edit of the second list undoes the one of the first at the same place. */
  predicate Undoes(j: Json, es: seq<Edit>, fs: seq<Edit>) {
    && SamePaths(es, fs)
    && forall i :: 0 <= i < |es| && Content(j, es[i].path).Some? ==>
         fs[i].change(es[i].change(Content(j, es[i].path).value)) == Content(j, es[i].path).value
  }

  lemma {:induction false} EditsCommute(j: Json, es: seq<Edit>, p: Path, f: Change)
    requires forall i :: 0 <= i < |es| ==> Diverge(p, es[i].path)
    ensures At(Edits(j, es), p, f) == Edits(At(j, p, f), es)
    decreases |es|
  {
    if es != [] {
      assert forall i :: 0 <= i < |es[1..]| ==> es[1..][i] == es[i + 1];
      EditsCommute(At(j, es[0].path, es[0].change), es[1..], p, f);
      AtCommute(j, p, f, es[0].path, es[0].change);
    }
  }

  /** Edits at places apart from each other are undone together. */
  lemma {:induction false} EditsUndone(j: Json, es: seq<Edit>, fs: seq<Edit>)
    requires EditsApart(es) && Undoes(j, es, fs)
    ensures Edits(Edits(j, es), fs) == j
    decreases |es|
  {
    if es != [] {
      var p, f, g := es[0].path, es[0].change, fs[0].change;
      var rest, back := es[1..], fs[1..];
      assert forall i :: 0 <= i < |rest| ==> rest[i] == es[i + 1] && back[i] == fs[i + 1];
      EditsCommute(At(j, p, f), rest, p, g);
      AtAgain(j, p, f, g);
      AtIdentity(j, p, x => g(f(x)));
      EditsUndone(j, rest, back);
    }
  }

  lemma {:induction false} EditsJoin(j: Json, es: seq<Edit>, fs: seq<Edit>)
    ensures Edits(Edits(j, es), fs) == Edits(j, es + fs)
    decreases |es|
  {
    if es == [] {
      assert es + fs == fs;
    } else {
      EditsJoin(At(j, es[0].path, es[0].change), es[1..], fs);
      assert (es + fs)[1..] == es[1..] + fs && (es + fs)[0] == es[0];
    }
  }

  lemma {:induction false} ContentAfterEdits(j: Json, es: seq<Edit>, p: Path)
    requires forall i :: 0 <= i < |es| ==> Diverge(es[i].path, p)
    ensures Content(Edits(j, es), p) == Content(j, p)
    decreases |es|
  {
    if es != [] {
      assert forall i :: 0 <= i < |es[1..]| ==> es[1..][i] == es[i + 1];
      ContentElsewhere(j, es[0].path, es[0].change, p);
      ContentAfterEdits(At(j, es[0].path, es[0].change), es[1..], p);
    }
  }

  /** Editing inside the value of one field. */
  lemma {:induction false} EditsInside(j: Json, k: string, es: seq<Edit>)
    ensures At(j, [k], x => Edits(x, es)) == Edits(j, Under(k, es))
    decreases |es|
  {
    if es == [] {
      AtIdentity(j, [k], x => Edits(x, []));
    } else {
      var rest := es[1..];
      var f, g := ((x: Json) => At(x, es[0].path, es[0].change)), ((x: Json) => Edits(x, rest));
      assert Under(k, es)[1..] == Under(k, rest);
      AtInside(j, k, es[0]);
      EditsInside(At(j, [k], f), k, rest);
      AtAgain(j, [k], f, g);
      AtSame(j, [k], x => Edits(x, es), x => g(f(x)));
    }
  }

  function Under(k: string, es: seq<Edit>): (r: seq<Edit>)
    ensures |r| == |es| && forall i :: 0 <= i < |r| ==> r[i] == Edit([k] + es[i].path, es[i].change)
  {
    seq(|es|, i requires 0 <= i < |es| => Edit([k] + es[i].path, es[i].change))
  }

  lemma AtInside(j: Json, k: string, e: Edit)
    ensures At(j, [k] + e.path, e.change) == At(j, [k], x => At(x, e.path, e.change))
  {
    assert ([k] + e.path)[1..] == e.path && [k][1..] == [];
  }

  /** Replacing every item is undone item by item. */
  lemma ItemsUndone(j: Json, f: Change, g: Change)
    requires j.Arr? ==> forall i :: 0 <= i < |j.items| ==> g(f(j.items[i])) == j.items[i]
    ensures EachItem(EachItem(j, f), g) == j
  {
  }
}

/** Renaming and restoring of whole label maps and name lists. */
module RewriterMaps {
  import opened Basics
  import opened RewriterText
  import opened RewriterNames

  type Rewrite = (string, string) -> (string, string)

  /** No two entries end under one name. */
  predicate NoMerge(m: map<string, string>, f: Rewrite) {
    forall a, b :: a in m && b in m && a != b ==> f(a, m[a]).0 != f(b, m[b]).0
  }

  function Image(m: map<string, string>, f: Rewrite): map<string, string>
    requires NoMerge(m, f)
  {
    map k | k in m :: f(k, m[k]).0 := f(k, m[k]).1
  }

  /** The entries come in any order; when none of them merge the order does not matter. */
  method RewriteMap(m: map<string, string>, f: Rewrite) returns (result: map<string, string>)
    ensures forall n :: n in result <==> exists k :: k in m && f(k, m[k]).0 == n
    ensures forall n :: n in result ==> exists k :: k in m && f(k, m[k]) == (n, result[n])
    ensures NoMerge(m, f) ==> result == Image(m, f)
  {
    result := map[];
    var todo := m.Keys;
    while todo != {}
      invariant todo <= m.Keys
      invariant forall n :: n in result <==> exists k :: k in m.Keys - todo && f(k, m[k]).0 == n
      invariant forall n :: n in result ==> exists k :: k in m.Keys - todo && f(k, m[k]) == (n, result[n])
      decreases todo
    {
      var k :| k in todo;
      ghost var before, done := result, m.Keys - todo;
      todo := todo - {k};
      assert m.Keys - todo == done + {k};
      var (name, value) := f(k, m[k]);
      result := result[name := value];
      forall n | n in result
        ensures exists j :: j in m.Keys - todo && f(j, m[j]) == (n, result[n])
      {
        if n == name {
          assert f(k, m[k]) == (n, result[n]);
        } else {
          var j :| j in done && f(j, m[j]) == (n, before[n]);
          assert j in m.Keys - todo;
        }
      }
    }
    if NoMerge(m, f) {
      forall n | n in result
        ensures n in Image(m, f) && Image(m, f)[n] == result[n]
      {
        var k :| k in m && f(k, m[k]) == (n, result[n]);
        ImageAt(m, f, k);
      }
      forall n | n in Image(m, f)
        ensures n in result
      {
      }
    }
  }

  lemma ImageAt(m: map<string, string>, f: Rewrite, k: string)
    requires NoMerge(m, f) && k in m
    ensures f(k, m[k]).0 in Image(m, f) && Image(m, f)[f(k, m[k]).0] == f(k, m[k]).1
  {
    assert f(k, m[k]).0 in Image(m, f);
  }

  lemma SingleImage(f: Rewrite, n: string, v: string)
    ensures NoMerge(map[n := v], f) && Image(map[n := v], f) == map[f(n, v).0 := f(n, v).1]
  {
    ImageAt(map[n := v], f, n);
  }

  predicate UndoesEach(m: map<string, string>, f: Rewrite, g: Rewrite) {
    forall k :: k in m ==> g(f(k, m[k]).0, f(k, m[k]).1) == (k, m[k])
  }

  lemma ImageSource(m: map<string, string>, f: Rewrite, g: Rewrite, n: string) returns (k: string)
    requires NoMerge(m, f) && UndoesEach(m, f, g) && n in Image(m, f)
    ensures k in m && f(k, m[k]) == (n, Image(m, f)[n]) && g(n, Image(m, f)[n]) == (k, m[k])
  {
    k :| k in m && f(k, m[k]).0 == n;
    ImageAt(m, f, k);
  }

  lemma ImageApart(m: map<string, string>, f: Rewrite, g: Rewrite)
    requires NoMerge(m, f) && UndoesEach(m, f, g)
    ensures NoMerge(Image(m, f), g)
  {
    var im := Image(m, f);
    forall a, b | a in im && b in im && a != b
      ensures g(a, im[a]).0 != g(b, im[b]).0
    {
      var k := ImageSource(m, f, g, a);
      var l := ImageSource(m, f, g, b);
    }
  }

  lemma ImageHas(m: map<string, string>, f: Rewrite, g: Rewrite, k: string)
    requires NoMerge(m, f) && UndoesEach(m, f, g) && NoMerge(Image(m, f), g) && k in m
    ensures k in Image(Image(m, f), g) && Image(Image(m, f), g)[k] == m[k]
  {
    ImageAt(m, f, k);
    ImageAt(Image(m, f), g, f(k, m[k]).0);
  }

  lemma ImageOnly(m: map<string, string>, f: Rewrite, g: Rewrite, k: string)
    requires NoMerge(m, f) && UndoesEach(m, f, g) && NoMerge(Image(m, f), g) && k in Image(Image(m, f), g)
    ensures k in m
  {
    var im := Image(m, f);
    var n :| n in im && g(n, im[n]).0 == k;
    var l := ImageSource(m, f, g, n);
  }

  predicate Extends(a: map<string, string>, b: map<string, string>) {
    forall k :: k in b ==> k in a && a[k] == b[k]
  }

  lemma ImageExtends(m: map<string, string>, f: Rewrite, g: Rewrite)
    requires NoMerge(m, f) && UndoesEach(m, f, g) && NoMerge(Image(m, f), g)
    ensures Extends(Image(Image(m, f), g), m)
  {
    forall k | k in m
      ensures k in Image(Image(m, f), g) && Image(Image(m, f), g)[k] == m[k]
    {
      ImageHas(m, f, g, k);
    }
  }

  lemma ImageWithin(m: map<string, string>, f: Rewrite, g: Rewrite)
    requires NoMerge(m, f) && UndoesEach(m, f, g) && NoMerge(Image(m, f), g)
    ensures Image(Image(m, f), g).Keys <= m.Keys
  {
    forall k | k in Image(Image(m, f), g)
      ensures k in m
    {
      ImageOnly(m, f, g, k);
    }
  }

  lemma SameMap(a: map<string, string>, b: map<string, string>)
    requires Extends(a, b) && a.Keys <= b.Keys
    ensures a == b
  {
  }

  /** A rewriting that can be undone entry by entry can be undone on the whole map. */
  lemma ImageUndone(m: map<string, string>, f: Rewrite, g: Rewrite)
    requires NoMerge(m, f) && UndoesEach(m, f, g)
    ensures NoMerge(Image(m, f), g) && Image(Image(m, f), g) == m
  {
    ImageApart(m, f, g);
    ImageExtends(m, f, g);
    ImageWithin(m, f, g);
    SameMap(Image(Image(m, f), g), m);
  }

  function Renaming(rw: Rewriter): Rewrite {
    (n: string, v: string) => Rename(rw, n, v)
  }

  function Restoring(rw: Rewriter): Rewrite {
    (n: string, v: string) => Restore(rw, n, v)
  }

  // ----- restoring what the server holds -----

  /** A rule bound to values changes the value only. */
  predicate KeepsNames(rw: Rewriter) {
    forall k :: k in rw.names && IsKV(k) ==> KVName(rw.names[k]) == KVName(k)
  }

  predicate NonePreserved(m: map<string, string>) {
    forall n :: n in m ==> !IsPreserved(n)
  }

  lemma NewNameIgnoresValue(rw: Rewriter, n: string, v: string, w: string)
    requires WellFormed(rw) && KeepsNames(rw)
    ensures Rename(rw, n, v).0 == Rename(rw, n, w).0
  {
    if IsPreserved(n) {
    } else if !Apart(rw, n) {
      NoValueRule(rw, n, v);
      NoValueRule(rw, n, w);
    } else {
      NewNameWithValue(rw, n, v);
      NewNameWithValue(rw, n, w);
    }
  }

  lemma NewNameWithValue(rw: Rewriter, n: string, v: string)
    requires WellFormed(rw) && KeepsNames(rw) && Apart(rw, n) && !IsPreserved(n)
    ensures Rename(rw, n, v).0 == n
  {
    if JoinKV(n, v) in rw.names {
      assert NameRuleOk(rw, JoinKV(n, v));
      KVRead(n, v);
    }
  }

  lemma RestoreNeverMerges(rw: Rewriter, m: map<string, string>)
    requires WellFormed(rw) && KeepsNames(rw) && NonePreserved(m)
    ensures NoMerge(m, Restoring(rw))
  {
    forall a, b | a in m && b in m && a != b
      ensures Restore(rw, a, m[a]).0 != Restore(rw, b, m[b]).0
    {
      RenameRestoredIff(rw, a, m[a]);
      RenameRestoredIff(rw, b, m[b]);
      NewNameIgnoresValue(rw, Restore(rw, a, m[a]).0, Restore(rw, a, m[a]).1, Restore(rw, b, m[b]).1);
    }
  }

  lemma MovedNameMerges(rw: Rewriter, k: string) returns (m: map<string, string>)
    requires WellFormed(rw) && k in rw.names && IsKV(k) && KVName(rw.names[k]) != KVName(k)
    ensures NonePreserved(m) && !NoMerge(m, Restoring(rw))
  {
    assert NameRuleOk(rw, k);
    var (a, x) := SplitKV(k);
    var (b, y) := SplitKV(rw.names[k]);
    SplitJoined(k);
    SplitJoined(rw.names[k]);
    assert JoinKV(a, x) == k && JoinKV(b, y) == rw.names[k];
    UndoneByValue(rw, a, x);
    UnpreservedHead(a, x);
    UnpreservedHead(b, y);
    assert Restore(rw, b, y) == (a, x);
    assert Restore(rw, a, "") == (a, "");
    m := map[b := y, a := ""];
    assert Restoring(rw)(b, m[b]).0 == Restoring(rw)(a, m[a]).0;
  }

  lemma UnpreservedHead(n: string, v: string)
    requires !IsPreserved(JoinKV(n, v))
    ensures !IsPreserved(n)
  {
    assert n + ("=" + v) == JoinKV(n, v);
    if IsPreserved(n) {
      PreservedExtends(n, "=" + v);
    }
  }

  ghost predicate NeverMerges(rw: Rewriter) {
    forall m: map<string, string> :: NonePreserved(m) ==> NoMerge(m, Restoring(rw))
  }

  /** Restoring never merges two labels, whatever the map, exactly when rules bound to values keep the
      name they are bound to. */
  lemma NeverMergesIff(rw: Rewriter)
    requires WellFormed(rw)
    ensures NeverMerges(rw) <==> KeepsNames(rw)
  {
    if KeepsNames(rw) {
      forall m: map<string, string> | NonePreserved(m)
        ensures NoMerge(m, Restoring(rw))
      {
        RestoreNeverMerges(rw, m);
      }
    } else {
      SomeMapMerges(rw);
    }
  }

  lemma SomeMapMerges(rw: Rewriter)
    requires WellFormed(rw) && !KeepsNames(rw)
    ensures !NeverMerges(rw)
  {
    var k :| k in rw.names && IsKV(k) && KVName(rw.names[k]) != KVName(k);
    var m := MovedNameMerges(rw, k);
  }

  /** Renaming a restored map back gives the map, even where an original name and its renamed twin
      stand side by side. */
  lemma RestoredMapRenames(rw: Rewriter, m: map<string, string>)
    requires WellFormed(rw) && NonePreserved(m) && NoMerge(m, Restoring(rw))
    ensures var shown := Image(m, Restoring(rw));
            NoMerge(shown, Renaming(rw)) && Image(shown, Renaming(rw)) == m
  {
    forall k | k in m
      ensures Renaming(rw)(Restoring(rw)(k, m[k]).0, Restoring(rw)(k, m[k]).1) == (k, m[k])
    {
      RenameRestoredIff(rw, k, m[k]);
    }
    ImageUndone(m, Restoring(rw), Renaming(rw));
  }

  // ----- renaming what a client sends -----

  /** A map a client can work with. */
  predicate VisibleMap(rw: Rewriter, m: map<string, string>) {
    (forall n :: n in m ==> ClientVisible(rw, n, m[n])) && NoMerge(m, Renaming(rw))
  }

  lemma RenamedMapRestores(rw: Rewriter, m: map<string, string>)
    requires WellFormed(rw) && VisibleMap(rw, m)
    ensures var sent := Image(m, Renaming(rw));
            NoMerge(sent, Restoring(rw)) && Image(sent, Restoring(rw)) == m
  {
    forall k | k in m
      ensures Restoring(rw)(Renaming(rw)(k, m[k]).0, Renaming(rw)(k, m[k]).1) == (k, m[k])
    {
      RestoreRenamedIff(rw, k, m[k]);
    }
    ImageUndone(m, Renaming(rw), Restoring(rw));
  }

  /** With no rule bound to a value, names alone decide. */
  predicate ValueFree(rw: Rewriter) {
    forall k :: k in rw.names ==> !IsKV(k)
  }

  lemma ValueFreeNames(rw: Rewriter, n: string, v: string)
    requires WellFormed(rw) && ValueFree(rw)
    ensures Rename(rw, n, v) == (Rename(rw, n, "").0, v)
    ensures Restore(rw, n, v) == (Restore(rw, n, "").0, v)
    ensures ClientVisible(rw, n, v) <==> ClientVisible(rw, n, "")
  {
    NoKVKey(rw, n, v);
    NoKVKey(rw, TrimPrefix(n, PRESERVED), v);
  }

  lemma NoKVKey(rw: Rewriter, n: string, v: string)
    requires WellFormed(rw) && ValueFree(rw)
    ensures JoinKV(n, v) !in rw.names && JoinKV(n, v) !in rw.namesBack
  {
    assert JoinKV(n, v)[|n|] == '=';
    assert IsKV(JoinKV(n, v));
  }

  /** Then every map of names a client is shown can be renamed without loss. */
  lemma VisibleNamesDoNotMerge(rw: Rewriter, m: map<string, string>)
    requires WellFormed(rw) && ValueFree(rw) && forall n :: n in m ==> ClientVisible(rw, n, m[n])
    ensures VisibleMap(rw, m)
  {
    forall a, b | a in m && b in m && a != b
      ensures Rename(rw, a, m[a]).0 != Rename(rw, b, m[b]).0
    {
      VisibleNamesApart(rw, a, b, m[a], m[b]);
    }
  }

  lemma VisibleNamesApart(rw: Rewriter, a: string, b: string, v: string, w: string)
    requires WellFormed(rw) && ValueFree(rw) && ClientVisible(rw, a, v) && ClientVisible(rw, b, w) && a != b
    ensures Rename(rw, a, v).0 != Rename(rw, b, w).0
  {
    ValueFreeNames(rw, a, v);
    ValueFreeNames(rw, b, w);
    RestoreRenamedIff(rw, a, "");
    RestoreRenamedIff(rw, b, "");
    ValueFreeNames(rw, Rename(rw, a, "").0, "");
  }

  // ----- lists of names -----

  function RewrittenAll(names: seq<string>, f: Rewrite): (r: seq<string>)
    ensures |r| == |names| && forall i :: 0 <= i < |r| ==> r[i] == f(names[i], "").0
  {
    seq(|names|, i requires 0 <= i < |names| => f(names[i], "").0)
  }

  method RewriteSlice(names: seq<string>, f: Rewrite) returns (result: seq<string>)
    ensures result == RewrittenAll(names, f)
  {
    result := [];
    for i := 0 to |names|
      invariant |result| == i && forall j :: 0 <= j < i ==> result[j] == f(names[j], "").0
    {
      result := result + [f(names[i], "").0];
    }
  }

  predicate VisibleNames(rw: Rewriter, names: seq<string>) {
    forall i :: 0 <= i < |names| ==> ClientVisible(rw, names[i], "")
  }

  predicate ServerNames(names: seq<string>) {
    forall i :: 0 <= i < |names| ==> !IsPreserved(names[i])
  }

  lemma EmptyValueKept(rw: Rewriter, n: string)
    ensures Rename(rw, n, "").1 == "" && Restore(rw, n, "").1 == ""
  {
  }

  /** Lists of names round-trip in both directions. */
  lemma NameListsRoundTrip(rw: Rewriter, names: seq<string>)
    requires WellFormed(rw)
    ensures VisibleNames(rw, names) ==> RewrittenAll(RewrittenAll(names, Renaming(rw)), Restoring(rw)) == names
    ensures ServerNames(names) ==> RewrittenAll(RewrittenAll(names, Restoring(rw)), Renaming(rw)) == names
  {
    forall i | 0 <= i < |names|
      ensures ClientVisible(rw, names[i], "") ==> Restore(rw, Rename(rw, names[i], "").0, "").0 == names[i]
      ensures !IsPreserved(names[i]) ==> Rename(rw, Restore(rw, names[i], "").0, "").0 == names[i]
    {
      EmptyValueKept(rw, names[i]);
      RestoreRenamedIff(rw, names[i], "");
      RenameRestoredIff(rw, names[i], "");
    }
  }
}

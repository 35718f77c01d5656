/**
 Renaming and restoring of label, annotation and finalizer names by rules for whole names, for names
 with a value, and for prefixes. A name that is already original when restored is kept out of the
 client's sight under a prefix of its own.
 */
module RewriterNames {
  import opened Basics
  import opened RewriterText

  const PRESERVED := "preserved-original-"

  /** One replacement; it is bound to a value when both values are given. */
  datatype Rule = Rule(original: string, renamed: string, originalValue: string, renamedValue: string)

  datatype Replacements = Replacements(names: seq<Rule>, prefixes: seq<Rule>)

  /** The indexed rules. */
  datatype Rewriter = Rewriter(
    names: map<string, string>,
    namesBack: map<string, string>,
    prefixes: map<string, string>,
    prefixesBack: map<string, string>)

  function JoinKV(name: string, value: string): string {
    name + "=" + value
  }

  function SplitKV(s: string): (string, string) {
    var r := Cut(s, '=');
    if r.Some? then r.value else (s, "")
  }

  predicate HasValues(r: Rule) {
    r.originalValue != "" && r.renamedValue != ""
  }

  function OriginalKey(r: Rule): string {
    if HasValues(r) then JoinKV(r.original, r.originalValue) else r.original
  }

  function RenamedKey(r: Rule): string {
    if HasValues(r) then JoinKV(r.renamed, r.renamedValue) else r.renamed
  }

  /** The index of a rule list; a later rule for the same key wins. */
  function Index(rules: seq<Rule>): map<string, string> {
    if rules == [] then map[]
    else Index(rules[..|rules| - 1])[OriginalKey(rules[|rules| - 1]) := RenamedKey(rules[|rules| - 1])]
  }

  function IndexBack(rules: seq<Rule>): map<string, string> {
    if rules == [] then map[]
    else IndexBack(rules[..|rules| - 1])[RenamedKey(rules[|rules| - 1]) := OriginalKey(rules[|rules| - 1])]
  }

  function NewRewriter(r: Replacements): Rewriter {
    Rewriter(Index(r.names), IndexBack(r.names), Index(r.prefixes), IndexBack(r.prefixes))
  }

  method IndexRules(rules: seq<Rule>) returns (idx: map<string, string>)
    ensures idx == Index(rules)
  {
    idx := map[];
    for i := 0 to |rules|
      invariant idx == Index(rules[..i])
    {
      assert rules[..i + 1][..i] == rules[..i];
      var rule := rules[i];
      if rule.originalValue != "" && rule.renamedValue != "" {
        idx := idx[JoinKV(rule.original, rule.originalValue) := rule.renamed + "=" + rule.renamedValue];
        continue;
      }
      idx := idx[rule.original := rule.renamed];
    }
    assert rules[..|rules|] == rules;
  }

  method IndexRulesReverse(rules: seq<Rule>) returns (idx: map<string, string>)
    ensures idx == IndexBack(rules)
  {
    idx := map[];
    for i := 0 to |rules|
      invariant idx == IndexBack(rules[..i])
    {
      assert rules[..i + 1][..i] == rules[..i];
      var rule := rules[i];
      if rule.originalValue != "" && rule.renamedValue != "" {
        idx := idx[JoinKV(rule.renamed, rule.renamedValue) := rule.original + "=" + rule.originalValue];
        continue;
      }
      idx := idx[rule.renamed := rule.original];
    }
    assert rules[..|rules|] == rules;
  }

  // ----- one name -----

  predicate IsPreserved(name: string) {
    HasPrefix(name, PRESERVED)
  }

  /** Rewrites by one direction of the index: name with value, then whole name, then prefix. */
  function Rewritten(names: map<string, string>, prefixes: map<string, string>, name: string, value: string): (string, string) {
    if value != "" && JoinKV(name, value) in names then SplitKV(names[JoinKV(name, value)])
    else if name in names then (names[name], value)
    else
      var parts := Cut(name, '/');
      if parts.Some? && parts.value.0 in prefixes then (prefixes[parts.value.0] + "/" + parts.value.1, value)
      else (name, value)
  }

  /** Whether one direction of the index has anything to say about a name. */
  predicate Covered(names: map<string, string>, prefixes: map<string, string>, name: string, value: string) {
    || (value != "" && JoinKV(name, value) in names)
    || name in names
    || (var parts := Cut(name, '/'); parts.Some? && parts.value.0 in prefixes)
  }

  predicate IsOriginal(rw: Rewriter, name: string, value: string) {
    Covered(rw.names, rw.prefixes, name, value)
  }

  predicate IsRenamed(rw: Rewriter, name: string, value: string) {
    Covered(rw.namesBack, rw.prefixesBack, name, value)
  }

  function Rename(rw: Rewriter, name: string, value: string): (string, string) {
    if IsPreserved(name) then (TrimPrefix(name, PRESERVED), value)
    else Rewritten(rw.names, rw.prefixes, name, value)
  }

  function Restore(rw: Rewriter, name: string, value: string): (string, string) {
    if IsOriginal(rw, name, value) then (PRESERVED + name, value)
    else Rewritten(rw.namesBack, rw.prefixesBack, name, value)
  }

  // ----- well-formed rules -----

  predicate IsKV(k: string) {
    '=' in k
  }

  /** The name of a key that is bound to a value. */
  function KVName(k: string): string {
    SplitKV(k).0
  }

  predicate KVShape(k: string) {
    IsKV(k) ==> SplitKV(k).1 != "" && '=' !in SplitKV(k).1
  }

  predicate HasPrefixIn(name: string, prefixes: map<string, string>) {
    var parts := Cut(name, '/');
    parts.Some? && parts.value.0 in prefixes
  }

  function Reprefixed(name: string, prefixes: map<string, string>): string
    requires HasPrefixIn(name, prefixes)
  {
    var parts := Cut(name, '/').value;
    prefixes[parts.0] + "/" + parts.1
  }

  /** A name that no rule speaks of. */
  predicate Apart(rw: Rewriter, n: string) {
    n !in rw.names && n !in rw.namesBack && !HasPrefixIn(n, rw.prefixes) && !HasPrefixIn(n, rw.prefixesBack)
  }

  /** One name rule: it can be read backwards, its two sides lie on different sides of the rules, a
      name bound to values has no other rule, and no prefix rule contradicts it. */
  predicate NameRuleOk(rw: Rewriter, k: string)
    requires k in rw.names
  {
    var m := rw.names[k];
    && m in rw.namesBack && rw.namesBack[m] == k && k !in rw.namesBack && m !in rw.names
    && !IsPreserved(k) && !IsPreserved(m) && KVShape(k) && KVShape(m) && (IsKV(k) <==> IsKV(m))
    && (IsKV(k) ==> Apart(rw, KVName(k)) && Apart(rw, KVName(m)))
    && !HasPrefixIn(k, rw.prefixesBack) && !HasPrefixIn(m, rw.prefixes)
    && (HasPrefixIn(k, rw.prefixes) ==> m == Reprefixed(k, rw.prefixes))
    && (HasPrefixIn(m, rw.prefixesBack) ==> k == Reprefixed(m, rw.prefixesBack))
  }

  predicate PrefixRuleOk(rw: Rewriter, p: string)
    requires p in rw.prefixes
  {
    var q := rw.prefixes[p];
    && q in rw.prefixesBack && rw.prefixesBack[q] == p && p !in rw.prefixesBack && q !in rw.prefixes
    && !IsPreserved(p) && !IsPreserved(q) && '/' !in p && '/' !in q
  }

  predicate WellFormed(rw: Rewriter) {
    && (forall k :: k in rw.names ==> NameRuleOk(rw, k))
    && (forall m :: m in rw.namesBack ==> rw.namesBack[m] in rw.names && rw.names[rw.namesBack[m]] == m)
    && (forall p :: p in rw.prefixes ==> PrefixRuleOk(rw, p))
    && (forall q :: q in rw.prefixesBack ==> rw.prefixesBack[q] in rw.prefixes && rw.prefixes[rw.prefixesBack[q]] == q)
  }

  /** The same rules read in the other direction. */
  function Flipped(rw: Rewriter): Rewriter {
    Rewriter(rw.namesBack, rw.names, rw.prefixesBack, rw.prefixes)
  }

  lemma FlippedWellFormed(rw: Rewriter)
    requires WellFormed(rw)
    ensures WellFormed(Flipped(rw))
  {
    var fl := Flipped(rw);
    forall m | m in fl.names
      ensures NameRuleOk(fl, m)
    {
      assert NameRuleOk(rw, rw.namesBack[m]);
    }
    forall q | q in fl.prefixes
      ensures PrefixRuleOk(fl, q)
    {
      assert PrefixRuleOk(rw, rw.prefixesBack[q]);
    }
  }

  // ----- one direction undoes the other -----

  /** A key with one separator can be read in one way only. */
  lemma KVRead(name: string, value: string)
    requires KVShape(JoinKV(name, value))
    ensures SplitKV(JoinKV(name, value)) == (name, value) && '=' !in name && IsKV(JoinKV(name, value))
  {
    var k := JoinKV(name, value);
    assert k[|name|] == '=';
    var parts := Cut(k, '=').value;
    forall i | 0 <= i < |parts.0|
      ensures k[i] != '='
    {
      assert parts.0[i] in parts.0;
    }
    forall i | |parts.0| < i < |k|
      ensures k[i] != '='
    {
      assert parts.1[i - |parts.0| - 1] in parts.1;
    }
    assert |name| == |parts.0|;
    assert k[..|name|] == name == parts.0;
    assert k[|name| + 1..] == value == parts.1;
  }

  lemma PreservedExtends(head: string, tail: string)
    requires IsPreserved(head)
    ensures IsPreserved(head + tail)
  {
    assert (head + tail)[..|PRESERVED|] == head[..|PRESERVED|];
  }

  /** A name with a prefix is kept from the client only if its prefix is. */
  lemma PreservedPrefix(p: string, r: string)
    requires IsPreserved(p + "/" + r)
    ensures IsPreserved(p)
  {
    var n := p + "/" + r;
    assert n[|p|] == '/';
    forall i | 0 <= i < |PRESERVED|
      ensures n[i] != '/' && n[i] == PRESERVED[i]
    {
      assert PRESERVED[i] in PRESERVED;
    }
    assert p[..|PRESERVED|] == n[..|PRESERVED|];
  }

  lemma SplitJoined(k: string)
    requires IsKV(k)
    ensures k == JoinKV(SplitKV(k).0, SplitKV(k).1)
  {
  }

  /** What rewriting in one direction comes to, and that the other direction undoes it. */
  predicate Undone(rw: Rewriter, name: string, value: string) {
    var (n, v) := Rewritten(rw.names, rw.prefixes, name, value);
    && Rewritten(rw.namesBack, rw.prefixesBack, n, v) == (name, value)
    && (n, v) != (name, value)
    && !Covered(rw.names, rw.prefixes, n, v) && Covered(rw.namesBack, rw.prefixesBack, n, v)
    && !IsPreserved(n)
  }

  lemma UndoneByValue(rw: Rewriter, name: string, value: string)
    requires value != "" && JoinKV(name, value) in rw.names && NameRuleOk(rw, JoinKV(name, value))
    ensures Undone(rw, name, value)
  {
    var k := JoinKV(name, value);
    var m := rw.names[k];
    KVRead(name, value);
    var (n, v) := SplitKV(m);
    SplitJoined(m);
    assert m == n + ("=" + v);
    if IsPreserved(n) {
      PreservedExtends(n, "=" + v);
    }
  }

  /** A name with a rule of its own, or under a prefix rule, is bound to no value. */
  lemma NoValueRule(rw: Rewriter, n: string, v: string)
    requires WellFormed(rw) && !Apart(rw, n)
    ensures JoinKV(n, v) !in rw.names && JoinKV(n, v) !in rw.namesBack
  {
    var k := JoinKV(n, v);
    if k in rw.names {
      assert NameRuleOk(rw, k);
      KVRead(n, v);
    } else if k in rw.namesBack {
      assert NameRuleOk(rw, rw.namesBack[k]);
      KVRead(n, v);
    }
  }

  lemma UndoneByName(rw: Rewriter, name: string, value: string)
    requires WellFormed(rw) && name in rw.names
    ensures Undone(rw, name, value)
  {
    assert NameRuleOk(rw, name);
    var m := rw.names[name];
    NoValueRule(rw, name, value);
    NoValueRule(rw, m, value);
  }

  lemma UndoneByPrefix(rw: Rewriter, name: string, value: string)
    requires WellFormed(rw) && name !in rw.names && HasPrefixIn(name, rw.prefixes)
    ensures Undone(rw, name, value)
  {
    var (p, r) := Cut(name, '/').value;
    assert PrefixRuleOk(rw, p);
    var q := rw.prefixes[p];
    var n := q + "/" + r;
    CutJoined(q, '/', r);
    CutJoined(p, '/', r);
    NoValueRule(rw, name, value);
    NoValueRule(rw, n, value);
    if IsPreserved(n) {
      PreservedPrefix(q, r);
    }
  }

  lemma UndoneWhenCovered(rw: Rewriter, name: string, value: string)
    requires WellFormed(rw) && Covered(rw.names, rw.prefixes, name, value)
    ensures Undone(rw, name, value)
  {
    if value != "" && JoinKV(name, value) in rw.names {
      UndoneByValue(rw, name, value);
    } else if name in rw.names {
      UndoneByName(rw, name, value);
    } else {
      UndoneByPrefix(rw, name, value);
    }
  }

  /** A name kept from the client under its prefix has no rule of its own. */
  lemma PreservedUncovered(rw: Rewriter, name: string, value: string)
    requires WellFormed(rw) && IsPreserved(name)
    ensures !Covered(rw.names, rw.prefixes, name, value)
  {
    PreservedExtends(name, "=" + value);
    assert name + ("=" + value) == JoinKV(name, value);
    if Cut(name, '/').Some? {
      PreservedPrefix(Cut(name, '/').value.0, Cut(name, '/').value.1);
    }
  }

  /** Renaming what was restored gives the name back exactly when it was not kept from the client. */
  lemma RenameRestoredIff(rw: Rewriter, name: string, value: string)
    requires WellFormed(rw)
    ensures var (n, v) := Restore(rw, name, value);
            Rename(rw, n, v) == (name, value) <==> !IsPreserved(name)
  {
    if IsPreserved(name) {
      PreservedUncovered(rw, name, value);
      FlippedWellFormed(rw);
      PreservedUncovered(Flipped(rw), name, value);
      assert |TrimPrefix(name, PRESERVED)| < |name|;
    } else if IsOriginal(rw, name, value) {
      TrimAdded(PRESERVED, name);
      assert IsPreserved(PRESERVED + name);
    } else if IsRenamed(rw, name, value) {
      FlippedWellFormed(rw);
      UndoneWhenCovered(Flipped(rw), name, value);
    }
  }

  /** The names a client works with: those it is shown. */
  predicate ClientVisible(rw: Rewriter, name: string, value: string) {
    if IsPreserved(name) then IsOriginal(rw, TrimPrefix(name, PRESERVED), value)
    else IsOriginal(rw, name, value) || !IsRenamed(rw, name, value)
  }

  /** Restoring what was renamed gives the name back exactly for the names a client is shown. */
  lemma RestoreRenamedIff(rw: Rewriter, name: string, value: string)
    requires WellFormed(rw)
    ensures var (n, v) := Rename(rw, name, value);
            Restore(rw, n, v) == (name, value) <==> ClientVisible(rw, name, value)
  {
    FlippedWellFormed(rw);
    if IsPreserved(name) {
      var x := TrimPrefix(name, PRESERVED);
      AddTrimmed(PRESERVED, name);
      if !IsOriginal(rw, x, value) && IsRenamed(rw, x, value) {
        UndoneWhenCovered(Flipped(rw), x, value);
      }
    } else if IsOriginal(rw, name, value) {
      UndoneWhenCovered(rw, name, value);
    } else if IsRenamed(rw, name, value) {
      UndoneWhenCovered(Flipped(rw), name, value);
    }
  }

  /** What a client is shown is always something it can work with. */
  lemma RestoredIsVisible(rw: Rewriter, name: string, value: string)
    requires WellFormed(rw) && !IsPreserved(name)
    ensures var (n, v) := Restore(rw, name, value); ClientVisible(rw, n, v)
  {
    RenameRestoredIff(rw, name, value);
    var (n, v) := Restore(rw, name, value);
    RestoreRenamedIff(rw, n, v);
  }
}

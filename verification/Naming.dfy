/**
 The name of the catalog object of one chart: a readable part made of the repository and the chart,
 and a hash of the two. The lower-casing of text and the hash are parameters.
 */
module Naming {

  const PART_LIMIT := 20
  const HASH_LENGTH := 12

  predicate IsAlphanumeric(c: char) {
    'a' <= c <= 'z' || '0' <= c <= '9'
  }

  predicate IsEdge(c: char) {
    c == '-' || c == '.'
  }

  predicate IsNameChar(c: char) {
    IsAlphanumeric(c) || IsEdge(c)
  }

  function Clean(c: char): char {
    if IsNameChar(c) then c else '-'
  }

  function Sanitized(s: string): (r: string)
    ensures |r| == |s| && forall i :: 0 <= i < |s| ==> r[i] == Clean(s[i])
  {
    seq(|s|, i requires 0 <= i < |s| => Clean(s[i]))
  }

  function TrimRight(s: string): (r: string)
    ensures r <= s && (r == "" || !IsEdge(r[|r| - 1]))
  {
    if s == "" || !IsEdge(s[|s| - 1]) then s else TrimRight(s[..|s| - 1])
  }

  function TrimLeft(s: string): (r: string)
    ensures |r| <= |s| && s[|s| - |r|..] == r && (r == "" || !IsEdge(r[0]))
  {
    if s == "" || !IsEdge(s[0]) then s else TrimLeft(s[1..])
  }

  function Trim(s: string): string {
    TrimLeft(TrimRight(s))
  }

  function Cut(s: string): (r: string)
    ensures r <= s && |r| <= PART_LIMIT
  {
    if |s| > PART_LIMIT then s[..PART_LIMIT] else s
  }

  function Readable(repo: string, chart: string): string {
    Trim(TrimRight(Cut(repo)) + "-chart-" + Cut(chart))
  }

  /** A dot is legal only between two alphanumerics. */
  predicate StrayDot(s: string, i: nat)
    requires i < |s|
  {
    0 < i < |s| - 1 && s[i] == '.' && (!IsAlphanumeric(s[i - 1]) || !IsAlphanumeric(s[i + 1]))
  }

  function Undotted(s: string): (r: string)
    ensures |r| == |s|
  {
    seq(|s|, i requires 0 <= i < |s| => if StrayDot(s, i) then '-' else s[i])
  }

  function Collapsed(s: string): string {
    if s == "" then ""
    else
      var n := |s| - 1;
      if n > 0 && s[n] == '-' && s[n - 1] == '-' then Collapsed(s[..n]) else Collapsed(s[..n]) + [s[n]]
  }

  /** What the hash covers: the names as they are, not the readable part. */
  function HashedText(repo: string, chart: string): string {
    repo + "\0" + chart
  }

  function ObjectName(lower: string -> string, hash: string -> string, repo: string, chart: string): string {
    Collapsed(Undotted(Readable(Sanitized(lower(repo)), Sanitized(lower(chart))))) + "-" + hash(HashedText(repo, chart))
  }

  // ----- the loops -----

  method Sanitize(lower: string -> string, s: string) returns (b: string)
    ensures b == Sanitized(lower(s))
  {
    var lowered := lower(s);
    b := "";
    for i := 0 to |lowered|
      invariant b == Sanitized(lowered)[..i]
    {
      var r := lowered[i];
      if 'a' <= r <= 'z' || '0' <= r <= '9' || r == '.' || r == '-' {
        b := b + [r];
      } else {
        b := b + ['-'];
      }
    }
  }

  method CollapseDashes(s: string) returns (b: string)
    ensures b == Collapsed(s)
  {
    b := "";
    for i := 0 to |s|
      invariant b == Collapsed(s[..i])
    {
      assert s[..i + 1][..i] == s[..i];
      if s[i] == '-' && i > 0 && s[i - 1] == '-' {
        continue;
      }
      b := b + [s[i]];
    }
    assert s[..|s|] == s;
  }

  /** Turns stray dots into dashes, in place. */
  method ReplaceStrayDots(readable: array<char>)
    modifies readable
    ensures readable[..] == Undotted(old(readable[..]))
  {
    ghost var before := readable[..];
    var i := 1;
    while i < readable.Length - 1
      invariant 1 <= i
      invariant forall j :: 0 <= j < readable.Length ==>
                  readable[j] == if j < i then Undotted(before)[j] else before[j]
    {
      if readable[i] == '.' && (!IsAlphanumeric(readable[i - 1]) || !IsAlphanumeric(readable[i + 1])) {
        readable[i] := '-';
      }
      i := i + 1;
    }
  }

  /** The readable part, before the dots are looked at. */
  method ReadablePart(repoPart: string, chartPart: string) returns (text: string)
    ensures text == Readable(repoPart, chartPart)
  {
    var head := if |repoPart| > 20 then TrimRight(repoPart[..20]) else TrimRight(repoPart);
    var tail := if |chartPart| > 20 then chartPart[..20] else chartPart;
    assert head == TrimRight(Cut(repoPart)) && tail == Cut(chartPart);
    text := Trim(head + "-chart-" + tail);
  }

  method ReplaceDots(text: string) returns (r: string)
    ensures r == Undotted(text)
  {
    var readable := new char[|text|](i requires 0 <= i < |text| => text[i]);
    assert readable[..] == text;
    ReplaceStrayDots(readable);
    r := readable[..];
  }

  method ChartObjectName(lower: string -> string, hash: string -> string, repo: string, chart: string) returns (name: string)
    ensures name == ObjectName(lower, hash, repo, chart)
  {
    var repoPart := Sanitize(lower, repo);
    var chartPart := Sanitize(lower, chart);
    var text := ReadablePart(repoPart, chartPart);
    var readable := ReplaceDots(text);
    var collapsed := CollapseDashes(readable);
    name := collapsed + "-" + hash(HashedText(repo, chart));
  }

  // ----- valid names -----

  /** The labels of a name, as the dots separate them. */
  function Labels(s: string): (r: seq<string>)
    ensures r != []
  {
    if s == "" then [""]
    else if s[|s| - 1] == '.' then Labels(s[..|s| - 1]) + [""]
    else
      var front := Labels(s[..|s| - 1]);
      front[..|front| - 1] + [front[|front| - 1] + [s[|s| - 1]]]
  }

  /** A label in the sense of section 2.1 of RFC 1123. */
  predicate IsLabel(l: string) {
    && 0 < |l| <= 63 && IsAlphanumeric(l[0]) && IsAlphanumeric(l[|l| - 1])
    && forall i :: 0 <= i < |l| ==> IsAlphanumeric(l[i]) || l[i] == '-'
  }

  predicate IsSubdomain(s: string) {
    |s| <= 253 && forall i :: 0 <= i < |Labels(s)| ==> IsLabel(Labels(s)[i])
  }

  predicate NoDoubleDash(s: string) {
    forall i :: 0 < i < |s| ==> !(s[i - 1] == '-' && s[i] == '-')
  }

  /** Only name characters, and every dot stands between alphanumerics as far as the text goes. */
  predicate WellDotted(s: string) {
    && (forall i :: 0 <= i < |s| ==> IsNameChar(s[i]))
    && forall i :: 0 <= i < |s| && s[i] == '.' ==>
         0 < i && IsAlphanumeric(s[i - 1]) && (i + 1 < |s| ==> IsAlphanumeric(s[i + 1]))
  }

  predicate Bounded(s: string) {
    s != "" && IsAlphanumeric(s[0]) && IsAlphanumeric(s[|s| - 1])
  }

  /** A label but for its last character, which may still be a dash. */
  predicate LabelBegun(l: string) {
    && l != "" && IsAlphanumeric(l[0])
    && forall i :: 0 <= i < |l| ==> IsAlphanumeric(l[i]) || l[i] == '-'
  }

  /** All labels but the last are labels; the last is empty after a dot and otherwise ends with the text. */
  predicate Begun(ls: seq<string>, s: string)
    requires ls != [] && s != ""
  {
    && (forall i :: 0 <= i < |ls| - 1 ==> IsLabel(ls[i]))
    && var l := ls[|ls| - 1];
       if s[|s| - 1] == '.' then l == ""
       else LabelBegun(l) && |l| <= |s| && l[|l| - 1] == s[|s| - 1]
  }

  lemma DotCloses(ls: seq<string>, s: string)
    requires ls != [] && s != "" && |s| < 63 && Begun(ls, s) && IsAlphanumeric(s[|s| - 1])
    ensures Begun(ls + [""], s + ['.'])
  {
    assert IsLabel(ls[|ls| - 1]);
  }

  lemma CharExtends(ls: seq<string>, s: string, c: char)
    requires ls != [] && s != "" && |s| < 63 && Begun(ls, s)
    requires IsAlphanumeric(c) || (c == '-' && s[|s| - 1] != '.')
    ensures Begun(ls[..|ls| - 1] + [ls[|ls| - 1] + [c]], s + [c])
  {
    var l := ls[|ls| - 1] + [c];
    assert LabelBegun(l);
    assert (s + [c])[|s|] == c;
  }

  lemma {:induction false} LabelsBegun(s: string)
    requires s != "" && |s| <= 63 && WellDotted(s) && IsAlphanumeric(s[0])
    ensures Begun(Labels(s), s)
  {
    var n := |s| - 1;
    var front, c := s[..n], s[n];
    assert s == front + [c];
    if n == 0 {
      assert Labels(front) == [""];
    } else {
      LabelsBegun(front);
      if c == '.' {
        DotCloses(Labels(front), front);
      } else {
        CharExtends(Labels(front), front, c);
      }
    }
  }

  lemma WellDottedIsSubdomain(s: string)
    requires Bounded(s) && WellDotted(s) && |s| <= 63
    ensures IsSubdomain(s)
  {
    LabelsBegun(s);
  }

  predicate NameChars(s: string) {
    forall i :: 0 <= i < |s| ==> IsNameChar(s[i])
  }

  lemma TrimShape(s: string, k: nat)
    requires NameChars(s) && k < |s| && !IsEdge(s[k])
    ensures var r := Trim(s); Bounded(r) && |r| <= |s| && NameChars(r)
  {
    TrimRightKeeps(s, k);
    var right := TrimRight(s);
    assert right[k] == s[k];
    TrimLeftKeeps(right, k);
    var r := TrimLeft(right);
    assert r == right[|right| - |r|..];
    assert r[|r| - 1] == right[|right| - 1];
  }

  lemma ReadableShape(repo: string, chart: string)
    requires NameChars(repo) && NameChars(chart)
    ensures var r := Readable(repo, chart); Bounded(r) && |r| <= 47 && NameChars(r)
  {
    var head := TrimRight(Cut(repo));
    var all := head + "-chart-" + Cut(chart);
    assert NameChars(head) && NameChars("-chart-") && NameChars(Cut(chart));
    assert NameChars(all);
    assert all[|head| + 1] == 'c';
    TrimShape(all, |head| + 1);
  }

  lemma {:induction false} TrimRightKeeps(s: string, k: nat)
    requires k < |s| && !IsEdge(s[k])
    ensures k < |TrimRight(s)|
    decreases |s|
  {
    if IsEdge(s[|s| - 1]) {
      TrimRightKeeps(s[..|s| - 1], k);
    }
  }

  lemma {:induction false} TrimLeftKeeps(s: string, k: nat)
    requires k < |s| && !IsEdge(s[k])
    ensures TrimLeft(s) != ""
    decreases |s|
  {
    if IsEdge(s[0]) {
      TrimLeftKeeps(s[1..], k - 1);
    }
  }

  lemma UndottedIsWellDotted(s: string)
    requires Bounded(s) && NameChars(s)
    ensures WellDotted(Undotted(s)) && Bounded(Undotted(s))
  {
  }

  lemma {:induction false} CollapsedShape(s: string)
    requires WellDotted(s)
    ensures var r := Collapsed(s);
            && |r| <= |s| && WellDotted(r) && NoDoubleDash(r)
            && (s != "" ==> r != "" && r[0] == s[0] && r[|r| - 1] == s[|s| - 1])
  {
    if s != "" {
      CollapsedShape(s[..|s| - 1]);
    }
  }

  predicate IsHash(h: string) {
    |h| == HASH_LENGTH && forall i :: 0 <= i < |h| ==> '0' <= h[i] <= '9' || 'a' <= h[i] <= 'f'
  }

  lemma Suffixed(s: string, h: string)
    requires Bounded(s) && WellDotted(s) && NoDoubleDash(s) && |s| <= 47 && IsHash(h)
    ensures var name := s + "-" + h; Bounded(name) && WellDotted(name) && NoDoubleDash(name) && |name| <= 60
  {
    var name := s + "-" + h;
    forall i | 0 <= i < |name|
      ensures IsNameChar(name[i])
      ensures name[i] == '.' ==> 0 < i && IsAlphanumeric(name[i - 1]) && i + 1 < |name| && IsAlphanumeric(name[i + 1])
      ensures i > 0 ==> !(name[i - 1] == '-' && name[i] == '-')
    {
      if i < |s| {
        assert name[i] == s[i];
      } else if i > |s| {
        assert name[i] == h[i - |s| - 1];
      }
    }
  }

  /** Whatever the repository and the chart are called, the name is a lower-case DNS subdomain without
      a double dash, of at most 60 characters. */
  lemma NameIsValid(lower: string -> string, hash: string -> string, repo: string, chart: string)
    requires IsHash(hash(HashedText(repo, chart)))
    ensures var name := ObjectName(lower, hash, repo, chart);
            IsSubdomain(name) && NoDoubleDash(name) && |name| <= 60
  {
    var r := Readable(Sanitized(lower(repo)), Sanitized(lower(chart)));
    ReadableShape(Sanitized(lower(repo)), Sanitized(lower(chart)));
    UndottedIsWellDotted(r);
    CollapsedShape(Undotted(r));
    Suffixed(Collapsed(Undotted(r)), hash(HashedText(repo, chart)));
    WellDottedIsSubdomain(ObjectName(lower, hash, repo, chart));
  }

  lemma SameEnds(s: string, t: string, h: string, k: string)
    requires |h| == |k| && s + "-" + h == t + "-" + k
    ensures h == k
  {
    var x, y := s + "-" + h, t + "-" + k;
    assert x[|x| - |h|..] == h && y[|y| - |k|..] == k;
  }

  lemma HashedTextApart(repo: string, c: string, d: string)
    requires c != d
    ensures HashedText(repo, c) != HashedText(repo, d)
  {
    var n := |repo| + 1;
    assert HashedText(repo, c)[n..] == c && HashedText(repo, d)[n..] == d;
  }

  /** Two charts of a repository share an object name only if their hashes collide. */
  lemma SharedNameIsACollision(lower: string -> string, hash: string -> string, repo: string, c: string, d: string)
    requires |hash(HashedText(repo, c))| == |hash(HashedText(repo, d))|
    requires ObjectName(lower, hash, repo, c) == ObjectName(lower, hash, repo, d) && c != d
    ensures hash(HashedText(repo, c)) == hash(HashedText(repo, d)) && HashedText(repo, c) != HashedText(repo, d)
  {
    var prefixOf := (chart: string) => Collapsed(Undotted(Readable(Sanitized(lower(repo)), Sanitized(lower(chart)))));
    SameEnds(prefixOf(c), prefixOf(d), hash(HashedText(repo, c)), hash(HashedText(repo, d)));
    HashedTextApart(repo, c, d);
  }

  /** Whatever charts a repository has, their object names are told apart by their hashes. */
  lemma NamesApart(lower: string -> string, hash: string -> string, repo: string, charts: set<string>)
    requires forall c :: c in charts ==> |hash(HashedText(repo, c))| == HASH_LENGTH
    requires forall c, d :: c in charts && d in charts && c != d ==> hash(HashedText(repo, c)) != hash(HashedText(repo, d))
    ensures forall c, d :: c in charts && d in charts && ObjectName(lower, hash, repo, c) == ObjectName(lower, hash, repo, d) ==> c == d
  {
    forall c, d | c in charts && d in charts && ObjectName(lower, hash, repo, c) == ObjectName(lower, hash, repo, d)
      ensures c == d
    {
      if c != d {
        SharedNameIsACollision(lower, hash, repo, c, d);
      }
    }
  }
}

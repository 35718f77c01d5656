/**
 The order catalog versions are listed in: versions that parse come before those that do not, then
 by descending precedence (section 11 of SemVer 2.0.0), then by descending text. The parser is a
 parameter.
 */
module CatalogOrder {
  import opened Basics

  datatype Identifier = Numeric(n: nat) | Text(s: string)

  /** A parsed version; build metadata takes no part in precedence. */
  datatype SemVer = SemVer(major: nat, minor: nat, patch: nat, pre: seq<Identifier>)

  type Parser = string -> Option<SemVer>

  function CompareNumbers(a: int, b: int): int {
    if a < b then -1 else if a > b then 1 else 0
  }

  function CompareTexts(s: string, t: string): int {
    if s == "" || t == "" then CompareNumbers(|s|, |t|)
    else if s[0] != t[0] then CompareNumbers(s[0] as int, t[0] as int)
    else CompareTexts(s[1..], t[1..])
  }

  /** Numeric identifiers come before textual ones. */
  function CompareIdentifiers(a: Identifier, b: Identifier): int {
    match (a, b)
    case (Numeric(m), Numeric(n)) => CompareNumbers(m, n)
    case (Numeric(_), Text(_)) => -1
    case (Text(_), Numeric(_)) => 1
    case (Text(s), Text(t)) => CompareTexts(s, t)
  }

  /** Field by field; when all shared fields agree the shorter list comes first. */
  function CompareLists(a: seq<Identifier>, b: seq<Identifier>): int {
    if a == [] || b == [] then CompareNumbers(|a|, |b|)
    else if CompareIdentifiers(a[0], b[0]) != 0 then CompareIdentifiers(a[0], b[0])
    else CompareLists(a[1..], b[1..])
  }

  /** A release comes after its pre-releases. */
  function ComparePre(a: seq<Identifier>, b: seq<Identifier>): int {
    if a == [] && b == [] then 0 else if a == [] then 1 else if b == [] then -1 else CompareLists(a, b)
  }

  function Compare(a: SemVer, b: SemVer): int {
    if a.major != b.major then CompareNumbers(a.major, b.major)
    else if a.minor != b.minor then CompareNumbers(a.minor, b.minor)
    else if a.patch != b.patch then CompareNumbers(a.patch, b.patch)
    else ComparePre(a.pre, b.pre)
  }

  /** The comparator the catalog sorts with. */
  predicate Before(parse: Parser, v: string, w: string) {
    var l, r := parse(v), parse(w);
    if l.Some? != r.Some? then l.Some?
    else if l.Some? && Compare(l.value, r.value) != 0 then Compare(l.value, r.value) > 0
    else CompareTexts(v, w) > 0
  }

  // ----- each comparison is a total preorder -----

  lemma {:induction false} TextsAntisymmetric(s: string, t: string)
    ensures CompareTexts(s, t) == -CompareTexts(t, s)
    ensures CompareTexts(s, t) == 0 <==> s == t
  {
    if s != "" && t != "" && s[0] == t[0] {
      TextsAntisymmetric(s[1..], t[1..]);
      if CompareTexts(s, t) == 0 {
        assert s == [s[0]] + s[1..] && t == [t[0]] + t[1..];
      }
    }
  }

  lemma {:induction false} TextsTransitive(s: string, t: string, u: string)
    requires CompareTexts(s, t) <= 0 && CompareTexts(t, u) <= 0
    ensures CompareTexts(s, u) <= 0
  {
    if s != "" && t != "" && u != "" && s[0] == t[0] == u[0] {
      TextsTransitive(s[1..], t[1..], u[1..]);
    }
  }

  lemma IdentifiersAntisymmetric(a: Identifier, b: Identifier)
    ensures CompareIdentifiers(a, b) == -CompareIdentifiers(b, a)
    ensures CompareIdentifiers(a, b) == 0 <==> a == b
  {
    if a.Text? && b.Text? {
      TextsAntisymmetric(a.s, b.s);
    }
  }

  lemma IdentifiersTransitive(a: Identifier, b: Identifier, c: Identifier)
    requires CompareIdentifiers(a, b) <= 0 && CompareIdentifiers(b, c) <= 0
    ensures CompareIdentifiers(a, c) <= 0
  {
    if a.Text? && b.Text? && c.Text? {
      TextsTransitive(a.s, b.s, c.s);
    }
  }

  lemma {:induction false} ListsAntisymmetric(a: seq<Identifier>, b: seq<Identifier>)
    ensures CompareLists(a, b) == -CompareLists(b, a)
    ensures CompareLists(a, b) == 0 <==> a == b
  {
    if a != [] && b != [] {
      IdentifiersAntisymmetric(a[0], b[0]);
      ListsAntisymmetric(a[1..], b[1..]);
      if CompareLists(a, b) == 0 {
        assert a == [a[0]] + a[1..] && b == [b[0]] + b[1..];
      }
    }
  }

  lemma {:induction false} ListsTransitive(a: seq<Identifier>, b: seq<Identifier>, c: seq<Identifier>)
    requires CompareLists(a, b) <= 0 && CompareLists(b, c) <= 0
    ensures CompareLists(a, c) <= 0
  {
    if a != [] && b != [] && c != [] {
      IdentifiersTransitive(a[0], b[0], c[0]);
      IdentifiersAntisymmetric(a[0], b[0]);
      IdentifiersAntisymmetric(b[0], c[0]);
      IdentifiersAntisymmetric(a[0], c[0]);
      if a[0] == b[0] && b[0] == c[0] {
        ListsTransitive(a[1..], b[1..], c[1..]);
      }
    }
  }

  lemma CompareAntisymmetric(a: SemVer, b: SemVer)
    ensures Compare(a, b) == -Compare(b, a)
    ensures Compare(a, b) == 0 <==> a == b
  {
    ListsAntisymmetric(a.pre, b.pre);
  }

  lemma CompareTransitive(a: SemVer, b: SemVer, c: SemVer)
    requires Compare(a, b) <= 0 && Compare(b, c) <= 0
    ensures Compare(a, c) <= 0
  {
    if a.pre != [] && b.pre != [] && c.pre != [] && CompareLists(a.pre, b.pre) <= 0 && CompareLists(b.pre, c.pre) <= 0 {
      ListsTransitive(a.pre, b.pre, c.pre);
    }
  }

  /** The comparator is a strict total order on version texts, whatever the parser. */
  lemma BeforeIsStrictTotalOrder(parse: Parser, v: string, w: string, x: string)
    ensures !Before(parse, v, v)
    ensures v != w ==> (Before(parse, v, w) <==> !Before(parse, w, v))
    ensures Before(parse, v, w) && Before(parse, w, x) ==> Before(parse, v, x)
  {
    TextsAntisymmetric(v, v);
    TextsAntisymmetric(v, w);
    TextsAntisymmetric(w, x);
    TextsAntisymmetric(v, x);
    var l, m, r := parse(v), parse(w), parse(x);
    if l.Some? && m.Some? {
      CompareAntisymmetric(l.value, m.value);
    }
    if l.Some? {
      CompareAntisymmetric(l.value, l.value);
    }
    if Before(parse, v, w) && Before(parse, w, x) {
      if l.Some? && m.Some? && r.Some? {
        CompareAntisymmetric(m.value, r.value);
        CompareAntisymmetric(l.value, r.value);
        CompareTransitive(r.value, m.value, l.value);
      }
      if CompareTexts(v, w) > 0 && CompareTexts(w, x) > 0 {
        TextsTransitive(x, w, v);
      }
    }
  }
}

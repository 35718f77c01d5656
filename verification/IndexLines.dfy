/** The lines of an index file and what the decoder reads off one of them. */
module IndexLines {

  /** Where the first line of a text ends, its newline included. */
  function LineEnd(body: string): (n: nat)
    ensures n <= |body| && (body != "" ==> n > 0)
    ensures n < |body| ==> body[n - 1] == '\n'
    ensures forall i :: 0 <= i < n - 1 ==> body[i] != '\n'
  {
    if body == "" then 0
    else if body[0] == '\n' then 1
    else 1 + LineEnd(body[1..])
  }

  function SplitLines(body: string): seq<string>
    decreases |body|
  {
    if body == "" then [] else [body[..LineEnd(body)]] + SplitLines(body[LineEnd(body)..])
  }

  function Join(lines: seq<string>): string {
    if lines == [] then "" else lines[0] + Join(lines[1..])
  }

  lemma {:induction false} SplitJoins(body: string)
    ensures Join(SplitLines(body)) == body
    decreases |body|
  {
    if body != "" {
      var n := LineEnd(body);
      var more := SplitLines(body[n..]);
      SplitJoins(body[n..]);
      assert ([body[..n]] + more)[1..] == more;
      assert body[..n] + body[n..] == body;
    }
  }

  /** A line as it stands in a file: a newline at its end and nowhere else. */
  predicate IsLine(line: string) {
    line != "" && line[|line| - 1] == '\n' && forall i :: 0 <= i < |line| - 1 ==> line[i] != '\n'
  }

  predicate IsLastLine(line: string) {
    line != "" && forall i :: 0 <= i < |line| - 1 ==> line[i] != '\n'
  }

  predicate AreLines(lines: seq<string>) {
    forall i :: 0 <= i < |lines| ==> if i < |lines| - 1 then IsLine(lines[i]) else IsLastLine(lines[i])
  }

  lemma LineEndOfLine(line: string, rest: string)
    requires IsLastLine(line) && (IsLine(line) || rest == "")
    ensures LineEnd(line + rest) == |line|
  {
    var body := line + rest;
    assert forall i :: 0 <= i < |line| ==> body[i] == line[i];
    var n := LineEnd(body);
    if rest == "" {
      assert body == line;
    } else {
      assert body[|line| - 1] == '\n';
    }
    assert line[n - 1] == '\n' || n == |line|;
  }

  /** Cutting a text into lines finds the lines it was put together from. */
  lemma {:induction false} JoinSplits(lines: seq<string>)
    requires AreLines(lines)
    ensures SplitLines(Join(lines)) == lines
  {
    if lines != [] {
      LineEndOfLine(lines[0], Join(lines[1..]));
      assert Join(lines)[|lines[0]|..] == Join(lines[1..]);
      assert Join(lines)[..|lines[0]|] == lines[0];
      JoinSplits(lines[1..]);
    }
  }

  function Indent(line: string): (n: nat)
    ensures n <= |line|
  {
    if line != "" && line[0] == ' ' then 1 + Indent(line[1..]) else 0
  }

  function TrimRight(s: string): (r: string)
    ensures |r| <= |s|
  {
    if s != "" && s[|s| - 1] in "\r\n" then TrimRight(s[..|s| - 1]) else s
  }

  function Trimmed(line: string): string {
    TrimRight(line[Indent(line)..])
  }

  function SkipBlanks(s: string): string {
    if s != "" && s[0] in " \t" then SkipBlanks(s[1..]) else s
  }

  /** What a line can be, indentation aside. A marker is bare if nothing but a comment follows it. */
  datatype Kind = Filler | Directive | Marker(bare: bool) | Item | Other

  function KindOf(t: string): Kind {
    if t == "" || t[0] == '#' then Filler
    else if t[0] == '%' then Directive
    else if |t| >= 3 && t[..3] in {"---", "..."} then
      var rest := SkipBlanks(t[3..]);
      Marker(rest == "" || rest[0] == '#')
    else if t[0] == '-' && (|t| == 1 || t[1] == ' ') then Item
    else Other
  }

  /** A line with everything the decoder looks at. */
  datatype Line = Line(text: string, indent: nat, trimmed: string, kind: Kind)

  function Read(text: string): Line {
    Line(text, Indent(text), Trimmed(text), KindOf(Trimmed(text)))
  }

  function ReadAll(texts: seq<string>): seq<Line> {
    if texts == [] then [] else [Read(texts[0])] + ReadAll(texts[1..])
  }

  function Bytes(lines: seq<Line>): nat {
    if lines == [] then 0 else |lines[0].text| + Bytes(lines[1..])
  }

  lemma {:induction false} BytesConcat(xs: seq<Line>, ys: seq<Line>)
    ensures Bytes(xs + ys) == Bytes(xs) + Bytes(ys)
  {
    if xs == [] {
      assert xs + ys == ys;
    } else {
      assert (xs + ys)[1..] == xs[1..] + ys;
      BytesConcat(xs[1..], ys);
    }
  }
}

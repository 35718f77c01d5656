/** Reference tokens of JSON pointers (sections 3 and 4 of RFC 6901). */
module RewriterPointer {

  /** Replaces every occurrence of one character. */
  function ReplaceChar(s: string, c: char, text: string): string {
    if s == "" then "" else (if s[0] == c then text else [s[0]]) + ReplaceChar(s[1..], c, text)
  }

  /** Replaces every occurrence of a pair of characters, from left to right. */
  function ReplacePair(s: string, a: char, b: char, text: string): string {
    if s == "" then ""
    else if |s| >= 2 && s[0] == a && s[1] == b then text + ReplacePair(s[2..], a, b, text)
    else [s[0]] + ReplacePair(s[1..], a, b, text)
  }

  /** Tildes go first, so the tilde of an escaped slash is not escaped again. */
  function Encode(s: string): string {
    ReplaceChar(ReplaceChar(s, '~', "~0"), '/', "~1")
  }

  function Decode(s: string): string {
    ReplacePair(ReplacePair(s, '~', '1', "/"), '~', '0', "~")
  }

  /** What encoding does to each character. */
  function Escaped(s: string): string {
    if s == "" then ""
    else (if s[0] == '~' then "~0" else if s[0] == '/' then "~1" else [s[0]]) + Escaped(s[1..])
  }

  /** Slashes restored, tildes still escaped. */
  function Half(s: string): string {
    if s == "" then "" else (if s[0] == '~' then "~0" else [s[0]]) + Half(s[1..])
  }

  /** A token holds no slash, and every tilde is followed by a zero or a one. */
  predicate ValidToken(t: string) {
    if t == "" then true
    else if t[0] == '~' then |t| >= 2 && (t[1] == '0' || t[1] == '1') && ValidToken(t[2..])
    else t[0] != '/' && ValidToken(t[1..])
  }

  function Unescaped(t: string): string
    requires ValidToken(t)
  {
    if t == "" then ""
    else if t[0] == '~' then (if t[1] == '0' then "~" else "/") + Unescaped(t[2..])
    else [t[0]] + Unescaped(t[1..])
  }

  lemma {:induction false} HalfIsFirstPass(s: string)
    ensures ReplaceChar(s, '~', "~0") == Half(s)
  {
    if s != "" {
      HalfIsFirstPass(s[1..]);
    }
  }

  lemma {:induction false} EncodeIsEscaped(s: string)
    ensures ReplaceChar(Half(s), '/', "~1") == Escaped(s)
  {
    if s != "" {
      EncodeIsEscaped(s[1..]);
      var rest := Half(s[1..]);
      if s[0] == '~' {
        assert ("~0" + rest)[1..] == "0" + rest && ("0" + rest)[1..] == rest;
        assert ReplaceChar("0" + rest, '/', "~1") == "0" + ReplaceChar(rest, '/', "~1");
      } else {
        assert ([s[0]] + rest)[1..] == rest;
      }
    }
  }

  lemma {:induction false} FirstDecoding(s: string)
    ensures ReplacePair(Escaped(s), '~', '1', "/") == Half(s)
  {
    if s != "" {
      FirstDecoding(s[1..]);
      var rest := Escaped(s[1..]);
      if s[0] == '~' {
        assert ("~0" + rest)[1..] == "0" + rest && ("0" + rest)[1..] == rest;
        assert ReplacePair("0" + rest, '~', '1', "/") == "0" + ReplacePair(rest, '~', '1', "/");
      } else if s[0] == '/' {
        assert ("~1" + rest)[2..] == rest;
      } else {
        assert ([s[0]] + rest)[1..] == rest;
      }
    }
  }

  lemma {:induction false} SecondDecoding(s: string)
    ensures ReplacePair(Half(s), '~', '0', "~") == s
  {
    if s != "" {
      SecondDecoding(s[1..]);
      var rest := Half(s[1..]);
      if s[0] == '~' {
        assert ("~0" + rest)[2..] == rest;
      } else {
        assert ([s[0]] + rest)[1..] == rest;
      }
    }
  }

  /** Decoding an encoded name gives the name, whatever it is. */
  lemma DecodeEncoded(s: string)
    ensures Decode(Encode(s)) == s && Encode(s) == Escaped(s)
  {
    HalfIsFirstPass(s);
    EncodeIsEscaped(s);
    FirstDecoding(s);
    SecondDecoding(s);
  }

  lemma {:induction false} EscapedIsValid(s: string)
    ensures ValidToken(Escaped(s))
  {
    if s != "" {
      EscapedIsValid(s[1..]);
      var rest := Escaped(s[1..]);
      assert ("~0" + rest)[2..] == rest && ("~1" + rest)[2..] == rest && ([s[0]] + rest)[1..] == rest;
    }
  }

  lemma {:induction false} EscapedUnescaped(t: string)
    requires ValidToken(t)
    ensures Escaped(Unescaped(t)) == t
  {
    if t == "" {
    } else if t[0] == '~' {
      EscapedUnescaped(t[2..]);
      var rest := Unescaped(t[2..]);
      assert ("~" + rest)[1..] == rest && ("/" + rest)[1..] == rest;
      assert t == t[..2] + t[2..];
      assert t[..2] == if t[1] == '0' then "~0" else "~1";
    } else {
      EscapedUnescaped(t[1..]);
      var rest := Unescaped(t[1..]);
      assert ([t[0]] + rest)[1..] == rest;
    }
  }

  /** Encoding a decoded token gives the token back exactly when it is a valid one. */
  lemma EncodeDecodedIff(t: string)
    ensures Encode(Decode(t)) == t <==> ValidToken(t)
  {
    DecodeEncoded(Decode(t));
    EscapedIsValid(Decode(t));
    if ValidToken(t) {
      EscapedUnescaped(t);
      DecodeEncoded(Unescaped(t));
    }
  }
}

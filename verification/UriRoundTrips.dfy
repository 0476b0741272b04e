/** What URIToNativePath undoes: percent-encoding, the tests' path-to-URI direction, and
    itself. */
module UriRoundTrips {
  import opened Wrappers
  import opened Uri

  // ----------------------------------------------------------------- what a text spells

  // c is a hexadecimal digit, of either case, for v.
  predicate Digit(c: char, v: nat) {
    || (v < 10 && c as int == '0' as int + v)
    || (10 <= v < 16 && (c as int == 'a' as int + v - 10 || c as int == 'A' as int + v - 10))
  }

  predicate AnyDigit(c: char) { exists v: nat :: v < 16 && Digit(c, v) }

  // s starts with an escape for the byte c.
  predicate Escapes(s: string, c: char) {
    |s| >= 3 && s[0] == '%' && Digit(s[1], c as int / 16) && Digit(s[2], c as int % 16)
  }

  // s starts with '%' and two digits.
  predicate Escape(s: string) { |s| >= 3 && s[0] == '%' && AnyDigit(s[1]) && AnyDigit(s[2]) }

  /** s spells p: each byte of p is written as an escape with digits of either case, as itself,
      or, for a slash, as a backslash; what can be read as an escape is one. */
  predicate Spells(s: string, p: string) {
    if s == "" then p == ""
    else
      p != "" &&
      if Escape(s) then Escapes(s, p[0]) && Spells(s[3..], p[1..])
      else (if s[0] == '\\' then p[0] == '/' else p[0] == s[0]) && Spells(s[1..], p[1..])
  }

  lemma DigitMeaning(c: char)
    ensures AnyDigit(c) <==> IsHex(c)
    ensures forall v: nat :: Digit(c, v) <==> IsHex(c) && HexValue(c) == v
  {
    if IsHex(c) { assert Digit(c, HexValue(c)); }
  }

  lemma EscapeMeaning(s: string, c: char)
    requires c as int < 256
    ensures Escape(s) <==> Escaped(s)
    ensures Escaped(s) ==> (Escapes(s, c) <==> Octet(s[1], s[2]) == c)
  {
    if |s| >= 3 {
      DigitMeaning(s[1]);
      DigitMeaning(s[2]);
    }
  }

  /** What the decoder computes: the one text of bytes that the input spells. */
  lemma {:induction false} DecodeIffSpells(s: string, p: string)
    requires Bytes(p)
    ensures Decode(s) == p <==> Spells(s, p)
  {
    if s != "" {
      if p == "" {
        assert Decode(s) != "";
      } else {
        EscapeMeaning(s, p[0]);
        var k := if Escaped(s) then 3 else 1;
        DecodeIffSpells(s[k..], p[1..]);
        assert p == [p[0]] + p[1..];
        assert Decode(s) == [Decode(s)[0]] + Decode(s[k..]);
        assert Decode(s)[1..] == Decode(s[k..]);
      }
    }
  }

  // ------------------------------------------------------------------ percent-encoding

  // Section 2.3 of RFC 3986.
  predicate Unreserved(c: char) {
    'A' <= c <= 'Z' || 'a' <= c <= 'z' || '0' <= c <= '9' || c == '-' || c == '.' || c == '_' || c == '~'
  }

  function HexDigit(v: nat): (c: char)
    requires v < 16
    ensures IsHex(c) && HexValue(c) == v && Unreserved(c)
  {
    if v < 10 then ('0' as int + v) as char else ('A' as int + v - 10) as char
  }

  function EncodeByte(c: char): string
    requires c as int < 256
  {
    if c == '/' || Unreserved(c) then [c]
    else ['%', HexDigit(c as int / 16), HexDigit(c as int % 16)]
  }

  predicate Bytes(s: string) { forall i :: 0 <= i < |s| ==> s[i] as int < 256 }

  function Encode(p: string): (e: string)
    requires Bytes(p)
    ensures |e| >= |p| && ':' !in e
    ensures p != "" ==> e[0] == EncodeByte(p[0])[0]
  {
    if p == "" then "" else EncodeByte(p[0]) + Encode(p[1..])
  }

  lemma {:induction false} NoNulStays(s: string)
    requires '\0' !in s
    ensures UntilNul(s) == s
  {
    if s != "" {
      NoNulStays(s[1..]);
      assert s == [s[0]] + s[1..];
    }
  }

  /** e is a percent-encoding of p: slashes stand for themselves, unreserved characters do or are
      escaped, and all other bytes are escaped, each digit of either case. */
  predicate Encodes(e: string, p: string) {
    if p == "" then e == ""
    else
      e != "" &&
      if e[0] == '%' then p[0] != '/' && Escapes(e, p[0]) && Encodes(e[3..], p[1..])
      else e[0] == p[0] && (p[0] == '/' || Unreserved(p[0])) && Encodes(e[1..], p[1..])
  }

  // The encoder that escapes in upper case, and only where it must, is one of many.
  lemma {:induction false} EncodeEncodes(p: string)
    requires Bytes(p)
    ensures Encodes(Encode(p), p)
  {
    if p != "" {
      EncodeEncodes(p[1..]);
      var first, rest := EncodeByte(p[0]), Encode(p[1..]);
      assert (first + rest)[|first|..] == rest;
      if |first| == 3 {
        DigitMeaning(first[1]);
        DigitMeaning(first[2]);
      }
    }
  }

  lemma {:induction false} DecodeInvertsAnyEncoding(e: string, p: string)
    requires Bytes(p) && Encodes(e, p)
    ensures Decode(e) == p
  {
    if p != "" {
      EscapeMeaning(e, p[0]);
      if e[0] == '%' {
        EscapesAreEscaped(e, p[0]);
        DecodeInvertsAnyEncoding(e[3..], p[1..]);
      } else {
        DecodeInvertsAnyEncoding(e[1..], p[1..]);
      }
      assert p == [p[0]] + p[1..];
    }
  }

  lemma EscapesAreEscaped(e: string, c: char)
    requires Escapes(e, c)
    ensures Escaped(e) && e[1] != ':' && e[2] != ':'
  {
    DigitMeaning(e[1]);
    DigitMeaning(e[2]);
  }

  lemma {:induction false} EncodingHasNoColon(e: string, p: string)
    requires Bytes(p) && Encodes(e, p)
    ensures ':' !in e && |e| >= |p|
  {
    if p != "" {
      if e[0] == '%' {
        EscapesAreEscaped(e, p[0]);
        EncodingHasNoColon(e[3..], p[1..]);
        assert e == [e[0], e[1], e[2]] + e[3..];
      } else {
        EncodingHasNoColon(e[1..], p[1..]);
        assert e == [e[0]] + e[1..];
      }
    }
  }

  lemma DecodeInvertsEncode(p: string)
    requires Bytes(p)
    ensures Decode(Encode(p)) == p
  {
    EncodeEncodes(p);
    DecodeInvertsAnyEncoding(Encode(p), p);
  }

  // Where the decoder starts on such a URI.
  lemma EncodedStart(e: string)
    requires e != "" && e[0] == '/' && e != "/" && ':' !in e
    ensures !Bare("file://" + e) && PathStart("file://" + e) == 7 && ("file://" + e)[7..] == e
  {
    var uri := "file://" + e;
    assert uri[7] == '/' && "file:///" <= uri && |uri| > 8;
    if |uri| > 9 { assert uri[9] == e[2] && e[2] in e; }
  }

  /** Every absolute path comes back from every percent-encoding of it as a file URI, with a
      trailing separator; a path that has one comes back exactly, whatever bytes it holds. */
  lemma PercentEncodingRoundTrip(p: string, e: string)
    requires Bytes(p) && '\0' !in p && |p| > 1 && p[0] == '/' && Encodes(e, p)
    ensures var uri := "file://" + e;
      && !Bare(uri)
      && NativePath(uri) == Some(WithSeparator(p))
      && (p[|p| - 1] == '/' ==> NativePath(uri) == Some(p))
  {
    DecodeInvertsAnyEncoding(e, p);
    EncodingHasNoColon(e, p);
    EncodedStart(e);
    NoNulStays(WithSeparator(p));
  }

  // -------------------------------------------------------------- what decoding changes

  predicate ContainsEscape(s: string) { s != "" && (Escaped(s) || ContainsEscape(s[1..])) }

  /** An escape shortens the text by two characters; without one, each backslash becomes a slash
      and nothing else changes. */
  lemma {:induction false} DecodeEffect(s: string)
    ensures if ContainsEscape(s) then |Decode(s)| + 2 <= |s|
            else |Decode(s)| == |s| && forall i :: 0 <= i < |s| ==> Decode(s)[i] == if s[i] == '\\' then '/' else s[i]
  {
    if s != "" {
      if !Escaped(s) {
        DecodeEffect(s[1..]);
      }
    }
  }

  lemma {:induction false} DecodeKeepsLastSlash(s: string)
    requires s != "" && s[|s| - 1] == '/'
    ensures Decode(s)[|Decode(s)| - 1] == '/'
  {
    if Escaped(s) {
      assert |s| > 3;
      DecodeKeepsLastSlash(s[3..]);
    } else if |s| > 1 {
      DecodeKeepsLastSlash(s[1..]);
    }
  }

  predicate Literal(s: string) { !ContainsEscape(s) && '\\' !in s }

  lemma DecodeIsIdentityOnLiterals(s: string)
    ensures Decode(s) == s <==> Literal(s)
  {
    DecodeEffect(s);
    if '\\' in s && |Decode(s)| == |s| {
      var i :| 0 <= i < |s| && s[i] == '\\';
      if !ContainsEscape(s) { assert Decode(s)[i] != s[i]; }
    }
  }

  /** Finishing a decoded body gives back a text with its separator exactly when the text is
      free of escapes and backslashes. */
  lemma FinishIsIdentityOnLiterals(s: string)
    requires s != "" && '\0' !in s
    ensures UntilNul(WithSeparator(Decode(s))) == WithSeparator(s) <==> Literal(s)
  {
    DecodeIsIdentityOnLiterals(s);
    DecodeEffect(s);
    if Literal(s) {
      NoNulStays(WithSeparator(s));
    } else if !ContainsEscape(s) {
      var i :| 0 <= i < |s| && s[i] == '\\';
      assert WithSeparator(s)[i] == '\\' && WithSeparator(Decode(s))[i] == '/';
    }
  }

  // A body that lost at least one character at the front cannot finish as the whole text.
  lemma ShortBodyFinishesShort(s: string, k: nat)
    requires 0 < k < |s|
    ensures |UntilNul(WithSeparator(Decode(s[k..])))| < |WithSeparator(s)|
  {
    if s[|s| - 1] == '/' {
      DecodeKeepsLastSlash(s[k..]);
    }
  }

  // ------------------------------------------------------------------ the accepted forms

  lemma ThreeSlashes(p: string)
    ensures "file:///" <= "file:" + p <==> "///" <= p
  {
    var uri := "file:" + p;
    if "///" <= p { assert uri[..8] == "file:" + p[..3]; }
    if "file:///" <= uri { assert p[..3] == uri[5..8] == "///"; }
  }

  /** An absolute path, its file:// URI and its file:/ URI all name the same native path. */
  lemma AbsoluteFormsAgree(p: string)
    requires |p| > 1 && p[0] == '/' && !("///" <= p) && !(|p| > 2 && p[2] == ':')
    ensures !Bare(p) && !Bare("file://" + p) && !Bare("file:" + p)
    ensures NativePath("file://" + p) == NativePath(p)
    ensures NativePath("file:" + p) == NativePath(p)
  {
    var three, one := "file://" + p, "file:" + p;
    assert three[7..] == p && three[7] == '/' && "file:///" <= three;
    assert |three| > 9 ==> three[9] == p[2];
    assert one[5..] == p && one[5] == '/' && "file:/" <= one;
    ThreeSlashes(p);
    assert |one| > 7 ==> one[7] == p[2];
    assert p[0] != "file:/"[0];
  }

  /** With a drive letter the slash before it goes too. */
  lemma DriveFormsAgree(p: string)
    requires |p| > 1 && p[1] == ':' && p[0] != '/'
    ensures !Bare(p) && !Bare("file:///" + p) && !Bare("file:/" + p)
    ensures NativePath("file:///" + p) == NativePath(p)
    ensures NativePath("file:/" + p) == NativePath(p)
  {
    var three, one := "file:///" + p, "file:/" + p;
    assert three[8..] == p && "file:///" <= three && three[9] == p[1];
    assert one[6..] == p && "file:/" <= one && one[7] == p[1] && one[6] == p[0];
    assert !("file:///" <= one) by { assert one[6] != "file:///"[6]; }
    assert p[1] != "file:/"[1];
  }

  // ------------------------------------------------------------------ path to URI and back

  // getResourceLocation (POSIX) on the working directory.
  function ResourceLocation(cwd: string): string { "file:" + cwd }

  /** The round trip of the tests, for every absolute path longer than "/": it works exactly
      when the path has no escape, no backslash, no "///" prefix and no colon third. */
  lemma PathRoundTrip(cwd: string)
    requires '\0' !in cwd && |cwd| > 1 && cwd[0] == '/' && cwd != "///"
    ensures !Bare(ResourceLocation(cwd))
    ensures NativePath(ResourceLocation(cwd)) == Some(WithSeparator(cwd))
      <==> Literal(cwd) && !("///" <= cwd) && !(|cwd| > 2 && cwd[2] == ':')
  {
    var uri := ResourceLocation(cwd);
    assert uri[5..] == cwd && uri[..5] == "file:";
    assert "file:/" <= uri by { assert uri[5] == '/'; }
    ThreeSlashes(cwd);
    if !("///" <= cwd) && !(|cwd| > 2 && cwd[2] == ':') {
      assert PathStart(uri) == 5;
      FinishIsIdentityOnLiterals(cwd);
    } else {
      var k := PathStart(uri) - 5;
      assert uri[PathStart(uri)..] == cwd[k..];
      ShortBodyFinishesShort(cwd, k);
    }
  }

  // A URI is longer than the path it names.
  lemma UriIsNotItsPath(s: string)
    requires "file:/" <= s && !Bare(s)
    ensures NativePath(s) != Some(s)
  {
    var body := s[PathStart(s)..];
    assert |UntilNul(WithSeparator(Decode(body)))| <= |Decode(body)| + 1 <= |body| + 1 < |s|;
  }

  lemma PlainFixedPoints(s: string)
    requires s != "" && '\0' !in s && !("file:/" <= s)
    ensures NativePath(s) == Some(s) <==> s[|s| - 1] == '/' && Literal(s)
  {
    assert PathStart(s) == 0 && s[0..] == s;
    if s[|s| - 1] == '/' {
      FinishIsIdentityOnLiterals(s);
    } else {
      EndsInSeparator(Decode(s), s);
    }
  }

  lemma EndsInSeparator(d: string, s: string)
    requires '\0' !in s && s != "" && s[|s| - 1] != '/' && |d| <= |s|
    ensures UntilNul(WithSeparator(d)) != s
  {
    var full := WithSeparator(d);
    assert full[|full| - 1] == '/';
  }

  /** The fixed points: a text is its own native path exactly when it ends in a separator,
      has no escape and no backslash, and does not start with "file:/". */
  lemma FixedPoints(s: string)
    requires s != "" && '\0' !in s && !Bare(s)
    ensures NativePath(s) == Some(s)
      <==> s[|s| - 1] == '/' && Literal(s) && !("file:/" <= s)
  {
    if "file:/" <= s { UriIsNotItsPath(s); } else { PlainFixedPoints(s); }
  }

  // ------------------------------------------------------------------------ truncation

  // "%00" occurs in s.
  predicate NulEscape(s: string) { s != "" && ("%00" <= s || NulEscape(s[1..])) }

  lemma ZeroOctet(s: string)
    requires Escaped(s)
    ensures Octet(s[1], s[2]) == '\0' <==> "%00" <= s
  {
    assert HexValue(s[1]) == 0 <==> s[1] == '0';
    assert HexValue(s[2]) == 0 <==> s[2] == '0';
    assert 16 * HexValue(s[1]) + HexValue(s[2]) == 0 <==> HexValue(s[1]) == 0 && HexValue(s[2]) == 0;
    if "%00" <= s { assert s[1] == "%00"[1] && s[2] == "%00"[2]; }
    if s[1] == '0' && s[2] == '0' { assert s[..3] == "%00"; }
  }

  lemma {:induction false} NulComesFromEscape(s: string)
    requires '\0' !in s
    ensures '\0' in Decode(s) <==> NulEscape(s)
  {
    if s != "" {
      if Escaped(s) {
        NulComesFromEscape(s[3..]);
        assert s[1..][1..] == s[2..] && s[2..][1..] == s[3..];
        assert NulEscape(s[1..]) == NulEscape(s[2..]) by { assert s[1..][0] == s[1]; }
        assert NulEscape(s[2..]) == NulEscape(s[3..]) by { assert s[2..][0] == s[2]; }
        ZeroOctet(s);
      } else {
        NulComesFromEscape(s[1..]);
      }
    }
  }

  lemma {:induction false} NulTruncates(s: string)
    ensures UntilNul(s) == s <==> '\0' !in s
  {
    if s != "" {
      NulTruncates(s[1..]);
      assert s == [s[0]] + s[1..];
    }
  }

  /** The C string returned is the whole decoded path if and only if "%00" does not occur in
      the part decoded; otherwise the path is cut short. */
  lemma TruncatedIffNulEscape(uri: string)
    requires !Bare(uri) && uri != "" && '\0' !in uri
    ensures var body := uri[PathStart(uri)..];
      NativePath(uri) == Some(WithSeparator(Decode(body))) <==> !NulEscape(body)
  {
    var body := uri[PathStart(uri)..];
    NulComesFromEscape(body);
    NulTruncates(WithSeparator(Decode(body)));
  }

  lemma WholeEndsInSeparator(uri: string, r: string)
    requires !Bare(uri) && '\0' !in uri && NativePath(uri) == Some(r)
    requires !NulEscape(uri[PathStart(uri)..])
    ensures r != "" && r[|r| - 1] == '/'
  {
    TruncatedIffNulEscape(uri);
    assert r == WithSeparator(Decode(uri[PathStart(uri)..]));
  }

  /** Applying the function to its own result changes nothing exactly when the result ends in a
      separator, has no escape and no backslash left and does not look like a URI.  It does
      end in one if no "%00" was decoded. */
  lemma Idempotence(uri: string, r: string)
    requires !Bare(uri) && '\0' !in uri && NativePath(uri) == Some(r) && !Bare(r)
    ensures NativePath(r) == Some(r) <==> r != "" && r[|r| - 1] == '/' && Literal(r) && !("file:/" <= r)
    ensures !NulEscape(uri[PathStart(uri)..]) ==> r != "" && r[|r| - 1] == '/'
  {
    assert '\0' !in r;
    if r != "" { FixedPoints(r); }
    if !NulEscape(uri[PathStart(uri)..]) { WholeEndsInSeparator(uri, r); }
  }
}

/** `URIToNativePath` (POSIX variant) and its inverses.  Characters are bytes. */
module Uri {
  import opened Wrappers

  predicate IsHex(c: char) { '0' <= c <= '9' || 'a' <= c <= 'f' || 'A' <= c <= 'F' }

  function HexValue(c: char): (v: nat)
    requires IsHex(c)
    ensures v < 16
  {
    if '0' <= c <= '9' then c as int - '0' as int
    else if 'a' <= c <= 'f' then c as int - 'a' as int + 10
    else c as int - 'A' as int + 10
  }

  // s starts with a percent-encoded octet (section 2.1 of RFC 3986).
  predicate Escaped(s: string) { |s| >= 3 && s[0] == '%' && IsHex(s[1]) && IsHex(s[2]) }

  function Octet(high: char, low: char): char
    requires IsHex(high) && IsHex(low)
  {
    (16 * HexValue(high) + HexValue(low)) as char
  }

  // A foreign separator becomes a native one.
  function Native(c: char): char { if c == '\\' then '/' else c }

  /** The meaning of the decoding loop. */
  function Decode(s: string): (d: string)
    ensures |d| <= |s| && (s != "" ==> d != "")
  {
    if s == "" then ""
    else if Escaped(s) then [Octet(s[1], s[2])] + Decode(s[3..])
    else [Native(s[0])] + Decode(s[1..])
  }

  function WithSeparator(s: string): string
  {
    if s != "" && s[|s| - 1] == '/' then s else s + "/"
  }

  // The C string a character buffer holds.
  function UntilNul(s: string): (r: string)
    ensures r <= s && '\0' !in r
    ensures r != s ==> s[|r|] == '\0'
  {
    if s == "" || s[0] == '\0' then "" else [s[0]] + UntilNul(s[1..])
  }

  // The original reads past the terminator of exactly these two strings.
  predicate Bare(uri: string) { uri == "file:///" || uri == "file:/" }

  // Where the path begins: a drive letter loses the slash before it.
  function PathStart(uri: string): (start: nat)
    requires !Bare(uri)
    ensures uri != "" ==> start < |uri|
  {
    if "file:///" <= uri then if |uri| > 9 && uri[9] == ':' then 8 else 7
    else if "file:/" <= uri then if |uri| > 7 && uri[7] == ':' then 6 else 5
    else 0
  }

  function NativePath(uri: string): Option<string>
    requires !Bare(uri)
  {
    if uri == "" then None
    else Some(UntilNul(WithSeparator(Decode(uri[PathStart(uri)..]))))
  }

  // --------------------------------------------------------------- the loop, in place

  // A C string in an array of exactly its size.
  ghost predicate Terminated(a: array<char>)
    reads a
  {
    a.Length > 0 && a[a.Length - 1] == '\0' && '\0' !in a[..a.Length - 1]
  }

  function Wrapped(x: int): nat { x % 0x1_0000_0000 }

  lemma {:induction false} UntilNulCut(a: string, b: string)
    ensures UntilNul(a + "\0" + b) == UntilNul(a)
  {
    if a != "" && a[0] != '\0' {
      UntilNulCut(a[1..], b);
      assert (a + "\0" + b)[1..] == a[1..] + "\0" + b;
    } else {
      assert (a + "\0" + b)[0] == '\0';
    }
  }

  // Characters the loop consumes at the front of s, and the one it writes for them.
  function Consumed(s: string): nat { if Escaped(s) then 3 else 1 }

  function Written(s: string): char
    requires s != ""
  {
    if Escaped(s) then Octet(s[1], s[2]) else Native(s[0])
  }

  lemma DecodeStep(text: string, i: nat, done: string, whole: string, c: char, skip: nat)
    requires i < |text| && whole == done + Decode(text[i..])
    requires c == Written(text[i..]) && skip + 1 == Consumed(text[i..])
    ensures i + skip < |text|
    ensures whole == done + [c] + Decode(text[i + skip + 1..])
  {
    var rest := text[i..];
    assert rest[skip + 1..] == text[i + skip + 1..];
    assert Decode(rest) == [c] + Decode(rest[skip + 1..]);
  }

  /** The unsigned guard admits exactly the positions with two more characters, except that
      the wrap-around for a one-character string admits its only position. */
  lemma GuardMeaning(i: nat, uriLen: nat)
    requires i < uriLen < 0x1_0000_0000
    ensures i < Wrapped(uriLen - 2) <==> i + 2 < uriLen || uriLen == 1
  {
  }

  /** The body of the loop: the character to write, and how far to skip beyond the one read. */
  method DecodeOne(uri: array<char>, uriLen: nat, i: nat) returns (c: char, skip: nat)
    requires uriLen == uri.Length - 1 && Terminated(uri) && i < uriLen < 0x1_0000_0000
    ensures c == Written(uri[i..uriLen]) && skip + 1 == Consumed(uri[i..uriLen])
  {
    ghost var rest := uri[i..uriLen];
    GuardMeaning(i, uriLen);
    assert rest[0] == uri[i] && (i + 2 < uriLen ==> rest[1] == uri[i + 1] && rest[2] == uri[i + 2]);
    if uri[i] == '%' {
      if i < Wrapped(uriLen - 2) {
        if IsHex(uri[i + 1]) && IsHex(uri[i + 2]) {
          c, skip := Octet(uri[i + 1], uri[i + 2]), 2;
        } else {
          c, skip := uri[i], 0;
        }
      } else {
        c, skip := uri[i], 0;
      }
    } else if uri[i] == '\\' {
      c, skip := '/', 0;
    } else {
      c, skip := uri[i], 0;
    }
  }

  /** The decoding loop: `path` receives the decoded body, and path_len, kept as the length
      written plus the characters still to read, ends as the decoded length. */
  method DecodeInto(uri: array<char>, uriLen: nat, pathStart: nat, path: array<char>, bodyLen: nat)
    returns (pathLen: nat)
    requires uriLen == uri.Length - 1 && Terminated(uri) && uriLen < 0x1_0000_0000
    requires pathStart < uriLen && bodyLen == uriLen - pathStart
    requires path.Length == bodyLen + 2 && path != uri
    modifies path
    ensures 1 <= pathLen <= bodyLen
    ensures path[..pathLen] == Decode(uri[..uriLen][pathStart..])
  {
    ghost var text := uri[..uriLen];
    ghost var whole := Decode(text[pathStart..]);
    pathLen := bodyLen;
    var i, j := pathStart, 0;
    while i < uriLen
      invariant pathStart <= i <= uriLen && j <= i - pathStart
      invariant pathLen == j + (uriLen - i)
      invariant uri[..uriLen] == text
      invariant whole == path[..j] + Decode(text[i..])
    {
      ghost var done := path[..j];
      assert text[i..] == uri[i..uriLen];
      var c, skip := DecodeOne(uri, uriLen, i);
      DecodeStep(text, i, done, whole, c, skip);
      path[j] := c;
      assert path[..j + 1] == done + [c];
      i := i + skip;
      pathLen := pathLen - skip;
      i, j := i + 1, j + 1;
    }
    assert text[i..] == "" && path[..j] == whole;
  }

  /** The trailing separator and terminator. */
  method Terminate(path: array<char>, pathLen: nat)
    requires 1 <= pathLen && pathLen + 2 <= path.Length
    modifies path
    ensures UntilNul(path[..]) == UntilNul(WithSeparator(old(path[..pathLen])))
    ensures '\0' in path[..]
  {
    ghost var decoded := path[..pathLen];
    if path[pathLen - 1] == '/' {
      path[pathLen] := '\0';
    } else {
      path[pathLen] := '/';
    }
    path[pathLen + 1] := '\0';
    assert path[pathLen + 1] in path[..];
    ghost var full := WithSeparator(decoded);
    assert path[..pathLen] == decoded;
    assert path[..] == full + "\0" + path[|full| + 1..];
    UntilNulCut(full, path[|full| + 1..]);
  }

  /** URIToNativePath: NULL for NULL and for the empty string; otherwise a fresh buffer of
      path_len + 2 bytes whose C string is the decoded path with a trailing separator. */
  method URIToNativePath(uri: array?<char>) returns (path: array?<char>)
    requires uri != null ==> Terminated(uri) && uri.Length <= 0x1_0000_0000 && !Bare(uri[..uri.Length - 1])
    ensures path == null <==> uri == null || uri.Length == 1
    ensures path != null ==>
      && fresh(path)
      && path.Length == |uri[..uri.Length - 1][PathStart(uri[..uri.Length - 1])..]| + 2
      && Some(UntilNul(path[..])) == NativePath(uri[..uri.Length - 1])
      && '\0' in path[..]
  {
    if uri == null {
      return null;
    }
    var uriLen := uri.Length - 1;
    if uriLen == 0 {
      return null;
    }
    var pathStart := 0;
    if "file:///" <= uri[..uriLen] {
      pathStart := if uri[9] == ':' then 8 else 7;
    } else if "file:/" <= uri[..uriLen] {
      pathStart := if uri[7] == ':' then 6 else 5;
    }
    path := new char[uriLen - pathStart + 2];
    var pathLen := DecodeInto(uri, uriLen, pathStart, path, uriLen - pathStart);
    Terminate(path, pathLen);
  }
}

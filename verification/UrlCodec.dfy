/** Percent-decoding of paths and query strings (section 2.1 of RFC 3986), as the
    request parser does it. Characters are bytes: codes 0 to 255. */
module UrlCodec {
  import opened Text

  /** strchr over the digits also finds the terminating NUL, so NUL passes. */
  predicate PassesAsHex(c: char) { HexVal(c) >= 0 || c as int == 0 }

  /** `(hi << 4) | lo`, stored in a char: with a NUL in either place the bits of
      -1 or -16 win. */
  function EscapedByte(hi: char, lo: char): char
    requires PassesAsHex(hi) && PassesAsHex(lo)
  {
    if HexVal(lo) < 0 then 255 as char
    else if HexVal(hi) < 0 then (240 + HexVal(lo)) as char
    else (16 * HexVal(hi) + HexVal(lo)) as char
  }

  /** With a NUL in either place the byte is none that the digits would write. */
  lemma NulDigits(hi: char, lo: char)
    requires PassesAsHex(hi) && PassesAsHex(lo) && (hi as int == 0 || lo as int == 0)
    ensures EscapedByte(hi, lo) as int == if lo as int == 0 then 255 else 240 + HexVal(lo)
  {}

  /** An escape sequence starts at i. */
  predicate EscapeAt(s: string, i: nat) {
    i + 2 < |s| && s[i] == '%' && PassesAsHex(s[i + 1]) && PassesAsHex(s[i + 2])
  }

  /** What the characters at i decode to, and where decoding goes on. */
  function Piece(s: string, i: nat, skipEncodedSlash: bool, plusAsSpace: bool): string
    requires i < |s|
  {
    if EscapeAt(s, i) then
      var b := EscapedByte(s[i + 1], s[i + 2]);
      if skipEncodedSlash && b == '/' then s[i..i + 3] else [b]
    else if s[i] == '+' && plusAsSpace then " "
    else [s[i]]
  }

  function Next(s: string, i: nat): (j: nat)
    requires i < |s|
    ensures i < j <= |s|
  {
    if EscapeAt(s, i) then i + 3 else i + 1
  }

  /** Decoding of s from i on. */
  function Decode(s: string, i: nat, skipEncodedSlash: bool, plusAsSpace: bool): string
    requires i <= |s|
    decreases |s| - i
  {
    if i == |s| then "" else Piece(s, i, skipEncodedSlash, plusAsSpace) + Decode(s, Next(s, i), skipEncodedSlash, plusAsSpace)
  }

  /** urlDecode: the loop. */
  method UrlDecode(str: string, skipEncodedSlash: bool, plusAsSpace: bool) returns (result: string)
    ensures result == Decode(str, 0, skipEncodedSlash, plusAsSpace)
  {
    result := "";
    var i: nat := 0;
    while i < |str|
      invariant i <= |str|
      invariant Decode(str, 0, skipEncodedSlash, plusAsSpace) == result + Decode(str, i, skipEncodedSlash, plusAsSpace)
    {
      ghost var from, before := i, result;
      if str[i] == '%' && i + 2 < |str| && PassesAsHex(str[i + 1]) && PassesAsHex(str[i + 2]) {
        var value := EscapedByte(str[i + 1], str[i + 2]);
        if skipEncodedSlash && value == '/' {
          result := result + str[i..i + 3];
        } else {
          result := result + [value];
        }
        i := i + 2;
      } else if str[i] == '+' && plusAsSpace {
        result := result + " ";
      } else {
        result := result + [str[i]];
      }
      i := i + 1;
      Assoc(before, Piece(str, from, skipEncodedSlash, plusAsSpace), Decode(str, i, skipEncodedSlash, plusAsSpace));
    }
  }

  function PathDecode(s: string): string { Decode(s, 0, true, false) }
  function QueryDecode(s: string): string { Decode(s, 0, false, true) }

  // ---------- Path decoding keeps the segments ----------

  function PathDecodeAll(segs: seq<string>): (r: seq<string>)
    ensures |r| == |segs|
  {
    if segs == [] then [] else [PathDecode(segs[0])] + PathDecodeAll(segs[1..])
  }

  /** A piece that does not read a '/' does not write one. */
  lemma PieceKeepsSlashOut(s: string, i: nat)
    requires i < |s| && s[i] != '/'
    ensures '/' !in Piece(s, i, true, false)
    ensures forall k :: i <= k < Next(s, i) ==> s[k] != '/'
  {}

  /** Decoding does not look past a '/'. */
  lemma PieceLocal(a: string, rest: string, i: nat)
    requires i < |a| && a[i] != '/' && (rest == "" || rest[0] == '/')
    ensures Next(a + rest, i) == Next(a, i)
    ensures Piece(a + rest, i, true, false) == Piece(a, i, true, false)
  {
    var s := a + rest;
    assert EscapeAt(s, i) == EscapeAt(a, i);
    if EscapeAt(a, i) { assert s[i..i + 3] == a[i..i + 3]; }
  }

  lemma {:induction false} DecodeSegment(a: string, rest: string, i: nat)
    requires i <= |a| && '/' !in a[i..] && (rest == "" || rest[0] == '/')
    ensures Decode(a + rest, i, true, false) == Decode(a, i, true, false) + Decode(a + rest, |a|, true, false)
    ensures '/' !in Decode(a, i, true, false)
    decreases |a| - i
  {
    if i < |a| {
      hide Piece, Next, EscapeAt;
      var j := Next(a, i);
      assert a[i] == a[i..][0];
      PieceLocal(a, rest, i);
      PieceKeepsSlashOut(a, i);
      assert a[j..] == a[i..][j - i..];
      DecodeSegment(a, rest, j);
      Assoc(Piece(a, i, true, false), Decode(a, j, true, false), Decode(a + rest, |a|, true, false));
    }
  }

  lemma {:induction false} DecodeShift(pre: string, s: string, i: nat)
    requires i <= |s|
    ensures Decode(pre + s, |pre| + i, true, false) == Decode(s, i, true, false)
    decreases |s| - i
  {
    if i < |s| {
      hide Piece, Next;
      PieceShift(pre, s, i);
      DecodeShift(pre, s, Next(s, i));
    }
  }

  lemma PieceShift(pre: string, s: string, i: nat)
    requires i < |s|
    ensures Next(pre + s, |pre| + i) == |pre| + Next(s, i)
    ensures Piece(pre + s, |pre| + i, true, false) == Piece(s, i, true, false)
  {
    var w, k := pre + s, |pre| + i;
    assert w[k] == s[i] && (i + 2 < |s| ==> w[k + 1] == s[i + 1] && w[k + 2] == s[i + 2]);
    assert EscapeAt(w, k) == EscapeAt(s, i);
    if EscapeAt(s, i) { assert w[k..k + 3] == s[i..i + 3]; }
  }

  /** A slash stays a slash; what is before and after it decodes on its own. */
  lemma DecodeAtSlash(a: string, b: string)
    requires '/' !in a
    ensures PathDecode(a + ['/'] + b) == PathDecode(a) + ['/'] + PathDecode(b)
    ensures '/' !in PathDecode(a)
  {
    hide Piece, Next;
    var rest := ['/'] + b;
    var s := a + rest;
    assert a + ['/'] + b == s;
    assert a[0..] == a;
    DecodeSegment(a, rest, 0);
    DecodeShift(a + ['/'], b, 0);
    assert s == (a + ['/']) + b;
    SlashPiece(s, |a|);
    Assoc(PathDecode(a), ['/'], PathDecode(b));
  }

  lemma SlashPiece(s: string, i: nat)
    requires i < |s| && s[i] == '/'
    ensures Piece(s, i, true, false) == ['/'] && Next(s, i) == i + 1
  {}

  /** Decoding a path never changes its segments: splitting the decoded path gives
      the decoded segments of the raw path. Encoded slashes do not split. */
  lemma {:induction false} DecodingKeepsSegments(path: string)
    ensures Split(PathDecode(path), '/') == PathDecodeAll(Split(path, '/'))
    decreases |path|
  {
    hide Decode;
    var i := IndexOf(path, '/', 0);
    assert path[0..i] == path[..i];
    if i == |path| {
      assert path[..i] == path;
      OneSegmentDecodes(path);
    } else {
      var a, b := path[..i], path[i + 1..];
      assert path == a + ['/'] + b;
      DecodeAtSlash(a, b);
      SplitCons(a, '/', b);
      SplitCons(PathDecode(a), '/', PathDecode(b));
      DecodingKeepsSegments(b);
    }
  }

  lemma OneSegmentDecodes(a: string)
    requires '/' !in a
    ensures Split(PathDecode(a), '/') == PathDecodeAll(Split(a, '/'))
  {
    hide Decode;
    assert a[0..] == a;
    DecodeSegment(a, "", 0);
    SplitNone(a, '/');
    SplitNone(PathDecode(a), '/');
    assert PathDecodeAll([a]) == [PathDecode(a)];
  }

  // ---------- Query decoding inverts percent-encoding ----------

  /** One way of writing a byte in a query: as it is, as '+', or escaped. */
  datatype Style = Raw | Plus | Escaped(upper: bool)

  predicate Allows(st: Style, c: char) {
    match st
    case Raw => c != '%' && c != '+'
    case Plus => c == ' '
    case Escaped(_) => c as int < 256
  }

  function EncodeChar(c: char, st: Style): string
    requires Allows(st, c)
  {
    match st
    case Raw => [c]
    case Plus => "+"
    case Escaped(upper) => ['%', HexDigit(c as int / 16, upper), HexDigit(c as int % 16, upper)]
  }

  function PercentEncode(s: string, styles: seq<Style>): string
    requires |s| == |styles| && forall k :: 0 <= k < |s| ==> Allows(styles[k], s[k])
  {
    if s == "" then "" else EncodeChar(s[0], styles[0]) + PercentEncode(s[1..], styles[1..])
  }

  lemma DecodeOne(pre: string, c: char, st: Style, rest: string)
    requires Allows(st, c)
    ensures var s, i := pre + (EncodeChar(c, st) + rest), |pre|;
            && i < |s| && Next(s, i) == |pre + EncodeChar(c, st)|
            && Piece(s, i, false, true) == [c]
  {
    var e := EncodeChar(c, st);
    var s, i := pre + (e + rest), |pre|;
    assert s[i] == e[0];
    match st
    case Raw =>
    case Plus =>
    case Escaped(upper) =>
      HexDigitVal(c as int / 16, upper);
      HexDigitVal(c as int % 16, upper);
      assert s[i + 1] == e[1] && s[i + 2] == e[2];
  }

  /** Decoding inverts encoding, whichever way each byte was written. */
  lemma {:induction false} DecodeInvertsEncode(pre: string, s: string, styles: seq<Style>)
    requires |s| == |styles| && forall k :: 0 <= k < |s| ==> Allows(styles[k], s[k])
    ensures Decode(pre + PercentEncode(s, styles), |pre|, false, true) == s
    decreases |s|
  {
    if s != "" {
      hide Piece, Next, EncodeChar;
      var e, rest := EncodeChar(s[0], styles[0]), PercentEncode(s[1..], styles[1..]);
      DecodeOne(pre, s[0], styles[0], rest);
      DecodeInvertsEncode(pre + e, s[1..], styles[1..]);
      Assoc(pre, e, rest);
      assert s == [s[0]] + s[1..];
    }
  }

  lemma {:induction false} QueryRoundTrip(s: string, styles: seq<Style>)
    requires |s| == |styles| && forall k :: 0 <= k < |s| ==> Allows(styles[k], s[k])
    ensures QueryDecode(PercentEncode(s, styles)) == s
  {
    hide Decode, PercentEncode;
    DecodeInvertsEncode("", s, styles);
    assert "" + PercentEncode(s, styles) == PercentEncode(s, styles);
  }
}

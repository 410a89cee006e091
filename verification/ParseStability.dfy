/** What more input does to a request that already parsed. */
module ParseStability {
  import opened Text
  import opened ChunkedBody
  import opened RequestSyntax
  import opened RequestParser
  import opened RequestRoundTrip

  lemma {:induction false} IndexOfStable(s: string, x: string, c: char, pos: nat)
    requires pos <= |s| && IndexOf(s, c, pos) < |s|
    ensures IndexOf(s + x, c, pos) == IndexOf(s, c, pos)
    decreases |s| - pos
  {
    if s[pos] != c { IndexOfStable(s, x, c, pos + 1); }
  }

  lemma IndexOfAtMost(s: string, c: char, pos: nat, k: nat)
    requires pos <= k < |s| && s[k] == c
    ensures IndexOf(s, c, pos) <= k
    decreases k - pos
  {}

  /** A place where getline yields an empty line: LF CR LF, or LF LF, ends at i + 2
      or i + 1. */
  predicate BlankLineAfter(s: string, i: nat) {
    i < |s| && s[i] == '\n' && ((i + 1 < |s| && s[i + 1] == '\n') || CrlfAt(s, i + 1))
  }

  /** The header loop stops at or before the blank line, so it never sees what follows. */
  lemma {:induction false} HeaderLinesStable(s: string, x: string, pos: nat, i: nat)
    requires BlankLineAfter(s, i) && pos <= i + 1
    ensures HeaderLines(s + x, pos) == HeaderLines(s, pos)
    decreases i + 1 - pos
  {
    hide StripCr;
    LineBeforeBlank(s, x, pos, i);
    var e := IndexOf(s, '\n', pos);
    if pos <= i { HeaderLinesStable(s, x, e + 1, i); }
  }

  lemma LineBeforeBlank(s: string, x: string, pos: nat, i: nat)
    requires BlankLineAfter(s, i) && pos <= i + 1
    ensures var e := IndexOf(s, '\n', pos);
            && e < |s| && IndexOf(s + x, '\n', pos) == e && (s + x)[pos..e] == s[pos..e]
            && (pos <= i ==> e <= i)
            && (pos == i + 1 ==> StripCr(s[pos..e]) == "")
  {
    if pos <= i {
      IndexOfAtMost(s, '\n', pos, i);
    } else if s[i + 1] == '\n' {
      IndexOfAtMost(s, '\n', pos, i + 1);
      assert s[pos..IndexOf(s, '\n', pos)] == "";
    } else {
      IndexOfAtMost(s, '\n', pos, i + 2);
      assert IndexOf(s, '\n', pos) == i + 2;
      assert s[pos..i + 2] == "\r";
      assert "\r"[..0] == "";
    }
    IndexOfStable(s, x, '\n', pos);
  }

  lemma ParseHeadStable(r: Request, s: string, x: string, i: nat)
    requires BlankLineAfter(s, i)
    ensures ParseHead(r, s + x) == ParseHead(r, s)
  {
    hide ParseLine, AddHeaders, StripCr, HeaderLines;
    LineBeforeBlank(s, x, 0, i);
    var e := IndexOf(s, '\n', 0);
    assert (s + x)[..e] == (s + x)[0..e] && s[..e] == s[0..e];
    HeaderLinesStable(s, x, e + 1, i);
  }

  lemma {:induction false} HeadEndStable(s: string, x: string, pos: nat)
    requires pos <= |s| && HeadEnd(s, pos) < |s|
    ensures HeadEnd(s + x, pos) == HeadEnd(s, pos)
    decreases |s| - pos
  {
    assert HeadEndAt(s, pos) ==> HeadEndAt(s + x, pos);
    if !HeadEndAt(s, pos) {
      if HeadEndAt(s + x, pos) {
        HeadEndIsIn(s, x, pos, HeadEnd(s, pos));
      }
      HeadEndStable(s, x, pos + 1);
    }
  }

  /** An occurrence that starts before another one of the same length lies inside. */
  lemma HeadEndIsIn(s: string, x: string, pos: nat, e: nat)
    requires pos <= e < |s| && HeadEndAt(s, e) && HeadEndAt(s + x, pos)
    ensures HeadEndAt(s, pos)
  {
    assert pos + 3 <= e + 3 < |s|;
  }

  lemma {:induction false} LfLfStable(s: string, x: string, pos: nat)
    requires pos <= |s| && LfLf(s, pos) < |s|
    ensures LfLf(s + x, pos) == LfLf(s, pos)
    decreases |s| - pos
  {
    var e := LfLf(s, pos);
    assert LfLfAt(s, pos) == LfLfAt(s + x, pos) by { assert e + 1 < |s|; }
    if !LfLfAt(s, pos) { LfLfStable(s, x, pos + 1); }
  }

  /** The separator that was found stays, unless it was LF LF and a CRLF CRLF shows
      up in the longer buffer. */
  lemma SeparatorStable(s: string, x: string)
    requires FindSeparator(s).Separator?
    ensures FindSeparator(s).len == 4 ==> FindSeparator(s + x) == FindSeparator(s)
    ensures FindSeparator(s).len == 2 ==>
              (FindSeparator(s + x) == FindSeparator(s) <==> HeadEnd(s + x, 0) == |s + x|)
  {
    hide HeadEnd, LfLf;
    if HeadEnd(s, 0) < |s| {
      HeadEndStable(s, x, 0);
    } else {
      LfLfStable(s, x, 0);
    }
  }

  lemma SeparatorIsBlankLine(s: string)
    requires FindSeparator(s).Separator?
    ensures exists i :: 0 <= i < |s| && BlankLineAfter(s, i)
  {
    hide HeadEnd, LfLf;
    var f := FindSeparator(s);
    if f.len == 4 {
      assert HeadEndAt(s, f.at);
      assert BlankLineAfter(s, f.at + 1);
    } else {
      assert LfLfAt(s, f.at);
      assert BlankLineAfter(s, f.at);
    }
  }

  lemma {:induction false} WalkersStable(s: string, x: string, bodyStart: nat, max: nat, end: nat)
    requires bodyStart <= |s| && |s + x| < MAX_SIZE && max < MAX_SIZE
    requires ScanFrom(s, bodyStart, 0, max) == Complete(end) && DecodeFrom(s[bodyStart..], 0, max).Some?
    ensures ScanFrom(s + x, bodyStart, 0, max) == Complete(end)
    ensures DecodeFrom((s + x)[bodyStart..], 0, max) == DecodeFrom(s[bodyStart..], 0, max)
  {
    hide ScanFrom, DecodeFrom, IdealFrom;
    AcceptedIsIdeal(s, bodyStart, max, end);
    ScanStable(s, x, bodyStart, 0, max);
    DecodeShift(s, bodyStart, 0, max);
    DecodeShift(s + x, bodyStart, 0, max);
    DecodeStable(s, x, bodyStart, 0, max);
  }

  lemma ChunkedStable(r: Request, s: string, x: string, bodyStart: nat, max: nat)
    requires bodyStart <= |s| && |s + x| < MAX_SIZE && max < MAX_SIZE
    requires r.body == s[bodyStart..] && ParseChunked(r, s, bodyStart, max).ok
    ensures ParseChunked(r.(body := (s + x)[bodyStart..]), s + x, bodyStart, max) == ParseChunked(r, s, bodyStart, max)
  {
    hide ScanFrom, DecodeFrom;
    ScanMovesOn(s, bodyStart, 0, max);
    WalkersStable(s, x, bodyStart, max, ScanFrom(s, bodyStart, 0, max).end);
  }

  lemma BodyStable(r: Request, s: string, x: string, bodyStart: nat, max: nat)
    requires bodyStart <= |s| && |s + x| < MAX_SIZE && max < MAX_SIZE
    requires ParseBody(r, s, bodyStart, max).ok
    ensures ParseBody(r, s + x, bodyStart, max) == ParseBody(r, s, bodyStart, max)
  {
    hide ParseChunked, ReadLength, IsChunked;
    var r1 := r.(body := s[bodyStart..], bodyConsumed := 0);
    assert (s + x)[bodyStart..] == s[bodyStart..] + x;
    if IsChunked(r1) {
      IsChunkedIgnoresBody(r1, (s + x)[bodyStart..]);
      ChunkedStable(r1, s, x, bodyStart, max);
    } else {
      IsChunkedIgnoresBody(r1, (s + x)[bodyStart..]);
      SizedStable(r1, x, max);
    }
  }

  lemma IsChunkedIgnoresBody(r: Request, body: string)
    ensures IsChunked(r.(body := body)) == IsChunked(r)
  {}

  lemma SizedStable(r: Request, x: string, max: nat)
    requires ParseSized(r, max).ok
    ensures ParseSized(r.(body := r.body + x), max) == ParseSized(r, max)
  {
    hide ReadLength;
    var n := ParseSized(r, max).req.contentLength;
    if n <= |r.body| { assert (r.body + x)[..n] == r.body[..n]; }
  }

  /** A request that parsed with a CRLF CRLF separator parses to the same result on
      every longer buffer. With an LF LF separator it does exactly when the longer
      buffer still holds no CRLF CRLF. */
  lemma {:induction false} ParseStable(r: Request, s: string, x: string, max: nat)
    requires |s + x| < MAX_SIZE && max < MAX_SIZE && Parse(r, s, max).ok
    ensures Parse(r, s, max).req.sepLen == 4 || Parse(r, s, max).req.sepLen == 2
    ensures Parse(r, s, max).req.sepLen == 4 ==> Parse(r, s + x, max) == Parse(r, s, max)
    ensures Parse(r, s, max).req.sepLen == 2 ==>
              (Parse(r, s + x, max) == Parse(r, s, max) <==> HeadEnd(s + x, 0) == |s + x|)
  {
    hide ParseHead, FindSeparator, ParseBody, HeadEnd, Parse;
    ParseNeedsSeparator(r, s, max);
    ParseStages(r, s + x, max);
    SeparatorIsBlankLine(s);
    var i :| 0 <= i < |s| && BlankLineAfter(s, i);
    ParseHeadStable(Begin(r), s, x, i);
    SeparatorStable(s, x);
    SeparatorKept(r, s, max);
    if FindSeparator(s + x) == FindSeparator(s) {
      var f := FindSeparator(s);
      var h := ParseHead(Begin(r), s).req.(headerEnd := f.at, sepLen := f.len);
      BodyStable(h, s, x, f.at + f.len, max);
    } else if Parse(r, s + x, max).ok {
      SeparatorKept(r, s + x, max);
      SeparatorLength(s + x);
    }
  }

  lemma SeparatorKept(r: Request, s: string, max: nat)
    requires |s| < MAX_SIZE && max < MAX_SIZE && Parse(r, s, max).ok
    ensures FindSeparator(s) == Separator(Parse(r, s, max).req.headerEnd, Parse(r, s, max).req.sepLen)
    ensures FindSeparator(s).len == 2 || FindSeparator(s).len == 4
  {
    hide ParseHead, ScanFrom, DecodeFrom, ReadLength, IsChunked, HeadEnd, LfLf, Parse;
    ParseNeedsSeparator(r, s, max);
  }

  lemma SeparatorLength(s: string)
    requires FindSeparator(s).Separator?
    ensures FindSeparator(s).len == 4 <==> HeadEnd(s, 0) < |s|
  {}

  // ---------- A request whose parse does not stand ----------

  lemma {:induction false} FirstLfLf(s: string, pos: nat, e: nat)
    requires pos <= e < |s| && LfLfAt(s, e)
    ensures LfLf(s, pos) <= e
    decreases e - pos
  {
    if pos < e && !LfLfAt(s, pos) { FirstLfLf(s, pos + 1, e); }
  }

  /** A request line that is ended by two line feeds. */
  function LfOnly(m: Message): string { StartLine(m) + "\n\n" }

  predicate Line(m: Message) { Word(m.method_) && Word(m.target) && Word(m.version) && VersionOk(m.version) }

  lemma LfOnlyHead(m: Message)
    requires Line(m)
    ensures ParseHead(FRESH, LfOnly(m)).ok && ParseHead(FRESH, LfOnly(m)).req.headers == map[]
  {
    hide ReadWords, TargetPath, TargetQueries, StartLine, Word, VersionOk, HeaderLines;
    var raw, line, n := LfOnly(m), StartLine(m), |StartLine(m)|;
    ReadStartLine(m);
    StartLineNoBreak(m);
    assert raw[0..n] == line && raw[..n] == line;
    IndexOfIs(raw, '\n', 0, n);
    EmptyLine(raw, n + 1);
  }

  lemma EmptyLine(raw: string, pos: nat)
    requires pos < |raw| && raw[pos] == '\n'
    ensures HeaderLines(raw, pos) == []
  {
    assert raw[pos..pos] == "";
    IndexOfIs(raw, '\n', pos, pos);
  }

  lemma LfOnlySeparator(m: Message)
    requires Line(m)
    ensures FindSeparator(LfOnly(m)).Separator? && FindSeparator(LfOnly(m)).len == 2
  {
    hide StartLine, Word, VersionOk, HeadEnd, LfLf;
    var raw, n := LfOnly(m), |StartLine(m)|;
    StartLineNoBreak(m);
    forall k: nat | k < |raw| ensures !HeadEndAt(raw, k) {
      if k < n { assert raw[k] == StartLine(m)[k]; }
    }
    HeadEndSkip(raw, 0, |raw|);
    assert HeadEnd(raw, |raw|) == |raw|;
    FirstLfLf(raw, 0, n);
  }

  /** It is complete, and becomes another request when a CRLF CRLF arrives behind it. */
  lemma {:induction false} LfOnlyRequestChanges(m: Message, max: nat)
    requires Line(m) && max < MAX_SIZE && |LfOnly(m)| + 4 < MAX_SIZE
    ensures Parse(FRESH, LfOnly(m), max).ok
    ensures Parse(FRESH, LfOnly(m) + "\r\n\r\n", max) != Parse(FRESH, LfOnly(m), max)
  {
    hide ParseHead, FindSeparator, LfOnly, Line, HeadEnd;
    var s, x := LfOnly(m), "\r\n\r\n";
    LfOnlyHead(m);
    LfOnlySeparator(m);
    ParseStages(FRESH, s, max);
    assert Begin(FRESH) == FRESH;
    assert HeadEndAt(s + x, |s|);
    FirstHeadEnd(s + x, 0, |s|);
    hide Parse;
    ParseStable(FRESH, s, x, max);
    SeparatorKept(FRESH, s, max);
  }
}

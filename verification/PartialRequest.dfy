/** A request of which only a part has arrived: where a printed message may be cut without
    being taken for a malformed one. */
module PartialRequest {
  import opened Text
  import opened RequestParser
  import opened RequestRoundTrip
  import opened RequestSyntax
  import opened ChunkedBody

  // ---------- The request line ----------

  /** A request line of which bytes are missing is never one. */
  lemma {:induction false} CutStartLine(m: Message, n: nat)
    requires Word(m.method_) && Word(m.target) && Word(m.version) && |m.version| == 8 && n < |StartLine(m)|
    ensures ReadWords(StartLine(m)[..n]).Some? ==> |ReadWords(StartLine(m)[..n]).value.version| < 8
  {
    hide SkipSpace, WordEnd;
    var s, a := StartLine(m)[..n], |m.method_|;
    var b := a + 1 + |m.target|;
    StartLineChars(m);
    var a' := if n < a then n else a;
    SkipSpaceIs(s, 0, 0);
    WordEndIs(s, 0, a');
    if n <= a + 1 {
      SkipSpaceIs(s, a', n);
      WordEndIs(s, n, n);
    } else {
      var b' := if n < b then n else b;
      SkipSpaceIs(s, a, a + 1);
      WordEndIs(s, a + 1, b');
      if n <= b + 1 {
        SkipSpaceIs(s, b', n);
        WordEndIs(s, n, n);
      } else {
        SkipSpaceIs(s, b, b + 1);
        WordEndIs(s, b + 1, n);
      }
    }
  }

  // ---------- The header lines ----------

  /** The lines that getline finds in the first k bytes of the lines. */
  function CutLines(lines: seq<string>, k: nat): seq<string> {
    if lines == [] || k == 0 then []
    else if k <= |lines[0]| + 1 then [if k <= |lines[0]| then lines[0][..k] else lines[0]]
    else [lines[0]] + CutLines(lines[1..], k - |lines[0]| - 2)
  }

  /** The line that is cut has its colon. */
  predicate ColonInCut(lines: seq<string>, k: nat) {
    if lines == [] || k == 0 then true
    else if k <= |lines[0]| then ':' in lines[0][..k]
    else if k == |lines[0]| + 1 then true
    else ColonInCut(lines[1..], k - |lines[0]| - 2)
  }

  lemma {:induction false} HeaderLinesCut(pre: string, lines: seq<string>, k: nat)
    requires GoodLines(lines) && k <= |LinesOnto(lines, "")|
    ensures HeaderLines(pre + LinesOnto(lines, "")[..k], |pre|) == CutLines(lines, k)
    decreases |lines|
  {
    hide NoBreak, HeaderLines;
    if k == 0 {
      assert pre + LinesOnto(lines, "")[..k] == pre;
      NoLinesLeft(pre);
    } else if lines == [] {
      CutBlank(pre, k);
    } else if k <= |lines[0]| + 1 {
      var line := lines[0];
      var piece := if k <= |line| then line[..k] else line + "\r";
      assert LinesOnto(lines, "")[..k] == piece;
      CutInLine(pre, line, piece);
    } else {
      var line, more := lines[0], LinesOnto(lines[1..], "");
      var k' := k - |line| - 2;
      assert LinesOnto(lines, "")[..k] == line + (CRLF + more[..k']);
      NextLine(pre, line, more[..k']);
      HeaderLinesCut(pre + (line + CRLF), lines[1..], k');
    }
  }

  lemma NextLine(pre: string, line: string, more: string)
    requires NoBreak(line) && line != ""
    ensures HeaderLines(pre + (line + (CRLF + more)), |pre|) == [line] + HeaderLines((pre + (line + CRLF)) + more, |pre + (line + CRLF)|)
  {
    hide IndexOf, StripCr, NoBreak;
    GetLine(pre, line, more);
    LineStep(pre, line, more);
  }

  lemma CutBlank(pre: string, k: nat)
    requires 0 < k <= 2
    ensures HeaderLines(pre + LinesOnto([], "")[..k], |pre|) == []
  {
    var tail := if k == 1 then "\r" else "\r\n";
    assert LinesOnto([], "")[..k] == tail;
    hide LinesOnto, HeaderLines, IndexOf;
    var raw := pre + tail;
    assert raw[|pre|..|pre| + 1] == "\r" && '\n' !in "\r";
    IndexOfIs(raw, '\n', |pre|, |pre| + 1);
    BlankLine(raw, |pre|, |pre| + 1);
  }

  lemma BlankLine(raw: string, pos: nat, e: nat)
    requires pos < |raw| && IndexOf(raw, '\n', pos) == e && raw[pos..e] == "\r"
    ensures HeaderLines(raw, pos) == []
  {
    hide IndexOf;
  }

  /** getline at the end of the input. */
  lemma CutInLine(pre: string, line: string, piece: string)
    requires NoBreak(line) && piece != "" && (piece == line + "\r" || piece <= line) && line != ""
    ensures HeaderLines(pre + piece, |pre|) == [if piece <= line then piece else line]
  {
    var raw := pre + piece;
    assert raw[|pre|..] == piece && raw[|pre|..|raw|] == piece;
    assert '\n' !in piece;
    IndexOfIs(raw, '\n', |pre|, |raw|);
    assert StripCr(piece) == if piece <= line then piece else line;
    assert (line + "\r")[..|line|] == line;
  }

  lemma CutField(f: Field, n: nat)
    requires ValidField(f) && n <= |FieldLine(f)|
    ensures ReadHeader(FieldLine(f)[..n]).Some? <==> ':' in FieldLine(f)[..n]
  {
    hide Lower, NoBreak;
    var line, a := FieldLine(f), |f.name|;
    var s := line[..n];
    if n <= a {
      assert s == f.name[..n];
      assert s[0..n] == s;
      IndexOfIs(s, ':', 0, n);
    } else {
      assert s == f.name + [':'] + line[a + 1..n];
      IndexOfPrefix(f.name, ':', line[a + 1..n]);
      assert s[..a] == f.name && s[a] == ':';
      TrimmedStays(f.name);
    }
  }

  lemma {:induction false} CutHeaders(h: map<string, string>, fs: seq<Field>, k: nat)
    requires forall i :: 0 <= i < |fs| ==> ValidField(fs[i])
    ensures AddHeaders(h, CutLines(FieldLines(fs), k)).ok <==> ColonInCut(FieldLines(fs), k)
    decreases |fs|
  {
    hide *;
    if fs == [] || k == 0 {
      CutNowhere(h, fs, k);
    } else {
      FieldLinesTail(fs);
      FieldsTail(fs);
      if k <= |FieldLine(fs[0])| + 1 {
        CutInField(h, fs, k);
      } else {
        ReadFieldLine(fs[0]);
        CutHeaders(h[Lower(fs[0].name) := fs[0].value], fs[1..], k - |FieldLine(fs[0])| - 2);
        CutLater(h, fs, k);
      }
    }
  }

  lemma FieldsTail(fs: seq<Field>)
    requires fs != [] && forall i :: 0 <= i < |fs| ==> ValidField(fs[i])
    ensures ValidField(fs[0]) && forall i :: 0 <= i < |fs[1..]| ==> ValidField(fs[1..][i])
  {
    hide ValidField;
  }

  lemma CutNowhere(h: map<string, string>, fs: seq<Field>, k: nat)
    requires fs == [] || k == 0
    ensures AddHeaders(h, CutLines(FieldLines(fs), k)).ok && ColonInCut(FieldLines(fs), k)
  {}

  lemma FieldLinesTail(fs: seq<Field>)
    requires fs != []
    ensures FieldLines(fs)[0] == FieldLine(fs[0]) && FieldLines(fs)[1..] == FieldLines(fs[1..])
  {
    hide FieldLine;
  }

  lemma CutInField(h: map<string, string>, fs: seq<Field>, k: nat)
    requires fs != [] && ValidField(fs[0]) && 0 < k <= |FieldLine(fs[0])| + 1
    ensures AddHeaders(h, CutLines(FieldLines(fs), k)).ok <==> ColonInCut(FieldLines(fs), k)
  {
    hide ReadHeader, ValidField, FieldLine, NoBreak, Lower;
    ReadFieldLine(fs[0]);
    if k <= |FieldLine(fs[0])| { CutField(fs[0], k); }
  }

  lemma CutLater(h: map<string, string>, fs: seq<Field>, k: nat)
    requires fs != [] && k > |FieldLine(fs[0])| + 1 && FieldLines(fs)[1..] == FieldLines(fs[1..])
    requires ReadHeader(FieldLine(fs[0])) == Some(Header(Lower(fs[0].name), fs[0].value))
    ensures var k' := k - |FieldLine(fs[0])| - 2;
            && AddHeaders(h, CutLines(FieldLines(fs), k)) == AddHeaders(h[Lower(fs[0].name) := fs[0].value], CutLines(FieldLines(fs[1..]), k'))
            && (ColonInCut(FieldLines(fs), k) <==> ColonInCut(FieldLines(fs[1..]), k'))
  {
    hide ReadHeader, FieldLine, Lower;
    var more := CutLines(FieldLines(fs[1..]), k - |FieldLine(fs[0])| - 2);
    var lines: seq<string> := [FieldLine(fs[0])] + more;
    assert lines[1..] == more;
  }

  // ---------- No separator yet ----------

  /** Every line feed of a printed head stands behind a carriage return. */
  lemma {:induction false} FeedsAfterReturns(lines: seq<string>, p: nat)
    requires GoodLines(lines) && p < |LinesOnto(lines, "")| && LinesOnto(lines, "")[p] == '\n'
    ensures p > 0 && LinesOnto(lines, "")[p - 1] == '\r'
    decreases |lines|
  {
    if lines != [] {
      var line, more := lines[0], LinesOnto(lines[1..], "");
      assert NoBreak(line);
      if p >= |line| + 2 {
        assert LinesOnto(lines, "")[p] == more[p - |line| - 2];
        FeedsAfterReturns(lines[1..], p - |line| - 2);
        assert LinesOnto(lines, "")[p - 1] == more[p - 1 - |line| - 2];
      }
    }
  }

  lemma {:induction false} NoSeparatorInCut(m: Message, k: nat, max: nat)
    requires ValidMessage(m, max) && k < |HeadText(m)|
    ensures FindSeparator(HeadText(m)[..k]) == NoSeparator
  {
    var s := HeadText(m)[..k];
    PrintedSeparator(m, "");
    HeadLinesGood(m);
    hide ValidMessage, HeadLines, LinesOnto, GoodLines;
    var e, f := HeadEnd(s, 0), LfLf(s, 0);
    if e < |s| {
      assert HeadEndAt(HeadText(m), e);
      FirstHeadEnd(HeadText(m), 0, e);
    }
    if f < |s| { FeedsAfterReturns(HeadLines(m), f + 1); }
  }

  // ---------- Where a head may be cut ----------

  /** The request line is complete, and so is the name of the field that is cut, with its
      colon. */
  predicate HeadCutOk(m: Message, k: nat) {
    var n := |StartLine(m)|;
    n <= k && (n + 2 < k ==> ColonInCut(FieldLines(m.fields), k - n - 2))
  }

  /** What the head stage makes of a cut head. */
  predicate CutOutcome(m: Message, k: nat, o: Outcome) {
    && o.ok == HeadCutOk(m, k)
    && o.req == o.req.(malformed := !o.ok, lengthValid := true, conflicting := false, tooLarge := false)
  }

  lemma CutHead(m: Message, k: nat, max: nat)
    requires ValidMessage(m, max) && 0 < k < |HeadText(m)|
    ensures CutOutcome(m, k, ParseHead(FRESH, HeadText(m)[..k]))
  {
    PrintedLines(m, "");
    hide LinesOnto, ValidMessage, ParseHead, StartLine, HeadText, FieldLines, CutOutcome;
    if k <= |StartLine(m)| + 1 { CutFirst(m, k, max); } else { CutBehind(m, k, max); }
  }

  lemma CutFirst(m: Message, k: nat, max: nat)
    requires ValidMessage(m, max) && 0 < k < |HeadText(m)| && k <= |StartLine(m)| + 1
    ensures CutOutcome(m, k, ParseHead(FRESH, HeadText(m)[..k]))
  {
    hide LinesOnto, AddHeaders, HeaderLines, ReadWords, StartLine, ValidField, FieldLines;
    var start, raw, n := StartLine(m), HeadText(m)[..k], |StartLine(m)|;
    PrintedLines(m, "");
    StartLineNoBreak(m);
    ReadStartLine(m);
    var piece := if k <= n then start[..k] else start + "\r";
    assert raw == piece;
    FirstLineCut(start, piece);
    if k < n { CutStartLine(m, k); }
    assert start[..n] == start;
    NoLinesLeft(raw);
    NoHeaders();
  }

  /** The head stage on a complete request line. */
  lemma HeadOf(m: Message, t: string, max: nat)
    requires ValidMessage(m, max)
    ensures (
        var start := StartLine(m);
        var hs := AddHeaders(map[], HeaderLines((start + CRLF) + t, |start + CRLF|));
        var o := ParseHead(FRESH, start + (CRLF + t));
        o.ok == hs.ok && o.req == o.req.(malformed := !hs.ok, lengthValid := true, conflicting := false, tooLarge := false))
  {
    hide AddHeaders, HeaderLines, ReadWords, StartLine, ValidField, IndexOf, StripCr, NoBreak, VersionOk, FieldMap;
    hide TargetPath, TargetQueries, Word;
    var start, raw := StartLine(m), StartLine(m) + (CRLF + t);
    StartLineNoBreak(m);
    ReadStartLine(m);
    assert "" + raw == raw && raw[0..IndexOf(raw, '\n', 0)] == raw[..IndexOf(raw, '\n', 0)];
    GetLine("", start, t);
    LineStep("", start, t);
    assert "" + (start + CRLF) == start + CRLF;
  }

  lemma CutBehind(m: Message, k: nat, max: nat)
    requires ValidMessage(m, max) && |StartLine(m)| + 1 < k < |HeadText(m)|
    ensures CutOutcome(m, k, ParseHead(FRESH, HeadText(m)[..k]))
  {
    hide *;
    CutText(m, k);
    FieldsOf(m, max);
    var k' := k - |StartLine(m)| - 2;
    HeadOf(m, LinesOnto(FieldLines(m.fields), "")[..k'], max);
    HeaderLinesCut(StartLine(m) + CRLF, FieldLines(m.fields), k');
    CutHeaders(map[], m.fields, k');
    CutOutcomeIs(m, k, ParseHead(FRESH, HeadText(m)[..k]));
  }

  lemma CutOutcomeIs(m: Message, k: nat, o: Outcome)
    requires k > |StartLine(m)| + 1 && o.ok == ColonInCut(FieldLines(m.fields), k - |StartLine(m)| - 2)
    requires o.req == o.req.(malformed := !o.ok, lengthValid := true, conflicting := false, tooLarge := false)
    ensures CutOutcome(m, k, o)
  {
    hide StartLine, FieldLines;
  }

  lemma CutText(m: Message, k: nat)
    requires |StartLine(m)| + 1 < k < |HeadText(m)|
    ensures var k' := k - |StartLine(m)| - 2;
            && k' <= |LinesOnto(FieldLines(m.fields), "")|
            && HeadText(m)[..k] == StartLine(m) + (CRLF + LinesOnto(FieldLines(m.fields), "")[..k'])
  {
    PrintedLines(m, "");
    hide LinesOnto, StartLine, FieldLines, HeadLines;
    HeadCutText(StartLine(m), LinesOnto(FieldLines(m.fields), ""), k - |StartLine(m)| - 2);
  }

  lemma HeadCutText(start: string, more: string, n: nat)
    requires n <= |more|
    ensures (start + (CRLF + more))[..|start| + 2 + n] == start + (CRLF + more[..n])
  {}

  lemma FieldsOf(m: Message, max: nat)
    requires ValidMessage(m, max)
    ensures (forall i :: 0 <= i < |m.fields| ==> ValidField(m.fields[i])) && GoodLines(FieldLines(m.fields))
  {
    hide ValidField, NoBreak, FieldMap, Word, VersionOk, ValidFraming;
    FieldLinesNoBreak(m.fields);
  }

  lemma NoLinesLeft(raw: string)
    ensures HeaderLines(raw, |raw|) == []
  {}

  lemma NoHeaders()
    ensures AddHeaders(map[], []).ok
  {}

  lemma FirstLineCut(line: string, piece: string)
    requires NoBreak(line) && line != "" && piece != "" && (piece == line + "\r" || piece <= line)
    ensures IndexOf(piece, '\n', 0) == |piece| && StripCr(piece[..|piece|]) == if piece <= line then piece else line
  {
    assert piece[0..|piece|] == piece && '\n' !in piece;
    IndexOfIs(piece, '\n', 0, |piece|);
    assert (line + "\r")[..|line|] == line;
  }

  /** A head of which bytes are missing waits for them exactly when the request line and the
      name of the field in which it is cut are there; otherwise it is rejected as malformed,
      although nothing is wrong with the message. */
  lemma {:induction false} PartialHeadWaitsIff(m: Message, k: nat, max: nat)
    requires ValidMessage(m, max) && max < MAX_SIZE && 0 < k < |HeadText(m)| < MAX_SIZE
    ensures var o := Parse(FRESH, HeadText(m)[..k], max);
            && !o.ok && (o.req.Unrejected() <==> HeadCutOk(m, k))
            && o.req.lengthValid && !o.req.conflicting && !o.req.tooLarge
  {
    CutHead(m, k, max);
    NoSeparatorInCut(m, k, max);
    ParseStages(FRESH, HeadText(m)[..k], max);
    assert Begin(FRESH) == FRESH;
    hide ParseHead, FindSeparator, HeadText, HeadCutOk, ValidMessage, Parse;
  }
}

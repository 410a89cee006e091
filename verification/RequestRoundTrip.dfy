/** Printing well-formed requests and parsing them back, alone, with anything behind
    them, and in a pipeline. */
module RequestRoundTrip {
  import opened Text
  import opened ChunkedBody
  import opened RequestSyntax
  import opened RequestParser

  // ---------- Messages ----------

  /** A header field; pad are the blanks printed before the value. */
  datatype Field = Field(name: string, pad: string, value: string)

  datatype Framing = NoBody | Sized(body: string) | Chunks(coded: Coded)

  datatype Message = Message(method_: string, target: string, version: string, fields: seq<Field>, framing: Framing)

  predicate Word(s: string) { s != "" && forall k :: 0 <= k < |s| ==> !IsSpace(s[k]) }

  predicate NoBreak(s: string) { forall k :: 0 <= k < |s| ==> s[k] != '\r' && s[k] != '\n' }

  predicate Trimmed(s: string) { s == "" || (!IsBlank(s[0]) && !IsBlank(s[|s| - 1])) }

  predicate ValidField(f: Field) {
    && f.name != "" && Trimmed(f.name) && NoBreak(f.name) && ':' !in f.name
    && (forall k :: 0 <= k < |f.pad| ==> IsBlank(f.pad[k]))
    && Trimmed(f.value) && NoBreak(f.value)
  }

  /** The fields as the handler sees them: names in lower case, the last of a name counts. */
  function FieldMap(m: map<string, string>, fs: seq<Field>): map<string, string>
    decreases |fs|
  {
    if fs == [] then m else FieldMap(m[Lower(fs[0].name) := fs[0].value], fs[1..])
  }

  predicate SaysLength(h: map<string, string>, n: nat) {
    && "content-length" in h && h["content-length"] != "" && AllDigits(h["content-length"])
    && DecNum(h["content-length"]) == n
  }

  predicate SaysChunked(h: map<string, string>) {
    "transfer-encoding" in h && Contains(h["transfer-encoding"], "chunked")
  }

  /** The body is the one that the fields announce, wherever among the fields and in
      whichever case they stand. */
  predicate ValidFraming(h: map<string, string>, fr: Framing, max: nat) {
    match fr
    case NoBody => "content-length" !in h && !SaysChunked(h)
    case Sized(body) => SaysLength(h, |body|) && !SaysChunked(h) && |body| <= max
    case Chunks(coded) => "content-length" !in h && SaysChunked(h) && ValidCoded(coded) && |Data(coded.chunks)| <= max
  }

  /** The start line and the fields, whatever body they announce. */
  predicate ValidHead(m: Message) {
    && Word(m.method_) && Word(m.target) && Word(m.version) && VersionOk(m.version)
    && forall k :: 0 <= k < |m.fields| ==> ValidField(m.fields[k])
  }

  predicate ValidMessage(m: Message, max: nat) {
    ValidHead(m) && ValidFraming(FieldMap(map[], m.fields), m.framing, max)
  }

  function FieldLine(f: Field): string { f.name + (":" + (f.pad + f.value)) }

  function FieldLines(fs: seq<Field>): (r: seq<string>)
    ensures |r| == |fs|
  {
    if fs == [] then [] else [FieldLine(fs[0])] + FieldLines(fs[1..])
  }

  function StartLine(m: Message): string { m.method_ + (" " + (m.target + (" " + m.version))) }

  function HeadLines(m: Message): seq<string> { [StartLine(m)] + FieldLines(m.fields) }

  function BodyText(fr: Framing): string {
    match fr
    case NoBody => ""
    case Sized(body) => body
    case Chunks(coded) => Encode(coded)
  }

  /** The printed message, followed by rest. */
  function PrintOnto(m: Message, rest: string): string {
    LinesOnto(HeadLines(m), BodyText(m.framing) + rest)
  }

  function Print(m: Message): string { PrintOnto(m, "") }

  function HeadText(m: Message): string { LinesOnto(HeadLines(m), "") }

  function MessageBody(fr: Framing): string {
    match fr
    case NoBody => ""
    case Sized(body) => body
    case Chunks(coded) => Data(coded.chunks)
  }

  /** The request that the handler must see. */
  function Expected(m: Message): Request {
    FRESH.(
      method_ := m.method_, path := TargetPath(m.target), version := m.version,
      queries := TargetQueries(map[], m.target), headers := FieldMap(map[], m.fields),
      body := MessageBody(m.framing), headerEnd := |HeadText(m)| - 4, sepLen := 4,
      bodyConsumed := |BodyText(m.framing)|,
      contentLength := if m.framing.Sized? then |m.framing.body| else 0)
  }

  // ---------- The request line ----------

  lemma {:induction false} SkipSpaceIs(s: string, i: nat, j: nat)
    requires i <= j <= |s| && (forall k :: i <= k < j ==> IsSpace(s[k])) && (j < |s| ==> !IsSpace(s[j]))
    ensures SkipSpace(s, i) == j
    decreases j - i
  {
    if i < j { SkipSpaceIs(s, i + 1, j); }
  }

  lemma {:induction false} WordEndIs(s: string, i: nat, j: nat)
    requires i <= j <= |s| && (forall k :: i <= k < j ==> !IsSpace(s[k])) && (j < |s| ==> IsSpace(s[j]))
    ensures WordEnd(s, i) == j
    decreases j - i
  {
    if i < j { WordEndIs(s, i + 1, j); }
  }

  lemma ReadStartLine(m: Message)
    requires Word(m.method_) && Word(m.target) && Word(m.version)
    ensures ReadWords(StartLine(m)) == Some(RequestLine(m.method_, m.target, m.version))
  {
    hide SkipSpace, WordEnd;
    var s, a := StartLine(m), |m.method_|;
    var b, c := a + 1 + |m.target|, a + 1 + |m.target| + 1 + |m.version|;
    StartLineChars(m);
    SkipSpaceIs(s, 0, 0);
    WordEndIs(s, 0, a);
    SkipSpaceIs(s, a, a + 1);
    WordEndIs(s, a + 1, b);
    SkipSpaceIs(s, b, b + 1);
    WordEndIs(s, b + 1, c);
    assert s[0..a] == m.method_ && s[a + 1..b] == m.target && s[b + 1..c] == m.version;
  }

  lemma StartLineChars(m: Message)
    ensures var s, a := StartLine(m), |m.method_|;
            var b := a + 1 + |m.target|;
            && |s| == b + 1 + |m.version| && s[a] == ' ' && s[b] == ' '
            && (forall k :: 0 <= k < a ==> s[k] == m.method_[k])
            && (forall k :: a + 1 <= k < b ==> s[k] == m.target[k - a - 1])
            && (forall k :: b + 1 <= k < |s| ==> s[k] == m.version[k - b - 1])
  {}

  lemma StartLineNoBreak(m: Message)
    requires Word(m.method_) && Word(m.target) && Word(m.version)
    ensures NoBreak(StartLine(m)) && StartLine(m) != ""
  {
    StartLineChars(m);
    var s, a := StartLine(m), |m.method_|;
    var b := a + 1 + |m.target|;
    forall k | 0 <= k < |s| ensures s[k] != '\r' && s[k] != '\n' {
      if k < a { assert !IsSpace(m.method_[k]); }
      else if a < k < b { assert !IsSpace(m.target[k - a - 1]); }
      else if b < k { assert !IsSpace(m.version[k - b - 1]); }
    }
  }

  // ---------- Field lines ----------

  lemma TrimStartPad(pad: string, v: string)
    requires (forall k :: 0 <= k < |pad| ==> IsBlank(pad[k])) && Trimmed(v)
    ensures TrimStart(pad + v) == v
  {
    if pad == "" {
      assert pad + v == v;
    } else {
      assert (pad + v)[1..] == pad[1..] + v;
      TrimStartPad(pad[1..], v);
    }
  }

  lemma ReadFieldLine(f: Field)
    requires ValidField(f)
    ensures ReadHeader(FieldLine(f)) == Some(Header(Lower(f.name), f.value))
    ensures NoBreak(FieldLine(f)) && FieldLine(f) != ""
  {
    hide Lower, NoBreak;
    var tail := f.pad + f.value;
    var line := f.name + [':'] + tail;
    assert FieldLine(f) == line;
    FieldLineNoBreak(f);
    IndexOfPrefix(f.name, ':', tail);
    assert line[..|f.name|] == f.name && line[|f.name| + 1..] == tail;
    TrimStartPad(f.pad, f.value);
    TrimmedStays(f.name);
    TrimmedStays(f.value);
  }

  lemma TrimmedStays(s: string)
    requires Trimmed(s)
    ensures TrimStart(s) == s && TrimEnd(s) == s
  {}

  lemma FieldLineNoBreak(f: Field)
    requires ValidField(f)
    ensures NoBreak(FieldLine(f)) && FieldLine(f) != ""
  {
    var line, n := FieldLine(f), |f.name|;
    forall k | 0 <= k < |line| ensures line[k] != '\r' && line[k] != '\n' {
      if n < k <= n + |f.pad| { assert line[k] == f.pad[k - n - 1] && IsBlank(f.pad[k - n - 1]); }
      else if n + |f.pad| < k { assert line[k] == f.value[k - n - 1 - |f.pad|]; }
    }
  }

  lemma {:induction false} AddFieldLines(m: map<string, string>, fs: seq<Field>)
    requires forall k :: 0 <= k < |fs| ==> ValidField(fs[k])
    ensures AddHeaders(m, FieldLines(fs)) == Headers(FieldMap(m, fs), true)
    decreases |fs|
  {
    if fs != [] {
      hide ReadHeader, ValidField;
      ReadFieldLine(fs[0]);
      AddFieldLines(m[Lower(fs[0].name) := fs[0].value], fs[1..]);
      assert FieldLines(fs)[1..] == FieldLines(fs[1..]);
    }
  }

  lemma {:induction false} FieldLinesNoBreak(fs: seq<Field>)
    requires forall k :: 0 <= k < |fs| ==> ValidField(fs[k])
    ensures forall k :: 0 <= k < |fs| ==> NoBreak(FieldLines(fs)[k]) && FieldLines(fs)[k] != ""
  {
    if fs != [] {
      hide ValidField, NoBreak;
      ReadFieldLine(fs[0]);
      FieldLinesNoBreak(fs[1..]);
    }
  }

  // ---------- Lines of a printed head ----------

  predicate GoodLines(lines: seq<string>) {
    forall k :: 0 <= k < |lines| ==> NoBreak(lines[k]) && lines[k] != ""
  }

  /** getline over a printed line. */
  lemma GetLine(pre: string, line: string, more: string)
    requires NoBreak(line)
    ensures var s := pre + (line + (CRLF + more));
            var e := IndexOf(s, '\n', |pre|);
            && e == |pre| + |line| + 1 && e < |s|
            && StripCr(s[|pre|..e]) == line
  {
    var s, e := pre + (line + (CRLF + more)), |pre| + |line| + 1;
    assert s[e] == '\n';
    assert s[|pre|..e] == line + "\r";
    IndexOfIs(s, '\n', |pre|, e);
    assert (line + "\r")[..|line|] == line;
  }

  lemma {:induction false} HeaderLinesOf(pre: string, lines: seq<string>, rest: string)
    requires GoodLines(lines)
    ensures HeaderLines(pre + LinesOnto(lines, rest), |pre|) == lines
    decreases |lines|
  {
    hide IndexOf, StripCr, NoBreak;
    if lines == [] {
      assert pre + LinesOnto(lines, rest) == pre + ("" + (CRLF + rest));
      EmptyNoBreak();
      GetLine(pre, "", rest);
    } else {
      var line, more := lines[0], LinesOnto(lines[1..], rest);
      GetLine(pre, line, more);
      LineStep(pre, line, more);
      HeaderLinesOf(pre + (line + CRLF), lines[1..], rest);
    }
  }

  lemma EmptyNoBreak()
    ensures NoBreak("")
  {}

  lemma {:induction false} HeadEndIs(s: string, pos: nat, e: nat)
    requires pos <= e < |s| && HeadEndAt(s, e) && forall k: nat :: pos <= k < e ==> !HeadEndAt(s, k)
    ensures HeadEnd(s, pos) == e
    decreases e - pos
  {
    if pos < e { HeadEndIs(s, pos + 1, e); }
  }

  lemma {:induction false} HeadEndSkip(s: string, pos: nat, e: nat)
    requires pos <= e <= |s| && forall k: nat :: pos <= k < e ==> !HeadEndAt(s, k)
    ensures HeadEnd(s, pos) == HeadEnd(s, e)
    decreases e - pos
  {
    if pos < e { HeadEndSkip(s, pos + 1, e); }
  }

  /** The double CRLF is found at the end of the printed head, not before. */
  lemma {:induction false} HeadEndOf(pre: string, lines: seq<string>, rest: string)
    requires GoodLines(lines) && lines != []
    ensures HeadEnd(pre + LinesOnto(lines, rest), |pre|) == |pre| + |LinesOnto(lines, "")| - 4
    ensures |LinesOnto(lines, "")| >= 4
    decreases |lines|
  {
    hide NoBreak, HeadEndAt;
    var line, more := lines[0], LinesOnto(lines[1..], rest);
    var s, e := pre + (line + (CRLF + more)), |pre| + |line|;
    assert LinesOnto(lines, "") == line + (CRLF + LinesOnto(lines[1..], ""));
    NoHeadEndInLine(pre, line, more);
    if |lines| == 1 {
      HeadEndHere(pre, line, rest);
      HeadEndIs(s, |pre|, e);
    } else {
      assert NoBreak(lines[1]) && lines[1] != "";
      NoHeadEndYet(pre, line, lines[1], CRLF + LinesOnto(lines[1..][1..], rest));
      HeadEndSkip(s, |pre|, e + 2);
      LineStep(pre, line, more);
      HeadEndOf(pre + (line + CRLF), lines[1..], rest);
    }
  }

  lemma NoHeadEndInLine(pre: string, line: string, more: string)
    requires NoBreak(line)
    ensures forall k: nat :: |pre| <= k < |pre| + |line| ==> !HeadEndAt(pre + (line + (CRLF + more)), k)
  {
    var s := pre + (line + (CRLF + more));
    forall k: nat | |pre| <= k < |pre| + |line| ensures !HeadEndAt(s, k) {
      assert s[k] == line[k - |pre|];
    }
  }

  lemma HeadEndHere(pre: string, line: string, rest: string)
    ensures HeadEndAt(pre + (line + (CRLF + (CRLF + rest))), |pre| + |line|)
  {
    var s, e := pre + (line + (CRLF + (CRLF + rest))), |pre| + |line|;
    assert s[e] == '\r' && s[e + 1] == '\n' && s[e + 2] == '\r' && s[e + 3] == '\n';
  }

  lemma NoHeadEndYet(pre: string, line: string, next: string, more: string)
    requires NoBreak(next) && next != ""
    ensures var s, e := pre + (line + (CRLF + (next + more))), |pre| + |line|;
            !HeadEndAt(s, e) && !HeadEndAt(s, e + 1)
  {
    var s, e := pre + (line + (CRLF + (next + more))), |pre| + |line|;
    assert s[e + 1] == '\n' && s[e + 2] == next[0];
  }

  // ---------- The whole head ----------

  lemma HeadLinesGood(m: Message)
    requires ValidHead(m)
    ensures GoodLines(HeadLines(m))
  {
    hide ValidField, NoBreak, Word, VersionOk, StartLine;
    StartLineNoBreak(m);
    FieldLinesNoBreak(m.fields);
  }

  /** What the head stage makes of a printed message, whatever body follows. */
  function HeadResult(m: Message): Request {
    FRESH.(method_ := m.method_, path := TargetPath(m.target), version := m.version,
           queries := TargetQueries(map[], m.target), headers := FieldMap(map[], m.fields))
  }

  lemma ParsePrintedHead(m: Message, rest: string)
    requires ValidHead(m)
    ensures ParseHead(FRESH, LinesOnto(HeadLines(m), rest)) == Outcome(HeadResult(m), true)
  {
    hide NoBreak, StartLine, ReadWords, VersionOk, HeaderLines, AddHeaders, StripCr, IndexOf, ValidField;
    hide FieldLines, FieldMap, TargetPath, TargetQueries, Word;
    var start, more := StartLine(m), LinesOnto(FieldLines(m.fields), rest);
    var raw := start + (CRLF + more);
    PrintedLines(m, rest);
    HeadLinesGood(m);
    assert HeadLines(m)[0] == start;
    assert "" + raw == raw && raw[0..IndexOf(raw, '\n', 0)] == raw[..IndexOf(raw, '\n', 0)];
    GetLine("", start, more);
    ReadStartLine(m);
    LineStep("", start, more);
    assert "" + (start + (CRLF + more)) == raw;
    FieldLinesNoBreak(m.fields);
    HeaderLinesOf("" + (start + CRLF), FieldLines(m.fields), rest);
    AddFieldLines(map[], m.fields);
  }

  lemma PrintedLines(m: Message, rest: string)
    ensures LinesOnto(HeadLines(m), rest) == StartLine(m) + (CRLF + LinesOnto(FieldLines(m.fields), rest))
  {
    assert HeadLines(m)[1..] == FieldLines(m.fields);
  }

  lemma PrintedSeparator(m: Message, rest: string)
    requires ValidHead(m)
    ensures FindSeparator(LinesOnto(HeadLines(m), rest)) == Separator(|HeadText(m)| - 4, 4)
    ensures |HeadText(m)| >= 4
  {
    hide HeadEnd, LinesOnto, HeadLines, GoodLines;
    HeadLinesGood(m);
    assert HeadLines(m) != [] by { HeadLinesNonEmpty(m); }
    var raw := LinesOnto(HeadLines(m), rest);
    assert "" + raw == raw;
    HeadEndOf("", HeadLines(m), rest);
    LinesOntoIs(HeadLines(m), rest);
  }

  lemma HeadLinesNonEmpty(m: Message)
    ensures HeadLines(m) != []
  {}

  // ---------- The framing fields ----------

  lemma {:induction false} FieldMapAppend(m: map<string, string>, a: seq<Field>, b: seq<Field>)
    ensures FieldMap(m, a + b) == FieldMap(FieldMap(m, a), b)
    decreases |a|
  {
    if a == [] {
      assert a + b == b;
    } else {
      assert (a + b)[1..] == a[1..] + b;
      FieldMapAppend(m[Lower(a[0].name) := a[0].value], a[1..], b);
    }
  }

  lemma {:induction false} OtherFields(m: map<string, string>, fs: seq<Field>, name: string)
    requires forall k :: 0 <= k < |fs| ==> Lower(fs[k].name) != name
    ensures name in FieldMap(m, fs) <==> name in m
    ensures name in m ==> FieldMap(m, fs)[name] == m[name]
    decreases |fs|
  {
    if fs != [] { OtherFields(m[Lower(fs[0].name) := fs[0].value], fs[1..], name); }
  }

  /** A field of a name that no other field has is what counts, wherever it stands. */
  lemma {:induction false} OnlyField(a: seq<Field>, f: Field, b: seq<Field>)
    requires forall k :: 0 <= k < |b| ==> Lower(b[k].name) != Lower(f.name)
    ensures Lower(f.name) in FieldMap(map[], a + ([f] + b)) && FieldMap(map[], a + ([f] + b))[Lower(f.name)] == f.value
  {
    FieldMapAppend(map[], a, [f] + b);
    assert ([f] + b)[1..] == b;
    OtherFields(FieldMap(map[], a)[Lower(f.name) := f.value], b, Lower(f.name));
  }

  /** So one framing field, anywhere among others and in any case, frames the body. */
  lemma {:induction false} FramedAnywhere(a: seq<Field>, f: Field, b: seq<Field>, fr: Framing, max: nat)
    requires forall k :: 0 <= k < |a + b| ==> Lower((a + b)[k].name) != "content-length" && Lower((a + b)[k].name) != "transfer-encoding"
    requires match fr
             case NoBody => false
             case Sized(body) =>
               Lower(f.name) == "content-length" && f.value != "" && AllDigits(f.value) && DecNum(f.value) == |body| <= max
             case Chunks(coded) =>
               && Lower(f.name) == "transfer-encoding" && Contains(f.value, "chunked")
               && ValidCoded(coded) && |Data(coded.chunks)| <= max
    ensures ValidFraming(FieldMap(map[], a + ([f] + b)), fr, max)
  {
    hide Lower, Contains, DecNum, ValidCoded;
    var name := Lower(f.name);
    var other := if fr.Sized? then "transfer-encoding" else "content-length";
    FramingNames();
    assert forall k :: 0 <= k < |a| ==> a[k] == (a + b)[k];
    assert forall k :: 0 <= k < |b| ==> b[k] == (a + b)[|a| + k];
    OnlyField(a, f, b);
    FieldMapAppend(map[], a, [f] + b);
    OtherFields(map[], a, other);
    OtherFields(FieldMap(map[], a), [f] + b, other);
  }

  lemma FramingNames()
    ensures "content-length" != "transfer-encoding"
  {
    assert "content-length"[0] == 'c' && "transfer-encoding"[0] == 't';
  }

  lemma ReadLengthOf(digits: string)
    requires digits != "" && AllDigits(digits) && DecNum(digits) < MAX_SIZE
    ensures ReadLength(digits) == Some(DecNum(digits))
  {
    assert IsDigit(digits[0]) && IsDigit(digits[|digits| - 1]);
    assert TrimEnd(TrimStart(digits)) == digits;
  }

  // ---------- Round trip of one message ----------

  lemma ParsePrintedBody(m: Message, rest: string, max: nat)
    requires ValidMessage(m, max) && max < MAX_SIZE && |PrintOnto(m, rest)| < MAX_SIZE
    requires |HeadText(m)| >= 4 && PrintOnto(m, rest) == HeadText(m) + (BodyText(m.framing) + rest)
    ensures ParseBody(HeadResult(m).(headerEnd := |HeadText(m)| - 4, sepLen := 4), PrintOnto(m, rest), |HeadText(m)|, max)
         == Outcome(Expected(m), true)
  {
    hide HeadText, PrintOnto, FieldMap, TargetPath, TargetQueries, Contains, ScanFrom, DecodeFrom;
    hide ReadLength, ValidField, Word, VersionOk, EncodeOnto;
    var raw, n := PrintOnto(m, rest), |HeadText(m)|;
    Drop(HeadText(m), BodyText(m.framing) + rest);
    match m.framing
    case NoBody =>
    case Sized(body) =>
      ReadLengthOf(FieldMap(map[], m.fields)["content-length"]);
      Drop(body, rest);
    case Chunks(coded) =>
      EncodeOntoIs(coded, rest);
      ScanOfEncoding(HeadText(m), coded, rest, 0, max);
      DecodeOfEncoding("", coded, rest, max);
      assert "" + EncodeOnto(coded, rest) == EncodeOnto(coded, rest);
  }

  /** A printed message parses to what it says, and consumes exactly itself, whatever
      bytes follow it. */
  lemma {:induction false} ParsePrinted(m: Message, rest: string, max: nat)
    requires ValidMessage(m, max) && max < MAX_SIZE && |PrintOnto(m, rest)| < MAX_SIZE
    ensures Parse(FRESH, PrintOnto(m, rest), max) == Outcome(Expected(m), true)
    ensures PrintOnto(m, rest) == Print(m) + rest
    ensures Expected(m).Consumed() == |Print(m)|
  {
    hide ParseHead, FindSeparator, ParseBody, LinesOnto, HeadLines, ValidHead, ValidFraming, BodyText;
    LinesOntoIs(HeadLines(m), BodyText(m.framing) + rest);
    LinesOntoIs(HeadLines(m), BodyText(m.framing) + "");
    Assoc(HeadText(m), BodyText(m.framing), rest);
    assert BodyText(m.framing) + "" == BodyText(m.framing);
    ParsePrintedHead(m, BodyText(m.framing) + rest);
    PrintedSeparator(m, BodyText(m.framing) + rest);
    ParsePrintedBody(m, rest, max);
    ParseStages(FRESH, PrintOnto(m, rest), max);
    assert Begin(FRESH) == FRESH;
  }

  // ---------- Pipelines ----------

  /** What the dispatcher does with a buffer, request after request: parse from the
      start, consume, go on while a request parses. */
  function ParseAll(raw: string, max: nat): (r: (seq<Request>, string))
    requires |raw| < MAX_SIZE && max < MAX_SIZE
    decreases |raw|
  {
    var o := Parse(FRESH, raw, max);
    if !o.ok then ([], raw)
    else
      ConsumedInBounds(FRESH, raw, max);
      var (more, left) := ParseAll(raw[o.req.Consumed()..], max);
      ([o.req] + more, left)
  }

  function PrintAll(ms: seq<Message>): string {
    if ms == [] then "" else Print(ms[0]) + PrintAll(ms[1..])
  }

  function ExpectedAll(ms: seq<Message>): seq<Request> {
    if ms == [] then [] else [Expected(ms[0])] + ExpectedAll(ms[1..])
  }

  /** A pipeline of printed messages parses to exactly those messages, in order, and
      leaves no byte over. */
  lemma {:induction false} PipelineRoundTrip(ms: seq<Message>, max: nat)
    requires max < MAX_SIZE && |PrintAll(ms)| < MAX_SIZE
    requires forall k :: 0 <= k < |ms| ==> ValidMessage(ms[k], max)
    ensures ParseAll(PrintAll(ms), max) == (ExpectedAll(ms), "")
  {
    hide Parse, Print, Expected, ValidMessage;
    if ms == [] {
      EmptyDoesNotParse(max);
    } else {
      var rest := PrintAll(ms[1..]);
      PrintOntoLength(ms[0], rest);
      ParsePrinted(ms[0], rest, max);
      Drop(Print(ms[0]), rest);
      PipelineRoundTrip(ms[1..], max);
    }
  }

  lemma EmptyDoesNotParse(max: nat)
    requires max < MAX_SIZE
    ensures !Parse(FRESH, "", max).ok
  {}

  lemma PrintOntoLength(m: Message, rest: string)
    ensures |PrintOnto(m, rest)| == |Print(m)| + |rest|
  {
    hide HeadLines, LinesOnto;
    LinesOntoIs(HeadLines(m), BodyText(m.framing) + rest);
    LinesOntoIs(HeadLines(m), BodyText(m.framing) + "");
  }

  // ---------- A message whose body has not arrived completely ----------

  /** A complete head with a proper prefix of its body is not rejected: parse fails
      and leaves every rejecting flag clear, so the dispatcher waits for more. */
  lemma {:induction false} PartialBodyWaits(m: Message, k: nat, max: nat)
    requires ValidMessage(m, max) && max < MAX_SIZE && |HeadText(m) + BodyText(m.framing)| < MAX_SIZE
    requires k < |BodyText(m.framing)|
    ensures var o := Parse(FRESH, HeadText(m) + BodyText(m.framing)[..k], max);
            !o.ok && o.req.Unrejected()
  {
    hide ParseHead, FindSeparator, ParseBody, LinesOnto, HeadLines, ValidHead, ValidFraming, BodyText;
    var part := BodyText(m.framing)[..k];
    LinesOntoIs(HeadLines(m), part);
    ParsePrintedHead(m, part);
    PrintedSeparator(m, part);
    PartialBody(m, k, max);
    ParseStages(FRESH, HeadText(m) + part, max);
    assert Begin(FRESH) == FRESH;
  }

  lemma PartialBody(m: Message, k: nat, max: nat)
    requires ValidMessage(m, max) && max < MAX_SIZE && k < |BodyText(m.framing)|
    requires |HeadText(m)| >= 4 && |HeadText(m)| + |BodyText(m.framing)| < MAX_SIZE
    ensures var raw := HeadText(m) + BodyText(m.framing)[..k];
            var o := ParseBody(HeadResult(m).(headerEnd := |HeadText(m)| - 4, sepLen := 4), raw, |HeadText(m)|, max);
            !o.ok && o.req.Unrejected()
  {
    hide HeadText, FieldMap, TargetPath, TargetQueries, Contains, ScanFrom, DecodeFrom, ReadLength;
    hide ValidField, Word, VersionOk, EncodeOnto;
    Drop(HeadText(m), BodyText(m.framing)[..k]);
    match m.framing
    case Sized(body) =>
      ReadLengthOf(FieldMap(map[], m.fields)["content-length"]);
    case Chunks(coded) =>
      ProperPrefixIncomplete(HeadText(m), coded, k, max);
  }
}

/** What the fields of a printed head decide: whether the connection is kept, and for which
    requests the dispatcher answers and closes. */
module RequestVerdicts {
  import opened ChunkedBody
  import opened RequestParser
  import opened RequestRoundTrip
  import opened RequestSyntax
  import opened ResponsePipeline
  import opened Text

  // ---------- Field names ----------

  /** The same letter in either case, or the same character. */
  predicate SameLetter(a: char, b: char) {
    || a == b
    || ('A' <= a <= 'Z' && b as int - a as int == 'a' as int - 'A' as int)
    || ('A' <= b <= 'Z' && a as int - b as int == 'a' as int - 'A' as int)
  }

  predicate SameName(a: string, b: string) {
    |a| == |b| && forall k :: 0 <= k < |a| ==> SameLetter(a[k], b[k])
  }

  /** Names are compared without regard to the case of letters, and to nothing else. */
  lemma {:induction false} LowerForgetsCase(a: string, b: string)
    ensures Lower(a) == Lower(b) <==> SameName(a, b)
  {
    assert forall c, d :: LowerChar(c) == LowerChar(d) <==> SameLetter(c, d);
    if Lower(a) == Lower(b) {
      forall k | 0 <= k < |a| ensures SameLetter(a[k], b[k]) {
        assert Lower(a)[k] == LowerChar(a[k]) && Lower(b)[k] == LowerChar(b[k]);
      }
    }
    if SameName(a, b) {
      forall k | 0 <= k < |a| ensures LowerChar(a[k]) == LowerChar(b[k]) { assert SameLetter(a[k], b[k]); }
      assert Lower(a) == Lower(b);
    }
  }

  predicate AlreadyLower(name: string) { forall k :: 0 <= k < |name| ==> !('A' <= name[k] <= 'Z') }

  /** The i-th field is the last one of this name. */
  predicate LastField(fs: seq<Field>, i: nat, name: string) {
    && i < |fs| && SameName(fs[i].name, name)
    && forall j :: i < j < |fs| ==> !SameName(fs[j].name, name)
  }

  predicate NoField(fs: seq<Field>, name: string) {
    forall j :: 0 <= j < |fs| ==> !SameName(fs[j].name, name)
  }

  lemma LowerKnown(name: string)
    requires AlreadyLower(name)
    ensures Lower(name) == name
  {}

  /** The last field of a name counts, in whichever case it is written; without one there is
      no value. */
  lemma {:induction false} LastFieldCounts(fs: seq<Field>, i: nat, name: string)
    requires AlreadyLower(name)
    ensures LastField(fs, i, name) ==> name in FieldMap(map[], fs) && FieldMap(map[], fs)[name] == fs[i].value
    ensures NoField(fs, name) ==> name !in FieldMap(map[], fs)
  {
    hide Lower, SameName, FieldMap;
    LowerKnown(name);
    forall k | 0 <= k < |fs| ensures Lower(fs[k].name) == name <==> SameName(fs[k].name, name) {
      LowerForgetsCase(fs[k].name, name);
    }
    if LastField(fs, i, name) {
      var a, f, b := fs[..i], fs[i], fs[i + 1..];
      assert fs == a + ([f] + b);
      forall k | 0 <= k < |b| ensures Lower(b[k].name) != Lower(f.name) { assert b[k] == fs[i + 1 + k]; }
      OnlyField(a, f, b);
    }
    if NoField(fs, name) {
      OtherFields(map[], fs, name);
    }
  }

  // ---------- Whether the connection is kept ----------

  lemma FramingKnown()
    ensures AlreadyLower("connection") && AlreadyLower("content-length") && AlreadyLower("transfer-encoding")
    ensures AlreadyLower("close") && AlreadyLower("keep-alive")
  {}

  /** A 1.1 request keeps the connection unless its last Connection field says close, a 1.0
      request only if it says keep-alive, and any other version never. */
  lemma {:induction false} KeepsConnectionIff(m: Message, i: nat)
    requires LastField(m.fields, i, "connection") || NoField(m.fields, "connection")
    ensures (
        var says := if NoField(m.fields, "connection") then "" else m.fields[i].value;
        Expected(m).KeepAlive() <==>
          || (m.version == "HTTP/1.1" && !SameName(says, "close"))
          || (m.version == "HTTP/1.0" && SameName(says, "keep-alive")))
  {
    FramingKnown();
    LastFieldCounts(m.fields, i, "connection");
    var says := if NoField(m.fields, "connection") then "" else m.fields[i].value;
    LowerForgetsCase(says, "close");
    LowerForgetsCase(says, "keep-alive");
    LowerKnown("close");
    LowerKnown("keep-alive");
    LowerKnown("");
    assert NoField(m.fields, "connection") ==> !LastField(m.fields, i, "connection");
    hide FieldMap, Lower, SameName, HeadText, BodyText, MessageBody, NoField, LastField;
    assert Expected(m).headers == FieldMap(map[], m.fields) && Expected(m).version == m.version;
  }

  // ---------- Numbers ----------

  function Digit(n: nat): char
    requires n < 10
  {
    ['0', '1', '2', '3', '4', '5', '6', '7', '8', '9'][n]
  }

  function Decimal(n: nat): string {
    if n < 10 then [Digit(n)] else Decimal(n / 10) + [Digit(n % 10)]
  }

  function Zeros(k: nat): string { if k == 0 then "" else "0" + Zeros(k - 1) }

  lemma DigitValue(n: nat)
    requires n < 10
    ensures IsDigit(Digit(n)) && Digit(n) as int - '0' as int == n
  {}

  lemma DecNumSnoc(t: string, c: char)
    requires AllDigits(t) && IsDigit(c)
    ensures AllDigits(t + [c]) && DecNum(t + [c]) == 10 * DecNum(t) + (c as int - '0' as int)
  {
    assert (t + [c])[..|t|] == t;
  }

  lemma {:induction false} ZerosAreZero(k: nat)
    ensures AllDigits(Zeros(k)) && DecNum(Zeros(k)) == 0 && |Zeros(k)| == k
  {
    if k > 0 {
      ZerosAreZero(k - 1);
      ZerosSnoc(k - 1);
      DecNumSnoc(Zeros(k - 1), '0');
    }
  }

  lemma {:induction false} ZerosSnoc(k: nat)
    ensures Zeros(k + 1) == Zeros(k) + ['0']
  {
    if k > 0 { ZerosSnoc(k - 1); }
  }

  /** A length is the number that its digits write in base ten. */
  lemma {:induction false} DecimalReads(k: nat, n: nat)
    ensures Decimal(n) != "" && AllDigits(Zeros(k) + Decimal(n)) && DecNum(Zeros(k) + Decimal(n)) == n
  {
    ZerosAreZero(k);
    DigitValue(n % 10);
    if n < 10 {
      DecNumSnoc(Zeros(k), Digit(n));
    } else {
      DecimalReads(k, n / 10);
      DecNumSnoc(Zeros(k) + Decimal(n / 10), Digit(n % 10));
      assert Zeros(k) + Decimal(n) == Zeros(k) + Decimal(n / 10) + [Digit(n % 10)];
    }
  }

  lemma LengthReads(k: nat, n: nat)
    ensures ReadLength(Zeros(k) + Decimal(n)) == if n < 0x1_0000_0000_0000_0000 then Some(n) else None
  {
    DecimalReads(k, n);
    var t := Zeros(k) + Decimal(n);
    hide Zeros, Decimal;
    assert IsDigit(t[0]) && IsDigit(t[|t| - 1]);
    assert TrimEnd(TrimStart(t)) == t;
  }

  /** Something else than decimal digits. */
  predicate NoNumber(v: string) { v == "" || exists k :: 0 <= k < |v| && !('0' <= v[k] <= '9') }

  lemma NoLength(v: string)
    requires Trimmed(v) && NoNumber(v)
    ensures ReadLength(v) == None
  {
    TrimmedStays(v);
    if v != "" {
      var k :| 0 <= k < |v| && !('0' <= v[k] <= '9');
      assert !IsDigit(v[k]);
    }
  }

  // ---------- A head with anything behind it ----------

  /** The stage of the body decides. */
  lemma HeadThenBody(m: Message, rest: string, max: nat)
    requires ValidHead(m) && max < MAX_SIZE && |HeadText(m) + rest| < MAX_SIZE
    ensures |HeadText(m)| >= 4
    ensures Parse(FRESH, HeadText(m) + rest, max)
         == ParseBody(HeadResult(m).(headerEnd := |HeadText(m)| - 4, sepLen := 4), HeadText(m) + rest, |HeadText(m)|, max)
    ensures (HeadText(m) + rest)[|HeadText(m)|..] == rest
  {
    hide ParseHead, FindSeparator, ParseBody, LinesOnto, HeadLines, ValidHead;
    LinesOntoIs(HeadLines(m), rest);
    ParsePrintedHead(m, rest);
    PrintedSeparator(m, rest);
    ParseStages(FRESH, HeadText(m) + rest, max);
    Drop(HeadText(m), rest);
    assert Begin(FRESH) == FRESH;
  }

  lemma SaysChunkedIs(fs: seq<Field>, i: nat, a: string, b: string)
    requires LastField(fs, i, "transfer-encoding") && fs[i].value == a + ("chunked" + b)
    ensures SaysChunked(FieldMap(map[], fs))
  {
    hide FieldMap, SameName;
    FramingKnown();
    LastFieldCounts(fs, i, "transfer-encoding");
    var v := fs[i].value;
    assert At(v, "chunked", |a|) by { assert v[|a|..|a| + 7] == "chunked"; }
    FindFirst(v, "chunked", 0);
  }

  /** Both framings: refused before anything of the body is read. */
  lemma ConflictSeen(r: RequestParser.Request, raw: string, bodyStart: nat, max: nat)
    requires bodyStart <= |raw| < MAX_SIZE && max < MAX_SIZE && IsChunked(r) && HasLength(r)
    ensures !ParseBody(r, raw, bodyStart, max).ok && ParseBody(r, raw, bodyStart, max).req.conflicting
    ensures ParseBody(r, raw, bodyStart, max).req.tooLarge == r.tooLarge
  {
    hide ParseChunked, ParseSized, Contains;
  }

  /** The status by what was found out: too large is 413, every other fault 400, and a head that
      has not arrived and is already too long 431. */
  lemma StatusIs(r: RequestParser.Request, size: nat, lim: Limits)
    ensures r.tooLarge ==> Refusal(r, size, lim) == Some(413)
    ensures !r.tooLarge && (r.conflicting || r.malformed || !r.lengthValid) ==> Refusal(r, size, lim) == Some(400)
    ensures r.Unrejected() ==> Refusal(r, size, lim) == if size > lim.head then Some(431) else None
  {}

  /** What the dispatcher does with a buffer that does not parse. */
  lemma Refuses(buffer: string, lim: Limits, status: nat)
    requires Sane(buffer, lim) && !Parse(FRESH, buffer, lim.body).ok
    requires Refusal(Parse(FRESH, buffer, lim.body).req, |buffer|, lim) == Some(status)
    ensures NextJob(buffer, lim) == Some((Rejected(status), buffer))
  {
    hide Parse, Refusal;
  }

  /** And with one that parses, or waits for more. */
  lemma Accepts(buffer: string, lim: Limits)
    requires Sane(buffer, lim)
    ensures (
        var o := Parse(FRESH, buffer, lim.body);
        && (o.ok && o.req.headerEnd + o.req.sepLen <= lim.head
            ==> o.req.Consumed() <= |buffer| && NextJob(buffer, lim) == Some((Accepted(o.req), buffer[o.req.Consumed()..])))
        && (o.ok && o.req.headerEnd + o.req.sepLen > lim.head ==> NextJob(buffer, lim) == Some((Rejected(431), buffer)))
        && (!o.ok && o.req.Unrejected() ==> NextJob(buffer, lim) == if |buffer| > lim.head then Some((Rejected(431), buffer)) else None))
  {
    hide Parse;
    if Parse(FRESH, buffer, lim.body).ok { ConsumedInBounds(FRESH, buffer, lim.body); }
  }

  /** A request with both framing fields, in any order and case, is answered 400 whatever
      follows, and nothing of it is consumed. */
  lemma {:induction false} BothFramingsRejected(m: Message, i: nat, j: nat, a: string, b: string, rest: string, lim: Limits)
    requires ValidHead(m) && Sane(HeadText(m) + rest, lim)
    requires LastField(m.fields, i, "content-length")
    requires LastField(m.fields, j, "transfer-encoding") && m.fields[j].value == a + ("chunked" + b)
    ensures !Parse(FRESH, HeadText(m) + rest, lim.body).ok && Parse(FRESH, HeadText(m) + rest, lim.body).req.conflicting
    ensures NextJob(HeadText(m) + rest, lim) == Some((Rejected(400), HeadText(m) + rest))
  {
    SaysChunkedIs(m.fields, j, a, b);
    FramingKnown();
    LastFieldCounts(m.fields, i, "content-length");
    HeadThenBody(m, rest, lim.body);
    hide Parse, ParseBody, HeadText, FieldMap, LastField, TargetPath, TargetQueries, Contains, NextJob, Refusal, ValidHead;
    var raw := HeadText(m) + rest;
    ConflictSeen(HeadResult(m).(headerEnd := |HeadText(m)| - 4, sepLen := 4), raw, |HeadText(m)|, lim.body);
    StatusIs(Parse(FRESH, raw, lim.body).req, |raw|, lim);
    Refuses(raw, lim, 400);
  }

  /** No transfer coding that says chunked. */
  ghost predicate Unchunked(fs: seq<Field>) {
    || NoField(fs, "transfer-encoding")
    || exists j: nat :: LastField(fs, j, "transfer-encoding") && forall k: nat :: !At(fs[j].value, "chunked", k)
  }

  lemma UnchunkedSays(fs: seq<Field>)
    requires Unchunked(fs)
    ensures !SaysChunked(FieldMap(map[], fs))
  {
    hide FieldMap, SameName;
    FramingKnown();
    if NoField(fs, "transfer-encoding") {
      LastFieldCounts(fs, 0, "transfer-encoding");
    } else {
      var j: nat :| LastField(fs, j, "transfer-encoding") && forall k: nat :: !At(fs[j].value, "chunked", k);
      LastFieldCounts(fs, j, "transfer-encoding");
      FindFirst(fs[j].value, "chunked", 0);
    }
  }

  /** Too large, conflicting, bad length, malformed. */
  function Flags(r: RequestParser.Request): (bool, bool, bool, bool) { (r.tooLarge, r.conflicting, !r.lengthValid, r.malformed) }

  /** How a sized body is judged, by the length that is said. */
  ghost predicate SizedAs(head: string, rest: string, v: Option<nat>, max: nat)
    requires max < MAX_SIZE && |head + rest| < MAX_SIZE
  {
    var o := Parse(FRESH, head + rest, max);
    match v
    case None => !o.ok && Flags(o.req) == (false, false, true, false)
    case Some(n) =>
      if n > max then !o.ok && Flags(o.req) == (true, false, false, false)
      else if n > |rest| then !o.ok && Flags(o.req) == (false, false, false, false)
      else o.ok && o.req.body == rest[..n] && o.req.Consumed() == |head| + n && o.req.headerEnd + o.req.sepLen == |head|
  }

  /** The stage of a sized body, given the length that the fields say. */
  lemma SizedStage(r: RequestParser.Request, raw: string, bodyStart: nat, max: nat)
    requires bodyStart <= |raw| < MAX_SIZE && max < MAX_SIZE && !IsChunked(r) && HasLength(r)
    ensures (
        var o, v, rest := ParseBody(r, raw, bodyStart, max), ReadLength(r.headers["content-length"]), raw[bodyStart..];
        match v
        case None => !o.ok && o.req == r.(contentLength := 0, lengthValid := false, body := "", bodyConsumed := 0)
        case Some(n) =>
          if n > max then !o.ok && o.req == r.(contentLength := n, lengthValid := true, tooLarge := true, body := "", bodyConsumed := 0)
          else if n > |rest| then !o.ok && Flags(o.req) == Flags(r.(lengthValid := true))
          else o.ok && o.req == r.(contentLength := n, lengthValid := true, body := rest[..n], bodyConsumed := n))
  {
    hide ParseChunked, Contains, ReadLength;
  }

  lemma SizedBody(m: Message, i: nat, rest: string, max: nat)
    requires ValidHead(m) && max < MAX_SIZE && |HeadText(m) + rest| < MAX_SIZE
    requires Unchunked(m.fields) && LastField(m.fields, i, "content-length")
    ensures SizedAs(HeadText(m), rest, ReadLength(m.fields[i].value), max)
  {
    UnchunkedSays(m.fields);
    FramingKnown();
    LastFieldCounts(m.fields, i, "content-length");
    HeadThenBody(m, rest, max);
    hide Parse, ParseBody, HeadText, FieldMap, LastField, Unchunked, TargetPath, TargetQueries, Contains, ReadLength, ValidHead;
    var r := HeadResult(m).(headerEnd := |HeadText(m)| - 4, sepLen := 4);
    SizedStage(r, HeadText(m) + rest, |HeadText(m)|, max);
  }

  lemma SizedVerdict(head: string, rest: string, v: Option<nat>, lim: Limits)
    requires Sane(head + rest, lim) && SizedAs(head, rest, v, lim.body) && (v.Some? && v.value <= lim.body ==> |head| <= lim.head)
    ensures (
        var buffer := head + rest;
        var next := NextJob(buffer, lim);
        match v
        case None => next == Some((Rejected(400), buffer))
        case Some(n) =>
          if n > lim.body then next == Some((Rejected(413), buffer))
          else if n > |rest| then next == if |buffer| > lim.head then Some((Rejected(431), buffer)) else None
          else next.Some? && next.value.0.Accepted? && next.value.0.req.body == rest[..n] && next.value.1 == rest[n..])
  {
    hide Parse, NextJob, Refusal;
    var buffer := head + rest;
    StatusIs(Parse(FRESH, buffer, lim.body).req, |buffer|, lim);
    Accepts(buffer, lim);
    match v
    case None => Refuses(buffer, lim, 400);
    case Some(n) =>
      if n > lim.body {
        Refuses(buffer, lim, 413);
      } else if n <= |rest| {
        assert buffer[|head| + n..] == rest[n..];
      }
  }

  /** A length that is no number is answered 400. */
  lemma {:induction false} BadLengthRejected(m: Message, i: nat, rest: string, lim: Limits)
    requires ValidHead(m) && Sane(HeadText(m) + rest, lim)
    requires Unchunked(m.fields) && LastField(m.fields, i, "content-length") && NoNumber(m.fields[i].value)
    ensures NextJob(HeadText(m) + rest, lim) == Some((Rejected(400), HeadText(m) + rest))
  {
    NoLength(m.fields[i].value) by { assert ValidField(m.fields[i]); }
    hide SizedAs, HeadText, LastField, Unchunked, NextJob, NoNumber, ReadLength, ValidHead;
    SizedBody(m, i, rest, lim.body);
    SizedVerdict(HeadText(m), rest, None, lim);
  }

  /** A length n in decimal, with leading zeros or not: 400 when it does not fit 64 bits, 413
      when it exceeds the limit; otherwise the n bytes behind the head are the body, as soon as
      they are there. */
  lemma {:induction false} LengthDecides(m: Message, i: nat, k: nat, n: nat, rest: string, lim: Limits)
    requires ValidHead(m) && Sane(HeadText(m) + rest, lim) && |HeadText(m)| <= lim.head
    requires Unchunked(m.fields) && LastField(m.fields, i, "content-length") && m.fields[i].value == Zeros(k) + Decimal(n)
    ensures (
        var buffer := HeadText(m) + rest;
        var next := NextJob(buffer, lim);
        if n >= 0x1_0000_0000_0000_0000 then next == Some((Rejected(400), buffer))
        else if n > lim.body then next == Some((Rejected(413), buffer))
        else if n > |rest| then next == if |buffer| > lim.head then Some((Rejected(431), buffer)) else None
        else next.Some? && next.value.0.Accepted? && next.value.0.req.body == rest[..n] && next.value.1 == rest[n..])
  {
    var value := m.fields[i].value;
    hide SizedAs, HeadText, LastField, Unchunked, ReadLength, Zeros, Decimal, NextJob, ValidHead;
    LengthReads(k, n);
    SizedBody(m, i, rest, lim.body);
    SizedVerdict(HeadText(m), rest, ReadLength(value), lim);
  }

  /** A complete message whose head exceeds the limit is answered 431. */
  lemma {:induction false} LongHeadRejected(m: Message, rest: string, lim: Limits)
    requires ValidMessage(m, lim.body) && Sane(Print(m) + rest, lim) && |HeadText(m)| > lim.head
    ensures NextJob(Print(m) + rest, lim) == Some((Rejected(431), Print(m) + rest))
  {
    PrintOntoLength(m, rest);
    assert |HeadText(m)| >= 4 by { PrintedSeparator(m, ""); }
    assert Expected(m).headerEnd + Expected(m).sepLen == |HeadText(m)| by { hide HeadText; }
    hide Parse, Print, PrintOnto, HeadText, ValidMessage, NextJob;
    ParsePrinted(m, rest, lim.body);
    Accepts(Print(m) + rest, lim);
  }

  // ---------- Chunked bodies ----------

  /** The last coding says chunked, and there is no length. */
  predicate ChunkedOnly(fs: seq<Field>, j: nat, a: string, b: string) {
    LastField(fs, j, "transfer-encoding") && fs[j].value == a + ("chunked" + b) && NoField(fs, "content-length")
  }

  lemma ChunkedScan(m: Message, j: nat, a: string, b: string, rest: string, max: nat)
    requires ValidHead(m) && max < MAX_SIZE && |HeadText(m) + rest| < MAX_SIZE && ChunkedOnly(m.fields, j, a, b)
    ensures (
        var o, scan := Parse(FRESH, HeadText(m) + rest, max), ScanFrom(HeadText(m) + rest, |HeadText(m)|, 0, max);
        && (scan == Malformed ==> !o.ok && Flags(o.req) == (false, false, false, true))
        && (scan == TooLarge ==> !o.ok && Flags(o.req) == (true, false, false, false)))
  {
    SaysChunkedIs(m.fields, j, a, b);
    FramingKnown();
    LastFieldCounts(m.fields, 0, "content-length");
    HeadThenBody(m, rest, max);
    hide Parse, HeadText, FieldMap, LastField, NoField, TargetPath, TargetQueries, Contains, ScanFrom, DecodeFrom, ParseSized;
  }

  /** A chunk size that is none is answered 400, at whichever chunk it stands and whatever
      follows. */
  lemma {:induction false} BadChunkSizeRejected(
      m: Message, j: nat, a: string, b: string, chunks: seq<Chunk>, t: string, ext: string, rest: string, lim: Limits)
    requires ValidHead(m) && ChunkedOnly(m.fields, j, a, b)
    requires (forall c :: c in chunks ==> ValidChunk(c)) && |Data(chunks)| <= lim.body
    requires OneLine(t + ext) && ';' !in t && (ext == "" || ext[0] == ';') && NoSize(t)
    requires Sane(HeadText(m) + ChunksOnto(chunks, (t + ext) + (CRLF + rest)), lim)
    ensures (
        var buffer := HeadText(m) + ChunksOnto(chunks, (t + ext) + (CRLF + rest));
        NextJob(buffer, lim) == Some((Rejected(400), buffer)))
  {
    var body := ChunksOnto(chunks, (t + ext) + (CRLF + rest));
    BadSizeIsMalformed(HeadText(m), chunks, t, ext, rest, lim.body);
    ChunkedScan(m, j, a, b, body, lim.body);
    hide Parse, HeadText, ChunksOnto, NextJob, ScanFrom, ChunkedOnly, ValidHead, Refusal;
    StatusIs(Parse(FRESH, HeadText(m) + body, lim.body).req, |HeadText(m) + body|, lim);
    Refuses(HeadText(m) + body, lim, 400);
  }

  /** A chunk whose size exceeds what the limit leaves is answered 413 before its data has
      arrived. */
  lemma {:induction false} BigChunkRejected(
      m: Message, j: nat, a: string, b: string, chunks: seq<Chunk>, k: nat, n: nat, upper: bool, ext: string, rest: string, lim: Limits)
    requires ValidHead(m) && ChunkedOnly(m.fields, j, a, b)
    requires (forall c :: c in chunks ==> ValidChunk(c)) && |Data(chunks)| <= lim.body < |Data(chunks)| + n < WORD
    requires k + |HexText(n, upper)| <= 16 && ValidExt(ext)
    requires Sane(HeadText(m) + ChunksOnto(chunks, (HexZeros(k) + HexText(n, upper) + ext) + (CRLF + rest)), lim)
    ensures (
        var buffer := HeadText(m) + ChunksOnto(chunks, (HexZeros(k) + HexText(n, upper) + ext) + (CRLF + rest));
        NextJob(buffer, lim) == Some((Rejected(413), buffer)))
  {
    var body := ChunksOnto(chunks, (HexZeros(k) + HexText(n, upper) + ext) + (CRLF + rest));
    BigSizeIsTooLarge(HeadText(m), chunks, k, n, upper, ext, rest, lim.body);
    ChunkedScan(m, j, a, b, body, lim.body);
    hide Parse, HeadText, ChunksOnto, NextJob, ScanFrom, ChunkedOnly, ValidHead, HexText, HexZeros, Refusal;
    StatusIs(Parse(FRESH, HeadText(m) + body, lim.body).req, |HeadText(m) + body|, lim);
    Refuses(HeadText(m) + body, lim, 413);
  }

  // ---------- The request line ----------

  predicate Space(c: char) { c == ' ' || c == '\t' || c == '\n' || c == '\r' || c as int == 11 || c as int == 12 }

  predicate Spaces(s: string, from: nat, to: nat)
    requires to <= |s|
  {
    forall k :: from <= k < to ==> Space(s[k])
  }

  /** A word: no white space inside, and none misses at either end. */
  predicate WordAt(s: string, from: nat, to: nat) {
    from < to <= |s| && (forall k :: from <= k < to ==> !Space(s[k])) && (to < |s| ==> Space(s[to]))
  }

  lemma SpaceIs()
    ensures forall c :: IsSpace(c) <==> Space(c)
  {}

  lemma SkipsTo(s: string, from: nat, to: nat)
    requires from <= to <= |s| && Spaces(s, from, to) && (to < |s| ==> !Space(s[to]))
    ensures SkipSpace(s, from) == to
  {
    SpaceIs();
    SkipSpaceIs(s, from, to);
  }

  lemma ReadsTo(s: string, from: nat, to: nat)
    requires WordAt(s, from, to)
    ensures WordEnd(s, from) == to && !Space(s[from])
  {
    SpaceIs();
    WordEndIs(s, from, to);
  }

  lemma NoWord(s: string)
    ensures WordEnd(s, |s|) == |s| && SkipSpace(s, |s|) == |s|
  {}

  /** Three words, with any white space between and around them, are a request line; what
      stands behind the third is ignored. */
  lemma {:induction false} ThreeWordsRead(s: string, a: nat, a': nat, b: nat, b': nat, c: nat, c': nat)
    requires WordAt(s, a, a') && WordAt(s, b, b') && WordAt(s, c, c') && a' <= b && b' <= c
    requires Spaces(s, 0, a) && Spaces(s, a', b) && Spaces(s, b', c)
    ensures ReadWords(s) == Some(RequestLine(s[a..a'], s[b..b'], s[c..c']))
  {
    hide SkipSpace, WordEnd, Spaces, Space;
    ReadsTo(s, a, a');
    ReadsTo(s, b, b');
    ReadsTo(s, c, c');
    SkipsTo(s, 0, a);
    SkipsTo(s, a', b);
    SkipsTo(s, b', c);
  }

  /** Fewer are none. */
  lemma {:induction false} TwoWordsAreNone(s: string, a: nat, a': nat, b: nat, b': nat)
    requires a <= |s| && b <= |s| && Spaces(s, 0, a) && (WordAt(s, a, a') || a == a' == |s|)
    requires a' <= b && Spaces(s, a', b) && (WordAt(s, b, b') || b == b' == |s|)
    requires b' <= |s| && Spaces(s, b', |s|)
    ensures ReadWords(s) == None
  {
    hide SkipSpace, WordEnd, Spaces, Space;
    NoWord(s);
    if WordAt(s, a, a') { ReadsTo(s, a, a'); }
    if WordAt(s, b, b') { ReadsTo(s, b, b'); }
    SkipsTo(s, 0, a);
    SkipsTo(s, a', b);
    SkipsTo(s, b', |s|);
  }

  /** HTTP/ and two digits with a point between them. */
  predicate Version(v: string) {
    |v| == 8 && v[..5] == "HTTP/" && '0' <= v[5] <= '9' && v[6] == '.' && '0' <= v[7] <= '9'
  }

  lemma VersionIs(v: string)
    ensures VersionOk(v) <==> Version(v)
  {}

  /** A first line that is not three words with a version last is answered 400 as soon as it
      is there, whatever follows. */
  lemma {:induction false} BadLineRejected(line: string, rest: string, lim: Limits)
    requires NoBreak(line) && Sane(line + (CRLF + rest), lim)
    requires match ReadWords(line) case None => true case Some(w) => !Version(w.version)
    ensures NextJob(line + (CRLF + rest), lim) == Some((Rejected(400), line + (CRLF + rest)))
  {
    var raw := line + (CRLF + rest);
    assert "" + raw == raw;
    GetLine("", line, rest);
    assert raw[0..IndexOf(raw, '\n', 0)] == raw[..IndexOf(raw, '\n', 0)];
    if ReadWords(line).Some? { VersionIs(ReadWords(line).value.version); }
    hide VersionOk, Version;
    assert ParseLine(FRESH, line) == Outcome(FRESH.(malformed := true), false);
    hide ParseLine, NextJob, IndexOf, StripCr;
    assert Begin(FRESH) == FRESH;
    assert ParseHead(FRESH, raw) == Outcome(FRESH.(malformed := true), false);
    ParseStages(FRESH, raw, lim.body);
    Refuses(raw, lim, 400);
  }

  // ---------- Field lines ----------

  predicate Blanks(s: string) { forall k :: 0 <= k < |s| ==> s[k] == ' ' || s[k] == '\t' }

  predicate NoBlankEnds(s: string) {
    s != "" ==> s[0] != ' ' && s[0] != '\t' && s[|s| - 1] != ' ' && s[|s| - 1] != '\t'
  }

  lemma {:induction false} EndTrimmed(s: string, after: string)
    requires NoBlankEnds(s) && Blanks(after)
    ensures TrimEnd(s + after) == s
  {
    if after == "" {
      assert s + after == s;
    } else {
      assert (s + after)[..|s + after| - 1] == s + after[..|after| - 1];
      EndTrimmed(s, after[..|after| - 1]);
    }
  }

  lemma {:induction false} StartTrimmed(before: string, s: string)
    requires Blanks(before) && (s != "" ==> !IsBlank(s[0]))
    ensures TrimStart(before + s) == s
  {
    if before == "" {
      assert before + s == s;
    } else {
      assert (before + s)[1..] == before[1..] + s;
      StartTrimmed(before[1..], s);
    }
  }

  lemma {:induction false} AllBlank(s: string)
    requires Blanks(s)
    ensures TrimStart(s) == ""
  {
    if s != "" { AllBlank(s[1..]); }
  }

  /** Blanks around a value are not part of it. */
  lemma BothTrimmed(before: string, v: string, after: string)
    requires Blanks(before) && NoBlankEnds(v) && Blanks(after)
    ensures TrimEnd(TrimStart(before + (v + after))) == v
  {
    if v == "" {
      AllBlank(before + (v + after));
    } else {
      assert (v + after)[0] == v[0];
      StartTrimmed(before, v + after);
      EndTrimmed(v, after);
    }
  }

  /** A field is its name in lower case and its value, without the blanks around either. */
  lemma {:induction false} FieldLineReads(b0: string, name: string, b1: string, b2: string, value: string, b3: string)
    requires Blanks(b0) && Blanks(b1) && Blanks(b2) && Blanks(b3)
    requires name != "" && NoBlankEnds(name) && ':' !in name && NoBlankEnds(value)
    ensures ReadHeader((b0 + (name + b1)) + [':'] + (b2 + (value + b3))) == Some(Header(Lower(name), value))
  {
    var left, right := b0 + (name + b1), b2 + (value + b3);
    var line := left + [':'] + right;
    assert ':' !in left;
    IndexOfPrefix(left, ':', right);
    assert line[..|left|] == left && line[|left| + 1..] == right;
    BothTrimmed(b2, value, b3);
    assert (name + b1)[0] == name[0];
    StartTrimmed(b0, name + b1);
    EndTrimmed(name, b1);
  }

  /** No colon, or nothing but blanks in front of it. */
  predicate NoFieldLine(line: string) {
    ':' !in line || exists k :: 0 <= k < |line| && line[k] == ':' && forall j :: 0 <= j < k ==> line[j] == ' ' || line[j] == '\t'
  }

  lemma {:induction false} BlanksTrim(s: string)
    requires forall j :: 0 <= j < |s| ==> s[j] == ' ' || s[j] == '\t'
    ensures TrimStart(s) == ""
  {
    if s != "" { BlanksTrim(s[1..]); }
  }

  lemma NoFieldRead(line: string)
    requires NoFieldLine(line)
    ensures ReadHeader(line) == None
  {
    var e := IndexOf(line, ':', 0);
    if ':' in line {
      var k :| 0 <= k < |line| && line[k] == ':' && forall j :: 0 <= j < k ==> line[j] == ' ' || line[j] == '\t';
      assert ':' !in line[0..k];
      IndexOfIs(line, ':', 0, k);
      BlanksTrim(line[..k]);
    } else {
      assert line[0..|line|] == line;
      IndexOfIs(line, ':', 0, |line|);
    }
  }

  lemma {:induction false} BadLineStops(m: map<string, string>, fs: seq<Field>, line: string, more: seq<string>)
    requires (forall k :: 0 <= k < |fs| ==> ValidField(fs[k])) && NoFieldLine(line)
    ensures AddHeaders(m, FieldLines(fs) + ([line] + more)) == Headers(FieldMap(m, fs), false)
    decreases |fs|
  {
    hide ReadHeader, ValidField, NoFieldLine;
    var lines := FieldLines(fs) + ([line] + more);
    if fs == [] {
      NoFieldRead(line);
      assert lines[0] == line;
    } else {
      ReadFieldLine(fs[0]);
      assert lines[0] == FieldLine(fs[0]) && lines[1..] == FieldLines(fs[1..]) + ([line] + more);
      BadLineStops(m[Lower(fs[0].name) := fs[0].value], fs[1..], line, more);
    }
  }

  /** A head with a line that is no field, anywhere among its fields, is answered 400. */
  lemma {:induction false} BadFieldRejected(m: Message, line: string, more: seq<string>, rest: string, lim: Limits)
    requires ValidHead(m) && NoFieldLine(line) && GoodLines([line] + more)
    requires Sane(LinesOnto(HeadLines(m) + ([line] + more), rest), lim)
    ensures (
        var buffer := LinesOnto(HeadLines(m) + ([line] + more), rest);
        NextJob(buffer, lim) == Some((Rejected(400), buffer)))
  {
    var lines := FieldLines(m.fields) + ([line] + more);
    var start, raw := StartLine(m), LinesOnto(HeadLines(m) + ([line] + more), rest);
    var after := LinesOnto(lines, rest);
    assert HeadLines(m) + ([line] + more) == [start] + lines && ([start] + lines)[1..] == lines;
    assert raw == start + (CRLF + after);
    StartLineNoBreak(m);
    FieldLinesNoBreak(m.fields);
    BadLineStops(map[], m.fields, line, more);
    hide FieldLines, NoFieldLine, ValidField, NoBreak, AddHeaders, StartLine;
    assert GoodLines(lines) by { BothGood(m.fields, [line] + more); }
    BadHead(m, lines, after, rest, lim);
    hide NextJob, ParseHead, LinesOnto, HeadLines;
    ParseStages(FRESH, raw, lim.body);
    Refuses(raw, lim, 400);
  }

  lemma BothGood(fs: seq<Field>, more: seq<string>)
    requires (forall k :: 0 <= k < |fs| ==> ValidField(fs[k])) && GoodLines(more)
    ensures GoodLines(FieldLines(fs) + more)
  {
    hide ValidField, NoBreak;
    FieldLinesNoBreak(fs);
  }

  lemma BadHead(m: Message, lines: seq<string>, after: string, rest: string, lim: Limits)
    requires ValidHead(m) && GoodLines(lines) && after == LinesOnto(lines, rest)
    requires AddHeaders(map[], lines) == Headers(FieldMap(map[], m.fields), false)
    ensures Begin(FRESH) == FRESH
    ensures ParseHead(FRESH, StartLine(m) + (CRLF + after)) == Outcome(HeadResult(m).(malformed := true), false)
  {
    hide NoBreak, StartLine, ReadWords, VersionOk, HeaderLines, AddHeaders, StripCr, IndexOf, ValidField;
    hide FieldLines, FieldMap, TargetPath, TargetQueries, Word, LinesOnto;
    var start := StartLine(m);
    var raw := start + (CRLF + after);
    StartLineNoBreak(m);
    assert "" + raw == raw && raw[0..IndexOf(raw, '\n', 0)] == raw[..IndexOf(raw, '\n', 0)];
    GetLine("", start, after);
    ReadStartLine(m);
    LineStep("", start, after);
    HeaderLinesOf("" + (start + CRLF), lines, rest);
  }
}

/** The chunked transfer coding (section 7.1 of RFC 9112): the scan that finds where
    a body ends, the decoder that walks the same body a second time, and the
    encoding that both must undo. */
module ChunkedBody {
  import opened Text

  const WORD: nat := 0x1_0000_0000_0000_0000   // 2^64: size_t and unsigned long long
  const MAX_SIZE: nat := 0x7FFF_FFFF_FFFF_FFFF   // every string is shorter than this

  // ---------- The chunk size line, read alike by both walkers ----------

  /** End of the size text: the first ';' of the line, or the line's end. */
  function SizeEnd(s: string, pos: nat, end: nat): (e: nat)
    requires pos <= end <= |s|
    ensures pos <= e <= end
    decreases end - pos
  {
    if pos == end || s[pos] == ';' then pos else SizeEnd(s, pos + 1, end)
  }

  /** One to sixteen hexadecimal digits, nothing else. */
  predicate ValidSize(t: string) {
    1 <= |t| <= 16 && forall k :: 0 <= k < |t| ==> IsHex(t[k])
  }

  /** strtoull in base 16; sixteen digits cannot overflow. */
  function HexNum(t: string): nat
    requires forall k :: 0 <= k < |t| ==> IsHex(t[k])
  {
    if t == "" then 0
    else
      assert IsHex(t[|t| - 1]);
      16 * HexNum(t[..|t| - 1]) + HexVal(t[|t| - 1])
  }

  function Pow16(n: nat): nat { if n == 0 then 1 else 16 * Pow16(n - 1) }

  lemma {:induction false} HexNumBound(t: string)
    requires forall k :: 0 <= k < |t| ==> IsHex(t[k])
    ensures HexNum(t) < Pow16(|t|)
  {
    if t != "" {
      assert IsHex(t[|t| - 1]);
      HexNumBound(t[..|t| - 1]);
    }
  }

  lemma Pow16Grows(m: nat, n: nat)
    requires m <= n
    ensures Pow16(m) <= Pow16(n)
    decreases n - m
  {
    if m < n { Pow16Grows(m, n - 1); }
  }

  lemma SizeFitsWord(t: string)
    requires ValidSize(t)
    ensures HexNum(t) < WORD
  {
    HexNumBound(t);
    Pow16Grows(|t|, 16);
    assert Pow16(16) == WORD by {
      assert Pow16(4) == 0x1_0000;
      assert Pow16(8) == 0x1_0000_0000;
      assert Pow16(12) == 0x1_0000_0000_0000;
    }
  }

  datatype Line = NoLine | BadLine | SizeLine(size: nat, next: nat)

  function ReadSize(s: string, pos: nat): (r: Line)
    requires pos <= |s|
    ensures r.SizeLine? ==> pos + 2 <= r.next <= |s| && r.size < WORD
  {
    var end := LineEnd(s, pos);
    if end == |s| then NoLine
    else
      var t := s[pos..SizeEnd(s, pos, end)];
      if ValidSize(t) then
        SizeFitsWord(t);
        SizeLine(HexNum(t), end + 2) else BadLine
  }

  /** The trailer section ends after its first empty line. */
  function TrailerEnd(s: string, pos: nat): (r: Option<nat>)
    requires pos <= |s|
    ensures r.Some? ==> pos < r.value <= |s|
    decreases |s| - pos
  {
    var end := LineEnd(s, pos);
    if end == |s| then None
    else if end == pos then Some(pos + 2)
    else TrailerEnd(s, end + 2)
  }

  // ---------- The scan ----------

  datatype Scan = Complete(end: nat) | Incomplete | Malformed | TooLarge

  /** scanChunkedEnd in 64-bit arithmetic: both additions wrap. A wrapping size moves
      the position back, but never as far as it moves the total back. */
  function ScanFrom(s: string, pos: nat, total: nat, max: nat): (r: Scan)
    requires pos <= |s| < MAX_SIZE && total <= max < MAX_SIZE
    ensures r.Complete? ==> r.end <= |s|
    decreases |s| + total - pos
  {
    match ReadSize(s, pos)
    case NoLine => Incomplete
    case BadLine => Malformed
    case SizeLine(size, next) =>
      if size == 0 then
        match TrailerEnd(s, next)
        case None => Incomplete
        case Some(end) => Complete(end)
      else
        var total' := (total + size) % WORD;
        var pos' := (next + size + 2) % WORD;
        if total' > max then TooLarge
        else if pos' > |s| then Incomplete
        else
          Progress(pos, total, next, size, |s|, max);
          ScanFrom(s, pos', total', max)
  }

  lemma WrapOnce(x: nat, y: nat)
    requires x < WORD && y <= WORD
    ensures (x + y) % WORD == if x + y < WORD then x + y else x + y - WORD
  {}

  lemma Progress(pos: nat, total: nat, next: nat, size: nat, len: nat, max: nat)
    requires pos + 2 <= next <= len < MAX_SIZE && total <= max < MAX_SIZE && size < WORD
    requires (total + size) % WORD <= max && (next + size + 2) % WORD <= len
    ensures (next + size + 2) % WORD - (total + size) % WORD >= pos - total + 4
  {
    WrapOnce(total, size);
    WrapOnce(next + 2, size);
    assert next + size + 2 == (next + 2) + size;
  }

  /** What the scan is for: sizes added up without wrapping. */
  function IdealFrom(s: string, pos: nat, total: nat, max: nat): (r: Scan)
    requires pos <= |s| && total <= max
    ensures r.Complete? ==> pos <= r.end <= |s|
    decreases |s| - pos
  {
    match ReadSize(s, pos)
    case NoLine => Incomplete
    case BadLine => Malformed
    case SizeLine(size, next) =>
      if size == 0 then
        match TrailerEnd(s, next)
        case None => Incomplete
        case Some(end) => Complete(end)
      else if total + size > max then TooLarge
      else if next + size + 2 > |s| then Incomplete
      else IdealFrom(s, next + size + 2, total + size, max)
  }

  /** scanChunkedEnd: the loop. */
  method ScanChunkedEnd(raw: string, bodyStart: nat, maxBodySize: nat) returns (r: Scan)
    requires bodyStart <= |raw| < MAX_SIZE && maxBodySize < MAX_SIZE
    ensures r == ScanFrom(raw, bodyStart, 0, maxBodySize)
  {
    hide ReadSize, TrailerEnd;
    var pos: nat, total: nat := bodyStart, 0;
    while true
      invariant pos <= |raw| && total <= maxBodySize
      invariant ScanFrom(raw, bodyStart, 0, maxBodySize) == ScanFrom(raw, pos, total, maxBodySize)
      decreases |raw| + total - pos
    {
      match ReadSize(raw, pos)
      case NoLine => return Incomplete;
      case BadLine => return Malformed;
      case SizeLine(chunkSize, next) =>
        if chunkSize == 0 {
          var end := ReadTrailer(raw, next);
          return if end.Some? then Complete(end.value) else Incomplete;
        }
        ghost var from, before := pos, total;
        total := (total + chunkSize) % WORD;
        if total > maxBodySize { return TooLarge; }
        if (next + chunkSize + 2) % WORD > |raw| { return Incomplete; }
        pos := (next + chunkSize + 2) % WORD;
        Progress(from, before, next, chunkSize, |raw|, maxBodySize);
    }
  }

  /** The inner loop over the trailer lines. */
  method ReadTrailer(raw: string, start: nat) returns (r: Option<nat>)
    requires start <= |raw|
    ensures r == TrailerEnd(raw, start)
  {
    var pos := start;
    while true
      invariant pos <= |raw| && TrailerEnd(raw, start) == TrailerEnd(raw, pos)
      decreases |raw| - pos
    {
      var tEnd := LineEnd(raw, pos);
      if tEnd == |raw| { return None; }
      if tEnd == pos { return Some(pos + 2); }
      pos := tEnd + 2;
    }
  }

  // ---------- The decoder ----------

  /** decodeChunkedBody on the bytes after the head. It bounds each chunk, not their
      sum, so its own addition cannot wrap. */
  function DecodeFrom(body: string, pos: nat, max: nat): Option<string>
    requires pos <= |body|
    decreases |body| - pos
  {
    if pos == |body| then Some("")
    else
      match ReadSize(body, pos)
      case NoLine => None
      case BadLine => None
      case SizeLine(size, next) =>
        if size > max then None
        else if size == 0 then Some("")
        else if next + size + 2 > |body| then None
        else
          match DecodeFrom(body, next + size + 2, max)
          case None => None
          case Some(rest) => Some(body[next..next + size] + rest)
  }

  /** decodeChunkedBody: the loop. */
  method DecodeChunkedBody(body: string, maxBodySize: nat) returns (r: Option<string>)
    ensures r == DecodeFrom(body, 0, maxBodySize)
  {
    hide ReadSize;
    var decoded, pos: nat := "", 0;
    PrefixedEmpty(DecodeFrom(body, 0, maxBodySize));
    while pos < |body|
      invariant pos <= |body|
      invariant DecodeFrom(body, 0, maxBodySize) == Prefixed(decoded, DecodeFrom(body, pos, maxBodySize))
    {
      match ReadSize(body, pos)
      case NoLine => return None;
      case BadLine => return None;
      case SizeLine(chunkSize, next) =>
        if chunkSize > maxBodySize { return None; }
        if chunkSize == 0 { break; }
        if next + chunkSize + 2 > |body| { return None; }
        PrefixedTwice(decoded, body[next..next + chunkSize], DecodeFrom(body, next + chunkSize + 2, maxBodySize));
        decoded := decoded + body[next..next + chunkSize];
        pos := next + chunkSize + 2;
    }
    assert decoded + "" == decoded;
    return Some(decoded);
  }

  function Prefixed(head: string, rest: Option<string>): Option<string> {
    match rest
    case None => None
    case Some(t) => Some(head + t)
  }

  lemma PrefixedEmpty(rest: Option<string>)
    ensures Prefixed("", rest) == rest
  {
    if rest.Some? { assert "" + rest.value == rest.value; }
  }

  lemma PrefixedTwice(a: string, b: string, rest: Option<string>)
    ensures Prefixed(a, Prefixed(b, rest)) == Prefixed(a + b, rest)
  {
    if rest.Some? { Assoc(a, b, rest.value); }
  }

  // ---------- The two walkers agree ----------

  lemma ReadSizeShift(raw: string, n: nat, pos: nat)
    requires n + pos <= |raw|
    ensures ReadSize(raw[n..], pos)
         == match ReadSize(raw, n + pos)
            case NoLine => NoLine
            case BadLine => BadLine
            case SizeLine(size, next) => if next >= n then SizeLine(size, next - n) else BadLine
  {
    LineEndShift(raw, n, pos);
    var end := LineEnd(raw[n..], pos);
    if end < |raw| - n {
      SizeEndShift(raw, n, pos, end);
      DropSlice(raw, n, pos, SizeEnd(raw[n..], pos, end));
    }
  }

  lemma {:induction false} SizeEndShift(s: string, n: nat, pos: nat, end: nat)
    requires pos <= end && n + end <= |s|
    ensures SizeEnd(s[n..], pos, end) + n == SizeEnd(s, n + pos, n + end)
    decreases end - pos
  {
    if pos < end && s[n + pos] != ';' { SizeEndShift(s, n, pos + 1, end); }
  }

  lemma {:induction false} DecodeShift(raw: string, n: nat, pos: nat, max: nat)
    requires n + pos <= |raw|
    ensures DecodeFrom(raw[n..], pos, max) == DecodeFrom(raw, n + pos, max)
    decreases |raw| - pos
  {
    hide ReadSize;
    ReadSizeShift(raw, n, pos);
    var line := ReadSize(raw[n..], pos);
    if line.SizeLine? && 0 < line.size <= max && line.next + line.size + 2 <= |raw| - n {
      DecodeShift(raw, n, line.next + line.size + 2, max);
      DropSlice(raw, n, line.next, line.next + line.size);
    }
  }

  /** Where the decoder succeeds, no size wrapped in the scan. */
  lemma {:induction false} DecodedIsUnwrapped(raw: string, pos: nat, total: nat, max: nat)
    requires pos <= |raw| < MAX_SIZE && total <= max < MAX_SIZE
    requires DecodeFrom(raw, pos, max).Some?
    ensures ScanFrom(raw, pos, total, max) == IdealFrom(raw, pos, total, max)
    decreases |raw| - pos
  {
    hide ReadSize, TrailerEnd;
    var line := ReadSize(raw, pos);
    if line.SizeLine? && line.size != 0 {
      NoWrap(total, line.size, line.next, |raw|, max);
      if total + line.size <= max { DecodedIsUnwrapped(raw, line.next + line.size + 2, total + line.size, max); }
    }
  }

  lemma {:induction false} IdealIsAccepted(raw: string, pos: nat, total: nat, max: nat)
    requires pos <= |raw| < MAX_SIZE && total <= max < MAX_SIZE
    requires IdealFrom(raw, pos, total, max).Complete?
    ensures ScanFrom(raw, pos, total, max) == IdealFrom(raw, pos, total, max)
    ensures DecodeFrom(raw, pos, max).Some?
    decreases |raw| - pos
  {
    hide ReadSize, TrailerEnd;
    var line := ReadSize(raw, pos);
    if line.SizeLine? && line.size != 0 {
      NoWrap(total, line.size, line.next, |raw|, max);
      IdealIsAccepted(raw, line.next + line.size + 2, total + line.size, max);
    }
  }

  /** For every input: the scan says Complete and the decoder then succeeds on the
      bytes after the head, exactly when the unwrapped scan says Complete. So a size
      that wraps the 64-bit total is never accepted. */
  lemma {:induction false} AcceptedIsIdeal(raw: string, bodyStart: nat, max: nat, end: nat)
    requires bodyStart <= |raw| < MAX_SIZE && max < MAX_SIZE
    ensures ScanFrom(raw, bodyStart, 0, max) == Complete(end) && DecodeFrom(raw[bodyStart..], 0, max).Some?
        <==> IdealFrom(raw, bodyStart, 0, max) == Complete(end)
  {
    hide *;
    DecodeShift(raw, bodyStart, 0, max);
    if DecodeFrom(raw, bodyStart, max).Some? { DecodedIsUnwrapped(raw, bodyStart, 0, max); }
    if IdealFrom(raw, bodyStart, 0, max).Complete? { IdealIsAccepted(raw, bodyStart, 0, max); }
  }

  lemma NoWrap(total: nat, size: nat, next: nat, len: nat, max: nat)
    requires total <= max < MAX_SIZE && size <= max && next <= len < MAX_SIZE
    ensures (total + size) % WORD == total + size && (next + size + 2) % WORD == next + size + 2
  {}

  // ---------- More input does not change a verdict ----------

  lemma ReadSizeStable(s: string, x: string, pos: nat)
    requires pos <= |s| && !ReadSize(s, pos).NoLine?
    ensures ReadSize(s + x, pos) == ReadSize(s, pos)
  {
    LineEndStable(s, x, pos);
    var end := LineEnd(s, pos);
    SizeEndStable(s, x, pos, end);
    assert (s + x)[pos..SizeEnd(s, pos, end)] == s[pos..SizeEnd(s, pos, end)];
  }

  lemma SizeEndStable(s: string, x: string, pos: nat, end: nat)
    requires pos <= end <= |s|
    ensures SizeEnd(s + x, pos, end) == SizeEnd(s, pos, end)
    decreases end - pos
  {}

  lemma {:induction false} TrailerEndStable(s: string, x: string, pos: nat)
    requires pos <= |s| && TrailerEnd(s, pos).Some?
    ensures TrailerEnd(s + x, pos) == TrailerEnd(s, pos)
    decreases |s| - pos
  {
    LineEndStable(s, x, pos);
    if LineEnd(s, pos) != pos { TrailerEndStable(s, x, LineEnd(s, pos) + 2); }
  }

  /** A verdict other than Incomplete stands whatever bytes follow. */
  lemma {:induction false} ScanStable(s: string, x: string, pos: nat, total: nat, max: nat)
    requires pos <= |s| && |s + x| < MAX_SIZE && total <= max < MAX_SIZE
    requires !ScanFrom(s, pos, total, max).Incomplete?
    ensures ScanFrom(s + x, pos, total, max) == ScanFrom(s, pos, total, max)
    decreases |s| + total - pos
  {
    hide ReadSize, TrailerEnd;
    ReadSizeStable(s, x, pos);
    match ReadSize(s, pos)
    case BadLine =>
    case SizeLine(size, next) =>
      if size == 0 {
        TrailerEndStable(s, x, next);
      } else {
        var total', pos' := (total + size) % WORD, (next + size + 2) % WORD;
        if total' <= max {
          Progress(pos, total, next, size, |s|, max);
          ScanStable(s, x, pos', total', max);
        }
      }
  }

  /** Decoding a complete body ignores the bytes after it. */
  lemma {:induction false} DecodeStable(s: string, x: string, pos: nat, total: nat, max: nat)
    requires pos <= |s| && total <= max && IdealFrom(s, pos, total, max).Complete?
    ensures DecodeFrom(s + x, pos, max) == DecodeFrom(s, pos, max)
    decreases |s| - pos
  {
    hide ReadSize, TrailerEnd;
    ReadSizeStable(s, x, pos);
    var line := ReadSize(s, pos);
    if line.size != 0 {
      var size, next := line.size, line.next;
      DecodeStable(s, x, next + size + 2, total + size, max);
      assert (s + x)[next..next + size] == s[next..next + size];
    }
  }

  // ---------- The encoding ----------

  /** size is the size as written (leading zeros, either case), ext an extension; tail are
      the two bytes behind the data. Section 7.1 of RFC 9112 wants a CRLF there; the walkers
      step over whatever it is. */
  datatype Chunk = Chunk(size: string, ext: string, data: string, tail: string)

  datatype Coded = Coded(chunks: seq<Chunk>, lastSize: string, lastExt: string, trailers: seq<string>)

  predicate ValidExt(e: string) { OneLine(e) && (e == "" || e[0] == ';') }

  predicate ValidChunk(c: Chunk) {
    ValidSize(c.size) && HexNum(c.size) == |c.data| && c.data != "" && ValidExt(c.ext) && |c.tail| == 2
  }

  predicate ValidCoded(b: Coded) {
    && (forall k :: 0 <= k < |b.chunks| ==> ValidChunk(b.chunks[k]))
    && ValidSize(b.lastSize) && HexNum(b.lastSize) == 0 && ValidExt(b.lastExt)
    && (forall k :: 0 <= k < |b.trailers| ==> b.trailers[k] != "" && OneLine(b.trailers[k]))
  }

  /** The encoded body, followed by rest. */
  function EncodeOnto(b: Coded, rest: string): string
    decreases |b.chunks|
  {
    if b.chunks == [] then (b.lastSize + b.lastExt) + (CRLF + LinesOnto(b.trailers, rest))
    else
      var c := b.chunks[0];
      (c.size + c.ext) + (CRLF + (c.data + (c.tail + EncodeOnto(b.(chunks := b.chunks[1..]), rest))))
  }

  function Encode(b: Coded): string { EncodeOnto(b, "") }

  function Data(chunks: seq<Chunk>): string {
    if chunks == [] then "" else chunks[0].data + Data(chunks[1..])
  }

  lemma {:induction false} EncodeOntoIs(b: Coded, rest: string)
    ensures EncodeOnto(b, rest) == Encode(b) + rest
    decreases |b.chunks|
  {
    if b.chunks == [] {
      LinesOntoIs(b.trailers, rest);
      Regroup(b.lastSize + b.lastExt, LinesOnto(b.trailers, ""), rest);
    } else {
      var c, tail := b.chunks[0], b.(chunks := b.chunks[1..]);
      EncodeOntoIs(tail, rest);
      Assoc(c.tail, Encode(tail), rest);
      Assoc(c.data, c.tail + Encode(tail), rest);
      Regroup(c.size + c.ext, c.data + (c.tail + Encode(tail)), rest);
    }
  }

  lemma {:induction false} SizeEndIs(s: string, pos: nat, end: nat, e: nat)
    requires pos <= e <= end <= |s|
    requires (forall k: nat :: pos <= k < e ==> s[k] != ';') && (e < end ==> s[e] == ';')
    ensures SizeEnd(s, pos, end) == e
    decreases e - pos
  {
    if pos < e { SizeEndIs(s, pos + 1, end, e); }
  }

  lemma SizeLineIsOneLine(size: string, ext: string)
    requires ValidSize(size) && ValidExt(ext)
    ensures OneLine(size + ext)
  {
    forall k: nat | k < |size + ext| ensures !CrlfAt(size + ext, k) {
      if k < |size| {
        assert IsHex(size[k]);
      } else {
        assert !CrlfAt(ext, k - |size|);
      }
    }
  }

  /** A size line is read back. */
  lemma ReadSizeOf(pre: string, size: string, ext: string, rest: string)
    requires ValidSize(size) && ValidExt(ext)
    ensures ReadSize(pre + ((size + ext) + (CRLF + rest)), |pre|) == SizeLine(HexNum(size), |pre| + |size + ext| + 2)
  {
    var s, e := pre + ((size + ext) + (CRLF + rest)), |pre| + |size|;
    SizeLineIsOneLine(size, ext);
    LineEndAfter(pre, size + ext, rest);
    forall k: nat | |pre| <= k < e ensures s[k] != ';' {
      assert s[k] == size[k - |pre|] && IsHex(size[k - |pre|]);
    }
    assert ext != "" ==> s[e] == ext[0];
    SizeEndIs(s, |pre|, |pre| + |size + ext|, e);
    assert s[|pre|..e] == size;
  }

  lemma {:induction false} TrailerEndOf(pre: string, ts: seq<string>, rest: string)
    requires forall k :: 0 <= k < |ts| ==> ts[k] != "" && OneLine(ts[k])
    ensures TrailerEnd(pre + LinesOnto(ts, rest), |pre|) == Some(|pre| + |LinesOnto(ts, "")|)
    decreases |ts|
  {
    hide LineEnd, OneLine;
    if ts == [] {
      EmptyLineEnds(pre, rest);
    } else {
      var t, more := ts[0], LinesOnto(ts[1..], rest);
      LineEndAfter(pre, t, more);
      LineStep(pre, t, more);
      TrailerEndOf(pre + (t + CRLF), ts[1..], rest);
      LinesOntoLength(ts);
    }
  }

  lemma EmptyOneLine()
    ensures OneLine("")
  {}

  lemma EmptyLineEnds(pre: string, rest: string)
    ensures TrailerEnd(pre + (CRLF + rest), |pre|) == Some(|pre| + 2)
  {
    hide LineEnd, OneLine;
    var s := pre + (CRLF + rest);
    assert "" + (CRLF + rest) == CRLF + rest;
    EmptyOneLine();
    LineEndAfter(pre, "", rest);
    assert LineEnd(s, |pre|) == |pre|;
  }

  lemma LinesOntoLength(ts: seq<string>)
    requires ts != []
    ensures |LinesOnto(ts, "")| == |ts[0]| + 2 + |LinesOnto(ts[1..], "")|
  {}

  /** The chunk at the head of s, as both walkers step over it. */
  lemma ChunkStep(pre: string, c: Chunk, more: string)
    requires ValidChunk(c)
    ensures var s := pre + ((c.size + c.ext) + (CRLF + (c.data + (c.tail + more))));
            var next, done := |pre| + |c.size + c.ext| + 2, pre + ((c.size + c.ext) + (CRLF + (c.data + c.tail)));
            && ReadSize(s, |pre|) == SizeLine(|c.data|, next)
            && s == done + more && |done| == next + |c.data| + 2
            && s[next..next + |c.data|] == c.data
  {
    ReadSizeOf(pre, c.size, c.ext, c.data + (c.tail + more));
    var line := c.size + c.ext;
    var s := pre + (line + (CRLF + (c.data + (c.tail + more))));
    assert s == (pre + (line + (CRLF + (c.data + c.tail)))) + more;
    assert s == (pre + (line + CRLF)) + (c.data + (c.tail + more));
    var next := |pre + (line + CRLF)|;
    assert s[next..next + |c.data|] == c.data;
  }

  /** The scan steps over a chunk that fits the limit. */
  lemma ScanStep(pre: string, c: Chunk, more: string, total: nat, max: nat)
    requires ValidChunk(c) && total <= max < MAX_SIZE
    requires |pre + ((c.size + c.ext) + (CRLF + (c.data + (c.tail + more))))| < MAX_SIZE
    ensures (
        var s, done := pre + ((c.size + c.ext) + (CRLF + (c.data + (c.tail + more)))), pre + ((c.size + c.ext) + (CRLF + (c.data + c.tail)));
        && s == done + more
        && ScanFrom(s, |pre|, total, max)
        == if total + |c.data| <= max then ScanFrom(s, |done|, total + |c.data|, max) else TooLarge)
  {
    hide ReadSize, TrailerEnd, HexNum;
    ChunkStep(pre, c, more);
    NoWrapSizes(total, |c.data|, |pre + ((c.size + c.ext) + (CRLF + (c.data + c.tail)))|, max);
  }

  lemma ScanLast(pre: string, b: Coded, rest: string, total: nat, max: nat)
    requires ValidCoded(b) && b.chunks == [] && total <= max < MAX_SIZE && |pre + EncodeOnto(b, rest)| < MAX_SIZE
    ensures ScanFrom(pre + EncodeOnto(b, rest), |pre|, total, max) == Complete(|pre| + |Encode(b)|)
  {
    hide ReadSize, TrailerEnd, HexNum;
    var line := b.lastSize + b.lastExt;
    var more := LinesOnto(b.trailers, rest);
    ReadSizeOf(pre, b.lastSize, b.lastExt, more);
    LineStep(pre, line, more);
    TrailerEndOf(pre + (line + CRLF), b.trailers, rest);
  }

  /** The scan finds exactly the end of an encoded body that fits the limit, and
      reports TooLarge otherwise, whatever follows. */
  lemma {:induction false} ScanOfEncoding(pre: string, b: Coded, rest: string, total: nat, max: nat)
    requires ValidCoded(b) && total <= max < MAX_SIZE && |pre + EncodeOnto(b, rest)| < MAX_SIZE
    ensures ScanFrom(pre + EncodeOnto(b, rest), |pre|, total, max)
         == if total + |Data(b.chunks)| <= max then Complete(|pre| + |Encode(b)|) else TooLarge
    decreases |b.chunks|
  {
    hide ScanFrom, ValidSize, HexNum, ValidExt;
    if b.chunks == [] {
      ScanLast(pre, b, rest, total, max);
    } else {
      var c, tail := b.chunks[0], b.(chunks := b.chunks[1..]);
      ScanStep(pre, c, EncodeOnto(tail, rest), total, max);
      var done := pre + ((c.size + c.ext) + (CRLF + (c.data + c.tail)));
      if total + |c.data| <= max { ScanOfEncoding(done, tail, rest, total + |c.data|, max); }
    }
  }

  lemma NoWrapSizes(total: nat, size: nat, len: nat, max: nat)
    requires total <= max < MAX_SIZE && size + 2 <= len < MAX_SIZE
    ensures (total + size) % WORD == total + size && len % WORD == len
  {}

  /** The decoder returns the data of an encoded body, whatever follows. */
  lemma {:induction false} DecodeOfEncoding(pre: string, b: Coded, rest: string, max: nat)
    requires ValidCoded(b) && |Data(b.chunks)| <= max
    ensures DecodeFrom(pre + EncodeOnto(b, rest), |pre|, max) == Some(Data(b.chunks))
    decreases |b.chunks|
  {
    hide ReadSize, LinesOnto, HexNum;
    if b.chunks == [] {
      ReadSizeOf(pre, b.lastSize, b.lastExt, LinesOnto(b.trailers, rest));
    } else {
      var c, tail := b.chunks[0], b.(chunks := b.chunks[1..]);
      ChunkStep(pre, c, EncodeOnto(tail, rest));
      DecodeOfEncoding(pre + ((c.size + c.ext) + (CRLF + (c.data + c.tail))), tail, rest, max);
    }
  }

  /** Every proper prefix of an encoded body that fits scans as Incomplete. */
  lemma ProperPrefixIncomplete(pre: string, b: Coded, k: nat, max: nat)
    requires ValidCoded(b) && |Data(b.chunks)| <= max < MAX_SIZE
    requires k < |Encode(b)| && |pre + Encode(b)| < MAX_SIZE
    ensures ScanFrom(pre + Encode(b)[..k], |pre|, 0, max) == Incomplete
  {
    hide ScanFrom, EncodeOnto;
    var part, x := pre + Encode(b)[..k], Encode(b)[k..];
    assert part + x == pre + Encode(b);
    ScanOfEncoding(pre, b, "", 0, max);
    if !ScanFrom(part, |pre|, 0, max).Incomplete? { ScanStable(part, x, |pre|, 0, max); }
  }

  // ---------- Nothing else is accepted ----------

  lemma {:induction false} LineEndFirst(s: string, pos: nat)
    requires pos <= |s|
    ensures forall k: nat :: pos <= k < LineEnd(s, pos) ==> !CrlfAt(s, k)
    decreases |s| - pos
  {
    if pos < LineEnd(s, pos) { LineEndFirst(s, pos + 1); }
  }

  lemma {:induction false} SizeEndFirst(s: string, pos: nat, end: nat)
    requires pos <= end <= |s|
    ensures SizeEnd(s, pos, end) < end ==> s[SizeEnd(s, pos, end)] == ';'
    decreases end - pos
  {
    if pos < SizeEnd(s, pos, end) { SizeEndFirst(s, pos + 1, end); }
  }

  lemma LineIsOneLine(s: string, from: nat, e: nat)
    requires from <= e <= |s| && forall k: nat :: from <= k < e ==> !CrlfAt(s, k)
    ensures OneLine(s[from..e])
  {
    forall k: nat | k < e - from ensures !CrlfAt(s[from..e], k) {
      var j: nat := from + k;
      assert !CrlfAt(s, j);
    }
  }

  /** A size line that is read is a size with its extension and a CRLF. */
  lemma SizeLineIs(s: string, pos: nat) returns (size: string, ext: string)
    requires pos <= |s| && ReadSize(s, pos).SizeLine?
    ensures ValidSize(size) && HexNum(size) == ReadSize(s, pos).size && ValidExt(ext)
    ensures s[pos..ReadSize(s, pos).next] == (size + ext) + CRLF
  {
    var end := LineEnd(s, pos);
    var e := SizeEnd(s, pos, end);
    size, ext := s[pos..e], s[e..end];
    LineEndFirst(s, pos);
    SizeEndFirst(s, pos, end);
    LineIsOneLine(s, e, end);
    assert s[pos..end + 2] == (size + ext) + CRLF;
  }

  lemma {:induction false} TrailerIsLines(s: string, pos: nat) returns (lines: seq<string>)
    requires pos <= |s| && TrailerEnd(s, pos).Some?
    ensures forall k :: 0 <= k < |lines| ==> lines[k] != "" && OneLine(lines[k])
    ensures s[pos..TrailerEnd(s, pos).value] == LinesOnto(lines, "")
    decreases |s| - pos
  {
    hide OneLine;
    var end := LineEnd(s, pos);
    if end == pos {
      lines := [];
      assert s[pos..pos + 2] == CRLF + "";
    } else {
      var more := TrailerIsLines(s, end + 2);
      LineEndFirst(s, pos);
      LineIsOneLine(s, pos, end);
      lines := [s[pos..end]] + more;
      var stop := TrailerEnd(s, end + 2).value;
      assert lines[1..] == more;
      assert s[pos..stop] == s[pos..end] + (s[end..end + 2] + s[end + 2..stop]);
    }
  }

  /** Whatever the walker over unbounded numbers completes is an encoding, and the decoder
      returns its data. With AcceptedIsIdeal, nothing else is ever accepted. */
  lemma {:induction false} AcceptedIsEncoding(s: string, pos: nat, total: nat, max: nat) returns (b: Coded)
    requires pos <= |s| && total <= max && IdealFrom(s, pos, total, max).Complete?
    ensures ValidCoded(b) && s[pos..IdealFrom(s, pos, total, max).end] == Encode(b) && total + |Data(b.chunks)| <= max
    ensures DecodeFrom(s, pos, max) == Some(Data(b.chunks))
    decreases |s| - pos
  {
    hide ReadSize, TrailerEnd, ValidSize, HexNum, ValidExt, OneLine, EncodeOnto;
    var line := ReadSize(s, pos);
    var size, ext := SizeLineIs(s, pos);
    var end := IdealFrom(s, pos, total, max).end;
    if line.size == 0 {
      var trailers := TrailerIsLines(s, line.next);
      b := Coded([], size, ext, trailers);
      EndIsEncoded(s, pos, line.next, end, b);
    } else {
      var next := line.next + line.size + 2;
      var more := AcceptedIsEncoding(s, next, total + line.size, max);
      var c := Chunk(size, ext, s[line.next..line.next + line.size], s[line.next + line.size..next]);
      b := more.(chunks := [c] + more.chunks);
      ChunkIsEncoded(s, pos, line.next, end, c, more);
    }
  }

  lemma EndIsEncoded(s: string, pos: nat, next: nat, end: nat, b: Coded)
    requires pos <= next <= end <= |s| && b.chunks == []
    requires s[pos..next] == (b.lastSize + b.lastExt) + CRLF && s[next..end] == LinesOnto(b.trailers, "")
    ensures s[pos..end] == Encode(b)
  {
    assert s[pos..end] == s[pos..next] + s[next..end];
    Assoc(b.lastSize + b.lastExt, CRLF, LinesOnto(b.trailers, ""));
  }

  lemma ChunkIsEncoded(s: string, pos: nat, next: nat, end: nat, c: Chunk, more: Coded)
    requires pos <= next && next + |c.data| + |c.tail| <= end <= |s|
    requires s[pos..next] == (c.size + c.ext) + CRLF && s[next..next + |c.data|] == c.data
    requires s[next + |c.data|..next + |c.data| + |c.tail|] == c.tail && s[next + |c.data| + |c.tail|..end] == Encode(more)
    ensures s[pos..end] == Encode(more.(chunks := [c] + more.chunks))
  {
    var k := next + |c.data|;
    assert ([c] + more.chunks)[1..] == more.chunks;
    assert s[pos..end] == s[pos..next] + (s[next..k] + (s[k..k + |c.tail|] + s[k + |c.tail|..end]));
    Assoc(c.size + c.ext, CRLF, c.data + (c.tail + Encode(more)));
  }

  // ---------- How a size is written ----------

  function HexText(n: nat, upper: bool): string {
    if n < 16 then [HexDigit(n, upper)] else HexText(n / 16, upper) + [HexDigit(n % 16, upper)]
  }

  function HexZeros(k: nat): string { if k == 0 then "" else HexZeros(k - 1) + ['0'] }

  predicate AllHex(t: string) { forall k :: 0 <= k < |t| ==> IsHex(t[k]) }

  lemma HexNumSnoc(t: string, c: char)
    requires AllHex(t) && IsHex(c)
    ensures AllHex(t + [c]) && HexNum(t + [c]) == 16 * HexNum(t) + HexVal(c)
  {
    assert (t + [c])[..|t|] == t;
  }

  lemma {:induction false} HexZerosAreZero(k: nat)
    ensures |HexZeros(k)| == k && AllHex(HexZeros(k)) && HexNum(HexZeros(k)) == 0
  {
    if k > 0 {
      HexZerosAreZero(k - 1);
      HexNumSnoc(HexZeros(k - 1), '0');
    }
  }

  /** A size is the number that its digits write in base sixteen, leading zeros or not, in
      either case. */
  lemma {:induction false} HexReads(k: nat, n: nat, upper: bool)
    ensures AllHex(HexZeros(k) + HexText(n, upper)) && HexNum(HexZeros(k) + HexText(n, upper)) == n
  {
    HexZerosAreZero(k);
    HexDigitVal(n % 16, upper);
    if n < 16 {
      HexNumSnoc(HexZeros(k), HexDigit(n, upper));
    } else {
      HexReads(k, n / 16, upper);
      HexNumSnoc(HexZeros(k) + HexText(n / 16, upper), HexDigit(n % 16, upper));
      Assoc(HexZeros(k), HexText(n / 16, upper), [HexDigit(n % 16, upper)]);
    }
  }

  lemma {:induction false} HexTextLength(n: nat, upper: bool, d: nat)
    requires d > 0 && n < Pow16(d)
    ensures 1 <= |HexText(n, upper)| <= d
  {
    assert Pow16(1) == 16 * Pow16(0);
    if n >= 16 {
      HexTextLength(n / 16, upper, d - 1);
    }
  }

  /** Every size that fits 64 bits can be written with up to sixteen digits, and then is
      read. */
  lemma {:induction false} SizeIsRead(pre: string, k: nat, n: nat, upper: bool, ext: string, rest: string)
    requires n < WORD && k + |HexText(n, upper)| <= 16 && ValidExt(ext)
    ensures var size := HexZeros(k) + HexText(n, upper);
            ReadSize(pre + ((size + ext) + (CRLF + rest)), |pre|) == SizeLine(n, |pre| + |size + ext| + 2)
  {
    hide HexText, HexNum, OneLine;
    var size := HexZeros(k) + HexText(n, upper);
    HexReads(k, n, upper);
    HexZerosAreZero(k);
    assert |HexText(n, upper)| >= 1 by { HexTextNotEmpty(n, upper); }
    ReadSizeOf(pre, size, ext, rest);
  }

  lemma HexTextNotEmpty(n: nat, upper: bool)
    ensures |HexText(n, upper)| >= 1
  {}

  lemma SixteenDigits(n: nat, upper: bool)
    requires n < WORD
    ensures |HexText(n, upper)| <= 16
  {
    assert Pow16(16) == WORD by {
      assert Pow16(4) == 0x1_0000;
      assert Pow16(8) == 0x1_0000_0000;
      assert Pow16(12) == 0x1_0000_0000_0000;
    }
    HexTextLength(n, upper, 16);
  }

  // ---------- Bad sizes ----------

  /** Not one to sixteen hexadecimal digits. */
  predicate NoSize(t: string) {
    |t| == 0 || |t| > 16
    || exists k :: 0 <= k < |t| && !('0' <= t[k] <= '9' || 'a' <= t[k] <= 'f' || 'A' <= t[k] <= 'F')
  }

  lemma NoSizeRead(pre: string, t: string, ext: string, rest: string)
    requires OneLine(t + ext) && ';' !in t && (ext == "" || ext[0] == ';') && NoSize(t)
    ensures ReadSize(pre + ((t + ext) + (CRLF + rest)), |pre|) == BadLine
  {
    var s, e := pre + ((t + ext) + (CRLF + rest)), |pre| + |t|;
    LineEndAfter(pre, t + ext, rest);
    assert forall k: nat :: |pre| <= k < e ==> s[k] == t[k - |pre|];
    assert ext != "" ==> s[e] == ext[0];
    SizeEndIs(s, |pre|, |pre| + |t + ext|, e);
    assert s[|pre|..e] == t;
  }

  /** Chunks, followed by rest. */
  function ChunksOnto(chunks: seq<Chunk>, rest: string): string {
    if chunks == [] then rest
    else
      var c := chunks[0];
      (c.size + c.ext) + (CRLF + (c.data + (c.tail + ChunksOnto(chunks[1..], rest))))
  }

  /** The scan reaches whatever stands behind valid chunks, if their data fits. */
  lemma {:induction false} ScanPast(pre: string, chunks: seq<Chunk>, rest: string, total: nat, max: nat) returns (done: string)
    requires (forall c :: c in chunks ==> ValidChunk(c)) && total + |Data(chunks)| <= max < MAX_SIZE
    requires |pre + ChunksOnto(chunks, rest)| < MAX_SIZE
    ensures pre + ChunksOnto(chunks, rest) == done + rest
    ensures ScanFrom(done + rest, |pre|, total, max) == ScanFrom(done + rest, |done|, total + |Data(chunks)|, max)
    decreases |chunks|
  {
    hide ScanFrom, ValidChunk;
    if chunks == [] {
      done := pre;
    } else {
      var c := chunks[0];
      ScanStep(pre, c, ChunksOnto(chunks[1..], rest), total, max);
      done := ScanPast(pre + ((c.size + c.ext) + (CRLF + (c.data + c.tail))), chunks[1..], rest, total + |c.data|, max);
    }
  }

  /** A bad size line is malformed at whichever chunk it stands. */
  lemma {:induction false} BadSizeIsMalformed(pre: string, chunks: seq<Chunk>, t: string, ext: string, rest: string, max: nat)
    requires (forall c :: c in chunks ==> ValidChunk(c)) && |Data(chunks)| <= max < MAX_SIZE
    requires OneLine(t + ext) && ';' !in t && (ext == "" || ext[0] == ';') && NoSize(t)
    requires |pre + ChunksOnto(chunks, (t + ext) + (CRLF + rest))| < MAX_SIZE
    ensures ScanFrom(pre + ChunksOnto(chunks, (t + ext) + (CRLF + rest)), |pre|, 0, max) == Malformed
  {
    hide ChunksOnto, ReadSize, OneLine, NoSize;
    var done := ScanPast(pre, chunks, (t + ext) + (CRLF + rest), 0, max);
    NoSizeRead(done, t, ext, rest);
  }

  /** A size that exceeds what the limit leaves is too large at once, before its data is
      there. */
  lemma {:induction false} BigSizeIsTooLarge(pre: string, chunks: seq<Chunk>, k: nat, n: nat, upper: bool, ext: string, rest: string, max: nat)
    requires (forall c :: c in chunks ==> ValidChunk(c)) && |Data(chunks)| <= max < MAX_SIZE
    requires k + |HexText(n, upper)| <= 16 && ValidExt(ext) && max < |Data(chunks)| + n < WORD
    requires |pre + ChunksOnto(chunks, (HexZeros(k) + HexText(n, upper) + ext) + (CRLF + rest))| < MAX_SIZE
    ensures ScanFrom(pre + ChunksOnto(chunks, (HexZeros(k) + HexText(n, upper) + ext) + (CRLF + rest)), |pre|, 0, max) == TooLarge
  {
    hide ChunksOnto, ReadSize, OneLine, HexText, HexZeros;
    var done := ScanPast(pre, chunks, (HexZeros(k) + HexText(n, upper) + ext) + (CRLF + rest), 0, max);
    SizeIsRead(done, k, n, upper, ext, rest);
  }
}

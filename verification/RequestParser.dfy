/** The request parser: its stages as functions of the state and the bytes, and the
    object that runs them. */
module RequestParser {
  import opened Text
  import opened UrlCodec
  import opened ChunkedBody
  import opened RequestSyntax

  /** The fields that parse reads and writes. */
  datatype Request = Request(
    method_: string, path: string, version: string,
    headers: map<string, string>, queries: map<string, string>, body: string,
    headerEnd: nat, sepLen: nat, bodyConsumed: nat, contentLength: nat,
    lengthValid: bool, conflicting: bool, malformed: bool, tooLarge: bool)
  {
    /** None of the flags for which the dispatcher answers and closes. */
    predicate Unrejected() { lengthValid && !conflicting && !malformed && !tooLarge }

    /** isKeepAlive: HTTP/1.1 unless it says close, HTTP/1.0 only if it says keep-alive. */
    predicate KeepAlive() {
      var connection := if "connection" in headers then Lower(headers["connection"]) else "";
      (version == "HTTP/1.1" && connection != "close") || (version == "HTTP/1.0" && connection == "keep-alive")
    }

    function Consumed(): nat { headerEnd + sepLen + bodyConsumed }
  }

  const FRESH := Request("", "", "", map[], map[], "", 0, 0, 0, 0, true, false, false, false)

  datatype Outcome = Outcome(req: Request, ok: bool)

  function Begin(r: Request): Request {
    r.(lengthValid := true, contentLength := 0, bodyConsumed := 0, conflicting := false, tooLarge := false, malformed := false)
  }

  /** What an earlier parse has found out about framing does not matter to the next one. */
  lemma FlagsAreForgotten(r: Request, old_: Request)
    ensures Begin(r.(lengthValid := old_.lengthValid, contentLength := old_.contentLength, bodyConsumed := old_.bodyConsumed,
                     conflicting := old_.conflicting, tooLarge := old_.tooLarge, malformed := old_.malformed)) == Begin(r)
    ensures Begin(r).Unrejected()
  {}

  /** parseRequestLine. */
  function ParseLine(r: Request, line: string): Outcome {
    match ReadWords(line)
    case None => Outcome(r.(malformed := true), false)
    case Some(w) =>
      if !VersionOk(w.version) then Outcome(r.(malformed := true), false)
      else Outcome(r.(method_ := w.method_, version := w.version, path := TargetPath(w.target),
                      queries := TargetQueries(r.queries, w.target)), true)
  }

  function AfterLine(raw: string, e: nat): (n: nat)
    requires e <= |raw|
    ensures n <= |raw|
  {
    if e < |raw| then e + 1 else e
  }

  /** The request line and the header lines. */
  function ParseHead(r: Request, raw: string): Outcome {
    if raw == "" then Outcome(r, false)
    else
      var e := IndexOf(raw, '\n', 0);
      var o := ParseLine(r, StripCr(raw[..e]));
      if !o.ok then o
      else
        var hs := AddHeaders(o.req.headers, HeaderLines(raw, AfterLine(raw, e)));
        Outcome(o.req.(headers := hs.fields, malformed := o.req.malformed || !hs.ok), hs.ok)
  }

  datatype Separator = NoSeparator | Separator(at: nat, len: nat)

  /** CRLF CRLF first, else LF LF. */
  function FindSeparator(raw: string): (s: Separator)
    ensures s.Separator? ==> 2 <= s.len <= 4 && s.at + s.len <= |raw|
  {
    var e := HeadEnd(raw, 0);
    if e < |raw| then Separator(e, 4)
    else
      var f := LfLf(raw, 0);
      if f < |raw| then Separator(f, 2) else NoSeparator
  }

  predicate IsChunked(r: Request) {
    "transfer-encoding" in r.headers && Contains(r.headers["transfer-encoding"], "chunked")
  }

  predicate HasLength(r: Request) { "content-length" in r.headers }

  function ParseChunked(r: Request, raw: string, bodyStart: nat, max: nat): Outcome
    requires bodyStart <= |raw| < MAX_SIZE && max < MAX_SIZE
  {
    match ScanFrom(raw, bodyStart, 0, max)
    case Malformed => Outcome(r.(malformed := true, body := "", bodyConsumed := 0), false)
    case TooLarge => Outcome(r.(tooLarge := true, body := "", bodyConsumed := 0), false)
    case Incomplete => Outcome(r, false)
    case Complete(end) =>
      ScanMovesOn(raw, bodyStart, 0, max);
      var r := r.(bodyConsumed := end - bodyStart);
      match DecodeFrom(r.body, 0, max)
      case None => Outcome(r.(malformed := true), false)
      case Some(data) => Outcome(r.(body := data), true)
  }

  /** A complete body ends after its start, also when a size wrapped. */
  lemma {:induction false} ScanMovesOn(s: string, pos: nat, total: nat, max: nat)
    requires pos <= |s| < MAX_SIZE && total <= max < MAX_SIZE
    ensures ScanFrom(s, pos, total, max).Complete? ==> ScanFrom(s, pos, total, max).end > pos - total
    decreases |s| + total - pos
  {
    hide ReadSize, TrailerEnd;
    var line := ReadSize(s, pos);
    if line.SizeLine? && line.size != 0 {
      var total', pos' := (total + line.size) % WORD, (line.next + line.size + 2) % WORD;
      if total' <= max && pos' <= |s| {
        Progress(pos, total, line.next, line.size, |s|, max);
        ScanMovesOn(s, pos', total', max);
      }
    }
  }

  function ParseSized(r: Request, max: nat): Outcome {
    var length := if HasLength(r) then ReadLength(r.headers["content-length"]) else Some(0);
    match length
    case None => Outcome(r.(contentLength := 0, lengthValid := false, body := "", bodyConsumed := 0), false)
    case Some(n) =>
      var r := r.(contentLength := n, lengthValid := true);
      if n > max then Outcome(r.(tooLarge := true, body := "", bodyConsumed := 0), false)
      else if n == 0 then Outcome(r.(body := "", bodyConsumed := 0), true)
      else if |r.body| < n then Outcome(r, false)
      else Outcome(r.(body := r.body[..n], bodyConsumed := n), true)
  }

  function ParseBody(r: Request, raw: string, bodyStart: nat, max: nat): Outcome
    requires bodyStart <= |raw| < MAX_SIZE && max < MAX_SIZE
  {
    var r := r.(body := raw[bodyStart..], bodyConsumed := 0);
    if IsChunked(r) then
      if HasLength(r) then Outcome(r.(conflicting := true, body := "", bodyConsumed := 0), false)
      else ParseChunked(r, raw, bodyStart, max)
    else ParseSized(r, max)
  }

  function Parse(r: Request, raw: string, max: nat): Outcome
    requires |raw| < MAX_SIZE && max < MAX_SIZE
  {
    var h := ParseHead(Begin(r), raw);
    if !h.ok then h
    else
      match FindSeparator(raw)
      case NoSeparator => Outcome(h.req, false)
      case Separator(at, len) => ParseBody(h.req.(headerEnd := at, sepLen := len), raw, at + len, max)
  }

  // ---------- Every success consumes a sensible number of bytes ----------

  /** The dispatcher's two sanity checks are dead: a parsed request consumes at least
      its head separator, and never more than the buffer holds. */
  lemma {:induction false} ConsumedInBounds(r: Request, raw: string, max: nat)
    requires |raw| < MAX_SIZE && max < MAX_SIZE && Parse(r, raw, max).ok
    ensures 0 < Parse(r, raw, max).req.Consumed() <= |raw|
  {
    hide *;
    ParseNeedsSeparator(r, raw, max);
    var h := ParseHead(Begin(r), raw).req;
    var s := FindSeparator(raw);
    BodyInBounds(h.(headerEnd := s.at, sepLen := s.len), raw, s.at + s.len, max);
  }

  lemma ParseNeedsSeparator(r: Request, raw: string, max: nat)
    requires |raw| < MAX_SIZE && max < MAX_SIZE && Parse(r, raw, max).ok
    ensures var h, s := ParseHead(Begin(r), raw), FindSeparator(raw);
            && h.ok && s.Separator?
            && Parse(r, raw, max) == ParseBody(h.req.(headerEnd := s.at, sepLen := s.len), raw, s.at + s.len, max)
  {
    hide ParseHead, FindSeparator, ParseBody;
  }

  lemma BodyInBounds(r: Request, raw: string, bodyStart: nat, max: nat)
    requires bodyStart <= |raw| < MAX_SIZE && max < MAX_SIZE && ParseBody(r, raw, bodyStart, max).ok
    requires r.headerEnd + r.sepLen == bodyStart > 0
    ensures 0 < ParseBody(r, raw, bodyStart, max).req.Consumed() <= |raw|
  {
    hide ScanFrom, DecodeFrom, ReadLength, IsChunked;
  }

  // ---------- The request object ----------

  /** HttpRequest. */
  class HttpRequest {
    var req: Request
    const maxBodySize: nat

    constructor (maxBodySize: nat)
      ensures req == FRESH && this.maxBodySize == maxBodySize
    {
      req := FRESH;
      this.maxBodySize := maxBodySize;
    }

    method ParseQueryParams(queryString: string)
      modifies this
      ensures req == old(req).(queries := AddQueries(old(req).queries, Items(queryString, 0)))
    {
      var pos := 0;
      ghost var seen := [];
      while pos < |queryString|
        invariant pos <= |queryString|
        invariant Items(queryString, 0) == seen + Items(queryString, pos)
        invariant req == old(req).(queries := AddQueries(old(req).queries, seen))
      {
        var e := IndexOf(queryString, '&', pos);
        var param := queryString[pos..e];
        req := req.(queries := AddQuery(req.queries, param));
        assert (seen + [param])[..|seen|] == seen;
        Snoc(seen, param, Items(queryString, AfterLine(queryString, e)));
        seen := seen + [param];
        pos := if e < |queryString| then e + 1 else e;
      }
      assert seen + [] == seen;
    }

    method ParseRequestLine(line: string) returns (ok: bool)
      modifies this
      ensures Outcome(req, ok) == ParseLine(old(req), line)
    {
      hide ReadWords, VersionOk, IndexOf, Items, AddQueries, PathDecode;
      var words := ReadWords(line);
      if words.None? {
        req := req.(malformed := true);
        return false;
      }
      var w := words.value;
      if !VersionOk(w.version) {
        req := req.(malformed := true);
        return false;
      }
      req := req.(method_ := w.method_, version := w.version);
      var q := IndexOf(w.target, '?', 0);
      var path := UrlDecode(w.target[..q], true, false);
      PathDecodeIs(w.target[..q]);
      req := req.(path := path);
      if q < |w.target| { ParseQueryParams(w.target[q + 1..]); }
      return true;
    }

    method ParseHeaders(lines: seq<string>) returns (ok: bool)
      modifies this
      ensures ok == AddHeaders(old(req).headers, lines).ok
      ensures req == old(req).(headers := AddHeaders(old(req).headers, lines).fields, malformed := old(req).malformed || !ok)
    {
      for i := 0 to |lines|
        invariant AddHeaders(old(req).headers, lines) == AddHeaders(req.headers, lines[i..])
        invariant req == old(req).(headers := req.headers)
      {
        var h := ReadHeader(lines[i]);
        assert lines[i..][1..] == lines[i + 1..];
        if h.None? {
          req := req.(malformed := true);
          return false;
        }
        req := req.(headers := req.headers[h.value.name := h.value.value]);
      }
      return true;
    }

    /** parse: request line, header lines, separator, body. */
    method ParseBytes(raw: string) returns (ok: bool)
      requires |raw| < MAX_SIZE && maxBodySize < MAX_SIZE
      modifies this
      ensures Outcome(req, ok) == Parse(old(req), raw, maxBodySize)
    {
      hide *;
      ghost var start := req;
      req := Begin(req);
      ok := ParseHeadBytes(raw);
      ParseStages(start, raw, maxBodySize);
      if !ok { return; }
      var s := FindSeparator(raw);
      if s.NoSeparator? { return false; }
      req := req.(headerEnd := s.at, sepLen := s.len);
      ok := ParseBodyBytes(raw, s.at + s.len);
    }

    method ParseHeadBytes(raw: string) returns (ok: bool)
      modifies this
      ensures Outcome(req, ok) == ParseHead(old(req), raw)
    {
      hide ParseLine, AddHeaders, HeaderLines, StripCr;
      if raw == "" { return false; }
      var e := IndexOf(raw, '\n', 0);
      ok := ParseRequestLine(StripCr(raw[..e]));
      if !ok { return; }
      var headerLines := CollectLines(raw, AfterLine(raw, e));
      ok := ParseHeaders(headerLines);
    }

    method ParseBodyBytes(raw: string, bodyStart: nat) returns (ok: bool)
      requires bodyStart <= |raw| < MAX_SIZE && maxBodySize < MAX_SIZE
      modifies this
      ensures Outcome(req, ok) == ParseBody(old(req), raw, bodyStart, maxBodySize)
    {
      hide ScanFrom, DecodeFrom, IsChunked, HasLength, ReadLength;
      req := req.(body := raw[bodyStart..], bodyConsumed := 0);
      if IsChunked(req) {
        if HasLength(req) {
          req := req.(conflicting := true, body := "", bodyConsumed := 0);
          return false;
        }
        var scan := ScanChunkedEnd(raw, bodyStart, maxBodySize);
        match scan {
          case Malformed =>
            req := req.(malformed := true, body := "", bodyConsumed := 0);
            return false;
          case TooLarge =>
            req := req.(tooLarge := true, body := "", bodyConsumed := 0);
            return false;
          case Incomplete =>
            return false;
          case Complete(end) =>
            ScanMovesOn(raw, bodyStart, 0, maxBodySize);
            req := req.(bodyConsumed := end - bodyStart);
            var decoded := DecodeChunkedBody(req.body, maxBodySize);
            if decoded.None? {
              req := req.(malformed := true);
              return false;
            }
            req := req.(body := decoded.value);
            return true;
        }
      } else {
        ok := ParseSizedBytes();
      }
    }

    method ParseSizedBytes() returns (ok: bool)
      modifies this
      ensures Outcome(req, ok) == ParseSized(old(req), maxBodySize)
    {
      hide ReadLength;
      req := req.(contentLength := 0, lengthValid := true);
      if HasLength(req) {
        var length := ReadLength(req.headers["content-length"]);
        if length.None? {
          req := req.(lengthValid := false, body := "", bodyConsumed := 0);
          return false;
        }
        req := req.(contentLength := length.value);
        if req.contentLength > maxBodySize {
          req := req.(tooLarge := true, body := "", bodyConsumed := 0);
          return false;
        }
      }
      var contentLength := req.contentLength;
      if contentLength == 0 {
        req := req.(body := "");
      } else if |req.body| < contentLength {
        return false;
      } else {
        req := req.(body := req.body[..contentLength]);
      }
      req := req.(bodyConsumed := contentLength);
      return true;
    }
  }

  lemma PathDecodeIs(s: string)
    ensures PathDecode(s) == Decode(s, 0, true, false)
  {
    hide Decode;
  }

  lemma ParseStages(r: Request, raw: string, max: nat)
    requires |raw| < MAX_SIZE && max < MAX_SIZE
    ensures var h, s := ParseHead(Begin(r), raw), FindSeparator(raw);
            Parse(r, raw, max) == (
              if !h.ok then h
              else if s.NoSeparator? then Outcome(h.req, false)
              else ParseBody(h.req.(headerEnd := s.at, sepLen := s.len), raw, s.at + s.len, max))
  {
    hide ParseHead, FindSeparator, ParseBody;
  }

  lemma Snoc(a: seq<string>, x: string, b: seq<string>)
    ensures a + ([x] + b) == (a + [x]) + b
  {}

  /** The getline loop that collects the header lines. */
  method CollectLines(raw: string, start: nat) returns (lines: seq<string>)
    requires start <= |raw|
    ensures lines == HeaderLines(raw, start)
  {
    hide StripCr, IndexOf;
    lines := [];
    var pos := start;
    while pos < |raw|
      invariant pos <= |raw|
      invariant HeaderLines(raw, start) == lines + HeaderLines(raw, pos)
    {
      var e := IndexOf(raw, '\n', pos);
      var line := StripCr(raw[pos..e]);
      if line == "" { break; }
      Snoc(lines, line, HeaderLines(raw, AfterLine(raw, e)));
      lines := lines + [line];
      pos := if e < |raw| then e + 1 else e;
    }
    assert lines + [] == lines;
  }
}

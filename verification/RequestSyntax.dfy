/** The request line and the header lines, as the parser reads them. */
module RequestSyntax {
  import opened Text
  import opened UrlCodec

  // ---------- Characters ----------

  /** isspace in the C locale. */
  predicate IsSpace(c: char) { c == ' ' || 9 <= c as int <= 13 }
  predicate IsBlank(c: char) { c == ' ' || c == '\t' }
  predicate IsDigit(c: char) { '0' <= c <= '9' }

  function LowerChar(c: char): char {
    if 'A' <= c <= 'Z' then (c as int + 32) as char else c
  }

  function Lower(s: string): (r: string)
    ensures |r| == |s|
  {
    seq(|s|, k requires 0 <= k < |s| => LowerChar(s[k]))
  }

  function TrimStart(s: string): string {
    if s != "" && IsBlank(s[0]) then TrimStart(s[1..]) else s
  }

  function TrimEnd(s: string): string {
    if s != "" && IsBlank(s[|s| - 1]) then TrimEnd(s[..|s| - 1]) else s
  }

  function StripCr(s: string): string {
    if s != "" && s[|s| - 1] == '\r' then s[..|s| - 1] else s
  }

  // ---------- The request line ----------

  function SkipSpace(s: string, i: nat): (j: nat)
    requires i <= |s|
    ensures i <= j <= |s|
    decreases |s| - i
  {
    if i < |s| && IsSpace(s[i]) then SkipSpace(s, i + 1) else i
  }

  function WordEnd(s: string, i: nat): (j: nat)
    requires i <= |s|
    ensures i <= j <= |s|
    decreases |s| - i
  {
    if i < |s| && !IsSpace(s[i]) then WordEnd(s, i + 1) else i
  }

  datatype RequestLine = RequestLine(method_: string, target: string, version: string)

  /** `stream >> method >> path >> version`: three words; the rest is ignored. */
  function ReadWords(line: string): Option<RequestLine> {
    var a := SkipSpace(line, 0);
    var a' := WordEnd(line, a);
    var b := SkipSpace(line, a');
    var b' := WordEnd(line, b);
    var c := SkipSpace(line, b');
    var c' := WordEnd(line, c);
    if a == a' || b == b' || c == c' then None
    else Some(RequestLine(line[a..a'], line[b..b'], line[c..c']))
  }

  predicate VersionOk(v: string) {
    |v| == 8 && v[..5] == "HTTP/" && IsDigit(v[5]) && v[6] == '.' && IsDigit(v[7])
  }

  // ---------- Target: path and query ----------

  function TargetPath(target: string): string {
    PathDecode(target[..IndexOf(target, '?', 0)])
  }

  /** getline with separator '&': a trailing separator yields no empty item. */
  function Items(q: string, pos: nat): seq<string>
    requires pos <= |q|
    decreases |q| - pos
  {
    if pos == |q| then []
    else
      var e := IndexOf(q, '&', pos);
      [q[pos..e]] + Items(q, if e < |q| then e + 1 else e)
  }

  function AddQuery(m: map<string, string>, item: string): map<string, string> {
    var e := IndexOf(item, '=', 0);
    if e < |item| then m[QueryDecode(item[..e]) := QueryDecode(item[e + 1..])]
    else m[QueryDecode(item) := ""]
  }

  function AddQueries(m: map<string, string>, items: seq<string>): map<string, string>
    decreases |items|
  {
    if items == [] then m else AddQuery(AddQueries(m, items[..|items| - 1]), items[|items| - 1])
  }

  function TargetQueries(m: map<string, string>, target: string): map<string, string> {
    var q := IndexOf(target, '?', 0);
    if q < |target| then AddQueries(m, Items(target[q + 1..], 0)) else m
  }

  // ---------- Header lines ----------

  /** getline, '\r' stripped, up to the first empty line or the end of the input. */
  function HeaderLines(raw: string, pos: nat): seq<string>
    requires pos <= |raw|
    decreases |raw| - pos
  {
    if pos == |raw| then []
    else
      var e := IndexOf(raw, '\n', pos);
      var line := StripCr(raw[pos..e]);
      if line == "" then [] else [line] + HeaderLines(raw, if e < |raw| then e + 1 else e)
  }

  datatype Header = Header(name: string, value: string)

  /** One header line: no colon or an empty name is malformed. */
  function ReadHeader(line: string): Option<Header> {
    var colon := IndexOf(line, ':', 0);
    if colon == |line| then None
    else
      var name := TrimStart(line[..colon]);
      if name == "" then None
      else Some(Header(Lower(TrimEnd(name)), TrimEnd(TrimStart(line[colon + 1..]))))
  }

  datatype Headers = Headers(fields: map<string, string>, ok: bool)

  /** A later field of the same name replaces the value; a malformed line stops the
      loop, and the fields before it stay. */
  function AddHeaders(m: map<string, string>, lines: seq<string>): Headers
    decreases |lines|
  {
    if lines == [] then Headers(m, true)
    else
      match ReadHeader(lines[0])
      case None => Headers(m, false)
      case Some(h) => AddHeaders(m[h.name := h.value], lines[1..])
  }

  // ---------- The end of the head ----------

  predicate HeadEndAt(s: string, i: nat) { CrlfAt(s, i) && CrlfAt(s, i + 2) }

  /** find("\r\n\r\n", pos); |s| stands for npos. */
  function HeadEnd(s: string, pos: nat): (e: nat)
    requires pos <= |s|
    ensures pos <= e <= |s|
    ensures e < |s| ==> HeadEndAt(s, e)
    decreases |s| - pos
  {
    if pos == |s| || HeadEndAt(s, pos) then pos else HeadEnd(s, pos + 1)
  }

  /** find returns the first one. */
  lemma {:induction false} FirstHeadEnd(s: string, pos: nat, e: nat)
    requires pos <= e < |s| && HeadEndAt(s, e)
    ensures HeadEnd(s, pos) <= e
    decreases e - pos
  {
    if pos < e && !HeadEndAt(s, pos) { FirstHeadEnd(s, pos + 1, e); }
  }

  predicate LfLfAt(s: string, i: nat) { i + 1 < |s| && s[i] == '\n' && s[i + 1] == '\n' }

  /** find("\n\n", pos). */
  function LfLf(s: string, pos: nat): (e: nat)
    requires pos <= |s|
    ensures pos <= e <= |s|
    ensures e < |s| ==> LfLfAt(s, e)
    decreases |s| - pos
  {
    if pos == |s| || LfLfAt(s, pos) then pos else LfLf(s, pos + 1)
  }

  // ---------- Content-Length ----------

  predicate AllDigits(t: string) { forall k :: 0 <= k < |t| ==> IsDigit(t[k]) }

  function DecNum(t: string): nat
    requires AllDigits(t)
  {
    if t == "" then 0
    else
      assert IsDigit(t[|t| - 1]);
      10 * DecNum(t[..|t| - 1]) + (t[|t| - 1] as int - '0' as int)
  }

  /** A non-empty run of digits, blanks around it allowed, that fits 64 bits. */
  function ReadLength(value: string): Option<nat> {
    var t := TrimEnd(TrimStart(value));
    if t != "" && AllDigits(t) && DecNum(t) < 0x1_0000_0000_0000_0000 then Some(DecNum(t)) else None
  }

  /** find(t) != npos. */
  function Contains(s: string, t: string): bool { Find(s, t, 0).Some? }
}

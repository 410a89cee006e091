/** String primitives shared by the router, the request parser and the session
    file format: the parts of std::string the repository relies on. */
module Text {

  datatype Option<+T> = None | Some(value: T)

  /** std::string::find(c, from); |s| stands for npos. */
  function IndexOf(s: string, c: char, from: nat): (i: nat)
    requires from <= |s|
    ensures from <= i <= |s|
    ensures i < |s| ==> s[i] == c
    ensures c !in s[from..i]
    decreases |s| - from
  {
    if from == |s| || s[from] == c then from else IndexOf(s, c, from + 1)
  }

  /** t occurs in s at position i. */
  predicate At(s: string, t: string, i: nat) {
    i + |t| <= |s| && s[i..i + |t|] == t
  }

  lemma AtChar(s: string, t: string, i: nat, k: nat)
    requires k < |t|
    ensures At(s, t, i) ==> s[i + k] == t[k]
  {
    if At(s, t, i) { assert s[i..i + |t|][k] == t[k]; }
  }

  /** i is the first occurrence of t at or after from. */
  ghost predicate FirstAt(s: string, t: string, from: nat, i: nat) {
    from <= i && At(s, t, i) && forall j: nat :: from <= j < i ==> !At(s, t, j)
  }

  /** std::string::find(t, from). */
  function Find(s: string, t: string, from: nat): (r: Option<nat>)
    requires from <= |s|
    decreases |s| - from
  {
    if At(s, t, from) then Some(from)
    else if from == |s| then None
    else Find(s, t, from + 1)
  }

  /** Find returns the first occurrence, and None exactly when there is none. */
  lemma {:induction false} FindFirst(s: string, t: string, from: nat)
    requires from <= |s|
    ensures var r := Find(s, t, from);
            if r.Some? then FirstAt(s, t, from, r.value) else forall j: nat :: from <= j ==> !At(s, t, j)
    decreases |s| - from
  {
    if !At(s, t, from) && from < |s| { FindFirst(s, t, from + 1); }
  }

  lemma {:induction false} FindIs(s: string, t: string, from: nat, i: nat)
    requires from <= |s| && FirstAt(s, t, from, i)
    ensures Find(s, t, from) == Some(i)
  {
    FindFirst(s, t, from);
    assert At(s, t, i);
    var r := Find(s, t, from).value;
    assert r <= i && i <= r;
  }

  /** std::string::replace(pos, len, with). */
  function Replace(s: string, pos: nat, len: nat, with: string): string
    requires pos + len <= |s|
  {
    s[..pos] + with + s[pos + len..]
  }

  lemma Assoc(a: string, b: string, c: string)
    ensures (a + b) + c == a + (b + c)
  {}

  lemma DropSlice(s: string, n: nat, a: nat, b: nat)
    requires a <= b && n + b <= |s|
    ensures s[n..][a..b] == s[n + a..n + b]
  {}

  lemma Drop(a: string, b: string)
    ensures (a + b)[|a|..] == b && (a + b)[..|a|] == a
  {}

  /** The pieces of s between separators; empty pieces are kept. */
  function Split(s: string, sep: char): (r: seq<string>)
    ensures |r| > 0
    decreases |s|
  {
    var i := IndexOf(s, sep, 0);
    if i == |s| then [s] else [s[..i]] + Split(s[i + 1..], sep)
  }

  lemma {:induction false} SplitPieces(s: string, sep: char)
    ensures forall k :: 0 <= k < |Split(s, sep)| ==> sep !in Split(s, sep)[k]
    decreases |s|
  {
    var i := IndexOf(s, sep, 0);
    assert s[0..i] == s[..i];
    if i < |s| { SplitPieces(s[i + 1..], sep); }
  }

  function Join(parts: seq<string>, sep: char): string
    requires |parts| > 0
  {
    if |parts| == 1 then parts[0] else parts[0] + [sep] + Join(parts[1..], sep)
  }

  lemma IndexOfIs(s: string, c: char, from: nat, i: nat)
    requires from <= i <= |s|
    requires c !in s[from..i] && (i < |s| ==> s[i] == c)
    ensures IndexOf(s, c, from) == i
    decreases i - from
  {
    if from < i {
      assert s[from] == s[from..i][0];
      assert s[from + 1..i] == s[from..i][1..];
      IndexOfIs(s, c, from + 1, i);
    }
  }

  lemma IndexOfPrefix(a: string, c: char, b: string)
    requires c !in a
    ensures IndexOf(a + [c] + b, c, 0) == |a|
  {
    assert (a + [c] + b)[0..|a|] == a;
    IndexOfIs(a + [c] + b, c, 0, |a|);
  }

  lemma {:induction false} JoinSplit(s: string, sep: char)
    ensures Join(Split(s, sep), sep) == s
    decreases |s|
  {
    var i := IndexOf(s, sep, 0);
    if i < |s| {
      JoinSplit(s[i + 1..], sep);
      assert Split(s, sep)[1..] == Split(s[i + 1..], sep);
      assert s == s[..i] + [sep] + s[i + 1..];
    }
  }

  lemma {:induction false} SplitCons(a: string, sep: char, b: string)
    requires sep !in a
    ensures Split(a + [sep] + b, sep) == [a] + Split(b, sep)
  {
    IndexOfPrefix(a, sep, b);
    var s := a + [sep] + b;
    assert s[..|a|] == a && s[|a| + 1..] == b;
  }

  lemma SplitNone(a: string, sep: char)
    requires sep !in a
    ensures Split(a, sep) == [a]
  {
    assert a[0..|a|] == a;
    IndexOfIs(a, sep, 0, |a|);
  }

  // ---------- Digits ----------

  /** The value of a hexadecimal digit, -1 for any other character. */
  function HexVal(c: char): int {
    if '0' <= c <= '9' then c as int - '0' as int
    else if 'a' <= c <= 'f' then c as int - 'a' as int + 10
    else if 'A' <= c <= 'F' then c as int - 'A' as int + 10
    else -1
  }

  predicate IsHex(c: char) { HexVal(c) >= 0 }

  function HexDigit(n: nat, upper: bool): char
    requires n < 16
  {
    if n < 10 then ('0' as int + n) as char
    else if upper then ('A' as int + n - 10) as char
    else ('a' as int + n - 10) as char
  }

  lemma HexDigitVal(n: nat, upper: bool)
    requires n < 16
    ensures HexVal(HexDigit(n, upper)) == n
  {}

  // ---------- Lines ended by CRLF ----------

  predicate CrlfAt(s: string, i: nat) { i + 1 < |s| && s[i] == '\r' && s[i + 1] == '\n' }

  /** find("\r\n", pos); |s| stands for npos. */
  function LineEnd(s: string, pos: nat): (e: nat)
    requires pos <= |s|
    ensures pos <= e <= |s|
    ensures e < |s| ==> CrlfAt(s, e)
    decreases |s| - pos
  {
    if pos == |s| || CrlfAt(s, pos) then pos else LineEnd(s, pos + 1)
  }

  lemma {:induction false} LineEndIs(s: string, pos: nat, e: nat)
    requires pos <= e < |s| && CrlfAt(s, e) && forall k: nat :: pos <= k < e ==> !CrlfAt(s, k)
    ensures LineEnd(s, pos) == e
    decreases e - pos
  {
    if pos < e { LineEndIs(s, pos + 1, e); }
  }

  /** A line end that is there stays the first one when the text goes on. */
  lemma {:induction false} LineEndStable(s: string, x: string, pos: nat)
    requires pos <= |s| && LineEnd(s, pos) < |s|
    ensures LineEnd(s + x, pos) == LineEnd(s, pos)
    decreases |s| - pos
  {
    assert CrlfAt(s + x, pos) == CrlfAt(s, pos);
    if !CrlfAt(s, pos) { LineEndStable(s, x, pos + 1); }
  }

  lemma {:induction false} LineEndShift(s: string, n: nat, pos: nat)
    requires n + pos <= |s|
    ensures LineEnd(s[n..], pos) + n == LineEnd(s, n + pos)
    decreases |s| - pos
  {
    if n + pos < |s| {
      assert CrlfAt(s[n..], pos) == CrlfAt(s, n + pos);
      if !CrlfAt(s, n + pos) { LineEndShift(s, n, pos + 1); }
    }
  }

  /** No line break inside. */
  predicate OneLine(s: string) { forall k: nat :: k < |s| ==> !CrlfAt(s, k) }

  /** A line without breaks ends where its CRLF stands. */
  lemma LineEndAfter(pre: string, line: string, rest: string)
    requires OneLine(line)
    ensures var s := pre + (line + ("\r\n" + rest));
            LineEnd(s, |pre|) == |pre| + |line| && |pre| + |line| + 2 <= |s|
  {
    var s, e := pre + (line + ("\r\n" + rest)), |pre| + |line|;
    assert s[e] == '\r' && s[e + 1] == '\n';
    forall k: nat | |pre| <= k < e ensures !CrlfAt(s, k) {
      assert s[k] == line[k - |pre|] && !CrlfAt(line, k - |pre|);
      assert k + 1 < e ==> s[k + 1] == line[k + 1 - |pre|];
    }
    LineEndIs(s, |pre|, e);
  }

  const CRLF: string := "\r\n"

  /** The lines, each ended by CRLF, then an empty line, then rest. */
  function LinesOnto(lines: seq<string>, rest: string): string {
    if lines == [] then CRLF + rest else lines[0] + (CRLF + LinesOnto(lines[1..], rest))
  }

  lemma Regroup(a: string, b: string, c: string)
    ensures a + (CRLF + (b + c)) == (a + (CRLF + b)) + c
  {}

  lemma {:induction false} LinesOntoIs(lines: seq<string>, rest: string)
    ensures LinesOnto(lines, rest) == LinesOnto(lines, "") + rest
  {
    if lines == [] {
      assert CRLF + "" + rest == CRLF + rest;
    } else {
      LinesOntoIs(lines[1..], rest);
      Regroup(lines[0], LinesOnto(lines[1..], ""), rest);
    }
  }

  lemma LineStep(pre: string, line: string, more: string)
    ensures pre + (line + (CRLF + more)) == (pre + (line + CRLF)) + more
    ensures |pre + (line + CRLF)| == |pre| + |line| + 2
  {}
}

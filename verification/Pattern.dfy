/** Route patterns: from the pattern text to the regular expression text that
    pathToRegex builds, and from that text to the expression it denotes. */
module Pattern {
  import opened Text

  // ---------- Pattern tokens: the meaning of a pattern ----------

  datatype Token = Lit(c: char) | Param(name: string) | Wild

  predicate IsAlpha(c: char) { 'a' <= c <= 'z' || 'A' <= c <= 'Z' }
  predicate IsDigit(c: char) { '0' <= c <= '9' }
  predicate IsIdentStart(c: char) { IsAlpha(c) || c == '_' }
  predicate IsIdentChar(c: char) { IsIdentStart(c) || IsDigit(c) }

  /** The fourteen characters that are escaped before the text is compiled. */
  predicate IsMeta(c: char) {
    c == '.' || c == '*' || c == '+' || c == '?' || c == '^' || c == '$' || c == '{'
    || c == '}' || c == '(' || c == ')' || c == '|' || c == '[' || c == ']' || c == '\\'
  }

  /** End of the run of identifier characters starting at `from`. */
  function IdentEnd(s: string, from: nat): (e: nat)
    requires from <= |s|
    ensures from <= e <= |s|
    ensures e < |s| ==> !IsIdentChar(s[e])
    decreases |s| - from
  {
    if from < |s| && IsIdentChar(s[from]) then IdentEnd(s, from + 1) else from
  }

  lemma IdentRun(s: string, from: nat)
    requires from <= |s|
    ensures forall k: nat :: from <= k < IdentEnd(s, from) ==> IsIdentChar(s[k])
    decreases |s| - from
  {}

  /** A placeholder `:name` starts at position i. */
  predicate ParamAt(s: string, i: nat) {
    i + 1 < |s| && s[i] == ':' && IsIdentStart(s[i + 1])
  }

  function Tokens(path: string): (ts: seq<Token>)
    decreases |path|
  {
    if path == "" then []
    else if ParamAt(path, 0) then
      var e := IdentEnd(path, 1);
      [Param(path[1..e])] + Tokens(path[e..])
    else if path[0] == '*' then [Wild] + Tokens(path[1..])
    else [Lit(path[0])] + Tokens(path[1..])
  }

  function ParamNames(ts: seq<Token>): seq<string> {
    if ts == [] then []
    else if ts[0].Param? then [ts[0].name] + ParamNames(ts[1..])
    else ParamNames(ts[1..])
  }

  // ---------- The string pipeline ----------

  const GROUP: string := "([^/]+)"
  const WILDCARD: string := "(.*)"

  /** regex_replace over the meta characters with the format `\$&`. */
  function Escape(s: string): string {
    if s == "" then ""
    else EscapeChar(s[0]) + Escape(s[1..])
  }

  /** The iterator over non-overlapping placeholders: start of the next one. */
  function NextParam(s: string, from: nat): (i: nat)
    requires from <= |s|
    ensures from <= i <= |s|
    ensures i < |s| ==> ParamAt(s, i)
    decreases |s| - from
  {
    if from == |s| || ParamAt(s, from) then from else NextParam(s, from + 1)
  }

  lemma NextParamFirst(s: string, from: nat)
    requires from <= |s|
    ensures forall k: nat :: from <= k < NextParam(s, from) ==> !ParamAt(s, k)
    decreases |s| - from
  {}

  /** regex_replace of every `\*` by `(.*)`, left to right. */
  function ReplaceStars(s: string): string
    decreases |s|
  {
    if |s| >= 2 && s[0] == '\\' && s[1] == '*' then WILDCARD + ReplaceStars(s[2..])
    else if s == "" then ""
    else [s[0]] + ReplaceStars(s[1..])
  }

  /** The text that one token contributes; `wild` is the wildcard's rendering. */
  function TokenText(t: Token, wild: string): string {
    match t
    case Lit(c) => EscapeChar(c)
    case Param(_) => GROUP
    case Wild => wild
  }

  function Render(ts: seq<Token>, wild: string): string {
    if ts == [] then "" else TokenText(ts[0], wild) + Render(ts[1..], wild)
  }

  /** The escaped text from i on, with its placeholders replaced. */
  function Substituted(s: string, i: nat): string
    requires i <= |s|
    decreases |s| - i
  {
    if i == |s| then ""
    else if ParamAt(s, i) then GROUP + Substituted(s, IdentEnd(s, i + 1))
    else [s[i]] + Substituted(s, i + 1)
  }

  function NamesIn(s: string, i: nat): seq<string>
    requires i <= |s|
    decreases |s| - i
  {
    if i == |s| then []
    else if ParamAt(s, i) then [s[i + 1..IdentEnd(s, i + 1)]] + NamesIn(s, IdentEnd(s, i + 1))
    else NamesIn(s, i + 1)
  }

  /** A stretch without placeholders is copied. */
  lemma {:induction false} SubstitutedSkip(s: string, i: nat, q: nat)
    requires i <= q <= |s| && forall k: nat :: i <= k < q ==> !ParamAt(s, k)
    ensures Substituted(s, i) == s[i..q] + Substituted(s, q)
    ensures NamesIn(s, i) == NamesIn(s, q)
    decreases q - i
  {
    if i < q {
      SubstitutedSkip(s, i + 1, q);
      assert s[i..q] == [s[i]] + s[i + 1..q];
      Assoc([s[i]], s[i + 1..q], Substituted(s, q));
    }
  }

  /** The searched text `:name` is found, from the end of the previous match,
      exactly where the iterator stands: an earlier occurrence would itself be a
      placeholder. */
  lemma FindHitsIterator(s: string, from: nat, q: nat)
    requires from <= q < |s| && q == NextParam(s, from)
    ensures q + 2 <= IdentEnd(s, q + 1)
    ensures FirstAt(s, s[q..IdentEnd(s, q + 1)], from, q)
  {
    var t := s[q..IdentEnd(s, q + 1)];
    NextParamFirst(s, from);
    assert t[0] == ':' && t[1] == s[q + 1];
    forall j: nat | from <= j < q ensures !At(s, t, j) {
      AtChar(s, t, j, 0);
      AtChar(s, t, j, 1);
      assert !ParamAt(s, j);
    }
  }

  /** The same text is found in a string r that agrees with s from `from` on. */
  lemma FindPastDone(r: string, n: nat, s: string, from: nat, t: string, q: nat)
    requires n <= |r| && from <= |s| && r[n..] == s[from..]
    requires FirstAt(s, t, from, q)
    ensures Find(r, t, n) == Some(n + (q - from))
  {
    hide At, Find;
    AtAgrees(r, n, s, from, t, q - from);
    forall k: nat | n <= k < n + (q - from) ensures !At(r, t, k) {
      AtAgrees(r, n, s, from, t, k - n);
      assert !At(s, t, from + (k - n));
    }
    FindIs(r, t, n, n + (q - from));
  }

  lemma AtAgrees(r: string, n: nat, s: string, from: nat, t: string, d: nat)
    requires n <= |r| && from <= |s| && r[n..] == s[from..]
    ensures At(r, t, n + d) == At(s, t, from + d)
  {
    assert |r| - n == |r[n..]| == |s| - from;
    if n + d + |t| <= |r| {
      DropSlice(r, n, d, d + |t|);
      DropSlice(s, from, d, d + |t|);
    }
  }

  /** pathToRegex: escape, replace placeholders by an advancing find, then turn
      `\*` into a wildcard group. Its output is the token-by-token translation. */
  method PathToRegex(path: string) returns (regex: string, names: seq<string>)
    ensures regex == "^" + Render(Tokens(path), WILDCARD) + "$"
    ensures names == ParamNames(Tokens(path))
  {
    hide *;
    var escaped := Escape(path);
    var result := escaped;
    var offset: nat := 0;
    names := [];
    var it: nat := 0;   // end of the iterator's previous match
    var q := NextParam(escaped, 0);
    ghost var done := "";   // the finished part of the result
    assert escaped[0..] == escaped;
    PendingStarts(escaped);
    while q < |escaped|
      invariant it <= |escaped| && q == NextParam(escaped, it)
      invariant result == done + escaped[it..] && offset == |done|
      invariant Pending(escaped, it, done, names)
      decreases |escaped| - it
    {
      var e := IdentEnd(escaped, q + 1);
      var found := escaped[q..e];
      NextReplacement(escaped, it, q, done);
      SubstitutedNext(escaped, it, q, done, names);
      names := names + [found[1..]];
      var pos := Find(result, found, offset);
      if pos.Some? {
        result := Replace(result, pos.value, |found|, GROUP);
        offset := pos.value + |GROUP|;
      }
      done := done + (escaped[it..q] + GROUP);
      it := e;
      q := NextParam(escaped, it);
    }
    Finished(path, escaped, it, done, names);
    regex := "^" + ReplaceStars(result) + "$";
  }

  /** From `it` on the escaped text is still to be substituted; before it, the
      finished text is `done`, with the placeholder names collected in `names`. */
  ghost predicate Pending(escaped: string, it: nat, done: string, names: seq<string>) {
    && it <= |escaped|
    && Substituted(escaped, 0) == done + Substituted(escaped, it)
    && NamesIn(escaped, 0) == names + NamesIn(escaped, it)
  }

  lemma PendingStarts(escaped: string)
    ensures Pending(escaped, 0, "", [])
  {}

  lemma Finished(path: string, escaped: string, it: nat, done: string, names: seq<string>)
    requires escaped == Escape(path) && it <= |escaped| == NextParam(escaped, it)
    requires Pending(escaped, it, done, names)
    ensures ReplaceStars(done + escaped[it..]) == Render(Tokens(path), WILDCARD)
    ensures names == ParamNames(Tokens(path))
  {
    NextParamFirst(escaped, it);
    SubstitutedSkip(escaped, it, |escaped|);
    assert escaped[it..|escaped|] + "" == escaped[it..];
    EscapedTokens(path);
    TokensHaveNoStar(path);
    StarsReplaced(Tokens(path));
  }

  /** Where the find of one iteration lands, and the text it leaves. */
  lemma NextReplacement(escaped: string, it: nat, q: nat, done: string)
    requires it <= q < |escaped| && q == NextParam(escaped, it)
    ensures var e, result, pos := IdentEnd(escaped, q + 1), done + escaped[it..], |done| + (q - it);
            && q < e
            && Find(result, escaped[q..e], |done|) == Some(pos)
            && pos + (e - q) <= |result|
            && Replace(result, pos, e - q, GROUP) == (done + (escaped[it..q] + GROUP)) + escaped[e..]
  {
    var e := IdentEnd(escaped, q + 1);
    FindHitsIterator(escaped, it, q);
    Drop(done, escaped[it..]);
    FindPastDone(done + escaped[it..], |done|, escaped, it, escaped[q..e], q);
    Splice(done, escaped, it, q, e, GROUP);
  }

  lemma AtPlaceholder(s: string, q: nat)
    requires q < |s| && ParamAt(s, q)
    ensures var e := IdentEnd(s, q + 1);
            && q < e && Substituted(s, q) == GROUP + Substituted(s, e)
            && NamesIn(s, q) == [s[q + 1..e]] + NamesIn(s, e)
  {}

  lemma SubstitutedNext(s: string, it: nat, q: nat, done: string, names: seq<string>)
    requires it <= q < |s| && q == NextParam(s, it)
    requires Pending(s, it, done, names)
    ensures var e := IdentEnd(s, q + 1);
            q < e && Pending(s, e, done + (s[it..q] + GROUP), names + [s[q..e][1..]])
  {
    hide IdentEnd, NextParam, ParamAt;
    var e := IdentEnd(s, q + 1);
    NextParamFirst(s, it);
    SubstitutedSkip(s, it, q);
    AtPlaceholder(s, q);
    Regroup(done, s[it..q], GROUP, Substituted(s, e));
    assert s[q..e][1..] == s[q + 1..e];
  }

  lemma Regroup(a: string, b: string, c: string, d: string)
    ensures a + (b + (c + d)) == (a + (b + c)) + d
  {}

  lemma Splice(done: string, s: string, it: nat, q: nat, e: nat, g: string)
    requires it <= q <= e <= |s|
    ensures var r, pos := done + s[it..], |done| + (q - it);
            pos + (e - q) <= |r| && Replace(r, pos, e - q, g) == (done + (s[it..q] + g)) + s[e..]
  {
    var r, pos := done + s[it..], |done| + (q - it);
    assert r[..pos] == done + s[it..q];
    assert r[pos + (e - q)..] == s[e..];
  }

  // ---------- The escaped text, token by token ----------

  function EscapeChar(c: char): string { if IsMeta(c) then ['\\', c] else [c] }

  lemma {:induction false} EscapeAppend(a: string, b: string)
    ensures Escape(a + b) == Escape(a) + Escape(b)
  {
    if a == "" {
      assert a + b == b;
    } else {
      EscapeAppend(a[1..], b);
      assert (a + b)[1..] == a[1..] + b && (a + b)[0] == a[0];
      assert EscapeChar(a[0]) + (Escape(a[1..]) + Escape(b)) == (EscapeChar(a[0]) + Escape(a[1..])) + Escape(b);
    }
  }

  lemma {:induction false} EscapePlain(a: string)
    requires forall c :: c in a ==> !IsMeta(c)
    ensures Escape(a) == a
  {
    if a != "" { EscapePlain(a[1..]); }
  }

  lemma {:induction false} IdentEndPrefix(pre: string, s: string, from: nat)
    requires from <= |s|
    ensures IdentEnd(pre + s, |pre| + from) == |pre| + IdentEnd(s, from)
    decreases |s| - from
  {
    if from < |s| && IsIdentChar(s[from]) { IdentEndPrefix(pre, s, from + 1); }
  }

  lemma {:induction false} SubstitutedPrefix(pre: string, s: string, i: nat)
    requires i <= |s|
    ensures Substituted(pre + s, |pre| + i) == Substituted(s, i)
    decreases |s| - i
  {
    if i < |s| {
      hide IdentEnd, ParamAt;
      var w, k := pre + s, |pre| + i;
      PrefixedParam(pre, s, i);
      if ParamAt(s, i) {
        var e := IdentEnd(s, i + 1);
        SubstitutedPrefix(pre, s, e);
        assert Substituted(w, k) == GROUP + Substituted(w, |pre| + e);
      } else {
        SubstitutedPrefix(pre, s, i + 1);
        assert Substituted(w, k) == [s[i]] + Substituted(w, k + 1);
      }
    }
  }

  lemma {:induction false} NamesInPrefix(pre: string, s: string, i: nat)
    requires i <= |s|
    ensures NamesIn(pre + s, |pre| + i) == NamesIn(s, i)
    decreases |s| - i
  {
    if i < |s| {
      hide IdentEnd, ParamAt;
      var w, k := pre + s, |pre| + i;
      PrefixedParam(pre, s, i);
      if ParamAt(s, i) {
        var e := IdentEnd(s, i + 1);
        NamesInPrefix(pre, s, e);
        assert NamesIn(w, k) == [w[k + 1..|pre| + e]] + NamesIn(w, |pre| + e);
      } else {
        NamesInPrefix(pre, s, i + 1);
        assert NamesIn(w, k) == NamesIn(w, k + 1);
      }
    }
  }

  lemma PrefixedParam(pre: string, s: string, i: nat)
    requires i < |s|
    ensures (pre + s)[|pre| + i] == s[i] && ParamAt(pre + s, |pre| + i) == ParamAt(s, i)
    ensures var e := IdentEnd(s, i + 1);
            && IdentEnd(pre + s, |pre| + i + 1) == |pre| + e
            && (pre + s)[|pre| + i + 1..|pre| + e] == s[i + 1..e]
  {
    IdentEndPrefix(pre, s, i + 1);
  }

  /** Escaping commutes with finding placeholders: an escaped text has the same
      placeholders as the pattern, because no identifier character is escaped. */
  lemma {:induction false} EscapedTokens(path: string)
    ensures Substituted(Escape(path), 0) == Render(Tokens(path), "\\*")
    ensures NamesIn(Escape(path), 0) == ParamNames(Tokens(path))
    decreases |path|
  {
    if path == "" {
    } else if ParamAt(path, 0) {
      EscapedParam(path);
      EscapedTokens(path[IdentEnd(path, 1)..]);
    } else {
      EscapedChar(path);
      EscapedTokens(path[1..]);
    }
  }

  lemma EscapedParam(path: string)
    requires ParamAt(path, 0)
    ensures var e := IdentEnd(path, 1);
            && Substituted(Escape(path), 0) == GROUP + Substituted(Escape(path[e..]), 0)
            && NamesIn(Escape(path), 0) == [path[1..e]] + NamesIn(Escape(path[e..]), 0)
  {
    hide Escape, IdentEnd, Substituted, NamesIn;
    var e := IdentEnd(path, 1);
    EscapedPlaceholder(path);
    var head, rest := path[..e], Escape(path[e..]);
    var s := head + rest;
    AtPlaceholder(s, 0);
    SubstitutedPrefix(head, rest, 0);
    NamesInPrefix(head, rest, 0);
    assert s[1..e] == path[1..e];
  }

  lemma EscapedPlaceholder(path: string)
    requires ParamAt(path, 0)
    ensures var e := IdentEnd(path, 1);
            && Escape(path) == path[..e] + Escape(path[e..])
            && ParamAt(Escape(path), 0) && IdentEnd(Escape(path), 1) == e
  {
    var e := IdentEnd(path, 1);
    var head, tail := path[..e], path[e..];
    assert path == head + tail;
    IdentRun(path, 1);
    EscapeAppend(head, tail);
    EscapePlain(head);
    var rest := Escape(tail);
    assert rest == "" || !IsIdentChar(rest[0]);
    IdentEndIs(head + rest, 1, e);
  }

  lemma IdentEndIs(s: string, from: nat, e: nat)
    requires from <= e <= |s|
    requires forall k: nat :: from <= k < e ==> IsIdentChar(s[k])
    requires e < |s| ==> !IsIdentChar(s[e])
    ensures IdentEnd(s, from) == e
    decreases e - from
  {}

  lemma EscapedChar(path: string)
    requires path != "" && !ParamAt(path, 0)
    ensures Substituted(Escape(path), 0) == EscapeChar(path[0]) + Substituted(Escape(path[1..]), 0)
    ensures NamesIn(Escape(path), 0) == NamesIn(Escape(path[1..]), 0)
  {
    var head, rest := EscapeChar(path[0]), Escape(path[1..]);
    var s := head + rest;
    SubstitutedPrefix(head, rest, 0);
    NamesInPrefix(head, rest, 0);
    assert |path| > 1 && rest[0] != path[1] ==> rest[0] == '\\';
    forall k: nat | k < |head| ensures !ParamAt(s, k) {}
    SubstitutedSkip(s, 0, |head|);
    assert s[0..|head|] == head;
  }

  lemma TokensHaveNoStar(path: string)
    ensures Lit('*') !in Tokens(path)
    decreases |path|
  {}

  lemma {:induction false} StarsCopy(a: string, rest: string)
    requires '\\' !in a
    ensures ReplaceStars(a + rest) == a + ReplaceStars(rest)
  {
    if a == "" {
      assert a + rest == rest;
    } else {
      StarsCopy(a[1..], rest);
      assert a == [a[0]] + a[1..];
      Assoc([a[0]], a[1..], rest);
      StarsCopyOne(a[0], a[1..] + rest);
      Assoc([a[0]], a[1..], ReplaceStars(rest));
    }
  }

  lemma StarsCopyOne(c: char, rest: string)
    requires c != '\\' || rest == "" || rest[0] != '*'
    ensures ReplaceStars([c] + rest) == [c] + ReplaceStars(rest)
  {
    Drop([c], rest);
    var s := [c] + rest;
    assert |s| >= 2 ==> s[1] == rest[0];
  }

  lemma StarsCopyEscaped(c: char, rest: string)
    requires c != '*' && c != '\\'
    ensures ReplaceStars(['\\', c] + rest) == ['\\', c] + ReplaceStars(rest)
  {
    StarsCopyOne(c, rest);
    StarsCopyOne('\\', [c] + rest);
    assert ['\\'] + ([c] + rest) == ['\\', c] + rest;
    assert ['\\'] + ([c] + ReplaceStars(rest)) == ['\\', c] + ReplaceStars(rest);
  }

  lemma {:induction false} StarsReplaced(ts: seq<Token>)
    requires Lit('*') !in ts
    ensures ReplaceStars(Render(ts, "\\*")) == Render(ts, WILDCARD)
  {
    if ts != [] {
      StarsReplaced(ts[1..]);
      RenderStart(ts[1..]);
      StarsToken(ts[0], Render(ts[1..], "\\*"));
    }
  }

  lemma StarsToken(t: Token, rest: string)
    requires t != Lit('*')
    requires rest == "" || rest[0] != '*'
    ensures ReplaceStars(TokenText(t, "\\*") + rest) == TokenText(t, WILDCARD) + ReplaceStars(rest)
  {
    match t
    case Lit(c) =>
      if IsMeta(c) && c != '\\' {
        StarsCopyEscaped(c, rest);
      } else if c == '\\' {
        StarsCopyOne(c, [c] + rest);
        StarsCopyOne(c, rest);
        assert [c] + ([c] + rest) == [c, c] + rest;
        assert [c] + ([c] + ReplaceStars(rest)) == [c, c] + ReplaceStars(rest);
      } else {
        StarsCopyOne(c, rest);
      }
    case Param(_) => StarsCopy(GROUP, rest);
    case Wild => Drop("\\*", rest);
  }

  /** No token's text starts with a bare star. */
  lemma RenderStart(ts: seq<Token>)
    requires Lit('*') !in ts
    ensures var r := Render(ts, "\\*"); r == "" || r[0] != '*'
  {}

  // ---------- The expression a regex text denotes ----------

  /** The atoms of the expressions that pathToRegex produces. */
  datatype Atom = Char(c: char) | NotSlash | AnyText

  function Atoms(ts: seq<Token>): (r: seq<Atom>)
    ensures |r| == |ts|
  {
    if ts == [] then [] else [AtomOf(ts[0])] + Atoms(ts[1..])
  }

  function AtomOf(t: Token): Atom {
    match t
    case Lit(c) => Char(c)
    case Param(_) => NotSlash
    case Wild => AnyText
  }

  predicate StartsWith(s: string, t: string) { |t| <= |s| && s[..|t|] == t }

  lemma DoesNotStart(s: string, t: string, i: nat)
    requires i < |s| && i < |t| && s[i] != t[i]
    ensures !StartsWith(s, t)
  {
    assert |t| <= |s| ==> s[..|t|][i] == s[i];
  }

  /** The characters that mean something in an ECMAScript pattern. */
  predicate IsSyntax(c: char) {
    c in {'^', '$', '\\', '.', '*', '+', '?', '(', ')', '[', ']', '{', '}', '|'}
  }

  /** Reads the body of a regex text: the groups `([^/]+)` and `(.*)`, escaped
      characters, and plain characters. Any other use of a meta character is
      outside this sublanguage. */
  function ParseBody(s: string): Option<seq<Atom>>
    decreases |s|
  {
    if s == "" then Some([])
    else if StartsWith(s, GROUP) then Prepend(NotSlash, ParseBody(s[|GROUP|..]))
    else if StartsWith(s, WILDCARD) then Prepend(AnyText, ParseBody(s[|WILDCARD|..]))
    else if s[0] == '\\' && |s| >= 2 then
      if IsSyntax(s[1]) then Prepend(Char(s[1]), ParseBody(s[2..])) else None
    else if IsSyntax(s[0]) then None
    else Prepend(Char(s[0]), ParseBody(s[1..]))
  }

  function Prepend(a: Atom, r: Option<seq<Atom>>): Option<seq<Atom>> {
    match r
    case None => None
    case Some(tail) => Some([a] + tail)
  }

  /** The expression compiled from a text anchored at both ends. */
  function ParseRegex(s: string): Option<seq<Atom>> {
    if |s| >= 2 && s[0] == '^' && s[|s| - 1] == '$' then ParseBody(s[1..|s| - 1]) else None
  }

  lemma {:induction false} ParseRendered(ts: seq<Token>)
    ensures ParseBody(Render(ts, WILDCARD)) == Some(Atoms(ts))
  {
    if ts != [] {
      ParseRendered(ts[1..]);
      ParseToken(ts[0], Render(ts[1..], WILDCARD));
    }
  }

  lemma ParseToken(t: Token, rest: string)
    ensures ParseBody(TokenText(t, WILDCARD) + rest) == Prepend(AtomOf(t), ParseBody(rest))
  {
    match t
    case Lit(c) =>
      var s := EscapeChar(c) + rest;
      DoesNotStart(s, GROUP, 0);
      DoesNotStart(s, WILDCARD, 0);
      Drop(EscapeChar(c), rest);
    case Param(_) =>
      Drop(GROUP, rest);
    case Wild =>
      var s := WILDCARD + rest;
      Drop(WILDCARD, rest);
      DoesNotStart(s, GROUP, 1);
  }

  /** The text that pathToRegex builds always compiles, and denotes the pattern's
      tokens one by one. */
  lemma CompiledPattern(path: string)
    ensures ParseRegex("^" + Render(Tokens(path), WILDCARD) + "$") == Some(Atoms(Tokens(path)))
  {
    var body := Render(Tokens(path), WILDCARD);
    assert ("^" + body + "$")[1..|body| + 1] == body;
    ParseRendered(Tokens(path));
  }
}

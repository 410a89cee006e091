/** The matching plan computed when a route is constructed, and why its two fast
    forms mean the same as the route's regular expression. */
module RoutePlan {
  import opened Text
  import opened Pattern
  import opened RegexMatch

  /** The whole segment is `:identifier`. */
  predicate PureParam(seg: string) {
    |seg| >= 2 && seg[0] == ':' && IsIdentStart(seg[1]) && forall k :: 2 <= k < |seg| ==> IsIdentChar(seg[k])
  }

  predicate HasColon(seg: string) { ':' in seg }
  predicate HasMeta(seg: string) { exists k :: 0 <= k < |seg| && IsMeta(seg[k]) }

  datatype Route = Route(
    method_: string, path: string, regex: seq<Atom>, paramNames: seq<string>, handler: nat,
    patternSegs: seq<string>, isStatic: bool, needsRegex: bool)

  /** Compared as a whole string. */
  predicate StaticPattern(segs: seq<string>) {
    forall seg :: seg in segs ==> !HasColon(seg) && !HasMeta(seg)
  }

  /** Compared segment by segment: every segment is plain or a pure placeholder. */
  predicate SegmentPattern(segs: seq<string>) {
    && (forall seg :: seg in segs ==> !HasMeta(seg) && (PureParam(seg) || !HasColon(seg)))
    && (exists seg :: seg in segs && PureParam(seg))
  }

  /** A constructed route: its regex denotes the pattern's tokens, and the flags
      classify the pattern. */
  ghost predicate Constructed(r: Route, method_: string, path: string, handler: nat) {
    && r.method_ == method_ && r.path == path && r.handler == handler
    && r.regex == Atoms(Tokens(path)) && r.paramNames == ParamNames(Tokens(path))
    && r.patternSegs == Split(path, '/')
    && r.isStatic == StaticPattern(r.patternSegs)
    && r.needsRegex == !(StaticPattern(r.patternSegs) || SegmentPattern(r.patternSegs))
  }

  ghost predicate WellFormed(r: Route) { Constructed(r, r.method_, r.path, r.handler) }

  /** splitPath: the loop over the positions of '/'. */
  method SplitPath(path: string) returns (segs: seq<string>)
    ensures segs == Split(path, '/')
  {
    hide Split, IndexOf;
    segs := [];
    var start: nat := 0;
    assert path[0..] == path;
    while true
      invariant start <= |path|
      invariant Split(path, '/') == segs + Split(path[start..], '/')
      decreases |path| - start
    {
      var pos := IndexOf(path, '/', start);
      SplitFrom(path, start);
      if pos == |path| {
        segs := segs + [path[start..]];
        break;
      }
      segs := segs + [path[start..pos]];
      start := pos + 1;
    }
  }

  lemma SplitFrom(s: string, start: nat)
    requires start <= |s|
    ensures var pos := IndexOf(s, '/', start);
            Split(s[start..], '/') == if pos == |s| then [s[start..]] else [s[start..pos]] + Split(s[pos + 1..], '/')
  {
    var pos, t := IndexOf(s, '/', start), s[start..];
    assert t[0..pos - start] == s[start..pos];
    IndexOfIs(t, '/', 0, pos - start);
    if pos < |s| {
      assert t[..pos - start] == s[start..pos] && t[pos - start + 1..] == s[pos + 1..];
    }
  }

  /** isPureParamSeg. */
  method IsPureParamSeg(seg: string) returns (b: bool)
    ensures b == PureParam(seg)
  {
    if |seg| < 2 || seg[0] != ':' { return false; }
    if !(IsAlpha(seg[1]) || seg[1] == '_') { return false; }
    for k := 2 to |seg|
      invariant forall j :: 2 <= j < k ==> IsIdentChar(seg[j])
    {
      if !(IsAlpha(seg[k]) || IsDigit(seg[k]) || seg[k] == '_') { return false; }
    }
    return true;
  }

  /** The constructor: compile the pattern, then classify its segments. */
  method MakeRoute(method_: string, path: string, handler: nat) returns (r: Route)
    ensures Constructed(r, method_, path, handler)
  {
    hide *;
    var regex, names := Compile(path);
    var segs := SplitPath(path);
    var isStatic, needsRegex := Classify(segs);
    r := Route(method_, path, regex, names, handler, segs, isStatic, needsRegex);
    ConstructedIs(r);
  }

  lemma ConstructedIs(r: Route)
    requires r.regex == Atoms(Tokens(r.path)) && r.paramNames == ParamNames(Tokens(r.path))
    requires r.patternSegs == Split(r.path, '/')
    requires r.isStatic == StaticPattern(r.patternSegs)
    requires r.needsRegex == !(StaticPattern(r.patternSegs) || SegmentPattern(r.patternSegs))
    ensures Constructed(r, r.method_, r.path, r.handler)
  {}

  /** Building the std::regex object: it never throws on pathToRegex's text. */
  method Compile(path: string) returns (regex: seq<Atom>, names: seq<string>)
    ensures regex == Atoms(Tokens(path)) && names == ParamNames(Tokens(path))
  {
    hide *;
    var text;
    text, names := PathToRegex(path);
    CompiledPattern(path);
    regex := ParseRegex(text).value;
  }

  method Classify(segs: seq<string>) returns (isStatic: bool, needsRegex: bool)
    ensures isStatic == StaticPattern(segs)
    ensures needsRegex == !(StaticPattern(segs) || SegmentPattern(segs))
  {
    hide HasColon, HasMeta, PureParam;
    var anyColon, anyMeta := false, false;
    for i := 0 to |segs|
      invariant anyColon <==> exists j :: 0 <= j < i && HasColon(segs[j])
      invariant anyMeta <==> exists j :: 0 <= j < i && HasMeta(segs[j])
    {
      if HasColon(segs[i]) { anyColon := true; }
      if HasMeta(segs[i]) { anyMeta := true; }
    }
    if !anyColon && !anyMeta {
      return true, false;
    } else if anyMeta {
      return false, true;
    } else {
      var fastPathOk, anyParam := ClassifyColons(segs);
      return false, !(fastPathOk && anyParam);
    }
  }

  /** The loop over the segments of a pattern that has a colon and no meta character. */
  method ClassifyColons(segs: seq<string>) returns (fastPathOk: bool, anyParam: bool)
    ensures fastPathOk <==> forall seg :: seg in segs ==> PureParam(seg) || !HasColon(seg)
    ensures fastPathOk ==> (anyParam <==> exists seg :: seg in segs && PureParam(seg))
  {
    fastPathOk, anyParam := true, false;
    for i := 0 to |segs|
      invariant fastPathOk
      invariant forall j :: 0 <= j < i ==> PureParam(segs[j]) || !HasColon(segs[j])
      invariant anyParam <==> exists j :: 0 <= j < i && PureParam(segs[j])
    {
      var pure := IsPureParamSeg(segs[i]);
      if pure {
        anyParam := true;
      } else if HasColon(segs[i]) {
        fastPathOk := false;
        return;
      }
    }
  }

  // ---------- The fast forms ----------

  /** Segment-by-segment matching: the captured segments, in order. */
  function SegmentsMatch(pattern: seq<string>, segs: seq<string>): Option<seq<string>> {
    if pattern == [] || segs == [] then if |pattern| == |segs| then Some([]) else None
    else if PureParam(pattern[0]) then
      if segs[0] == "" then None
      else After([segs[0]], SegmentsMatch(pattern[1..], segs[1..]))
    else if pattern[0] == segs[0] then SegmentsMatch(pattern[1..], segs[1..])
    else None
  }

  predicate Within(indices: seq<nat>, n: nat) {
    forall k :: 0 <= k < |indices| ==> indices[k] < n
  }

  function Pick(segs: seq<string>, indices: seq<nat>): seq<string>
    requires Within(indices, |segs|)
  {
    seq(|indices|, k requires 0 <= k < |indices| => segs[indices[k]])
  }

  function After(head: seq<string>, rest: Option<seq<string>>): Option<seq<string>> {
    match rest
    case None => None
    case Some(caps) => Some(head + caps)
  }

  /** matchSegments: compares, and collects the indices of the dynamic segments. */
  method MatchSegments(patternSegs: seq<string>, pathSegs: seq<string>) returns (ok: bool, dynamic: seq<nat>)
    ensures ok == SegmentsMatch(patternSegs, pathSegs).Some?
    ensures ok ==> Within(dynamic, |pathSegs|)
    ensures ok ==> Pick(pathSegs, dynamic) == SegmentsMatch(patternSegs, pathSegs).value
  {
    dynamic := [];
    SegmentsMatchLength(patternSegs, pathSegs);
    if |patternSegs| != |pathSegs| { return false, []; }
    MatchStarts(patternSegs, pathSegs);
    for i := 0 to |patternSegs|
      invariant Within(dynamic, i)
      invariant SegmentsMatch(patternSegs, pathSegs)
             == After(Pick(pathSegs, dynamic), SegmentsMatch(patternSegs[i..], pathSegs[i..]))
    {
      var p := patternSegs[i];
      assert patternSegs[i..][1..] == patternSegs[i + 1..] && pathSegs[i..][1..] == pathSegs[i + 1..];
      var pure := IsPureParamSeg(p);
      if pure {
        if pathSegs[i] == "" { return false, dynamic; }
        PickSnoc(pathSegs, dynamic, i, SegmentsMatch(patternSegs[i + 1..], pathSegs[i + 1..]));
        dynamic := dynamic + [i];
      } else if p != pathSegs[i] {
        return false, dynamic;
      }
    }
    return true, dynamic;
  }

  lemma {:induction false} SegmentsMatchLength(pattern: seq<string>, segs: seq<string>)
    ensures SegmentsMatch(pattern, segs).Some? ==> |pattern| == |segs|
  {
    if pattern != [] && segs != [] { SegmentsMatchLength(pattern[1..], segs[1..]); }
  }

  lemma MatchStarts(pattern: seq<string>, segs: seq<string>)
    ensures SegmentsMatch(pattern, segs) == After(Pick(segs, []), SegmentsMatch(pattern[0..], segs[0..]))
  {
    assert pattern[0..] == pattern && segs[0..] == segs;
    var r := SegmentsMatch(pattern, segs);
    if r.Some? { assert Pick(segs, []) + r.value == r.value; }
  }

  lemma PickSnoc(segs: seq<string>, indices: seq<nat>, i: nat, rest: Option<seq<string>>)
    requires i < |segs| && Within(indices, |segs|)
    ensures After(Pick(segs, indices), After([segs[i]], rest)) == After(Pick(segs, indices + [i]), rest)
  {
    assert Pick(segs, indices + [i]) == Pick(segs, indices) + [segs[i]];
    if rest.Some? {
      assert Pick(segs, indices) + ([segs[i]] + rest.value) == (Pick(segs, indices) + [segs[i]]) + rest.value;
    }
  }

  // ---------- Equivalence with the regular expression ----------

  predicate Plain(seg: string) {
    forall k :: 0 <= k < |seg| ==> seg[k] != ':' && !IsMeta(seg[k])
  }

  /** Without placeholders and wildcards. */
  predicate Literal(p: string) { ':' !in p && '*' !in p }

  /** Such text in a pattern matches only itself. */
  lemma {:induction false} LiteralText(p: string, rest: string, s: string, caps: seq<string>)
    requires Literal(p)
    ensures Matches(Atoms(Tokens(p + rest)), s, caps)
        <==> StartsWith(s, p) && Matches(Atoms(Tokens(rest)), s[|p|..], caps)
  {
    if p == "" {
      assert p + rest == rest && s[0..] == s;
    } else {
      var t := p + rest;
      assert t[1..] == p[1..] + rest && t[0] == p[0];
      assert Tokens(t) == [Lit(p[0])] + Tokens(t[1..]);
      if s != "" && s[0] == p[0] {
        LiteralText(p[1..], rest, s[1..], caps);
        assert StartsWith(s, p) <==> StartsWith(s[1..], p[1..]) by {
          assert p == [p[0]] + p[1..] && s == [s[0]] + s[1..];
        }
        if StartsWith(s, p) { assert s[1..][|p| - 1..] == s[|p|..]; }
      } else if s != "" {
        DoesNotStart(s, p, 0);
      }
    }
  }

  lemma PlainText(p: string, rest: string, s: string, caps: seq<string>)
    requires Plain(p)
    ensures Matches(Atoms(Tokens(p + rest)), s, caps)
        <==> StartsWith(s, p) && Matches(Atoms(Tokens(rest)), s[|p|..], caps)
  {
    hide Matches, Atoms, Tokens, StartsWith;
    LiteralText(p, rest, s, caps);
  }

  lemma PlaceholderTokens(p: string, rest: string)
    requires PureParam(p) && (rest == "" || !IsIdentChar(rest[0]))
    ensures Tokens(p + rest) == [Param(p[1..])] + Tokens(rest)
  {
    var t := p + rest;
    assert ParamAt(t, 0);
    forall k: nat | 1 <= k < |p| ensures IsIdentChar(t[k]) {
      assert t[k] == p[k] && (k == 1 ==> IsIdentStart(p[1])) && (k >= 2 ==> IsIdentChar(p[k]));
    }
    assert |p| < |t| ==> t[|p|] == rest[0];
    IdentEndIs(t, 1, |p|);
    assert t[1..|p|] == p[1..] && t[|p|..] == rest;
  }

  lemma HeadSegment(s: string)
    ensures '/' !in s[..IndexOf(s, '/', 0)]
  {
    assert s[0..IndexOf(s, '/', 0)] == s[..IndexOf(s, '/', 0)];
  }

  /** A slash-free prefix that is followed by a slash, or by nothing, is the head segment. */
  lemma HeadSegmentIs(s: string, w: string)
    requires StartsWith(s, w) && '/' !in w && (|w| < |s| ==> s[|w|] == '/')
    ensures IndexOf(s, '/', 0) == |w|
  {
    assert s[0..|w|] == w;
    IndexOfIs(s, '/', 0, |w|);
  }

  /** The last segment of a pattern. */
  lemma LastSegment(p: string, s: string, caps: seq<string>)
    requires '/' !in p && (PureParam(p) || Plain(p))
    ensures Matches(Atoms(Tokens(p)), s, caps) <==> SegmentsMatch([p], Split(s, '/')) == Some(caps)
  {
    HeadSegment(s);
    assert p + "" == p;
    if PureParam(p) {
      PlaceholderTokens(p, "");
      LastPlaceholder(s, caps);
      assert Atoms(Tokens(p)) == [NotSlash];
      OneSegment(p, s, caps);
    } else {
      PlainText(p, "", s, caps);
      assert StartsWith(s, p) && s[|p|..] == "" <==> s == p;
      if s == p { HeadSegmentIs(s, p); }
    }
  }

  lemma OneSegment(p: string, s: string, caps: seq<string>)
    requires PureParam(p)
    ensures SegmentsMatch([p], Split(s, '/')) == Some(caps) <==> s != "" && '/' !in s && caps == [s]
  {
    SegmentsMatchLength([p], Split(s, '/'));
    HeadSegment(s);
    var i := IndexOf(s, '/', 0);
    if i == |s| {
      assert Split(s, '/') == [s] && s[..i] == s;
      MatchOne(p, s);
    } else {
      assert s[i] in s && |Split(s, '/')| > 1;
    }
  }

  lemma MatchOne(p: string, seg: string)
    requires PureParam(p)
    ensures SegmentsMatch([p], [seg]) == if seg == "" then None else Some([seg])
  {
    assert [p][1..] == [] && [seg][1..] == [] && SegmentsMatch([], []) == Some([]);
    assert [seg] + [] == [seg];
  }

  lemma LastPlaceholder(s: string, caps: seq<string>)
    ensures Matches([NotSlash], s, caps) <==> s != "" && '/' !in s && caps == [s]
  {
    var e := [NotSlash];
    assert e[1..] == [];
    if caps != [] && StartsWith(s, caps[0]) && s[|caps[0]|..] == "" { assert caps[0] == s; }
    if caps == [s] { assert s[|s|..] == "" && s[..|s|] == s; }
  }

  /** A segment that is followed by another one: what the head of s must be. */
  ghost predicate HeadMatches(p: string, e: seq<Atom>, s: string, caps: seq<string>) {
    var i := IndexOf(s, '/', 0);
    && i < |s|
    && (if PureParam(p) then i > 0 && caps != [] && caps[0] == s[..i] && Matches(e, s[i + 1..], caps[1..])
        else p == s[..i] && Matches(e, s[i + 1..], caps))
  }

  lemma InnerSegment(p: string, rest: string, s: string, caps: seq<string>)
    requires '/' !in p && (PureParam(p) || Plain(p))
    ensures Matches(Atoms(Tokens(p + ("/" + rest))), s, caps) <==> HeadMatches(p, Atoms(Tokens(rest)), s, caps)
  {
    hide Matches, IndexOf;
    var tail, e := "/" + rest, Atoms(Tokens(rest));
    assert tail[1..] == rest;
    assert Atoms(Tokens(tail)) == [Char('/')] + e;
    if PureParam(p) {
      PlaceholderTokens(p, tail);
      assert Atoms(Tokens(p + tail)) == [NotSlash] + ([Char('/')] + e);
      InnerPlaceholder(p, e, s, caps);
    } else {
      PlainText(p, tail, s, caps);
      InnerPlain(p, e, s, caps);
    }
  }

  lemma SlashNext(e: seq<Atom>, s: string, caps: seq<string>)
    ensures Matches([Char('/')] + e, s, caps) <==> s != "" && s[0] == '/' && Matches(e, s[1..], caps)
  {
    assert ([Char('/')] + e)[1..] == e;
  }

  lemma InnerPlain(p: string, e: seq<Atom>, s: string, caps: seq<string>)
    requires '/' !in p && !PureParam(p)
    ensures StartsWith(s, p) && Matches([Char('/')] + e, s[|p|..], caps) <==> HeadMatches(p, e, s, caps)
  {
    hide Matches;
    var i := IndexOf(s, '/', 0);
    if StartsWith(s, p) {
      SlashNext(e, s[|p|..], caps);
      if |p| < |s| && s[|p|] == '/' {
        HeadSegmentIs(s, p);
        assert s[|p|..][1..] == s[i + 1..];
      }
    }
  }

  lemma InnerPlaceholder(p: string, e: seq<Atom>, s: string, caps: seq<string>)
    requires PureParam(p)
    ensures Matches([NotSlash] + ([Char('/')] + e), s, caps) <==> HeadMatches(p, e, s, caps)
  {
    HeadSegment(s);
    var i, tail := IndexOf(s, '/', 0), [Char('/')] + e;
    assert ([NotSlash] + tail)[1..] == tail;
    if caps != [] {
      var w := caps[0];
      if StartsWith(s, w) {
        SlashNext(e, s[|w|..], caps[1..]);
        if |w| < |s| && s[|w|] == '/' && '/' !in w {
          HeadSegmentIs(s, w);
          assert s[|w|..][1..] == s[i + 1..];
        }
      }
    }
  }

  lemma SplitHead(s: string)
    ensures var i := IndexOf(s, '/', 0);
            if i == |s| then |Split(s, '/')| == 1
            else Split(s, '/')[0] == s[..i] && Split(s, '/')[1..] == Split(s[i + 1..], '/')
  {
    hide IndexOf;
    var i := IndexOf(s, '/', 0);
    if i < |s| { assert Split(s, '/') == [s[..i]] + Split(s[i + 1..], '/'); }
  }

  predicate SimplePattern(segs: seq<string>) {
    forall k :: 0 <= k < |segs| ==> '/' !in segs[k] && (PureParam(segs[k]) || Plain(segs[k]))
  }

  /** On simple patterns, matching segment by segment is matching the regular
      expression: same strings, and the captures are determined. */
  lemma {:induction false} SegmentsMatchRegex(segs: seq<string>, s: string, caps: seq<string>)
    requires segs != [] && SimplePattern(segs)
    ensures Matches(Atoms(Tokens(Join(segs, '/'))), s, caps) <==> SegmentsMatch(segs, Split(s, '/')) == Some(caps)
  {
    hide Matches, Atoms, Tokens, Split, PureParam, Plain;
    var p := segs[0];
    if |segs| == 1 {
      assert segs == [p];
      LastSegment(p, s, caps);
    } else {
      var rest := Join(segs[1..], '/');
      assert p + ['/'] + rest == p + ("/" + rest);
      InnerSegment(p, rest, s, caps);
      HeadSegment(s);
      var i := IndexOf(s, '/', 0);
      SegmentsMatchLength(segs, Split(s, '/'));
      SplitHead(s);
      if i < |s| {
        if PureParam(p) {
          if caps != [] {
            SegmentsMatchRegex(segs[1..], s[i + 1..], caps[1..]);
            assert caps == [caps[0]] + caps[1..];
          }
        } else {
          SegmentsMatchRegex(segs[1..], s[i + 1..], caps);
        }
      }
    }
  }

  // ---------- The theorems about constructed routes ----------

  lemma PlainSegment(seg: string)
    requires !HasColon(seg) && !HasMeta(seg)
    ensures Plain(seg)
  {}

  lemma FastPatternIsSimple(r: Route)
    requires WellFormed(r) && !r.needsRegex
    ensures SimplePattern(r.patternSegs) && Join(r.patternSegs, '/') == r.path
  {
    var segs := r.patternSegs;
    SplitPieces(r.path, '/');
    JoinSplit(r.path, '/');
    forall k | 0 <= k < |segs| ensures PureParam(segs[k]) || Plain(segs[k]) {
      assert segs[k] in segs;
      if !PureParam(segs[k]) { PlainSegment(segs[k]); }
    }
  }

  /** A static route's regex accepts exactly its own path. */
  lemma StaticRouteMeaning(r: Route, s: string, caps: seq<string>)
    requires WellFormed(r) && r.isStatic
    ensures Matches(r.regex, s, caps) <==> s == r.path && caps == []
  {
    FastPatternIsSimple(r);
    StaticJoin(r.patternSegs);
    assert r.path + "" == r.path;
    PlainText(r.path, "", s, caps);
    if StartsWith(s, r.path) && s[|r.path|..] == "" { assert s == r.path; }
    if s == r.path { assert s[|s|..] == "" && s[..|s|] == s; }
  }

  lemma {:induction false} StaticJoin(segs: seq<string>)
    requires segs != [] && StaticPattern(segs)
    ensures Plain(Join(segs, '/'))
  {
    PlainSegment(segs[0]);
    if |segs| > 1 { StaticJoin(segs[1..]); }
  }

  /** A segment route's regex accepts exactly the paths that the segment comparison
      accepts, and has no other captures than the segments that it picks. */
  lemma SegmentRouteMeaning(r: Route, s: string, caps: seq<string>)
    requires WellFormed(r) && !r.needsRegex
    ensures Matches(r.regex, s, caps) <==> SegmentsMatch(r.patternSegs, Split(s, '/')) == Some(caps)
  {
    FastPatternIsSimple(r);
    SegmentsMatchRegex(r.patternSegs, s, caps);
  }

  /** So the fast forms return what regex_match returns, captures included. */
  lemma FastFormsAreRegexMatch(r: Route, s: string)
    requires WellFormed(r) && !r.needsRegex
    ensures SegmentsMatch(r.patternSegs, Split(s, '/')) == Match(r.regex, s)
    ensures r.isStatic ==> Match(r.regex, s) == if s == r.path then Some([]) else None
  {
    hide *;
    var fast, slow := SegmentsMatch(r.patternSegs, Split(s, '/')), Match(r.regex, s);
    MatchIsGreedyChoice(r.regex, s);
    if slow.Some? { SegmentRouteMeaning(r, s, slow.value); }
    if fast.Some? { SegmentRouteMeaning(r, s, fast.value); }
    if r.isStatic {
      if slow.Some? { StaticRouteMeaning(r, s, slow.value); }
      if s == r.path { StaticRouteMeaning(r, s, []); }
    }
  }

  function PureSegs(segs: seq<string>): seq<string> {
    if segs == [] then []
    else (if PureParam(segs[0]) then [segs[0][1..]] else []) + PureSegs(segs[1..])
  }

  /** The constructor's consistency check never fails: on a fast pattern the names
      collected by pathToRegex are those of the pure placeholder segments. */
  lemma {:induction false} NamesOfFastPattern(segs: seq<string>)
    requires segs != [] && SimplePattern(segs)
    ensures ParamNames(Tokens(Join(segs, '/'))) == PureSegs(segs)
  {
    var p := segs[0];
    assert PureSegs([]) == [];
    if |segs| == 1 {
      assert p + "" == p;
      assert ParamNames(Tokens("")) == [];
      NamesAfterSegment(p, "");
    } else {
      var rest := Join(segs[1..], '/');
      NamesOfFastPattern(segs[1..]);
      assert p + ['/'] + rest == p + ("/" + rest);
      assert ("/" + rest)[1..] == rest;
      NamesAfterSegment(p, "/" + rest);
    }
  }

  lemma {:induction false} NamesAfterSegment(p: string, rest: string)
    requires PureParam(p) || Plain(p)
    requires rest == "" || rest[0] == '/'
    ensures ParamNames(Tokens(p + rest))
         == (if PureParam(p) then [p[1..]] else []) + ParamNames(Tokens(rest))
  {
    if PureParam(p) {
      PlaceholderTokens(p, rest);
    } else if p == "" {
      assert p + rest == rest;
    } else {
      var t := p + rest;
      assert t[1..] == p[1..] + rest && t[0] == p[0];
      NamesAfterSegment(p[1..], rest);
    }
  }
}

/** What the groups of a pattern read: a wildcard any text without a line terminator, slashes
    included; a placeholder any text that is not empty and has no slash. */
module RouteMeaning {
  import opened Pattern
  import opened RegexMatch
  import opened RoutePlan
  import opened RouteTable
  import opened Text

  /** No line terminator inside: `.` stands for every other character. */
  predicate NoTerminator(w: string) { '\n' !in w && '\r' !in w }

  lemma LiteralMatches(q: string, s: string, caps: seq<string>)
    requires Literal(q)
    ensures Matches(Atoms(Tokens(q)), s, caps) <==> s == q && caps == []
  {
    assert q + "" == q;
    LiteralText(q, "", s, caps);
    if StartsWith(s, q) && s[|q|..] == "" { assert s == q; }
    if s == q { assert s[|q|..] == "" && s[..|q|] == q; }
  }

  lemma WildMatches(q: string, s: string, caps: seq<string>)
    requires Literal(q)
    ensures Matches([AnyText] + Atoms(Tokens(q)), s, caps)
       <==> |caps| == 1 && s == caps[0] + q && NoTerminator(caps[0])
  {
    var e := [AnyText] + Atoms(Tokens(q));
    assert e[1..] == Atoms(Tokens(q));
    if caps != [] {
      var w := caps[0];
      if StartsWith(s, w) {
        LiteralMatches(q, s[|w|..], caps[1..]);
        assert s == w + s[|w|..];
      }
      if s == w + q { assert s[..|w|] == w && s[|w|..] == q; }
      assert Fits(AnyText, w) <==> NoTerminator(w);
      assert caps[1..] == [] <==> |caps| == 1;
    }
  }

  lemma PatternMatches(p: string, q: string, s: string, caps: seq<string>)
    requires Literal(p) && Literal(q)
    ensures Matches(Atoms(Tokens(p + ("*" + q))), s, caps)
       <==> |caps| == 1 && s == p + (caps[0] + q) && NoTerminator(caps[0])
  {
    hide Matches;
    var tail := "*" + q;
    assert tail[1..] == q;
    assert Atoms(Tokens(tail)) == [AnyText] + Atoms(Tokens(q));
    LiteralText(p, tail, s, caps);
    if StartsWith(s, p) {
      WildMatches(q, s[|p|..], caps);
      assert s == p + s[|p|..];
    }
    if |caps| == 1 && s == p + (caps[0] + q) { assert s[..|p|] == p && s[|p|..] == caps[0] + q; }
  }

  /** A wildcard between plain texts reads everything that stands between them, slashes
      included, and nothing matches when a line terminator is among it. */
  lemma {:induction false} WildcardReads(p: string, w: string, q: string)
    requires Literal(p) && Literal(q)
    ensures Match(Atoms(Tokens(p + ("*" + q))), p + (w + q)) == if NoTerminator(w) then Some([w]) else None
  {
    hide Matches, Match, Atoms, Tokens, NoTerminator;
    var e, s := Atoms(Tokens(p + ("*" + q))), p + (w + q);
    MatchIsGreedyChoice(e, s);
    PatternMatches(p, q, s, [w]);
    if Match(e, s).Some? {
      var caps := Match(e, s).value;
      PatternMatches(p, q, s, caps);
      SameMiddle(p, caps[0], w, q);
      assert caps == [w];
    }
  }

  lemma SameMiddle(p: string, v: string, w: string, q: string)
    requires p + (v + q) == p + (w + q)
    ensures v == w
  {
    var s := p + (v + q);
    assert |v| == |w| && s[|p|..|p| + |v|] == v && s[|p|..|p| + |w|] == w;
  }

  /** Nothing else matches such a pattern. */
  lemma {:induction false} WildcardNeedsItsTexts(p: string, q: string, s: string)
    requires Literal(p) && Literal(q) && Match(Atoms(Tokens(p + ("*" + q))), s).Some?
    ensures |p| + |q| <= |s| && s[..|p|] == p && s[|s| - |q|..] == q
  {
    hide Matches, Match, Atoms, Tokens;
    var e := Atoms(Tokens(p + ("*" + q)));
    MatchIsGreedyChoice(e, s);
    var caps := Match(e, s).value;
    PatternMatches(p, q, s, caps);
  }

  // ---------- Placeholders ----------

  predicate NameChar(c: char) { 'a' <= c <= 'z' || 'A' <= c <= 'Z' || '0' <= c <= '9' || c == '_' }

  /** Letters, digits and underscores, no digit first. */
  predicate Name(n: string) {
    n != "" && !('0' <= n[0] <= '9') && forall k :: 0 <= k < |n| ==> NameChar(n[k])
  }

  /** What may stand behind a placeholder, so that it ends there. */
  predicate EndsName(q: string) { q == "" || !NameChar(q[0]) }

  predicate OneSegment(v: string) { v != "" && '/' !in v }

  lemma NameTokens(n: string, q: string)
    requires Name(n) && EndsName(q)
    ensures Tokens(":" + (n + q)) == [Param(n)] + Tokens(q)
  {
    var p := ":" + n;
    assert p[1..] == n && p + q == ":" + (n + q);
    assert forall k :: 1 <= k < |p| ==> p[k] == n[k - 1];
    PlaceholderTokens(p, q);
  }

  lemma GroupMatches(q: string, s: string, caps: seq<string>)
    requires Literal(q)
    ensures Matches([NotSlash] + Atoms(Tokens(q)), s, caps)
       <==> |caps| == 1 && s == caps[0] + q && OneSegment(caps[0])
  {
    var e := [NotSlash] + Atoms(Tokens(q));
    assert e[1..] == Atoms(Tokens(q));
    if caps != [] {
      var w := caps[0];
      if StartsWith(s, w) {
        LiteralMatches(q, s[|w|..], caps[1..]);
        assert s == w + s[|w|..];
      }
      if s == w + q { assert s[..|w|] == w && s[|w|..] == q; }
      assert Fits(NotSlash, w) <==> OneSegment(w);
      assert caps[1..] == [] <==> |caps| == 1;
    }
  }

  lemma PlaceholderMatches(p: string, n: string, q: string, s: string, caps: seq<string>)
    requires Literal(p) && Name(n) && Literal(q) && EndsName(q)
    ensures Matches(Atoms(Tokens(p + (":" + (n + q)))), s, caps)
       <==> |caps| == 1 && s == p + (caps[0] + q) && OneSegment(caps[0])
  {
    hide Matches, OneSegment;
    var tail := ":" + (n + q);
    NameTokens(n, q);
    assert Atoms(Tokens(tail)) == [NotSlash] + Atoms(Tokens(q));
    LiteralText(p, tail, s, caps);
    if StartsWith(s, p) {
      GroupMatches(q, s[|p|..], caps);
      assert s == p + s[|p|..];
    }
    if |caps| == 1 && s == p + (caps[0] + q) { assert s[..|p|] == p && s[|p|..] == caps[0] + q; }
  }

  /** A placeholder between plain texts reads what stands between them, exactly when that is
      not empty and has no slash. */
  lemma {:induction false} PlaceholderReads(p: string, n: string, q: string, v: string)
    requires Literal(p) && Name(n) && Literal(q) && EndsName(q)
    ensures Match(Atoms(Tokens(p + (":" + (n + q)))), p + (v + q)) == if OneSegment(v) then Some([v]) else None
  {
    hide Matches, Match, Atoms, Tokens, OneSegment, Name, EndsName;
    var e, s := Atoms(Tokens(p + (":" + (n + q)))), p + (v + q);
    MatchIsGreedyChoice(e, s);
    PlaceholderMatches(p, n, q, s, [v]);
    if Match(e, s).Some? {
      var caps := Match(e, s).value;
      PlaceholderMatches(p, n, q, s, caps);
      SameMiddle(p, caps[0], v, q);
      assert caps == [v];
    }
  }

  // ---------- Through the table ----------

  lemma {:induction false} LiteralNames(q: string)
    requires Literal(q)
    ensures ParamNames(Tokens(q)) == []
  {
    if q != "" {
      assert Tokens(q) == [Lit(q[0])] + Tokens(q[1..]);
      LiteralNames(q[1..]);
    }
  }

  lemma {:induction false} WildcardNames(p: string, q: string)
    requires Literal(p) && Literal(q)
    ensures ParamNames(Tokens(p + ("*" + q))) == []
  {
    if p == "" {
      assert p + ("*" + q) == "*" + q && ("*" + q)[1..] == q;
      assert Tokens("*" + q) == [Wild] + Tokens(q);
      LiteralNames(q);
    } else {
      var t := p + ("*" + q);
      assert t[1..] == p[1..] + ("*" + q) && t[0] == p[0];
      assert Tokens(t) == [Lit(p[0])] + Tokens(t[1..]);
      WildcardNames(p[1..], q);
    }
  }

  /** Whom the methods of a request may reach: its own routes, and GET routes for HEAD. */
  predicate Serves(method_: string, asked: string) { asked == method_ || (asked == "HEAD" && method_ == "GET") }

  lemma ScanOne(r: Route, asked: string, path: string)
    ensures Scan([r], asked, path)
         == if r.method_ == asked && Match(r.regex, path).Some? then Some(Found(0, Bind(r.paramNames, Match(r.regex, path).value))) else None
  {
    hide Match, Bind;
    assert FirstHit([r], asked, path, 1) == None;
  }

  /** A table with one wildcard route finds it exactly for the paths that have its plain texts
      at both ends and no line terminator between them, however many slashes. */
  lemma {:induction false} WildcardRouteFound(r: Route, p: string, q: string, w: string, asked: string)
    requires Literal(p) && Literal(q) && Constructed(r, r.method_, p + ("*" + q), r.handler)
    ensures Reference([r], asked, p + (w + q))
         == if NoTerminator(w) && Serves(r.method_, asked) then Some(Found(0, map[])) else None
  {
    hide Match, Atoms, Tokens, NoTerminator, Scan;
    var path := p + (w + q);
    WildcardReads(p, w, q);
    WildcardNames(p, q);
    ScanOne(r, asked, path);
    ScanOne(r, "GET", path);
  }

  lemma {:induction false} PlaceholderNames(p: string, n: string, q: string)
    requires Literal(p) && Name(n) && Literal(q) && EndsName(q)
    ensures ParamNames(Tokens(p + (":" + (n + q)))) == [n]
  {
    if p == "" {
      assert p + (":" + (n + q)) == ":" + (n + q);
      NameTokens(n, q);
      LiteralNames(q);
      assert ([Param(n)] + Tokens(q))[1..] == Tokens(q);
    } else {
      var t := p + (":" + (n + q));
      assert t[1..] == p[1..] + (":" + (n + q)) && t[0] == p[0];
      assert Tokens(t) == [Lit(p[0])] + Tokens(t[1..]);
      PlaceholderNames(p[1..], n, q);
    }
  }

  lemma BindOne(n: string, v: string)
    ensures Bind([n], [v]) == map[n := v]
  {
    assert BindUpTo([n], [v], 0) == map[];
    assert map[][n := v] == map[n := v];
  }

  /** A table with one placeholder route finds it exactly for the paths with one segment's text
      in the placeholder's place, and binds its name to that text. */
  lemma {:induction false} PlaceholderRouteFound(r: Route, p: string, n: string, q: string, v: string, asked: string)
    requires Literal(p) && Name(n) && Literal(q) && EndsName(q)
    requires Constructed(r, r.method_, p + (":" + (n + q)), r.handler)
    ensures Reference([r], asked, p + (v + q))
         == if OneSegment(v) && Serves(r.method_, asked) then Some(Found(0, map[n := v])) else None
  {
    hide Match, Atoms, Tokens, OneSegment, Scan, Bind, Name, EndsName;
    var path := p + (v + q);
    PlaceholderReads(p, n, q, v);
    PlaceholderNames(p, n, q);
    BindOne(n, v);
    ScanOne(r, asked, path);
    ScanOne(r, "GET", path);
  }

  // ---------- Several routes ----------

  /** Whatever else is registered: a path that a route matches is answered by it or by one that
      was registered before it, and by none behind it. */
  lemma {:induction false} FoundAtOrBefore(routes: seq<Route>, i: nat, path: string)
    requires i < |routes| && Match(routes[i].regex, path).Some?
    ensures var f := Reference(routes, routes[i].method_, path);
            f.Some? && f.value.route <= i && routes[f.value.route].method_ == routes[i].method_
  {
    hide Match, Bind;
    NotSkipped(routes, routes[i].method_, path, 0, i);
  }

  lemma {:induction false} NotSkipped(routes: seq<Route>, method_: string, path: string, j: nat, i: nat)
    requires j <= i < |routes| && Hits(routes[i], method_, path)
    ensures FirstHit(routes, method_, path, j).Some? && FirstHit(routes, method_, path, j).value <= i
    decreases i - j
  {
    hide Hits;
    if j < i && !Hits(routes[j], method_, path) { NotSkipped(routes, method_, path, j + 1, i); }
  }
}

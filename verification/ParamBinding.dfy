/** Which text a placeholder's name is bound to. Names are bound to captures by position
    among all groups of the pattern, wildcards included. */
module ParamBinding {
  import opened Text
  import opened Pattern
  import opened RegexMatch
  import opened RoutePlan
  import opened RouteTable

  /** The groups of a pattern, in order: its placeholders and its wildcards. */
  function Groups(ts: seq<Token>): (gs: seq<Token>)
    ensures forall i :: 0 <= i < |gs| ==> !gs[i].Lit?
  {
    if ts == [] then []
    else if ts[0].Lit? then Groups(ts[1..])
    else [ts[0]] + Groups(ts[1..])
  }

  ghost predicate WildBeforeParam(gs: seq<Token>) {
    exists i, j :: 0 <= i < j < |gs| && gs[i] == Wild && gs[j].Param?
  }

  predicate NoTwice(names: seq<string>) { forall i, j :: 0 <= i < j < |names| ==> names[i] != names[j] }

  /** Every placeholder's name is bound to the text that its own group has read. */
  predicate OwnTexts(ts: seq<Token>, caps: seq<string>) {
    var gs, params := Groups(ts), Bind(ParamNames(ts), caps);
    |caps| == |gs| && forall i :: 0 <= i < |gs| && gs[i].Param? ==> gs[i].name in params && params[gs[i].name] == caps[i]
  }

  // ---------- Names and groups ----------

  lemma {:induction false} GroupsOnly(ts: seq<Token>)
    ensures ParamNames(Groups(ts)) == ParamNames(ts)
  {
    if ts != [] {
      GroupsOnly(ts[1..]);
      if !ts[0].Lit? { assert ([ts[0]] + Groups(ts[1..]))[1..] == Groups(ts[1..]); }
    }
  }

  lemma {:induction false} NamesSplit(gs: seq<Token>, j: nat)
    requires j <= |gs|
    ensures ParamNames(gs) == ParamNames(gs[..j]) + ParamNames(gs[j..])
  {
    if j == 0 {
      assert gs[0..] == gs && gs[..0] == [];
    } else {
      NamesSplit(gs[1..], j - 1);
      assert gs[..j][1..] == gs[1..][..j - 1] && gs[j..] == gs[1..][j - 1..];
    }
  }

  /** There are as many names before a group as groups, exactly when no wildcard is among
      them. */
  lemma {:induction false} NamesBefore(gs: seq<Token>)
    requires forall i :: 0 <= i < |gs| ==> !gs[i].Lit?
    ensures |ParamNames(gs)| <= |gs|
    ensures |ParamNames(gs)| == |gs| <==> forall i :: 0 <= i < |gs| ==> gs[i].Param?
  {
    if gs != [] {
      NamesBefore(gs[1..]);
      assert forall i :: 0 <= i < |gs[1..]| ==> gs[1..][i] == gs[i + 1];
      if |ParamNames(gs)| == |gs| {
        forall i | 0 <= i < |gs| ensures gs[i].Param? { if i > 0 { assert gs[1..][i - 1] == gs[i]; } }
      }
    }
  }

  /** The position of a placeholder's name among the names. */
  lemma NameOf(gs: seq<Token>, j: nat)
    requires j < |gs| && gs[j].Param? && forall i :: 0 <= i < |gs| ==> !gs[i].Lit?
    ensures (
        var k := |ParamNames(gs[..j])|;
        && k <= j && k < |ParamNames(gs)| && ParamNames(gs)[k] == gs[j].name
        && (k == j <==> forall i :: 0 <= i < j ==> gs[i].Param?))
  {
    NamesSplit(gs, j);
    NamesBefore(gs[..j]);
    assert gs[j..][0] == gs[j];
    assert forall i :: 0 <= i < j ==> gs[..j][i] == gs[i];
  }

  /** Each name is that of a group, in order. */
  lemma {:induction false} GroupOf(gs: seq<Token>, k: nat) returns (j: nat)
    requires k < |ParamNames(gs)|
    ensures j < |gs| && gs[j] == Param(ParamNames(gs)[k]) && |ParamNames(gs[..j])| == k
  {
    if gs[0].Param? && k == 0 {
      j := 0;
    } else {
      var i := GroupOf(gs[1..], if gs[0].Param? then k - 1 else k);
      j := i + 1;
      assert gs[..j][1..] == gs[1..][..i];
    }
  }

  lemma {:induction false} BoundAt(names: seq<string>, caps: seq<string>, n: nat, k: nat)
    requires k < n <= |names| && n <= |caps| && NoTwice(names)
    ensures names[k] in BindUpTo(names, caps, n) && BindUpTo(names, caps, n)[names[k]] == caps[k]
  {
    if k < n - 1 { BoundAt(names, caps, n - 1, k); }
  }

  // ---------- The shortest path that matches ----------

  function MinLength(ts: seq<Token>): nat {
    if ts == [] then 0 else (if ts[0] == Wild then 0 else 1) + MinLength(ts[1..])
  }

  function Mark(j: int): char { if j == 0 then 'b' else 'a' }

  /** Wildcards read nothing, placeholders one character, and that of group j is another. */
  function Filled(ts: seq<Token>, j: int): string {
    if ts == [] then ""
    else
      match ts[0]
      case Lit(c) => [c] + Filled(ts[1..], j)
      case Param(_) => [Mark(j)] + Filled(ts[1..], j - 1)
      case Wild => Filled(ts[1..], j - 1)
  }

  function Marked(ts: seq<Token>, j: int): seq<string> {
    if ts == [] then []
    else
      match ts[0]
      case Lit(_) => Marked(ts[1..], j)
      case Param(_) => [[Mark(j)]] + Marked(ts[1..], j - 1)
      case Wild => [""] + Marked(ts[1..], j - 1)
  }

  lemma {:induction false} FilledLength(ts: seq<Token>, j: int)
    ensures |Filled(ts, j)| == MinLength(ts)
  {
    if ts != [] { FilledLength(ts[1..], if ts[0].Lit? then j else j - 1); }
  }

  lemma {:induction false} MarkedAt(ts: seq<Token>, j: int)
    ensures |Marked(ts, j)| == |Groups(ts)|
    ensures forall i :: 0 <= i < |Groups(ts)| ==> Marked(ts, j)[i] == if Groups(ts)[i] == Wild then "" else [Mark(j - i)]
  {
    if ts != [] { MarkedAt(ts[1..], if ts[0].Lit? then j else j - 1); }
  }

  lemma {:induction false} MatchedLength(ts: seq<Token>, s: string, caps: seq<string>)
    requires Matches(Atoms(ts), s, caps)
    ensures |s| >= MinLength(ts) && |caps| == |Groups(ts)|
  {
    if ts != [] {
      assert Atoms(ts)[1..] == Atoms(ts[1..]);
      if ts[0].Lit? { MatchedLength(ts[1..], s[1..], caps); } else { MatchedLength(ts[1..], s[|caps[0]|..], caps[1..]); }
    }
  }

  lemma {:induction false} FilledMatches(ts: seq<Token>, j: int)
    ensures Matches(Atoms(ts), Filled(ts, j), Marked(ts, j))
  {
    if ts != [] {
      var s, caps, rest := Filled(ts, j), Marked(ts, j), Filled(ts[1..], if ts[0].Lit? then j else j - 1);
      assert Atoms(ts)[1..] == Atoms(ts[1..]);
      FilledMatches(ts[1..], if ts[0].Lit? then j else j - 1);
      match ts[0]
      case Lit(c) => assert s[1..] == rest;
      case Param(_) =>
        assert s[1..] == rest && s[..1] == caps[0] && caps[1..] == Marked(ts[1..], j - 1);
      case Wild => assert s[0..] == rest && s[..0] == "" && caps[1..] == Marked(ts[1..], j - 1);
    }
  }

  /** It can only be read in one way. */
  lemma {:induction false} FilledOnly(ts: seq<Token>, j: int, caps: seq<string>)
    requires Matches(Atoms(ts), Filled(ts, j), caps)
    ensures caps == Marked(ts, j)
  {
    if ts != [] {
      var s := Filled(ts, j);
      FilledLength(ts, j);
      assert Atoms(ts)[1..] == Atoms(ts[1..]);
      match ts[0]
      case Lit(c) =>
        assert s[1..] == Filled(ts[1..], j);
        FilledOnly(ts[1..], j, caps);
      case Param(_) =>
        MatchedLength(ts[1..], s[|caps[0]|..], caps[1..]);
        assert |caps[0]| == 1 && s[1..] == Filled(ts[1..], j - 1) && caps[0] == [s[0]];
        FilledOnly(ts[1..], j - 1, caps[1..]);
      case Wild =>
        MatchedLength(ts[1..], s[|caps[0]|..], caps[1..]);
        assert |caps[0]| == 0 && s[0..] == Filled(ts[1..], j - 1);
        FilledOnly(ts[1..], j - 1, caps[1..]);
    }
  }

  lemma MatchFilled(ts: seq<Token>, j: int)
    ensures Match(Atoms(ts), Filled(ts, j)) == Some(Marked(ts, j))
  {
    FilledMatches(ts, j);
    MatchIsGreedyChoice(Atoms(ts), Filled(ts, j));
    FilledOnly(ts, j, Match(Atoms(ts), Filled(ts, j)).value);
  }

  // ---------- Exactly when every name gets its own text ----------

  lemma OwnWhenOrdered(ts: seq<Token>, s: string, caps: seq<string>)
    requires Matches(Atoms(ts), s, caps) && !WildBeforeParam(Groups(ts)) && NoTwice(ParamNames(ts))
    ensures OwnTexts(ts, caps)
  {
    var gs, names := Groups(ts), ParamNames(ts);
    GroupsOnly(ts);
    NamesBefore(gs);
    MatchedLength(ts, s, caps);
    forall i | 0 <= i < |gs| && gs[i].Param?
      ensures gs[i].name in Bind(names, caps) && Bind(names, caps)[gs[i].name] == caps[i]
    {
      NameOf(gs, i);
      BoundAt(names, caps, |names|, i);
    }
  }

  /** A name that occurs twice keeps the text of one of its groups only. */
  lemma RepeatedName(ts: seq<Token>, p: nat, q: nat) returns (path: string)
    requires p < q < |ParamNames(ts)| && ParamNames(ts)[p] == ParamNames(ts)[q]
    ensures Match(Atoms(ts), path).Some? && !OwnTexts(ts, Match(Atoms(ts), path).value)
  {
    var gs := Groups(ts);
    GroupsOnly(ts);
    var i := GroupOf(gs, p);
    var j := GroupOf(gs, q);
    path := Filled(ts, j);
    MatchFilled(ts, j);
    MarkedAt(ts, j);
    assert i != j && Marked(ts, j)[i] != Marked(ts, j)[j] by {
      assert Marked(ts, j)[i] == "a" && Marked(ts, j)[j] == "b";
      assert "a"[0] != "b"[0];
    }
  }

  /** A name behind a wildcard gets the text of an earlier group. */
  lemma NameBehindWild(ts: seq<Token>, i: nat, j: nat) returns (path: string)
    requires i < j < |Groups(ts)| && Groups(ts)[i] == Wild && Groups(ts)[j].Param? && NoTwice(ParamNames(ts))
    ensures Match(Atoms(ts), path).Some? && !OwnTexts(ts, Match(Atoms(ts), path).value)
  {
    var gs, names := Groups(ts), ParamNames(ts);
    GroupsOnly(ts);
    NameOf(gs, j);
    NamesBefore(gs);
    var k := |ParamNames(gs[..j])|;
    path := Filled(ts, j);
    var caps := Marked(ts, j);
    MatchFilled(ts, j);
    MarkedAt(ts, j);
    BoundAt(names, caps, |names|, k);
    assert caps[j] == "b" && (caps[k] == "" || caps[k] == "a");
    assert "a"[0] != "b"[0];
  }

  /** Whatever path matches, every placeholder's name is bound to the text of its own group,
      exactly when no wildcard stands before a placeholder and no name occurs twice. */
  lemma {:induction false} NamesBoundToOwnTexts(ts: seq<Token>)
    ensures (forall path :: Match(Atoms(ts), path).Some? ==> OwnTexts(ts, Match(Atoms(ts), path).value))
       <==> !WildBeforeParam(Groups(ts)) && NoTwice(ParamNames(ts))
  {
    hide OwnTexts;
    if WildBeforeParam(Groups(ts)) || !NoTwice(ParamNames(ts)) {
      var path;
      if !NoTwice(ParamNames(ts)) {
        var p, q :| 0 <= p < q < |ParamNames(ts)| && ParamNames(ts)[p] == ParamNames(ts)[q];
        path := RepeatedName(ts, p, q);
      } else {
        var i, j :| 0 <= i < j < |Groups(ts)| && Groups(ts)[i] == Wild && Groups(ts)[j].Param?;
        path := NameBehindWild(ts, i, j);
      }
    } else {
      forall path | Match(Atoms(ts), path).Some? ensures OwnTexts(ts, Match(Atoms(ts), path).value) {
        MatchIsGreedyChoice(Atoms(ts), path);
        OwnWhenOrdered(ts, path, Match(Atoms(ts), path).value);
      }
    }
  }

  // ---------- Two patterns to beware of ----------

  lemma SlashToken(rest: string)
    ensures Tokens("/" + rest) == [Lit('/')] + Tokens(rest)
  {
    assert ("/" + rest)[1..] == rest;
  }

  lemma RepeatedTokens()
    ensures Tokens("/:a/:a") == [Lit('/'), Param("a"), Lit('/'), Param("a")]
  {
    hide Tokens, PureParam;
    assert PureParam(":a") by { IsPure(':', 'a'); }
    SlashToken(":a/:a");
    SlashToken(":a");
    assert "/" + ":a/:a" == "/:a/:a" && "/" + ":a" == "/:a" && ":a" + "/:a" == ":a/:a" && ":a" + "" == ":a" && ":a"[1..] == "a";
    PlaceholderTokens(":a", "/:a");
    PlaceholderTokens(":a", "");
    NoTokens();
  }

  lemma IsPure(colon: char, c: char)
    requires colon == ':' && IsIdentStart(c)
    ensures PureParam([colon, c])
  {}

  lemma NoTokens()
    ensures Tokens("") == []
  {}

  /** The pattern "/:a/:a": the second text takes the name, the first is lost. */
  lemma RepeatedNameLosesText(r: Route, method_: string, handler: nat)
    requires Constructed(r, method_, "/:a/:a", handler)
    ensures Match(r.regex, "/a/b") == Some(["a", "b"]) && Bind(r.paramNames, ["a", "b"]) == map["a" := "b"]
  {
    hide Tokens, Match, Filled, Marked, ParamNames, Atoms, StaticPattern, SegmentPattern;
    RepeatedTokens();
    TwoParams();
    MatchFilled([Lit('/'), Param("a"), Lit('/'), Param("a")], 1);
    assert BindUpTo(["a", "a"], ["a", "b"], 1) == map["a" := "a"];
  }

  lemma TwoParams()
    ensures var ts := [Lit('/'), Param("a"), Lit('/'), Param("a")];
            Filled(ts, 1) == "/a/b" && Marked(ts, 1) == ["a", "b"] && ParamNames(ts) == ["a", "a"]
  {
    var ts := [Lit('/'), Param("a"), Lit('/'), Param("a")];
    assert ts[1..] == [Param("a"), Lit('/'), Param("a")] && ts[1..][1..] == [Lit('/'), Param("a")];
    assert ts[1..][1..][1..] == [Param("a")] && [Param("a")][1..] == [];
    assert Filled([Param("a")], 0) == "b" && Marked([Param("a")], 0) == ["b"] && ParamNames([Param("a")]) == ["a"];
    assert Filled(ts[1..][1..], 0) == "/b" && Marked(ts[1..][1..], 0) == ["b"] && ParamNames(ts[1..][1..]) == ["a"];
    assert Filled(ts[1..], 1) == "a/b" && Marked(ts[1..], 1) == ["a", "b"] && ParamNames(ts[1..]) == ["a", "a"];
  }

  lemma WildTokens()
    ensures Tokens("/*/:id") == [Lit('/'), Wild, Lit('/'), Param("id")]
  {
    hide Tokens, PureParam;
    assert PureParam(":id") by { IsPureId(); }
    SlashToken("*/:id");
    SlashToken(":id");
    assert "/" + "*/:id" == "/*/:id" && "/" + ":id" == "/:id" && ":id" + "" == ":id" && ":id"[1..] == "id";
    StarToken("/:id");
    assert "*" + "/:id" == "*/:id";
    PlaceholderTokens(":id", "");
    NoTokens();
  }

  lemma IsPureId()
    ensures PureParam(":id")
  {}

  lemma StarToken(rest: string)
    ensures Tokens("*" + rest) == [Wild] + Tokens(rest)
  {
    assert ("*" + rest)[1..] == rest;
  }

  // The pattern with a wildcard segment and the placeholder id behind it: on "/a/b" the name
  // is bound to the wildcard's text.
  lemma WildcardTakesTheName(r: Route, method_: string, handler: nat)
    requires Constructed(r, method_, "/*/:id", handler)
    ensures Match(r.regex, "/a/b") == Some(["a", "b"]) && Bind(r.paramNames, ["a", "b"]) == map["id" := "a"]
  {
    hide Tokens, Match, Matches, ParamNames, Atoms, StaticPattern, SegmentPattern;
    WildTokens();
    WildThenParam();
    MatchIsGreedyChoice(r.regex, "/a/b");
    OnlySplit(Match(r.regex, "/a/b").value);
    assert Bind(["id"], ["a", "b"]) == BindUpTo(["id"], ["a", "b"], 1);
  }

  lemma WildThenParam()
    ensures var ts := [Lit('/'), Wild, Lit('/'), Param("id")];
            Atoms(ts) == [Char('/'), AnyText, Char('/'), NotSlash] && ParamNames(ts) == ["id"]
            && Matches(Atoms(ts), "/a/b", ["a", "b"])
  {
    var ts := [Lit('/'), Wild, Lit('/'), Param("id")];
    assert ts[1..] == [Wild, Lit('/'), Param("id")] && ts[1..][1..] == [Lit('/'), Param("id")];
    assert ts[1..][1..][1..] == [Param("id")] && [Param("id")][1..] == [];
    assert Atoms([Param("id")]) == [NotSlash] && ParamNames([Param("id")]) == ["id"];
    assert Atoms(ts[1..][1..]) == [Char('/'), NotSlash] && ParamNames(ts[1..][1..]) == ["id"];
    assert Atoms(ts[1..]) == [AnyText, Char('/'), NotSlash];
    var e := [Char('/'), AnyText, Char('/'), NotSlash];
    assert e[1..] == [AnyText, Char('/'), NotSlash] && e[1..][1..] == [Char('/'), NotSlash] && [Char('/'), NotSlash][1..] == [NotSlash];
    assert "/a/b"[1..] == "a/b" && "a/b"[1..] == "/b" && "/b"[1..] == "b" && "a/b"[..1] == "a" && ["a", "b"][1..] == ["b"];
    LastPlaceholder("b", ["b"]);
    assert Matches([Char('/'), NotSlash], "/b", ["b"]);
    assert Matches(e[1..], "a/b", ["a", "b"]);
  }

  lemma OnlySplit(caps: seq<string>)
    requires Matches([Char('/'), AnyText, Char('/'), NotSlash], "/a/b", caps)
    ensures caps == ["a", "b"]
  {
    var e := [AnyText, Char('/'), NotSlash];
    assert [Char('/'), AnyText, Char('/'), NotSlash][1..] == e && "/a/b"[1..] == "a/b";
    assert e[1..] == [Char('/'), NotSlash] && e[1..][1..] == [NotSlash];
    var w := caps[0];
    var rest := "a/b"[|w|..];
    assert w == "a/b"[..|w|] && rest[0] == '/' && |w| == 1;
    assert "a/b"[..1] == "a" && rest[1..] == "b";
    LastPlaceholder("b", caps[1..]);
    assert caps == [caps[0]] + caps[1..];
  }
}

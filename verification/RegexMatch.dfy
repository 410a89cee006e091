/** What std::regex_match does with a compiled route pattern: which strings it
    accepts, and which of the possible captures it reports. */
module RegexMatch {
  import opened Text
  import opened Pattern

  /** The wildcard `.` stops at line terminators; the placeholder class at '/'. */
  predicate Allowed(a: Atom, c: char) {
    match a
    case Char(d) => c == d
    case NotSlash => c != '/'
    case AnyText => c != '\n' && c != '\r'
  }

  /** A group's text: `+` needs at least one character, `*` needs none. */
  predicate Fits(a: Atom, w: string) {
    (a.NotSlash? ==> w != "") && forall c :: c in w ==> Allowed(a, c)
  }

  /** The meaning of an expression: caps are the texts of its groups, from left to
      right, in one way of reading all of s. */
  ghost predicate Matches(e: seq<Atom>, s: string, caps: seq<string>)
    decreases |e|
  {
    if e == [] then s == "" && caps == []
    else if e[0].Char? then s != "" && s[0] == e[0].c && Matches(e[1..], s[1..], caps)
    else
      && caps != [] && StartsWith(s, caps[0]) && Fits(e[0], caps[0])
      && Matches(e[1..], s[|caps[0]|..], caps[1..])
  }

  /** Length of the longest run that a group can read at the start of s. */
  function Run(a: Atom, s: string): (n: nat)
    ensures n <= |s|
  {
    if s != "" && Allowed(a, s[0]) then 1 + Run(a, s[1..]) else 0
  }

  /** The greedy backtracking matcher: each group first tries its longest run. */
  function Match(e: seq<Atom>, s: string): Option<seq<string>>
    decreases |e|, |s| + 1
  {
    if e == [] then if s == "" then Some([]) else None
    else if e[0].Char? then
      if s != "" && s[0] == e[0].c then Match(e[1..], s[1..]) else None
    else MatchGroup(e, s, Run(e[0], s))
  }

  /** Tries the group e[0] with n characters, then with fewer. */
  function MatchGroup(e: seq<Atom>, s: string, n: nat): Option<seq<string>>
    requires e != [] && n <= |s|
    decreases |e|, n
  {
    if n == 0 && e[0].NotSlash? then None
    else
      match Match(e[1..], s[n..])
      case Some(caps) => Some([s[..n]] + caps)
      case None => if n == 0 then None else MatchGroup(e, s, n - 1)
  }

  /** Greedy preference: at the first difference the longer text wins. */
  ghost predicate Preferred(caps: seq<string>, other: seq<string>) {
    caps == [] || other == [] || |caps[0]| > |other[0]|
    || (caps[0] == other[0] && Preferred(caps[1..], other[1..]))
  }

  lemma {:induction false} RunFits(a: Atom, s: string, n: nat)
    requires n <= |s|
    ensures (forall c :: c in s[..n] ==> Allowed(a, c)) <==> n <= Run(a, s)
  {
    if n > 0 {
      RunFits(a, s[1..], n - 1);
      assert s[..n] == [s[0]] + s[1..][..n - 1];
    }
  }

  /** The matcher succeeds exactly on the strings of the expression's language, and
      reports the reading that the greedy order prefers to every other. */
  lemma {:induction false} MatchIsGreedyChoice(e: seq<Atom>, s: string)
    ensures Match(e, s).Some? ==> Matches(e, s, Match(e, s).value)
    ensures forall caps :: Matches(e, s, caps) ==> Match(e, s).Some? && Preferred(Match(e, s).value, caps)
    decreases |e|, |s| + 1
  {
    if e == [] {
    } else if e[0].Char? {
      if s != "" && s[0] == e[0].c { MatchIsGreedyChoice(e[1..], s[1..]); }
    } else {
      MatchGroupChoice(e, s, Run(e[0], s));
      forall caps | Matches(e, s, caps) ensures |caps[0]| <= Run(e[0], s) {
        RunFits(e[0], s, |caps[0]|);
      }
    }
  }

  lemma {:induction false} MatchGroupChoice(e: seq<Atom>, s: string, n: nat)
    requires e != [] && !e[0].Char? && n <= Run(e[0], s)
    ensures var r := MatchGroup(e, s, n);
            && (r.Some? ==> Matches(e, s, r.value))
            && (forall caps :: Matches(e, s, caps) && |caps[0]| <= n ==> r.Some? && Preferred(r.value, caps))
    decreases |e|, n
  {
    var r := MatchGroup(e, s, n);
    if n == 0 && e[0].NotSlash? {
    } else {
      MatchIsGreedyChoice(e[1..], s[n..]);
      RunFits(e[0], s, n);
      var m := Match(e[1..], s[n..]);
      if m.Some? {
        assert r.value[0] == s[..n] && r.value[1..] == m.value;
        forall caps | Matches(e, s, caps) && |caps[0]| <= n ensures Preferred(r.value, caps) {
          if |caps[0]| == n { assert caps[0] == s[..n]; }
        }
      } else if n > 0 {
        MatchGroupChoice(e, s, n - 1);
      }
    }
  }
}

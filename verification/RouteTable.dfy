/** The route table and its per-method index, against a linear scan of the
    registered routes. */
module RouteTable {
  import opened Text
  import opened RegexMatch
  import opened RoutePlan

  type Params = map<string, string>

  // ---------- The reference: scan in registration order ----------

  /** Parameter i gets capture i; a repeated name keeps its last value. */
  function Bind(names: seq<string>, caps: seq<string>): Params {
    BindUpTo(names, caps, if |names| < |caps| then |names| else |caps|)
  }

  function BindUpTo(names: seq<string>, caps: seq<string>, k: nat): Params
    requires k <= |names| && k <= |caps|
  {
    if k == 0 then map[] else BindUpTo(names, caps, k - 1)[names[k - 1] := caps[k - 1]]
  }

  predicate Hits(r: Route, method_: string, path: string) {
    r.method_ == method_ && Match(r.regex, path).Some?
  }

  /** The first route from i on, in registration order, that has the method and
      whose regular expression matches. */
  function FirstHit(routes: seq<Route>, method_: string, path: string, i: nat): (r: Option<nat>)
    requires i <= |routes|
    ensures r.Some? ==> i <= r.value < |routes| && Hits(routes[r.value], method_, path)
    decreases |routes| - i
  {
    if i == |routes| then None
    else if Hits(routes[i], method_, path) then Some(i)
    else FirstHit(routes, method_, path, i + 1)
  }

  datatype Found = Found(route: nat, params: Params)

  function Scan(routes: seq<Route>, method_: string, path: string): Option<Found> {
    match FirstHit(routes, method_, path, 0)
    case None => None
    case Some(i) => Some(Found(i, Bind(routes[i].paramNames, Match(routes[i].regex, path).value)))
  }

  /** HEAD falls back to the GET routes (section 9.3.2 of RFC 9110). */
  function Reference(routes: seq<Route>, method_: string, path: string): Option<Found> {
    var found := Scan(routes, method_, path);
    if found.None? && method_ == "HEAD" then Scan(routes, "GET", path) else found
  }

  lemma {:induction false} FirstHitSkip(routes: seq<Route>, method_: string, path: string, i: nat, j: nat)
    requires i <= j <= |routes|
    requires forall k :: i <= k < j ==> !Hits(routes[k], method_, path)
    ensures FirstHit(routes, method_, path, i) == FirstHit(routes, method_, path, j)
    decreases j - i
  {
    if i < j { FirstHitSkip(routes, method_, path, i + 1, j); }
  }

  // ---------- The index ----------

  datatype MatchIndex = MatchIndex(exact: map<string, nat>, dynamicRoutes: seq<nat>)

  const EMPTY_INDEX := MatchIndex(map[], [])

  /** ix is the view of method_ over the first n routes: static paths lead to their
      first registration, and the other routes are listed in registration order. */
  ghost predicate Indexes(routes: seq<Route>, n: nat, method_: string, ix: MatchIndex)
    requires n <= |routes|
  {
    && (forall p :: p in ix.exact ==> FirstStatic(routes, n, method_, p, ix.exact[p]))
    && (forall i :: 0 <= i < n && routes[i].method_ == method_ && routes[i].isStatic ==> routes[i].path in ix.exact)
    && (forall k :: 0 <= k < |ix.dynamicRoutes| ==> IsDynamic(routes, n, method_, ix.dynamicRoutes[k]))
    && (forall j, k :: 0 <= j < k < |ix.dynamicRoutes| ==> ix.dynamicRoutes[j] < ix.dynamicRoutes[k])
    && (forall i :: 0 <= i < n && IsDynamic(routes, n, method_, i) ==> i in ix.dynamicRoutes)
  }

  predicate IsDynamic(routes: seq<Route>, n: nat, method_: string, i: nat)
    requires n <= |routes|
  {
    i < n && routes[i].method_ == method_ && !routes[i].isStatic
  }

  ghost predicate FirstStatic(routes: seq<Route>, n: nat, method_: string, p: string, i: nat)
    requires n <= |routes|
  {
    && i < n && routes[i].method_ == method_ && routes[i].isStatic && routes[i].path == p
    && forall j :: 0 <= j < i ==> !(routes[j].method_ == method_ && routes[j].isStatic && routes[j].path == p)
  }

  ghost predicate Indexed(routes: seq<Route>, n: nat, methodIndex: map<string, MatchIndex>)
    requires n <= |routes|
  {
    && (forall m :: m in methodIndex ==> Indexes(routes, n, m, methodIndex[m]))
    && (forall i :: 0 <= i < n ==> routes[i].method_ in methodIndex)
  }

  /** What rebuildIndex does for one route. */
  function AddToIndex(ix: MatchIndex, r: Route, i: nat): MatchIndex {
    if r.isStatic then
      if r.path in ix.exact then ix else ix.(exact := ix.exact[r.path := i])
    else ix.(dynamicRoutes := ix.dynamicRoutes + [i])
  }

  lemma EmptyIndexes(routes: seq<Route>, n: nat, m: string)
    requires n <= |routes| && forall i :: 0 <= i < n ==> routes[i].method_ != m
    ensures Indexes(routes, n, m, EMPTY_INDEX)
  {}

  lemma OtherMethodIndexes(routes: seq<Route>, n: nat, m: string, ix: MatchIndex)
    requires n < |routes| && Indexes(routes, n, m, ix) && routes[n].method_ != m
    ensures Indexes(routes, n + 1, m, ix)
  {
    forall p | p in ix.exact ensures FirstStatic(routes, n + 1, m, p, ix.exact[p]) {
      assert FirstStatic(routes, n, m, p, ix.exact[p]);
    }
    forall i | 0 <= i < n + 1 && IsDynamic(routes, n + 1, m, i) ensures i in ix.dynamicRoutes {
      assert IsDynamic(routes, n, m, i);
    }
    forall k | 0 <= k < |ix.dynamicRoutes| ensures IsDynamic(routes, n + 1, m, ix.dynamicRoutes[k]) {
      assert IsDynamic(routes, n, m, ix.dynamicRoutes[k]);
    }
  }

  lemma AddStatic(routes: seq<Route>, n: nat, m: string, ix: MatchIndex)
    requires n < |routes| && Indexes(routes, n, m, ix) && routes[n].method_ == m && routes[n].isStatic
    ensures Indexes(routes, n + 1, m, AddToIndex(ix, routes[n], n))
  {
    var ix' := AddToIndex(ix, routes[n], n);
    forall p | p in ix'.exact ensures FirstStatic(routes, n + 1, m, p, ix'.exact[p]) {
      if p in ix.exact { assert FirstStatic(routes, n, m, p, ix.exact[p]); }
    }
    forall i | 0 <= i < n + 1 && IsDynamic(routes, n + 1, m, i) ensures i in ix.dynamicRoutes {
      assert IsDynamic(routes, n, m, i);
    }
    forall k | 0 <= k < |ix.dynamicRoutes| ensures IsDynamic(routes, n + 1, m, ix.dynamicRoutes[k]) {
      assert IsDynamic(routes, n, m, ix.dynamicRoutes[k]);
    }
  }

  lemma AddDynamic(routes: seq<Route>, n: nat, m: string, ix: MatchIndex)
    requires n < |routes| && Indexes(routes, n, m, ix) && routes[n].method_ == m && !routes[n].isStatic
    ensures Indexes(routes, n + 1, m, AddToIndex(ix, routes[n], n))
  {
    var ix' := AddToIndex(ix, routes[n], n);
    forall p | p in ix.exact ensures FirstStatic(routes, n + 1, m, p, ix.exact[p]) {
      assert FirstStatic(routes, n, m, p, ix.exact[p]);
    }
    assert ix'.dynamicRoutes[|ix.dynamicRoutes|] == n;
    forall i | 0 <= i < n + 1 && IsDynamic(routes, n + 1, m, i) ensures i in ix'.dynamicRoutes {
      if i < n { assert IsDynamic(routes, n, m, i); }
    }
    forall k | 0 <= k < |ix.dynamicRoutes| ensures IsDynamic(routes, n + 1, m, ix.dynamicRoutes[k]) {
      assert IsDynamic(routes, n, m, ix.dynamicRoutes[k]);
    }
  }

  lemma NothingIndexed(routes: seq<Route>)
    ensures Indexed(routes, 0, map[])
  {}

  lemma IndexStep(routes: seq<Route>, n: nat, mi: map<string, MatchIndex>)
    requires n < |routes| && Indexed(routes, n, mi)
    ensures var m := routes[n].method_;
            Indexed(routes, n + 1, mi[m := AddToIndex(if m in mi then mi[m] else EMPTY_INDEX, routes[n], n)])
  {
    hide Indexes;
    var m := routes[n].method_;
    var ix := if m in mi then mi[m] else EMPTY_INDEX;
    if m !in mi { EmptyIndexes(routes, n, m); }
    if routes[n].isStatic { AddStatic(routes, n, m, ix); } else { AddDynamic(routes, n, m, ix); }
    forall k | k in mi && k != m ensures Indexes(routes, n + 1, k, mi[k]) {
      OtherMethodIndexes(routes, n, k, mi[k]);
    }
  }

  // ---------- Matching through the index ----------

  /** The table: all routes, and the index that is rebuilt after every change. */
  class Table {
    var routes: seq<Route>
    var methodIndex: map<string, MatchIndex>

    ghost predicate Valid()
      reads this
    {
      && (forall r :: r in routes ==> WellFormed(r))
      && Indexed(routes, |routes|, methodIndex)
    }

    constructor (routes: seq<Route>)
      ensures this.routes == routes && methodIndex == map[]
    {
      this.routes := routes;
      methodIndex := map[];
    }

    method RebuildIndex()
      modifies this`methodIndex
      ensures Indexed(routes, |routes|, methodIndex)
    {
      hide Indexed, Indexes;
      methodIndex := map[];
      NothingIndexed(routes);
      for i := 0 to |routes|
        invariant Indexed(routes, i, methodIndex)
      {
        var m := routes[i].method_;
        IndexStep(routes, i, methodIndex);
        var ix := if m in methodIndex then methodIndex[m] else EMPTY_INDEX;
        methodIndex := methodIndex[m := AddToIndex(ix, routes[i], i)];
      }
    }

    /** matchMethod: the hash lookup gives a candidate; dynamic routes registered
        before it are tried first, in order. */
    method MatchMethod(method_: string, index: MatchIndex, path: string) returns (r: Option<Found>)
      requires Valid() && Indexes(routes, |routes|, method_, index)
      ensures r == Scan(routes, method_, path)
    {
      var exact: Option<nat> := if path in index.exact then Some(index.exact[path]) else None;
      if index.dynamicRoutes == [] {
        NoneBefore(routes, method_, index, path, 0);
        return if exact.Some? then Some(Found(exact.value, map[])) else None;
      }
      var pathSegs := SplitPath(path);
      var k := 0;
      while k < |index.dynamicRoutes|
        invariant 0 <= k <= |index.dynamicRoutes|
        invariant forall j :: 0 <= j < k ==> !Hits(routes[index.dynamicRoutes[j]], method_, path)
      {
        var idx := index.dynamicRoutes[k];
        if exact.Some? && idx > exact.value { break; }
        var route := routes[idx];
        assert IsDynamic(routes, |routes|, method_, idx) && route in routes;
        var hit, params := TryRoute(route, path, pathSegs);
        if hit {
          HitAt(routes, method_, index, path, k);
          return Some(Found(idx, params));
        }
        k := k + 1;
      }
      NoneBefore(routes, method_, index, path, k);
      return if exact.Some? then Some(Found(exact.value, map[])) else None;
    }

    /** findRoute. */
    method FindRoute(method_: string, path: string) returns (r: Option<Found>)
      requires Valid()
      ensures r == Reference(routes, method_, path)
    {
      UnindexedMethod(routes, methodIndex, method_, path);
      UnindexedMethod(routes, methodIndex, "GET", path);
      r := None;
      if method_ in methodIndex {
        r := MatchMethod(method_, methodIndex[method_], path);
        if r.Some? { return; }
      }
      if method_ == "HEAD" && "GET" in methodIndex {
        r := MatchMethod("GET", methodIndex["GET"], path);
      }
    }
  }

  /** One dynamic route: the compiled regex when the pattern needs it, the segment
      comparison otherwise. */
  method TryRoute(route: Route, path: string, pathSegs: seq<string>) returns (hit: bool, params: Params)
    requires WellFormed(route) && pathSegs == Split(path, '/')
    ensures hit == Match(route.regex, path).Some?
    ensures hit ==> params == Bind(route.paramNames, Match(route.regex, path).value)
  {
    hide *;
    params := map[];
    if route.needsRegex {
      var m := Match(route.regex, path);
      hit := m.Some?;
      if hit { params := BindParams(route.paramNames, m.value); }
    } else {
      FastFormsAreRegexMatch(route, path);
      var dynamicSegs;
      hit, dynamicSegs := MatchSegments(route.patternSegs, pathSegs);
      if hit { params := BindParams(route.paramNames, Pick(pathSegs, dynamicSegs)); }
    }
  }

  method BindParams(names: seq<string>, caps: seq<string>) returns (params: Params)
    ensures params == Bind(names, caps)
  {
    params := map[];
    var i := 0;
    while i < |names| && i < |caps|
      invariant i <= |names| && i <= |caps|
      invariant params == BindUpTo(names, caps, i)
    {
      params := params[names[i] := caps[i]];
      i := i + 1;
    }
  }

  lemma StaticHit(r: Route, method_: string, path: string)
    requires WellFormed(r) && r.isStatic
    ensures Hits(r, method_, path) <==> r.method_ == method_ && r.path == path
    ensures r.path == path ==> Match(r.regex, path) == Some([])
  {
    FastFormsAreRegexMatch(r, path);
  }

  /** No route before position n hits, when the indexed dynamic routes before n do
      not, and n is at most the first static registration of the path. */
  lemma NothingBefore(routes: seq<Route>, method_: string, index: MatchIndex, path: string, n: nat)
    requires n <= |routes| && (forall r :: r in routes ==> WellFormed(r)) && Indexes(routes, |routes|, method_, index)
    requires path in index.exact ==> n <= index.exact[path]
    requires forall j :: 0 <= j < |index.dynamicRoutes| && index.dynamicRoutes[j] < n ==> !Hits(routes[index.dynamicRoutes[j]], method_, path)
    ensures forall i :: 0 <= i < n ==> !Hits(routes[i], method_, path)
  {
    forall i | 0 <= i < n ensures !Hits(routes[i], method_, path) {
      var r := routes[i];
      assert r in routes;
      if r.isStatic {
        hide Match;
        StaticHit(r, method_, path);
        assert path in index.exact ==> FirstStatic(routes, |routes|, method_, path, index.exact[path]);
      } else if r.method_ == method_ {
        assert IsDynamic(routes, |routes|, method_, i);
      }
    }
  }

  /** The loop ran to position k without a hit: the static candidate wins, if any. */
  lemma NoneBefore(routes: seq<Route>, method_: string, index: MatchIndex, path: string, k: nat)
    requires (forall r :: r in routes ==> WellFormed(r)) && Indexes(routes, |routes|, method_, index)
    requires k <= |index.dynamicRoutes|
    requires forall j :: 0 <= j < k ==> !Hits(routes[index.dynamicRoutes[j]], method_, path)
    requires k < |index.dynamicRoutes| ==> path in index.exact && index.dynamicRoutes[k] > index.exact[path]
    ensures Scan(routes, method_, path) == if path in index.exact then Some(Found(index.exact[path], map[])) else None
  {
    var n := if path in index.exact then index.exact[path] else |routes|;
    if path in index.exact {
      assert FirstStatic(routes, |routes|, method_, path, n);
      assert routes[n] in routes;
      StaticHit(routes[n], method_, path);
    }
    NothingBefore(routes, method_, index, path, n);
    FirstHitSkip(routes, method_, path, 0, n);
  }

  /** The dynamic route at position k is the first hit. */
  lemma HitAt(routes: seq<Route>, method_: string, index: MatchIndex, path: string, k: nat)
    requires (forall r :: r in routes ==> WellFormed(r)) && Indexes(routes, |routes|, method_, index)
    requires k < |index.dynamicRoutes| && Hits(routes[index.dynamicRoutes[k]], method_, path)
    requires forall j :: 0 <= j < k ==> !Hits(routes[index.dynamicRoutes[j]], method_, path)
    requires path in index.exact ==> index.dynamicRoutes[k] <= index.exact[path]
    ensures var i := index.dynamicRoutes[k];
            Scan(routes, method_, path) == Some(Found(i, Bind(routes[i].paramNames, Match(routes[i].regex, path).value)))
  {
    var i := index.dynamicRoutes[k];
    NothingBefore(routes, method_, index, path, i);
    FirstHitSkip(routes, method_, path, 0, i);
  }

  lemma UnindexedMethod(routes: seq<Route>, mi: map<string, MatchIndex>, m: string, path: string)
    requires Indexed(routes, |routes|, mi)
    ensures m !in mi ==> Scan(routes, m, path) == None
  {
    if m !in mi { FirstHitSkip(routes, m, path, 0, |routes|); }
  }

  // ---------- Registration ----------

  /** The handler: the current table is a published snapshot that is never changed;
      a registration installs a fresh one. */
  class RouterHandler {
    var table: Table

    ghost predicate Valid()
      reads this, table
    {
      table.Valid()
    }

    constructor ()
      ensures Valid() && fresh(table) && table.routes == []
    {
      var t := new Table([]);
      t.RebuildIndex();
      table := t;
    }

    /** addRoute through mutate: copy, append, rebuild, swap. Readers that hold the
        old snapshot still see it unchanged. */
    method AddRoute(method_: string, path: string, handler: nat)
      requires Valid()
      modifies this
      ensures Valid() && fresh(table) && unchanged(old(table))
      ensures |table.routes| == |old(table.routes)| + 1
      ensures table.routes[..|old(table.routes)|] == old(table.routes)
      ensures Constructed(table.routes[|old(table.routes)|], method_, path, handler)
    {
      var current := table;
      var r := MakeRoute(method_, path, handler);
      var next := new Table(current.routes + [r]);
      next.RebuildIndex();
      table := next;
    }

    /** A request takes one snapshot and matches against it. */
    method HandleRequest(method_: string, path: string) returns (r: Option<Found>)
      requires Valid()
      ensures r == Reference(table.routes, method_, path)
    {
      var snapshot := table;
      r := snapshot.FindRoute(method_, path);
    }
  }
}

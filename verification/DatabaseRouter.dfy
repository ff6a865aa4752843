/**
 proxy/router.go's DatabaseRouter: the object, its route cache and its methods,
 each proved to follow the table functions. One call at a time; RouterRuns has
 the interleavings.
 */
module DatabaseRouters {
  import opened Common
  import opened Patterns
  import opened Router
  import opened RouterRuns
  import Lru
  import LruCache
  import PatternTheorems

  class DatabaseRouter {
    var routes: map<string, Route>
    var wildcardRoute: Option<Route>
    var patternRoutes: seq<PatternRoute>
    const routeCache: LruCache.Cache<string, Route>

    ghost function Table(): Table
      reads this
    {
      Router.Table(routes, patternRoutes, wildcardRoute)
    }

    // What is cached agrees with the routes.
    ghost predicate Valid()
      reads this, routeCache, routeCache.Repr
    {
      && routeCache.Valid()
      && Coherent(Table(), routeCache.View())
    }

    constructor ()
      ensures Valid() && fresh(routeCache) && fresh(routeCache.Repr)
      ensures Table() == Empty() && routeCache.View() == Lru.New(1000, 300_000_000_000)
    {
      routes, wildcardRoute, patternRoutes := map[], None, [];
      routeCache := new LruCache.Cache(1000, 300_000_000_000);
    }

    method AddRoute(pattern: string, config: Route)
      requires Valid()
      modifies this, routeCache, routeCache.Repr
      ensures Valid() && routeCache.Repr == old(routeCache.Repr)
      ensures Table() == Router.Add(old(Table()), pattern, config)
    {
      routeCache.Clear();
      var normalized := Lower(pattern);
      if normalized == "*" {
        wildcardRoute := Some(config);
      } else if '*' in normalized {
        patternRoutes := patternRoutes + [PatternRoute(Classify(normalized), config)];
      } else {
        routes := routes[normalized := config];
      }
    }

    method RemoveRoute(pattern: string)
      requires Valid()
      modifies this, routeCache, routeCache.Repr
      ensures Valid() && routeCache.Repr == old(routeCache.Repr)
      ensures Table() == Router.Remove(old(Table()), pattern)
    {
      routeCache.Clear();
      if pattern == "*" {
        wildcardRoute := None;
        return;
      }
      routes := routes - {pattern};
      var filtered := [];
      for i := 0 to |patternRoutes|
        invariant filtered == Others(patternRoutes[..i], pattern)
      {
        assert patternRoutes[..i + 1][..i] == patternRoutes[..i];
        if patternRoutes[i].pattern.core != pattern {
          filtered := filtered + [patternRoutes[i]];
        }
      }
      assert patternRoutes[..|patternRoutes|] == patternRoutes;
      patternRoutes := filtered;
    }

    // The loop over the patterns: the first one that matches, else none.
    method MatchPatterns(name: string) returns (r: Option<Route>)
      ensures var i := FirstMatch(patternRoutes, name);
              r == if i < |patternRoutes| then Some(patternRoutes[i].route) else None
    {
      r := None;
      for i := 0 to |patternRoutes|
        invariant FirstMatch(patternRoutes[..i], name) == i
      {
        assert patternRoutes[..i + 1][..i] == patternRoutes[..i];
        if Matches(patternRoutes[i].pattern, name) {
          FirstMatchIs(patternRoutes, name, i);
          return Some(patternRoutes[i].route);
        }
      }
      assert patternRoutes[..|patternRoutes|] == patternRoutes;
    }

    // The answer is the table's whether or not it came from the cache.
    method GetRoute(database: string, now: int) returns (r: Option<Route>)
      requires Valid()
      modifies routeCache, routeCache.Repr
      ensures Valid() && fresh(routeCache.Repr - old(routeCache.Repr))
      ensures Table() == old(Table())
      ensures r == Resolve(Table(), Lower(database))
      ensures r.Some? ==> Lru.Peek(routeCache.View(), Lower(database)) == r
    {
      var name := Lower(database);
      ghost var before := routeCache.View();
      var cached := routeCache.Get(name, now);
      GetCoherent(Table(), before, name, now);
      if cached.Some? {
        return cached;
      }
      if name in routes {
        r := Some(routes[name]);
      } else {
        r := MatchPatterns(name);
        if r.None? {
          r := wildcardRoute;
        }
      }
      if r.Some? {
        AddCoherent(Table(), routeCache.View(), name, r.value, now);
        routeCache.Add(name, r.value, now);
      }
    }

    // The keys are the routes as they are printed; a later pattern that prints
    // like an earlier route replaces it, and the catch-all comes last.
    method GetAllRoutes() returns (result: map<string, Route>)
      ensures result == Listing(Table())
    {
      result := routes;
      for i := 0 to |patternRoutes|
        invariant result == ListedPatterns(routes, patternRoutes[..i])
      {
        assert patternRoutes[..i + 1][..i] == patternRoutes[..i];
        result := result[Printed(patternRoutes[i].pattern) := patternRoutes[i].route];
      }
      assert patternRoutes[..|patternRoutes|] == patternRoutes;
      if wildcardRoute.Some? {
        result := result["*" := wildcardRoute.value];
      }
    }
  }

  lemma FirstMatchIs(ps: seq<PatternRoute>, name: string, i: nat)
    requires i < |ps| && Matches(ps[i].pattern, name) && FirstMatch(ps[..i], name) == i
    ensures FirstMatch(ps, name) == i
  {
    forall j | 0 <= j < i ensures !Matches(ps[j].pattern, name) {
      assert ps[..i][j] == ps[j];
    }
  }

  function ListedPatterns(exact: map<string, Route>, ps: seq<PatternRoute>): map<string, Route> {
    if ps == [] then exact
    else
      var last := ps[|ps| - 1];
      ListedPatterns(exact, ps[..|ps| - 1])[Printed(last.pattern) := last.route]
  }

  // The map GetAllRoutes returns.
  function Listing(t: Table): map<string, Route> {
    var m := ListedPatterns(t.exact, t.patterns);
    if t.wildcard.Some? then m["*" := t.wildcard.value] else m
  }

  lemma {:induction false} ListedPatternsHas(exact: map<string, Route>, ps: seq<PatternRoute>, key: string)
    ensures key in ListedPatterns(exact, ps)
       <==> key in exact || exists i :: 0 <= i < |ps| && Printed(ps[i].pattern) == key
  {
    if ps != [] {
      var n := |ps| - 1;
      ListedPatternsHas(exact, ps[..n], key);
      assert forall i :: 0 <= i < n ==> ps[..n][i] == ps[i];
    }
  }

  /**
   Every route that was added is listed and nothing else is: a key is an exact
   name, the print of a pattern, or the catch-all.
   */
  lemma ListingIsComplete(t: Table, key: string)
    ensures key in Listing(t)
       <==> || key in t.exact
            || (exists i :: 0 <= i < |t.patterns| && Printed(t.patterns[i].pattern) == key)
            || (key == "*" && t.wildcard.Some?)
  {
    ListedPatternsHas(t.exact, t.patterns, key);
  }

  // Pattern i is the last one that prints as the key.
  predicate LastPrint(ps: seq<PatternRoute>, i: nat, key: string) {
    && i < |ps| && Printed(ps[i].pattern) == key
    && forall j :: i < j < |ps| ==> Printed(ps[j].pattern) != key
  }

  lemma {:induction false} ListedPatternsAre(exact: map<string, Route>, ps: seq<PatternRoute>, key: string)
    requires key in ListedPatterns(exact, ps)
    ensures forall i: nat :: LastPrint(ps, i, key) ==> ListedPatterns(exact, ps)[key] == ps[i].route
    ensures (forall i :: 0 <= i < |ps| ==> Printed(ps[i].pattern) != key) ==>
              key in exact && ListedPatterns(exact, ps)[key] == exact[key]
  {
    hide Printed;
    if ps != [] {
      var n := |ps| - 1;
      if Printed(ps[n].pattern) != key {
        ListedPatternsAre(exact, ps[..n], key);
        forall i: nat | LastPrint(ps, i, key) ensures LastPrint(ps[..n], i, key) && ps[..n][i] == ps[i] {}
        assert forall i :: 0 <= i < n ==> ps[..n][i] == ps[i];
      }
    }
  }

  /**
   The route listed under a key: the catch-all under "*", else that of the last
   pattern that prints so, else that of the exact name.
   */
  lemma ListingIsExact(t: Table, key: string)
    requires key in Listing(t)
    ensures key == "*" && t.wildcard.Some? ==> Listing(t)[key] == t.wildcard.value
    ensures !(key == "*" && t.wildcard.Some?) ==>
              && (forall i: nat :: LastPrint(t.patterns, i, key) ==> Listing(t)[key] == t.patterns[i].route)
              && ((forall i :: 0 <= i < |t.patterns| ==> Printed(t.patterns[i].pattern) != key) ==>
                    key in t.exact && Listing(t)[key] == t.exact[key])
  {
    hide Printed;
    if !(key == "*" && t.wildcard.Some?) {
      ListedPatternsAre(t.exact, t.patterns, key);
    }
  }

  // A route just added is listed, with its configuration, under its lower-cased
  // pattern, exactly as far as patterns print back.
  lemma AddedIsListed(t: Table, pattern: string, route: Route)
    requires Starry(Lower(pattern)) && Lower(pattern) != "*"
    ensures var p := Lower(pattern);
            var l := Listing(Add(t, pattern, route));
            && Printed(Classify(p)) in l
            && l[Printed(Classify(p))] == route
            && (Printed(Classify(p)) == p
                <==> !(p[0] == '*' && p[|p| - 1] == '*' && |p| > 2 && (p[1] == '*' || p[|p| - 2] == '*')))
  {
    var p := Lower(pattern);
    PatternTheorems.PrintsBack(p);
    var ps := Add(t, pattern, route).patterns;
    assert ps[|ps| - 1] == PatternRoute(Classify(p), route);
    PrintIsNotStar(p);
  }

  lemma PrintIsNotStar(p: string)
    requires Starry(p) && p != "*"
    ensures Printed(Classify(p)) != "*"
  {
    if p[0] != '*' && p[|p| - 1] == '*' {
      assert Printed(Classify(p))[0] == p[0];
    } else if p[0] == '*' && p[|p| - 1] != '*' {
      assert |Printed(Classify(p))| == |p|;
    }
  }
}

/**
 The route table of proxy/router.go as a value: exact names, patterns in the
 order they were added, and the catch-all route. Routes are known by number.
 */
module Router {
  import opened Common
  import opened Patterns

  type Route = nat

  datatype PatternRoute = PatternRoute(pattern: Stored, route: Route)

  datatype Table = Table(exact: map<string, Route>, patterns: seq<PatternRoute>, wildcard: Option<Route>)

  function Empty(): Table {
    Table(map[], [], None)
  }

  function Add(t: Table, pattern: string, route: Route): Table {
    var p := Lower(pattern);
    if p == "*" then t.(wildcard := Some(route))
    else if Starry(p) then t.(patterns := t.patterns + [PatternRoute(Classify(p), route)])
    else t.(exact := t.exact[p := route])
  }

  // The pattern routes whose stored text is not the given one.
  function Others(ps: seq<PatternRoute>, text: string): seq<PatternRoute> {
    if ps == [] then []
    else
      var rest, last := Others(ps[..|ps| - 1], text), ps[|ps| - 1];
      if last.pattern.core != text then rest + [last] else rest
  }

  function Remove(t: Table, pattern: string): Table {
    if pattern == "*" then t.(wildcard := None)
    else Table(t.exact - {pattern}, Others(t.patterns, pattern), t.wildcard)
  }

  // The position of the first pattern that matches, or the number of patterns.
  function FirstMatch(ps: seq<PatternRoute>, name: string): (i: nat)
    ensures i <= |ps|
    ensures i < |ps| ==> Matches(ps[i].pattern, name)
    ensures forall j :: 0 <= j < i ==> !Matches(ps[j].pattern, name)
  {
    if ps == [] then 0
    else
      var i := FirstMatch(ps[..|ps| - 1], name);
      if i < |ps| - 1 then i
      else if Matches(ps[|ps| - 1].pattern, name) then |ps| - 1
      else |ps|
  }

  // The route of a normalised name.
  function Resolve(t: Table, name: string): Option<Route> {
    if name in t.exact then Some(t.exact[name])
    else
      var i := FirstMatch(t.patterns, name);
      if i < |t.patterns| then Some(t.patterns[i].route) else t.wildcard
  }

  // ------------------------------------------------------ what AddRoute does

  lemma FirstMatchAfterAppend(ps: seq<PatternRoute>, r: PatternRoute, name: string)
    ensures FirstMatch(ps + [r], name) ==
            if FirstMatch(ps, name) < |ps| then FirstMatch(ps, name)
            else if Matches(r.pattern, name) then |ps| else |ps| + 1
  {
    assert (ps + [r])[..|ps|] == ps;
  }

  // -------------------------------------------------- what a table answers

  datatype Added = Added(pattern: string, route: Route)

  // The table that a list of AddRoute calls builds.
  function Built(adds: seq<Added>): Table {
    if adds == [] then Empty()
    else
      var last := adds[|adds| - 1];
      Add(Built(adds[..|adds| - 1]), last.pattern, last.route)
  }

  predicate IsPattern(p: string) {
    Starry(p) && p != "*"
  }

  // The route added last under the very name.
  function LastExact(adds: seq<Added>, name: string): Option<Route> {
    if adds == [] then None
    else
      var last := adds[|adds| - 1];
      if !Starry(Lower(last.pattern)) && Lower(last.pattern) == name then Some(last.route)
      else LastExact(adds[..|adds| - 1], name)
  }

  // The route added first under a pattern that takes the name.
  function FirstPattern(adds: seq<Added>, name: string): Option<Route> {
    if adds == [] then None
    else
      var earlier, last := FirstPattern(adds[..|adds| - 1], name), adds[|adds| - 1];
      if earlier.Some? then earlier
      else if IsPattern(Lower(last.pattern)) && Matches(Classify(Lower(last.pattern)), name) then Some(last.route)
      else None
  }

  function LastCatchAll(adds: seq<Added>): Option<Route> {
    if adds == [] then None
    else
      var last := adds[|adds| - 1];
      if Lower(last.pattern) == "*" then Some(last.route) else LastCatchAll(adds[..|adds| - 1])
  }

  lemma {:induction false} BuiltExact(adds: seq<Added>, name: string)
    ensures LastExact(adds, name) ==
            if name in Built(adds).exact then Some(Built(adds).exact[name]) else None
  {
    hide Lower, Classify;
    if adds != [] {
      BuiltExact(adds[..|adds| - 1], name);
      StarIsStarry();
    }
  }

  lemma {:induction false} BuiltCatchAll(adds: seq<Added>)
    ensures Built(adds).wildcard == LastCatchAll(adds)
  {
    hide Lower, Classify;
    if adds != [] {
      BuiltCatchAll(adds[..|adds| - 1]);
    }
  }

  // The route of the first pattern that takes the name.
  function PatternAnswer(ps: seq<PatternRoute>, name: string): Option<Route> {
    var i := FirstMatch(ps, name);
    if i < |ps| then Some(ps[i].route) else None
  }

  lemma PatternAnswerAppend(ps: seq<PatternRoute>, r: PatternRoute, name: string)
    ensures PatternAnswer(ps + [r], name) ==
            if PatternAnswer(ps, name).Some? then PatternAnswer(ps, name)
            else if Matches(r.pattern, name) then Some(r.route) else None
  {
    hide FirstMatch, Matches;
    FirstMatchAfterAppend(ps, r, name);
  }

  lemma {:induction false} BuiltPatterns(adds: seq<Added>, name: string)
    ensures FirstPattern(adds, name) == PatternAnswer(Built(adds).patterns, name)
  {
    hide Lower, Classify, FirstMatch, Matches, PatternAnswer;
    if adds == [] {
      NoPatterns(name);
    } else {
      var n := |adds| - 1;
      BuiltPatterns(adds[..n], name);
      PatternAnswerAppend(Built(adds[..n]).patterns, StoredRoute(adds[n]), name);
    }
  }

  lemma NoPatterns(name: string)
    ensures PatternAnswer([], name).None?
  {
  }

  // What AddRoute stores for a pattern.
  function StoredRoute(a: Added): PatternRoute {
    var p := Lower(a.pattern);
    PatternRoute(if p != "" then Classify(p) else Stored(Wildcard, ""), a.route)
  }

  lemma StarIsStarry()
    ensures Starry("*")
  {
    assert "*"[0] == '*';
  }

  /**
   What a name resolves to after any calls of AddRoute: the route added last under
   the very name; failing that, the one added first under a pattern that takes the
   name; failing that, the catch-all added last.
   */
  lemma BuiltResolves(adds: seq<Added>, name: string)
    ensures Resolve(Built(adds), name) ==
            if LastExact(adds, name).Some? then LastExact(adds, name)
            else if FirstPattern(adds, name).Some? then FirstPattern(adds, name)
            else LastCatchAll(adds)
  {
    BuiltExact(adds, name);
    BuiltPatterns(adds, name);
    BuiltCatchAll(adds);
  }

  // The same calls of AddRoute but for the case of ASCII letters in the patterns.
  predicate SameAdds(adds: seq<Added>, others: seq<Added>) {
    && |adds| == |others|
    && forall i :: 0 <= i < |adds| ==>
         SameButCase(adds[i].pattern, others[i].pattern) && adds[i].route == others[i].route
  }

  lemma {:induction false} SameTable(adds: seq<Added>, others: seq<Added>)
    requires SameAdds(adds, others)
    ensures Built(adds) == Built(others)
  {
    hide Lower;
    if adds != [] {
      var n := |adds| - 1;
      SameTable(adds[..n], others[..n]);
      LowerForgetsCase(adds[n].pattern, others[n].pattern);
    }
  }

  /**
   The case of ASCII letters does not matter: tables built from patterns that
   differ in it at most answer names that differ in it at most with the same route.
   */
  lemma CaseDoesNotMatter(adds: seq<Added>, others: seq<Added>, name: string, other: string)
    requires SameAdds(adds, others) && SameButCase(name, other)
    ensures Resolve(Built(adds), Lower(name)) == Resolve(Built(others), Lower(other))
  {
    SameTable(adds, others);
    LowerForgetsCase(name, other);
  }

  // A name added without a star is found under any case of its letters, whatever
  // patterns there are, until it is added again.
  lemma AddedIsFound(t: Table, name: string, route: Route, other: string)
    requires SameButCase(name, other) && !Starry(name)
    ensures Resolve(Add(t, name, route), Lower(other)) == Some(route)
  {
    LowerForgetsCase(name, other);
    LowerStar(name);
    StarIsStarry();
  }

  // ---------------------------------------------------- undoing an added route

  // Some stored pattern has this text.
  predicate HasCore(t: Table, text: string) {
    exists i :: 0 <= i < |t.patterns| && t.patterns[i].pattern.core == text
  }

  lemma {:induction false} OthersKeepsAll(ps: seq<PatternRoute>, text: string)
    requires forall i :: 0 <= i < |ps| ==> ps[i].pattern.core != text
    ensures Others(ps, text) == ps
  {
    if ps != [] {
      OthersKeepsAll(ps[..|ps| - 1], text);
      assert ps == ps[..|ps| - 1] + [ps[|ps| - 1]];
    }
  }

  lemma {:induction false} OthersHas(ps: seq<PatternRoute>, text: string, r: PatternRoute)
    ensures r in Others(ps, text) <==> r in ps && r.pattern.core != text
  {
    if ps != [] {
      OthersHas(ps[..|ps| - 1], text, r);
      assert ps == ps[..|ps| - 1] + [ps[|ps| - 1]];
    }
  }

  lemma {:induction false} OthersShrinks(ps: seq<PatternRoute>, text: string)
    ensures |Others(ps, text)| <= |ps|
    ensures (exists i :: 0 <= i < |ps| && ps[i].pattern.core == text) ==> |Others(ps, text)| < |ps|
  {
    if ps != [] {
      var n := |ps| - 1;
      OthersShrinks(ps[..n], text);
      if i :| 0 <= i < |ps| && ps[i].pattern.core == text {
        assert i < n ==> ps[..n][i].pattern.core == text;
      }
    }
  }

  lemma OthersOfAppend(ps: seq<PatternRoute>, r: PatternRoute, text: string)
    ensures Others(ps + [r], text) == if r.pattern.core != text then Others(ps, text) + [r] else Others(ps, text)
  {
    assert (ps + [r])[..|ps|] == ps;
  }

  // A removed and re-appended route cannot give back a list that had it removed.
  lemma {:induction false} NoFixpoint(ps: seq<PatternRoute>, r: PatternRoute, text: string)
    requires r.pattern.core != text
    ensures Others(ps, text) + [r] != ps
  {
    if ps != [] && Others(ps, text) + [r] == ps {
      var n := |ps| - 1;
      assert ps[n] == r && ps == ps[..n] + [r];
      OthersOfAppend(ps[..n], r, text);
      assert Others(ps[..n], text) + [r] == ps[..n];
      NoFixpoint(ps[..n], r, text);
    }
  }

  // Only a pattern with its stars in the middle is stored as it is written.
  lemma CoreIsPattern(p: string)
    requires Starry(p) && p != "*"
    ensures Classify(p).core == p <==> p[0] != '*' && p[|p| - 1] != '*'
  {
    if p[0] == '*' && p[|p| - 1] == '*' {
      assert |TrimLeft(p)| <= |p[1..]| < |p|;
    }
  }

  // Whether RemoveRoute of the pattern undoes AddRoute of it on this table.
  predicate Undoes(t: Table, pattern: string, route: Route) {
    var p := Lower(pattern);
    if pattern == "*" then t.wildcard.None?
    else
      && pattern !in t.exact
      && !HasCore(t, pattern)
      && if Starry(p) then p == pattern && p[0] != '*' && p[|p| - 1] != '*'
         else p == pattern || (p in t.exact && t.exact[p] == route)
  }

  /**
   On every table: RemoveRoute undoes AddRoute of the same pattern exactly if
   neither a name nor a stored pattern had its text before, and the pattern is
   lower-case without a star at either end (or, for a name with capitals, if the
   route was there already). It compares with the stored text, which AddRoute has
   lower-cased and stripped of its outer stars.
   */
  lemma RemoveUndoesAdd(t: Table, pattern: string, route: Route)
    ensures Remove(Add(t, pattern, route), pattern) == t <==> Undoes(t, pattern, route)
  {
    LowerStar(pattern);
    if pattern == "*" {
      assert Lower(pattern) == "*";
    } else if Starry(Lower(pattern)) {
      UndoesPattern(t, pattern, route);
    } else {
      UndoesExact(t, pattern, route);
    }
  }

  lemma NothingToDelete(t: Table, text: string)
    ensures Others(t.patterns, text) == t.patterns <==> !HasCore(t, text)
    ensures t.exact - {text} == t.exact <==> text !in t.exact
  {
    OthersShrinks(t.patterns, text);
    if !HasCore(t, text) {
      OthersKeepsAll(t.patterns, text);
    }
    if text in t.exact {
      assert text !in t.exact - {text};
    } else {
      assert t.exact - {text} == t.exact;
    }
  }

  lemma UndoesExact(t: Table, pattern: string, route: Route)
    requires pattern != "*" && !Starry(Lower(pattern))
    ensures Remove(Add(t, pattern, route), pattern) == t <==> Undoes(t, pattern, route)
  {
    var p := Lower(pattern);
    var u := Remove(Add(t, pattern, route), pattern);
    NothingToDelete(t, pattern);
    assert u.patterns == Others(t.patterns, pattern) && u.exact == t.exact[p := route] - {pattern};
    assert pattern !in u.exact;
    assert p != pattern ==> p in u.exact && u.exact[p] == route;
    if Undoes(t, pattern, route) {
      assert u.exact == t.exact;
    }
  }

  lemma UndoesPattern(t: Table, pattern: string, route: Route)
    requires pattern != "*" && Starry(Lower(pattern)) && Lower(pattern) != "*"
    ensures Remove(Add(t, pattern, route), pattern) == t <==> Undoes(t, pattern, route)
  {
    var p := Lower(pattern);
    var r := PatternRoute(Classify(p), route);
    var u := Remove(Add(t, pattern, route), pattern);
    assert u == Table(t.exact - {pattern}, Others(t.patterns + [r], pattern), t.wildcard);
    OthersOfAppend(t.patterns, r, pattern);
    NothingToDelete(t, pattern);
    CoreIsPattern(p);
    ClassifyShrinks(p);
    if r.pattern.core != pattern {
      NoFixpoint(t.patterns, r, pattern);
    }
  }

  // ------------------------------------------------- what RemoveRoute deletes

  /**
   RemoveRoute of a text other than the catch-all deletes exactly the exact route
   of that name and every pattern route whose stored text it is.
   */
  lemma RemoveDeletes(t: Table, text: string, name: string, r: PatternRoute)
    requires text != "*"
    ensures var u := Remove(t, text);
            && (name in u.exact <==> name in t.exact && name != text)
            && (name in u.exact ==> u.exact[name] == t.exact[name])
            && (r in u.patterns <==> r in t.patterns && r.pattern.core != text)
            && u.wildcard == t.wildcard
  {
    OthersHas(t.patterns, text, r);
  }

  lemma {:induction false} TrimStars(n: nat, r: string)
    requires r == "" || r[0] != '*'
    ensures TrimLeft(Stars(n) + r) == r
  {
    if n == 0 {
      assert Stars(n) + r == r;
    } else {
      TrimStars(n - 1, r);
      assert (Stars(n) + r)[1..] == Stars(n - 1) + r;
    }
  }

  lemma {:induction false} TrimTail(q: string, n: nat)
    requires q == "" || q[|q| - 1] != '*'
    ensures TrimRight(q + Stars(n)) == q
  {
    if n == 0 {
      assert q + Stars(n) == q;
    } else {
      TrimTail(q, n - 1);
      StarsEnd(n - 1);
      var s := q + Stars(n);
      assert s[..|s| - 1] == q + Stars(n - 1) && s[|s| - 1] == '*';
    }
  }

  /**
   The patterns stored under a given name, and so deleted with it: the name with a
   star after it, with a star before it, or with any stars on both sides.
   */
  lemma StoredUnder(p: string, q: string)
    requires IsPattern(p) && q != "" && !Starry(q)
    ensures Classify(p).core == q <==>
              || p == q + "*"
              || p == "*" + q
              || exists a, b :: a > 0 && b > 0 && p == Stars(a) + (q + Stars(b))
  {
    assert q[0] != '*' && q[|q| - 1] != '*';
    var t := Classify(p);
    if t.core == q {
      match t.kind
      case Contains =>
        var a, b := TrimParts(p);
        assert a > 0 && b > 0 && p == Stars(a) + (q + Stars(b));
      case Suffix => assert p == "*" + p[1..];
      case Prefix => assert p == p[..|p| - 1] + "*";
      case Wildcard =>
    }
    if p == q + "*" {
      assert p[0] == q[0] && p[..|p| - 1] == q;
    }
    if p == "*" + q {
      assert p[|p| - 1] == q[|q| - 1] && p[1..] == q;
    }
    if a, b :| a > 0 && b > 0 && p == Stars(a) + (q + Stars(b)) {
      StarEnds(a, q, b);
      assert (q + Stars(b))[0] == q[0];
      TrimStars(a, q + Stars(b));
      TrimTail(q, b);
    }
  }

  lemma StarEnds(a: nat, q: string, b: nat)
    requires a > 0 && b > 0
    ensures var p := Stars(a) + (q + Stars(b)); p[0] == '*' && p[|p| - 1] == '*'
  {
    StarsEnd(b - 1);
    assert Stars(b)[b - 1] == '*';
  }

  // So removing a plain name takes with it the prefix, suffix and contains
  // patterns that were added around the name.
  lemma RemoveTakesPatterns(q: string, r1: Route, r2: Route, r3: Route)
    requires q != "" && !Starry(q) && Lower(q) == q
    ensures var t := Add(Add(Add(Empty(), q + "*", r1), "*" + q, r2), "*" + q + "*", r3);
            |t.patterns| == 3 && Remove(t, q) == Empty()
  {
    hide Classify, Lower, Others, Starry;
    LowerAround(q);
    var p1, p2, p3 := q + "*", "*" + q, "*" + q + "*";
    assert Stars(1) == "*" && p3 == Stars(1) + (q + Stars(1));
    StoredUnder(p1, q);
    StoredUnder(p2, q);
    StoredUnder(p3, q);
    var s1, s2, s3 := PatternRoute(Classify(p1), r1), PatternRoute(Classify(p2), r2), PatternRoute(Classify(p3), r3);
    var t1 := Add(Empty(), p1, r1);
    AddsPattern(Empty(), p1, r1);
    AddsPattern(t1, p2, r2);
    AddsPattern(Add(t1, p2, r2), p3, r3);
    OthersOfAppend(Empty().patterns, s1, q);
    OthersOfAppend(t1.patterns, s2, q);
    OthersOfAppend(t1.patterns + [s2], s3, q);
    OthersKeepsAll([], q);
    assert Empty().exact - {q} == Empty().exact;
    PlainIsNotStar(q);
  }

  lemma AddsPattern(t: Table, p: string, r: Route)
    requires Lower(p) == p && IsPattern(p)
    ensures Add(t, p, r) == t.(patterns := t.patterns + [PatternRoute(Classify(p), r)])
  {
  }

  lemma PlainIsNotStar(q: string)
    requires !Starry(q)
    ensures q != "*"
  {
    assert '*' in "*";
  }

  lemma LowerAround(q: string)
    requires q != "" && !Starry(q) && Lower(q) == q
    ensures forall p :: p in {q + "*", "*" + q, "*" + q + "*"} ==> Lower(p) == p && IsPattern(p)
  {
    forall p | p in {q + "*", "*" + q, "*" + q + "*"} ensures Lower(p) == p && IsPattern(p) {
      forall i | 0 <= i < |p| ensures LowerChar(p[i]) == p[i] {
        if p[i] != '*' {
          var j := if p == q + "*" then i else i - 1;
          assert Lower(q)[j] == q[j];
        }
      }
      assert '*' in p by { assert p[0] == '*' || p[|p| - 1] == '*'; }
      assert p != "*" by { assert |p| > 1; }
    }
  }

  lemma LowerStar(s: string)
    ensures Lower(s) == "*" <==> s == "*"
    ensures Starry(s) <==> Starry(Lower(s))
  {
    forall i | 0 <= i < |s| ensures Lower(s)[i] == '*' <==> s[i] == '*' {}
    if Lower(s) == "*" {
      assert Lower(s)[0] == '*';
    }
    if s == "*" {
      assert Lower(s) == "*";
    }
    if Starry(s) {
      var i :| 0 <= i < |s| && s[i] == '*';
      assert Lower(s)[i] == '*';
    }
  }

  lemma ClassifyShrinks(p: string)
    requires p != ""
    ensures |Classify(p).core| <= |p|
    ensures |Classify(p).core| == |p| ==> Classify(p).core == p
  {
    if p[0] == '*' && p[|p| - 1] == '*' {
      assert |TrimLeft(p)| <= |p[1..]| < |p|;
    }
  }
}

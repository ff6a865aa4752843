/**
 The name patterns of proxy/router.go: how AddRoute classifies a pattern, how a
 stored pattern is matched and printed, and how that compares with globbing.
 */
module Patterns {
  import opened Common

  datatype Kind = Prefix | Suffix | Contains | Wildcard

  // A stored pattern: its kind and what is left of it.
  datatype Stored = Stored(kind: Kind, core: string)

  // ASCII lower case.
  function Lower(s: string): (r: string)
    ensures |r| == |s|
    ensures forall i :: 0 <= i < |r| ==> !('A' <= r[i] <= 'Z') && (r[i] == s[i] || IsCapitalOf(s[i], r[i]))
  {
    seq(|s|, i requires 0 <= i < |s| => LowerChar(s[i]))
  }

  function LowerChar(c: char): char {
    if 'A' <= c <= 'Z' then (c as int + 32) as char else c
  }

  // The first is an ASCII capital and the second the small letter that goes with it.
  predicate IsCapitalOf(c: char, d: char) {
    'A' <= c <= 'Z' && d as int == c as int + 32
  }

  // The strings differ in the case of ASCII letters at most.
  predicate SameButCase(s: string, t: string) {
    |s| == |t| && forall i :: 0 <= i < |s| ==> s[i] == t[i] || IsCapitalOf(s[i], t[i]) || IsCapitalOf(t[i], s[i])
  }

  // Lower forgets the case of ASCII letters and nothing else.
  lemma LowerForgetsCase(s: string, t: string)
    ensures Lower(s) == Lower(t) <==> SameButCase(s, t)
  {
    if SameButCase(s, t) {
      forall i | 0 <= i < |s| ensures Lower(s)[i] == Lower(t)[i] {}
    } else if |s| == |t| {
      var i :| 0 <= i < |s| && !(s[i] == t[i] || IsCapitalOf(s[i], t[i]) || IsCapitalOf(t[i], s[i]));
      assert Lower(s)[i] != Lower(t)[i];
    } else {
      assert |Lower(s)| != |Lower(t)|;
    }
  }

  predicate Starry(s: string) {
    '*' in s
  }

  function TrimLeft(s: string): (r: string)
    ensures |r| <= |s|
  {
    if s != "" && s[0] == '*' then TrimLeft(s[1..]) else s
  }

  function TrimRight(s: string): (r: string)
    ensures |r| <= |s|
  {
    if s != "" && s[|s| - 1] == '*' then TrimRight(s[..|s| - 1]) else s
  }

  function Trim(s: string): string {
    TrimRight(TrimLeft(s))
  }

  // AddRoute's choice for a pattern that holds a star and is not "*" itself.
  function Classify(p: string): Stored
    requires p != ""
  {
    if p[0] == '*' && p[|p| - 1] == '*' then Stored(Contains, Trim(p))
    else if p[0] == '*' then Stored(Suffix, p[1..])
    else if p[|p| - 1] == '*' then Stored(Prefix, p[..|p| - 1])
    else Stored(Wildcard, p)
  }

  // General globbing: a star stands for any characters, the rest for themselves.
  predicate Glob(p: string, s: string)
    decreases |p| + |s|
  {
    if p == "" then s == ""
    else if p[0] == '*' then Glob(p[1..], s) || (s != "" && Glob(p, s[1..]))
    else s != "" && s[0] == p[0] && Glob(p[1..], s[1..])
  }

  predicate Occurs(core: string, s: string) {
    core <= s || (s != "" && Occurs(core, s[1..]))
  }

  predicate Matches(t: Stored, name: string) {
    match t.kind
    case Prefix => t.core <= name
    case Suffix => |t.core| <= |name| && name[|name| - |t.core|..] == t.core
    case Contains => Occurs(t.core, name)
    case Wildcard => Glob(t.core, name)
  }

  // GetAllRoutes' key for a stored pattern.
  function Printed(t: Stored): string {
    match t.kind
    case Prefix => t.core + "*"
    case Suffix => "*" + t.core
    case Contains => "*" + t.core + "*"
    case Wildcard => t.core
  }

  // ------------------------------------------------------- facts about globs

  function Stars(n: nat): (s: string)
    ensures |s| == n
  {
    if n == 0 then "" else "*" + Stars(n - 1)
  }

  lemma {:induction false} GlobLiteral(q: string, s: string)
    requires !Starry(q)
    ensures Glob(q, s) <==> q == s
  {
    if q != "" && s != "" {
      GlobLiteral(q[1..], s[1..]);
      assert q == [q[0]] + q[1..] && s == [s[0]] + s[1..];
    }
  }

  lemma {:induction false} GlobStars(n: nat, s: string)
    requires n > 0
    ensures Glob(Stars(n), s)
    decreases n, |s|
  {
    if s == "" {
      if n > 1 { GlobStars(n - 1, s); }
    } else {
      GlobStars(n, s[1..]);
    }
  }

  // A literal followed by stars is a prefix test.
  lemma {:induction false} GlobPrefix(q: string, n: nat, s: string)
    requires !Starry(q) && n > 0
    ensures Glob(q + Stars(n), s) <==> q <= s
    decreases |q|
  {
    if q == "" {
      assert q + Stars(n) == Stars(n);
      GlobStars(n, s);
    } else {
      assert (q + Stars(n))[1..] == q[1..] + Stars(n);
      if s != "" {
        GlobPrefix(q[1..], n, s[1..]);
        assert s[0] == q[0] && q[1..] <= s[1..] ==> q <= s by {
          assert q == [q[0]] + q[1..] && s == [s[0]] + s[1..];
        }
      }
    }
  }

  lemma GlobStar(p: string, s: string)
    requires p != "" && p[0] == '*'
    ensures Glob(p, s) <==> Glob(p[1..], s) || (s != "" && Glob(p, s[1..]))
  {
  }

  predicate GlobsTail(r: string, s: string) {
    exists i :: 0 <= i <= |s| && Glob(r, s[i..])
  }

  lemma GlobsTailCons(r: string, s: string)
    ensures GlobsTail(r, s) <==> Glob(r, s) || (s != "" && GlobsTail(r, s[1..]))
  {
    hide Glob;
    assert s[0..] == s;
    if GlobsTail(r, s) && !Glob(r, s) {
      var i :| 0 <= i <= |s| && Glob(r, s[i..]);
      assert s[1..][i - 1..] == s[i..];
    }
    if s != "" && GlobsTail(r, s[1..]) {
      var i :| 0 <= i <= |s[1..]| && Glob(r, s[1..][i..]);
      assert s[1..][i..] == s[i + 1..];
    }
  }

  // Leading stars skip any number of characters: the rest matches some tail.
  lemma {:induction false} GlobSkips(n: nat, r: string, s: string)
    requires n > 0
    ensures Glob(Stars(n) + r, s) <==> GlobsTail(r, s)
    decreases n, |s|
  {
    hide Glob, GlobsTail;
    var p := Stars(n) + r;
    assert p[1..] == Stars(n - 1) + r;
    GlobStar(p, s);
    GlobsTailCons(r, s);
    if n == 1 {
      assert p[1..] == r;
    } else {
      GlobSkips(n - 1, r, s);
    }
    if s != "" {
      GlobSkips(n, r, s[1..]);
    }
  }

  lemma {:induction false} OccursSomewhere(core: string, s: string)
    ensures Occurs(core, s) <==> exists i :: 0 <= i <= |s| && core <= s[i..]
  {
    assert s[0..] == s;
    if s != "" {
      OccursSomewhere(core, s[1..]);
      forall i | 0 <= i <= |s| - 1 ensures s[1..][i..] == s[i + 1..] {}
      if Occurs(core, s[1..]) {
        var i :| 0 <= i <= |s[1..]| && core <= s[1..][i..];
        assert core <= s[i + 1..];
      }
      if exists i :: 1 <= i <= |s| && core <= s[i..] {
        var i :| 1 <= i <= |s| && core <= s[i..];
        assert core <= s[1..][i - 1..];
      }
    }
  }

  // --------------------------------------------------------------- trimming

  lemma {:induction false} TrimLeftParts(s: string) returns (n: nat)
    ensures s == Stars(n) + TrimLeft(s)
    ensures s != "" && s[0] == '*' ==> n > 0
    ensures TrimLeft(s) != "" ==> TrimLeft(s)[0] != '*'
  {
    if s != "" && s[0] == '*' {
      var m := TrimLeftParts(s[1..]);
      n := m + 1;
      assert s == "*" + s[1..];
    } else {
      n := 0;
    }
  }

  lemma {:induction false} StarsEnd(n: nat)
    ensures Stars(n + 1) == Stars(n) + "*"
  {
    if n > 0 { StarsEnd(n - 1); }
  }

  lemma {:induction false} TrimRightParts(s: string) returns (n: nat)
    ensures s == TrimRight(s) + Stars(n)
    ensures s != "" && s[|s| - 1] == '*' ==> n > 0
    ensures TrimRight(s) != "" ==> TrimRight(s)[|TrimRight(s)| - 1] != '*'
    ensures TrimRight(s) <= s
  {
    if s != "" && s[|s| - 1] == '*' {
      var m := TrimRightParts(s[..|s| - 1]);
      n := m + 1;
      StarsEnd(m);
      assert s == s[..|s| - 1] + "*";
    } else {
      n := 0;
    }
  }

  // A pattern with stars at both ends is stars, its core, and stars again.
  lemma TrimParts(p: string) returns (a: nat, b: nat)
    requires p != "" && p[0] == '*' && p[|p| - 1] == '*'
    ensures a > 0 && p == Stars(a) + (Trim(p) + Stars(b))
    ensures Trim(p) != "" ==> b > 0
    ensures Trim(p) != "" ==> Trim(p)[0] != '*' && Trim(p)[|Trim(p)| - 1] != '*'
  {
    a := TrimLeftParts(p);
    b := TrimRightParts(TrimLeft(p));
    if Trim(p) != "" {
      assert TrimLeft(p)[|TrimLeft(p)| - 1] == p[|p| - 1];
      assert Trim(p)[0] == TrimLeft(p)[0];
    }
  }
}

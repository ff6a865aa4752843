/**
 What AddRoute's fast pattern forms mean: exactly when they agree with globbing,
 and exactly when GetAllRoutes prints a pattern back as it was added.
 */
module PatternTheorems {
  import opened Common
  import opened Patterns

  // ------------------------------------------------ the fast forms and globs

  lemma SuffixIsGlob(core: string, s: string)
    requires !Starry(core)
    ensures Matches(Stored(Suffix, core), s) <==> Glob("*" + core, s)
  {
    assert Stars(1) == "*";
    GlobSkips(1, core, s);
    forall i | 0 <= i <= |s| ensures Glob(core, s[i..]) <==> core == s[i..] {
      GlobLiteral(core, s[i..]);
    }
    if Matches(Stored(Suffix, core), s) {
      assert Glob(core, s[|s| - |core|..]);
    }
  }

  lemma ContainsIsGlob(a: nat, core: string, b: nat, s: string)
    requires !Starry(core) && a > 0 && (core != "" ==> b > 0)
    ensures Occurs(core, s) <==> Glob(Stars(a) + (core + Stars(b)), s)
  {
    GlobSkips(a, core + Stars(b), s);
    OccursSomewhere(core, s);
    assert s[0..] == s && s[|s|..] == "";
    if b == 0 {
      assert core + Stars(b) == "";
      assert Glob("", s[|s|..]);
      assert core <= s[0..];
    } else {
      forall i | 0 <= i <= |s| ensures Glob(core + Stars(b), s[i..]) <==> core <= s[i..] {
        GlobPrefix(core, b, s[i..]);
      }
    }
  }

  // A stored pattern whose core holds no star decides what globbing decides.
  lemma StarFreeCoreIsGlob(p: string, s: string)
    requires p != "" && (Classify(p).kind.Wildcard? || !Starry(Classify(p).core))
    ensures Matches(Classify(p), s) <==> Glob(p, s)
  {
    var t := Classify(p);
    match t.kind
    case Contains =>
      var a, b := TrimParts(p);
      ContainsIsGlob(a, t.core, b, s);
    case Suffix =>
      assert p == "*" + t.core;
      SuffixIsGlob(t.core, s);
    case Prefix =>
      assert Stars(1) == "*" && p == t.core + Stars(1);
      GlobPrefix(t.core, 1, s);
    case Wildcard =>
  }

  // The pattern with its stars deleted.
  function Bare(p: string): string {
    if p == "" then "" else if p[0] == '*' then Bare(p[1..]) else [p[0]] + Bare(p[1..])
  }

  lemma {:induction false} BareIsGlobbed(p: string)
    ensures Glob(p, Bare(p)) && !Starry(Bare(p))
  {
    if p != "" {
      BareIsGlobbed(p[1..]);
      if p[0] != '*' {
        assert Bare(p)[1..] == Bare(p[1..]);
      }
    }
  }

  lemma MatchHoldsCore(t: Stored, s: string)
    requires Matches(t, s) && !t.kind.Wildcard? && Starry(t.core)
    ensures Starry(s)
  {
    var k :| 0 <= k < |t.core| && t.core[k] == '*';
    match t.kind
    case Prefix => assert s[k] == '*';
    case Suffix => assert s[|s| - |t.core|..][k] == '*';
    case Contains =>
      OccursSomewhere(t.core, s);
      var i :| 0 <= i <= |s| && t.core <= s[i..];
      assert s[i..][k] == '*' && s[i + k] == '*';
  }

  /**
   The three fast forms agree with globbing on every database name exactly when
   no star is left inside what AddRoute stores. Otherwise the stars left in the
   core are matched as characters, and the pattern with its stars deleted is a
   name that the glob takes and the fast form does not.
   */
  lemma FastFormExact(p: string)
    requires p != ""
    ensures (forall s :: Matches(Classify(p), s) <==> Glob(p, s))
       <==> (Classify(p).kind.Wildcard? || !Starry(Classify(p).core))
    ensures !Classify(p).kind.Wildcard? && Starry(Classify(p).core) ==>
              Glob(p, Bare(p)) && !Matches(Classify(p), Bare(p))
  {
    if Classify(p).kind.Wildcard? || !Starry(Classify(p).core) {
      forall s ensures Matches(Classify(p), s) <==> Glob(p, s) {
        StarFreeCoreIsGlob(p, s);
      }
    } else {
      BareIsGlobbed(p);
      if Matches(Classify(p), Bare(p)) {
        MatchHoldsCore(Classify(p), Bare(p));
      }
    }
  }

  // ------------------------------------------------------- printing them back

  /**
   GetAllRoutes prints a pattern route back as it was added, except a pattern
   with stars at both ends whose inside again begins or ends with a star.
   */
  lemma PrintsBack(p: string)
    requires Starry(p) && p != "*"
    ensures Printed(Classify(p)) == p
       <==> !(p[0] == '*' && p[|p| - 1] == '*' && |p| > 2 && (p[1] == '*' || p[|p| - 2] == '*'))
  {
    if Classify(p).kind.Contains? {
      PrintsContains(p);
    } else if Classify(p).kind.Suffix? {
      assert p == "*" + p[1..];
    } else if Classify(p).kind.Prefix? {
      assert p == p[..|p| - 1] + "*";
    }
  }

  lemma TrimDoesNothing(s: string)
    requires s != "" ==> s[0] != '*' && s[|s| - 1] != '*'
    ensures Trim(s) == s
  {
  }

  lemma TrimBothEnds(p: string)
    requires |p| >= 2 && p[0] == '*' && p[|p| - 1] == '*'
    requires |p| > 2 ==> p[1] != '*' && p[|p| - 2] != '*'
    ensures Trim(p) == p[1..|p| - 1]
  {
    var mid := p[1..|p| - 1];
    if mid == "" {
      assert p == "**";
      assert TrimLeft(p) == TrimLeft("*") == TrimLeft("") == "";
    } else {
      assert TrimLeft(p) == p[1..];
      assert p[1..][..|p| - 2] == mid;
      TrimDoesNothing(mid);
    }
  }

  lemma PrintsContains(p: string)
    requires |p| >= 2 && p[0] == '*' && p[|p| - 1] == '*'
    ensures "*" + Trim(p) + "*" == p <==> !(|p| > 2 && (p[1] == '*' || p[|p| - 2] == '*'))
  {
    if |p| > 2 && (p[1] == '*' || p[|p| - 2] == '*') {
      var a, b := TrimParts(p);
      var r := "*" + Trim(p) + "*";
      assert |r| == 2 || (r[1] != '*' && r[|r| - 2] != '*');
    } else {
      TrimBothEnds(p);
    }
  }
}

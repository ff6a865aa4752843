/**
 What the cache promises over whole histories of calls: eviction by recency,
 answers that are always the last value stored, a sweep that removes exactly
 the expired entries, and inclusion of a smaller cache in a larger one.
 */
module LruTheorems {
  import opened Common
  import opened Lru

  // ------------------------------------------------------------- last values

  // The value most recently stored under k and not removed or cleared since.
  function LastStored<K(==), V>(ops: seq<Timed<K, V>>, k: K): Option<V> {
    if ops == [] then None
    else
      var n := |ops| - 1;
      match ops[n].op
      case OpAdd(x, v) => if x == k then Some(v) else LastStored(ops[..n], k)
      case OpRemove(x) => if x == k then None else LastStored(ops[..n], k)
      case OpClear => None
      case _ => LastStored(ops[..n], k)
  }

  // Distinct keys do not depend on the clock.
  lemma ApplyKeepsDistinct<K, V>(c: Cache<K, V>, t: Timed<K, V>)
    requires Distinct(c.entries)
    ensures Distinct(Apply(c, t).entries) && Apply(c, t).limit == c.limit && Apply(c, t).ttl == c.ttl
  {
    hide Without, Find, Has;
    match t.op
    case OpAdd(k, v) =>
      WithoutIsSplice(c.entries, k);
      PushKeepsDistinct(Without(c.entries, k), Entry(k, v, t.now + c.ttl));
    case OpGet(k) =>
      WithoutIsSplice(c.entries, k);
      var i := Find(c.entries, k);
      if i < |c.entries| {
        PushKeepsDistinct(Without(c.entries, k), Entry(k, c.entries[i].value, t.now + c.ttl));
      }
    case OpRemove(k) => WithoutIsSplice(c.entries, k);
    case _ =>
  }

  lemma {:induction false} RunDistinct<K, V>(limit: nat, ttl: nat, ops: seq<Timed<K, V>>)
    ensures Distinct(Run(limit, ttl, ops).entries)
    ensures Run(limit, ttl, ops).limit == limit && Run(limit, ttl, ops).ttl == ttl
  {
    if ops != [] {
      RunDistinct(limit, ttl, ops[..|ops| - 1]);
      ApplyKeepsDistinct(Run(limit, ttl, ops[..|ops| - 1]), ops[|ops| - 1]);
    }
  }

  lemma PeekAfterGet<K, V>(c: Cache<K, V>, k: K, now: int, x: K)
    requires Distinct(c.entries)
    ensures Peek(Get(c, k, now), x) == Peek(c, x)
  {
    var i := Find(c.entries, k);
    if i < |c.entries| {
      FindAfterWithout(c.entries, k, x);
      var es := Get(c, k, now).entries;
      var p := Find(es, x);
      var q := Find(Without(c.entries, k), x);
      if x != k {
        if q < |Without(c.entries, k)| {
          assert es[q + 1].key == x;
        }
        if p < |es| {
          assert es[p] == Without(c.entries, k)[p - 1];
        }
        assert p == q + 1;
      } else {
        assert es[0].key == x;
        assert p == 0;
      }
    }
  }

  lemma PeekAfterRemove<K, V>(c: Cache<K, V>, k: K, x: K)
    requires Distinct(c.entries)
    ensures Peek(Remove(c, k), x) == if x == k then None else Peek(c, x)
  {
    FindAfterWithout(c.entries, k, x);
  }

  lemma PeekAfterExpire<K, V>(c: Cache<K, V>, now: int, x: K)
    ensures Peek(Expire(c, now), x).Some? ==> Peek(Expire(c, now), x) == Peek(c, x)
  {
    var es := Expire(c, now).entries;
    var p := Find(es, x);
    if p < |es| {
      assert es[p] == c.entries[p];
    }
  }

  // A hit is always the last value stored, whatever was evicted or expired.
  lemma {:induction false} HitIsLastStored<K, V>(limit: nat, ttl: nat, ops: seq<Timed<K, V>>, k: K)
    ensures Peek(Run(limit, ttl, ops), k).Some? ==> Peek(Run(limit, ttl, ops), k) == LastStored(ops, k)
  {
    if ops != [] {
      var n := |ops| - 1;
      var c := Run(limit, ttl, ops[..n]);
      HitIsLastStored(limit, ttl, ops[..n], k);
      RunDistinct(limit, ttl, ops[..n]);
      match ops[n].op
      case OpAdd(x, v) => PeekAfterAdd(c, x, v, ops[n].now, k);
      case OpGet(x) => PeekAfterGet(c, x, ops[n].now, k);
      case OpRemove(x) => PeekAfterRemove(c, x, k);
      case OpExpire => PeekAfterExpire(c, ops[n].now, k);
      case OpClear =>
    }
  }

  // ----------------------------------------------------------------- recency

  // A call uses k when it stores k or is a Get that finds k.
  predicate Uses<K(==), V>(c: Cache<K, V>, op: Op<K, V>, k: K) {
    match op
    case OpAdd(x, _) => x == k
    case OpGet(x) => x == k && Has(c.entries, k)
    case _ => false
  }

  // The position in the history of the last use of k, or -1.
  function LastUse<K(==), V>(limit: nat, ttl: nat, ops: seq<Timed<K, V>>, k: K): (u: int)
    ensures -1 <= u < |ops|
  {
    if ops == [] then -1
    else
      var n := |ops| - 1;
      if Uses(Run(limit, ttl, ops[..n]), ops[n].op, k) then n
      else LastUse(limit, ttl, ops[..n], k)
  }

  predicate ByRecency<K(==), V>(limit: nat, ttl: nat, ops: seq<Timed<K, V>>, es: seq<Entry<K, V>>) {
    && (forall i :: 0 <= i < |es| ==> LastUse(limit, ttl, ops, es[i].key) >= 0)
    && (forall i, j :: 0 <= i < j < |es| ==>
          LastUse(limit, ttl, ops, es[i].key) > LastUse(limit, ttl, ops, es[j].key))
  }

  // Entries that the last call did not use keep their order.
  lemma OrderCarries<K, V>(limit: nat, ttl: nat, ops: seq<Timed<K, V>>, es: seq<Entry<K, V>>)
    requires ops != [] && ByRecency(limit, ttl, ops[..|ops| - 1], es)
    requires forall i :: 0 <= i < |es| ==>
               !Uses(Run(limit, ttl, ops[..|ops| - 1]), ops[|ops| - 1].op, es[i].key)
    ensures ByRecency(limit, ttl, ops, es)
  {
    forall i | 0 <= i < |es|
      ensures LastUse(limit, ttl, ops, es[i].key) == LastUse(limit, ttl, ops[..|ops| - 1], es[i].key)
    {}
  }

  lemma WithoutKeepsRecency<K, V>(limit: nat, ttl: nat, ops: seq<Timed<K, V>>, es: seq<Entry<K, V>>, k: K)
    requires ByRecency(limit, ttl, ops, es)
    ensures ByRecency(limit, ttl, ops, Without(es, k))
  {
    var i := Find(es, k);
    var r := Without(es, k);
    if i < |es| {
      forall j | 0 <= j < |r| ensures r[j] == es[if j < i then j else j + 1] {}
    }
  }

  lemma UsedGoesFirst<K, V>(limit: nat, ttl: nat, ops: seq<Timed<K, V>>, es: seq<Entry<K, V>>, e: Entry<K, V>)
    requires ops != [] && ByRecency(limit, ttl, ops[..|ops| - 1], es) && !Has(es, e.key)
    requires Uses(Run(limit, ttl, ops[..|ops| - 1]), ops[|ops| - 1].op, e.key)
    ensures ByRecency(limit, ttl, ops, [e] + es)
  {
    var n := |ops| - 1;
    forall i | 0 <= i < |es| ensures !Uses(Run(limit, ttl, ops[..n]), ops[n].op, es[i].key) {
      assert es[i].key != e.key;
    }
    OrderCarries(limit, ttl, ops, es);
    var r := [e] + es;
    forall j | 1 <= j < |r|
      ensures r[j] == es[j - 1] && LastUse(limit, ttl, ops, r[j].key) < n
    {
      assert LastUse(limit, ttl, ops, es[j - 1].key) == LastUse(limit, ttl, ops[..n], es[j - 1].key);
    }
  }

  lemma PrefixKeepsRecency<K, V>(limit: nat, ttl: nat, ops: seq<Timed<K, V>>, es: seq<Entry<K, V>>, n: nat)
    requires ByRecency(limit, ttl, ops, es) && n <= |es|
    ensures ByRecency(limit, ttl, ops, es[..n])
  {
  }

  lemma MoveKeepsRecency<K, V>(limit: nat, ttl: nat, ops: seq<Timed<K, V>>, e: Entry<K, V>)
    requires ops != []
    requires ByRecency(limit, ttl, ops[..|ops| - 1], Run(limit, ttl, ops[..|ops| - 1]).entries)
    requires Uses(Run(limit, ttl, ops[..|ops| - 1]), ops[|ops| - 1].op, e.key)
    ensures ByRecency(limit, ttl, ops, [e] + Without(Run(limit, ttl, ops[..|ops| - 1]).entries, e.key))
  {
    var n := |ops| - 1;
    var es := Run(limit, ttl, ops[..n]).entries;
    RunDistinct(limit, ttl, ops[..n]);
    WithoutIsSplice(es, e.key);
    WithoutKeepsRecency(limit, ttl, ops[..n], es, e.key);
    UsedGoesFirst(limit, ttl, ops, Without(es, e.key), e);
  }

  // An Add or a Get hit puts one entry in front and may drop the back.
  lemma UsedShape<K, V>(c: Cache<K, V>, t: Timed<K, V>, k: K) returns (e: Entry<K, V>, n: nat)
    requires Uses(c, t.op, k)
    ensures e.key == k && e.expiry == t.now + c.ttl && n <= |[e] + Without(c.entries, k)|
    ensures Apply(c, t).entries == ([e] + Without(c.entries, k))[..n]
  {
    var v := if t.op.OpAdd? then t.op.v else c.entries[Find(c.entries, k)].value;
    e := Entry(k, v, t.now + c.ttl);
    n := |Apply(c, t).entries|;
  }

  lemma UseKeepsRecency<K, V>(limit: nat, ttl: nat, ops: seq<Timed<K, V>>, k: K)
    requires ops != [] && Uses(Run(limit, ttl, ops[..|ops| - 1]), ops[|ops| - 1].op, k)
    requires ByRecency(limit, ttl, ops[..|ops| - 1], Run(limit, ttl, ops[..|ops| - 1]).entries)
    ensures ByRecency(limit, ttl, ops, Run(limit, ttl, ops).entries)
  {
    var c := Run(limit, ttl, ops[..|ops| - 1]);
    var e, n := UsedShape(c, ops[|ops| - 1], k);
    MoveKeepsRecency(limit, ttl, ops, e);
    PrefixKeepsRecency(limit, ttl, ops, [e] + Without(c.entries, k), n);
  }

  // The list is in order of last use, most recent first.
  lemma {:induction false} ListIsByRecency<K, V>(limit: nat, ttl: nat, ops: seq<Timed<K, V>>)
    ensures ByRecency(limit, ttl, ops, Run(limit, ttl, ops).entries)
  {
    if ops != [] {
      var n := |ops| - 1;
      var c := Run(limit, ttl, ops[..n]);
      ListIsByRecency(limit, ttl, ops[..n]);
      match ops[n].op
      case OpAdd(k, v) => UseKeepsRecency(limit, ttl, ops, k);
      case OpGet(k) =>
        if Has(c.entries, k) {
          UseKeepsRecency(limit, ttl, ops, k);
        } else {
          OrderCarries(limit, ttl, ops, c.entries);
        }
      case OpRemove(k) =>
        WithoutKeepsRecency(limit, ttl, ops[..n], c.entries, k);
        OrderCarries(limit, ttl, ops, Without(c.entries, k));
      case OpExpire =>
        var m := |Expire(c, ops[n].now).entries|;
        PrefixKeepsRecency(limit, ttl, ops[..n], c.entries, m);
        OrderCarries(limit, ttl, ops, c.entries[..m]);
        assert Run(limit, ttl, ops).entries == c.entries[..m];
      case OpClear =>
    }
  }

  // An Add that finds the cache full loses exactly one key: the cached one whose
  // last use is the oldest of all, and never the key being added.
  lemma EvictionTakesTheOldest<K, V>(limit: nat, ttl: nat, ops: seq<Timed<K, V>>, k: K, v: V, now: int)
    requires limit != 0
    requires !Has(Run(limit, ttl, ops).entries, k) && |Run(limit, ttl, ops).entries| == limit
    ensures var es := Run(limit, ttl, ops).entries;
            var after := Add(Run(limit, ttl, ops), k, v, now);
            var victim := es[limit - 1].key;
            && victim != k
            && !Has(after.entries, victim)
            && (forall i :: 0 <= i < limit - 1 ==>
                  && LastUse(limit, ttl, ops, victim) < LastUse(limit, ttl, ops, es[i].key)
                  && Has(after.entries, es[i].key))
            && Has(after.entries, k)
  {
    ListIsByRecency(limit, ttl, ops);
    RunDistinct(limit, ttl, ops);
    var es := Run(limit, ttl, ops).entries;
    var after := Add(Run(limit, ttl, ops), k, v, now);
    assert after.entries == [Entry(k, v, now + ttl)] + es[..limit - 1];
    forall i | 0 <= i < limit - 1 ensures Has(after.entries, es[i].key) {
      assert after.entries[i + 1] == es[i];
    }
    assert after.entries[0].key == k;
  }

  // An Add that does not find the cache full loses nothing, and what it adds is there
  // with its value.
  lemma AddLosesNothing<K, V>(limit: nat, ttl: nat, ops: seq<Timed<K, V>>, k: K, v: V, now: int, x: K)
    requires Has(Run(limit, ttl, ops).entries, k) || limit == 0 || |Run(limit, ttl, ops).entries| < limit
    ensures var c := Run(limit, ttl, ops);
            Peek(Add(c, k, v, now), x) == if x == k then Some(v) else Peek(c, x)
  {
    hide Run, Add, Peek;
    RunDistinct(limit, ttl, ops);
    AddKeepsAll(Run(limit, ttl, ops), k, v, now, x);
  }

  lemma AddKeepsAll<K, V>(c: Cache<K, V>, k: K, v: V, now: int, x: K)
    requires Distinct(c.entries) && (Has(c.entries, k) || c.limit == 0 || |c.entries| < c.limit)
    ensures Peek(Add(c, k, v, now), x) == if x == k then Some(v) else Peek(c, x)
  {
    hide Without, Find, Add, Has;
    AddCases(c, k, v, now);
    WithoutIsSplice(c.entries, k);
    FindAfterWithout(c.entries, k, x);
    var rest := if Has(c.entries, k) then Without(c.entries, k) else c.entries;
    PeekAfterPush(rest, Entry(k, v, now + c.ttl), x);
  }

  lemma PeekAfterPush<K, V>(es: seq<Entry<K, V>>, e: Entry<K, V>, x: K)
    requires !Has(es, e.key)
    ensures Has([e] + es, x) <==> x == e.key || Has(es, x)
    ensures x == e.key ==> Find([e] + es, x) == 0
    ensures x != e.key && Has(es, x) ==> Find([e] + es, x) == 1 + Find(es, x)
  {
    var r := [e] + es;
    assert r[0] == e && r[1..] == es;
  }

  // ------------------------------------------------------------------ expiry

  // Every entry expires a time to live after the last use of its key.
  predicate ByLastUse<K(==), V>(limit: nat, ttl: nat, ops: seq<Timed<K, V>>, es: seq<Entry<K, V>>) {
    forall i :: 0 <= i < |es| ==>
      && LastUse(limit, ttl, ops, es[i].key) >= 0
      && es[i].expiry == ops[LastUse(limit, ttl, ops, es[i].key)].now + ttl
  }

  lemma ExpiryCarries<K, V>(limit: nat, ttl: nat, ops: seq<Timed<K, V>>, es: seq<Entry<K, V>>, rs: seq<Entry<K, V>>)
    requires ops != [] && ByLastUse(limit, ttl, ops[..|ops| - 1], es)
    requires forall i :: 0 <= i < |rs| ==> rs[i] in es
    requires forall i :: 0 <= i < |rs| ==>
               !Uses(Run(limit, ttl, ops[..|ops| - 1]), ops[|ops| - 1].op, rs[i].key)
    ensures ByLastUse(limit, ttl, ops, rs)
  {
    hide Uses;
    forall i | 0 <= i < |rs|
      ensures LastUse(limit, ttl, ops, rs[i].key) == LastUse(limit, ttl, ops[..|ops| - 1], rs[i].key)
    {}
  }

  lemma WithoutOthers<K, V>(es: seq<Entry<K, V>>, k: K)
    requires Distinct(es)
    ensures forall j :: 0 <= j < |Without(es, k)| ==> Without(es, k)[j] in es && Without(es, k)[j].key != k
  {
    WithoutIsSplice(es, k);
  }

  lemma UseSetsExpiry<K, V>(limit: nat, ttl: nat, ops: seq<Timed<K, V>>, k: K)
    requires ops != [] && Uses(Run(limit, ttl, ops[..|ops| - 1]), ops[|ops| - 1].op, k)
    requires ByLastUse(limit, ttl, ops[..|ops| - 1], Run(limit, ttl, ops[..|ops| - 1]).entries)
    ensures ByLastUse(limit, ttl, ops, Run(limit, ttl, ops).entries)
  {
    hide Without, Find, LastUse, Add, Get, ByLastUse;
    var n := |ops| - 1;
    var c := Run(limit, ttl, ops[..n]);
    var e, m := UsedShape(c, ops[n], k);
    RunDistinct(limit, ttl, ops[..n]);
    WithoutOthers(c.entries, k);
    ExpiryCarries(limit, ttl, ops, c.entries, Without(c.entries, k));
    PushExpiry(limit, ttl, ops, e, Without(c.entries, k), m);
  }

  // A key just used and entries that keep their expiries, or the front of that.
  lemma PushExpiry<K, V>(limit: nat, ttl: nat, ops: seq<Timed<K, V>>, e: Entry<K, V>, es: seq<Entry<K, V>>, m: nat)
    requires ops != [] && Uses(Run(limit, ttl, ops[..|ops| - 1]), ops[|ops| - 1].op, e.key)
    requires e.expiry == ops[|ops| - 1].now + ttl && ByLastUse(limit, ttl, ops, es) && m <= |[e] + es|
    ensures ByLastUse(limit, ttl, ops, ([e] + es)[..m])
  {
    hide Uses, Run;
    assert LastUse(limit, ttl, ops, e.key) == |ops| - 1;
  }

  lemma {:induction false} ExpiryIsByLastUse<K, V>(limit: nat, ttl: nat, ops: seq<Timed<K, V>>)
    ensures ByLastUse(limit, ttl, ops, Run(limit, ttl, ops).entries)
  {
    hide Without, Find, Add, Get;
    if ops != [] {
      var n := |ops| - 1;
      var c := Run(limit, ttl, ops[..n]);
      ExpiryIsByLastUse(limit, ttl, ops[..n]);
      RunDistinct(limit, ttl, ops[..n]);
      match ops[n].op
      case OpAdd(k, v) => UseSetsExpiry(limit, ttl, ops, k);
      case OpGet(k) =>
        if Has(c.entries, k) {
          UseSetsExpiry(limit, ttl, ops, k);
        } else {
          MissedGet(c, k, ops[n].now);
          ExpiryCarries(limit, ttl, ops, c.entries, c.entries);
        }
      case OpRemove(k) =>
        WithoutOthers(c.entries, k);
        ExpiryCarries(limit, ttl, ops, c.entries, Without(c.entries, k));
      case OpExpire => ExpiryCarries(limit, ttl, ops, c.entries, Expire(c, ops[n].now).entries);
      case OpClear =>
    }
  }

  lemma MissedGet<K, V>(c: Cache<K, V>, k: K, now: int)
    requires !Has(c.entries, k)
    ensures Get(c, k, now) == c
  {
  }

  lemma {:induction false} UnexpiredHas<K, V>(es: seq<Entry<K, V>>, now: int, e: Entry<K, V>)
    ensures e in Unexpired(es, now) <==> e in es && now <= e.expiry
  {
    if es != [] {
      UnexpiredHas(es[..|es| - 1], now, e);
      assert es == es[..|es| - 1] + [es[|es| - 1]];
    }
  }

  /**
   What a sweep at time now leaves, in terms of the history alone: a key stays
   exactly if it is there and no more than the time to live has passed since its
   last use.
   */
  lemma SweepLeavesExactly<K, V>(limit: nat, ttl: nat, ops: seq<Timed<K, V>>, now: int, k: K)
    ensures Has(Unexpired(Run(limit, ttl, ops).entries, now), k) <==>
              && Has(Run(limit, ttl, ops).entries, k)
              && LastUse(limit, ttl, ops, k) >= 0
              && now <= ops[LastUse(limit, ttl, ops, k)].now + ttl
  {
    hide Unexpired, LastUse, Run;
    var es := Run(limit, ttl, ops).entries;
    ExpiryIsByLastUse(limit, ttl, ops);
    RunDistinct(limit, ttl, ops);
    if i :| 0 <= i < |es| && es[i].key == k {
      UnexpiredHas(es, now, es[i]);
    }
    var left := Unexpired(es, now);
    if j :| 0 <= j < |left| && left[j].key == k {
      UnexpiredHas(es, now, left[j]);
    }
  }

  // --------------------------------------------------------------- inclusion

  // a is a subsequence of b.
  predicate Sub<T(==)>(a: seq<T>, b: seq<T>)
    decreases |b|
  {
    || a == []
    || (b != [] && if a[0] == b[0] then Sub(a[1..], b[1..]) else Sub(a, b[1..]))
  }

  lemma {:induction false} SubMember<T>(a: seq<T>, b: seq<T>, i: nat)
    requires Sub(a, b) && i < |a|
    ensures a[i] in b
    decreases |b|
  {
    if a[0] == b[0] {
      if i > 0 {
        SubMember(a[1..], b[1..], i - 1);
      }
    } else {
      SubMember(a, b[1..], i);
    }
  }

  lemma {:induction false} SubTail<T>(a: seq<T>, b: seq<T>)
    requires Sub(a, b) && a != []
    ensures Sub(a[1..], b)
    decreases |b|, 1
  {
    if a[0] == b[0] {
      if a[1..] != [] {
        SubSkip(a[1..], b);
      }
    } else {
      SubTail(a, b[1..]);
      SubSkip(a[1..], b);
    }
  }

  // What fits in the tail fits in the whole.
  lemma {:induction false} SubSkip<T>(a: seq<T>, b: seq<T>)
    requires b != [] && Sub(a, b[1..])
    ensures Sub(a, b)
    decreases |b|, 0
  {
    if a != [] && a[0] == b[0] {
      SubTail(a, b[1..]);
    }
  }

  lemma {:induction false} SubDropBoth<T>(a: seq<T>, b: seq<T>)
    requires Sub(a, b) && a != []
    ensures b != [] && Sub(a[..|a| - 1], b[..|b| - 1])
    decreases |b|
  {
    var a', b' := a[..|a| - 1], b[..|b| - 1];
    if |a| > 1 {
      if a[0] == b[0] {
        SubDropBoth(a[1..], b[1..]);
        assert a[1..][..|a| - 2] == a'[1..] && b[1..][..|b| - 2] == b'[1..];
      } else {
        SubDropBoth(a, b[1..]);
        assert b[1..][..|b| - 2] == b'[1..];
      }
    }
  }

  lemma {:induction false} SubDropLarge<T>(a: seq<T>, b: seq<T>)
    requires Sub(a, b) && b != [] && (a == [] || a[|a| - 1] != b[|b| - 1])
    ensures Sub(a, b[..|b| - 1])
    decreases |b|
  {
    var b' := b[..|b| - 1];
    if a != [] && |b| > 1 {
      assert b[1..][..|b| - 2] == b'[1..];
      if a[0] == b[0] {
        SubDropLarge(a[1..], b[1..]);
      } else {
        SubDropLarge(a, b[1..]);
      }
    }
  }

  lemma {:induction false} SubDropSmall<T>(a: seq<T>, b: seq<T>)
    requires Sub(a, b) && a != []
    ensures Sub(a[..|a| - 1], b)
    decreases |b|
  {
    if |a| > 1 {
      if a[0] == b[0] {
        SubDropSmall(a[1..], b[1..]);
        assert a[1..][..|a| - 2] == a[..|a| - 1][1..];
      } else {
        SubDropSmall(a, b[1..]);
      }
    }
  }

  lemma WithoutCons<K, V>(es: seq<Entry<K, V>>, k: K)
    requires es != []
    ensures Without(es, k) == if es[0].key == k then es[1..] else [es[0]] + Without(es[1..], k)
  {
    var i := Find(es, k);
    if es[0].key != k {
      assert i == 1 + Find(es[1..], k);
      if i < |es| {
        assert es[..i] == [es[0]] + es[1..][..i - 1] && es[i + 1..] == es[1..][i..];
      } else {
        assert es == [es[0]] + es[1..];
      }
    }
  }

  lemma {:induction false} SubWithout<K, V>(a: seq<Entry<K, V>>, b: seq<Entry<K, V>>, k: K)
    requires Sub(a, b) && Distinct(b)
    ensures Sub(Without(a, k), Without(b, k))
    decreases |b|
  {
    if a != [] {
      WithoutCons(a, k);
      WithoutCons(b, k);
      assert Distinct(b[1..]);
      if a[0] == b[0] {
        SubWithout(a[1..], b[1..], k);
        if a[0].key == k {
          assert !Has(b[1..], k);
        } else {
          assert ([a[0]] + Without(a[1..], k))[1..] == Without(a[1..], k);
          assert ([b[0]] + Without(b[1..], k))[1..] == Without(b[1..], k);
        }
      } else if b[0].key == k {
        forall i | 0 <= i < |a| ensures a[i].key != k {
          SubMember(a, b[1..], i);
        }
        assert !Has(a, k);
      } else {
        SubWithout(a, b[1..], k);
        assert ([b[0]] + Without(b[1..], k))[1..] == Without(b[1..], k);
        SubSkip(Without(a, k), Without(b, k));
      }
    }
  }

  lemma SubPush<T>(e: T, a: seq<T>, b: seq<T>)
    requires Sub(a, b)
    ensures Sub([e] + a, [e] + b)
  {
    assert ([e] + a)[1..] == a && ([e] + b)[1..] == b;
  }

  // A key the smaller cache holds is held by the larger with the same entry.
  lemma SubFind<K, V>(a: seq<Entry<K, V>>, b: seq<Entry<K, V>>, k: K)
    requires Sub(a, b) && Distinct(b) && Has(a, k)
    ensures Has(b, k) && b[Find(b, k)] == a[Find(a, k)]
  {
    SubMember(a, b, Find(a, k));
    var j :| 0 <= j < |b| && b[j] == a[Find(a, k)];
    assert b[j].key == k;
    assert Find(b, k) == j;
  }

  // The relation kept between a cache of limit n and one of limit m on the same calls.
  predicate Included<K(==), V(==)>(small: Cache<K, V>, large: Cache<K, V>) {
    && Sub(small.entries, large.entries)
    && (large.limit != 0 ==> |large.entries| - |small.entries| <= large.limit - small.limit)
  }

  lemma WithoutAbsent<K, V>(es: seq<Entry<K, V>>, k: K)
    ensures !Has(es, k) ==> Without(es, k) == es
  {
  }

  lemma AddKeepsIncluded<K, V>(s: Cache<K, V>, l: Cache<K, V>, k: K, v: V, now: int, before: int)
    requires s.limit != 0 && (l.limit == 0 || s.limit <= l.limit) && s.ttl == l.ttl
    requires Inv(s, before) && Inv(l, before) && Included(s, l)
    ensures Included(Add(s, k, v, now), Add(l, k, v, now))
  {
    hide Without, Find, Has, Sub, Add;
    AddCases(s, k, v, now);
    AddCases(l, k, v, now);
    WithoutAbsent(s.entries, k);
    WithoutAbsent(l.entries, k);
    var e := Entry(k, v, now + s.ttl);
    var a, b := [e] + Without(s.entries, k), [e] + Without(l.entries, k);
    SubWithout(s.entries, l.entries, k);
    SubPush(e, Without(s.entries, k), Without(l.entries, k));
    if Has(s.entries, k) {
      SubFind(s.entries, l.entries, k);
    }
    var small, large := Add(s, k, v, now).entries, Add(l, k, v, now).entries;
    if large != b {
      // the larger cache is full and evicts: so is the smaller
      assert small == a[..|a| - 1];
      SubDropBoth(a, b);
    } else if small != a {
      SubDropSmall(a, b);
    }
  }

  lemma GetKeepsIncluded<K, V>(s: Cache<K, V>, l: Cache<K, V>, k: K, now: int, before: int)
    requires s.ttl == l.ttl && Inv(s, before) && Inv(l, before) && Included(s, l)
    ensures Included(Get(s, k, now), Get(l, k, now))
  {
    if Has(s.entries, k) {
      SubFind(s.entries, l.entries, k);
      SubWithout(s.entries, l.entries, k);
      SubPush(Entry(k, s.entries[Find(s.entries, k)].value, now + s.ttl),
              Without(s.entries, k), Without(l.entries, k));
    } else if Has(l.entries, k) {
      // a hit that only the larger cache sees
      var b := Get(l, k, now).entries;
      SubWithout(s.entries, l.entries, k);
      assert b[1..] == Without(l.entries, k);
      SubSkip(s.entries, b);
    }
  }

  lemma ExpireKeepsIncluded<K, V>(s: Cache<K, V>, l: Cache<K, V>, now: int, before: int)
    requires Inv(s, before) && Inv(l, before) && Included(s, l)
    ensures Included(Expire(s, now), Expire(l, now))
  {
    var a, b := s.entries, l.entries;
    if a != [] {
      SubMember(a, b, |a| - 1);
      if Expired(a[|a| - 1], now) {
        // an expired entry of the larger cache, whose back is no younger
        var j :| 0 <= j < |b| && b[j] == a[|a| - 1];
        assert j < |b| - 1 ==> b[j].expiry >= b[|b| - 1].expiry;
        SubDropBoth(a, b);
      } else if Expired(b[|b| - 1], now) {
        SubDropLarge(a, b);
      }
    }
  }

  lemma ApplyKeepsIncluded<K, V>(s: Cache<K, V>, l: Cache<K, V>, t: Timed<K, V>, before: int)
    requires s.limit != 0 && (l.limit == 0 || s.limit <= l.limit) && s.ttl == l.ttl
    requires Inv(s, before) && Inv(l, before) && Included(s, l)
    ensures Included(Apply(s, t), Apply(l, t))
  {
    match t.op
    case OpAdd(k, v) => AddKeepsIncluded(s, l, k, v, t.now, before);
    case OpGet(k) => GetKeepsIncluded(s, l, k, t.now, before);
    case OpRemove(k) =>
      SubWithout(s.entries, l.entries, k);
      if Has(s.entries, k) { SubFind(s.entries, l.entries, k); }
    case OpExpire => ExpireKeepsIncluded(s, l, t.now, before);
    case OpClear =>
  }

  // On the same calls and clock readings a cache of limit small always holds a
  // subsequence of one with a larger limit (or none), values and expiries included.
  lemma {:induction false} Inclusion<K, V>(small: nat, large: nat, ttl: nat, ops: seq<Timed<K, V>>)
    requires 1 <= small && (large == 0 || small <= large) && Monotone(ops)
    ensures Included(Run(small, ttl, ops), Run(large, ttl, ops))
  {
    if ops != [] {
      var n := |ops| - 1;
      var before := if n == 0 then ops[n].now else ops[n - 1].now;
      Inclusion(small, large, ttl, ops[..n]);
      RunKeepsInv(small, ttl, ops[..n], before);
      RunKeepsInv(large, ttl, ops[..n], before);
      ApplyKeepsIncluded(Run(small, ttl, ops[..n]), Run(large, ttl, ops[..n]), ops[n], before);
    }
  }

  // So raising the limit never loses a hit and never changes an answer.
  lemma LargerCacheHitsToo<K, V>(small: nat, large: nat, ttl: nat, ops: seq<Timed<K, V>>, k: K)
    requires 1 <= small && (large == 0 || small <= large) && Monotone(ops)
    ensures Peek(Run(small, ttl, ops), k).Some? ==>
              Peek(Run(large, ttl, ops), k) == Peek(Run(small, ttl, ops), k)
  {
    Inclusion(small, large, ttl, ops);
    RunDistinct(large, ttl, ops);
    if Has(Run(small, ttl, ops).entries, k) {
      SubFind(Run(small, ttl, ops).entries, Run(large, ttl, ops).entries, k);
    }
  }
}

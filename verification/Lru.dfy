/**
 The least-recently-used cache with expiry of lruttl/lruttl.go as a value: the
 entries in recency order, front first. The class in LruCache.dfy is proved to
 follow these functions. The clock is an input; every reading is a parameter.
 */
module Lru {
  import opened Common

  datatype Entry<K, V> = Entry(key: K, value: V, expiry: int)

  // limit == 0 means no limit. The list front is entries[0].
  datatype Cache<K, V> = Cache(limit: nat, ttl: nat, entries: seq<Entry<K, V>>)

  function New<K, V>(limit: nat, ttl: nat): Cache<K, V> {
    Cache(limit, ttl, [])
  }

  predicate Has<K(==), V>(es: seq<Entry<K, V>>, k: K) {
    exists i :: 0 <= i < |es| && es[i].key == k
  }

  // The position of k, or |es| when k is absent.
  function Find<K(==), V>(es: seq<Entry<K, V>>, k: K): (i: nat)
    ensures i <= |es|
    ensures i < |es| ==> es[i].key == k
    ensures forall j :: 0 <= j < i ==> es[j].key != k
    ensures i < |es| <==> Has(es, k)
  {
    if es == [] then 0
    else if es[0].key == k then 0
    else
      var i := Find(es[1..], k);
      assert forall j :: 1 <= j < 1 + i ==> es[j].key == es[1..][j - 1].key;
      i + 1
  }

  function Without<K(==), V>(es: seq<Entry<K, V>>, k: K): (r: seq<Entry<K, V>>)
    ensures |es| - 1 <= |r| <= |es|
    ensures |r| == |es| <==> !Has(es, k)
  {
    var i := Find(es, k);
    if i < |es| then es[..i] + es[i + 1..] else es
  }

  function Peek<K(==), V>(c: Cache<K, V>, k: K): Option<V> {
    var i := Find(c.entries, k);
    if i < |c.entries| then Some(c.entries[i].value) else None
  }

  function Get<K(==), V>(c: Cache<K, V>, k: K, now: int): Cache<K, V> {
    var i := Find(c.entries, k);
    if i < |c.entries| then
      c.(entries := [Entry(k, c.entries[i].value, now + c.ttl)] + Without(c.entries, k))
    else c
  }

  function Add<K(==), V>(c: Cache<K, V>, k: K, v: V, now: int): Cache<K, V> {
    var pushed := [Entry(k, v, now + c.ttl)] + Without(c.entries, k);
    if !Has(c.entries, k) && c.limit != 0 && |pushed| > c.limit then
      c.(entries := pushed[..|pushed| - 1])
    else c.(entries := pushed)
  }

  function Remove<K(==), V>(c: Cache<K, V>, k: K): Cache<K, V> {
    c.(entries := Without(c.entries, k))
  }

  function Clear<K, V>(c: Cache<K, V>): Cache<K, V> {
    c.(entries := [])
  }

  predicate Expired<K, V>(e: Entry<K, V>, now: int) {
    now > e.expiry
  }

  // One removeOldestExpired call.
  function Expire<K, V>(c: Cache<K, V>, now: int): Cache<K, V> {
    var n := |c.entries|;
    if n > 0 && Expired(c.entries[n - 1], now) then c.(entries := c.entries[..n - 1]) else c
  }

  // What a sweep ought to leave: everything that has not expired at time now.
  function Unexpired<K, V>(es: seq<Entry<K, V>>, now: int): seq<Entry<K, V>> {
    if es == [] then []
    else if Expired(es[|es| - 1], now) then Unexpired(es[..|es| - 1], now)
    else Unexpired(es[..|es| - 1], now) + [es[|es| - 1]]
  }

  // Without takes out one position and keeps the other entries in order.
  lemma WithoutIsSplice<K, V>(es: seq<Entry<K, V>>, k: K)
    requires Distinct(es)
    ensures Distinct(Without(es, k)) && !Has(Without(es, k), k)
    ensures forall x :: x != k && Has(es, x) ==> Has(Without(es, k), x)
    ensures var r := Without(es, k);
            forall j :: 0 <= j < |r| ==> r[j] == es[if j < Find(es, k) then j else j + 1]
  {
    var i := Find(es, k);
    var r := Without(es, k);
    if i < |es| {
      forall j | 0 <= j < |r| ensures r[j] == es[if j < i then j else j + 1] {}
      forall x | x != k && Has(es, x) ensures Has(r, x) {
        var p := Find(es, x);
        assert r[if p < i then p else p - 1] == es[p];
      }
    }
  }

  lemma PushKeepsDistinct<K, V>(es: seq<Entry<K, V>>, e: Entry<K, V>)
    requires Distinct(es) && !Has(es, e.key)
    ensures Distinct([e] + es)
  {
    var r := [e] + es;
    forall j | 1 <= j < |r| ensures r[j] == es[j - 1] && r[j].key != e.key {}
  }

  lemma PushHas<K, V>(es: seq<Entry<K, V>>, e: Entry<K, V>)
    ensures forall x :: Has([e] + es, x) <==> x == e.key || Has(es, x)
  {
    var r := [e] + es;
    forall x ensures Has(r, x) <==> x == e.key || Has(es, x) {
      if Has(es, x) {
        assert r[1 + Find(es, x)].key == x;
      }
      if Has(r, x) && x != e.key {
        assert es[Find(r, x) - 1].key == x;
      }
      assert r[0].key == e.key;
    }
  }

  // ---------------------------------------------------------------- invariant

  predicate Distinct<K(==), V>(es: seq<Entry<K, V>>) {
    forall i, j :: 0 <= i < j < |es| ==> es[i].key != es[j].key
  }

  predicate Sorted<K, V>(es: seq<Entry<K, V>>) {
    forall i, j :: 0 <= i < j < |es| ==> es[i].expiry >= es[j].expiry
  }

  predicate AllBelow<K, V>(es: seq<Entry<K, V>>, bound: int) {
    forall i :: 0 <= i < |es| ==> es[i].expiry <= bound
  }

  // now is the latest clock reading so far.
  predicate Inv<K(==), V>(c: Cache<K, V>, now: int) {
    && Distinct(c.entries)
    && Sorted(c.entries)
    && AllBelow(c.entries, now + c.ttl)
    && (c.limit != 0 ==> |c.entries| <= c.limit)
  }

  // What Get and Add do, by whether the key is there.
  lemma GetHit<K, V>(c: Cache<K, V>, k: K, now: int)
    requires Has(c.entries, k)
    ensures Peek(c, k) == Some(c.entries[Find(c.entries, k)].value)
    ensures Get(c, k, now) ==
            c.(entries := [Entry(k, c.entries[Find(c.entries, k)].value, now + c.ttl)] + Without(c.entries, k))
  {
  }

  lemma AddCases<K, V>(c: Cache<K, V>, k: K, v: V, now: int)
    ensures var e := Entry(k, v, now + c.ttl);
            var n := |c.entries|;
            Add(c, k, v, now).entries ==
              if Has(c.entries, k) then [e] + Without(c.entries, k)
              else if c.limit != 0 && n + 1 > c.limit then ([e] + c.entries)[..n]
              else [e] + c.entries
    ensures Add(c, k, v, now).limit == c.limit && Add(c, k, v, now).ttl == c.ttl
  {
  }

  // -------------------------------------------------------------- histories

  datatype Op<K, V> =
    | OpAdd(k: K, v: V)
    | OpGet(k: K)
    | OpRemove(k: K)
    | OpExpire
    | OpClear

  // A call together with the clock reading it makes.
  datatype Timed<K, V> = Timed(op: Op<K, V>, now: int)

  function Apply<K(==), V>(c: Cache<K, V>, t: Timed<K, V>): Cache<K, V> {
    match t.op
    case OpAdd(k, v) => Add(c, k, v, t.now)
    case OpGet(k) => Get(c, k, t.now)
    case OpRemove(k) => Remove(c, k)
    case OpExpire => Expire(c, t.now)
    case OpClear => Clear(c)
  }

  function Run<K(==), V>(limit: nat, ttl: nat, ops: seq<Timed<K, V>>): Cache<K, V> {
    if ops == [] then New(limit, ttl)
    else Apply(Run(limit, ttl, ops[..|ops| - 1]), ops[|ops| - 1])
  }

  lemma RunOneMore<K, V>(limit: nat, ttl: nat, ops: seq<Timed<K, V>>, t: Timed<K, V>)
    ensures Run(limit, ttl, ops + [t]) == Apply(Run(limit, ttl, ops), t)
  {
    assert (ops + [t])[..|ops|] == ops;
  }

  predicate Monotone<K, V>(ops: seq<Timed<K, V>>) {
    forall i, j :: 0 <= i < j < |ops| ==> ops[i].now <= ops[j].now
  }

  // ------------------------------------------------------ order of the list

  lemma WithoutKeepsOrder<K, V>(es: seq<Entry<K, V>>, k: K, bound: int)
    requires Distinct(es) && Sorted(es) && AllBelow(es, bound)
    ensures Distinct(Without(es, k)) && Sorted(Without(es, k)) && AllBelow(Without(es, k), bound)
    ensures !Has(Without(es, k), k)
  {
    var i := Find(es, k);
    var r := Without(es, k);
    if i < |es| {
      forall j | 0 <= j < |r| ensures r[j] == es[if j < i then j else j + 1] {}
    }
  }

  lemma PushKeepsOrder<K, V>(es: seq<Entry<K, V>>, e: Entry<K, V>)
    requires Distinct(es) && Sorted(es) && AllBelow(es, e.expiry) && !Has(es, e.key)
    ensures Distinct([e] + es) && Sorted([e] + es) && AllBelow([e] + es, e.expiry)
  {
    var r := [e] + es;
    forall j | 1 <= j < |r| ensures r[j] == es[j - 1] && r[j].key != e.key {}
  }

  lemma DropLastKeepsOrder<K, V>(es: seq<Entry<K, V>>, bound: int)
    requires Distinct(es) && Sorted(es) && AllBelow(es, bound) && es != []
    ensures var r := es[..|es| - 1]; Distinct(r) && Sorted(r) && AllBelow(r, bound)
  {
  }

  lemma MoveKeepsOrder<K, V>(c: Cache<K, V>, k: K, v: V, before: int, now: int)
    requires Inv(c, before) && before <= now
    ensures var es := [Entry(k, v, now + c.ttl)] + Without(c.entries, k);
            Distinct(es) && Sorted(es) && AllBelow(es, now + c.ttl)
  {
    WithoutKeepsOrder(c.entries, k, before + c.ttl);
    assert AllBelow(Without(c.entries, k), now + c.ttl);
    PushKeepsOrder(Without(c.entries, k), Entry(k, v, now + c.ttl));
  }

  lemma AddKeepsInv<K, V>(c: Cache<K, V>, k: K, v: V, before: int, now: int)
    requires Inv(c, before) && before <= now
    ensures Inv(Add(c, k, v, now), now)
  {
    var pushed := [Entry(k, v, now + c.ttl)] + Without(c.entries, k);
    MoveKeepsOrder(c, k, v, before, now);
    var r := Add(c, k, v, now);
    if r.entries != pushed {
      DropLastKeepsOrder(pushed, now + c.ttl);
      assert r.entries == pushed[..|pushed| - 1];
    }
    assert c.limit != 0 ==> |r.entries| <= c.limit;
  }

  lemma GetKeepsInv<K, V>(c: Cache<K, V>, k: K, before: int, now: int)
    requires Inv(c, before) && before <= now
    ensures Inv(Get(c, k, now), now)
  {
    var i := Find(c.entries, k);
    if i < |c.entries| {
      GetHit(c, k, now);
      MoveKeepsOrder(c, k, c.entries[i].value, before, now);
    }
  }

  lemma ApplyKeepsInv<K, V>(c: Cache<K, V>, t: Timed<K, V>, before: int)
    requires Inv(c, before) && before <= t.now
    ensures Inv(Apply(c, t), t.now)
    ensures Apply(c, t).limit == c.limit && Apply(c, t).ttl == c.ttl
  {
    match t.op
    case OpAdd(k, v) => AddKeepsInv(c, k, v, before, t.now);
    case OpGet(k) => GetKeepsInv(c, k, before, t.now);
    case OpRemove(k) => WithoutKeepsOrder(c.entries, k, before + c.ttl);
    case OpExpire => if c.entries != [] { DropLastKeepsOrder(c.entries, before + c.ttl); }
    case OpClear =>
  }

  // After any calls made on a monotone clock the keys are distinct, the list is
  // sorted by expiry and a nonzero limit is respected.
  lemma {:induction false} RunKeepsInv<K, V>(limit: nat, ttl: nat, ops: seq<Timed<K, V>>, now: int)
    requires Monotone(ops) && (ops != [] ==> ops[|ops| - 1].now <= now)
    ensures Inv(Run(limit, ttl, ops), now)
    ensures Run(limit, ttl, ops).limit == limit && Run(limit, ttl, ops).ttl == ttl
  {
    if ops != [] {
      var n := |ops| - 1;
      var before := if n == 0 then ops[n].now else ops[n - 1].now;
      RunKeepsInv(limit, ttl, ops[..n], before);
      ApplyKeepsInv(Run(limit, ttl, ops[..n]), ops[n], before);
    }
  }

  // A sorted list that is split where its expiries pass the time: what ought to be
  // left is the front part.
  lemma {:induction false} SplitDecides<K, V>(es: seq<Entry<K, V>>, m: nat, now: int)
    requires Sorted(es) && m <= |es|
    requires m > 0 ==> now <= es[m - 1].expiry
    requires m < |es| ==> es[m].expiry < now
    ensures Unexpired(es, now) == es[..m]
    ensures forall i :: 0 <= i < m ==> now <= es[i].expiry
    ensures forall i :: m <= i < |es| ==> es[i].expiry < now
  {
    var n := |es| - 1;
    if m <= n {
      assert es[n].expiry <= es[m].expiry;
      SplitDecides(es[..n], m, now);
      assert es[..n][..m] == es[..m];
    } else if n >= 0 {
      SplitDecides(es[..n], n, now);
      assert es == es[..n] + [es[n]];
    }
  }

  // ---------------------------------------------------------- what Peek sees

  lemma {:induction false} FindAfterWithout<K, V>(es: seq<Entry<K, V>>, k: K, x: K)
    requires Distinct(es)
    ensures x == k ==> !Has(Without(es, k), x)
    ensures x != k ==> (Has(Without(es, k), x) <==> Has(es, x))
    ensures x != k && Has(es, x) ==> Without(es, k)[Find(Without(es, k), x)] == es[Find(es, x)]
  {
    hide Without, Find;
    var r := Without(es, k);
    WithoutIsSplice(es, k);
    if x != k && Has(es, x) {
      var i, q := Find(es, k), Find(r, x);
      assert es[if q < i then q else q + 1].key == x;
    }
    if x != k && Has(r, x) {
      var i, q := Find(es, k), Find(r, x);
      assert es[if q < i then q else q + 1] == r[q];
    }
  }

  // The entries that a call neither stores nor removes are only ever lost, never altered.
  lemma PeekAfterAdd<K, V>(c: Cache<K, V>, k: K, v: V, now: int, x: K)
    requires Distinct(c.entries)
    ensures Peek(Add(c, k, v, now), x).Some? && x != k ==> Peek(Add(c, k, v, now), x) == Peek(c, x)
    ensures Peek(Add(c, k, v, now), k) == Some(v)
  {
    FindAfterWithout(c.entries, k, x);
    var pushed := [Entry(k, v, now + c.ttl)] + Without(c.entries, k);
    var es := Add(c, k, v, now).entries;
    assert es == pushed || es == pushed[..|pushed| - 1];
    var p := Find(es, x);
    if p < |es| && x != k {
      assert es[p] == pushed[p] == Without(c.entries, k)[p - 1];
      var q := Find(Without(c.entries, k), x);
      assert Without(c.entries, k)[q].key == x;
      assert pushed[q + 1].key == x;
      assert p == q + 1;
    }
    assert es[0].key == k;
  }
}

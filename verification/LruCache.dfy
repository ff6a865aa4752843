/**
 lruttl/lruttl.go in its own form: a list of entry objects, a map from keys to
 the same objects, and methods that change both in place. Every method is
 proved to do to View() what the function of the same name in Lru does.
 */
module LruCache {
  import opened Common
  import Lru

  class Element<K, V> {
    const key: K
    var value: V
    var expiry: int

    constructor (key: K, value: V, expiry: int)
      ensures this.key == key && this.value == value && this.expiry == expiry
    {
      this.key, this.value, this.expiry := key, value, expiry;
    }

    ghost predicate Holds(e: Lru.Entry<K, V>)
      reads this
    {
      key == e.key && value == e.value && expiry == e.expiry
    }
  }

  function Position<T(==)>(s: seq<T>, x: T): (i: nat)
    requires x in s
    ensures i < |s| && s[i] == x
  {
    if s[0] == x then 0 else 1 + Position(s[1..], x)
  }

  class Cache<K(==), V> {
    const maxEntries: nat
    const ttl: nat
    var list: seq<Element<K, V>>
    var index: map<K, Element<K, V>>
    ghost var contents: seq<Lru.Entry<K, V>>
    ghost var Repr: set<Element<K, V>>

    // The list holds the contents in order, and the map leads from every key
    // of the contents, and from no other, to the object in the list.
    ghost predicate Valid()
      reads this, Repr
    {
      && |list| == |contents|
      && (forall i :: 0 <= i < |list| ==> list[i] in Repr && list[i].Holds(contents[i]))
      && Lru.Distinct(contents)
      && (forall i :: 0 <= i < |list| ==> contents[i].key in index && index[contents[i].key] == list[i])
      && (forall k :: k in index ==> Lru.Has(contents, k))
    }

    ghost function View(): Lru.Cache<K, V>
      reads this
    {
      Lru.Cache(maxEntries, ttl, contents)
    }

    constructor (maxEntries: nat, ttl: nat)
      ensures Valid() && fresh(Repr) && View() == Lru.New(maxEntries, ttl)
    {
      this.maxEntries, this.ttl := maxEntries, ttl;
      list, index, contents, Repr := [], map[], [], {};
    }

    lemma Lookup(k: K)
      requires Valid()
      ensures k in index <==> Lru.Has(contents, k)
      ensures k in index ==>
                && index[k] == list[Lru.Find(contents, k)]
                && index[k].Holds(contents[Lru.Find(contents, k)])
    {
      if Lru.Has(contents, k) {
        assert contents[Lru.Find(contents, k)].key == k;
      }
    }

    lemma ListPosition(e: Element<K, V>)
      requires Valid() && e in list
      ensures Position(list, e) == Lru.Find(contents, e.key) < |list|
    {
      var p := Position(list, e);
      assert contents[p].key == e.key;
      assert Lru.Has(contents, e.key);
      var q := Lru.Find(contents, e.key);
    }

    method Len() returns (n: nat)
      requires Valid()
      ensures n == |View().entries|
    {
      n := |list|;
    }

    method Peek(key: K) returns (r: Option<V>)
      requires Valid()
      ensures r == Lru.Peek(View(), key)
    {
      Lookup(key);
      if key in index {
        r := Some(index[key].value);
      } else {
        r := None;
      }
    }

    method RemoveElement(e: Element<K, V>)
      requires Valid() && e in list
      modifies this
      ensures Valid() && Repr == old(Repr)
      ensures contents == Lru.Without(old(contents), e.key)
    {
      hide Lru.Without, Lru.Find, Lru.Has, Position;
      ListPosition(e);
      var p := Position(list, e);
      ghost var before, was := contents, list;
      Lru.WithoutIsSplice(contents, e.key);
      list := list[..p] + list[p + 1..];
      contents := Lru.Without(contents, e.key);
      index := index - {e.key};
      forall i | 0 <= i < |list|
        ensures list[i] in Repr && list[i].Holds(contents[i])
        ensures contents[i].key in index && index[contents[i].key] == list[i]
      {
        var j := if i < p then i else i + 1;
        assert list[i] == was[j] && contents[i] == before[j];
      }
    }

    // Moves an entry to the front, renews its expiry and stores value in it.
    method Touch(e: Element<K, V>, value: V, now: int)
      requires Valid() && e in list
      modifies this, e
      ensures Valid() && Repr == old(Repr)
      ensures contents == [Lru.Entry(e.key, value, now + ttl)] + Lru.Without(old(contents), e.key)
    {
      hide Lru.Without, Lru.Find, Lru.Has, Position;
      ListPosition(e);
      var p := Position(list, e);
      ghost var before, was := contents, list;
      Lru.WithoutIsSplice(contents, e.key);
      list := [e] + (list[..p] + list[p + 1..]);
      contents := [Lru.Entry(e.key, value, now + ttl)] + Lru.Without(contents, e.key);
      e.expiry := now + ttl;
      e.value := value;
      Lru.PushKeepsDistinct(Lru.Without(before, e.key), contents[0]);
      forall i | 1 <= i < |list|
        ensures list[i] in Repr && list[i].Holds(contents[i])
        ensures contents[i].key in index && index[contents[i].key] == list[i]
      {
        var j := if i - 1 < p then i - 1 else i;
        assert list[i] == was[j] && contents[i] == before[j] && was[j] != e;
      }
      Lru.PushHas(Lru.Without(before, e.key), contents[0]);
    }

    method Insert(key: K, value: V, now: int)
      requires Valid() && key !in index
      modifies this
      ensures Valid() && fresh(Repr - old(Repr))
      ensures contents == [Lru.Entry(key, value, now + ttl)] + old(contents)
    {
      hide Lru.Find, Lru.Has;
      Lookup(key);
      ghost var before, was := contents, list;
      var e := new Element(key, value, now + ttl);
      list := [e] + list;
      contents := [Lru.Entry(key, value, now + ttl)] + contents;
      index := index[key := e];
      Repr := Repr + {e};
      Lru.PushKeepsDistinct(before, contents[0]);
      forall i | 1 <= i < |list|
        ensures list[i] in Repr && list[i].Holds(contents[i])
        ensures contents[i].key in index && index[contents[i].key] == list[i]
      {
        assert list[i] == was[i - 1] && contents[i] == before[i - 1];
      }
      Lru.PushHas(before, contents[0]);
    }

    method Get(key: K, now: int) returns (r: Option<V>)
      requires Valid()
      modifies this, Repr
      ensures Valid() && Repr == old(Repr)
      ensures r == Lru.Peek(old(View()), key)
      ensures View() == Lru.Get(old(View()), key, now)
    {
      hide Lru.Without, Lru.Find, Lru.Has, Lru.Distinct;
      Lookup(key);
      if key in index {
        var e := index[key];
        r := Some(e.value);
        Lru.GetHit(View(), key, now);
        Touch(e, e.value, now);
      } else {
        r := None;
      }
    }

    // The second half of add: a new key, and the eviction it may cause.
    method AddNew(key: K, value: V, now: int)
      requires Valid() && key !in index
      modifies this
      ensures Valid() && fresh(Repr - old(Repr))
      ensures var pushed := [Lru.Entry(key, value, now + ttl)] + old(contents);
              contents == if maxEntries != 0 && |pushed| > maxEntries then pushed[..|pushed| - 1] else pushed
    {
      Insert(key, value, now);
      if maxEntries != 0 && |list| > maxEntries {
        var _ := RemoveOldest();
      }
    }

    method Add(key: K, value: V, now: int)
      requires Valid()
      modifies this, Repr
      ensures Valid() && fresh(Repr - old(Repr))
      ensures View() == Lru.Add(old(View()), key, value, now)
    {
      hide Lru.Without, Lru.Find, Lru.Has, Lru.Add, Lru.Distinct;
      Lookup(key);
      Lru.AddCases(View(), key, value, now);
      if key in index {
        Touch(index[key], value, now);
      } else {
        AddNew(key, value, now);
      }
    }

    method Remove(key: K)
      requires Valid()
      modifies this
      ensures Valid() && Repr == old(Repr)
      ensures View() == Lru.Remove(old(View()), key)
    {
      Lookup(key);
      if key in index {
        RemoveElement(index[key]);
      }
    }

    method RemoveOldest() returns (ok: bool)
      requires Valid()
      modifies this
      ensures Valid() && Repr == old(Repr)
      ensures ok == (old(contents) != [])
      ensures contents == if ok then old(contents)[..|old(contents)| - 1] else []
    {
      ok := |list| > 0;
      if ok {
        var e := list[|list| - 1];
        ListPosition(e);
        RemoveElement(e);
      }
    }

    method RemoveOldestExpired(now: int) returns (ok: bool)
      requires Valid()
      modifies this
      ensures Valid() && Repr == old(Repr)
      ensures View() == Lru.Expire(old(View()), now)
      ensures ok <==> old(contents) != [] && old(contents)[|old(contents)| - 1].expiry < now
      ensures contents == if ok then old(contents)[..|old(contents)| - 1] else old(contents)
    {
      ok := |list| > 0 && now > list[|list| - 1].expiry;
      if ok {
        var e := list[|list| - 1];
        ListPosition(e);
        RemoveElement(e);
      }
    }

    method Clear()
      requires Valid()
      modifies this
      ensures Valid() && Repr == old(Repr) && View() == Lru.Clear(old(View()))
    {
      index := map[];
      list := [];
      contents := [];
    }

    // The loop of the pass: back entries go while they have expired.
    method Drain(clock: nat -> int) returns (last: nat)
      requires Valid()
      requires forall i, j :: 0 <= i < j ==> clock(i) <= clock(j)
      modifies this
      ensures Valid() && Repr == old(Repr)
      ensures |contents| <= |old(contents)| && contents == old(contents)[..|contents|]
      ensures |contents| > 0 ==> clock(last) <= old(contents)[|contents| - 1].expiry
      ensures |contents| < |old(contents)| ==> old(contents)[|contents|].expiry < clock(last)
    {
      hide Valid, View, Lru.Expire;
      last := 0;
      var ok := true;
      while ok
        invariant Valid() && Repr == old(Repr)
        invariant |contents| <= |old(contents)| && contents == old(contents)[..|contents|]
        invariant |contents| < |old(contents)| ==> old(contents)[|contents|].expiry < clock(last)
        invariant !ok && |contents| > 0 ==> clock(last) <= contents[|contents| - 1].expiry
        decreases |contents|, ok
      {
        last := last + 1;
        ok := RemoveOldestExpired(clock(last));
      }
    }

    // One pass of the background loop. Reading number i of the clock is clock(i).
    // The pass ends, and leaves exactly the entries whose expiry is not before its last
    // reading, in the order they had.
    method Sweep(clock: nat -> int) returns (last: nat)
      requires Valid() && Lru.Sorted(contents)
      requires forall i, j :: 0 <= i < j ==> clock(i) <= clock(j)
      modifies this
      ensures Valid() && Repr == old(Repr)
      ensures |contents| <= |old(contents)| && contents == old(contents)[..|contents|]
      ensures forall i :: 0 <= i < |contents| ==> clock(last) <= old(contents)[i].expiry
      ensures forall i :: |contents| <= i < |old(contents)| ==> old(contents)[i].expiry < clock(last)
      ensures contents == Lru.Unexpired(old(contents), clock(last))
    {
      last := 0;
      ghost var es := contents;
      if |list| > 0 && clock(0) > list[|list| - 1].expiry {
        last := Drain(clock);
      }
      Lru.SplitDecides(es, |contents|, clock(last));
    }
  }
}

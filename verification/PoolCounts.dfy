/**
 The ActiveConnections counters: a pool's counter is the number of its
 connections that are in use, none was ever returned at zero, and no primitive
 step disturbs that.
 */
module PoolCounts {
  import opened Common
  import opened Pool

  function InUse(conns: seq<Conn>, database: string): set<nat> {
    set i: nat | i < |conns| && conns[i].inUse && conns[i].pool == database
  }

  predicate Counted(s: State) {
    && (forall i :: 0 <= i < |s.conns| ==> s.conns[i].pool in s.pools)
    && (forall p :: p in s.pools ==> s.pools[p] == |InUse(s.conns, p)|)
    && s.floored == 0
  }

  lemma GetPoolCounts(s: State, database: string)
    requires Counted(s)
    ensures Counted(GetPool(s, database))
  {
    if database !in s.pools {
      assert InUse(s.conns, database) == {};
    }
  }

  lemma InUseAppend(conns: seq<Conn>, c: Conn, p: string)
    requires c.inUse
    ensures InUse(conns + [c], p) == InUse(conns, p) + if c.pool == p then {|conns| as nat} else {}
    ensures |conns| !in InUse(conns, p)
  {
    var all := conns + [c];
    forall i: nat | i < |all| ensures i in InUse(all, p) <==> (i in InUse(conns, p) || (i == |conns| && c.pool == p)) {
      assert i < |conns| ==> all[i] == conns[i];
    }
  }

  lemma CheckoutCounts(s: State, database: string, client: string)
    requires Counted(s) && database in s.pools
    ensures Counted(Checkout(s, database, client))
  {
    hide InUse;
    var n := Checkout(s, database, client);
    forall p | p in n.pools ensures n.pools[p] == |InUse(n.conns, p)| {
      InUseAppend(s.conns, Conn(database, true, NoTxn, client), p);
    }
  }

  // The counter of a connection in use is above its floor.
  lemma GiveBackCounts(s: State, i: nat)
    requires Counted(s) && i < |s.conns| && s.conns[i].inUse
    ensures s.pools[s.conns[i].pool] > 0
    ensures Counted(GiveBack(s, i))
  {
    var n := GiveBack(s, i);
    assert i in InUse(s.conns, s.conns[i].pool);
    forall p | p in n.pools ensures n.pools[p] == |InUse(n.conns, p)| {
      if p == s.conns[i].pool {
        assert InUse(n.conns, p) == InUse(s.conns, p) - {i};
      } else {
        assert InUse(n.conns, p) == InUse(s.conns, p);
      }
    }
  }

  lemma RenameCounts(s: State, i: nat, txn: TxnId)
    requires Counted(s) && i < |s.conns|
    ensures Counted(s.(conns := s.conns[i := s.conns[i].(txn := txn)]))
  {
    var n := s.(conns := s.conns[i := s.conns[i].(txn := txn)]);
    forall p | p in n.pools ensures n.pools[p] == |InUse(n.conns, p)| {
      assert InUse(n.conns, p) == InUse(s.conns, p);
    }
  }
}

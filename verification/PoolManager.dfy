/**
 pool/pool.go in its own form: pools, clients and pooled connections are objects
 whose fields the Manager's methods change in place. Every method is proved to do
 to the manager's model what the function of the same name in Pool does.
 */
module PoolManager {
  import opened Common
  import P = Pool

  class ConnectionPool {
    const name: string
    var active: nat

    constructor (name: string)
      ensures this.name == name && active == 0
    {
      this.name, active := name, 0;
    }

    method Checkout(client: string) returns (conn: PooledConnection)
      modifies this
      ensures fresh(conn) && active == old(active) + 1
      ensures conn.pool == this && conn.inUse && conn.txn == P.NoTxn && conn.client == client
    {
      conn := new PooledConnection(this, client);
      active := active + 1;
    }

    // Ignores another pool's connection; the counter stays at zero if it is there.
    method Return(conn: PooledConnection)
      modifies this, conn
      ensures conn.pool != this ==>
                active == old(active) && conn.inUse == old(conn.inUse)
                && conn.txn == old(conn.txn) && conn.client == old(conn.client)
      ensures conn.pool == this ==>
                && active == (if old(active) > 0 then old(active) - 1 else 0)
                && !conn.inUse && conn.txn == P.NoTxn && conn.client == ""
    {
      if conn.pool != this {
        return;
      }
      conn.inUse, conn.txn, conn.client := false, P.NoTxn, "";
      if active > 0 {
        active := active - 1;
      }
    }
  }

  class PooledConnection {
    const pool: ConnectionPool
    var inUse: bool
    var txn: P.TxnId
    var client: string

    constructor (pool: ConnectionPool, client: string)
      ensures this.pool == pool && inUse && txn == P.NoTxn && this.client == client
    {
      this.pool, inUse, txn, this.client := pool, true, P.NoTxn, client;
    }

    ghost predicate Is(c: P.Conn)
      reads this
    {
      pool.name == c.pool && inUse == c.inUse && txn == c.txn && client == c.client
    }
  }

  class ClientConnection {
    const database: string
    const mode: P.Mode
    var assignedConn: PooledConnection?
    var transactionConn: PooledConnection?

    constructor (database: string, mode: P.Mode)
      ensures this.database == database && this.mode == mode
      ensures assignedConn == null && transactionConn == null
    {
      this.database, this.mode, assignedConn, transactionConn := database, mode, null, null;
    }

    ghost predicate Is(c: P.Client, conns: seq<PooledConnection>)
      reads this
    {
      && database == c.database && mode == c.mode
      && Refers(assignedConn, c.kept, conns)
      && Refers(transactionConn, c.txnConn, conns)
    }
  }

  // The reference is to the connection of that number, or null for none.
  ghost predicate Refers(r: PooledConnection?, i: Option<nat>, conns: seq<PooledConnection>) {
    if i.Some? then i.value < |conns| && r == conns[i.value] else r == null
  }

  lemma PrimitivesKeepWellFormed(s: P.State, database: string, client: string, i: nat)
    requires P.WellFormed(s)
    ensures P.WellFormed(P.GetPool(s, database))
    ensures database in s.pools ==> P.WellFormed(P.Checkout(s, database, client))
    ensures database in s.pools && i < |s.conns| ==> P.WellFormed(P.Return(s, database, i))
  {
  }

  lemma WithClientWellFormed(s: P.State, id: string, c: P.Client)
    requires P.WellFormed(s) && P.Refers(s, c)
    ensures P.WellFormed(P.WithClient(s, id, c))
    ensures P.WellFormed(s.(clients := s.clients - {id}))
  {
  }

  class Manager {
    const maxClientConn: int
    var pools: map<string, ConnectionPool>
    var activeClients: map<string, ClientConnection>
    // Every connection handed out so far, and the state in the terms of Pool.
    ghost var conns: seq<PooledConnection>
    ghost var model: P.State

    ghost predicate PoolsOk()
      reads this, pools.Values
    {
      && pools.Keys == model.pools.Keys
      && forall p :: p in pools ==> pools[p].name == p && pools[p].active == model.pools[p]
    }

    ghost predicate ConnsOk()
      reads this, conns
    {
      && |conns| == |model.conns|
      && (forall i :: 0 <= i < |conns| ==> conns[i].Is(model.conns[i]))
      && (forall i :: 0 <= i < |conns| ==> conns[i].pool.name in pools && pools[conns[i].pool.name] == conns[i].pool)
      && (forall i, j :: 0 <= i < j < |conns| ==> conns[i] != conns[j])
    }

    ghost predicate ClientsOk()
      reads this, activeClients.Values
    {
      && activeClients.Keys == model.clients.Keys
      && (forall id :: id in activeClients ==> activeClients[id].Is(model.clients[id], conns))
      && (forall a, b :: a in activeClients && b in activeClients && a != b ==> activeClients[a] != activeClients[b])
    }

    ghost predicate Valid()
      reads this, pools.Values, conns, activeClients.Values
    {
      model.maxClients == maxClientConn && P.WellFormed(model) && PoolsOk() && ConnsOk() && ClientsOk()
    }

    twostate lemma ClientsStay()
      requires old(ClientsOk()) && activeClients == old(activeClients) && model.clients == old(model.clients)
      requires old(conns) <= conns
      requires forall id :: id in activeClients ==> unchanged(activeClients[id])
      ensures ClientsOk()
    {
    }

    twostate lemma ClientGone(id: string)
      requires old(ClientsOk()) && activeClients == old(activeClients) - {id} && conns == old(conns)
      requires model.clients == old(model.clients) - {id}
      requires forall o :: o in activeClients ==> unchanged(activeClients[o])
      ensures ClientsOk()
    {
      assert forall o :: o in activeClients ==> old(activeClients[o].Is(model.clients[o], conns));
    }

    twostate lemma PoolsStay()
      requires old(PoolsOk()) && pools == old(pools) && model.pools == old(model.pools)
      requires forall p :: p in pools ==> unchanged(pools[p])
      ensures PoolsOk()
    {
    }

    twostate lemma ConnsStay()
      requires old(ConnsOk()) && conns == old(conns) && model.conns == old(model.conns)
      requires forall p :: p in old(pools) ==> p in pools && pools[p] == old(pools[p])
      requires forall i :: 0 <= i < |conns| ==> unchanged(conns[i])
      ensures ConnsOk()
    {
    }

    lemma SizeFacts()
      requires Valid()
      ensures |conns| == |model.conns| && pools.Keys == model.pools.Keys
      ensures activeClients.Keys == model.clients.Keys && |activeClients| == |model.clients|
      ensures P.WellFormed(model)
    {
      assert |activeClients| == |activeClients.Keys| && |model.clients| == |model.clients.Keys|;
    }

    lemma RefersFacts(id: string)
      requires P.WellFormed(model) && id in model.clients
      ensures P.Refers(model, model.clients[id])
    {
    }

    lemma ConnFacts(i: nat)
      requires ConnsOk() && i < |conns|
      ensures i < |model.conns| && conns[i].Is(model.conns[i])
      ensures conns[i].pool.name in pools && pools[conns[i].pool.name] == conns[i].pool
      ensures forall j :: 0 <= j < |conns| && conns[j] == conns[i] ==> j == i
    {
    }

    lemma ClientFacts(id: string)
      requires ClientsOk()
      ensures id in activeClients <==> id in model.clients
      ensures id in activeClients ==> activeClients[id].Is(model.clients[id], conns)
      ensures forall o :: o in activeClients && o != id && id in activeClients ==> activeClients[o] != activeClients[id]
    {
    }

    // One client's entry is set, and its object is no other client's.
    twostate lemma ClientSet(id: string)
      requires old(ClientsOk()) && id in activeClients && activeClients == old(activeClients)[id := activeClients[id]]
      requires id in model.clients && model.clients == old(model.clients)[id := model.clients[id]]
      requires conns == old(conns) && activeClients[id].Is(model.clients[id], conns)
      requires forall o :: o in old(activeClients) && o != id ==>
                 unchanged(old(activeClients[o])) && old(activeClients[o]) != activeClients[id]
      ensures ClientsOk()
    {
      forall o | o in activeClients ensures activeClients[o].Is(model.clients[o], conns) {
        assert o != id ==> old(activeClients[o].Is(model.clients[o], conns));
      }
    }

    constructor (maxClientConn: int)
      ensures Valid() && model == P.New(maxClientConn)
      ensures pools == map[] && activeClients == map[] && conns == []
    {
      this.maxClientConn := maxClientConn;
      pools, activeClients, conns, model := map[], map[], [], P.New(maxClientConn);
    }

    method GetPool(database: string) returns (pool: ConnectionPool)
      requires Valid()
      modifies this
      ensures Valid() && model == P.GetPool(old(model), database)
      ensures database in pools && pool == pools[database] && pool.name == database
      ensures conns == old(conns) && activeClients == old(activeClients)
      ensures fresh(pools.Values - old(pools.Values))
    {
      hide P.WellFormed, Manager.ClientsOk, Manager.ConnsOk;
      if database in pools {
        return pools[database];
      }
      PrimitivesKeepWellFormed(model, database, "", 0);
      pool := new ConnectionPool(database);
      pools := pools[database := pool];
      model := P.GetPool(model, database);
      ClientsStay();
      ConnsStay();
    }

    // A pool's Checkout, seen from the manager.
    method CheckoutFrom(pool: ConnectionPool, client: string) returns (conn: PooledConnection)
      requires Valid() && pool.name in pools && pools[pool.name] == pool
      modifies this, pool
      ensures Valid() && model == P.Checkout(old(model), pool.name, client)
      ensures fresh(conn) && conns == old(conns) + [conn]
      ensures pools == old(pools) && activeClients == old(activeClients)
    {
      hide P.WellFormed, Manager.ClientsOk;
      PrimitivesKeepWellFormed(model, pool.name, client, 0);
      conn := pool.Checkout(client);
      conns := conns + [conn];
      model := P.Checkout(model, pool.name, client);
      assert PoolsOk();
      assert ConnsOk();
      ClientsStay();
    }

    // A pool's Return of the i-th connection, seen from the manager.
    method ReturnTo(pool: ConnectionPool, conn: PooledConnection, ghost i: nat)
      requires Valid() && pool.name in pools && pools[pool.name] == pool
      requires i < |conns| && conns[i] == conn
      modifies this`model, pool, conn
      ensures Valid() && model == P.Return(old(model), pool.name, i)
    {
      hide P.WellFormed, Manager.ClientsOk;
      PrimitivesKeepWellFormed(model, pool.name, "", i);
      pool.Return(conn);
      model := P.Return(model, pool.name, i);
      assert PoolsOk();
      assert ConnsOk();
      ClientsStay();
    }

    // ------------------------------------------------------- fields of objects

    method Assign(ghost id: string, client: ClientConnection, conn: PooledConnection, ghost i: nat)
      requires Valid() && id in activeClients && activeClients[id] == client
      requires i < |conns| && conns[i] == conn
      modifies this`model, client
      ensures Valid() && client.assignedConn == conn
      ensures model == P.WithClient(old(model), id, old(model).clients[id].(kept := Some(i)))
    {
      hide P.WellFormed, Manager.PoolsOk, Manager.ConnsOk, Manager.ClientsOk;
      ClientFacts(id);
      SizeFacts();
      RefersFacts(id);
      WithClientWellFormed(model, id, model.clients[id].(kept := Some(i)));
      client.assignedConn := conn;
      model := P.WithClient(model, id, model.clients[id].(kept := Some(i)));
      ClientSet(id);
      PoolsStay();
      ConnsStay();
    }

    method SetTransaction(ghost id: string, client: ClientConnection, conn: PooledConnection?, ghost i: Option<nat>)
      requires Valid() && id in activeClients && activeClients[id] == client && Refers(conn, i, conns)
      modifies this`model, client
      ensures Valid() && client.transactionConn == conn
      ensures model == P.WithClient(old(model), id, old(model).clients[id].(txnConn := i))
    {
      hide P.WellFormed, Manager.PoolsOk, Manager.ConnsOk, Manager.ClientsOk;
      ClientFacts(id);
      SizeFacts();
      RefersFacts(id);
      WithClientWellFormed(model, id, model.clients[id].(txnConn := i));
      client.transactionConn := conn;
      model := P.WithClient(model, id, model.clients[id].(txnConn := i));
      ClientSet(id);
      PoolsStay();
      ConnsStay();
    }

    method Name(conn: PooledConnection, ghost i: nat, txn: P.TxnId)
      requires Valid() && i < |conns| && conns[i] == conn
      modifies this`model, conn
      ensures Valid()
      ensures model == old(model).(conns := old(model).conns[i := old(model).conns[i].(txn := txn)])
    {
      hide Manager.PoolsOk, Manager.ClientsOk;
      conn.txn := txn;
      model := model.(conns := model.conns[i := model.conns[i].(txn := txn)]);
      PoolsStay();
      ClientsStay();
    }

    // ------------------------------------------------------------ the interface

    method RegisterClient(id: string, database: string, mode: P.Mode) returns (r: Result<ClientConnection>)
      requires Valid()
      modifies this`activeClients, this`model
      ensures Valid()
      ensures var n := P.Register(old(model), id, database, mode);
              if n.Ok? then r.Ok? && model == n.value && id in activeClients && r.value == activeClients[id]
              else r.Err? && model == old(model)
      ensures fresh(activeClients.Values - old(activeClients.Values))
    {
      hide P.WellFormed, Manager.PoolsOk, Manager.ConnsOk, Manager.ClientsOk;
      SizeFacts();
      if id in activeClients {
        return Ok(activeClients[id]);
      }
      if maxClientConn > 0 && |activeClients| >= maxClientConn {
        return Err;
      }
      WithClientWellFormed(model, id, P.Client(database, mode, None, None));
      var client := new ClientConnection(database, mode);
      activeClients := activeClients[id := client];
      model := P.WithClient(model, id, P.Client(database, mode, None, None));
      ClientSet(id);
      PoolsStay();
      ConnsStay();
      r := Ok(client);
    }

    method GetClient(id: string) returns (r: Option<ClientConnection>)
      requires Valid()
      ensures r.Some? <==> id in model.clients
      ensures r.Some? ==> r.value.Is(model.clients[id], conns)
    {
      r := if id in activeClients then Some(activeClients[id]) else None;
    }

    // Returns a connection the client keeps, if there is one.
    method GiveUp(conn: PooledConnection?, ghost i: Option<nat>)
      requires Valid() && Refers(conn, i, conns)
      modifies this`model, pools.Values, conns
      ensures Valid() && old(|conns| == |model.conns|) && model == P.GiveBackIfAny(old(model), i)
    {
      hide Manager.PoolsOk, Manager.ConnsOk, Manager.ClientsOk, P.WellFormed;
      SizeFacts();
      if conn != null {
        ConnFacts(i.value);
        ReturnTo(conn.pool, conn, i.value);
      }
    }

    method Forget(id: string)
      requires Valid() && id in activeClients
      modifies this`activeClients, this`model
      ensures Valid() && model == old(model).(clients := old(model).clients - {id})
      ensures activeClients == old(activeClients) - {id}
    {
      hide P.WellFormed, Manager.PoolsOk, Manager.ConnsOk, Manager.ClientsOk;
      SizeFacts();
      RefersFacts(id);
      WithClientWellFormed(model, id, model.clients[id]);
      activeClients := activeClients - {id};
      model := model.(clients := model.clients - {id});
      ClientGone(id);
      PoolsStay();
      ConnsStay();
    }

    method GiveUpAll(client: ClientConnection, ghost c: P.Client)
      requires Valid() && client.Is(c, conns)
      modifies this`model, pools.Values, conns
      ensures Valid() && old(P.WellFormed(model) && P.Refers(model, c))
      ensures model == P.GiveBackIfAny(P.GiveBackIfAny(old(model), c.kept), c.txnConn)
    {
      hide Manager.PoolsOk, Manager.ConnsOk, Manager.ClientsOk, P.WellFormed;
      SizeFacts();
      GiveUp(client.assignedConn, c.kept);
      GiveUp(client.transactionConn, c.txnConn);
    }

    method UnregisterClient(id: string)
      requires Valid()
      modifies this`activeClients, this`model, pools.Values, conns
      ensures Valid() && model == P.Unregister(old(model), id)
      ensures activeClients == old(activeClients) - {id}
    {
      hide Manager.PoolsOk, Manager.ConnsOk, Manager.ClientsOk, P.WellFormed, P.GiveBackIfAny;
      ClientFacts(id);
      if id !in activeClients {
        assert activeClients - {id} == activeClients;
        return;
      }
      var client := activeClients[id];
      ghost var c := model.clients[id];
      GiveUpAll(client, c);
      Forget(id);
    }

    // The connection returned is the one whose number Pool.GetConnection gives.
    method GetConnection(id: string, database: string, inTxn: bool, txn: P.TxnId)
      returns (r: Result<PooledConnection>)
      requires Valid()
      modifies this, pools.Values, activeClients.Values, conns
      ensures Valid() && activeClients == old(activeClients)
      ensures var (n, i) := P.GetConnection(old(model), id, database, inTxn, txn);
              && model == n
              && (if i.Ok? then r.Ok? && i.value < |conns| && r.value == conns[i.value] else r.Err?)
      ensures fresh(pools.Values - old(pools.Values))
      ensures old(conns) <= conns && forall i :: |old(conns)| <= i < |conns| ==> fresh(conns[i])
    {
      hide Manager.PoolsOk, Manager.ConnsOk, Manager.ClientsOk, P.WellFormed, P.ConnectionFrom;
      ClientFacts(id);
      SizeFacts();
      if id !in activeClients {
        return Err;
      }
      var pool := GetPool(database);
      assert pool in pools.Values && activeClients[id] in activeClients.Values;
      r := ConnectionFrom(id, activeClients[id], pool, inTxn, txn);
    }

    // What GetConnection does once it has the pool.
    method ConnectionFrom(id: string, client: ClientConnection, pool: ConnectionPool, inTxn: bool, txn: P.TxnId)
      returns (r: Result<PooledConnection>)
      requires Valid() && id in activeClients && activeClients[id] == client
      requires pool.name in pools && pools[pool.name] == pool
      modifies this, pool, client, conns
      ensures Valid() && activeClients == old(activeClients) && pools == old(pools)
      ensures old(P.WellFormed(model) && id in model.clients && pool.name in model.pools)
      ensures var (n, i) := P.ConnectionFrom(old(model), id, pool.name, inTxn, txn);
              && model == n
              && (if i.Ok? then r.Ok? && i.value < |conns| && r.value == conns[i.value] else r.Err?)
      ensures old(conns) <= conns && forall i :: |old(conns)| <= i < |conns| ==> fresh(conns[i])
    {
      hide Manager.PoolsOk, Manager.ConnsOk, Manager.ClientsOk, P.WellFormed, P.TransactionConn;
      ClientFacts(id);
      SizeFacts();
      match client.mode {
        case Session =>
          var conn := SessionConnection(id, client, pool);
          r := Ok(conn);
        case Transaction =>
          if inTxn {
            var conn := ConnectionFor(id, client, pool, txn);
            r := Ok(conn);
          } else {
            var conn := CheckoutFrom(pool, id);
            r := Ok(conn);
          }
        case Statement =>
          var conn := CheckoutFrom(pool, id);
          r := Ok(conn);
        case OtherMode(_) =>
          r := Err;
      }
    }

    // The branch of GetConnection for session mode.
    method SessionConnection(id: string, client: ClientConnection, pool: ConnectionPool)
      returns (conn: PooledConnection)
      requires Valid() && id in activeClients && activeClients[id] == client && client.mode.Session?
      requires pool.name in pools && pools[pool.name] == pool
      modifies this, pool, client
      ensures Valid() && activeClients == old(activeClients) && pools == old(pools)
      ensures old(id in model.clients && pool.name in model.pools)
      ensures var c := old(model.clients[id]);
              if c.kept.Some? then model == old(model) && c.kept.value < |conns| && conn == conns[c.kept.value]
              else
                && model == P.WithClient(P.Checkout(old(model), pool.name, id), id,
                    c.(kept := Some(|old(model.conns)|)))
                && |old(model.conns)| < |conns| && conn == conns[|old(model.conns)|]
      ensures old(conns) <= conns && forall i :: |old(conns)| <= i < |conns| ==> fresh(conns[i])
    {
      hide Manager.PoolsOk, Manager.ConnsOk, Manager.ClientsOk, P.WellFormed;
      ClientFacts(id);
      SizeFacts();
      if client.assignedConn == null {
        conn := CheckoutFrom(pool, id);
        Assign(id, client, conn, |conns| - 1);
      }
      conn := client.assignedConn;
    }

    // A new connection becomes the client's transaction connection.
    method TakeNew(id: string, client: ClientConnection, pool: ConnectionPool, txn: P.TxnId)
      requires Valid() && id in activeClients && activeClients[id] == client
      requires pool.name in pools && pools[pool.name] == pool
      modifies this, pool, client
      ensures Valid() && activeClients == old(activeClients) && pools == old(pools)
      ensures old(id in model.clients && pool.name in model.pools)
      ensures var s, i := P.Checkout(old(model), pool.name, id), |old(model.conns)|;
              && model == P.WithClient(s.(conns := s.conns[i := s.conns[i].(txn := txn)]), id,
                                       old(model.clients[id]).(txnConn := Some(i)))
              && i < |conns| && client.transactionConn == conns[i]
      ensures old(conns) <= conns && forall i :: |old(conns)| <= i < |conns| ==> fresh(conns[i])
    {
      hide Manager.PoolsOk, Manager.ConnsOk, Manager.ClientsOk, P.WellFormed;
      ClientFacts(id);
      SizeFacts();
      var conn := CheckoutFrom(pool, id);
      Name(conn, |conns| - 1, txn);
      SetTransaction(id, client, conn, Some(|conns| - 1));
    }

    // The branch of GetConnection for a request inside a transaction.
    method ConnectionFor(id: string, client: ClientConnection, pool: ConnectionPool, txn: P.TxnId)
      returns (conn: PooledConnection)
      requires Valid() && id in activeClients && activeClients[id] == client
      requires pool.name in pools && pools[pool.name] == pool
      modifies this, pool, client, conns
      ensures Valid() && activeClients == old(activeClients) && pools == old(pools)
      ensures var (n, i) := P.TransactionConn(old(model), id, pool.name, txn);
              model == n && i < |conns| && conn == conns[i]
      ensures old(conns) <= conns && forall i :: |old(conns)| <= i < |conns| ==> fresh(conns[i])
    {
      hide Manager.PoolsOk, Manager.ConnsOk, Manager.ClientsOk, P.WellFormed;
      ClientFacts(id);
      if client.transactionConn != null {
        ConnFacts(model.clients[id].txnConn.value);
      }
      SizeFacts();
      if client.transactionConn == null || client.transactionConn.txn != txn {
        if client.transactionConn != null {
          ReturnTo(pool, client.transactionConn, model.clients[id].txnConn.value);
        }
        TakeNew(id, client, pool, txn);
      }
      conn := client.transactionConn;
    }

    method ReturnConnection(id: string, conn: PooledConnection, ghost i: nat, isEnd: bool)
      requires Valid() && i < |conns| && conns[i] == conn
      modifies this`model, conn.pool, conn, activeClients.Values
      ensures Valid() && model == P.ReturnConnection(old(model), id, i, isEnd)
    {
      hide Manager.PoolsOk, Manager.ConnsOk, Manager.ClientsOk, P.WellFormed;
      ClientFacts(id);
      ConnFacts(i);
      if id !in activeClients {
        ReturnTo(conn.pool, conn, i);
        return;
      }
      var client := activeClients[id];
      match client.mode {
        case Session =>
          if conn != client.assignedConn {
            ReturnTo(conn.pool, conn, i);
          }
        case Transaction =>
          if isEnd && client.transactionConn == conn {
            ReturnTo(conn.pool, conn, i);
            SetTransaction(id, client, null, None);
          } else if !isEnd && conn != client.transactionConn {
            ReturnTo(conn.pool, conn, i);
          }
        case Statement =>
          ReturnTo(conn.pool, conn, i);
        case OtherMode(_) =>
      }
    }
  }
}

/**
 Two runs that show where the pool manager falls short of its promise: a
 connection that is never returned, and a transaction that changes connections.
 */
module PoolFailures {
  import opened Common
  import opened Pool
  import opened PoolCounts
  import opened PoolRuns
  import opened PoolSteps
  import opened PoolTheorems
  import opened PoolSticky

  lemma Extend(mode: Mode, maxClients: int, ls: seq<Label>, l: Label, w: World)
    requires !mode.OtherMode? && Run(mode, maxClients, ls) == Some(w) && Enabled(w, l)
    ensures Run(mode, maxClients, ls + [l]) == Some(Next(w, l))
  {
    assert (ls + [l])[..|ls|] == ls;
  }

  // A client connects and asks for a connection of the database "default".
  function Asks(id: string, r: Request): seq<Label> {
    [Connect(id)] + [Begin(id, r)] + [Get(id)]
  }

  function Asked(maxClients: int, id: string, r: Request): World {
    var c := Client("default", Transaction, None, if r.inTxn then Some(0) else None);
    World(Transaction,
          State(maxClients, map["default" := 1], [Conn("default", true, if r.inTxn then r.txn else NoTxn, id)],
                map[id := c], 0),
          map[id := Using(r, 0)], {})
  }

  function Connected(maxClients: int, id: string, ph: Phase): World {
    World(Transaction,
          State(maxClients, map[], [], map[id := Client("default", Transaction, None, None)], 0),
          map[id := ph], {})
  }

  lemma ConnectIs(maxClients: int, id: string)
    ensures Next(Start(Transaction, maxClients), Connect(id)) == Connected(maxClients, id, Ready)
  {
  }

  lemma BeginIs(maxClients: int, id: string, r: Request)
    requires r.database == "default"
    ensures Next(Connected(maxClients, id, Ready), Begin(id, r)) == Connected(maxClients, id, Getting(r))
  {
  }

  lemma GetIs(maxClients: int, id: string, r: Request)
    requires r.database == "default"
    ensures Next(Connected(maxClients, id, Getting(r)), Get(id)) == Asked(maxClients, id, r)
  {
    var w := Connected(maxClients, id, Getting(r));
    var p := GetPool(w.s, "default");
    assert p.pools == map["default" := 0];
    assert Checkout(p, "default", id).pools == map["default" := 1];
  }

  lemma AsksReaches(maxClients: int, id: string, r: Request)
    requires r.database == "default"
    ensures Run(Transaction, maxClients, Asks(id, r)) == Some(Asked(maxClients, id, r))
  {
    assert Run(Transaction, maxClients, []) == Some(Start(Transaction, maxClients));
    hide Run, Next, Inv, Sound;
    Extend(Transaction, maxClients, [], Connect(id), Start(Transaction, maxClients));
    ConnectIs(maxClients, id);
    assert [] + [Connect(id)] == [Connect(id)];
    Extend(Transaction, maxClients, [Connect(id)], Begin(id, r), Connected(maxClients, id, Ready));
    BeginIs(maxClients, id, r);
    Extend(Transaction, maxClients, [Connect(id)] + [Begin(id, r)], Get(id), Connected(maxClients, id, Getting(r)));
    GetIs(maxClients, id, r);
  }

  // -------------------------------------------------------------- a lost one

  // Returned as the end of a transaction it is not part of, it stays in use.
  lemma StrayPutIs(maxClients: int, id: string, r: Request)
    requires r.isEnd && !r.inTxn
    ensures var w := Asked(maxClients, id, r);
            Next(w, Put(id)) == w.(phases := map[id := Ready], lost := {0})
  {
  }

  lemma DisconnectIs(w: World, id: string)
    requires Sound(w) && w.phases == map[id := Ready]
    requires w.s.clients == map[id := Client("default", Transaction, None, None)]
    ensures var n := Next(w, Disconnect(id));
            n.s.pools == w.s.pools && n.s.clients == map[] && n.phases == map[id := Gone]
  {
  }

  /**
   A transaction-mode client sends endSessions, which carries no transaction
   details, and disconnects: its connection stays active for ever.
   */
  lemma EndSessionsLeaks(maxClients: int, id: string)
    ensures var r := RequestOf("", "endSessions", None);
            var ls := Asks(id, r) + [Put(id)] + [Disconnect(id)];
            && Run(Transaction, maxClients, ls).Some?
            && var w := Run(Transaction, maxClients, ls).value;
               AllGone(w) && w.s.clients == map[] && w.s.pools == map["default" := 1]
  {
    hide Run, Next, Inv, Sound;
    var r := RequestOf("", "endSessions", None);
    AsksReaches(maxClients, id, r);
    var w := Asked(maxClients, id, r);
    Extend(Transaction, maxClients, Asks(id, r), Put(id), w);
    StrayPutIs(maxClients, id, r);
    var w1 := w.(phases := map[id := Ready], lost := {0});
    Extend(Transaction, maxClients, Asks(id, r) + [Put(id)], Disconnect(id), w1);
    DisconnectIs(w1, id);
  }

  // --------------------------------------------------- a switched transaction

  // A transaction-mode client in a transaction, using its c-th and last connection.
  predicate InTurn(w: World, id: string, r: Request, c: nat) {
    w.phases == map[id := Using(r, c)] && |w.s.conns| == c + 1 && w.mode.Transaction? && r.inTxn && !r.isEnd
  }

  lemma PutIs(w: World, id: string, r: Request, c: nat)
    requires Inv(w) && Sound(w) && InTurn(w, id, r, c)
    ensures Next(w, Put(id)) == w.(phases := map[id := Ready])
  {
    assert OwnerInv(w, id);
  }

  lemma NextBeginIs(w: World, id: string, r: Request, c: nat, next: Request)
    requires Inv(w) && InTurn(w, id, r, c) && next.database == r.database
    requires Sound(w.(phases := map[id := Ready]))
    ensures Next(w.(phases := map[id := Ready]), Begin(id, next)) == w.(phases := map[id := Getting(next)])
  {
    assert OwnerInv(w, id);
  }

  lemma NextGetIs(w: World, id: string, r: Request, c: nat, next: Request)
    requires Inv(w) && InTurn(w, id, r, c)
    requires next.database == r.database && next.inTxn && !next.isEnd && next.txn != r.txn
    requires Sound(w.(phases := map[id := Getting(next)]))
    ensures InTurn(Next(w.(phases := map[id := Getting(next)]), Get(id)), id, next, c + 1)
  {
    assert OwnerInv(w, id);
    assert r.database in w.s.pools;
  }

  // The client returns its connection and asks for another transaction's.
  lemma Turn(maxClients: int, id: string, ls: seq<Label>, r: Request, next: Request, c: nat)
    requires Run(Transaction, maxClients, ls).Some? && InTurn(Run(Transaction, maxClients, ls).value, id, r, c)
    requires next.database == r.database && next.inTxn && !next.isEnd && next.txn != r.txn
    ensures var ms := ls + [Put(id)] + [Begin(id, next)] + [Get(id)];
            && Run(Transaction, maxClients, ms).Some?
            && InTurn(Run(Transaction, maxClients, ms).value, id, next, c + 1)
  {
    hide Run, Next, Inv, Sound;
    var w := Run(Transaction, maxClients, ls).value;
    Extend(Transaction, maxClients, ls, Put(id), w);
    PutIs(w, id, r, c);
    var w1 := w.(phases := map[id := Ready]);
    Extend(Transaction, maxClients, ls + [Put(id)], Begin(id, next), w1);
    NextBeginIs(w, id, r, c, next);
    var w2 := w.(phases := map[id := Getting(next)]);
    Extend(Transaction, maxClients, ls + [Put(id)] + [Begin(id, next)], Get(id), w2);
    NextGetIs(w, id, r, c, next);
  }

  /**
   A transaction-mode client that runs two transactions turn by turn is given
   another connection for the first one when it comes back to it.
   */
  lemma InterleavedTransactionsSwitch(maxClients: int, id: string, lsid: seq<int>)
    ensures var one := RequestOf("", "insert", Some(Details(lsid, 1, false)));
            var two := RequestOf("", "insert", Some(Details(lsid, 2, false)));
            var ls := Asks(id, one) + [Put(id)] + [Begin(id, two)] + [Get(id)]
                      + [Put(id)] + [Begin(id, one)] + [Get(id)];
            && Run(Transaction, maxClients, Asks(id, one)).Some?
            && Run(Transaction, maxClients, ls).Some?
            && Run(Transaction, maxClients, Asks(id, one)).value.phases == map[id := Using(one, 0)]
            && Run(Transaction, maxClients, ls).value.phases == map[id := Using(one, 2)]
  {
    hide Run, Inv, Sound;
    var one := RequestOf("", "insert", Some(Details(lsid, 1, false)));
    var two := RequestOf("", "insert", Some(Details(lsid, 2, false)));
    AsksReaches(maxClients, id, one);
    Turn(maxClients, id, Asks(id, one), one, two, 0);
    Turn(maxClients, id, Asks(id, one) + [Put(id)] + [Begin(id, two)] + [Get(id)], two, one, 1);
  }
}

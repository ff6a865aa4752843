/**
 Every step of a run keeps the invariant of PoolRuns.
 */
module PoolSteps {
  import opened Common
  import opened Pool
  import opened PoolCounts
  import opened PoolRuns

  lemma RemoveOne<T>(m: map<string, T>, id: string)
    ensures |m - {id}| <= |m|
    ensures (m - {id}) - {id} == m - {id}
  {
    assert (m - {id}).Keys == m.Keys - {id};
    if id in m {
      assert m.Keys - {id} < m.Keys;
    } else {
      assert m - {id} == m;
    }
  }

  lemma GiveBackIs(s: State, i: nat)
    requires Counted(s) && i < |s.conns|
    ensures GiveBack(s, i).conns == s.conns[i := Conn(s.conns[i].pool, false, NoTxn, "")]
    ensures GiveBack(s, i).clients == s.clients && GiveBack(s, i).maxClients == s.maxClients
  {
  }

  // One of the client's connections is returned and its other ones stay.
  lemma ReturnedConns(w: World, n: World, id: string, i: nat)
    requires Inv(w) && i < |w.s.conns| && w.s.conns[i].inUse && w.s.conns[i].client == id && i !in w.lost
    requires n.s.conns == w.s.conns[i := Conn(w.s.conns[i].pool, false, NoTxn, "")] && n.lost == w.lost
    requires id in n.phases && n.phases == w.phases[id := n.phases[id]]
    requires forall j :: 0 <= j < |w.s.conns| && j != i ==>
               (Keeps(w.s, id, j) || (id in w.phases && w.phases[id].Using? && w.phases[id].conn == j) <==>
                Keeps(n.s, id, j) || (n.phases[id].Using? && n.phases[id].conn == j))
    ensures forall j :: 0 <= j < |n.s.conns| && w.s.conns[j].client == id ==> ConnInv(n, j)
    ensures forall j :: 0 <= j < |w.s.conns| ==> OwnConn(w.s.conns[j], n.s.conns[j], id)
  {
    hide Counted;
    forall j | 0 <= j < |n.s.conns| && w.s.conns[j].client == id ensures ConnInv(n, j) {
      assert ConnInv(w, j);
    }
  }

  lemma OwnerOf(w: World, id: string)
    requires Inv(w) && id in w.phases
    ensures OwnerInv(w, id)
    ensures forall i :: 0 <= i < |w.s.conns| ==> w.s.conns[i].pool in w.s.pools
  {
  }

  // ------------------------------------------------------------- registration

  lemma RegisterKeeps(w: World, id: string, database: string, s: State, ph: Phase)
    requires Inv(w) && id !in w.s.clients && (id in w.phases ==> w.phases[id].Registering?)
    requires Register(w.s, id, database, w.mode) == Ok(s)
    requires ph.Ready? || (ph.Getting? && ph.request.database == database)
    ensures Inv(w.(s := s, phases := w.phases[id := ph]))
  {
    hide Counted;
    var n := w.(s := s, phases := w.phases[id := ph]);
    assert n.s.clients - {id} == w.s.clients - {id};
    CountsSame(w.s, n.s);
    forall i | 0 <= i < |n.s.conns| && w.s.conns[i].client == id ensures ConnInv(n, i) {
      assert ConnInv(w, i);
    }
    Assemble(w, n, id);
  }

  lemma CountsSame(a: State, b: State)
    requires Counted(a) && a.pools == b.pools && a.conns == b.conns && a.floored == b.floored
    ensures Counted(b)
  {
  }

  // A change of phase alone.
  lemma MoveKeeps(w: World, id: string, ph: Phase)
    requires Inv(w) && !ph.Using? && (id in w.phases ==> !w.phases[id].Using?)
    requires var n := w.(phases := w.phases[id := ph]); PhaseInv(n, id)
    requires id !in w.phases ==> id !in w.s.clients
    ensures Inv(w.(phases := w.phases[id := ph]))
  {
    hide Counted;
    var n := w.(phases := w.phases[id := ph]);
    assert id in w.phases ==> OwnerInv(w, id);
    forall i | 0 <= i < |n.s.conns| && w.s.conns[i].client == id ensures ConnInv(n, i) {
      assert ConnInv(w, i);
    }
    Assemble(w, n, id);
  }

  // The client's connection, if it keeps one: at most one of the two fields is set.
  function KeptBy(c: Client): Option<nat> {
    if c.kept.Some? then c.kept else c.txnConn
  }

  lemma UnregisterIs(w: World, id: string)
    requires Inv(w) && id in w.s.clients
    ensures WellFormed(w.s)
    ensures var k := KeptBy(w.s.clients[id]);
            && (k.Some? ==> Owned(w.s, id, k.value, w.s.clients[id].database))
            && (forall i :: 0 <= i < |w.s.conns| ==> (Keeps(w.s, id, i) <==> k == Some(i)))
            && Unregister(w.s, id) ==
               (var given := GiveBackIfAny(w.s, k); given.(clients := given.clients - {id}))
  {
    InvIsSound(w);
    assert OwnerInv(w, id);
  }

  lemma UnregisterKeeps(w: World, id: string, ph: Phase)
    requires Inv(w) && id in w.phases && id in w.s.clients && !w.phases[id].Using?
    requires ph.Registering? || ph.Gone?
    ensures WellFormed(w.s)
    ensures Inv(w.(s := Unregister(w.s, id), phases := w.phases[id := ph]))
  {
    hide Counted, Unregister, GiveBack, OwnConn;
    UnregisterIs(w, id);
    var k := KeptBy(w.s.clients[id]);
    var n := w.(s := Unregister(w.s, id), phases := w.phases[id := ph]);
    RemoveOne(w.s.clients, id);
    if k.Some? {
      GiveBackCounts(w.s, k.value);
      GiveBackIs(w.s, k.value);
      CountsSame(GiveBack(w.s, k.value), n.s);
      assert k.value !in w.lost by { assert ConnInv(w, k.value); }
      ReturnedConns(w, n, id, k.value);
    } else {
      NoneReturned(w, n, id);
    }
    Assemble(w, n, id);
  }

  lemma NoneReturned(w: World, n: World, id: string)
    requires Inv(w) && n.s.conns == w.s.conns && n.s.pools == w.s.pools && n.s.floored == w.s.floored
    requires n.lost == w.lost
    requires id in w.phases && id in n.phases && !w.phases[id].Using? && !n.phases[id].Using?
    requires n.phases == w.phases[id := n.phases[id]] && id !in n.s.clients
    requires id in w.s.clients && KeptBy(w.s.clients[id]).None?
    ensures Counted(n.s)
    ensures forall j :: 0 <= j < |n.s.conns| && w.s.conns[j].client == id ==> ConnInv(n, j)
    ensures forall j :: 0 <= j < |w.s.conns| ==> OwnConn(w.s.conns[j], n.s.conns[j], id)
  {
    CountsSame(w.s, n.s);
    hide Counted;
    forall j | 0 <= j < |n.s.conns| && w.s.conns[j].client == id ensures ConnInv(n, j) {
      assert ConnInv(w, j);
    }
  }

  // ---------------------------------------------------------- getting and using

  // A world with only a pool added.
  lemma GetPoolKeeps(w: World, database: string)
    requires Inv(w)
    ensures Inv(w.(s := GetPool(w.s, database)))
  {
    hide Counted;
    GetPoolCounts(w.s, database);
    var n := w.(s := GetPool(w.s, database));
    forall id | id in n.phases ensures OwnerInv(n, id) {
      assert OwnerInv(w, id);
    }
    forall i | 0 <= i < |n.s.conns| ensures ConnInv(n, i) {
      assert ConnInv(w, i);
    }
  }

  // The client uses the connection it keeps.
  lemma ReuseKeeps(w: World, id: string, request: Request, i: nat)
    requires Inv(w) && id in w.phases && w.phases[id] == Getting(request)
    requires id in w.s.clients && Keeps(w.s, id, i)
    requires UsingInv(w, id, request, i)
    ensures Inv(w.(phases := w.phases[id := Using(request, i)]))
  {
    hide Counted;
    var n := w.(phases := w.phases[id := Using(request, i)]);
    assert OwnerInv(w, id);
    forall j | 0 <= j < |n.s.conns| && w.s.conns[j].client == id ensures ConnInv(n, j) {
      assert ConnInv(w, j);
    }
    Assemble(w, n, id);
  }

  // The client uses a new connection, and keeps it if its mode says so.
  lemma FreshKeeps(w: World, id: string, request: Request, c: Client, txn: TxnId)
    requires Inv(w) && id in w.phases && w.phases[id] == Getting(request) && id in w.s.clients
    requires request.database in w.s.pools
    requires var i := Some(|w.s.conns|);
             && KeptBy(w.s.clients[id]).None? && c.database == request.database && c.mode == w.mode
             && c.kept == (if w.mode.Session? then i else None)
             && c.txnConn == (if w.mode.Transaction? && request.inTxn then i else None)
             && (w.mode.Transaction? && request.inTxn ==> txn == request.txn)
    ensures var i := |w.s.conns|;
            var s := Checkout(w.s, request.database, id);
            var t := s.(conns := s.conns[i := s.conns[i].(txn := txn)]);
            Inv(w.(s := WithClient(t, id, c), phases := w.phases[id := Using(request, i)]))
  {
    hide Counted;
    var i := |w.s.conns|;
    var s := Checkout(w.s, request.database, id);
    var t := s.(conns := s.conns[i := s.conns[i].(txn := txn)]);
    var n := w.(s := WithClient(t, id, c), phases := w.phases[id := Using(request, i)]);
    CheckoutCounts(w.s, request.database, id);
    RenameCounts(s, i, txn);
    CountsSame(t, n.s);
    assert n.s.clients - {id} == w.s.clients - {id};
    assert n.s.clients.Keys == w.s.clients.Keys;
    assert |n.s.clients| == |n.s.clients.Keys| == |w.s.clients|;
    forall j | 0 <= j < |n.s.conns| && (j >= |w.s.conns| || w.s.conns[j].client == id) ensures ConnInv(n, j) {
      if j < |w.s.conns| { assert ConnInv(w, j); }
    }
    Assemble(w, n, id);
  }

  // The client uses a new connection that it does not keep.
  lemma TemporaryKeeps(w: World, id: string, request: Request)
    requires Inv(w) && id in w.phases && w.phases[id] == Getting(request) && id in w.s.clients
    requires request.database in w.s.pools
    requires w.mode.Statement? || (w.mode.Transaction? && !request.inTxn)
    ensures Inv(w.(s := Checkout(w.s, request.database, id), phases := w.phases[id := Using(request, |w.s.conns|)]))
  {
    hide Counted;
    var n := w.(s := Checkout(w.s, request.database, id), phases := w.phases[id := Using(request, |w.s.conns|)]);
    CheckoutCounts(w.s, request.database, id);
    assert OwnerInv(w, id);
    forall j | 0 <= j < |n.s.conns| && (j >= |w.s.conns| || w.s.conns[j].client == id) ensures ConnInv(n, j) {
      if j < |w.s.conns| { assert ConnInv(w, j); }
    }
    Assemble(w, n, id);
  }

  // The client gives up its transaction connection.
  lemma DropKeeps(w: World, id: string, i: nat, ph: Phase)
    requires Inv(w) && id in w.phases && id in w.s.clients && w.s.clients[id].txnConn == Some(i)
    requires if w.phases[id].Using? then w.phases[id].conn == i && ph.Ready?
             else w.phases[id].Getting? && ph == w.phases[id]
    ensures i < |w.s.conns| && w.s.conns[i].pool == w.s.clients[id].database && w.s.conns[i].pool in w.s.pools
    ensures Inv(w.(s := WithClient(GiveBack(w.s, i), id, w.s.clients[id].(txnConn := None)),
                   phases := w.phases[id := ph]))
  {
    hide Counted, GiveBack, OwnConn;
    OwnerOf(w, id);
    var g := GiveBack(w.s, i);
    var n := w.(s := WithClient(g, id, w.s.clients[id].(txnConn := None)), phases := w.phases[id := ph]);
    GiveBackCounts(w.s, i);
    GiveBackIs(w.s, i);
    CountsSame(g, n.s);
    assert n.s.clients - {id} == w.s.clients - {id};
    assert n.s.clients.Keys == w.s.clients.Keys;
    assert |n.s.clients| == |n.s.clients.Keys| == |w.s.clients|;
    assert i !in w.lost by { assert ConnInv(w, i); }
    ReturnedConns(w, n, id, i);
    Assemble(w, n, id);
  }

  // A connection the client does not keep is returned.
  lemma PutTemporaryKeeps(w: World, id: string)
    requires Inv(w) && id in w.phases && w.phases[id].Using? && id in w.s.clients
    requires !Keeps(w.s, id, w.phases[id].conn)
    ensures var i := w.phases[id].conn; i < |w.s.conns| && w.s.conns[i].pool in w.s.pools
    ensures Inv(w.(s := GiveBack(w.s, w.phases[id].conn), phases := w.phases[id := Ready]))
  {
    hide Counted, GiveBack, OwnConn;
    OwnerOf(w, id);
    var i := w.phases[id].conn;
    var n := w.(s := GiveBack(w.s, i), phases := w.phases[id := Ready]);
    GiveBackCounts(w.s, i);
    GiveBackIs(w.s, i);
    assert i !in w.lost by { assert ConnInv(w, i); }
    ReturnedConns(w, n, id, i);
    Assemble(w, n, id);
  }

  // A connection the client does not keep is lost.
  lemma LoseKeeps(w: World, id: string)
    requires Inv(w) && id in w.phases && w.phases[id].Using? && id in w.s.clients
    requires !Keeps(w.s, id, w.phases[id].conn)
    ensures Inv(w.(phases := w.phases[id := Ready], lost := w.lost + {w.phases[id].conn}))
  {
    hide Counted;
    assert OwnerInv(w, id);
    var n := w.(phases := w.phases[id := Ready], lost := w.lost + {w.phases[id].conn});
    forall j | 0 <= j < |n.s.conns| && w.s.conns[j].client == id ensures ConnInv(n, j) {
      assert ConnInv(w, j);
    }
    Assemble(w, n, id);
  }

  // A connection the client keeps stays with it.
  lemma ParkKeeps(w: World, id: string)
    requires Inv(w) && id in w.phases && w.phases[id].Using? && Keeps(w.s, id, w.phases[id].conn)
    ensures Inv(w.(phases := w.phases[id := Ready]))
  {
    hide Counted;
    var n := w.(phases := w.phases[id := Ready]);
    assert OwnerInv(w, id);
    forall j | 0 <= j < |n.s.conns| && w.s.conns[j].client == id ensures ConnInv(n, j) {
      assert ConnInv(w, j);
    }
    Assemble(w, n, id);
  }

  // ---------------------------------------------------------------- whole steps

  lemma SessionGetKeeps(w: World, id: string)
    requires Inv(w) && Sound(w) && w.mode.Session? && id in w.phases && w.phases[id].Getting?
    requires w.phases[id].request.database in w.s.pools
    ensures Inv(Next(w, Get(id)))
  {
    hide Counted, Inv;
    OwnerOf(w, id);
    var c, request := w.s.clients[id], w.phases[id].request;
    if c.kept.Some? {
      ReuseKeeps(w, id, request, c.kept.value);
    } else {
      var i := |w.s.conns|;
      FreshKeeps(w, id, request, c.(kept := Some(i)), NoTxn);
      var s := Checkout(w.s, request.database, id);
      assert s.conns[i := s.conns[i].(txn := NoTxn)] == s.conns;
    }
  }

  lemma TransactionGetKeeps(w: World, id: string)
    requires Inv(w) && Sound(w) && w.mode.Transaction? && id in w.phases && w.phases[id].Getting?
    requires w.phases[id].request.database in w.s.pools && w.phases[id].request.inTxn
    ensures Inv(Next(w, Get(id)))
  {
    hide Counted, Inv;
    OwnerOf(w, id);
    var c, request := w.s.clients[id], w.phases[id].request;
    if c.txnConn.Some? && w.s.conns[c.txnConn.value].txn == request.txn {
      ReuseKeeps(w, id, request, c.txnConn.value);
    } else if c.txnConn.None? {
      FreshKeeps(w, id, request, c.(txnConn := Some(|w.s.conns|)), request.txn);
    } else {
      ExchangeKeeps(w, id);
    }
  }

  lemma ExchangeKeeps(w: World, id: string)
    requires Inv(w) && Sound(w) && w.mode.Transaction? && id in w.phases && w.phases[id].Getting?
    requires var request := w.phases[id].request; request.database in w.s.pools && request.inTxn
    requires id in w.s.clients && w.s.clients[id].txnConn.Some?
    requires w.s.conns[w.s.clients[id].txnConn.value].txn != w.phases[id].request.txn
    ensures Inv(Next(w, Get(id)))
  {
    hide Counted, Inv;
    OwnerOf(w, id);
    var c, request := w.s.clients[id], w.phases[id].request;
    var before := c.txnConn.value;
    DropKeeps(w, id, before, w.phases[id]);
    var d := w.(s := WithClient(GiveBack(w.s, before), id, c.(txnConn := None)),
        phases := w.phases[id := w.phases[id]]);
    FreshKeeps(d, id, request, c.(txnConn := Some(|w.s.conns|)), request.txn);
    assert d.phases == w.phases;
    var e := d.s.clients[id := c.(txnConn := Some(|w.s.conns|))];
    assert e == w.s.clients[id := c.(txnConn := Some(|w.s.conns|))];
  }

  lemma GetKeeps(w: World, id: string)
    requires Inv(w) && Sound(w) && id in w.phases && w.phases[id].Getting?
    ensures Inv(Next(w, Get(id)))
  {
    assert OwnerInv(w, id);
    var request := w.phases[id].request;
    var v := w.(s := GetPool(w.s, request.database));
    GetPoolKeeps(w, request.database);
    InvIsSound(v);
    hide Inv, Sound;
    if w.mode.Session? {
      SessionGetKeeps(v, id);
    } else if w.mode.Transaction? && request.inTxn {
      TransactionGetKeeps(v, id);
    } else {
      TemporaryKeeps(v, id, request);
    }
    assert Next(v, Get(id)) == Next(w, Get(id));
  }

  lemma PutKeeps(w: World, id: string)
    requires Inv(w) && Sound(w) && id in w.phases && w.phases[id].Using?
    ensures Inv(Next(w, Put(id)))
  {
    assert OwnerInv(w, id);
    var i, request, c := w.phases[id].conn, w.phases[id].request, w.s.clients[id];
    hide Inv, Counted;
    if !Keeps(w.s, id, i) {
      PutTemporaryKeeps(w, id);
      LoseKeeps(w, id);
    } else if w.mode.Transaction? && request.isEnd {
      DropKeeps(w, id, i, Ready);
    } else {
      ParkKeeps(w, id);
    }
  }

  // Every step keeps the invariant.
  lemma StepKeeps(w: World, l: Label)
    requires Inv(w) && Sound(w) && Enabled(w, l)
    ensures Inv(Next(w, l))
  {
    hide Counted, Unregister, GetConnection, ReturnConnection;
    match l
    case Connect(id) =>
      var r := Register(w.s, id, "default", w.mode);
      if r.Ok? { RegisterKeeps(w, id, "default", r.value, Ready); } else { MoveKeeps(w, id, Ready); }
    case Begin(id, request) => MoveKeeps(w, id, Next(w, l).phases[id]);
    case Release(id) =>
      assert OwnerInv(w, id);
      UnregisterKeeps(w, id, Registering(w.phases[id].request));
    case Enroll(id) =>
      assert OwnerInv(w, id);
      var request := w.phases[id].request;
      var r := Register(w.s, id, request.database, w.mode);
      if r.Ok? { RegisterKeeps(w, id, request.database, r.value, Getting(request)); } else { MoveKeeps(w, id, Ready); }
    case Get(id) => GetKeeps(w, id);
    case Put(id) => PutKeeps(w, id);
    case Disconnect(id) =>
      if id in w.s.clients {
        UnregisterKeeps(w, id, Gone);
      } else {
        MoveKeeps(w, id, Gone);
        UnregisterAbsent(w.s, id);
      }
  }

  lemma UnregisterAbsent(s: State, id: string)
    requires WellFormed(s) && id !in s.clients
    ensures Unregister(s, id) == s
  {
  }
}

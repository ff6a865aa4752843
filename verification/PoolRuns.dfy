/**
 Runs of any number of client connections over one pool manager. Each client
 connection is a goroutine of proxy/connection.go: it registers, and then, one
 request after another, re-registers when the database changes, gets a
 connection, uses it and returns it; at its end it unregisters. Each call of a
 Manager method is one step, and steps of different clients interleave freely.
 */
module PoolRuns {
  import opened Common
  import opened Pool
  import opened PoolCounts

  datatype Phase =
    | Ready
    | Releasing(request: Request)
    | Registering(request: Request)
    | Getting(request: Request)
    | Using(request: Request, conn: nat)
    | Gone

  // lost are the connections in use that nobody will ever return: returning them
  // left them in use, and no client keeps them.
  datatype World = World(mode: Mode, s: State, phases: map<string, Phase>, lost: set<nat>)

  function Start(mode: Mode, maxClients: int): World {
    World(mode, New(maxClients), map[], {})
  }

  datatype Label =
    | Connect(id: string)
    | Begin(id: string, request: Request)
    | Release(id: string)
    | Enroll(id: string)
    | Get(id: string)
    | Put(id: string)
    | Disconnect(id: string)

  // A client identifier holds the address and the time and is never used again.
  predicate Enabled(w: World, l: Label) {
    if l.Connect? then l.id !in w.phases
    else
      l.id in w.phases &&
      var ph := w.phases[l.id];
      match l
      case Begin(_, _) => ph.Ready?
      case Release(_) => ph.Releasing?
      case Enroll(_) => ph.Registering?
      case Get(_) => ph.Getting?
      case Put(_) => ph.Using?
      case Disconnect(_) => ph.Ready?
      case Connect(_) => true
  }

  predicate Keeps(s: State, id: string, i: nat) {
    id in s.clients && (s.clients[id].kept == Some(i) || s.clients[id].txnConn == Some(i))
  }

  predicate Sound(w: World) {
    WellFormed(w.s) && forall id :: id in w.phases && w.phases[id].Using? ==> w.phases[id].conn < |w.s.conns|
  }

  function Next(w: World, l: Label): World
    requires Sound(w) && Enabled(w, l)
  {
    match l
    case Connect(id) =>
      var r := Register(w.s, id, "default", w.mode);
      w.(s := if r.Ok? then r.value else w.s, phases := w.phases[id := Ready])
    case Begin(id, request) =>
      var ph :=
        if id !in w.s.clients then Registering(request)
        else if w.s.clients[id].database != request.database then Releasing(request)
        else Getting(request);
      w.(phases := w.phases[id := ph])
    case Release(id) =>
      w.(s := Unregister(w.s, id), phases := w.phases[id := Registering(w.phases[id].request)])
    case Enroll(id) =>
      var request := w.phases[id].request;
      var r := Register(w.s, id, request.database, w.mode);
      if r.Ok? then w.(s := r.value, phases := w.phases[id := Getting(request)])
      else w.(phases := w.phases[id := Ready])
    case Get(id) =>
      var request := w.phases[id].request;
      var (s, r) := GetConnection(w.s, id, request.database, request.inTxn, request.txn);
      w.(s := s, phases := w.phases[id := if r.Ok? then Using(request, r.value) else Ready])
    case Put(id) =>
      var i := w.phases[id].conn;
      var s := ReturnConnection(w.s, id, i, w.phases[id].request.isEnd);
      w.(s := s,
         phases := w.phases[id := Ready],
         lost := if i < |s.conns| && s.conns[i].inUse && !Keeps(s, id, i) then w.lost + {i} else w.lost)
    case Disconnect(id) =>
      w.(s := Unregister(w.s, id), phases := w.phases[id := Gone])
  }

  // --------------------------------------------------------------- invariant

  predicate Owned(s: State, id: string, i: nat, database: string) {
    i < |s.conns| && s.conns[i].inUse && s.conns[i].client == id && s.conns[i].pool == database
  }

  // What a client keeps is in use, its own, and of its database's pool.
  predicate ClientInv(w: World, id: string)
    requires id in w.s.clients
  {
    var c := w.s.clients[id];
    && c.mode == w.mode
    && (c.kept.Some? ==> w.mode.Session? && Owned(w.s, id, c.kept.value, c.database))
    && (c.txnConn.Some? ==> w.mode.Transaction? && Owned(w.s, id, c.txnConn.value, c.database))
  }

  predicate UsingInv(w: World, id: string, request: Request, i: nat)
    requires id in w.s.clients
  {
    var c := w.s.clients[id];
    && c.database == request.database
    && Owned(w.s, id, i, request.database)
    && (w.mode.Session? ==> c.kept == Some(i))
    && (w.mode.Transaction? ==>
          if request.inTxn then c.txnConn == Some(i) && w.s.conns[i].txn == request.txn
          else c.txnConn != Some(i))
  }

  predicate PhaseInv(w: World, id: string)
    requires id in w.phases
  {
    match w.phases[id]
    case Ready => true
    case Releasing(_) => id in w.s.clients
    case Registering(_) => id !in w.s.clients
    case Getting(request) => id in w.s.clients && w.s.clients[id].database == request.database
    case Using(request, i) => id in w.s.clients && UsingInv(w, id, request, i)
    case Gone => id !in w.s.clients
  }

  predicate OwnerInv(w: World, id: string)
    requires id in w.phases
  {
    (id in w.s.clients ==> ClientInv(w, id)) && PhaseInv(w, id)
  }

  // A connection that its client keeps or is just using.
  predicate Held(w: World, i: nat)
    requires i < |w.s.conns|
  {
    var id := w.s.conns[i].client;
    Keeps(w.s, id, i) || (id in w.phases && w.phases[id].Using? && w.phases[id].conn == i)
  }

  // A connection in use is held or lost, not both.
  predicate ConnInv(w: World, i: nat)
    requires i < |w.s.conns|
  {
    && (i in w.lost ==> w.s.conns[i].inUse && !Held(w, i))
    && (w.s.conns[i].inUse && i !in w.lost ==> Held(w, i))
  }

  predicate Bounded(s: State) {
    s.maxClients > 0 ==> |s.clients| <= s.maxClients
  }

  ghost predicate Inv(w: World) {
    && !w.mode.OtherMode?
    && Counted(w.s)
    && Bounded(w.s)
    && (forall id :: id in w.s.clients ==> id in w.phases)
    && (forall id :: id in w.phases ==> OwnerInv(w, id))
    && (forall i :: i in w.lost ==> i < |w.s.conns|)
    && (forall i :: 0 <= i < |w.s.conns| ==> ConnInv(w, i))
  }

  lemma InvIsSound(w: World)
    requires Inv(w)
    ensures Sound(w)
  {
    forall id | id in w.s.clients ensures Refers(w.s, w.s.clients[id]) {
      assert OwnerInv(w, id);
    }
    forall id | id in w.phases && w.phases[id].Using? ensures w.phases[id].conn < |w.s.conns| {
      assert OwnerInv(w, id);
    }
  }

  // ---------------------------------------------------------- what a step does

  // Only the client's own entry, phase and connections differ.
  ghost predicate Own(w: World, n: World, id: string) {
    && n.mode == w.mode
    && id in n.phases
    && n.phases == w.phases[id := n.phases[id]]
    && n.s.clients - {id} == w.s.clients - {id}
    && |w.s.conns| <= |n.s.conns|
    && (forall i :: 0 <= i < |w.s.conns| ==> OwnConn(w.s.conns[i], n.s.conns[i], id))
    && (forall i :: |w.s.conns| <= i < |n.s.conns| ==> n.s.conns[i].client == id)
    && w.lost <= n.lost
    && (forall i :: i in n.lost - w.lost ==> i < |w.s.conns| && w.s.conns[i].client == id)
  }

  predicate OwnConn(a: Conn, b: Conn, id: string) {
    a == b || (a.inUse && a.client == id)
  }

  lemma OthersKeep(w: World, n: World, id: string, o: string)
    requires Inv(w) && Own(w, n, id) && o != id && o in w.phases
    ensures OwnerInv(n, o)
  {
    assert OwnerInv(w, o);
    assert o in w.s.clients <==> o in (w.s.clients - {id});
    assert o in n.s.clients <==> o in (n.s.clients - {id});
    assert o in w.s.clients ==> (w.s.clients - {id})[o] == w.s.clients[o];
    assert o in n.s.clients ==> (n.s.clients - {id})[o] == n.s.clients[o];
  }

  lemma OtherConn(w: World, n: World, id: string, i: nat)
    requires Inv(w) && Own(w, n, id) && i < |w.s.conns| && w.s.conns[i].client != id
    ensures ConnInv(n, i)
  {
    assert ConnInv(w, i);
    var o := w.s.conns[i].client;
    assert n.s.conns[i] == w.s.conns[i] by { assert OwnConn(w.s.conns[i], n.s.conns[i], id); }
    assert o in w.s.clients <==> o in (w.s.clients - {id});
    assert o in n.s.clients <==> o in (n.s.clients - {id});
    assert o in w.s.clients ==> (w.s.clients - {id})[o] == w.s.clients[o];
    assert o in n.s.clients ==> (n.s.clients - {id})[o] == n.s.clients[o];
  }

  lemma Assemble(w: World, n: World, id: string)
    requires Inv(w) && Own(w, n, id)
    requires Counted(n.s) && Bounded(n.s) && OwnerInv(n, id)
    requires forall i :: 0 <= i < |n.s.conns| && (i >= |w.s.conns| || w.s.conns[i].client == id) ==> ConnInv(n, i)
    ensures Inv(n)
  {
    hide OwnerInv, ConnInv, Counted;
    forall o | o in n.phases ensures OwnerInv(n, o) {
      if o != id { OthersKeep(w, n, id, o); }
    }
    forall i | 0 <= i < |n.s.conns| ensures ConnInv(n, i) {
      if i < |w.s.conns| && w.s.conns[i].client != id { OtherConn(w, n, id, i); }
    }
    forall o | o in n.s.clients ensures o in n.phases {
      if o != id { assert o in n.s.clients - {id}; }
    }
    forall i | i in n.lost ensures i < |n.s.conns| {
      if i !in w.lost { assert i in n.lost - w.lost; }
    }
  }
}

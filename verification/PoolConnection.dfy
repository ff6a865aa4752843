/**
 roundTripWithPool of proxy/connection.go: one request of a client connection as
 a method over the pool manager, and its place among the steps of PoolRuns.
 */
module PoolConnection {
  import opened Common
  import opened Pool
  import opened PoolRuns
  import opened PoolSteps
  import M = PoolManager

  lemma UnregisterWellFormed(s: State, id: string)
    requires WellFormed(s)
    ensures WellFormed(Unregister(s, id))
  {
  }

  lemma TransactionConnWellFormed(s: State, id: string, database: string, txn: TxnId)
    requires WellFormed(s) && id in s.clients && database in s.pools
    ensures var (n, c) := TransactionConn(s, id, database, txn); WellFormed(n) && c < |n.conns|
  {
  }

  lemma GetWellFormed(s: State, id: string, database: string, inTxn: bool, txn: TxnId)
    requires WellFormed(s)
    ensures var (n, c) := GetConnection(s, id, database, inTxn, txn);
            WellFormed(n) && (c.Ok? ==> c.value < |n.conns|)
  {
    hide TransactionConn;
    if id in s.clients {
      TransactionConnWellFormed(GetPool(s, database), id, database, txn);
    }
  }

  // The client's registration under the request's database.
  function Registered(s: State, mode: Mode, id: string, database: string): Result<State>
    requires WellFormed(s)
  {
    if id !in s.clients then Register(s, id, database, mode)
    else if s.clients[id].database != database then
      Register(Unregister(s, id), id, database, mode)
    else Ok(s)
  }

  lemma RegisteredWellFormed(s: State, mode: Mode, id: string, database: string)
    requires WellFormed(s)
    ensures var r := Registered(s, mode, id, database); r.Ok? ==> WellFormed(r.value)
  {
    UnregisterWellFormed(s, id);
  }

  // The state after one request, and whether it was given a connection.
  function Served(s: State, mode: Mode, id: string, r: Request): (State, bool)
    requires WellFormed(s)
  {
    var reg := Registered(s, mode, id, r.database);
    if reg.Err? then (Unregister(s, id), false)
    else
      RegisteredWellFormed(s, mode, id, r.database);
      GetWellFormed(reg.value, id, r.database, r.inTxn, r.txn);
      var (n, c) := GetConnection(reg.value, id, r.database, r.inTxn, r.txn);
      if c.Err? then (n, false) else (ReturnConnection(n, id, c.value, r.isEnd), true)
  }

  // The part of roundTripWithPool that registers the client, again if its database changed.
  method EnsureRegistered(m: M.Manager, mode: Mode, id: string, database: string) returns (ok: bool)
    requires m.Valid()
    modifies m`activeClients, m`model, m.pools.Values, m.conns
    ensures m.Valid() && old(WellFormed(m.model))
    ensures var r := Registered(old(m.model), mode, id, database);
            if ok then r == Ok(m.model) else r.Err? && m.model == Unregister(old(m.model), id)
    ensures fresh(m.activeClients.Values - old(m.activeClients.Values))
  {
    hide M.Manager.PoolsOk, M.Manager.ConnsOk, M.Manager.ClientsOk, WellFormed, Unregister;
    var client := m.GetClient(id);
    if client.Some? {
      if client.value.database == database {
        return true;
      }
      m.UnregisterClient(id);
      assert m.activeClients.Values <= old(m.activeClients.Values);
    } else {
      UnregisterAbsent(m.model, id);
    }
    var r := m.RegisterClient(id, database, mode);
    ok := r.Ok?;
  }

  // One request: register, get a connection, use it, return it.
  method RoundTripWithPool(m: M.Manager, mode: Mode, id: string, r: Request) returns (ok: bool)
    requires m.Valid()
    modifies m, m.pools.Values, m.activeClients.Values, m.conns
    ensures m.Valid() && old(WellFormed(m.model)) && (m.model, ok) == Served(old(m.model), mode, id, r)
  {
    hide M.Manager.PoolsOk, M.Manager.ConnsOk, M.Manager.ClientsOk, WellFormed;
    hide Registered, GetConnection, ReturnConnection, Unregister;
    var registered := EnsureRegistered(m, mode, id, r.database);
    if !registered {
      return false;
    }
    ghost var c := GetConnection(m.model, id, r.database, r.inTxn, r.txn).1;
    var got := m.GetConnection(id, r.database, r.inTxn, r.txn);
    if got.Err? {
      return false;
    }
    m.ConnFacts(c.value);
    assert got.value.pool in m.pools.Values;
    m.ReturnConnection(id, got.value, c.value, r.isEnd);
    ok := true;
  }

  // --------------------------------------------------- its place in the runs

  function Rank(ph: Phase): nat {
    match ph
    case Releasing(_) => 4
    case Registering(_) => 3
    case Getting(_) => 2
    case Using(_, _) => 1
    case _ => 0
  }

  // The client's next step within a request.
  function OwnStep(id: string, ph: Phase): Label
    requires Rank(ph) > 0
  {
    match ph
    case Releasing(_) => Release(id)
    case Registering(_) => Enroll(id)
    case Getting(_) => Get(id)
    case Using(_, _) => Put(id)
  }

  lemma StepGoesOn(w: World, id: string)
    requires Inv(w) && id in w.phases && Rank(w.phases[id]) > 0
    ensures Sound(w) && Enabled(w, OwnStep(id, w.phases[id]))
    ensures var n := Next(w, OwnStep(id, w.phases[id]));
            Inv(n) && id in n.phases && Rank(n.phases[id]) < Rank(w.phases[id])
  {
    InvIsSound(w);
    StepKeeps(w, OwnStep(id, w.phases[id]));
  }

  // The client takes its own steps until the request is over.
  ghost function Finish(w: World, id: string): World
    requires Inv(w) && id in w.phases
    decreases Rank(w.phases[id])
  {
    if Rank(w.phases[id]) == 0 then w
    else
      StepGoesOn(w, id);
      Finish(Next(w, OwnStep(id, w.phases[id])), id)
  }

  lemma FromUsing(w: World, id: string)
    requires Inv(w) && id in w.phases && w.phases[id].Using?
    ensures WellFormed(w.s) && w.phases[id].conn < |w.s.conns|
    ensures Finish(w, id).s == ReturnConnection(w.s, id, w.phases[id].conn, w.phases[id].request.isEnd)
  {
    hide Inv, ReturnConnection;
    StepGoesOn(w, id);
  }

  lemma FromGetting(w: World, id: string)
    requires Inv(w) && id in w.phases && w.phases[id].Getting?
    ensures var r := w.phases[id].request;
            && WellFormed(w.s)
            && var (n, c) := GetConnection(w.s, id, r.database, r.inTxn, r.txn);
               && (c.Ok? ==> WellFormed(n) && c.value < |n.conns|)
               && Finish(w, id).s == if c.Ok? then ReturnConnection(n, id, c.value, r.isEnd) else n
  {
    hide Inv, GetConnection, ReturnConnection;
    StepGoesOn(w, id);
    var v := Next(w, Get(id));
    if v.phases[id].Using? { FromUsing(v, id); }
  }

  lemma FromRegistering(w: World, id: string)
    requires Inv(w) && id in w.phases && w.phases[id].Registering?
    ensures var r := w.phases[id].request;
            var reg := Register(w.s, id, r.database, w.mode);
            if reg.Ok? then
              var v := w.(s := reg.value, phases := w.phases[id := Getting(r)]);
              Inv(v) && Finish(w, id) == Finish(v, id)
            else Finish(w, id).s == w.s
  {
    hide Inv, Register;
    StepGoesOn(w, id);
  }

  lemma FromReleasing(w: World, id: string)
    requires Inv(w) && id in w.phases && w.phases[id].Releasing?
    ensures WellFormed(w.s)
    ensures var v := w.(s := Unregister(w.s, id), phases := w.phases[id := Registering(w.phases[id].request)]);
            Inv(v) && Finish(w, id) == Finish(v, id)
  {
    hide Inv, Unregister;
    StepGoesOn(w, id);
  }

  lemma ServedFrom(s: State, mode: Mode, id: string, r: Request, t: State)
    requires WellFormed(s) && WellFormed(t) && Registered(s, mode, id, r.database) == Ok(t)
    ensures var (n, c) := GetConnection(t, id, r.database, r.inTxn, r.txn);
            && (c.Ok? ==> WellFormed(n) && c.value < |n.conns|)
            && Served(s, mode, id, r).0 == if c.Ok? then ReturnConnection(n, id, c.value, r.isEnd) else n
  {
    GetWellFormed(t, id, r.database, r.inTxn, r.txn);
  }

  /**
   A request that runs undisturbed through the steps of the concurrent model
   leaves the manager as roundTripWithPool leaves it.
   */
  lemma RoundTripIsRun(w: World, id: string, r: Request)
    requires Inv(w) && id in w.phases && w.phases[id].Ready?
    ensures Sound(w) && Inv(Next(w, Begin(id, r)))
    ensures Finish(Next(w, Begin(id, r)), id).s == Served(w.s, w.mode, id, r).0
  {
    hide Inv, Unregister, Register, GetConnection, ReturnConnection, Finish, WellFormed;
    InvIsSound(w);
    StepKeeps(w, Begin(id, r));
    var v := Next(w, Begin(id, r));
    if v.phases[id].Getting? {
      FromGetting(v, id);
      ServedFrom(w.s, w.mode, id, r, w.s);
    } else {
      if v.phases[id].Releasing? {
        FromReleasing(v, id);
        v := v.(s := Unregister(v.s, id), phases := v.phases[id := Registering(r)]);
      } else {
        UnregisterAbsent(w.s, id);
      }
      FromRegistering(v, id);
      var reg := Register(v.s, id, r.database, v.mode);
      if reg.Ok? {
        FromGetting(v.(s := reg.value, phases := v.phases[id := Getting(r)]), id);
        ServedFrom(w.s, w.mode, id, r, reg.value);
      }
    }
  }
}

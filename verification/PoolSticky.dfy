/**
 Stickiness: which connection a client's requests are given, over a whole run.
 */
module PoolSticky {
  import opened Common
  import opened Pool
  import opened PoolCounts
  import opened PoolRuns
  import opened PoolSteps
  import opened PoolTheorems

  // The connection is the client's for all requests (session mode) or for those
  // of the transaction (transaction mode).
  predicate Bound(w: World, id: string, c: nat, txn: TxnId) {
    && id in w.s.clients && c < |w.s.conns|
    && if w.mode.Session? then w.s.clients[id].kept == Some(c)
       else w.mode.Transaction? && w.s.clients[id].txnConn == Some(c) && w.s.conns[c].txn == txn
  }

  // The steps that take the connection away from the client: it unregisters, or,
  // in transaction mode, it ends the transaction or asks for another one's.
  predicate Unbinds(w: World, l: Label, id: string, txn: TxnId) {
    || l == Release(id)
    || l == Disconnect(id)
    || (w.mode.Transaction? && id in w.phases && l == Get(id) && w.phases[id].Getting?
        && w.phases[id].request.inTxn && w.phases[id].request.txn != txn)
    || (w.mode.Transaction? && id in w.phases && l == Put(id) && w.phases[id].Using?
        && w.phases[id].request.inTxn && w.phases[id].request.isEnd)
  }

  lemma UnregisterConns(w: World, id: string, c: nat)
    requires Inv(w) && Sound(w) && id in w.phases && c < |w.s.conns|
    ensures |Unregister(w.s, id).conns| == |w.s.conns|
    ensures OwnConn(w.s.conns[c], Unregister(w.s, id).conns[c], id)
  {
    assert OwnerInv(w, id);
  }

  lemma GetConns(w: World, id: string, c: nat)
    requires Inv(w) && Sound(w) && Enabled(w, Get(id)) && c < |w.s.conns|
    ensures |w.s.conns| <= |Next(w, Get(id)).s.conns|
    ensures OwnConn(w.s.conns[c], Next(w, Get(id)).s.conns[c], id)
  {
    assert OwnerInv(w, id);
  }

  lemma PutConns(w: World, id: string, c: nat)
    requires Inv(w) && Sound(w) && Enabled(w, Put(id)) && c < |w.s.conns|
    ensures |w.s.conns| <= |Next(w, Put(id)).s.conns|
    ensures OwnConn(w.s.conns[c], Next(w, Put(id)).s.conns[c], id)
  {
    assert OwnerInv(w, id);
  }

  // A step of one client leaves the others' connections alone, and never takes a
  // returned connection into use again.
  lemma StepConns(w: World, l: Label, c: nat)
    requires Inv(w) && Sound(w) && Enabled(w, l) && c < |w.s.conns|
    ensures c < |Next(w, l).s.conns| && OwnConn(w.s.conns[c], Next(w, l).s.conns[c], l.id)
  {
    hide Inv, Unregister;
    match l
    case Release(id) => UnregisterConns(w, id, c);
    case Disconnect(id) => UnregisterConns(w, id, c);
    case Get(id) => GetConns(w, id, c);
    case Put(id) => PutConns(w, id, c);
    case _ =>
  }

  lemma StepClients(w: World, l: Label, id: string)
    requires Sound(w) && Enabled(w, l) && l.id != id && id in w.s.clients
    ensures id in Next(w, l).s.clients && Next(w, l).s.clients[id] == w.s.clients[id]
  {
    hide Return, GetPool, Checkout, WellFormed, Unregister;
    match l
    case Release(_) => UnregisterClients(w.s, l.id, id);
    case Disconnect(_) => UnregisterClients(w.s, l.id, id);
    case Get(_) => GetClients(w.s, l.id, w.phases[l.id].request, id);
    case Put(_) => PutClients(w.s, l.id, w.phases[l.id].conn, w.phases[l.id].request.isEnd, id);
    case _ =>
  }

  lemma UnregisterClients(s: State, who: string, id: string)
    requires WellFormed(s) && who != id && id in s.clients
    ensures id in Unregister(s, who).clients && Unregister(s, who).clients[id] == s.clients[id]
  {
  }

  lemma GetClients(s: State, who: string, r: Request, id: string)
    requires WellFormed(s) && who != id && id in s.clients
    ensures var n := GetConnection(s, who, r.database, r.inTxn, r.txn).0;
            id in n.clients && n.clients[id] == s.clients[id]
  {
  }

  lemma PutClients(s: State, who: string, i: nat, isEnd: bool, id: string)
    requires WellFormed(s) && i < |s.conns| && who != id && id in s.clients
    ensures var n := ReturnConnection(s, who, i, isEnd);
            id in n.clients && n.clients[id] == s.clients[id]
  {
  }

  lemma OthersBound(w: World, l: Label, id: string, c: nat, txn: TxnId)
    requires Inv(w) && Sound(w) && Enabled(w, l) && Bound(w, id, c, txn) && l.id != id
    ensures Bound(Next(w, l), id, c, txn)
  {
    assert OwnerInv(w, id);
    StepConns(w, l, c);
    StepClients(w, l, id);
    MaxClientsStays(w, l);
    hide Next, Inv;
  }

  lemma StaysBound(w: World, l: Label, id: string, c: nat, txn: TxnId)
    requires Inv(w) && Sound(w) && Enabled(w, l) && Bound(w, id, c, txn)
    requires l.id == id && !Unbinds(w, l, id, txn)
    ensures Bound(Next(w, l), id, c, txn)
  {
    assert OwnerInv(w, id);
  }

  lemma Unbound(w: World, l: Label, id: string, c: nat, txn: TxnId)
    requires Inv(w) && Sound(w) && Enabled(w, l) && Bound(w, id, c, txn) && Unbinds(w, l, id, txn)
    ensures c < |Next(w, l).s.conns| && !Next(w, l).s.conns[c].inUse
  {
    assert OwnerInv(w, id);
  }

  // ------------------------------------------------------------- over whole runs

  // Step k of the run takes the connection away from the client.
  ghost predicate UnbindsAt(mode: Mode, maxClients: int, ls: seq<Label>, k: nat, id: string, txn: TxnId)
    requires !mode.OtherMode? && k < |ls|
  {
    var o := Run(mode, maxClients, ls[..k]);
    o.Some? && Unbinds(o.value, ls[k], id, txn)
  }

  ghost predicate NeverUnbound(mode: Mode, maxClients: int, ls: seq<Label>, i: nat, id: string, txn: TxnId)
    requires !mode.OtherMode?
  {
    forall k :: i <= k < |ls| ==> !UnbindsAt(mode, maxClients, ls, k, id, txn)
  }

  lemma LastStep(mode: Mode, maxClients: int, ls: seq<Label>, i: nat, id: string, txn: TxnId)
    requires !mode.OtherMode? && i < |ls|
    ensures var m := |ls| - 1;
            NeverUnbound(mode, maxClients, ls, i, id, txn) <==>
            NeverUnbound(mode, maxClients, ls[..m], i, id, txn) && !UnbindsAt(mode, maxClients, ls, m, id, txn)
  {
    hide Unbinds, Run;
    var m := |ls| - 1;
    forall k: nat | k < m
      ensures UnbindsAt(mode, maxClients, ls[..m], k, id, txn) == UnbindsAt(mode, maxClients, ls, k, id, txn)
    {
      assert ls[..m][..k] == ls[..k];
    }
  }

  lemma LastUnbinds(mode: Mode, maxClients: int, ls: seq<Label>, id: string, txn: TxnId)
    requires !mode.OtherMode? && ls != [] && Run(mode, maxClients, ls[..|ls| - 1]).Some?
    ensures var m := |ls| - 1;
            UnbindsAt(mode, maxClients, ls, m, id, txn) <==>
            Unbinds(Run(mode, maxClients, ls[..m]).value, ls[m], id, txn)
  {
  }

  lemma RunStep(mode: Mode, maxClients: int, ls: seq<Label>)
    requires !mode.OtherMode? && ls != [] && Run(mode, maxClients, ls).Some?
    ensures var m := |ls| - 1;
            var o := Run(mode, maxClients, ls[..m]);
            o.Some? && Enabled(o.value, ls[m]) && Run(mode, maxClients, ls) == Some(Next(o.value, ls[m]))
  {
  }

  // Bound, or out of use: one step.
  lemma OneStep(w: World, l: Label, id: string, c: nat, txn: TxnId, bound: bool)
    requires Inv(w) && Sound(w) && Enabled(w, l) && c < |w.s.conns|
    requires if bound then Bound(w, id, c, txn) else !w.s.conns[c].inUse
    ensures var n := Next(w, l);
            && c < |n.s.conns|
            && if bound && !Unbinds(w, l, id, txn) then Bound(n, id, c, txn) else !n.s.conns[c].inUse
  {
    hide Next, Unbinds, Inv, Sound, Bound;
    StepConns(w, l, c);
    if bound {
      if Unbinds(w, l, id, txn) {
        Unbound(w, l, id, c, txn);
      } else if l.id == id {
        StaysBound(w, l, id, c, txn);
      } else {
        OthersBound(w, l, id, c, txn);
      }
    }
  }

  // From a moment when the client is bound to a connection, it stays bound while
  // nothing unbinds it, and the connection is out of use for good afterwards.
  lemma {:induction false} BoundOrReturned(
      mode: Mode, maxClients: int, ls: seq<Label>, i: nat, id: string, c: nat, txn: TxnId)
    requires !mode.OtherMode? && i <= |ls| && Run(mode, maxClients, ls).Some?
    requires Run(mode, maxClients, ls[..i]).Some? && Bound(Run(mode, maxClients, ls[..i]).value, id, c, txn)
    ensures var w := Run(mode, maxClients, ls).value;
            && c < |w.s.conns|
            && if NeverUnbound(mode, maxClients, ls, i, id, txn) then Bound(w, id, c, txn)
               else !w.s.conns[c].inUse
    decreases |ls|
  {
    hide Run, Next, Unbinds, UnbindsAt, Inv, Sound, Enabled;
    if i == |ls| {
      assert ls[..i] == ls;
    } else {
      hide Bound, NeverUnbound;
      var m := |ls| - 1;
      assert ls[..m][..i] == ls[..i];
      RunStep(mode, maxClients, ls);
      LastStep(mode, maxClients, ls, i, id, txn);
      LastUnbinds(mode, maxClients, ls, id, txn);
      BoundOrReturned(mode, maxClients, ls[..m], i, id, c, txn);
      OneStep(Run(mode, maxClients, ls[..m]).value, ls[m], id, c, txn,
              NeverUnbound(mode, maxClients, ls[..m], i, id, txn));
    }
  }

  // A request that sticks: any in session mode, those of a transaction in transaction mode.
  predicate Sticks(mode: Mode, r: Request) {
    mode.Session? || (mode.Transaction? && r.inTxn)
  }

  /**
   A session-mode client, whatever it asks for, and a transaction-mode client,
   for the requests of one transaction, uses the same connection again exactly
   when in between the client has not unregistered and, in transaction mode, has
   neither ended the transaction nor asked for a connection for another one.
   Requests outside transactions and all other clients' steps make no difference.
   */
  lemma Sticky(mode: Mode, maxClients: int, ls: seq<Label>, i: nat, id: string)
    requires !mode.OtherMode? && i <= |ls| && Run(mode, maxClients, ls).Some?
    requires Run(mode, maxClients, ls[..i]).Some?
    requires var u, w := Run(mode, maxClients, ls[..i]).value, Run(mode, maxClients, ls).value;
             && id in u.phases && u.phases[id].Using? && Sticks(mode, u.phases[id].request)
             && id in w.phases && w.phases[id].Using? && Sticks(mode, w.phases[id].request)
             && (mode.Transaction? ==> w.phases[id].request.txn == u.phases[id].request.txn)
    ensures var u, w := Run(mode, maxClients, ls[..i]).value, Run(mode, maxClients, ls).value;
            w.phases[id].conn == u.phases[id].conn <==>
            NeverUnbound(mode, maxClients, ls, i, id, u.phases[id].request.txn)
  {
    var u, w := Run(mode, maxClients, ls[..i]).value, Run(mode, maxClients, ls).value;
    assert OwnerInv(u, id) && OwnerInv(w, id);
    hide Run, NeverUnbound;
    var c, txn := u.phases[id].conn, u.phases[id].request.txn;
    assert Bound(u, id, c, txn);
    BoundOrReturned(mode, maxClients, ls, i, id, c, txn);
  }
}

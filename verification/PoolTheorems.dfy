/**
 What holds of the pool manager in every run: the counters are exact, a
 connection is lost in exactly one way, and clients stick to their connections
 exactly as long as nothing unbinds them.
 */
module PoolTheorems {
  import opened Common
  import opened Pool
  import opened PoolCounts
  import opened PoolRuns
  import opened PoolSteps

  // The world a run reaches, if each of its steps is enabled when it is taken.
  ghost function Run(mode: Mode, maxClients: int, ls: seq<Label>): (o: Option<World>)
    requires !mode.OtherMode?
    ensures o.Some? ==> Inv(o.value) && Sound(o.value) && o.value.mode == mode && o.value.s.maxClients == maxClients
  {
    if ls == [] then Some(Start(mode, maxClients))
    else
      var o, l := Run(mode, maxClients, ls[..|ls| - 1]), ls[|ls| - 1];
      if o.Some? && Enabled(o.value, l) then
        StepKeeps(o.value, l);
        InvIsSound(Next(o.value, l));
        MaxClientsStays(o.value, l);
        Some(Next(o.value, l))
      else None
  }

  lemma MaxClientsStays(w: World, l: Label)
    requires Sound(w) && Enabled(w, l)
    ensures Next(w, l).s.maxClients == w.s.maxClients && Next(w, l).mode == w.mode
  {
  }

  // ------------------------------------------------------------- conservation

  /**
   In every state of every run and for every pool, ActiveConnections is the
   number of connections checked out of it and not returned; each of those is
   held by a client or lost; no return ever met the counter's floor; and the
   number of clients respects the limit.
   */
  lemma CountersAreExact(mode: Mode, maxClients: int, ls: seq<Label>, database: string)
    requires !mode.OtherMode? && Run(mode, maxClients, ls).Some?
    requires database in Run(mode, maxClients, ls).value.s.pools
    ensures var w := Run(mode, maxClients, ls).value;
            && w.s.pools[database] == |InUse(w.s.conns, database)|
            && (forall i :: i in InUse(w.s.conns, database) ==> (i in w.lost) != Held(w, i))
            && w.s.floored == 0
            && (maxClients > 0 ==> |w.s.clients| <= maxClients)
  {
    var w := Run(mode, maxClients, ls).value;
    forall i | i in InUse(w.s.conns, database) ensures (i in w.lost) != Held(w, i) {
      assert ConnInv(w, i);
    }
  }

  // The one step that loses a connection: a transaction-mode client returns a
  // connection with the end-of-transaction mark although the request was not
  // part of a transaction.
  predicate Stray(w: World, l: Label) {
    l.Put? && l.id in w.phases && w.phases[l.id].Using? && w.mode.Transaction?
    && w.phases[l.id].request.isEnd && !w.phases[l.id].request.inTxn
  }

  lemma LostExactly(w: World, l: Label)
    requires Inv(w) && Sound(w) && Enabled(w, l)
    ensures Next(w, l).lost == if Stray(w, l) then w.lost + {w.phases[l.id].conn} else w.lost
    ensures Stray(w, l) ==> w.phases[l.id].conn !in w.lost
  {
    if l.Put? {
      var id := l.id;
      assert OwnerInv(w, id);
      assert ConnInv(w, w.phases[id].conn);
    }
  }

  ghost function Strays(mode: Mode, maxClients: int, ls: seq<Label>): nat
    requires !mode.OtherMode?
  {
    if ls == [] then 0
    else
      var o := Run(mode, maxClients, ls[..|ls| - 1]);
      Strays(mode, maxClients, ls[..|ls| - 1]) + if o.Some? && Stray(o.value, ls[|ls| - 1]) then 1 else 0
  }

  lemma {:induction false} LostCount(mode: Mode, maxClients: int, ls: seq<Label>)
    requires !mode.OtherMode? && Run(mode, maxClients, ls).Some?
    ensures |Run(mode, maxClients, ls).value.lost| == Strays(mode, maxClients, ls)
  {
    if ls != [] {
      LostCount(mode, maxClients, ls[..|ls| - 1]);
      LostExactly(Run(mode, maxClients, ls[..|ls| - 1]).value, ls[|ls| - 1]);
    }
  }

  predicate AllGone(w: World) {
    forall id :: id in w.phases ==> w.phases[id].Gone?
  }

  // A pool's lost connections.
  function LostIn(w: World, database: string): set<nat> {
    set i | i in w.lost && i < |w.s.conns| && w.s.conns[i].pool == database
  }

  // With every client gone, what is still in use is what was lost.
  lemma OnlyLostRemain(w: World, database: string)
    requires Inv(w) && AllGone(w)
    ensures InUse(w.s.conns, database) == LostIn(w, database)
  {
    forall i: nat | i < |w.s.conns| ensures w.s.conns[i].inUse <==> i in w.lost {
      assert ConnInv(w, i);
      if Keeps(w.s, w.s.conns[i].client, i) {
        assert OwnerInv(w, w.s.conns[i].client);
      }
    }
  }

  /**
   Once every client has unregistered, each pool's ActiveConnections is the
   number of its connections that were lost; all counters are back at zero
   exactly when no stray return happened in the run. In session and statement
   mode none can.
   */
  lemma Conservation(mode: Mode, maxClients: int, ls: seq<Label>)
    requires !mode.OtherMode? && Run(mode, maxClients, ls).Some? && AllGone(Run(mode, maxClients, ls).value)
    ensures var w := Run(mode, maxClients, ls).value;
            && (forall p :: p in w.s.pools ==> w.s.pools[p] == |LostIn(w, p)|)
            && |w.lost| == Strays(mode, maxClients, ls)
            && ((forall p :: p in w.s.pools ==> w.s.pools[p] == 0) <==> Strays(mode, maxClients, ls) == 0)
            && (!mode.Transaction? ==> Strays(mode, maxClients, ls) == 0)
  {
    var w := Run(mode, maxClients, ls).value;
    LostCount(mode, maxClients, ls);
    forall p | p in w.s.pools ensures w.s.pools[p] == |LostIn(w, p)| {
      OnlyLostRemain(w, p);
    }
    if w.lost == {} {
      forall p | p in w.s.pools ensures w.s.pools[p] == 0 {
        assert LostIn(w, p) <= w.lost;
      }
    } else {
      var i :| i in w.lost;
      var p := w.s.conns[i].pool;
      assert i in LostIn(w, p);
    }
    if !mode.Transaction? { NoStrays(mode, maxClients, ls); }
  }

  lemma {:induction false} NoStrays(mode: Mode, maxClients: int, ls: seq<Label>)
    requires !mode.OtherMode? && !mode.Transaction?
    ensures Strays(mode, maxClients, ls) == 0
  {
    if ls != [] { NoStrays(mode, maxClients, ls[..|ls| - 1]); }
  }

  // The messages whose return is stray in transaction mode: a command that ends a
  // transaction without transaction details, or any whose details say autocommit.
  predicate StrayMessage(command: string, details: Option<Details>) {
    if details.Some? then details.value.autocommit
    else command in {"commitTransaction", "abortTransaction", "endSessions"}
  }

  lemma StrayMessages(database: string, command: string, details: Option<Details>)
    ensures var r := RequestOf(database, command, details); r.isEnd && !r.inTxn <==> StrayMessage(command, details)
  {
  }

  // The request is read off a message that is not stray.
  ghost predicate Wholesome(r: Request) {
    exists database, command, details ::
      r == RequestOf(database, command, details) && !StrayMessage(command, details)
  }

  ghost predicate AllWholesome(ls: seq<Label>) {
    forall i :: 0 <= i < |ls| && ls[i].Begin? ==> Wholesome(ls[i].request)
  }

  // Whatever a client is doing, it is doing for a request that it began.
  lemma {:induction false} RequestsBegan(mode: Mode, maxClients: int, ls: seq<Label>, id: string)
    requires !mode.OtherMode? && Run(mode, maxClients, ls).Some? && AllWholesome(ls)
    ensures var w := Run(mode, maxClients, ls).value;
            id in w.phases && !w.phases[id].Ready? && !w.phases[id].Gone? ==> Wholesome(w.phases[id].request)
  {
    hide Wholesome, Next;
    if ls != [] {
      var n := |ls| - 1;
      RequestsBegan(mode, maxClients, ls[..n], id);
      RequestsKept(Run(mode, maxClients, ls[..n]).value, ls[n], id);
    }
  }

  lemma RequestsKept(w: World, l: Label, id: string)
    requires Sound(w) && Enabled(w, l)
    ensures var w' := Next(w, l);
            id in w'.phases && !w'.phases[id].Ready? && !w'.phases[id].Gone? ==>
              || l == Begin(id, w'.phases[id].request)
              || (id in w.phases && !w.phases[id].Ready? && !w.phases[id].Gone?
                  && w'.phases[id].request == w.phases[id].request)
  {
  }

  lemma {:induction false} WholesomeNoStrays(mode: Mode, maxClients: int, ls: seq<Label>)
    requires !mode.OtherMode? && Run(mode, maxClients, ls).Some? && AllWholesome(ls)
    ensures Strays(mode, maxClients, ls) == 0
  {
    hide Wholesome;
    if ls != [] {
      var n := |ls| - 1;
      WholesomeNoStrays(mode, maxClients, ls[..n]);
      var w := Run(mode, maxClients, ls[..n]).value;
      if Stray(w, ls[n]) {
        RequestsBegan(mode, maxClients, ls[..n], ls[n].id);
        WholesomeEnds(w.phases[ls[n].id].request);
      }
    }
  }

  lemma WholesomeEnds(r: Request)
    requires Wholesome(r)
    ensures !(r.isEnd && !r.inTxn)
  {
    var database, command, details :|
      r == RequestOf(database, command, details) && !StrayMessage(command, details);
    StrayMessages(database, command, details);
  }

  /**
   In every mode: if no client sends a stray message, all counters are back at zero
   once every client has unregistered.
   */
  lemma WholesomeConservation(mode: Mode, maxClients: int, ls: seq<Label>)
    requires !mode.OtherMode? && Run(mode, maxClients, ls).Some? && AllWholesome(ls)
    requires AllGone(Run(mode, maxClients, ls).value)
    ensures var w := Run(mode, maxClients, ls).value; w.lost == {} && forall p :: p in w.s.pools ==> w.s.pools[p] == 0
  {
    WholesomeNoStrays(mode, maxClients, ls);
    Conservation(mode, maxClients, ls);
  }

  // ------------------------------------------------- what messages come to

  // The commands that end a transaction.
  predicate Ending(command: string) {
    command in {"commitTransaction", "abortTransaction", "endSessions"}
  }

  /**
   The connection a request is on, told from its message, in every reachable state
   of transaction mode: it is one of the pool of the message's database, "default"
   if it names none; it is bound to the client, under the message's own session and
   number, exactly if the message has transaction details that do not say
   autocommit.
   */
  lemma UsingIsByMessage(mode: Mode, maxClients: int, ls: seq<Label>, id: string, database: string, command: string,
                         details: Option<Details>)
    requires !mode.OtherMode? && Run(mode, maxClients, ls).Some? && mode.Transaction?
    requires var w := Run(mode, maxClients, ls).value;
             id in w.phases && w.phases[id].Using? && w.phases[id].request == RequestOf(database, command, details)
    ensures var w := Run(mode, maxClients, ls).value;
            var i := w.phases[id].conn;
            && id in w.s.clients && i < |w.s.conns| && w.s.conns[i].inUse && w.s.conns[i].client == id
            && w.s.conns[i].pool == w.s.clients[id].database == (if database == "" then "default" else database)
            && (w.s.clients[id].txnConn == Some(i) <==> details.Some? && !details.value.autocommit)
            && (details.Some? && !details.value.autocommit ==>
                  w.s.conns[i].txn == TxnId(details.value.lsid, details.value.number))
  {
    var w := Run(mode, maxClients, ls).value;
    assert OwnerInv(w, id);
  }

  /**
   What the return of a request in a transaction does, told from its message: after
   commitTransaction, abortTransaction and endSessions, and after no other command,
   the connection is back in its pool and the client bound to none; otherwise the
   client is bound to it still, and it is in use.
   */
  lemma EndsItsTransaction(mode: Mode, maxClients: int, ls: seq<Label>, id: string, database: string, command: string,
                           d: Details)
    requires !mode.OtherMode? && Run(mode, maxClients, ls).Some? && mode.Transaction? && !d.autocommit
    requires var w := Run(mode, maxClients, ls).value;
             id in w.phases && w.phases[id].Using? && w.phases[id].request == RequestOf(database, command, Some(d))
    ensures var w := Run(mode, maxClients, ls).value;
            var i := w.phases[id].conn;
            && Sound(w) && Enabled(w, Put(id))
            && var w' := Next(w, Put(id));
            && i < |w'.s.conns| && id in w'.s.clients && w'.lost == w.lost
            && if Ending(command) then
                 w'.s.conns[i] == Conn(w.s.conns[i].pool, false, NoTxn, "") && w'.s.clients[id].txnConn.None?
               else w'.s.conns[i] == w.s.conns[i] && w'.s.conns[i].inUse && w'.s.clients[id].txnConn == Some(i)
  {
    var w := Run(mode, maxClients, ls).value;
    assert OwnerInv(w, id);
    LostExactly(w, Put(id));
  }

  /**
   The return of a request outside a transaction, told from its message: the
   connection is back in its pool unless the message is stray, and then it is lost;
   what the client is bound to stays.
   */
  lemma LoneReturn(mode: Mode, maxClients: int, ls: seq<Label>, id: string, database: string, command: string,
                   details: Option<Details>)
    requires !mode.OtherMode? && Run(mode, maxClients, ls).Some? && mode.Transaction?
    requires details.Some? ==> details.value.autocommit
    requires var w := Run(mode, maxClients, ls).value;
             id in w.phases && w.phases[id].Using? && w.phases[id].request == RequestOf(database, command, details)
    ensures var w := Run(mode, maxClients, ls).value;
            var i := w.phases[id].conn;
            && Sound(w) && Enabled(w, Put(id))
            && var w' := Next(w, Put(id));
            && i < |w'.s.conns| && id in w.s.clients && id in w'.s.clients
            && w'.s.clients[id].txnConn == w.s.clients[id].txnConn
            && (w'.s.conns[i].inUse <==> details.Some? || Ending(command))
            && (w'.s.conns[i].inUse <==> i in w'.lost)
  {
    var w := Run(mode, maxClients, ls).value;
    assert OwnerInv(w, id);
    assert ConnInv(w, w.phases[id].conn);
    LostExactly(w, Put(id));
  }

  /**
   Who is let in: a client that connects, or registers anew for another database, is
   registered exactly if there is no limit or fewer clients than the limit are, and
   then under that database and bound to nothing.
   */
  lemma LetInExactly(mode: Mode, maxClients: int, ls: seq<Label>, l: Label)
    requires !mode.OtherMode? && Run(mode, maxClients, ls).Some? && (l.Connect? || l.Enroll?)
    requires Enabled(Run(mode, maxClients, ls).value, l)
    ensures var w := Run(mode, maxClients, ls).value;
            var database := if l.Connect? then "default" else w.phases[l.id].request.database;
            && Sound(w) && l.id !in w.s.clients
            && var w' := Next(w, l);
            && (l.id in w'.s.clients <==> maxClients <= 0 || |w.s.clients| < maxClients)
            && (l.id in w'.s.clients ==> w'.s.clients == w.s.clients[l.id := Client(database, mode, None, None)])
            && (l.id !in w'.s.clients ==> w'.s == w.s)
            && w'.s.conns == w.s.conns && w'.s.pools == w.s.pools
  {
    var w := Run(mode, maxClients, ls).value;
    if l.Enroll? {
      assert OwnerInv(w, l.id);
    }
  }
}

/**
 RoundTrip of mongo/mongo.go in its own form: a retry loop over session objects,
 caches and a stack of deferred actions. It is proved to run the steps of
 Protocol, so everything proved of those steps holds of it.
 */
module RoundTrip {
  import opened Common
  import opened Keys
  import opened Sessions
  import P = Protocol
  import Lru

  // The driver side: how many connections it has handed out, and the history.
  class Driver {
    var handedOut: nat
    ghost var conns: seq<P.ConnRec>
    ghost var trace: seq<P.Event>

    ghost predicate Valid()
      reads this
    {
      handedOut == |conns|
    }

    constructor ()
      ensures Valid() && conns == [] && trace == []
    {
      handedOut, conns, trace := 0, [], [];
    }
  }

  // A run as the iteration of a step function; i is the number of the step.
  type Stepper = (P.Config, nat) -> P.Config

  function Iterate(f: Stepper, cfg: P.Config, k: nat, n: nat): P.Config {
    if n == 0 then cfg else f(Iterate(f, cfg, k, n - 1), k + n - 1)
  }

  lemma IterateOne(f: Stepper, cfg: P.Config, k: nat, n: nat)
    ensures Iterate(f, cfg, k, n + 1) == f(Iterate(f, cfg, k, n), k + n)
  {
  }

  lemma {:induction false} IterateMore(f: Stepper, cfg: P.Config, k: nat, m: nat, n: nat)
    ensures Iterate(f, cfg, k, m + n) == Iterate(f, Iterate(f, cfg, k, m), k + m, n)
  {
    if n > 0 {
      IterateMore(f, cfg, k, m, n - 1);
    }
  }

  // Two stretches of a run, from step k to m and from m to n, make one.
  lemma Chain(f: Stepper, a: P.Config, b: P.Config, c: P.Config, k: nat, m: nat, n: nat)
    requires k <= m <= n && Iterate(f, a, k, m - k) == b && Iterate(f, b, m, n - m) == c
    ensures Iterate(f, a, k, n - k) == c
  {
    IterateMore(f, a, k, m - k, n - m);
  }

  function StepOf(cfg: P.Config, o: P.Oracle): P.Config {
    if P.Sane(cfg.c, cfg.sh) then P.Step(cfg.c, cfg.sh, cfg.ca, o) else cfg
  }

  // The steps of the modelled call, step i answered by oracle(i).
  function Steps(oracle: nat -> P.Oracle): Stepper {
    (cfg: P.Config, i: nat) => StepOf(cfg, oracle(i))
  }

  // Marks the configurations at which a proof looks inside a step.
  ghost predicate Look(cfg: P.Config) {
    true
  }

  ghost predicate Answers(f: Stepper, k: nat, o: P.Oracle) {
    forall cfg {:trigger Look(cfg)} :: Look(cfg) ==> f(cfg, k) == StepOf(cfg, o)
  }

  ghost predicate Follows(f: Stepper, oracle: nat -> P.Oracle) {
    forall k: nat {:trigger Answers(f, k, oracle(k))} :: Answers(f, k, oracle(k))
  }

  lemma LookAt(f: Stepper, oracle: nat -> P.Oracle, k: nat, cfg: P.Config)
    requires Follows(f, oracle)
    ensures f(cfg, k) == StepOf(cfg, oracle(k))
  {
    assert Answers(f, k, oracle(k)) && Look(cfg);
  }

  lemma StepsFollow(oracle: nat -> P.Oracle)
    ensures Follows(Steps(oracle), oracle)
  {
  }

  class Mongo {
    const inst: nat
    const sessions: SessionManager
    const driver: Driver
    var cursors: Lru.Cache<string, P.Server>
    var transactions: Lru.Cache<string, P.Server>

    ghost predicate Valid()
      reads this, sessions, sessions.objects, driver
    {
      && sessions.Valid() && driver.Valid()
      && (forall i :: 0 <= i < |sessions.heap| && sessions.heap[i].conn.Some? ==>
            sessions.heap[i].conn.value < |driver.conns|)
    }

    ghost function Shared(): P.Shared
      reads sessions, driver
    {
      P.Shared(sessions.heap, sessions.table, driver.conns, driver.trace)
    }

    ghost function Caches(): P.Caches
      reads this
    {
      P.Caches(cursors, transactions)
    }

    constructor (inst: nat, sessions: SessionManager, driver: Driver,
                 cursors: Lru.Cache<string, P.Server>, transactions: Lru.Cache<string, P.Server>)
      requires sessions.Valid() && driver.Valid()
      requires forall i :: 0 <= i < |sessions.heap| && sessions.heap[i].conn.Some? ==>
                 sessions.heap[i].conn.value < |driver.conns|
      ensures Valid() && this.sessions == sessions && this.driver == driver && this.inst == inst
      ensures Caches() == P.Caches(cursors, transactions)
    {
      this.inst, this.sessions, this.driver := inst, sessions, driver;
      this.cursors, this.transactions := cursors, transactions;
    }

    // The locals of the running method agree with the modelled call.
    ghost predicate Runs(c: P.Call, msg: P.Message, session: Session?)
      reads sessions, driver
    {
      && c.msg == msg && c.inst == inst && Refers(c)
      && (session == null <==> c.sid.None?)
      && (session != null ==> sessions.Knows(session, c.sid.value))
    }

    // The call speaks only of sessions and connections that exist.
    ghost predicate Refers(c: P.Call)
      reads sessions, driver
    {
      && (c.sid.Some? ==> c.sid.value < |sessions.objects| && c.msg.details.Some?)
      && (c.pc in {P.Start, P.Act, P.Send} ==> c.conn < |driver.conns|)
      && (forall i :: 0 <= i < |c.defers| ==> c.defers[i].Close? ==> c.defers[i].conn < |driver.conns|)
      && (c.pc == P.Create ==> c.msg.details.Some?)
    }

    lemma RefersIsSane(c: P.Call)
      requires Valid() && Refers(c)
      ensures P.Sane(c, Shared())
    {
    }

    // ------------------------------------------------- selecting and checking out

    method SelectServer(msg: P.Message, topology: Option<P.Server>) returns (r: Option<P.Server>)
      ensures r == P.SelectServer(Caches(), msg, topology)
    {
      hide SessionManager.Valid;
      if msg.details.Some? {
        r := Lru.Peek(transactions, Base64(msg.details.value.lsid));
        if r.Some? {
          return;
        }
      }
      if msg.cursorId != 0 {
        r := Lru.Peek(cursors, BuildKey(msg.cursorId, msg.collection));
        if r.Some? {
          return;
        }
      }
      r := topology;
    }

    method Select(msg: P.Message, session: Session?, o: P.Oracle, ghost f: Stepper, ghost k: nat, ghost c: P.Call)
      returns (server: Option<P.Server>, ghost next: P.Call)
      requires Answers(f, k, o)
      requires Valid() && Runs(c, msg, session) && c.pc == P.Select
      ensures f(P.Config(c, Shared(), Caches()), k) == P.Config(next, Shared(), Caches()) && Runs(next, msg, session)
      ensures server.Some? ==> next == c.(pc := P.Checkout, server := server.value)
      ensures server.None? ==> next == if session != null then P.Return(c, false) else P.Retry(c)
    {
      hide SessionManager.Valid, Base64, P.SelectServer;
      RefersIsSane(c);
      assert Look(P.Config(c, Shared(), Caches()));
      server := None;
      if session != null {
        server := sessions.GetPinnedServer(session, c.sid.value);
      }
      if server.None? {
        server := SelectServer(msg, o.topology);
      }
      next := P.DoSelect(c, Shared(), Caches(), o).c;
    }

    method CheckoutConnection(msg: P.Message, server: P.Server, session: Session?, o: P.Oracle, ghost f: Stepper,
                              ghost k: nat, ghost c: P.Call)
      returns (conn: Option<P.Conn>, ghost next: P.Call)
      requires Answers(f, k, o)
      requires Valid() && Runs(c, msg, session) && c.pc == P.Checkout && c.server == server
      modifies driver
      ensures Valid()
      ensures f(P.Config(c, old(Shared()), Caches()), k) == P.Config(next, Shared(), Caches())
      ensures Runs(next, msg, session)
      ensures conn.Some? ==> next == c.(pc := P.Start, conn := conn.value)
      ensures conn.None? ==> next == P.Retry(c)
    {
      hide SessionManager.Valid;
      RefersIsSane(c);
      assert Look(P.Config(c, Shared(), Caches()));
      next := P.DoCheckout(c, Shared(), Caches(), o).c;
      conn := None;
      if session != null {
        conn := sessions.GetPinnedConnection(session, c.sid.value);
        if conn.Some? {
          return;
        }
      }
      if o.canConnect {
        conn := Some(driver.handedOut);
        driver.conns := driver.conns + [P.ConnRec(c.id, c.sid, server, 0, false)];
        driver.handedOut := driver.handedOut + 1;
      }
    }

    // -------------------------------------------------------- transaction state

    ghost method NoteRefusal(session: Session, c: P.Call)
      requires Valid() && Runs(c, c.msg, session) && c.pc in {P.Start, P.Act}
      modifies driver
      ensures Valid()
      ensures Shared() ==
              if old(sessions.heap)[c.sid.value].conn == Some(c.conn) then old(Shared())
              else P.LeakConn(old(Shared()), c.conn)
    {
      if sessions.heap[c.sid.value].conn != Some(c.conn) {
        driver.conns := driver.conns[c.conn := driver.conns[c.conn].(leaked := true)];
      }
    }

    method BeginTransaction(msg: P.Message, session: Session?, server: P.Server, conn: P.Conn, o: P.Oracle,
                            ghost f: Stepper, ghost k: nat, ghost c: P.Call)
      returns (ok: bool, ghost next: P.Call)
      requires Answers(f, k, o)
      requires Valid() && Runs(c, msg, session) && c.pc == P.Start && c.server == server && c.conn == conn
      modifies sessions`heap, session, driver
      ensures Valid()
      ensures f(P.Config(c, old(Shared()), Caches()), k) == P.Config(next, Shared(), Caches())
      ensures Runs(next, msg, session)
      ensures next == if ok then c.(pc := P.Act) else P.Return(c, false)
    {
      hide SessionManager.Valid;
      RefersIsSane(c);
      assert Look(P.Config(c, Shared(), Caches()));
      next := P.DoStart(c, Shared(), Caches(), o).c;
      ok := true;
      if session != null && msg.details.value.isStart {
        ok := sessions.StartTransaction(session, c.sid.value, server, conn, msg.details.value.txnNumber, o.now);
        if ok {
          driver.trace := driver.trace + [P.Started(c.sid.value, server, conn)];
        } else {
          NoteRefusal(session, c);
        }
      }
    }

    // A commit or an abort, accepted or refused.
    method Settle(msg: P.Message, session: Session, o: P.Oracle, ghost c: P.Call) returns (ok: bool)
      requires Valid() && Runs(c, msg, session) && c.pc == P.Act && msg.command in {P.Commit, P.Abort}
      modifies sessions`heap, session, driver
      ensures Valid() && P.Sane(c, old(Shared()))
      ensures Shared() == P.DoAct(c, old(Shared()), Caches(), o).sh
      ensures ok == (old(sessions.heap)[c.sid.value].txn == P.InProgress)
    {
      hide SessionManager.Valid;
      RefersIsSane(c);
      if msg.command == P.Commit {
        ok := sessions.CommitTransaction(session, c.sid.value, o.now);
      } else {
        ok := sessions.AbortTransaction(session, c.sid.value, o.now);
      }
      if !ok {
        NoteRefusal(session, c);
      }
    }

    method ActOnTransaction(msg: P.Message, session: Session?, conn: P.Conn, defers: seq<P.Deferred>, o: P.Oracle,
                            ghost f: Stepper, ghost k: nat, ghost c: P.Call)
      returns (ok: bool, later: seq<P.Deferred>, ghost next: P.Call)
      requires Answers(f, k, o)
      requires Valid() && Runs(c, msg, session) && c.pc == P.Act && c.conn == conn && c.defers == defers
      modifies sessions`heap, sessions`sessions, sessions`table, session, driver
      ensures Valid()
      ensures f(P.Config(c, old(Shared()), Caches()), k) == P.Config(next, Shared(), Caches())
      ensures Runs(next, msg, session)
      ensures ok ==> next == c.(pc := P.Send, defers := later, accepted := next.accepted)
      ensures !ok ==> next == P.Return(c, false)
    {
      hide SessionManager.Valid;
      RefersIsSane(c);
      assert Look(P.Config(c, Shared(), Caches()));
      next := P.DoAct(c, Shared(), Caches(), o).c;
      ok, later := true, defers;
      var commitOrAbort := false;
      if session != null {
        if msg.command == P.Commit || msg.command == P.Abort {
          ok := Settle(msg, session, o, c);
          if !ok {
            return;
          }
          commitOrAbort := true;
          later := later + [P.Unpin];
        } else if msg.command == P.EndSessions {
          EndSession(session, o, c);
        }
      }
      later := later + [P.Close(conn, commitOrAbort)];
      assert commitOrAbort ==> later == defers + [P.Unpin, P.Close(conn, true)];
    }

    method EndSession(session: Session, o: P.Oracle, ghost c: P.Call)
      requires Valid() && Runs(c, c.msg, session)
      modifies sessions`heap, sessions`sessions, sessions`table, session, driver`trace
      ensures Valid() && Shared() == P.DropSession(old(Shared()), c.sid.value, o.now)
    {
      ghost var sid, s := c.sid.value, sessions.heap[c.sid.value];
      assert session.Is(s);
      sessions.EndSession(session, sid, o.now);
      if s.state != P.Ended {
        driver.trace := driver.trace + [P.Dropped(s.id)];
        if s.txn == P.InProgress {
          driver.trace := driver.trace + [P.Finished(sid)];
        }
      } else {
        assert sessions.heap == old(sessions.heap);
      }
    }

    // -------------------------------------------------------- wire and caches

    // Writes the message and reads the reply. A reply is handed back; otherwise
    // the attempt is over, to be repeated or not.
    method Exchange(msg: P.Message, attempt: nat, server: P.Server, conn: P.Conn, o: P.Oracle, ghost f: Stepper,
                    ghost k: nat, ghost c: P.Call)
      returns (reply: Option<Option<int>>, again: bool, ok: bool, ghost next: P.Call)
      requires Answers(f, k, o)
      requires Valid() && Refers(c) && c.msg == msg && c.pc == P.Send && !c.ok
      requires c.attempt == attempt && c.server == server && c.conn == conn
      modifies driver`trace
      ensures Valid()
      ensures f(P.Config(c, old(Shared()), Caches()), k) == P.Config(next, Shared(), Caches()) && Refers(next)
      ensures reply.Some? ==> !again && !ok && next == c.(pc := P.CacheCursor(reply.value), sends := next.sends)
      ensures reply.None? && again ==> !ok && next == c.(pc := P.Select, attempt := attempt + 1, sends := next.sends)
                                       && attempt < P.MAX_RETRIES
      ensures reply.None? && !again ==> next == c.(pc := P.Unwind, ok := ok, sends := next.sends)
      ensures again <==>
                attempt < 3 && (|| !o.hasProcessor
                                || (o.wire.WireError? && o.wire.retryable)
                                || (o.wire.Undecodable? && !msg.unacknowledged))
      ensures reply.Some? <==> o.hasProcessor && o.wire.Reply? && !msg.unacknowledged
      ensures reply.Some? ==> reply.value == o.wire.cursor
      ensures ok <==> o.hasProcessor && !o.wire.WireError? && msg.unacknowledged
      ensures driver.trace == old(driver.trace) + if o.hasProcessor then [P.Sent(c.id, c.sid, server, conn)] else []
    {
      hide SessionManager.Valid;
      RefersIsSane(c);
      assert Look(P.Config(c, Shared(), Caches()));
      next := P.DoSend(c, Shared(), Caches(), o).c;
      reply, again, ok := None, false, false;
      if !o.hasProcessor {
        again := attempt < P.MAX_RETRIES;
        return;
      }
      driver.trace := driver.trace + [P.Sent(c.id, c.sid, server, conn)];
      if o.wire.WireError? {
        again := attempt < P.MAX_RETRIES && o.wire.retryable;
        return;
      }
      if msg.unacknowledged {
        ok := true;
        return;
      }
      if o.wire.Undecodable? {
        again := attempt < P.MAX_RETRIES;
        return;
      }
      reply := Some(o.wire.cursor);
    }

    method StoreCursor(msg: P.Message, reply: Option<int>, server: P.Server, o: P.Oracle, ghost f: Stepper,
                       ghost k: nat, ghost c: P.Call)
      returns (ghost next: P.Call)
      requires Answers(f, k, o)
      requires Valid() && Refers(c) && c.msg == msg && c.pc == P.CacheCursor(reply) && c.server == server
      requires c.inst == inst
      modifies this`cursors
      ensures Valid()
      ensures f(P.Config(c, Shared(), old(Caches())), k) == P.Config(next, Shared(), Caches()) && Refers(next)
      ensures next == c.(pc := P.CacheTxn)
    {
      hide SessionManager.Valid, BuildKey, Lru.Add, Lru.Remove;
      RefersIsSane(c);
      assert Look(P.Config(c, Shared(), Caches()));
      next := c.(pc := P.CacheTxn);
      if reply.Some? {
        if reply.value != 0 {
          cursors := Lru.Add(cursors, BuildKey(reply.value, msg.collection), server, o.now);
        } else if msg.cursorId != 0 {
          cursors := Lru.Remove(cursors, BuildKey(msg.cursorId, msg.collection));
        }
      }
    }

    method StoreTransaction(msg: P.Message, server: P.Server, o: P.Oracle, ghost f: Stepper, ghost k: nat,
                            ghost c: P.Call)
      returns (ghost next: P.Call)
      requires Answers(f, k, o)
      requires Valid() && Refers(c) && c.msg == msg && c.pc == P.CacheTxn && c.server == server
      modifies this`transactions
      ensures Valid()
      ensures f(P.Config(c, Shared(), old(Caches())), k) == P.Config(next, Shared(), Caches()) && Refers(next)
      ensures next == P.Return(c, true)
    {
      hide SessionManager.Valid, Base64, Lru.Add, Lru.Remove;
      RefersIsSane(c);
      assert Look(P.Config(c, Shared(), Caches()));
      next := P.Return(c, true);
      if msg.details.Some? {
        var key := Base64(msg.details.value.lsid);
        if msg.details.value.isStart {
          transactions := Lru.Add(transactions, key, server, o.now);
        } else if msg.command == P.Commit || msg.command == P.Abort {
          transactions := Lru.Remove(transactions, key);
        }
      }
    }

    // ------------------------------------------------------- deferred actions

    ghost method NoteClose(x: P.Conn)
      requires driver.Valid() && x < |driver.conns|
      modifies driver`conns
      ensures driver.Valid()
      ensures var r := old(driver.conns)[x];
              driver.conns == old(driver.conns)[x := r.(closes := r.closes + 1)]
    {
      driver.conns := driver.conns[x := driver.conns[x].(closes := driver.conns[x].closes + 1)];
    }

    method RunDeferred(msg: P.Message, session: Session?, defers: seq<P.Deferred>, o: P.Oracle, ghost f: Stepper,
                       ghost k: nat, ghost c: P.Call)
      returns (ghost next: P.Call)
      requires Answers(f, k, o)
      requires Valid() && Runs(c, msg, session) && c.pc == P.Unwind && c.defers == defers && defers != []
      modifies sessions`heap, session, driver
      ensures Valid()
      ensures f(P.Config(c, old(Shared()), Caches()), k) == P.Config(next, Shared(), Caches())
      ensures Runs(next, msg, session)
      ensures next == c.(defers := defers[..|defers| - 1])
    {
      RefersIsSane(c);
      assert Look(P.Config(c, Shared(), Caches()));
      next := c.(defers := defers[..|defers| - 1]);
      match defers[|defers| - 1]
      case Unpin =>
        if session != null {
          sessions.UnpinTransaction(session, c.sid.value);
        }
      case Close(x, ends) =>
        if ends {
          NoteClose(x);
          if session != null {
            sessions.ResetTransactionState(session, c.sid.value);
            driver.trace := driver.trace + [P.Finished(c.sid.value)];
          }
        } else if session == null || session.txn != P.InProgress {
          NoteClose(x);
        }
    }

    // ---------------------------------------------------------------- binding

    method Locate(msg: P.Message, lsid: seq<byte>, o: P.Oracle, ghost c: P.Call)
      returns (session: Session?, ghost next: P.Call)
      requires Valid() && P.Sane(c, Shared()) && c.msg == msg && c.sid.None? && c.pc == P.Lookup
      requires msg.details.Some? && msg.details.value.lsid == lsid
      modifies sessions`heap, sessions.Found(lsid), driver`trace
      ensures Valid()
      ensures P.DoLookup(c, old(Shared()), Caches(), o) == P.Config(next, Shared(), Caches())
      ensures session == null ==> next == c.(pc := P.Create)
      ensures session != null ==> next == c.(pc := P.Select, sid := next.sid) && next.sid.Some?
                                  && sessions.Knows(session, next.sid.value)
    {
      hide SessionManager.Valid, Base64;
      ghost var sh := Shared();
      next := P.DoLookup(c, sh, Caches(), o).c;
      ghost var sid;
      session, sid := sessions.GetSession(lsid, o.now);
      if session == null {
        assert Shared() == sh;
      } else {
        ghost var s := sh.heap[sid].(lastActivity := o.now);
        assert sessions.heap == sh.heap[sid := s] && s.conn == sh.heap[sid].conn;
        driver.trace := driver.trace + [P.Bound(c.id, Base64(lsid), sid)];
      }
    }

    method FindSession(msg: P.Message, lsid: seq<byte>, o: P.Oracle, ghost f: Stepper, ghost k: nat, ghost c: P.Call)
      returns (session: Session?, ghost next: P.Call)
      requires Answers(f, k, o)
      requires Valid() && Refers(c) && c.msg == msg && c.sid.None? && c.inst == inst && c.pc == P.Lookup
      requires c.defers == []
      requires msg.details.Some? && msg.details.value.lsid == lsid
      modifies sessions`heap, sessions.Found(lsid), driver`trace
      ensures Valid()
      ensures f(P.Config(c, old(Shared()), Caches()), k) == P.Config(next, Shared(), Caches())
      ensures session == null ==> next == c.(pc := P.Create) && Runs(next, msg, null)
      ensures session != null ==> next == c.(pc := P.Select, sid := next.sid) && Runs(next, msg, session)
    {
      hide SessionManager.Valid, P.DoLookup;
      RefersIsSane(c);
      assert Look(P.Config(c, Shared(), Caches()));
      session, next := Locate(msg, lsid, o, c);
    }

    method CreateSession(msg: P.Message, lsid: seq<byte>, o: P.Oracle, ghost f: Stepper, ghost k: nat, ghost c: P.Call)
      returns (session: Session, ghost next: P.Call)
      requires Answers(f, k, o)
      requires Valid() && Runs(c, msg, null) && c.pc == P.Create && c.defers == []
      requires msg.details.value.lsid == lsid
      modifies sessions, driver`trace
      ensures Valid() && fresh(session) && sessions.objects == old(sessions.objects) + [session]
      ensures f(P.Config(c, old(Shared()), Caches()), k) == P.Config(next, Shared(), Caches())
      ensures next == c.(pc := P.Select, sid := next.sid) && Runs(next, msg, session)
    {
      hide SessionManager.Valid, Base64;
      RefersIsSane(c);
      assert Look(P.Config(c, Shared(), Caches()));
      next := P.DoCreate(c, Shared(), Caches(), o).c;
      ghost var sid;
      session, sid := sessions.Insert(lsid, o.now);
      driver.trace := driver.trace + [P.Bound(c.id, Base64(lsid), sid)];
    }

    // ---------------------------------------------------------------- the loop

    // A server and a connection. done is set when there is none to be had.
    method Obtain(msg: P.Message, session: Session?, attempt: nat, oracle: nat -> P.Oracle, k: nat, ghost f: Stepper,
                  ghost c: P.Call)
      returns (done: bool, again: bool, server: P.Server, conn: P.Conn, k': nat, ghost next: P.Call)
      requires Follows(f, oracle) && Valid() && Runs(c, msg, session) && c.pc == P.Select && c.attempt == attempt
      modifies driver
      ensures Valid() && Runs(next, msg, session) && k < k'
      ensures Iterate(f, P.Config(c, old(Shared()), Caches()), k, k' - k) == P.Config(next, Shared(), Caches())
      ensures !done ==> !again && next == c.(pc := P.Start, server := server, conn := conn)
      ensures done && again ==>
                attempt < P.MAX_RETRIES && next == c.(pc := P.Select, attempt := attempt + 1, server := next.server)
      ensures done && !again ==> next == P.Return(c, false).(server := next.server)
    {
      hide SessionManager.Valid;
      ghost var start := P.Config(c, Shared(), Caches());
      done, again, server, conn := true, false, 0, 0;
      var selected, connected;
      selected, next := Select(msg, session, oracle(k), f, k, c);
      IterateOne(f, start, k, 0);
      k' := k + 1;
      if selected.None? {
        again := session == null && attempt < P.MAX_RETRIES;
        return;
      }
      server := selected.value;
      connected, next := CheckoutConnection(msg, server, session, oracle(k'), f, k', next);
      IterateOne(f, start, k, 1);
      k' := k' + 1;
      if connected.None? {
        again := attempt < P.MAX_RETRIES;
        return;
      }
      done, conn := false, connected.value;
    }

    // The transaction state, and the deferred actions once it is settled.
    method Engage(msg: P.Message, session: Session?, server: P.Server, conn: P.Conn, defers: seq<P.Deferred>,
                  oracle: nat -> P.Oracle, k: nat, ghost f: Stepper, ghost c: P.Call)
      returns (ok: bool, later: seq<P.Deferred>, k': nat, ghost next: P.Call)
      requires Follows(f, oracle) && Valid() && Runs(c, msg, session)
      requires c.pc == P.Start && c.server == server && c.conn == conn && c.defers == defers
      modifies sessions`heap, sessions`sessions, sessions`table, session, driver
      ensures Valid() && Runs(next, msg, session) && k < k'
      ensures Iterate(f, P.Config(c, old(Shared()), Caches()), k, k' - k) == P.Config(next, Shared(), Caches())
      ensures ok ==> next == c.(pc := P.Send, defers := later, accepted := next.accepted)
      ensures !ok ==> next == P.Return(c, false) && later == defers
    {
      hide SessionManager.Valid;
      ghost var start := P.Config(c, Shared(), Caches());
      later := defers;
      ok, next := BeginTransaction(msg, session, server, conn, oracle(k), f, k, c);
      IterateOne(f, start, k, 0);
      k' := k + 1;
      if ok {
        ok, later, next := ActOnTransaction(msg, session, conn, defers, oracle(k'), f, k', next);
        IterateOne(f, start, k, 1);
        k' := k' + 1;
        if !ok {
          later := defers;
        }
      }
    }

    // The caches learn from the reply.
    method Remember(msg: P.Message, session: Session?, reply: Option<int>, server: P.Server,
                    oracle: nat -> P.Oracle, k: nat, ghost f: Stepper, ghost c: P.Call)
      returns (ghost next: P.Call)
      requires Follows(f, oracle) && Valid() && Runs(c, msg, session)
      requires c.pc == P.CacheCursor(reply) && c.server == server
      modifies this`cursors, this`transactions, driver`trace
      ensures Valid() && Runs(next, msg, session) && next == P.Return(c, true)
      ensures Iterate(f, P.Config(c, old(Shared()), old(Caches())), k, 2) == P.Config(next, Shared(), Caches())
    {
      hide SessionManager.Valid;
      ghost var start := P.Config(c, Shared(), Caches());
      next := StoreCursor(msg, reply, server, oracle(k), f, k, c);
      IterateOne(f, start, k, 0);
      next := StoreTransaction(msg, server, oracle(k + 1), f, k + 1, next);
      IterateOne(f, start, k, 1);
    }

    // The second half: the exchange with the server and the caches it updates.
    method Converse(msg: P.Message, session: Session?, attempt: nat, server: P.Server, conn: P.Conn,
                    oracle: nat -> P.Oracle, k: nat, ghost f: Stepper, ghost c: P.Call)
      returns (again: bool, ok: bool, k': nat, ghost next: P.Call)
      requires Follows(f, oracle) && Valid() && Runs(c, msg, session)
      requires c.pc == P.Send && c.attempt == attempt && c.server == server && c.conn == conn && !c.ok
      modifies this`cursors, this`transactions, driver`trace
      ensures Valid() && Runs(next, msg, session) && k < k'
      ensures Iterate(f, P.Config(c, old(Shared()), old(Caches())), k, k' - k) == P.Config(next, Shared(), Caches())
      ensures next.defers == c.defers && next.id == c.id
      ensures again ==> next.pc == P.Select && next.attempt == attempt + 1 <= P.MAX_RETRIES && !next.ok
      ensures !again ==> next.pc == P.Unwind && next.ok == ok
    {
      hide SessionManager.Valid;
      ghost var start := P.Config(c, Shared(), Caches());
      var reply;
      reply, again, ok, next := Exchange(msg, attempt, server, conn, oracle(k), f, k, c);
      IterateOne(f, start, k, 0);
      k' := k + 1;
      if reply.None? {
        return;
      }
      ghost var mid := P.Config(next, Shared(), Caches());
      next := Remember(msg, session, reply.value, server, oracle, k', f, next);
      Chain(f, start, mid, P.Config(next, Shared(), Caches()), k, k', k' + 2);
      k' := k' + 2;
      ok := true;
    }

    // One pass of the retry loop; again is the loop's continue.
    method Attempt(msg: P.Message, session: Session?, attempt: nat, defers: seq<P.Deferred>, oracle: nat -> P.Oracle,
                   k: nat, ghost f: Stepper, ghost c: P.Call)
      returns (again: bool, ok: bool, later: seq<P.Deferred>, k': nat, ghost next: P.Call)
      requires Follows(f, oracle) && Valid() && Runs(c, msg, session)
      requires c.pc == P.Select && c.attempt == attempt && c.defers == defers && !c.ok
      modifies this`cursors, this`transactions, sessions`heap, sessions`sessions, sessions`table, session, driver
      ensures Valid() && Runs(next, msg, session) && k < k'
      ensures Iterate(f, P.Config(c, old(Shared()), old(Caches())), k, k' - k) == P.Config(next, Shared(), Caches())
      ensures next.defers == later && next.id == c.id
      ensures again ==> next.pc == P.Select && next.attempt == attempt + 1 <= P.MAX_RETRIES && !next.ok
      ensures !again ==> next.pc == P.Unwind && next.ok == ok
    {
      hide SessionManager.Valid, Mongo.Valid, Iterate, Follows;
      ghost var start := P.Config(c, Shared(), Caches());
      var done, server, conn;
      done, again, server, conn, k', next := Obtain(msg, session, attempt, oracle, k, f, c);
      ok, later := false, defers;
      if done {
        return;
      }
      ghost var m, mid := k', P.Config(next, Shared(), Caches());
      ok, later, k', next := Engage(msg, session, server, conn, defers, oracle, k', f, next);
      ghost var m2, mid2 := k', P.Config(next, Shared(), Caches());
      Chain(f, start, mid, mid2, k, m, m2);
      if !ok {
        return;
      }
      again, ok, k', next := Converse(msg, session, attempt, server, conn, oracle, k', f, next);
      Chain(f, start, mid2, P.Config(next, Shared(), Caches()), k, m2, k');
    }

    // Deferred actions run last in, first out, whatever the outcome.
    method Unwind(msg: P.Message, session: Session?, defers: seq<P.Deferred>, oracle: nat -> P.Oracle, k: nat,
                  ghost f: Stepper, ghost c: P.Call)
      returns (k': nat, ghost next: P.Call)
      requires Follows(f, oracle) && Valid() && Runs(c, msg, session) && c.pc == P.Unwind && c.defers == defers
      modifies sessions`heap, session, driver
      ensures Valid() && k <= k'
      ensures Iterate(f, P.Config(c, old(Shared()), Caches()), k, k' - k) == P.Config(next, Shared(), Caches())
      ensures next == c.(pc := P.Done, defers := [])
    {
      hide SessionManager.Valid;
      ghost var start := P.Config(c, Shared(), Caches());
      var left := defers;
      next, k' := c, k;
      while left != []
        invariant Valid() && Runs(next, msg, session) && next == c.(defers := left) && k <= k'
        invariant Caches() == start.ca
        invariant Iterate(f, start, k, k' - k) == P.Config(next, Shared(), Caches())
        decreases |left|
      {
        next := RunDeferred(msg, session, left, oracle(k'), f, k', next);
        IterateOne(f, start, k, k' - k);
        k' := k' + 1;
        left := left[..|left| - 1];
      }
      IterateOne(f, start, k, k' - k);
      RefersIsSane(next);
      LookAt(f, oracle, k', P.Config(next, Shared(), Caches()));
      k' := k' + 1;
      next := next.(pc := P.Done);
    }

    // Finds or makes the session of a request that carries transaction details.
    method Bind(msg: P.Message, oracle: nat -> P.Oracle, ghost f: Stepper, ghost id: nat)
      returns (session: Session?, k: nat, ghost next: P.Call)
      requires Follows(f, oracle) && Valid()
      modifies sessions, sessions.objects, driver`trace
      ensures Valid() && Runs(next, msg, session)
      ensures session != null ==> session in old(sessions.objects) || fresh(session)
      ensures Iterate(f, P.Config(P.Begin(id, inst, msg), old(Shared()), Caches()), 0, k) ==
          P.Config(next, Shared(), Caches())
      ensures next == P.Begin(id, inst, msg).(pc := P.Select, sid := next.sid)
    {
      hide Base64;
      ghost var c := P.Begin(id, inst, msg);
      ghost var start := P.Config(c, Shared(), Caches());
      k := 1;
      if msg.details.None? {
        session, next := null, c.(pc := P.Select);
        IterateOne(f, start, 0, 0);
        RefersIsSane(c);
        LookAt(f, oracle, 0, start);
        return;
      }
      session, next := FindSession(msg, msg.details.value.lsid, oracle(0), f, 0, c);
      IterateOne(f, start, 0, 0);
      if session == null {
        session, next := CreateSession(msg, msg.details.value.lsid, oracle(1), f, 1, next);
        IterateOne(f, start, 0, 1);
        k := 2;
      }
    }

    // The retry loop, from the first attempt to the return.
    method Attempts(msg: P.Message, session: Session?, oracle: nat -> P.Oracle, k: nat, ghost f: Stepper,
                    ghost c: P.Call)
      returns (ok: bool, defers: seq<P.Deferred>, k': nat, ghost next: P.Call)
      requires Follows(f, oracle) && Valid() && Runs(c, msg, session)
      requires c.pc == P.Select && c.attempt == 0 && c.defers == [] && !c.ok
      modifies this`cursors, this`transactions, sessions`heap, sessions`sessions, sessions`table, session, driver
      ensures Valid() && Runs(next, msg, session) && k <= k'
      ensures Iterate(f, P.Config(c, old(Shared()), old(Caches())), k, k' - k) == P.Config(next, Shared(), Caches())
      ensures next.pc == P.Unwind && next.defers == defers && next.ok == ok
    {
      hide SessionManager.Valid;
      ghost var start := P.Config(c, Shared(), Caches());
      next, k' := c, k;
      ok, defers := false, [];
      var attempt, again := 0, true;
      while again
        invariant Valid() && Runs(next, msg, session) && k <= k'
        invariant Iterate(f, start, k, k' - k) == P.Config(next, Shared(), Caches())
        invariant next.defers == defers
        invariant again ==> next.pc == P.Select && next.attempt == attempt <= P.MAX_RETRIES && !next.ok
        invariant !again ==> next.pc == P.Unwind && next.ok == ok
        decreases P.MAX_RETRIES + 2 - attempt, again
      {
        ghost var m, mid := k', P.Config(next, Shared(), Caches());
        again, ok, defers, k', next := Attempt(msg, session, attempt, defers, oracle, k', f, next);
        Chain(f, start, mid, P.Config(next, Shared(), Caches()), k, m, k');
        attempt := attempt + 1;
      }
    }

    // The retry loop and then the deferred actions.
    method Serve(msg: P.Message, session: Session?, oracle: nat -> P.Oracle, k: nat, ghost f: Stepper, ghost c: P.Call)
      returns (ok: bool, k': nat, ghost next: P.Call)
      requires Follows(f, oracle) && Valid() && Runs(c, msg, session)
      requires c.pc == P.Select && c.attempt == 0 && c.defers == [] && !c.ok
      modifies this`cursors, this`transactions, sessions`heap, sessions`sessions, sessions`table, session, driver
      ensures Valid() && k <= k'
      ensures Iterate(f, P.Config(c, old(Shared()), old(Caches())), k, k' - k) == P.Config(next, Shared(), Caches())
      ensures next.pc == P.Done && next.ok == ok
    {
      hide SessionManager.Valid;
      ghost var start := P.Config(c, Shared(), Caches());
      var defers;
      ok, defers, k', next := Attempts(msg, session, oracle, k, f, c);
      ghost var m, mid := k', P.Config(next, Shared(), Caches());
      k', next := Unwind(msg, session, defers, oracle, k', f, next);
      Chain(f, start, mid, P.Config(next, Shared(), Caches()), k, m, k');
    }

    // The body of RoundTrip, for any f that takes the modelled steps.
    method RoundTripWith(msg: P.Message, oracle: nat -> P.Oracle, ghost f: Stepper, ghost id: nat)
      returns (ok: bool, ghost steps: nat)
      requires Follows(f, oracle) && Valid()
      modifies this, sessions, sessions.objects, driver
      ensures Valid()
      ensures var r := Iterate(f, P.Config(P.Begin(id, inst, msg), old(Shared()), old(Caches())), 0, steps);
              r.c.pc == P.Done && r.c.ok == ok && r.sh == Shared() && r.ca == Caches()
    {
      hide SessionManager.Valid;
      ghost var start := P.Config(P.Begin(id, inst, msg), Shared(), Caches());
      var session, k;
      ghost var c;
      session, k, c := Bind(msg, oracle, f, id);
      ghost var m, mid := k, P.Config(c, Shared(), Caches());
      ok, k, c := Serve(msg, session, oracle, k, f, c);
      Chain(f, start, mid, P.Config(c, Shared(), Caches()), 0, m, k);
      steps := k;
    }

    // The whole call: every execution is a run of the modelled call from Begin to
    // Done, with the same effect on sessions, connections, caches and trace.
    method RoundTrip(msg: P.Message, oracle: nat -> P.Oracle, ghost id: nat)
      returns (ok: bool, ghost steps: nat)
      requires Valid()
      modifies this, sessions, sessions.objects, driver
      ensures Valid()
      ensures var r := Iterate(Steps(oracle), P.Config(P.Begin(id, inst, msg), old(Shared()), old(Caches())), 0, steps);
              r.c.pc == P.Done && r.c.ok == ok && r.sh == Shared() && r.ca == Caches()
    {
      StepsFollow(oracle);
      ok, steps := RoundTripWith(msg, oracle, Steps(oracle), id);
    }
  }
}

/**
 mongo/session_manager.go in its own form: session objects whose fields change
 in place and a manager that maps keys to them. Every method is proved to do to
 the manager's heap and table what the function of Protocol says.
 */
module Sessions {
  import opened Common
  import opened Keys
  import P = Protocol

  class Session {
    const id: string
    const lsid: seq<byte>
    var state: P.SessionState
    var txn: P.TxnState
    var txnNumber: int
    var pinnedServer: Option<P.Server>
    var pinnedConnection: Option<P.Conn>
    var lastActivity: int

    constructor (lsid: seq<byte>, now: int)
      ensures Is(P.NewSession(lsid, now))
    {
      this.id, this.lsid := Base64(lsid), lsid;
      state, txn, txnNumber := P.Active, P.NoTxn, 0;
      pinnedServer, pinnedConnection, lastActivity := None, None, now;
    }

    ghost predicate Is(s: P.Session)
      reads this
    {
      s == P.Session(id, lsid, state, txn, txnNumber, pinnedServer, pinnedConnection, lastActivity)
    }
  }

  class SessionManager {
    var sessions: map<string, Session>
    // every session object the manager has known, what each holds, and the
    // stored ones by their position
    ghost var objects: seq<Session>
    ghost var heap: seq<P.Session>
    ghost var table: map<string, nat>

    ghost predicate Valid()
      reads this, objects
    {
      && |objects| == |heap|
      && (forall i, j :: 0 <= i < j < |objects| ==> objects[i] != objects[j])
      && (forall i :: 0 <= i < |objects| ==> objects[i].Is(heap[i]))
      && table.Keys == sessions.Keys
      && (forall k :: k in table ==> table[k] < |objects| && sessions[k] == objects[table[k]])
    }

    ghost predicate Knows(session: Session, sid: nat)
      reads this
    {
      sid < |objects| && objects[sid] == session
    }

    constructor ()
      ensures Valid() && heap == [] && table == map[]
    {
      sessions, objects, heap, table := map[], [], [], map[];
    }

    // The caller has set the fields of one session to those of s.
    ghost method Update(session: Session, sid: nat, s: P.Session)
      requires Knows(session, sid) && session.Is(s) && |objects| == |heap|
      requires forall i, j :: 0 <= i < j < |objects| ==> objects[i] != objects[j]
      requires forall i :: 0 <= i < |objects| && i != sid ==> objects[i].Is(heap[i])
      requires table.Keys == sessions.Keys
      requires forall k :: k in table ==> table[k] < |objects| && sessions[k] == objects[table[k]]
      modifies this`heap
      ensures Valid() && heap == old(heap)[sid := s]
    {
      heap := heap[sid := s];
    }

    method Insert(lsid: seq<byte>, now: int) returns (session: Session, ghost sid: nat)
      requires Valid()
      modifies this
      ensures Valid() && sid == |old(objects)| && fresh(session) && objects == old(objects) + [session]
      ensures heap == old(heap) + [P.NewSession(lsid, now)] && table == old(table)[Base64(lsid) := sid]
    {
      session := new Session(lsid, now);
      sid := |objects|;
      objects, heap := objects + [session], heap + [P.NewSession(lsid, now)];
      sessions, table := sessions[session.id := session], table[session.id := sid];
    }

    // The object that a lookup of lsid may touch.
    ghost function Found(lsid: seq<byte>): set<Session>
      reads this
    {
      if Base64(lsid) in sessions then {sessions[Base64(lsid)]} else {}
    }

    // The stored session that has not ended, if there is one.
    method Find(lsid: seq<byte>) returns (session: Session?, ghost sid: nat)
      requires Valid()
      ensures session != null <==> Base64(lsid) in table && heap[table[Base64(lsid)]].state != P.Ended
      ensures session != null ==>
                sid == table[Base64(lsid)] && Knows(session, sid) && session in Found(lsid)
    {
      var key := Base64(lsid);
      session, sid := null, 0;
      if key in sessions && sessions[key].state != P.Ended {
        session, sid := sessions[key], table[key];
      }
    }

    method Touch(session: Session, ghost sid: nat, now: int)
      requires Valid() && Knows(session, sid)
      modifies this`heap, session
      ensures Valid() && heap == old(heap)[sid := old(heap)[sid].(lastActivity := now)]
    {
      session.lastActivity := now;
      Update(session, sid, heap[sid].(lastActivity := now));
    }

    method GetSession(lsid: seq<byte>, now: int) returns (session: Session?, ghost sid: nat)
      requires Valid()
      modifies this`heap, Found(lsid)
      ensures Valid()
      ensures session != null <==> Base64(lsid) in table && old(heap)[table[Base64(lsid)]].state != P.Ended
      ensures session != null ==>
                && sid == table[Base64(lsid)] && Knows(session, sid)
                && heap == old(heap)[sid := old(heap)[sid].(lastActivity := now)]
      ensures session == null ==> heap == old(heap)
    {
      session, sid := Find(lsid);
      if session != null {
        Touch(session, sid, now);
      }
    }

    method StartTransaction(session: Session, ghost sid: nat, server: P.Server, conn: P.Conn, number: int, now: int)
      returns (ok: bool)
      requires Valid() && Knows(session, sid)
      modifies this`heap, session
      ensures Valid()
      ensures var s := P.StartTransaction(old(heap)[sid], server, conn, number, now);
              ok == s.Some? && heap == if ok then old(heap)[sid := s.value] else old(heap)
    {
      ok := session.state == P.Active && session.txn == P.NoTxn;
      if ok {
        session.txnNumber := number;
        session.txn := P.InProgress;
        session.pinnedServer, session.pinnedConnection := Some(server), Some(conn);
        session.lastActivity := now;
        Update(session, sid, P.StartTransaction(heap[sid], server, conn, number, now).value);
      }
    }

    method CommitTransaction(session: Session, ghost sid: nat, now: int) returns (ok: bool)
      requires Valid() && Knows(session, sid)
      modifies this`heap, session
      ensures Valid()
      ensures var s := P.CommitTransaction(old(heap)[sid], now);
              ok == s.Some? && heap == if ok then old(heap)[sid := s.value] else old(heap)
    {
      ok := session.txn == P.InProgress;
      if ok {
        session.txn := P.Committed;
        session.lastActivity := now;
        Update(session, sid, P.CommitTransaction(heap[sid], now).value);
      }
    }

    method AbortTransaction(session: Session, ghost sid: nat, now: int) returns (ok: bool)
      requires Valid() && Knows(session, sid)
      modifies this`heap, session
      ensures Valid()
      ensures var s := P.AbortTransaction(old(heap)[sid], now);
              ok == s.Some? && heap == if ok then old(heap)[sid := s.value] else old(heap)
    {
      ok := session.txn == P.InProgress;
      if ok {
        session.txn := P.Aborted;
        session.lastActivity := now;
        Update(session, sid, P.AbortTransaction(heap[sid], now).value);
      }
    }

    method UnpinTransaction(session: Session, ghost sid: nat)
      requires Valid() && Knows(session, sid)
      modifies this`heap, session
      ensures Valid() && heap == old(heap)[sid := P.UnpinTransaction(old(heap)[sid])]
    {
      session.pinnedServer, session.pinnedConnection := None, None;
      Update(session, sid, P.UnpinTransaction(heap[sid]));
    }

    method ResetTransactionState(session: Session, ghost sid: nat)
      requires Valid() && Knows(session, sid)
      modifies this`heap, session
      ensures Valid() && heap == old(heap)[sid := P.ResetTransactionState(old(heap)[sid])]
    {
      session.txn, session.txnNumber := P.NoTxn, 0;
      session.pinnedServer, session.pinnedConnection := None, None;
      Update(session, sid, P.ResetTransactionState(heap[sid]));
    }

    method EndSession(session: Session, ghost sid: nat, now: int)
      requires Valid() && Knows(session, sid)
      modifies this`heap, this`sessions, this`table, session
      ensures Valid() && heap == old(heap)[sid := P.EndSession(old(heap)[sid], now)]
      ensures table == if old(heap)[sid].state == P.Ended then old(table) else old(table) - {session.id}
    {
      if session.state == P.Ended {
        assert heap == heap[sid := heap[sid]];
        return;
      }
      if session.txn == P.InProgress {
        session.txn := P.Aborted;
        session.pinnedServer, session.pinnedConnection := None, None;
      }
      session.state := P.Ended;
      session.lastActivity := now;
      sessions, table := sessions - {session.id}, table - {session.id};
      Update(session, sid, P.EndSession(heap[sid], now));
    }

    method GetPinnedServer(session: Session, ghost sid: nat) returns (r: Option<P.Server>)
      requires Valid() && Knows(session, sid)
      ensures r == P.GetPinnedServer(heap[sid])
    {
      if session.txn == P.InProgress && session.pinnedServer.Some? {
        r := session.pinnedServer;
      } else {
        r := None;
      }
    }

    method GetPinnedConnection(session: Session, ghost sid: nat) returns (r: Option<P.Conn>)
      requires Valid() && Knows(session, sid)
      ensures r == P.GetPinnedConnection(heap[sid])
    {
      if (session.txn == P.InProgress || session.txn == P.Committed || session.txn == P.Aborted)
         && session.pinnedConnection.Some? {
        r := session.pinnedConnection;
      } else {
        r := None;
      }
    }

    method Delete(keys: set<string>)
      requires Valid()
      modifies this`sessions, this`table
      ensures Valid() && table == old(table) - keys
    {
      sessions, table := sessions - keys, table - keys;
    }

    // Drops every session that has ended or been idle for too long, transactions
    // in progress included, and no other.
    method CleanupInactiveSessions(maxInactive: int, now: int)
      requires Valid()
      modifies this`sessions, this`table
      ensures Valid() && table.Keys <= old(table).Keys
      ensures forall k :: k in old(table) ==>
                (k in table <==>
                   old(sessions[k].state) != P.Ended && now <= old(sessions[k].lastActivity) + maxInactive)
                && (k in table ==> table[k] == old(table)[k])
    {
      var remove: set<string> := {};
      var todo := sessions.Keys;
      while todo != {}
        invariant todo <= sessions.Keys && remove <= sessions.Keys
        invariant forall k :: k in sessions ==>
                    (k in remove <==>
                       k !in todo && (sessions[k].state == P.Ended || now > sessions[k].lastActivity + maxInactive))
        decreases |todo|
      {
        var k :| k in todo;
        if sessions[k].state == P.Ended || now - sessions[k].lastActivity > maxInactive {
          remove := remove + {k};
        }
        todo := todo - {k};
      }
      Delete(remove);
    }
  }
}

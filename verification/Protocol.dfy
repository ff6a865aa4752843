/**
 The round trip of mongo/mongo.go over the session manager of
 mongo/session_manager.go, one step at a time.

 A step is what one goroutine does between two accesses to shared state. The
 driver, the network and the clock answer through an Oracle. Shared state keeps,
 beside what the program stores, a history: what happened to every connection
 and a trace of the events the theorems speak about.
 */
module Protocol {
  import opened Common
  import opened Keys
  import Lru

  type Server = nat
  type Conn = nat

  const MAX_RETRIES: nat := 3

  // --------------------------------------------------------------- sessions

  datatype SessionState = Active | Inactive | Ended

  datatype TxnState = NoTxn | Starting | InProgress | Committed | Aborted

  datatype Session = Session(
    id: string,
    lsid: seq<byte>,
    state: SessionState,
    txn: TxnState,
    txnNumber: int,
    server: Option<Server>,
    conn: Option<Conn>,
    lastActivity: int)

  function NewSession(lsid: seq<byte>, now: int): Session {
    Session(Base64(lsid), lsid, Active, NoTxn, 0, None, None, now)
  }

  // None is the error return.
  function StartTransaction(s: Session, server: Server, conn: Conn, number: int, now: int): Option<Session> {
    if s.state != Active || s.txn != NoTxn then None
    else
      Some(s.(txnNumber := number, txn := InProgress, server := Some(server), conn := Some(conn), lastActivity := now))
  }

  function CommitTransaction(s: Session, now: int): Option<Session> {
    if s.txn != InProgress then None else Some(s.(txn := Committed, lastActivity := now))
  }

  function AbortTransaction(s: Session, now: int): Option<Session> {
    if s.txn != InProgress then None else Some(s.(txn := Aborted, lastActivity := now))
  }

  function UnpinTransaction(s: Session): Session {
    s.(server := None, conn := None)
  }

  function ResetTransactionState(s: Session): Session {
    s.(txn := NoTxn, txnNumber := 0, server := None, conn := None)
  }

  function EndSession(s: Session, now: int): Session {
    if s.state == Ended then s
    else
      var t := if s.txn == InProgress then s.(txn := Aborted, server := None, conn := None) else s;
      t.(state := Ended, lastActivity := now)
  }

  function GetPinnedServer(s: Session): Option<Server> {
    if s.txn == InProgress then s.server else None
  }

  function GetPinnedConnection(s: Session): Option<Conn> {
    if s.txn in {InProgress, Committed, Aborted} then s.conn else None
  }

  // --------------------------------------------------------------- requests

  datatype Command = Commit | Abort | EndSessions | Other

  datatype TxnDetails = TxnDetails(lsid: seq<byte>, txnNumber: int, isStart: bool, autocommit: bool)

  datatype Message = Message(
    details: Option<TxnDetails>,
    command: Command,
    cursorId: int,
    collection: string,
    unacknowledged: bool)

  // ------------------------------------------------------------ shared state

  // One connection handed out by the driver. sid is the session of the call
  // that checked it out; closes counts its closes; leaked marks one that a
  // rejected request left behind.
  datatype ConnRec = ConnRec(call: nat, sid: Option<nat>, server: Server, closes: nat, leaked: bool)

  datatype Event =
    | Bound(call: nat, key: string, sid: nat)
    | Dropped(key: string)
    | Started(sid: nat, server: Server, conn: Conn)
    | Sent(call: nat, session: Option<nat>, server: Server, conn: Conn)
    | Finished(sid: nat)

  // heap holds every session object ever made; table is the manager's map.
  datatype Shared = Shared(heap: seq<Session>, table: map<string, nat>, conns: seq<ConnRec>, trace: seq<Event>)

  // The caches of one Mongo instance.
  datatype Caches = Caches(cursors: Lru.Cache<string, Server>, txns: Lru.Cache<string, Server>)

  function Log(sh: Shared, e: Event): Shared {
    sh.(trace := sh.trace + [e])
  }

  function Put(sh: Shared, sid: nat, s: Session): Shared
    requires sid < |sh.heap|
  {
    sh.(heap := sh.heap[sid := s])
  }

  function CloseConn(sh: Shared, x: Conn): Shared
    requires x < |sh.conns|
  {
    sh.(conns := sh.conns[x := sh.conns[x].(closes := sh.conns[x].closes + 1)])
  }

  function LeakConn(sh: Shared, x: Conn): Shared
    requires x < |sh.conns|
  {
    sh.(conns := sh.conns[x := sh.conns[x].(leaked := true)])
  }

  // ------------------------------------------------------------------ calls

  datatype Deferred = Unpin | Close(conn: Conn, ends: bool)

  datatype PC =
    | Lookup | Create | Select | Checkout | Start | Act | Send
    | CacheCursor(reply: Option<int>) | CacheTxn | Unwind | Done

  // A round trip in flight: its locals, its stack of deferred actions, and two
  // history fields, the writes made so far and the connection of an accepted
  // commit or abort.
  datatype Call = Call(
    id: nat,
    inst: nat,
    msg: Message,
    pc: PC,
    sid: Option<nat>,
    attempt: nat,
    server: Server,
    conn: Conn,
    defers: seq<Deferred>,
    ok: bool,
    sends: nat,
    accepted: Option<Conn>)

  function Begin(id: nat, inst: nat, msg: Message): Call {
    Call(id, inst, msg, Lookup, None, 0, 0, 0, [], false, 0, None)
  }

  datatype Wire = WireError(retryable: bool) | Undecodable | Reply(cursor: Option<int>)

  datatype Oracle = Oracle(now: int, topology: Option<Server>, canConnect: bool, hasProcessor: bool, wire: Wire)

  datatype Config = Config(c: Call, sh: Shared, ca: Caches)

  // What a step needs of the state it runs in; every reachable state has it.
  predicate Sane(c: Call, sh: Shared) {
    && (c.sid.Some? ==> c.sid.value < |sh.heap| && c.msg.details.Some?)
    && (c.pc in {Start, Act, Send} ==> c.conn < |sh.conns|)
    && (forall i :: 0 <= i < |c.defers| ==> c.defers[i].Close? ==> c.defers[i].conn < |sh.conns|)
    && (forall k :: k in sh.table ==> sh.table[k] < |sh.heap|)
    && (c.pc == Create ==> c.msg.details.Some?)
  }

  function Return(c: Call, ok: bool): Call {
    c.(pc := Unwind, ok := ok)
  }

  function Retry(c: Call): Call {
    if c.attempt < MAX_RETRIES then c.(pc := Select, attempt := c.attempt + 1) else Return(c, false)
  }

  function DoLookup(c: Call, sh: Shared, ca: Caches, o: Oracle): Config
    requires Sane(c, sh)
  {
    if c.msg.details.None? then Config(c.(pc := Select), sh, ca)
    else
      var key := Base64(c.msg.details.value.lsid);
      if key in sh.table && sh.heap[sh.table[key]].state != Ended then
        var sid := sh.table[key];
        Config(c.(pc := Select, sid := Some(sid)),
               Log(Put(sh, sid, sh.heap[sid].(lastActivity := o.now)), Bound(c.id, key, sid)), ca)
      else Config(c.(pc := Create), sh, ca)
  }

  function DoCreate(c: Call, sh: Shared, ca: Caches, o: Oracle): Config
    requires Sane(c, sh) && c.pc == Create
  {
    var lsid := c.msg.details.value.lsid;
    var key, sid := Base64(lsid), |sh.heap|;
    Config(c.(pc := Select, sid := Some(sid)),
           Log(sh.(heap := sh.heap + [NewSession(lsid, o.now)], table := sh.table[key := sid]),
               Bound(c.id, key, sid)), ca)
  }

  // The transaction cache, then the cursor cache, then the topology.
  function SelectServer(ca: Caches, msg: Message, topology: Option<Server>): Option<Server> {
    var cached := if msg.details.Some? then Lru.Peek(ca.txns, Base64(msg.details.value.lsid)) else None;
    if cached.Some? then cached
    else
      var pinned := if msg.cursorId != 0 then Lru.Peek(ca.cursors, BuildKey(msg.cursorId, msg.collection)) else None;
      if pinned.Some? then pinned else topology
  }

  function DoSelect(c: Call, sh: Shared, ca: Caches, o: Oracle): Config
    requires Sane(c, sh)
  {
    var pinned := if c.sid.Some? then GetPinnedServer(sh.heap[c.sid.value]) else None;
    var chosen := if pinned.Some? then pinned else SelectServer(ca, c.msg, o.topology);
    if chosen.Some? then Config(c.(pc := Checkout, server := chosen.value), sh, ca)
    else if c.sid.Some? then Config(Return(c, false), sh, ca)
    else Config(Retry(c), sh, ca)
  }

  function DoCheckout(c: Call, sh: Shared, ca: Caches, o: Oracle): Config
    requires Sane(c, sh)
  {
    var pinned := if c.sid.Some? then GetPinnedConnection(sh.heap[c.sid.value]) else None;
    if pinned.Some? then Config(c.(pc := Start, conn := pinned.value), sh, ca)
    else if o.canConnect then
      Config(c.(pc := Start, conn := |sh.conns|),
             sh.(conns := sh.conns + [ConnRec(c.id, c.sid, c.server, 0, false)]), ca)
    else Config(Retry(c), sh, ca)
  }

  // A request refused after its connection was obtained: the close has not been
  // deferred yet, so a connection the session does not pin is left behind.
  function Reject(c: Call, sh: Shared, ca: Caches): Config
    requires Sane(c, sh) && c.sid.Some? && c.pc in {Start, Act}
  {
    Config(Return(c, false), if sh.heap[c.sid.value].conn == Some(c.conn) then sh else LeakConn(sh, c.conn), ca)
  }

  function DoStart(c: Call, sh: Shared, ca: Caches, o: Oracle): Config
    requires Sane(c, sh) && c.pc == Start
  {
    if c.sid.Some? && c.msg.details.value.isStart then
      var sid := c.sid.value;
      var s := StartTransaction(sh.heap[sid], c.server, c.conn, c.msg.details.value.txnNumber, o.now);
      if s.Some? then Config(c.(pc := Act), Log(Put(sh, sid, s.value), Started(sid, c.server, c.conn)), ca)
      else Reject(c, sh, ca)
    else Config(c.(pc := Act), sh, ca)
  }

  function Defer(c: Call, ds: seq<Deferred>): Call {
    c.(pc := Send, defers := c.defers + ds)
  }

  function DoAct(c: Call, sh: Shared, ca: Caches, o: Oracle): Config
    requires Sane(c, sh) && c.pc == Act
  {
    if c.sid.Some? then
      var sid := c.sid.value;
      var s := sh.heap[sid];
      match c.msg.command
      case Commit =>
        var t := CommitTransaction(s, o.now);
        if t.Some? then
          Config(Defer(c, [Unpin, Close(c.conn, true)]).(accepted := Some(c.conn)), Put(sh, sid, t.value), ca)
        else Reject(c, sh, ca)
      case Abort =>
        var t := AbortTransaction(s, o.now);
        if t.Some? then
          Config(Defer(c, [Unpin, Close(c.conn, true)]).(accepted := Some(c.conn)), Put(sh, sid, t.value), ca)
        else Reject(c, sh, ca)
      case EndSessions => Config(Defer(c, [Close(c.conn, false)]), DropSession(sh, sid, o.now), ca)
      case Other => Config(Defer(c, [Close(c.conn, false)]), sh, ca)
    else Config(Defer(c, [Close(c.conn, false)]), sh, ca)
  }

  // EndSession, its removal from the table included.
  function DropSession(sh: Shared, sid: nat, now: int): Shared
    requires sid < |sh.heap|
  {
    var s := sh.heap[sid];
    if s.state == Ended then sh
    else
      var out := Log(Put(sh, sid, EndSession(s, now)).(table := sh.table - {s.id}), Dropped(s.id));
      if s.txn == InProgress then Log(out, Finished(sid)) else out
  }

  function DoSend(c: Call, sh: Shared, ca: Caches, o: Oracle): Config
    requires Sane(c, sh)
  {
    if !o.hasProcessor then Config(Retry(c), sh, ca)
    else
      var d := c.(sends := c.sends + 1);
      var out := Log(sh, Sent(c.id, c.sid, c.server, c.conn));
      match o.wire
      case WireError(retryable) => Config(if retryable then Retry(d) else Return(d, false), out, ca)
      case Undecodable => Config(if c.msg.unacknowledged then Return(d, true) else Retry(d), out, ca)
      case Reply(cursor) =>
        Config(if c.msg.unacknowledged then Return(d, true) else d.(pc := CacheCursor(cursor)), out, ca)
  }

  function DoCacheCursor(c: Call, sh: Shared, ca: Caches, o: Oracle): Config
    requires Sane(c, sh) && c.pc.CacheCursor?
  {
    var d := c.(pc := CacheTxn);
    if c.pc.reply.Some? && c.pc.reply.value != 0 then
      var id := c.pc.reply.value;
      Config(d, sh, ca.(cursors := Lru.Add(ca.cursors, BuildKey(id, c.msg.collection), c.server, o.now)))
    else if c.pc.reply.Some? && c.msg.cursorId != 0 then
      Config(d, sh, ca.(cursors := Lru.Remove(ca.cursors, BuildKey(c.msg.cursorId, c.msg.collection))))
    else Config(d, sh, ca)
  }

  function DoCacheTxn(c: Call, sh: Shared, ca: Caches, o: Oracle): Config
    requires Sane(c, sh)
  {
    var d := Return(c, true);
    if c.msg.details.None? then Config(d, sh, ca)
    else
      var key := Base64(c.msg.details.value.lsid);
      if c.msg.details.value.isStart then Config(d, sh, ca.(txns := Lru.Add(ca.txns, key, c.server, o.now)))
      else if c.msg.command in {Commit, Abort} then Config(d, sh, ca.(txns := Lru.Remove(ca.txns, key)))
      else Config(d, sh, ca)
  }

  // Deferred actions run last in, first out.
  function DoUnwind(c: Call, sh: Shared, ca: Caches, o: Oracle): Config
    requires Sane(c, sh)
  {
    if c.defers == [] then Config(c.(pc := Done), sh, ca)
    else
      var n := |c.defers| - 1;
      var d := c.(defers := c.defers[..n]);
      match c.defers[n]
      case Unpin =>
        Config(d, if c.sid.Some? then Put(sh, c.sid.value, UnpinTransaction(sh.heap[c.sid.value])) else sh, ca)
      case Close(x, ends) =>
        if ends then
          var out := CloseConn(sh, x);
          Config(d,
                 if c.sid.Some? then
                   Log(Put(out, c.sid.value, ResetTransactionState(out.heap[c.sid.value])), Finished(c.sid.value))
                 else out, ca)
        else if c.sid.None? || sh.heap[c.sid.value].txn != InProgress then Config(d, CloseConn(sh, x), ca)
        else Config(d, sh, ca)
  }

  function Step(c: Call, sh: Shared, ca: Caches, o: Oracle): Config
    requires Sane(c, sh)
  {
    match c.pc
    case Lookup => DoLookup(c, sh, ca, o)
    case Create => DoCreate(c, sh, ca, o)
    case Select => DoSelect(c, sh, ca, o)
    case Checkout => DoCheckout(c, sh, ca, o)
    case Start => DoStart(c, sh, ca, o)
    case Act => DoAct(c, sh, ca, o)
    case Send => DoSend(c, sh, ca, o)
    case CacheCursor(_) => DoCacheCursor(c, sh, ca, o)
    case CacheTxn => DoCacheTxn(c, sh, ca, o)
    case Unwind => DoUnwind(c, sh, ca, o)
    case Done => Config(c, sh, ca)
  }
}

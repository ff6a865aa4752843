/**
 The pool manager of pool/pool.go as a value. Connections are known by their
 number in the order they were checked out, pools and clients by name. Every
 Manager method is one function here; PoolManager has them as methods.
 */
module Pool {
  import opened Common

  datatype Mode = Session | Transaction | Statement | OtherMode(name: string)

  // A transaction's name, made of its logical session and number.
  datatype TxnId = NoTxn | TxnId(lsid: seq<int>, number: int)

  datatype Conn = Conn(pool: string, inUse: bool, txn: TxnId, client: string)

  datatype Client = Client(database: string, mode: Mode, kept: Option<nat>, txnConn: Option<nat>)

  // pools gives the ActiveConnections counter of each pool; floored counts the
  // returns that found their counter at zero already.
  datatype State = State(
    maxClients: int,
    pools: map<string, nat>,
    conns: seq<Conn>,
    clients: map<string, Client>,
    floored: nat)

  function New(maxClients: int): State {
    State(maxClients, map[], [], map[], 0)
  }

  // ----------------------------------------------------------------- the pool

  // GetPool: the pool is made when it is first asked for.
  function GetPool(s: State, database: string): State {
    if database in s.pools then s else s.(pools := s.pools[database := 0])
  }

  // The new connection's number is |s.conns|.
  function Checkout(s: State, database: string, client: string): State
    requires database in s.pools
  {
    s.(conns := s.conns + [Conn(database, true, NoTxn, client)],
       pools := s.pools[database := s.pools[database] + 1])
  }

  // One pool's Return: it ignores another pool's connection, and the counter
  // does not go below zero.
  function Return(s: State, database: string, i: nat): State
    requires database in s.pools && i < |s.conns|
  {
    if s.conns[i].pool != database then s
    else
      s.(conns := s.conns[i := Conn(database, false, NoTxn, "")],
         pools := s.pools[database := if s.pools[database] > 0 then s.pools[database] - 1 else 0],
         floored := if s.pools[database] > 0 then s.floored else s.floored + 1)
  }

  // conn.Pool.Return(conn)
  function GiveBack(s: State, i: nat): State
    requires i < |s.conns| && s.conns[i].pool in s.pools
  {
    Return(s, s.conns[i].pool, i)
  }

  // -------------------------------------------------------------- the manager

  // Every connection a client refers to exists, and so does its pool.
  predicate WellFormed(s: State) {
    && (forall i :: 0 <= i < |s.conns| ==> s.conns[i].pool in s.pools)
    && (forall id :: id in s.clients ==> Refers(s, s.clients[id]))
  }

  predicate Refers(s: State, c: Client) {
    && (c.kept.Some? ==> c.kept.value < |s.conns|)
    && (c.txnConn.Some? ==> c.txnConn.value < |s.conns|)
  }

  function Register(s: State, id: string, database: string, mode: Mode): Result<State> {
    if id in s.clients then Ok(s)
    else if s.maxClients > 0 && |s.clients| >= s.maxClients then Err
    else Ok(s.(clients := s.clients[id := Client(database, mode, None, None)]))
  }

  function GiveBackIfAny(s: State, i: Option<nat>): State
    requires WellFormed(s) && (i.Some? ==> i.value < |s.conns|)
  {
    if i.Some? then GiveBack(s, i.value) else s
  }

  function Unregister(s: State, id: string): State
    requires WellFormed(s)
  {
    if id !in s.clients then s
    else
      var c := s.clients[id];
      var given := GiveBackIfAny(GiveBackIfAny(s, c.kept), c.txnConn);
      given.(clients := given.clients - {id})
  }

  function WithClient(s: State, id: string, c: Client): State {
    s.(clients := s.clients[id := c])
  }

  // A transaction-mode client's connection for a transaction: the one it has, if
  // that belongs to the transaction, else a new one in exchange.
  function TransactionConn(s: State, id: string, database: string, txn: TxnId): (State, nat)
    requires WellFormed(s) && id in s.clients && database in s.pools
  {
    var c := s.clients[id];
    if c.txnConn.Some? && s.conns[c.txnConn.value].txn == txn then (s, c.txnConn.value)
    else
      var s1 := if c.txnConn.Some? then Return(s, database, c.txnConn.value) else s;
      var s2 := Checkout(s1, database, id);
      var i := |s1.conns|;
      (WithClient(s2.(conns := s2.conns[i := s2.conns[i].(txn := txn)]), id, c.(txnConn := Some(i))), i)
  }

  // The connection a registered client gets from an existing pool.
  function ConnectionFrom(s: State, id: string, database: string, inTxn: bool, txn: TxnId): (State, Result<nat>)
    requires WellFormed(s) && id in s.clients && database in s.pools
  {
    var c := s.clients[id];
    match c.mode
    case Session =>
      if c.kept.Some? then (s, Ok(c.kept.value))
      else (WithClient(Checkout(s, database, id), id, c.(kept := Some(|s.conns|))), Ok(|s.conns|))
    case Transaction =>
      if inTxn then
        var (r, i) := TransactionConn(s, id, database, txn);
        (r, Ok(i))
      else (Checkout(s, database, id), Ok(|s.conns|))
    case Statement => (Checkout(s, database, id), Ok(|s.conns|))
    case OtherMode(_) => (s, Err)
  }

  function GetConnection(s: State, id: string, database: string, inTxn: bool, txn: TxnId): (State, Result<nat>)
    requires WellFormed(s)
  {
    if id !in s.clients then (s, Err) else ConnectionFrom(GetPool(s, database), id, database, inTxn, txn)
  }

  function ReturnConnection(s: State, id: string, i: nat, isEnd: bool): State
    requires WellFormed(s) && i < |s.conns|
  {
    if id !in s.clients then GiveBack(s, i)
    else
      var c := s.clients[id];
      match c.mode
      case Session => if c.kept != Some(i) then GiveBack(s, i) else s
      case Transaction =>
        if isEnd && c.txnConn == Some(i) then WithClient(GiveBack(s, i), id, c.(txnConn := None))
        else if !isEnd && c.txnConn != Some(i) then GiveBack(s, i)
        else s
      case Statement => GiveBack(s, i)
      case OtherMode(_) => s
  }

  // ------------------------------------------------- what a request tells them

  datatype Details = Details(lsid: seq<int>, number: int, autocommit: bool)

  datatype Request = Request(database: string, inTxn: bool, txn: TxnId, isEnd: bool)

  predicate EndsTransaction(command: string, details: Option<Details>) {
    || command == "commitTransaction"
    || command == "abortTransaction"
    || command == "endSessions"
    || (details.Some? && details.value.autocommit)
  }

  // What roundTripWithPool reads off a message.
  function RequestOf(database: string, command: string, details: Option<Details>): Request {
    Request(
      if database == "" then "default" else database,
      details.Some? && !details.value.autocommit,
      if details.Some? then TxnId(details.value.lsid, details.value.number) else NoTxn,
      EndsTransaction(command, details))
  }
}

/**
 The invariant of one round trip: what holds, between any two of its steps, of
 its locals, of its session and of the connections it is answerable for. Every
 step keeps it and touches nothing that belongs to another call or session.
 */
module Pinning {
  import opened Common
  import opened Keys
  import opened Protocol

  // ------------------------------------------------------------ connections

  // A connection belongs to the session of the call that checked it out, or to
  // that call when it has no session.
  predicate Owned(sid: Option<nat>, call: nat, r: ConnRec) {
    if sid.Some? then r.sid == sid else r.sid.None? && r.call == call
  }

  predicate Closing(ds: seq<Deferred>, x: Conn) {
    exists i :: 0 <= i < |ds| && ds[i].Close? && ds[i].conn == x
  }

  predicate HeldBy(c: Call, x: Conn) {
    (c.pc in {Start, Act} && c.conn == x) || Closing(c.defers, x)
  }

  predicate PinnedIn(sh: Shared, sid: Option<nat>, x: Conn) {
    sid.Some? && sid.value < |sh.heap| && sh.heap[sid.value].conn == Some(x)
  }

  // In use and never closed, or closed exactly once, or left behind unclosed.
  predicate Status(r: ConnRec, live: bool) {
    if live then r.closes == 0 && !r.leaked
    else (r.closes == 1 && !r.leaked) || (r.closes == 0 && r.leaked && r.sid.Some?)
  }

  predicate OwnsConn(c: Call, sh: Shared, x: Conn) {
    x < |sh.conns| && Owned(c.sid, c.id, sh.conns[x])
  }

  predicate ConnsInv(c: Call, sh: Shared) {
    forall x :: 0 <= x < |sh.conns| && Owned(c.sid, c.id, sh.conns[x]) ==>
      Status(sh.conns[x], HeldBy(c, x) || PinnedIn(sh, c.sid, x))
  }

  // ------------------------------------------------------------------ phases

  predicate Loose(s: Session) {
    s.server.None? && s.conn.None? && (s.txn == NoTxn || (s.txn == Aborted && s.state == Ended))
  }

  predicate Pinned(s: Session) {
    s.txn == InProgress && s.server.Some? && s.conn.Some? && s.state == Active
  }

  predicate Ending(s: Session) {
    s.txn in {Committed, Aborted} && s.server.Some? && s.conn.Some? && s.state == Active
  }

  // Every deferred action closes a connection of this call's own, none twice.
  predicate Temporary(c: Call) {
    && (forall i :: 0 <= i < |c.defers| ==> c.defers[i].Close? && !c.defers[i].ends)
    && (forall i, j :: 0 <= i < j < |c.defers| ==> c.defers[i] != c.defers[j])
    && (c.pc in {Start, Act} ==> !Closing(c.defers, c.conn))
  }

  predicate PhaseLoose(c: Call, s: Session) {
    Loose(s) && (Temporary(c) || (c.pc == Unwind && c.defers == [Unpin]))
  }

  predicate PhasePinned(c: Call, s: Session) {
    && Pinned(s)
    && (forall i :: 0 <= i < |c.defers| ==> c.defers[i] == Close(s.conn.value, false))
    && (c.pc in {Checkout, Start, Act, Send} ==> c.server == s.server.value)
    && (c.pc in {Start, Act, Send} ==> c.conn == s.conn.value)
  }

  predicate PhaseEnding(c: Call, s: Session) {
    && Ending(s)
    && c.accepted == s.conn
    && c.pc != Done
    && c.defers == [Unpin, Close(s.conn.value, true)]
    && (c.pc == Send ==> c.server == s.server.value)
    && (c.pc in {Start, Act, Send} ==> c.conn == s.conn.value)
  }

  predicate PhaseInv(c: Call, sh: Shared) {
    if c.sid.None? then Temporary(c)
    else if c.sid.value >= |sh.heap| then false
    else
      var s := sh.heap[c.sid.value];
      PhaseLoose(c, s) || PhasePinned(c, s) || PhaseEnding(c, s)
  }

  // An accepted commit or abort is still to be sent and closed, or it is over:
  // the session is back to having no transaction and the connection is closed.
  predicate AcceptedInv(c: Call, sh: Shared) {
    && (c.accepted.Some? ==>
          && c.sid.Some? && c.sid.value < |sh.heap| && c.msg.command in {Commit, Abort}
          && var s := sh.heap[c.sid.value];
          && OwnsConn(c, sh, c.accepted.value)
          && (Ending(s) || (Loose(s) && s.txn == NoTxn && s.state == Active && c.pc in {Unwind, Done}
                            && sh.conns[c.accepted.value].closes == 1)))
    && (c.sid.Some? && c.msg.command in {Commit, Abort} && (c.pc in {Send, CacheTxn} || c.pc.CacheCursor? || c.ok)
        ==> c.accepted.Some?)
  }

  // ----------------------------------------------------------------- writes

  predicate Special(m: Message) {
    m.details.Some? && (m.details.value.isStart || m.command in {Commit, Abort})
  }

  // The session will refuse the message if it is tried again.
  predicate Blocked(m: Message, s: Session) {
    if m.details.Some? && m.details.value.isStart then s.state != Active || s.txn != NoTxn
    else s.txn != InProgress
  }

  predicate Before(pc: PC) {
    pc in {Lookup, Create, Select, Checkout, Start, Act, Send}
  }

  predicate SendsInv(c: Call, sh: Shared) {
    && c.attempt <= MAX_RETRIES
    && c.sends <= (if Before(c.pc) then c.attempt else c.attempt + 1)
    && (Special(c.msg) ==> c.sends <= 1)
    && (Special(c.msg) && c.sid.Some? && c.sid.value < |sh.heap| ==>
          var s := sh.heap[c.sid.value];
          && (c.pc == Send ==> c.sends == 0 && Blocked(c.msg, s))
          && (c.pc in {Select, Checkout, Start, Act} && (c.sends > 0 || c.defers != []) ==> Blocked(c.msg, s))
          && (c.pc == Act && c.msg.details.value.isStart ==>
                c.sends == 0 && c.defers == [] && s.txn == InProgress))
  }

  // The connections a call has checked out so far.
  function Opened(conns: seq<ConnRec>, call: nat): nat {
    if conns == [] then 0
    else Opened(conns[..|conns| - 1], call) + if conns[|conns| - 1].call == call then 1 else 0
  }

  predicate OpenedInv(c: Call, sh: Shared) {
    Opened(sh.conns, c.id) <= if c.pc in {Lookup, Create, Select, Checkout} then c.attempt else c.attempt + 1
  }

  // ------------------------------------------------------------- per call

  predicate BindingInv(c: Call, sh: Shared) {
    && (c.pc in {Lookup, Create} ==>
          c.sid.None? && c.defers == [] && c.sends == 0 && c.attempt == 0 && c.accepted.None? && !c.ok)
    && (c.pc !in {Lookup, Create} ==> (c.sid.Some? <==> c.msg.details.Some?))
    && (c.sid.Some? ==>
          && c.sid.value < |sh.heap| && c.msg.details.Some?
          && sh.heap[c.sid.value].lsid == c.msg.details.value.lsid)
    && (c.sid.Some? && c.msg.command == EndSessions && c.defers != [] ==> sh.heap[c.sid.value].state == Ended)
    && (c.pc == Done ==> c.defers == [])
    && (c.ok ==> c.pc in {Unwind, Done})
  }

  predicate RefsInv(c: Call, sh: Shared) {
    && (forall i :: 0 <= i < |c.defers| ==> c.defers[i].Close? ==> OwnsConn(c, sh, c.defers[i].conn))
    && (c.pc in {Start, Act, Send} ==> OwnsConn(c, sh, c.conn))
    && (c.pc == Send ==> Closing(c.defers, c.conn))
    && (c.sid.Some? && c.sid.value < |sh.heap| && sh.heap[c.sid.value].conn.Some? ==>
          OwnsConn(c, sh, sh.heap[c.sid.value].conn.value))
    && (forall k :: k in sh.table ==> sh.table[k] < |sh.heap|)
  }

  predicate LocalInv(c: Call, sh: Shared) {
    && BindingInv(c, sh)
    && RefsInv(c, sh)
    && PhaseInv(c, sh)
    && ConnsInv(c, sh)
    && AcceptedInv(c, sh)
    && SendsInv(c, sh)
    && OpenedInv(c, sh)
  }
}

/**
 What orderly runs guarantee beyond what every legal run does: pinning without
 exception, and each connection closed at most once.
 */
module RunTheorems {
  import opened Common
  import opened Keys
  import opened Protocol
  import opened Pinning
  import opened PinningSteps
  import opened Traces
  import opened Runs
  import opened OverlapRuns
  import opened Leaks

  // ----------------------------------------------------------------- pinning

  lemma {:induction false} CurrentStays(tr: seq<Event>, i: nat, j: nat)
    requires GoodTrace(tr) && i < j <= |tr| && tr[i].Started?
    requires forall k :: i < k < j ==> tr[k] != Finished(tr[i].sid)
    ensures Current(tr[..j], tr[i].sid) == Some((tr[i].server, tr[i].conn))
  {
    assert tr[..j][..j - 1] == tr[..j - 1] && tr[..j][j - 1] == tr[j - 1];
    if i < j - 1 {
      CurrentStays(tr, i, j - 1);
      assert Fits(tr[..j - 1], tr[j - 1]);
    }
  }

  lemma {:induction false} StoredStays(tr: seq<Event>, i: nat, j: nat)
    requires GoodTrace(tr) && i < j <= |tr| && tr[i].Bound?
    requires forall k :: i < k < j ==> tr[k] != Dropped(tr[i].key)
    ensures Stored(tr[..j], tr[i].key) == Some(tr[i].sid)
  {
    assert tr[..j][..j - 1] == tr[..j - 1] && tr[..j][j - 1] == tr[j - 1];
    if i < j - 1 {
      StoredStays(tr, i, j - 1);
      assert Fits(tr[..j - 1], tr[j - 1]);
    }
  }

  lemma {:induction false} BoundStays(tr: seq<Event>, i: nat, j: nat)
    requires GoodTrace(tr) && i < j <= |tr| && tr[i].Bound?
    ensures BoundOf(tr[..j], tr[i].call) == Some((tr[i].key, tr[i].sid))
  {
    assert tr[..j][..j - 1] == tr[..j - 1] && tr[..j][j - 1] == tr[j - 1];
    if i < j - 1 {
      BoundStays(tr, i, j - 1);
      assert Fits(tr[..j - 1], tr[j - 1]);
    }
  }

  // From a successful start on, until the transaction finishes, every write for
  // that session object uses the server and connection pinned at the start.
  lemma PinnedUntilFinished(ls: seq<Label>, i: nat, j: nat)
    requires Orderly(INIT, ls)
    requires var tr := Exec(INIT, ls).sh.trace;
             && i < j < |tr| && tr[i].Started? && tr[j].Sent? && tr[j].session == Some(tr[i].sid)
             && (forall k :: i < k < j ==> tr[k] != Finished(tr[i].sid))
    ensures var tr := Exec(INIT, ls).sh.trace;
            tr[j].server == tr[i].server && tr[j].conn == tr[i].conn
  {
    RunKeepsInv(ls);
    var tr := Exec(INIT, ls).sh.trace;
    CurrentStays(tr, i, j);
    assert Fits(tr[..j], tr[j]);
  }

  // The same for a logical session: b is any request with the same key as the
  // request a that started the transaction, bound while the session was not
  // dropped. Its writes go where a's transaction is pinned, through whichever
  // instance they come and whatever the caches of that instance hold.
  lemma LogicalSessionIsPinned(ls: seq<Label>, a: nat, start: nat, b: nat, send: nat)
    requires Orderly(INIT, ls)
    requires var tr := Exec(INIT, ls).sh.trace;
             && a < start < send < |tr| && a <= b < send
             && tr[a].Bound? && tr[start].Started? && tr[start].sid == tr[a].sid
             && tr[b].Bound? && tr[b].key == tr[a].key
             && tr[send].Sent? && tr[send].call == tr[b].call && tr[send].session.Some?
             && (forall k :: a < k < b ==> tr[k] != Dropped(tr[a].key))
             && (forall k :: start < k < send ==> tr[k] != Finished(tr[start].sid))
    ensures var tr := Exec(INIT, ls).sh.trace;
            tr[send].server == tr[start].server && tr[send].conn == tr[start].conn
  {
    hide Legal, Exec, Core, FinishedInv, CurrentInv, StoredInv;
    RunKeepsInv(ls);
    var tr := Exec(INIT, ls).sh.trace;
    if a < b {
      StoredStays(tr, a, b);
      assert Fits(tr[..b], tr[b]);
    }
    assert tr[b].sid == tr[a].sid;
    BoundStays(tr, b, send);
    assert Fits(tr[..send], tr[send]);
    PinnedUntilFinished(ls, start, send);
  }

  // ------------------------------------------------------------ connections

  ghost predicate PinnedNow(m: Machine, x: Conn)
    requires x < |m.sh.conns|
  {
    var r := m.sh.conns[x];
    r.sid.Some? && r.sid.value < |m.sh.heap| &&
    m.sh.heap[r.sid.value].conn == Some(x) && m.sh.heap[r.sid.value].txn == InProgress
  }

  // Pinned by a transaction in progress whose session no key leads to any more.
  ghost predicate Orphaned(m: Machine, x: Conn)
    requires x < |m.sh.conns|
  {
    PinnedNow(m, x) && !StoredPin(m, x)
  }

  lemma QuietConnection(ls: seq<Label>, x: Conn)
    requires Orderly(INIT, ls) && Exec(INIT, ls).calls == map[] && x < |Exec(INIT, ls).sh.conns|
    ensures var m := Exec(INIT, ls);
            var r := m.sh.conns[x];
            && r.closes == (if PinnedNow(m, x) || r.leaked then 0 else 1)
            && !(PinnedNow(m, x) && r.leaked)
  {
    RunKeepsInv(ls);
    var m := Exec(INIT, ls);
    var r := m.sh.conns[x];
    if r.sid.Some? {
      assert Free(m, r.sid.value);
      assert IdleInv(m.sh, r.sid.value);
    }
  }

  lemma StoredIsPinned(m: Machine, x: Conn)
    requires FreeInv(m) && m.calls == map[] && x < |m.sh.conns| && StoredPin(m, x)
    ensures PinnedNow(m, x)
  {
    var k :| k in m.sh.table && m.sh.table[k] < |m.sh.heap| && m.sh.heap[m.sh.table[k]].conn == Some(x);
    PinIsCommittable(m, k);
  }

  /**
   With nothing in flight after an orderly run, every connection ever checked out
   is in exactly one of four states: closed, exactly once; pinned by a transaction
   of a stored session; pinned by one whose session was cleaned up; or left behind
   by a refused request. The last two, and no others, stay open for ever.
   */
  lemma QuiescentConservation(ls: seq<Label>, x: Conn)
    requires Orderly(INIT, ls) && Exec(INIT, ls).calls == map[] && x < |Exec(INIT, ls).sh.conns|
    ensures var m := Exec(INIT, ls);
            var r := m.sh.conns[x];
            && r.closes == (if StoredPin(m, x) || Orphaned(m, x) || r.leaked then 0 else 1)
            && !(StoredPin(m, x) && Orphaned(m, x)) && !(StoredPin(m, x) && r.leaked) && !(Orphaned(m, x) && r.leaked)
            && (OpenForEver(m, x) <==> Orphaned(m, x) || r.leaked)
  {
    hide FreeInv, Inv, OpenForEver, PinnedNow, StoredPin;
    var m := Exec(INIT, ls);
    QuietConnection(ls, x);
    RunIsFree(ls);
    if StoredPin(m, x) {
      StoredIsPinned(m, x);
    }
    OpenForEverExactly(ls, x);
  }

  // In an orderly run no connection is closed twice.
  lemma ClosedAtMostOnce(ls: seq<Label>, x: Conn)
    requires Orderly(INIT, ls) && x < |Exec(INIT, ls).sh.conns|
    ensures Exec(INIT, ls).sh.conns[x].closes <= 1
  {
    RunKeepsInv(ls);
    var m := Exec(INIT, ls);
    var r := m.sh.conns[x];
    if r.sid.Some? {
      if Free(m, r.sid.value) {
        assert IdleInv(m.sh, r.sid.value);
      } else {
        var id :| id in m.calls && m.calls[id].sid == r.sid;
        assert LocalInv(m.calls[id], m.sh) && Owned(m.calls[id].sid, id, r);
      }
    } else if r.call in m.calls {
      assert LocalInv(m.calls[r.call], m.sh) && Owned(m.calls[r.call].sid, r.call, r);
    }
  }

  // In an orderly run a write is only ever made on a connection that is still open.
  lemma NeverSendsOnClosed(ls: seq<Label>, id: nat)
    requires Orderly(INIT, ls) && id in Exec(INIT, ls).calls && Exec(INIT, ls).calls[id].pc == Send
    ensures var m := Exec(INIT, ls);
            m.calls[id].conn < |m.sh.conns| && m.sh.conns[m.calls[id].conn].closes == 0
  {
    RunKeepsInv(ls);
    var m := Exec(INIT, ls);
    var c := m.calls[id];
    assert LocalInv(c, m.sh);
    assert HeldBy(c, c.conn) || PinnedIn(m.sh, c.sid, c.conn) by { SendHolds(c, m.sh); }
  }

  lemma SendHolds(c: Call, sh: Shared)
    requires LocalInv(c, sh) && c.pc == Send
    ensures HeldBy(c, c.conn) || PinnedIn(sh, c.sid, c.conn)
  {
  }

  // A request leaves its connection behind exactly when it is refused with nothing
  // pinned: a commit or abort with no transaction open on its session, or a start
  // on a session that is no longer active.
  lemma RefusalLeavesExactly(ls: seq<Label>, id: nat, o: Oracle, x: Conn)
    requires Orderly(INIT, ls) && Enabled(Exec(INIT, ls), Advance(id, o)) && x < |Exec(INIT, ls).sh.conns|
    ensures var m := Exec(INIT, ls);
            var c := m.calls[id];
            var m' := Apply(m, Advance(id, o));
            && |m.sh.conns| <= |m'.sh.conns|
            && (!m.sh.conns[x].leaked && m'.sh.conns[x].leaked <==>
                  && x == c.conn && c.sid.Some?
                  && var s := m.sh.heap[c.sid.value];
                  && s.conn.None?
                  && (|| (c.pc == Act && c.msg.command in {Commit, Abort})
                      || (c.pc == Start && c.msg.details.value.isStart && s.state != Active)))
  {
    RunKeepsInv(ls);
    var m := Exec(INIT, ls);
    assert LocalInv(m.calls[id], m.sh);
    LeakStep(m.calls[id], m.sh, CachesOf(m, m.calls[id].inst), o, x);
  }

  lemma LeakStep(c: Call, sh: Shared, ca: Caches, o: Oracle, x: Conn)
    requires LocalInv(c, sh) && Sane(c, sh) && x < |sh.conns|
    ensures var r := Step(c, sh, ca, o);
            && |sh.conns| <= |r.sh.conns|
            && (!sh.conns[x].leaked && r.sh.conns[x].leaked <==>
                  && x == c.conn && c.sid.Some?
                  && var s := sh.heap[c.sid.value];
                  && s.conn.None?
                  && (|| (c.pc == Act && c.msg.command in {Commit, Abort})
                      || (c.pc == Start && c.msg.details.value.isStart && s.state != Active)))
  {
    if c.pc in {Start, Act} {
      assert OwnsConn(c, sh, c.conn) && HeldBy(c, c.conn);
      assert !sh.conns[c.conn].leaked;
    } else {
      NoLeakElsewhere(c, sh, ca, o, x);
    }
  }

  lemma NoLeakElsewhere(c: Call, sh: Shared, ca: Caches, o: Oracle, x: Conn)
    requires Sane(c, sh) && x < |sh.conns| && c.pc !in {Start, Act}
    ensures |sh.conns| <= |Step(c, sh, ca, o).sh.conns| && Step(c, sh, ca, o).sh.conns[x].leaked == sh.conns[x].leaked
  {
  }

  // ---------------------------------------------------------- retry safety

  // In an orderly run a message that starts a transaction is written at most
  // once too, like one that commits or aborts it.
  lemma StartWrittenOnce(ls: seq<Label>, id: nat)
    requires Orderly(INIT, ls) && (id in Exec(INIT, ls).calls || id in Exec(INIT, ls).finished)
    ensures var m := Exec(INIT, ls);
            var c := if id in m.calls then m.calls[id] else m.finished[id];
            Special(c.msg) ==> SendCount(m.sh.trace, id) <= 1
  {
    RunKeepsInv(ls);
    var m := Exec(INIT, ls);
    if id in m.calls {
      assert LocalInv(m.calls[id], m.sh);
    }
  }

  // ------------------------------------------------------ commit and abort

  lemma {:induction false} CurrentWasStarted(tr: seq<Event>, sid: nat)
    requires Current(tr, sid).Some?
    ensures StartedBefore(tr, sid, Current(tr, sid).value.1)
  {
    var n := |tr| - 1;
    if !(tr[n].Started? && tr[n].sid == sid) {
      CurrentWasStarted(tr[..n], sid);
      var i :| 0 <= i < n && tr[..n][i].Started? && tr[..n][i].sid == sid
               && tr[..n][i].conn == Current(tr, sid).value.1;
      assert tr[i].Started?;
    }
  }

  lemma StartedKept(tr: seq<Event>, more: seq<Event>, sid: nat, x: Conn)
    requires StartedBefore(tr, sid, x) && tr <= more
    ensures StartedBefore(more, sid, x)
  {
    var i :| 0 <= i < |tr| && tr[i].Started? && tr[i].sid == sid && tr[i].conn == x;
    assert more[i] == tr[i];
  }

  lemma TraceGrows(m: Machine, l: Label)
    requires Enabled(m, l)
    ensures m.sh.trace <= Apply(m, l).sh.trace
  {
  }

  // The connection of an accepted commit or abort is the one pinned at a start
  // of the same session.
  lemma {:induction false} AcceptedWasPinned(ls: seq<Label>, id: nat)
    requires Orderly(INIT, ls) && id in Exec(INIT, ls).calls && Exec(INIT, ls).calls[id].accepted.Some?
    ensures var m := Exec(INIT, ls);
            m.calls[id].sid.Some? && StartedBefore(m.sh.trace, m.calls[id].sid.value, m.calls[id].accepted.value)
  {
    var n := |ls| - 1;
    var m := Exec(INIT, ls[..n]);
    RunKeepsInv(ls[..n]);
    if id in m.calls && m.calls[id].accepted.Some? {
      AcceptedWasPinned(ls[..n], id);
      AcceptedStays(m, ls[n], id);
      TraceGrows(m, ls[n]);
      StartedKept(m.sh.trace, Exec(INIT, ls).sh.trace, m.calls[id].sid.value, m.calls[id].accepted.value);
    } else {
      JustAccepted(m, ls[n], id);
      RunKeepsInv(ls);
      AcceptedHasStarted(Exec(INIT, ls), id);
    }
  }

  lemma AcceptedHasStarted(m: Machine, id: nat)
    requires CallsInv(m) && CurrentInv(m.sh) && id in m.calls && m.calls[id].pc == Send && m.calls[id].accepted.Some?
    ensures m.calls[id].sid.Some? && StartedBefore(m.sh.trace, m.calls[id].sid.value, m.calls[id].accepted.value)
  {
    assert LocalInv(m.calls[id], m.sh);
    CurrentWasStarted(m.sh.trace, m.calls[id].sid.value);
  }

  lemma StepKeepsAccepted(c: Call, sh: Shared, ca: Caches, o: Oracle)
    requires Sane(c, sh) && c.pc !in {Lookup, Create} && c.sid.Some? && sh.heap[c.sid.value].txn != InProgress
    ensures Step(c, sh, ca, o).c.accepted == c.accepted
  {
  }

  lemma AcceptedStays(m: Machine, l: Label, id: nat)
    requires CallsInv(m) && ConnectionsInv(m) && Enabled(m, l)
    requires id in m.calls && m.calls[id].accepted.Some? && id in Apply(m, l).calls
    ensures Apply(m, l).calls[id].accepted == m.calls[id].accepted
    ensures Apply(m, l).calls[id].sid == m.calls[id].sid
  {
    var c := m.calls[id];
    assert LocalInv(c, m.sh);
    if l.Advance? && l.id == id {
      StepKeepsAccepted(c, m.sh, CachesOf(m, c.inst), l.o);
      SidKept(c, m.sh, CachesOf(m, c.inst), l.o);
    }
  }

  lemma JustAccepted(m: Machine, l: Label, id: nat)
    requires Enabled(m, l) && id in Apply(m, l).calls && Apply(m, l).calls[id].accepted.Some?
    requires id !in m.calls || m.calls[id].accepted.None?
    ensures Apply(m, l).calls[id].pc == Send
  {
  }

  // Once a commit or abort has been accepted, then when the call is done, however
  // it went, the session has no transaction and no pins, and the connection that
  // was pinned at the start has been closed exactly once.
  lemma AcceptedCommitIsOver(ls: seq<Label>, id: nat)
    requires Orderly(INIT, ls) && id in Exec(INIT, ls).calls
    requires Exec(INIT, ls).calls[id].pc == Done && Exec(INIT, ls).calls[id].accepted.Some?
    ensures var m := Exec(INIT, ls);
            var c := m.calls[id];
            && c.sid.Some? && c.sid.value < |m.sh.heap|
            && var s := m.sh.heap[c.sid.value];
            && s.txn == NoTxn && s.server.None? && s.conn.None? && s.state == Active
            && StartedBefore(m.sh.trace, c.sid.value, c.accepted.value)
            && c.accepted.value < |m.sh.conns| && m.sh.conns[c.accepted.value].closes == 1
  {
    RunKeepsInv(ls);
    var m := Exec(INIT, ls);
    assert LocalInv(m.calls[id], m.sh);
    AcceptedWasPinned(ls, id);
  }

  // It stays closed exactly once for the rest of the run, and a commit or abort
  // that reported success had been accepted.
  lemma FinishedCommitStaysClosed(ls: seq<Label>, id: nat)
    requires Orderly(INIT, ls) && id in Exec(INIT, ls).finished
    ensures var m := Exec(INIT, ls);
            var c := m.finished[id];
            && (c.accepted.Some? ==> c.accepted.value < |m.sh.conns| && m.sh.conns[c.accepted.value].closes == 1)
            && (c.msg.details.Some? && c.msg.command in {Commit, Abort} && c.ok ==> c.accepted.Some?)
  {
    RunKeepsInv(ls);
    var m := Exec(INIT, ls);
    if m.finished[id].accepted.Some? {
      ClosedAtMostOnce(ls, m.finished[id].accepted.value);
    }
  }

  // ----------------------------------------------------------- session table

  // Every stored session is active and keyed by the base64 of its own lsid; one
  // that no request is using has a transaction in progress exactly when both
  // pins are set, and otherwise has none.
  lemma SessionTable(ls: seq<Label>, key: string)
    requires Orderly(INIT, ls) && key in Exec(INIT, ls).sh.table
    ensures var m := Exec(INIT, ls);
            && m.sh.table[key] < |m.sh.heap|
            && var s := m.sh.heap[m.sh.table[key]];
            && s.id == key == Base64(s.lsid) && s.state == Active
            && (Free(m, m.sh.table[key]) ==>
                  && s.txn in {NoTxn, InProgress}
                  && (s.txn == InProgress <==> s.server.Some? && s.conn.Some?)
                  && (s.server.Some? <==> s.conn.Some?))
  {
    RunKeepsInv(ls);
    var m := Exec(INIT, ls);
    if Free(m, m.sh.table[key]) {
      assert IdleInv(m.sh, m.sh.table[key]);
    }
  }
}

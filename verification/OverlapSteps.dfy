/**
 What one step does to transactions, to the writes of its call and to the calls
 that overlap with it. Nothing here assumes that requests of a session take turns.
 */
module OverlapSteps {
  import opened Common
  import opened Keys
  import opened Protocol
  import opened Pinning
  import opened PinningSteps
  import opened Traces
  import opened Runs
  import opened Overlap

  // ------------------------------------------------------------ transactions

  // The step starts a transaction on the session.
  predicate Starts(c: Call, sh: Shared, sid: nat) {
    && c.pc == Start && c.sid == Some(sid) && c.msg.details.Some? && c.msg.details.value.isStart
    && sid < |sh.heap| && sh.heap[sid].state == Active && sh.heap[sid].txn == NoTxn
  }

  // The step is the close of an accepted commit or abort, with its reset.
  predicate Resets(c: Call, sid: nat) {
    && c.pc == Unwind && c.sid == Some(sid) && c.defers != []
    && c.defers[|c.defers| - 1].Close? && c.defers[|c.defers| - 1].ends
  }

  // The step accepts the call's commit or abort.
  predicate Accepts(c: Call, sh: Shared, sid: nat) {
    && c.pc == Act && c.sid == Some(sid) && c.msg.command in {Commit, Abort}
    && sid < |sh.heap| && sh.heap[sid].txn == InProgress
  }

  // Pins stay or are let go, and a transaction can only end.
  predicate Quiet(s: Session, s': Session) {
    && (s'.txn == s.txn || (s.txn == InProgress && s'.txn in {Committed, Aborted}))
    && ((s'.conn == s.conn && s'.server == s.server) || (s'.conn.None? && s'.server.None?))
  }

  // What a step of c does to session sid, s before it and s' after it.
  predicate SessionMoves(c: Call, sh: Shared, sid: nat, d: Call, s': Session)
    requires sid < |sh.heap|
  {
    var s := sh.heap[sid];
    && (Starts(c, sh, sid) ==>
          d == c.(pc := Act) && s'.txn == InProgress && s'.conn == Some(c.conn) && s'.server == Some(c.server)
          && s'.state == Active)
    && (Resets(c, sid) ==> s'.txn == NoTxn && s'.conn.None? && s'.server.None?)
    && (!Starts(c, sh, sid) && !Resets(c, sid) ==> Quiet(s, s'))
    && (Accepts(c, sh, sid) ==> s'.txn in {Committed, Aborted} && s'.state == s.state)
    && (s.txn == InProgress && s'.txn != InProgress && !Accepts(c, sh, sid) && !Resets(c, sid) ==> s'.state == Ended)
    && (s'.state == s.state || s'.state == Ended)
    && (s'.state == Ended && s.state != Ended ==> s'.txn != InProgress)
  }

  lemma StartMoves(c: Call, sh: Shared, ca: Caches, o: Oracle, sid: nat)
    requires Sane(c, sh) && sid < |sh.heap| && c.pc == Start
    ensures var r := DoStart(c, sh, ca, o); sid < |r.sh.heap| && SessionMoves(c, sh, sid, r.c, r.sh.heap[sid])
  {
  }

  lemma ActMoves(c: Call, sh: Shared, ca: Caches, o: Oracle, sid: nat)
    requires Sane(c, sh) && sid < |sh.heap| && c.pc == Act
    ensures var r := DoAct(c, sh, ca, o); sid < |r.sh.heap| && SessionMoves(c, sh, sid, r.c, r.sh.heap[sid])
  {
  }

  lemma UnwindMoves(c: Call, sh: Shared, ca: Caches, o: Oracle, sid: nat)
    requires Sane(c, sh) && sid < |sh.heap| && c.pc == Unwind
    ensures var r := DoUnwind(c, sh, ca, o); sid < |r.sh.heap| && SessionMoves(c, sh, sid, r.c, r.sh.heap[sid])
  {
  }

  lemma ElsewhereMoves(c: Call, sh: Shared, ca: Caches, o: Oracle, sid: nat)
    requires Sane(c, sh) && sid < |sh.heap| && c.pc !in {Start, Act, Unwind}
    ensures var r := Step(c, sh, ca, o);
            && sid < |r.sh.heap|
            && r.sh.heap[sid] == sh.heap[sid].(lastActivity := r.sh.heap[sid].lastActivity)
  {
    hide Base64, BuildKey, SelectServer;
  }

  lemma SessionStep(c: Call, sh: Shared, ca: Caches, o: Oracle, sid: nat)
    requires Sane(c, sh) && sid < |sh.heap|
    ensures var r := Step(c, sh, ca, o); sid < |r.sh.heap| && SessionMoves(c, sh, sid, r.c, r.sh.heap[sid])
  {
    hide SessionMoves, DoStart, DoAct, DoUnwind;
    match c.pc
    case Start => StartMoves(c, sh, ca, o, sid);
    case Act => ActMoves(c, sh, ca, o, sid);
    case Unwind => UnwindMoves(c, sh, ca, o, sid);
    case _ => ElsewhereMoves(c, sh, ca, o, sid); SameMoves(c, sh, sid, Step(c, sh, ca, o));
  }

  lemma SameMoves(c: Call, sh: Shared, sid: nat, r: Config)
    requires sid < |sh.heap| && sid < |r.sh.heap| && c.pc !in {Start, Act, Unwind}
    requires r.sh.heap[sid] == sh.heap[sid].(lastActivity := r.sh.heap[sid].lastActivity)
    ensures SessionMoves(c, sh, sid, r.c, r.sh.heap[sid])
  {
  }

  lemma FreshSession(c: Call, sh: Shared, ca: Caches, o: Oracle)
    requires Sane(c, sh)
    ensures var r := Step(c, sh, ca, o);
            forall s :: |sh.heap| <= s < |r.sh.heap| ==>
              && r.sh.heap[s].txn == NoTxn && r.sh.heap[s].state == Active
              && r.sh.heap[s].conn.None? && r.sh.heap[s].server.None?
  {
    hide Base64, BuildKey, SelectServer;
  }

  // --------------------------------------------------------- pending endings

  // The close of an accepted commit or abort is still deferred.
  predicate Pending(c: Call) {
    exists i :: 0 <= i < |c.defers| && c.defers[i].Close? && c.defers[i].ends
  }

  predicate Sole(c: Call) {
    forall i, j :: 0 <= i < j < |c.defers| ==>
      !(c.defers[i].Close? && c.defers[i].ends && c.defers[j].Close? && c.defers[j].ends)
  }

  // A pending ending keeps its session in the state the commit or abort gave it.
  predicate PendingInv(c: Call, sh: Shared) {
    && Sole(c)
    && (Pending(c) ==>
          && c.sid.Some? && c.sid.value < |sh.heap| && c.msg.command in {Commit, Abort}
          && sh.heap[c.sid.value].txn in {Committed, Aborted})
  }

  lemma PendingOfAppend(c: Call, ds: seq<Deferred>)
    requires Sole(c) && !Pending(c) && ds in {[Close(c.conn, false)], [Unpin, Close(c.conn, true)]}
    ensures Sole(Defer(c, ds)) && (Pending(Defer(c, ds)) <==> |ds| == 2)
  {
    var d := Defer(c, ds);
    forall i | 0 <= i < |d.defers| ensures d.defers[i].Close? && d.defers[i].ends ==> i == |d.defers| - 1 {
      assert i < |c.defers| ==> d.defers[i] == c.defers[i];
    }
    assert d.defers[|d.defers| - 1] == ds[|ds| - 1];
  }

  lemma PendingOfKept(c: Call)
    requires Sole(c) && Pending(c)
    ensures Sole(Defer(c, [Close(c.conn, false)])) && Pending(Defer(c, [Close(c.conn, false)]))
  {
    var d := Defer(c, [Close(c.conn, false)]);
    forall i | 0 <= i < |d.defers| ensures d.defers[i].Close? && d.defers[i].ends ==> i < |c.defers| {}
    var i :| 0 <= i < |c.defers| && c.defers[i].Close? && c.defers[i].ends;
    assert d.defers[i] == c.defers[i];
  }

  lemma PendingOfPop(c: Call)
    requires Sole(c) && c.defers != []
    ensures var d := c.(defers := c.defers[..|c.defers| - 1]);
            var last := c.defers[|c.defers| - 1];
            Sole(d) && (Pending(d) <==> Pending(c) && !(last.Close? && last.ends))
  {
    var n := |c.defers| - 1;
    var d := c.(defers := c.defers[..n]);
    if Pending(c) && !(c.defers[n].Close? && c.defers[n].ends) {
      var i :| 0 <= i < |c.defers| && c.defers[i].Close? && c.defers[i].ends;
      assert d.defers[i] == c.defers[i];
    }
    if Pending(d) {
      var i :| 0 <= i < |d.defers| && d.defers[i].Close? && d.defers[i].ends;
      assert c.defers[i] == d.defers[i];
    }
  }

  lemma SamePending(c: Call, d: Call)
    requires d.defers == c.defers
    ensures Pending(d) <==> Pending(c)
    ensures Sole(d) <==> Sole(c)
  {
  }

  // How a step changes its own pending ending.
  lemma PendingStep(c: Call, sh: Shared, ca: Caches, o: Oracle)
    requires Sane(c, sh) && PendingInv(c, sh) && Sound(c, sh)
    ensures var d := Step(c, sh, ca, o).c;
            && Sole(d)
            && (Pending(d) <==>
                  || (Pending(c) && !(c.sid.Some? && Resets(c, c.sid.value)))
                  || (c.sid.Some? && Accepts(c, sh, c.sid.value)))
  {
    hide Base64, BuildKey, SelectServer, DropSession, Pending, Sole;
    var d := Step(c, sh, ca, o).c;
    if c.pc == Act && d.pc == Send {
      if c.sid.Some? && c.msg.command in {Commit, Abort} {
        AcceptsFirst(c, sh);
        PendingOfAppend(c, [Unpin, Close(c.conn, true)]);
        SamePending(Defer(c, [Unpin, Close(c.conn, true)]), d);
      } else if Pending(c) {
        PendingOfKept(c);
      } else {
        PendingOfAppend(c, [Close(c.conn, false)]);
      }
    } else if c.pc == Unwind && c.defers != [] {
      PendingOfPop(c);
      SamePending(c.(defers := c.defers[..|c.defers| - 1]), d);
    } else {
      NoActDefers(c, sh, ca, o);
      SamePending(c, d);
    }
  }

  lemma AcceptsFirst(c: Call, sh: Shared)
    requires PendingInv(c, sh) && c.sid.Some? && Accepts(c, sh, c.sid.value)
    ensures !Pending(c)
  {
  }

  lemma NoActDefers(c: Call, sh: Shared, ca: Caches, o: Oracle)
    requires Sane(c, sh) && Sound(c, sh)
    requires !(c.pc == Unwind && c.defers != [])
    requires !(c.pc == Act && Step(c, sh, ca, o).c.pc == Send)
    ensures Step(c, sh, ca, o).c.defers == c.defers
  {
    hide Base64, BuildKey, SelectServer, DropSession;
  }
}

/**
 Exactly how often a connection is closed, and exactly when a write is made on one
 that has been closed, in every legal run.
 */
module Closes {
  import opened Common
  import opened Keys
  import opened Protocol
  import opened Pinning
  import opened PinningSteps
  import opened Traces
  import opened Runs
  import opened Overlap
  import opened OverlapSteps
  import opened OverlapRuns
  import opened Positions
  import opened OverlapTheorems
  import opened Escapes
  import opened Pins

  // ------------------------------------------------------ counting closes

  // The step runs a deferred close of x that takes effect: that of an accepted
  // commit or abort, or one of a call whose session is not in progress.
  predicate ClosesNow(c: Call, sh: Shared, x: Conn) {
    && c.pc == Unwind && c.defers != []
    && var d := c.defers[|c.defers| - 1];
    && d.Close? && d.conn == x
    && (d.ends || c.sid.None? || (c.sid.value < |sh.heap| && sh.heap[c.sid.value].txn != InProgress))
  }

  predicate ClosesAt(ls: seq<Label>, k: nat, x: Conn)
    requires Legal(INIT, ls) && k < |ls|
  {
    ls[k].Advance? && ls[k].id in At(ls, k).calls && ClosesNow(At(ls, k).calls[ls[k].id], At(ls, k).sh, x)
  }

  // The steps before step n that close x.
  function CloseSteps(ls: seq<Label>, n: nat, x: Conn): set<nat>
    requires Legal(INIT, ls) && n <= |ls|
  {
    set k | 0 <= k < n && ClosesAt(ls, k, x)
  }

  lemma CloseStep(c: Call, sh: Shared, ca: Caches, o: Oracle, x: Conn)
    requires Sane(c, sh)
    ensures var r := Step(c, sh, ca, o);
            && |sh.conns| <= |r.sh.conns|
            && (ClosesNow(c, sh, x) ==> x < |sh.conns|)
            && (x < |r.sh.conns| ==>
                  r.sh.conns[x].closes ==
                    (if x < |sh.conns| then sh.conns[x].closes else 0) + (if ClosesNow(c, sh, x) then 1 else 0))
  {
    hide Base64, BuildKey, SelectServer, DropSession;
    if c.pc == Act && c.sid.Some? && c.msg.command == EndSessions {
      DropConns(sh, c.sid.value, o.now);
    }
  }

  lemma CloseAt(ls: seq<Label>, n: nat, x: Conn)
    requires Legal(INIT, ls) && 0 < n <= |ls|
    ensures var m, m' := At(ls, n - 1), At(ls, n);
            && |m.sh.conns| <= |m'.sh.conns|
            && (ClosesAt(ls, n - 1, x) ==> x < |m.sh.conns|)
            && (x < |m'.sh.conns| ==>
                  m'.sh.conns[x].closes ==
                    (if x < |m.sh.conns| then m.sh.conns[x].closes else 0) + (if ClosesAt(ls, n - 1, x) then 1 else 0))
  {
    hide Step, ClosesNow;
    AtStep(ls, n - 1);
    var m := At(ls, n - 1);
    if ls[n - 1].Advance? {
      var c := m.calls[ls[n - 1].id];
      CloseStep(c, m.sh, CachesOf(m, c.inst), ls[n - 1].o, x);
    }
  }

  lemma OneMoreStep(ls: seq<Label>, n: nat, x: Conn)
    requires Legal(INIT, ls) && 0 < n <= |ls|
    ensures |CloseSteps(ls, n, x)| == |CloseSteps(ls, n - 1, x)| + if ClosesAt(ls, n - 1, x) then 1 else 0
  {
    hide ClosesAt;
    var before := CloseSteps(ls, n - 1, x);
    assert n - 1 !in before;
    assert CloseSteps(ls, n, x) == if ClosesAt(ls, n - 1, x) then before + {n - 1} else before;
  }

  lemma {:induction false} ClosesCounted(ls: seq<Label>, n: nat, x: Conn)
    requires Legal(INIT, ls) && n <= |ls|
    ensures if x < |At(ls, n).sh.conns| then At(ls, n).sh.conns[x].closes == |CloseSteps(ls, n, x)|
            else CloseSteps(ls, n, x) == {}
  {
    hide Legal, Exec, ClosesAt;
    if n == 0 {
      AtEnds(ls);
    } else {
      ClosesCounted(ls, n - 1, x);
      CloseAt(ls, n, x);
      OneMoreStep(ls, n, x);
    }
  }

  /**
   A connection has been closed as often as there are steps that run a deferred
   close of it with effect; so it is closed once exactly if there is just one such
   step, and twice or more exactly if there are two different ones.
   */
  lemma ClosesExactly(ls: seq<Label>, x: Conn)
    requires Legal(INIT, ls) && x < |Exec(INIT, ls).sh.conns|
    ensures Exec(INIT, ls).sh.conns[x].closes == |CloseSteps(ls, |ls|, x)|
    ensures Exec(INIT, ls).sh.conns[x].closes > 0 <==> exists k :: 0 <= k < |ls| && ClosesAt(ls, k, x)
    ensures Exec(INIT, ls).sh.conns[x].closes > 1 <==>
              exists j, k :: 0 <= j < k < |ls| && ClosesAt(ls, j, x) && ClosesAt(ls, k, x)
  {
    hide Legal, Exec, ClosesAt;
    AtEnds(ls);
    ClosesCounted(ls, |ls|, x);
    var steps := CloseSteps(ls, |ls|, x);
    if k :| 0 <= k < |ls| && ClosesAt(ls, k, x) {
      assert k in steps;
      if j :| 0 <= j < |ls| && j != k && ClosesAt(ls, j, x) {
        assert if j < k then ClosesAt(ls, j, x) && ClosesAt(ls, k, x) else k < j;
        assert j in steps - {k};
        assert |steps - {k}| > 0;
      } else {
        assert steps == {k};
      }
    } else {
      assert steps == {};
    }
  }

  // -------------------------------------------------- a transaction in progress

  // A step that closes a connection of the session takes its transaction out of
  // progress or finds it out of progress.
  lemma NoCloseStep(ls: seq<Label>, k: nat, sid: nat, x: Conn)
    requires Legal(INIT, ls) && k < |ls| && sid < |At(ls, k).sh.heap| && At(ls, k).sh.heap[sid].txn == InProgress
    requires x < |At(ls, k).sh.conns| && At(ls, k).sh.conns[x].sid == Some(sid) && !ResetsAt(ls, k, sid)
    ensures !ClosesAt(ls, k, x)
  {
    hide FreeInv, Legal, Exec;
    if ls[k].Advance? && ls[k].id in At(ls, k).calls {
      FreeParts(ls, k, ls[k].id);
    }
  }

  // In progress now and not started by the last step: in progress before it.
  lemma StillInProgress(ls: seq<Label>, n: nat, i: nat, sid: nat)
    requires Legal(INIT, ls) && i + 1 < n <= |ls| && LastMove(ls, n, sid) == StartedAt(i)
    requires sid < |At(ls, n).sh.heap| && At(ls, n).sh.heap[sid].txn == InProgress
    ensures LastMove(ls, n - 1, sid) == StartedAt(i)
    ensures sid < |At(ls, n - 1).sh.heap| && At(ls, n - 1).sh.heap[sid].txn == InProgress
  {
    hide Legal, Exec, Starts, Resets, Accepts;
    assert !StartsAt(ls, n - 1, sid) && !ResetsAt(ls, n - 1, sid);
    PinsHeldExactly(ls, n, i, sid);
    PinsHeldExactly(ls, n - 1, i, sid);
  }

  /**
   While the transaction started at step i is in progress no connection of its
   session is closed: those it had at the start keep their count of closes, and
   those opened since are open.
   */
  lemma {:induction false} NoCloseInProgress(ls: seq<Label>, n: nat, i: nat, sid: nat, x: Conn)
    requires Legal(INIT, ls) && n <= |ls| && LastMove(ls, n, sid) == StartedAt(i)
    requires sid < |At(ls, n).sh.heap| && At(ls, n).sh.heap[sid].txn == InProgress
    requires x < |At(ls, n).sh.conns| && At(ls, n).sh.conns[x].sid == Some(sid)
    ensures At(ls, n).sh.conns[x].closes == if x < |At(ls, i).sh.conns| then At(ls, i).sh.conns[x].closes else 0
  {
    hide Legal, Exec, Starts, Resets, ClosesNow;
    CloseAt(ls, n, x);
    if n == i + 1 {
      StartsDontClose(ls, i, sid, x);
    } else {
      StillInProgress(ls, n, i, sid);
      if x < |At(ls, n - 1).sh.conns| {
        ConnKeepsOwner(ls, n - 1, n, x);
        NoCloseInProgress(ls, n - 1, i, sid, x);
        NoCloseStep(ls, n - 1, sid, x);
      } else {
        ConnsGrow(ls, i, n - 1);
      }
    }
  }

  lemma StartsDontClose(ls: seq<Label>, i: nat, sid: nat, x: Conn)
    requires Legal(INIT, ls) && i < |ls| && StartsAt(ls, i, sid)
    ensures !ClosesAt(ls, i, x)
  {
  }

  /**
   While a transaction is in progress, a request on its pinned connection writes on
   a closed one exactly if the start had pinned a closed one.
   */
  lemma PinnedWriteOnClosedExactly(ls: seq<Label>, i: nat, sid: nat, b: nat)
    requires Legal(INIT, ls) && LastMove(ls, |ls|, sid) == StartedAt(i)
    requires sid < |Exec(INIT, ls).sh.heap| && Exec(INIT, ls).sh.heap[sid].txn == InProgress
    requires b in Exec(INIT, ls).calls && HasConn(Exec(INIT, ls).calls[b])
    requires Exec(INIT, ls).calls[b].conn == At(ls, i).calls[ls[i].id].conn
    ensures var x := Exec(INIT, ls).calls[b].conn;
            && x < |At(ls, i).sh.conns| && x < |Exec(INIT, ls).sh.conns|
            && (Exec(INIT, ls).sh.conns[x].closes > 0 <==> At(ls, i).sh.conns[x].closes > 0)
  {
    hide Legal, Exec, Starts, Resets;
    AtEnds(ls);
    var x := Exec(INIT, ls).calls[b].conn;
    StarterHolds(ls, i, sid);
    ConnKeepsOwner(ls, i, |ls|, x);
    NoCloseInProgress(ls, |ls|, i, sid, x);
  }

  // ------------------------------------------------------ writes on closed ones

  lemma UnwindStays(c: Call, sh: Shared, ca: Caches, o: Oracle)
    requires Sane(c, sh) && c.pc in {Unwind, Done}
    ensures var d := Step(c, sh, ca, o).c; d.pc in {Unwind, Done} && d.accepted == c.accepted
  {
  }

  // Once a call runs its deferred actions it writes no more and accepts nothing.
  lemma {:induction false} Unwinding(ls: seq<Label>, j: nat, n: nat, id: nat)
    requires Legal(INIT, ls) && j <= n <= |ls| && id in At(ls, j).calls && id in At(ls, n).calls
    requires At(ls, j).calls[id].pc == Unwind
    ensures At(ls, n).calls[id].pc in {Unwind, Done} && At(ls, n).calls[id].accepted == At(ls, j).calls[id].accepted
    decreases n
  {
    hide Legal, Exec, Step, FreeInv, Sound;
    if j < n {
      InFlight(ls, j, n, id);
      Unwinding(ls, j, n - 1, id);
      AtStep(ls, n - 1);
      NextGrows(ls, n - 1, n - 1, id);
      var m := At(ls, n - 1);
      if ls[n - 1].Advance? && ls[n - 1].id == id {
        FreeParts(ls, n - 1, id);
        UnwindStays(m.calls[id], m.sh, CachesOf(m, m.calls[id].inst), ls[n - 1].o);
      }
    }
  }

  // A step that closes a connection is made by a call that owns it.
  lemma CloserOwns(ls: seq<Label>, k: nat, x: Conn)
    requires Legal(INIT, ls) && k < |ls| && ClosesAt(ls, k, x)
    ensures OwnsConn(At(ls, k).calls[ls[k].id], At(ls, k).sh, x) && At(ls, k).calls[ls[k].id].id == ls[k].id
  {
    hide FreeInv, Legal, Exec;
    FreeParts(ls, k, ls[k].id);
  }

  // Step k closes x, and is made by another request of the session.
  predicate ClosedByOther(ls: seq<Label>, k: nat, x: Conn, b: nat, sid: Option<nat>)
    requires Legal(INIT, ls) && k < |ls|
  {
    ClosesAt(ls, k, x) && ls[k].id != b && sid.Some? && At(ls, k).calls[ls[k].id].sid == sid
  }

  // Whoever closed the connection a call is on was another request of its session.
  lemma CloserIsOther(ls: seq<Label>, k: nat, b: nat)
    requires Legal(INIT, ls) && k < |ls| && b in At(ls, |ls|).calls && HasConn(At(ls, |ls|).calls[b])
    requires ClosesAt(ls, k, At(ls, |ls|).calls[b].conn)
    ensures ClosedByOther(ls, k, At(ls, |ls|).calls[b].conn, b, At(ls, |ls|).calls[b].sid)
  {
    hide Legal, Exec, FreeInv;
    var c := At(ls, |ls|).calls[b];
    var x := c.conn;
    CloserOwns(ls, k, x);
    ConnKeepsOwner(ls, k, |ls|, x);
    FreeParts(ls, |ls|, b);
    if ls[k].id == b {
      Unwinding(ls, k, |ls|, b);
    }
  }

  /**
   A request is about to write on a closed connection exactly if another request of
   its session has run a close of it with effect. So a request without a session
   never is.
   */
  lemma SendsOnClosedExactly(ls: seq<Label>, b: nat)
    requires Legal(INIT, ls) && b in Exec(INIT, ls).calls && Exec(INIT, ls).calls[b].pc == Send
    ensures var m := Exec(INIT, ls);
            var c := m.calls[b];
            && c.conn < |m.sh.conns|
            && (m.sh.conns[c.conn].closes > 0 <==>
                  exists k :: 0 <= k < |ls| && ClosedByOther(ls, k, c.conn, b, c.sid))
  {
    hide Legal, Exec, FreeInv, ClosesAt;
    AtEnds(ls);
    var c := Exec(INIT, ls).calls[b];
    FreeParts(ls, |ls|, b);
    ClosesExactly(ls, c.conn);
    if k :| 0 <= k < |ls| && ClosesAt(ls, k, c.conn) {
      CloserIsOther(ls, k, b);
    }
  }

  // ---------------------------------------------------- commits and aborts

  // The reset of a commit or abort is the close of the connection it was accepted on.
  lemma ResetCloses(ls: seq<Label>, k: nat, id: nat)
    requires Legal(INIT, ls) && k < |ls| && OwnReset(ls, k, id)
    ensures var a := At(ls, k).calls[id].accepted; a.Some? && ClosesAt(ls, k, a.value)
  {
    hide Legal, Exec;
    ShapeHolds(ls, k, id);
    var c := At(ls, k).calls[id];
    assert IsEnding(c.defers[|c.defers| - 1]);
  }

  /**
   An accepted commit or abort that is done has closed its connection in the step
   that reset its session; it has been closed just once exactly if no other step
   closed it.
   */
  lemma AcceptedClosedOnceExactly(ls: seq<Label>, id: nat) returns (k: nat)
    requires Legal(INIT, ls) && id in Exec(INIT, ls).calls
    requires Exec(INIT, ls).calls[id].pc == Done && Exec(INIT, ls).calls[id].accepted.Some?
    ensures k < |ls| && OwnReset(ls, k, id)
    ensures var m := Exec(INIT, ls);
            var x := m.calls[id].accepted.value;
            && x < |m.sh.conns| && ClosesAt(ls, k, x)
            && (m.sh.conns[x].closes == 1 <==> forall j :: 0 <= j < |ls| && j != k ==> !ClosesAt(ls, j, x))
  {
    hide Legal, Exec, ClosesAt, ResetsAt;
    k := AcceptedCommitCompletes(ls, id);
    AtEnds(ls);
    ResetCloses(ls, k, id);
    Unwinding(ls, k, |ls|, id);
    var x := Exec(INIT, ls).calls[id].accepted.value;
    ClosesExactly(ls, x);
    if j :| 0 <= j < |ls| && j != k && ClosesAt(ls, j, x) {
      assert if j < k then ClosesAt(ls, j, x) && ClosesAt(ls, k, x) else k < j;
    }
  }

  // A commit or abort that has returned: if it reported success it was accepted,
  // and if it was accepted its connection is closed.
  lemma ReturnedCommitClosed(ls: seq<Label>, id: nat)
    requires Legal(INIT, ls) && id in Exec(INIT, ls).finished
    ensures var m := Exec(INIT, ls);
            var c := m.finished[id];
            && (c.msg.details.Some? && Settles(c.msg) && c.ok ==> c.accepted.Some?)
            && (c.accepted.Some? ==> c.accepted.value < |m.sh.conns| && m.sh.conns[c.accepted.value].closes > 0)
  {
    hide FreeCore, PlainOk, EndersKnown, Paired;
    AtEnds(ls);
    ShapeHolds(ls, |ls|, id);
    RunIsFree(ls);
  }
}

/**
 Exactly when an open transaction has its pins, in every legal run: until a step
 lets go of them, and which steps those are.
 */
module Pins {
  import opened Common
  import opened Keys
  import opened Protocol
  import opened Pinning
  import opened PinningSteps
  import opened Traces
  import opened Runs
  import opened Overlap
  import opened OverlapSteps
  import opened OverlapRuns
  import opened Positions
  import opened OverlapTheorems

  // ---------------------------------------------------------- letting go

  // The step runs the unpinning that an accepted commit or abort deferred.
  predicate Unpins(c: Call, sid: nat) {
    c.pc == Unwind && c.sid == Some(sid) && c.defers != [] && c.defers[|c.defers| - 1] == Unpin
  }

  // The step is an endSessions that finds a transaction in progress and aborts it.
  predicate EndsInProgress(c: Call, sh: Shared, sid: nat) {
    && c.pc == Act && c.sid == Some(sid) && c.msg.command == EndSessions
    && sid < |sh.heap| && sh.heap[sid].txn == InProgress
  }

  predicate UnpinsAt(ls: seq<Label>, k: nat, sid: nat)
    requires Legal(INIT, ls) && k < |ls|
  {
    ls[k].Advance? && ls[k].id in At(ls, k).calls && Unpins(At(ls, k).calls[ls[k].id], sid)
  }

  predicate EndsAt(ls: seq<Label>, k: nat, sid: nat)
    requires Legal(INIT, ls) && k < |ls|
  {
    ls[k].Advance? && ls[k].id in At(ls, k).calls && EndsInProgress(At(ls, k).calls[ls[k].id], At(ls, k).sh, sid)
  }

  predicate AcceptsAt(ls: seq<Label>, k: nat, sid: nat)
    requires Legal(INIT, ls) && k < |ls|
  {
    ls[k].Advance? && ls[k].id in At(ls, k).calls && Accepts(At(ls, k).calls[ls[k].id], At(ls, k).sh, sid)
  }

  // No step between the two lets go of the session's pins.
  predicate Held(ls: seq<Label>, i: nat, n: nat, sid: nat)
    requires Legal(INIT, ls) && n <= |ls|
  {
    forall k :: i < k < n ==> !UnpinsAt(ls, k, sid) && !EndsAt(ls, k, sid)
  }

  // No step between the two takes the session's transaction out of progress.
  predicate Running(ls: seq<Label>, i: nat, n: nat, sid: nat)
    requires Legal(INIT, ls) && n <= |ls|
  {
    forall k :: i < k < n ==> !AcceptsAt(ls, k, sid) && !EndsAt(ls, k, sid)
  }

  // What a step does to the pins and the state of a transaction that it neither
  // starts nor resets.
  predicate KeepsPins(c: Call, sh: Shared, sid: nat, s': Session)
    requires sid < |sh.heap|
  {
    var s := sh.heap[sid];
    !Starts(c, sh, sid) && !Resets(c, sid) ==>
      && (s'.conn.Some? <==> s.conn.Some? && !Unpins(c, sid) && !EndsInProgress(c, sh, sid))
      && (s'.server.Some? <==> s.server.Some? && !Unpins(c, sid) && !EndsInProgress(c, sh, sid))
      && (s'.txn == InProgress <==>
            s.txn == InProgress && !Accepts(c, sh, sid) && !EndsInProgress(c, sh, sid))
  }

  lemma StartHolds(c: Call, sh: Shared, ca: Caches, o: Oracle, sid: nat)
    requires Sane(c, sh) && sid < |sh.heap| && c.pc == Start
    ensures var r := DoStart(c, sh, ca, o); sid < |r.sh.heap| && KeepsPins(c, sh, sid, r.sh.heap[sid])
  {
  }

  lemma ActHolds(c: Call, sh: Shared, ca: Caches, o: Oracle, sid: nat)
    requires Sane(c, sh) && sid < |sh.heap| && c.pc == Act && Paired(sh)
    ensures var r := DoAct(c, sh, ca, o); sid < |r.sh.heap| && KeepsPins(c, sh, sid, r.sh.heap[sid])
  {
  }

  lemma UnwindHolds(c: Call, sh: Shared, ca: Caches, o: Oracle, sid: nat)
    requires Sane(c, sh) && sid < |sh.heap| && c.pc == Unwind
    ensures var r := DoUnwind(c, sh, ca, o); sid < |r.sh.heap| && KeepsPins(c, sh, sid, r.sh.heap[sid])
  {
  }

  lemma HoldStep(c: Call, sh: Shared, ca: Caches, o: Oracle, sid: nat)
    requires Sane(c, sh) && sid < |sh.heap| && Paired(sh)
    ensures var r := Step(c, sh, ca, o); sid < |r.sh.heap| && KeepsPins(c, sh, sid, r.sh.heap[sid])
  {
    hide DoStart, DoAct, DoUnwind, Paired;
    match c.pc
    case Start => StartHolds(c, sh, ca, o, sid);
    case Act => ActHolds(c, sh, ca, o, sid);
    case Unwind => UnwindHolds(c, sh, ca, o, sid);
    case _ => ElsewhereMoves(c, sh, ca, o, sid);
  }

  // ------------------------------------------------------------ every run

  lemma HoldAt(ls: seq<Label>, n: nat, sid: nat)
    requires Legal(INIT, ls) && 0 < n <= |ls| && sid < |At(ls, n - 1).sh.heap|
    ensures sid < |At(ls, n).sh.heap|
    ensures var m, m' := At(ls, n - 1), At(ls, n);
            if ls[n - 1].Advance? && ls[n - 1].id in m.calls then
              KeepsPins(m.calls[ls[n - 1].id], m.sh, sid, m'.sh.heap[sid])
            else m'.sh.heap == m.sh.heap
  {
    hide Step, KeepsPins, FreeCore, ReturnedOk, PlainOk, EndersKnown, Paired;
    AtStep(ls, n - 1);
    AtFree(ls, n - 1);
    var m := At(ls, n - 1);
    if ls[n - 1].Advance? {
      var c := m.calls[ls[n - 1].id];
      HoldStep(c, m.sh, CachesOf(m, c.inst), ls[n - 1].o, sid);
    }
  }

  lemma StartedSession(ls: seq<Label>, i: nat, sid: nat)
    requires Legal(INIT, ls) && i < |ls| && StartsAt(ls, i, sid)
    ensures sid < |At(ls, i).sh.heap| && sid < |At(ls, i + 1).sh.heap|
    ensures var s := At(ls, i + 1).sh.heap[sid]; s.conn.Some? && s.server.Some? && s.txn == InProgress
  {
    hide Legal, Exec;
    SessionAt(ls, i + 1, sid);
  }

  /**
   While the transaction started at step i is the session's last, the session has
   its connection pinned, and its server, if and only if no step since has let go:
   a deferred unpinning of the session, or an endSessions that found it in
   progress. It is in progress if and only if no commit or abort was accepted and
   no endSessions found it in progress since.
   */
  lemma {:induction false} PinsHeldExactly(ls: seq<Label>, n: nat, i: nat, sid: nat)
    requires Legal(INIT, ls) && n <= |ls| && LastMove(ls, n, sid) == StartedAt(i)
    ensures sid < |At(ls, n).sh.heap|
    ensures At(ls, n).sh.heap[sid].conn.Some? <==> Held(ls, i, n, sid)
    ensures At(ls, n).sh.heap[sid].server.Some? <==> Held(ls, i, n, sid)
    ensures At(ls, n).sh.heap[sid].txn == InProgress <==> Running(ls, i, n, sid)
  {
    hide Legal, Exec, Starts, Resets, Unpins, EndsInProgress, Accepts;
    if n == i + 1 {
      StartedSession(ls, i, sid);
    } else {
      PinsHeldExactly(ls, n - 1, i, sid);
      HoldAt(ls, n, sid);
      assert !StartsAt(ls, n - 1, sid) && !ResetsAt(ls, n - 1, sid);
      HeldOneMore(ls, i, n, sid);
    }
  }

  lemma HeldOneMore(ls: seq<Label>, i: nat, n: nat, sid: nat)
    requires Legal(INIT, ls) && i + 1 < n <= |ls|
    ensures Held(ls, i, n, sid) <==>
              Held(ls, i, n - 1, sid) && !UnpinsAt(ls, n - 1, sid) && !EndsAt(ls, n - 1, sid)
    ensures Running(ls, i, n, sid) <==>
              Running(ls, i, n - 1, sid) && !AcceptsAt(ls, n - 1, sid) && !EndsAt(ls, n - 1, sid)
  {
    hide UnpinsAt, EndsAt, AcceptsAt;
  }

  // --------------------------------------------------- outcome and number

  // What a step leaves a transaction in that it takes out of progress, and what it
  // does to the transaction number.
  predicate Concludes(c: Call, sh: Shared, sid: nat, s': Session)
    requires sid < |sh.heap|
  {
    && (Accepts(c, sh, sid) ==> s'.txn == if c.msg.command == Commit then Committed else Aborted)
    && (EndsInProgress(c, sh, sid) ==> s'.txn == Aborted)
    && (Starts(c, sh, sid) ==> s'.txnNumber == c.msg.details.value.txnNumber)
    && (Resets(c, sid) ==> s'.txnNumber == 0)
    && (!Starts(c, sh, sid) && !Resets(c, sid) ==> s'.txnNumber == sh.heap[sid].txnNumber)
  }

  lemma ConcludeStep(c: Call, sh: Shared, ca: Caches, o: Oracle, sid: nat)
    requires Sane(c, sh) && sid < |sh.heap| && Paired(sh)
    ensures var r := Step(c, sh, ca, o); sid < |r.sh.heap| && Concludes(c, sh, sid, r.sh.heap[sid])
  {
    hide Base64, BuildKey, SelectServer;
  }

  lemma ConcludeAt(ls: seq<Label>, n: nat, sid: nat)
    requires Legal(INIT, ls) && 0 < n <= |ls| && sid < |At(ls, n - 1).sh.heap|
    ensures sid < |At(ls, n).sh.heap|
    ensures var m, m' := At(ls, n - 1), At(ls, n);
            if ls[n - 1].Advance? && ls[n - 1].id in m.calls then
              Concludes(m.calls[ls[n - 1].id], m.sh, sid, m'.sh.heap[sid])
            else m'.sh.heap == m.sh.heap
  {
    hide Step, Concludes, FreeCore, ReturnedOk, PlainOk, EndersKnown, Paired;
    AtStep(ls, n - 1);
    AtFree(ls, n - 1);
    var m := At(ls, n - 1);
    if ls[n - 1].Advance? {
      var c := m.calls[ls[n - 1].id];
      ConcludeStep(c, m.sh, CachesOf(m, c.inst), ls[n - 1].o, sid);
    }
  }

  /**
   A transaction that step k took out of progress is committed from then on if that
   step accepted a commit, and aborted if it accepted an abort or was an endSessions.
   */
  lemma {:induction false} OutcomeExactly(ls: seq<Label>, k: nat, n: nat, i: nat, sid: nat)
    requires Legal(INIT, ls) && i < k < n <= |ls| && LastMove(ls, n, sid) == StartedAt(i)
    requires AcceptsAt(ls, k, sid) || EndsAt(ls, k, sid)
    ensures sid < |At(ls, n).sh.heap|
    ensures At(ls, n).sh.heap[sid].txn ==
            if At(ls, k).calls[ls[k].id].msg.command == Commit then Committed else Aborted
    decreases n
  {
    hide Legal, Exec, Starts, Resets;
    if n == k + 1 {
      ConcludeAt(ls, n, sid);
    } else {
      OutcomeExactly(ls, k, n - 1, i, sid);
      SessionAt(ls, n, sid);
      assert !StartsAt(ls, n - 1, sid) && !ResetsAt(ls, n - 1, sid);
    }
  }

  /**
   The number a session has is that of its transaction, and zero if it has none.
   */
  lemma {:induction false} NumberExactly(ls: seq<Label>, n: nat, sid: nat)
    requires Legal(INIT, ls) && n <= |ls| && sid < |At(ls, n).sh.heap|
    ensures var move := LastMove(ls, n, sid);
            At(ls, n).sh.heap[sid].txnNumber ==
              if move.StartedAt? then At(ls, move.k).calls[ls[move.k].id].msg.details.value.txnNumber else 0
  {
    hide Legal, Exec, Resets, Accepts, EndsInProgress;
    if n == 0 {
      AtEnds(ls);
    } else if sid < |At(ls, n - 1).sh.heap| {
      NumberExactly(ls, n - 1, sid);
      ConcludeAt(ls, n, sid);
    } else {
      NoMoveBefore(ls, n - 1, sid);
      NoMoveNow(ls, n, sid);
      NewNumber(ls, n, sid);
    }
  }

  lemma NewNumber(ls: seq<Label>, n: nat, sid: nat)
    requires Legal(INIT, ls) && 0 < n <= |ls| && |At(ls, n - 1).sh.heap| <= sid < |At(ls, n).sh.heap|
    ensures At(ls, n).sh.heap[sid].txnNumber == 0
  {
    hide Step;
    AtStep(ls, n - 1);
    var m := At(ls, n - 1);
    if ls[n - 1].Advance? {
      var c := m.calls[ls[n - 1].id];
      FreshNumber(c, m.sh, CachesOf(m, c.inst), ls[n - 1].o);
    }
  }

  lemma FreshNumber(c: Call, sh: Shared, ca: Caches, o: Oracle)
    requires Sane(c, sh)
    ensures var r := Step(c, sh, ca, o); forall s :: |sh.heap| <= s < |r.sh.heap| ==> r.sh.heap[s].txnNumber == 0
  {
    hide Base64, BuildKey, SelectServer;
  }

  // -------------------------------------------------------- late unpinnings

  predicate IsEnding(d: Deferred) {
    d.Close? && d.ends
  }

  // The deferred actions of a call: at most one unpinning, with the close of the
  // accepted commit or abort right on top of it, or on top of everything when the
  // call is unwinding and that close has been run.
  predicate Stack(ds: seq<Deferred>, accepted: Option<Conn>, unwinding: bool) {
    && (forall p, q :: 0 <= p < q < |ds| ==> !(ds[p] == Unpin && ds[q] == Unpin))
    && (forall p :: 0 <= p < |ds| - 1 && ds[p] == Unpin ==> IsEnding(ds[p + 1]))
    && (ds != [] && ds[|ds| - 1] == Unpin ==> unwinding)
    && (Unpin in ds ==> accepted.Some?)
    && (forall q :: 0 <= q < |ds| && IsEnding(ds[q]) ==> q > 0 && ds[q - 1] == Unpin && accepted == Some(ds[q].conn))
  }

  predicate Stacked(c: Call) {
    Stack(c.defers, c.accepted, c.pc == Unwind)
  }

  lemma StackAccepts(ds: seq<Deferred>, accepted: Option<Conn>, x: Conn)
    requires Stack(ds, accepted, false) && forall q :: 0 <= q < |ds| ==> !IsEnding(ds[q])
    ensures Stack(ds + [Unpin, Close(x, true)], Some(x), false)
  {
    forall p | 0 <= p < |ds| ensures ds[p] != Unpin {
      assert p < |ds| - 1 ==> !IsEnding(ds[p + 1]);
    }
  }

  lemma StackPushes(ds: seq<Deferred>, accepted: Option<Conn>, x: Conn)
    requires Stack(ds, accepted, false)
    ensures Stack(ds + [Close(x, false)], accepted, false)
  {
    var es := ds + [Close(x, false)];
    forall p | 0 <= p < |es| - 1 && es[p] == Unpin ensures IsEnding(es[p + 1]) {
      assert ds[p] == Unpin;
    }
    forall q | 0 <= q < |es| && IsEnding(es[q]) ensures q > 0 && es[q - 1] == Unpin && accepted == Some(es[q].conn) {
      assert es[q] == ds[q];
    }
  }

  lemma StackPops(ds: seq<Deferred>, accepted: Option<Conn>)
    requires Stack(ds, accepted, true) && ds != []
    ensures Stack(ds[..|ds| - 1], accepted, true)
  {
    var es := ds[..|ds| - 1];
    forall q | 0 <= q < |es| && IsEnding(es[q]) ensures q > 0 && es[q - 1] == Unpin && accepted == Some(es[q].conn) {
      assert es[q] == ds[q];
    }
    forall p | 0 <= p < |es| - 1 && es[p] == Unpin ensures IsEnding(es[p + 1]) {
      assert ds[p] == Unpin;
    }
  }

  // A commit or abort on its way to a reply, or with one, has been accepted.
  predicate Earned(c: Call) {
    c.msg.details.Some? && Settles(c.msg) && (c.pc in {Send, CacheTxn} || c.pc.CacheCursor? || c.ok) ==>
      c.accepted.Some?
  }

  lemma StackedPush(c: Call, sh: Shared, ca: Caches, o: Oracle)
    requires Sane(c, sh) && Stacked(c) && c.pc == Act && (c.sid.Some? && Accepts(c, sh, c.sid.value) ==> !Pending(c))
    ensures Stacked(Step(c, sh, ca, o).c)
  {
    hide DropSession, Stack;
    if c.sid.Some? && Accepts(c, sh, c.sid.value) {
      NoneEnds(c);
      StackAccepts(c.defers, c.accepted, c.conn);
    } else {
      StackPushes(c.defers, c.accepted, c.conn);
      StackUnwinds(c.defers, c.accepted);
    }
  }

  lemma NoneEnds(c: Call)
    requires !Pending(c)
    ensures forall q :: 0 <= q < |c.defers| ==> !IsEnding(c.defers[q])
  {
  }

  lemma StackUnwinds(ds: seq<Deferred>, accepted: Option<Conn>)
    requires Stack(ds, accepted, false)
    ensures Stack(ds, accepted, true)
  {
  }

  lemma StackedPop(c: Call, sh: Shared, ca: Caches, o: Oracle)
    requires Sane(c, sh) && Stacked(c) && c.pc == Unwind
    ensures Stacked(Step(c, sh, ca, o).c)
  {
    if c.defers != [] {
      hide Stack;
      StackPops(c.defers, c.accepted);
    }
  }

  lemma StackedElsewhere(c: Call, sh: Shared, ca: Caches, o: Oracle)
    requires Sane(c, sh) && Stacked(c) && c.pc !in {Act, Unwind}
    ensures Stacked(Step(c, sh, ca, o).c)
  {
    hide Base64, BuildKey, SelectServer, DropSession, Stack;
    StackUnwinds(c.defers, c.accepted);
    var d := Step(c, sh, ca, o).c;
    assert d.defers == c.defers && d.accepted == c.accepted;
  }

  lemma StackedStep(c: Call, sh: Shared, ca: Caches, o: Oracle)
    requires Sane(c, sh) && Stacked(c) && PendingInv(c, sh)
    ensures Stacked(Step(c, sh, ca, o).c)
  {
    hide Stacked, Step, Pending, Sole;
    match c.pc
    case Act =>
      if c.sid.Some? && Accepts(c, sh, c.sid.value) { AcceptsFirst(c, sh); }
      StackedPush(c, sh, ca, o);
    case Unwind => StackedPop(c, sh, ca, o);
    case _ => StackedElsewhere(c, sh, ca, o);
  }

  lemma EarnedStep(c: Call, sh: Shared, ca: Caches, o: Oracle)
    requires Sane(c, sh) && Sound(c, sh) && Earned(c)
    ensures Earned(Step(c, sh, ca, o).c)
  {
    hide Base64, BuildKey, SelectServer, DropSession;
  }

  predicate ShapeAt(ls: seq<Label>, n: nat, id: nat)
    requires Legal(INIT, ls) && n <= |ls|
  {
    var m := At(ls, n);
    (id in m.calls ==> Stacked(m.calls[id]) && Earned(m.calls[id])) && (id in m.finished ==> Earned(m.finished[id]))
  }

  lemma {:induction false} ShapeHolds(ls: seq<Label>, n: nat, id: nat)
    requires Legal(INIT, ls) && n <= |ls|
    ensures ShapeAt(ls, n, id)
  {
    hide Legal, Exec, Step, FreeInv, Sound, PendingInv, Stacked, Earned;
    if n == 0 {
      AtEnds(ls);
    } else {
      ShapeHolds(ls, n - 1, id);
      AtStep(ls, n - 1);
      var m := At(ls, n - 1);
      match ls[n - 1]
      case Advance(j, o) =>
        if j == id {
          FreeParts(ls, n - 1, id);
          StackedStep(m.calls[id], m.sh, CachesOf(m, m.calls[id].inst), o);
          EarnedStep(m.calls[id], m.sh, CachesOf(m, m.calls[id].inst), o);
        }
      case Arrive(inst, msg) => BeginShaped(m.next, inst, msg);
      case _ =>
    }
  }

  lemma BeginShaped(id: nat, inst: nat, msg: Message)
    ensures Stacked(Begin(id, inst, msg)) && Earned(Begin(id, inst, msg))
  {
  }

  // With its unpinning on top, a call has no ending left.
  lemma UnpinIsLast(c: Call, sid: nat)
    requires Stacked(c) && Unpins(c, sid)
    ensures c.accepted.Some? && !Pending(c)
  {
    var ds := c.defers;
    forall q | 0 <= q < |ds| ensures !IsEnding(ds[q]) {
      assert q > 0 ==> ds[q - 1] != Unpin;
    }
  }

  /**
   An unpinning that lets go of the transaction started at step i belongs to a
   commit or abort of an earlier transaction: its own reset came before the start.
   */
  lemma UnpinIsLate(ls: seq<Label>, k: nat, i: nat, sid: nat) returns (j: nat)
    requires Legal(INIT, ls) && k < |ls| && LastMove(ls, k, sid) == StartedAt(i) && UnpinsAt(ls, k, sid)
    ensures j < i && OwnReset(ls, j, ls[k].id) && ResetsAt(ls, j, sid)
  {
    hide Legal, Exec, FreeInv, Pending, Stacked, Sound;
    var id := ls[k].id;
    ShapeHolds(ls, k, id);
    UnpinIsLast(At(ls, k).calls[id], sid);
    EndingHappens(ls, k, id);
    j :| 0 <= j < k && OwnReset(ls, j, id);
    SidStays(ls, j, k, id);
    assert !StartsAt(ls, j, sid);
  }

  // ---------------------------------------------------------- session table

  // The stored session of a key that no request in flight is using.
  predicate Resting(m: Machine, key: string) {
    key in m.sh.table && m.sh.table[key] < |m.sh.heap| && Free(m, m.sh.table[key])
  }

  // The transaction started at step i has not been unpinned by a late commit or abort.
  predicate NeverUnpinned(ls: seq<Label>, i: nat, sid: nat)
    requires Legal(INIT, ls)
  {
    forall k :: i < k < |ls| ==> !UnpinsAt(ls, k, sid)
  }

  lemma RestingState(ls: seq<Label>, key: string)
    requires Legal(INIT, ls) && Resting(Exec(INIT, ls), key)
    ensures var m := Exec(INIT, ls);
            var s := m.sh.heap[m.sh.table[key]];
            s.state == Active && s.txn in {NoTxn, InProgress} && (s.conn.Some? <==> s.server.Some?)
  {
    hide CallOk, Pending, ReturnedOk, PlainOk;
    RunIsFree(ls);
  }

  /**
   A stored session that no request is using is in progress exactly if the last of
   its starts and resets is a start, and then has both pins exactly if no deferred
   unpinning of an earlier commit or abort came after that start. Otherwise it has
   no transaction and no pins.
   */
  lemma RestingExactly(ls: seq<Label>, key: string)
    requires Legal(INIT, ls) && Resting(Exec(INIT, ls), key)
    ensures var m := Exec(INIT, ls);
            var sid := m.sh.table[key];
            var s, move := m.sh.heap[sid], LastMove(ls, |ls|, sid);
            && (s.txn == if move.StartedAt? then InProgress else NoTxn)
            && (s.conn.Some? <==> s.server.Some?)
            && (s.conn.Some? <==> move.StartedAt? && NeverUnpinned(ls, move.k, sid))
  {
    hide Legal, Exec, Unpins, EndsInProgress, Accepts, Starts, Resets;
    AtEnds(ls);
    var m := Exec(INIT, ls);
    var sid := m.sh.table[key];
    RestingState(ls, key);
    MovesDecide(ls, |ls|, sid);
    var move := LastMove(ls, |ls|, sid);
    if move.StartedAt? {
      PinsHeldExactly(ls, |ls|, move.k, sid);
    }
  }
}

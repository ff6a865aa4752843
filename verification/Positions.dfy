/**
 Where in a run things happened: the last step a call made at a program point,
 and the last start or reset of a session.
 */
module Positions {
  import opened Common
  import opened Keys
  import opened Protocol
  import opened Pinning
  import opened Traces
  import opened Runs
  import opened Overlap
  import opened OverlapSteps
  import opened OverlapRuns

  // The state before step k.
  function At(ls: seq<Label>, k: nat): Machine
    requires Legal(INIT, ls) && k <= |ls|
  {
    LegalPrefix(ls, k);
    Exec(INIT, ls[..k])
  }

  lemma {:induction false} LegalPrefix(ls: seq<Label>, k: nat)
    requires Legal(INIT, ls) && k <= |ls|
    ensures Legal(INIT, ls[..k])
    decreases |ls|
  {
    if k == |ls| {
      assert ls[..k] == ls;
    } else {
      LegalPrefix(ls[..|ls| - 1], k);
      assert ls[..|ls| - 1][..k] == ls[..k];
    }
  }

  lemma AtStep(ls: seq<Label>, k: nat)
    requires Legal(INIT, ls) && k < |ls|
    ensures Enabled(At(ls, k), ls[k]) && At(ls, k + 1) == Apply(At(ls, k), ls[k])
  {
    LegalPrefix(ls, k + 1);
    assert ls[..k + 1][..k] == ls[..k];
  }

  lemma AtEnds(ls: seq<Label>)
    requires Legal(INIT, ls)
    ensures At(ls, 0) == INIT && At(ls, |ls|) == Exec(INIT, ls)
  {
    assert ls[..|ls|] == ls && ls[..0] == [];
  }

  lemma AtFree(ls: seq<Label>, k: nat)
    requires Legal(INIT, ls) && k <= |ls|
    ensures FreeInv(At(ls, k))
  {
    LegalPrefix(ls, k);
    RunIsFree(ls[..k]);
  }

  // ----------------------------------------------------- steps of one call

  // Step k is made by call id at program point pc.
  predicate Makes(ls: seq<Label>, k: nat, id: nat, pc: PC)
    requires Legal(INIT, ls) && k < |ls|
  {
    ls[k].Advance? && ls[k].id == id && id in At(ls, k).calls && At(ls, k).calls[id].pc == pc
  }

  // The last such step before step n.
  function Last(ls: seq<Label>, n: nat, id: nat, pc: PC): (r: Option<nat>)
    requires Legal(INIT, ls) && n <= |ls|
    ensures r.Some? ==> r.value < n && Makes(ls, r.value, id, pc)
    ensures forall k :: (if r.Some? then r.value + 1 else 0) <= k < n ==> !Makes(ls, k, id, pc)
  {
    if n == 0 then None
    else if Makes(ls, n - 1, id, pc) then Some(n - 1)
    else Last(ls, n - 1, id, pc)
  }

  // --------------------------------------------------- starts and resets

  datatype Move = NoMove | StartedAt(k: nat) | ResetAt(k: nat)

  predicate StartsAt(ls: seq<Label>, k: nat, sid: nat)
    requires Legal(INIT, ls) && k < |ls|
  {
    ls[k].Advance? && ls[k].id in At(ls, k).calls && Starts(At(ls, k).calls[ls[k].id], At(ls, k).sh, sid)
  }

  predicate ResetsAt(ls: seq<Label>, k: nat, sid: nat)
    requires Legal(INIT, ls) && k < |ls|
  {
    ls[k].Advance? && ls[k].id in At(ls, k).calls && Resets(At(ls, k).calls[ls[k].id], sid)
  }

  // The last start or reset of the session before step n.
  function LastMove(ls: seq<Label>, n: nat, sid: nat): (r: Move)
    requires Legal(INIT, ls) && n <= |ls|
    ensures r.StartedAt? ==> r.k < n && StartsAt(ls, r.k, sid)
    ensures r.ResetAt? ==> r.k < n && ResetsAt(ls, r.k, sid)
    ensures forall j :: (if r.NoMove? then 0 else r.k + 1) <= j < n ==> !StartsAt(ls, j, sid) && !ResetsAt(ls, j, sid)
  {
    if n == 0 then NoMove
    else if StartsAt(ls, n - 1, sid) then StartedAt(n - 1)
    else if ResetsAt(ls, n - 1, sid) then ResetAt(n - 1)
    else LastMove(ls, n - 1, sid)
  }

  // What the last move says of the session: with none or a reset there is no
  // transaction; after a start there is one, and the pins are those of the start
  // or have been let go.
  ghost predicate MoveHolds(ls: seq<Label>, n: nat, sid: nat)
    requires Legal(INIT, ls) && n <= |ls|
  {
    var m := At(ls, n);
    sid < |m.sh.heap| ==>
      var s := m.sh.heap[sid];
      match LastMove(ls, n, sid)
      case StartedAt(i) =>
        && s.txn != NoTxn
        && var a := At(ls, i).calls[ls[i].id];
        && (s.conn.None? || s.conn == Some(a.conn))
        && (s.server.None? || s.server == Some(a.server))
      case _ => s.txn == NoTxn && s.conn.None? && s.server.None?
  }

  lemma SessionAt(ls: seq<Label>, n: nat, sid: nat)
    requires Legal(INIT, ls) && 0 < n <= |ls| && sid < |At(ls, n - 1).sh.heap|
    ensures sid < |At(ls, n).sh.heap|
    ensures var m, m' := At(ls, n - 1), At(ls, n);
            if ls[n - 1].Advance? && ls[n - 1].id in m.calls then
              var c := m.calls[ls[n - 1].id];
              ls[n - 1].id in m'.calls && SessionMoves(c, m.sh, sid, m'.calls[ls[n - 1].id], m'.sh.heap[sid])
            else m'.sh.heap == m.sh.heap
  {
    hide Step, SessionMoves;
    AtStep(ls, n - 1);
    var m := At(ls, n - 1);
    if ls[n - 1].Advance? {
      var c := m.calls[ls[n - 1].id];
      SessionStep(c, m.sh, CachesOf(m, c.inst), ls[n - 1].o, sid);
    }
  }

  // A session that has just been made has not moved.
  lemma NewSessionAt(ls: seq<Label>, n: nat, sid: nat)
    requires Legal(INIT, ls) && 0 < n <= |ls| && |At(ls, n - 1).sh.heap| <= sid < |At(ls, n).sh.heap|
    ensures var s := At(ls, n).sh.heap[sid]; s.txn == NoTxn && s.conn.None? && s.server.None?
  {
    hide Step;
    AtStep(ls, n - 1);
    var m := At(ls, n - 1);
    if ls[n - 1].Advance? {
      var c := m.calls[ls[n - 1].id];
      FreshSession(c, m.sh, CachesOf(m, c.inst), ls[n - 1].o);
    }
  }

  // A call refers to a session that exists.
  lemma SidAt(ls: seq<Label>, n: nat, id: nat)
    requires Legal(INIT, ls) && n <= |ls| && id in At(ls, n).calls
    ensures At(ls, n).calls[id].sid.Some? ==> At(ls, n).calls[id].sid.value < |At(ls, n).sh.heap|
  {
    hide CallOk;
    AtFree(ls, n);
    CallParts(At(ls, n).calls[id], At(ls, n).sh);
  }

  // Only existing sessions move.
  lemma {:induction false} NoMoveBefore(ls: seq<Label>, n: nat, sid: nat)
    requires Legal(INIT, ls) && n <= |ls| && sid >= |At(ls, n).sh.heap|
    ensures LastMove(ls, n, sid).NoMove?
  {
    hide Legal, Exec, StartsAt, ResetsAt;
    if n > 0 {
      HeapGrows(ls, n);
      NoMoveBefore(ls, n - 1, sid);
      NoMoveNow(ls, n, sid);
    }
  }

  lemma HeapGrows(ls: seq<Label>, n: nat)
    requires Legal(INIT, ls) && 0 < n <= |ls|
    ensures |At(ls, n - 1).sh.heap| <= |At(ls, n).sh.heap|
    ensures |At(ls, n - 1).sh.conns| <= |At(ls, n).sh.conns|
  {
    hide Legal, Exec, Step, CallOk;
    AtStep(ls, n - 1);
    AtFree(ls, n - 1);
    var m := At(ls, n - 1);
    if ls[n - 1].Advance? {
      var c := m.calls[ls[n - 1].id];
      CallParts(c, m.sh);
      StepGood(c, m.sh, CachesOf(m, c.inst), ls[n - 1].o);
    }
  }

  lemma {:induction false} MovesDecide(ls: seq<Label>, n: nat, sid: nat)
    requires Legal(INIT, ls) && n <= |ls|
    ensures MoveHolds(ls, n, sid)
  {
    hide Legal, Exec;
    if n == 0 {
      AtEnds(ls);
    } else if sid < |At(ls, n).sh.heap| {
      if sid < |At(ls, n - 1).sh.heap| {
        MovesDecide(ls, n - 1, sid);
        SessionAt(ls, n, sid);
      } else {
        NoMoveBefore(ls, n - 1, sid);
        NewSessionAt(ls, n, sid);
        NoMoveNow(ls, n, sid);
      }
    }
  }

  lemma NoMoveNow(ls: seq<Label>, n: nat, sid: nat)
    requires Legal(INIT, ls) && 0 < n <= |ls| && sid >= |At(ls, n - 1).sh.heap|
    requires LastMove(ls, n - 1, sid).NoMove?
    ensures LastMove(ls, n, sid).NoMove?
  {
    hide Legal, Exec, FreeInv;
    AtStep(ls, n - 1);
    if ls[n - 1].Advance? {
      SidAt(ls, n - 1, ls[n - 1].id);
    }
  }
}

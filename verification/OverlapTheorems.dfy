/**
 What every legal run guarantees, whether or not requests of one logical session
 overlap: sound references, how often a message is written, and how commits and
 aborts end.
 */
module OverlapTheorems {
  import opened Common
  import opened Keys
  import opened Protocol
  import opened Pinning
  import opened PinningSteps
  import opened Traces
  import opened Runs
  import opened Overlap
  import opened OverlapSteps
  import opened OverlapRuns
  import opened Positions

  // ------------------------------------------------------------- references

  // The side condition of Advance rules out nothing a run can reach.
  lemma CallsAreSane(ls: seq<Label>, id: nat)
    requires Legal(INIT, ls) && id in Exec(INIT, ls).calls
    ensures Sane(Exec(INIT, ls).calls[id], Exec(INIT, ls).sh)
  {
    hide CallOk;
    RunIsFree(ls);
    CallParts(Exec(INIT, ls).calls[id], Exec(INIT, ls).sh);
  }

  // Every stored session is active and keyed by the base64 of its own lsid.
  lemma StoredSessions(ls: seq<Label>, key: string)
    requires Legal(INIT, ls) && key in Exec(INIT, ls).sh.table
    ensures var sh := Exec(INIT, ls).sh;
            && sh.table[key] < |sh.heap|
            && var s := sh.heap[sh.table[key]]; s.id == key == Base64(s.lsid) && s.state == Active
  {
    RunIsFree(ls);
  }

  // ---------------------------------------------------------- retry safety

  function CallOf(m: Machine, id: nat): Call
    requires id in m.calls || id in m.finished
  {
    if id in m.calls then m.calls[id] else m.finished[id]
  }

  /**
   One round trip writes its message at most four times, and a commit or abort at
   most once, on every path and under every overlap.
   */
  lemma RetrySafety(ls: seq<Label>, id: nat)
    requires Legal(INIT, ls) && (id in Exec(INIT, ls).calls || id in Exec(INIT, ls).finished)
    ensures var m := Exec(INIT, ls);
            var c := CallOf(m, id);
            && SendCount(m.sh.trace, id) <= 4
            && (c.msg.details.Some? && Settles(c.msg) ==> SendCount(m.sh.trace, id) <= 1)
  {
    hide SendCount, Opened, Pending;
    RunIsFree(ls);
    var m := Exec(INIT, ls);
    if id in m.calls {
      CallParts(m.calls[id], m.sh);
    }
  }

  // The successful starts of a call.
  function StartCount(ls: seq<Label>, n: nat, id: nat): nat
    requires Legal(INIT, ls) && n <= |ls|
  {
    if n == 0 then 0
    else StartCount(ls, n - 1, id) + if StartStep(ls, n - 1, id) then 1 else 0
  }

  // Step k is a start of call id that succeeds.
  predicate StartStep(ls: seq<Label>, k: nat, id: nat)
    requires Legal(INIT, ls) && k < |ls|
  {
    Makes(ls, k, id, Start) && At(ls, k).calls[id].sid.Some? && StartsAt(ls, k, At(ls, k).calls[id].sid.value)
  }

  predicate IsStart(m: Message) {
    m.details.Some? && m.details.value.isStart
  }

  // Each write of a start takes a start of its own before it.
  predicate StartWrites(ls: seq<Label>, n: nat, id: nat)
    requires Legal(INIT, ls) && n <= |ls|
  {
    var m := At(ls, n);
    && (id in m.calls && IsStart(m.calls[id].msg) ==>
          m.calls[id].sends + (if m.calls[id].pc in {Act, Send} then 1 else 0) <= StartCount(ls, n, id))
    && (id in m.finished && IsStart(m.finished[id].msg) ==> m.finished[id].sends <= StartCount(ls, n, id))
  }

  lemma StartShape(c: Call, sh: Shared, ca: Caches, o: Oracle)
    requires Sane(c, sh) && Sound(c, sh) && IsStart(c.msg)
    ensures var d := Step(c, sh, ca, o).c;
            && (d.pc in {Act, Send} ==> c.pc in {Start, Act})
            && (d.pc == Act ==> c.pc == Start && c.sid.Some? && Starts(c, sh, c.sid.value))
            && (d.pc == Send ==> c.pc == Act)
            && (c.pc != Send ==> d.sends == c.sends)
            && d.sends <= c.sends + 1
  {
    hide Base64, BuildKey, SelectServer, DropSession;
  }

  lemma {:induction false} StartsCover(ls: seq<Label>, n: nat, id: nat)
    requires Legal(INIT, ls) && n <= |ls|
    ensures StartWrites(ls, n, id)
  {
    hide Step, FreeInv, CallOk;
    if n == 0 {
      AtEnds(ls);
    } else {
      StartsCover(ls, n - 1, id);
      AtStep(ls, n - 1);
      var m := At(ls, n - 1);
      if ls[n - 1].Advance? && ls[n - 1].id == id {
        FreeParts(ls, n - 1, id);
        var c := m.calls[id];
        SameCall(c, m.sh, CachesOf(m, c.inst), ls[n - 1].o);
        if IsStart(c.msg) {
          StartShape(c, m.sh, CachesOf(m, c.inst), ls[n - 1].o);
        }
      }
    }
  }

  lemma FreeParts(ls: seq<Label>, n: nat, id: nat)
    requires Legal(INIT, ls) && n <= |ls| && id in At(ls, n).calls
    ensures var c, sh := At(ls, n).calls[id], At(ls, n).sh;
            Sound(c, sh) && Sane(c, sh) && PendingInv(c, sh) && c.id == id
  {
    hide CallOk;
    AtFree(ls, n);
    CallParts(At(ls, n).calls[id], At(ls, n).sh);
  }

  // A start is written at most as often as it succeeds.
  lemma StartsBoundWrites(ls: seq<Label>, id: nat)
    requires Legal(INIT, ls) && (id in Exec(INIT, ls).calls || id in Exec(INIT, ls).finished)
    requires IsStart(CallOf(Exec(INIT, ls), id).msg)
    ensures SendCount(Exec(INIT, ls).sh.trace, id) <= StartCount(ls, |ls|, id)
  {
    hide FreeInv, SendCount, StartCount;
    AtEnds(ls);
    StartsCover(ls, |ls|, id);
    SendsCounted(ls, id);
  }

  lemma SendsCounted(ls: seq<Label>, id: nat)
    requires Legal(INIT, ls)
    ensures var m := Exec(INIT, ls);
            && (id in m.calls ==> SendCount(m.sh.trace, id) == m.calls[id].sends)
            && (id in m.finished ==> SendCount(m.sh.trace, id) == m.finished[id].sends)
  {
    hide SendCount, CallOk, Opened;
    RunIsFree(ls);
  }

  /**
   When a start is tried again it succeeds exactly if its session is still active
   and the last thing that happened to the session's transactions, after its own
   start, is the end of a commit or abort. So between two successes, and between
   two writes, a commit or abort of the session has completed.
   */
  lemma StartsAgainExactly(ls: seq<Label>, id: nat, i: nat)
    requires Legal(INIT, ls) && id in Exec(INIT, ls).calls && Exec(INIT, ls).calls[id].pc == Start
    requires i < |ls| && StartStep(ls, i, id)
    ensures var m := Exec(INIT, ls);
            var c := m.calls[id];
            && c.sid.Some? && c.sid == At(ls, i).calls[id].sid && c.sid.value < |m.sh.heap|
            && (Starts(c, m.sh, c.sid.value) <==>
                  && m.sh.heap[c.sid.value].state == Active
                  && LastMove(ls, |ls|, c.sid.value).ResetAt?
                  && LastMove(ls, |ls|, c.sid.value).k > i)
  {
    hide FreeInv, Sound, Legal, Exec;
    AtEnds(ls);
    var m := Exec(INIT, ls);
    StartIsOf(ls, i, id);
    SidStays(ls, i, |ls|, id);
    FreeParts(ls, |ls|, id);
    var sid := m.calls[id].sid.value;
    SoundSid(m.calls[id], m.sh);
    MovesDecide(ls, |ls|, sid);
    StartNeeds(m.calls[id], m.sh, sid);
    assert StartsAt(ls, i, sid);
  }

  lemma SoundSid(c: Call, sh: Shared)
    requires Sound(c, sh)
    ensures c.sid.Some? ==> c.sid.value < |sh.heap| && c.msg.details.Some?
  {
  }

  lemma StartNeeds(c: Call, sh: Shared, sid: nat)
    requires c.sid == Some(sid) && Sound(c, sh) && c.msg.details.Some? && sid < |sh.heap|
    ensures Starts(c, sh, sid) <==>
              c.pc == Start && c.msg.details.value.isStart && sh.heap[sid].state == Active && sh.heap[sid].txn == NoTxn
  {
  }

  lemma StartIsOf(ls: seq<Label>, i: nat, id: nat)
    requires Legal(INIT, ls) && i < |ls| && StartStep(ls, i, id)
    ensures IsStart(At(ls, i).calls[id].msg)
  {
  }

  // A call in flight keeps its message and, once bound, its session.
  lemma {:induction false} SidStays(ls: seq<Label>, i: nat, n: nat, id: nat)
    requires Legal(INIT, ls) && i <= n <= |ls| && id in At(ls, i).calls && id in At(ls, n).calls
    ensures At(ls, n).calls[id].msg == At(ls, i).calls[id].msg && At(ls, n).calls[id].inst == At(ls, i).calls[id].inst
    ensures At(ls, i).calls[id].sid.Some? ==> At(ls, n).calls[id].sid == At(ls, i).calls[id].sid
    decreases n
  {
    hide Legal, Exec, Step, FreeInv, Sound;
    if i < n {
      InFlight(ls, i, n, id);
      SidStays(ls, i, n - 1, id);
      AtStep(ls, n - 1);
      NextGrows(ls, n - 1, n - 1, id);
      var m := At(ls, n - 1);
      if ls[n - 1].Advance? && ls[n - 1].id == id {
        FreeParts(ls, n - 1, id);
        var c := m.calls[id];
        SameCall(c, m.sh, CachesOf(m, c.inst), ls[n - 1].o);
        if c.sid.Some? { BoundSid(c, m.sh, CachesOf(m, c.inst), ls[n - 1].o); }
      }
    }
  }

  // A call in flight then and now is in flight in between.
  lemma {:induction false} InFlight(ls: seq<Label>, i: nat, n: nat, id: nat)
    requires Legal(INIT, ls) && i < n <= |ls| && id in At(ls, i).calls && id in At(ls, n).calls
    ensures id in At(ls, n - 1).calls
    decreases n
  {
    hide Step;
    AtStep(ls, n - 1);
    if id !in At(ls, n - 1).calls {
      NextGrows(ls, i, n - 1, id);
    }
  }

  lemma {:induction false} NextGrows(ls: seq<Label>, i: nat, n: nat, id: nat)
    requires Legal(INIT, ls) && i <= n <= |ls| && id in At(ls, i).calls
    ensures id < At(ls, n).next
    decreases n
  {
    hide Step, CallOk;
    if i == n {
      AtFree(ls, n);
    } else {
      NextGrows(ls, i, n - 1, id);
      AtStep(ls, n - 1);
    }
  }

  // ------------------------------------------------------- plain requests

  /**
   A request outside any session closes each connection it checked out, over all
   its attempts, exactly once before it returns, and there were at most four.
   */
  lemma PlainRequestClosesAll(ls: seq<Label>, id: nat, x: Conn)
    requires Legal(INIT, ls) && id in Exec(INIT, ls).calls
    requires Exec(INIT, ls).calls[id].pc == Done && Exec(INIT, ls).calls[id].msg.details.None?
    requires x < |Exec(INIT, ls).sh.conns| && Exec(INIT, ls).sh.conns[x].call == id
    ensures Exec(INIT, ls).sh.conns[x].closes == 1
    ensures Opened(Exec(INIT, ls).sh.conns, id) <= 4
  {
    hide CallOk, LocalInv;
    RunIsFree(ls);
    var m := Exec(INIT, ls);
    var c := m.calls[id];
    assert OpenedPlain(m, x);
    CallParts(c, m.sh);
    PlainPc(c, m.sh);
    DoneIsIdle(c, m.sh);
  }

  // ------------------------------------------------------ commit and abort

  // Step k is the call's own reset of its session.
  predicate OwnReset(ls: seq<Label>, k: nat, id: nat)
    requires Legal(INIT, ls) && k < |ls|
  {
    Makes(ls, k, id, Unwind) && At(ls, k).calls[id].sid.Some? && ResetsAt(ls, k, At(ls, k).calls[id].sid.value)
  }

  // An accepted commit or abort has its ending pending, or has been through it.
  predicate EndsOrEnded(ls: seq<Label>, n: nat, id: nat)
    requires Legal(INIT, ls) && n <= |ls|
  {
    id in At(ls, n).calls && At(ls, n).calls[id].accepted.Some? && !Pending(At(ls, n).calls[id]) ==>
      exists k :: 0 <= k < n && OwnReset(ls, k, id)
  }

  lemma AcceptShape(c: Call, sh: Shared, ca: Caches, o: Oracle)
    requires Sane(c, sh)
    ensures Step(c, sh, ca, o).c.accepted != c.accepted ==> c.sid.Some? && Accepts(c, sh, c.sid.value)
  {
    hide Base64, BuildKey, SelectServer, DropSession;
  }

  lemma {:induction false} EndingHappens(ls: seq<Label>, n: nat, id: nat)
    requires Legal(INIT, ls) && n <= |ls|
    ensures EndsOrEnded(ls, n, id)
  {
    hide Legal, Exec, Step, FreeInv, Sound, Pending, Accepts;
    if n == 0 {
      AtEnds(ls);
    } else {
      EndingHappens(ls, n - 1, id);
      AtStep(ls, n - 1);
      var m := At(ls, n - 1);
      if ls[n - 1].Advance? && ls[n - 1].id == id {
        FreeParts(ls, n - 1, id);
        var c := m.calls[id];
        AcceptShape(c, m.sh, CachesOf(m, c.inst), ls[n - 1].o);
        PendingStep(c, m.sh, CachesOf(m, c.inst), ls[n - 1].o);
        if c.sid.Some? && Resets(c, c.sid.value) {
          assert OwnReset(ls, n - 1, id);
        }
      }
    }
  }

  /**
   Once a commit or abort has been accepted and its call is done, however it went
   and whatever overlapped with it, the call has closed its connection and has
   reset its session: after that step the session had no transaction and no pins.
   */
  lemma AcceptedCommitCompletes(ls: seq<Label>, id: nat) returns (k: nat)
    requires Legal(INIT, ls) && id in Exec(INIT, ls).calls
    requires Exec(INIT, ls).calls[id].pc == Done && Exec(INIT, ls).calls[id].accepted.Some?
    ensures k < |ls| && OwnReset(ls, k, id)
    ensures var sid := At(ls, k).calls[id].sid.value;
            && Exec(INIT, ls).calls[id].sid == Some(sid) && sid < |At(ls, k + 1).sh.heap|
            && var s := At(ls, k + 1).sh.heap[sid]; s.txn == NoTxn && s.conn.None? && s.server.None?
    ensures var m := Exec(INIT, ls);
            var x := m.calls[id].accepted.value;
            x < |m.sh.conns| && m.sh.conns[x].closes >= 1
  {
    hide Legal, Exec, Step, Sound, Pending, CallOk;
    AtEnds(ls);
    RunIsFree(ls);
    var m := Exec(INIT, ls);
    DoneNotPending(m.calls[id], m.sh);
    DoneCloses(m.calls[id], m.sh);
    EndingHappens(ls, |ls|, id);
    k :| 0 <= k < |ls| && OwnReset(ls, k, id);
    FreeParts(ls, k, id);
    var sid := At(ls, k).calls[id].sid.value;
    SoundSid(At(ls, k).calls[id], At(ls, k).sh);
    SidStays(ls, k, |ls|, id);
    SessionAt(ls, k + 1, sid);
  }

  lemma DoneCloses(c: Call, sh: Shared)
    requires CallOk(c, sh) && c.pc == Done
    ensures c.accepted.Some? ==> c.accepted.value < |sh.conns| && sh.conns[c.accepted.value].closes >= 1
  {
  }
}

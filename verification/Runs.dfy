/**
 Runs of the proxy: any number of round trips through any number of Mongo
 instances that share one session manager, interleaved step by step, with
 session cleanup and cache expiry at any moment.

 A legal run may interleave requests as it likes. In an orderly run clients keep
 to one request at a time per logical session, as MongoDB drivers do: a request
 arrives only when no other of its session is in flight. The invariant here is
 that of orderly runs; Overlap has what holds of all legal ones.
 */
module Runs {
  import opened Common
  import opened Keys
  import opened Protocol
  import opened Pinning
  import opened PinningSteps
  import opened Traces
  import Lru

  const MAX_CURSORS: nat := 1024 * 1024
  const CURSOR_EXPIRY: nat := 86_400_000_000_000
  const MAX_TRANSACTIONS: nat := 1024 * 1024
  const TRANSACTION_EXPIRY: nat := 120_000_000_000

  function NewCaches(): Caches {
    Caches(Lru.New(MAX_CURSORS, CURSOR_EXPIRY), Lru.New(MAX_TRANSACTIONS, TRANSACTION_EXPIRY))
  }

  // calls are in flight; finished have returned to the client.
  datatype Machine = Machine(
    sh: Shared,
    caches: map<nat, Caches>,
    calls: map<nat, Call>,
    finished: map<nat, Call>,
    next: nat)

  const INIT: Machine := Machine(Shared([], map[], [], []), map[], map[], map[], 0)

  datatype Label =
    | Arrive(inst: nat, msg: Message)
    | Advance(id: nat, o: Oracle)
    | Answer(id: nat)
    | Clean(key: string)
    | Sweep(inst: nat, now: int)

  function CachesOf(m: Machine, inst: nat): Caches {
    if inst in m.caches then m.caches[inst] else NewCaches()
  }

  predicate LsidFree(m: Machine, lsid: seq<byte>) {
    forall id :: id in m.calls && m.calls[id].msg.details.Some? ==> m.calls[id].msg.details.value.lsid != lsid
  }

  // Sane excludes nothing: CallsAreSane proves it of every reachable state.
  predicate Enabled(m: Machine, l: Label) {
    match l
    case Arrive(_, _) => true
    case Advance(id, _) => id in m.calls && m.calls[id].pc != Done && Sane(m.calls[id], m.sh)
    case Answer(id) => id in m.calls && m.calls[id].pc == Done
    case Clean(key) => key in m.sh.table
    case Sweep(_, _) => true
  }

  // Clients send one request at a time per logical session.
  predicate Polite(m: Machine, l: Label) {
    l.Arrive? && l.msg.details.Some? ==> LsidFree(m, l.msg.details.value.lsid)
  }

  function Apply(m: Machine, l: Label): Machine
    requires Enabled(m, l)
  {
    match l
    case Arrive(inst, msg) => m.(calls := m.calls[m.next := Begin(m.next, inst, msg)], next := m.next + 1)
    case Advance(id, o) =>
      var c := m.calls[id];
      var r := Step(c, m.sh, CachesOf(m, c.inst), o);
      m.(sh := r.sh, caches := m.caches[c.inst := r.ca], calls := m.calls[id := r.c])
    case Answer(id) => m.(calls := m.calls - {id}, finished := m.finished[id := m.calls[id]])
    case Clean(key) => m.(sh := Log(m.sh.(table := m.sh.table - {key}), Dropped(key)))
    case Sweep(inst, now) =>
      var ca := CachesOf(m, inst);
      m.(caches := m.caches[inst := Caches(Lru.Expire(ca.cursors, now), Lru.Expire(ca.txns, now))])
  }

  predicate Legal(m: Machine, ls: seq<Label>)
    decreases |ls|, 0
  {
    ls == [] || (Legal(m, ls[..|ls| - 1]) && Enabled(Exec(m, ls[..|ls| - 1]), ls[|ls| - 1]))
  }

  function Exec(m: Machine, ls: seq<Label>): Machine
    requires Legal(m, ls)
    decreases |ls|, 1
  {
    if ls == [] then m else Apply(Exec(m, ls[..|ls| - 1]), ls[|ls| - 1])
  }

  predicate Orderly(m: Machine, ls: seq<Label>) {
    && Legal(m, ls)
    && (ls == [] || (Orderly(m, ls[..|ls| - 1]) && Polite(Exec(m, ls[..|ls| - 1]), ls[|ls| - 1])))
  }

  // -------------------------------------------------------------- invariant

  predicate CallsInv(m: Machine) {
    forall id :: id in m.calls ==>
      && id < m.next && m.calls[id].id == id
      && LocalInv(m.calls[id], m.sh)
      && (m.calls[id].pc == Create ==> MustCreate(m.calls[id], m.sh))
      && SendCount(m.sh.trace, id) == m.calls[id].sends
      && BoundOf(m.sh.trace, id) == BindingOf(m.calls[id])
  }

  predicate MustCreate(c: Call, sh: Shared) {
    c.msg.details.Some? && Base64(c.msg.details.value.lsid) !in sh.table
  }

  predicate Disciplined(m: Machine) {
    forall i, j ::
      (i in m.calls && j in m.calls && i != j && m.calls[i].msg.details.Some? && m.calls[j].msg.details.Some?) ==>
        m.calls[i].msg.details.value.lsid != m.calls[j].msg.details.value.lsid
  }

  predicate Free(m: Machine, sid: nat) {
    forall id :: id in m.calls ==> m.calls[id].sid != Some(sid)
  }

  predicate SessionsInv(m: Machine) {
    && HeapInv(m.sh)
    && TableInv(m.sh)
    && (forall sid :: 0 <= sid < |m.sh.heap| && Free(m, sid) ==> IdleInv(m.sh, sid))
  }

  predicate ConnectionsInv(m: Machine) {
    forall x :: 0 <= x < |m.sh.conns| ==>
      var r := m.sh.conns[x];
      && r.call < m.next
      && (r.sid.Some? ==> r.sid.value < |m.sh.heap|)
      && (r.sid.None? ==> if r.call in m.calls then m.calls[r.call].msg.details.None? else Status(r, false))
  }

  predicate StartedBefore(tr: seq<Event>, sid: nat, x: Conn) {
    exists i :: 0 <= i < |tr| && tr[i].Started? && tr[i].sid == sid && tr[i].conn == x
  }

  // What stays true of a call for ever after its answer.
  predicate FinishedCall(c: Call, sh: Shared) {
    && c.sends == SendCount(sh.trace, c.id) <= MAX_RETRIES + 1
    && (Special(c.msg) ==> c.sends <= 1)
    && Opened(sh.conns, c.id) <= MAX_RETRIES + 1
    && (c.accepted.Some? ==> c.accepted.value < |sh.conns| && sh.conns[c.accepted.value].closes >= 1)
    && (c.msg.details.Some? && c.msg.command in {Commit, Abort} && c.ok ==> c.accepted.Some?)
  }

  ghost predicate FinishedInv(m: Machine) {
    && (forall id :: id in m.finished ==>
          && id < m.next && id !in m.calls && m.finished[id].id == id && FinishedCall(m.finished[id], m.sh))
    && (forall id :: id >= m.next ==> SendCount(m.sh.trace, id) == 0 && BoundOf(m.sh.trace, id).None?)
  }

  predicate Core(m: Machine) {
    CallsInv(m) && Disciplined(m) && SessionsInv(m) && ConnectionsInv(m)
  }

  ghost predicate Inv(m: Machine) {
    && Core(m)
    && FinishedInv(m)
    && TraceInv(m.sh)
  }

  // ------------------------------------------------------ one call advances

  lemma PutKeepsTables(sh: Shared, sid: nat, s: Session)
    requires TableInv(sh) && HeapInv(sh) && sid < |sh.heap|
    requires s.id == sh.heap[sid].id && s.lsid == sh.heap[sid].lsid && s.state == sh.heap[sid].state
    ensures TableInv(Put(sh, sid, s)) && HeapInv(Put(sh, sid, s))
  {
  }

  lemma DropKeepsTables(sh: Shared, sid: nat, now: int)
    requires TableInv(sh) && HeapInv(sh) && sid < |sh.heap|
    ensures TableInv(DropSession(sh, sid, now)) && HeapInv(DropSession(sh, sid, now))
  {
    var r := DropSession(sh, sid, now);
    if r != sh {
      assert r.table == sh.table - {sh.heap[sid].id};
      forall k | k in r.table ensures r.table[k] < |r.heap| && r.heap[r.table[k]] == sh.heap[sh.table[k]] {
        assert sh.table[k] != sid;
      }
    }
  }

  // Apart from creating and ending a session, a step leaves the table alone and
  // changes at most the session of its own call.
  lemma PlainStep(c: Call, sh: Shared, ca: Caches, o: Oracle)
    requires Sane(c, sh) && c.pc != Create && (c.pc == Act && c.sid.Some? ==> c.msg.command != EndSessions)
    ensures var r := Step(c, sh, ca, o);
            && r.sh.table == sh.table
            && (|| r.sh.heap == sh.heap
                || (&& r.c.sid.Some? && r.c.sid.value < |sh.heap|
                    && var sid := r.c.sid.value;
                    && r.sh.heap == sh.heap[sid := r.sh.heap[sid]]
                    && r.sh.heap[sid].id == sh.heap[sid].id && r.sh.heap[sid].lsid == sh.heap[sid].lsid
                    && r.sh.heap[sid].state == sh.heap[sid].state))
  {
  }

  lemma TablesKept(c: Call, sh: Shared, ca: Caches, o: Oracle)
    requires Sane(c, sh) && TableInv(sh) && HeapInv(sh)
    ensures TableInv(Step(c, sh, ca, o).sh) && HeapInv(Step(c, sh, ca, o).sh)
  {
    var r := Step(c, sh, ca, o);
    if c.pc == Create {
    } else if c.pc == Act && c.sid.Some? && c.msg.command == EndSessions {
      DropKeepsTables(sh, c.sid.value, o.now);
    } else {
      PlainStep(c, sh, ca, o);
      if r.sh.heap != sh.heap {
        PutKeepsTables(sh, r.c.sid.value, r.sh.heap[r.c.sid.value]);
      }
    }
  }

  // A stored session found by a lookup is one nobody else is using.
  lemma LookupFindsFree(m: Machine, id: nat)
    requires CallsInv(m) && Disciplined(m) && SessionsInv(m)
    requires id in m.calls && m.calls[id].pc == Lookup && m.calls[id].msg.details.Some?
    requires Base64(m.calls[id].msg.details.value.lsid) in m.sh.table
    ensures Free(m, m.sh.table[Base64(m.calls[id].msg.details.value.lsid)])
  {
    var lsid := m.calls[id].msg.details.value.lsid;
    var sid := m.sh.table[Base64(lsid)];
    Base64Injective(m.sh.heap[sid].lsid, lsid);
    forall j | j in m.calls ensures m.calls[j].sid != Some(sid) {
      assert LocalInv(m.calls[j], m.sh) && LocalInv(m.calls[id], m.sh);
    }
  }

  lemma AdvanceLocally(m: Machine, id: nat, o: Oracle)
    requires Core(m) && Enabled(m, Advance(id, o))
    ensures var c := m.calls[id];
            var r := Step(c, m.sh, CachesOf(m, c.inst), o);
            && LocalInv(r.c, r.sh) && Frame(r.c, m.sh, r.sh)
            && (r.c.sid.Some? && r.c.sid != c.sid ==> Free(m, r.c.sid.value))
            && (c.sid.Some? ==> r.c.sid == c.sid)
            && (r.c.pc == Create ==> MustCreate(r.c, r.sh))
  {
    hide Base64;
    var c := m.calls[id];
    var ca := CachesOf(m, c.inst);
    if c.pc == Lookup {
      if c.msg.details.Some? && Base64(c.msg.details.value.lsid) in m.sh.table {
        LookupFindsFree(m, id);
        LookupKeeps(c, m.sh, ca, o);
      } else {
        PassLookupKeeps(c, m.sh, if c.msg.details.None? then Select else Create);
      }
    } else if c.pc == Create {
      CreateKeeps(c, m.sh, ca, o);
      assert Free(m, |m.sh.heap|) by {
        forall j | j in m.calls ensures m.calls[j].sid != Some(|m.sh.heap|) {
          assert LocalInv(m.calls[j], m.sh);
        }
      }
    } else {
      StepKeeps(c, m.sh, ca, o);
      SidKept(c, m.sh, ca, o);
    }
  }

  lemma OthersKept(m: Machine, id: nat, o: Oracle, j: nat)
    requires Core(m) && Enabled(m, Advance(id, o)) && j in m.calls && j != id
    ensures LocalInv(m.calls[j], Apply(m, Advance(id, o)).sh)
    ensures SendCount(Apply(m, Advance(id, o)).sh.trace, j) == m.calls[j].sends
    ensures BoundOf(Apply(m, Advance(id, o)).sh.trace, j) == BindingOf(m.calls[j])
    ensures m.calls[j].pc == Create ==> MustCreate(m.calls[j], Apply(m, Advance(id, o)).sh)
  {
    hide Base64;
    var c, d := m.calls[id], m.calls[j];
    var r := Step(c, m.sh, CachesOf(m, c.inst), o);
    AdvanceLocally(m, id, o);
    TablesKept(c, m.sh, CachesOf(m, c.inst), o);
    SameCall(c, m.sh, CachesOf(m, c.inst), o);
    StepSends(c, m.sh, CachesOf(m, c.inst), o);
    assert LocalInv(c, m.sh) && LocalInv(d, m.sh);
    assert d.sid.Some? ==> d.sid != r.c.sid;
    FrameKeepsOther(d, r.c, m.sh, r.sh);
    if d.pc == Create {
      NewKeys(c, m.sh, CachesOf(m, c.inst), o);
      if c.msg.details.Some? && Base64(c.msg.details.value.lsid) == Base64(d.msg.details.value.lsid) {
        Base64Injective(c.msg.details.value.lsid, d.msg.details.value.lsid);
      }
    }
  }

  // The only key a step can add is that of its own message.
  lemma NewKeys(c: Call, sh: Shared, ca: Caches, o: Oracle)
    requires Sane(c, sh)
    ensures forall k :: k in Step(c, sh, ca, o).sh.table && k !in sh.table ==>
              c.msg.details.Some? && k == Base64(c.msg.details.value.lsid)
  {
    if c.pc != Create && (c.pc == Act && c.sid.Some? ==> c.msg.command != EndSessions) {
      PlainStep(c, sh, ca, o);
    }
  }

  lemma SelfKept(m: Machine, id: nat, o: Oracle)
    requires Core(m) && Enabled(m, Advance(id, o))
    ensures var m' := Apply(m, Advance(id, o));
            var c' := m'.calls[id];
            && c'.id == id && LocalInv(c', m'.sh) && (c'.pc == Create ==> MustCreate(c', m'.sh))
            && SendCount(m'.sh.trace, id) == c'.sends && BoundOf(m'.sh.trace, id) == BindingOf(c')
            && c'.msg == m.calls[id].msg
  {
    var c := m.calls[id];
    AdvanceLocally(m, id, o);
    SameCall(c, m.sh, CachesOf(m, c.inst), o);
    StepSends(c, m.sh, CachesOf(m, c.inst), o);
    StepBinds(c, m.sh, CachesOf(m, c.inst), o);
  }

  lemma AdvanceKeepsCalls(m: Machine, id: nat, o: Oracle)
    requires Core(m) && Enabled(m, Advance(id, o))
    ensures CallsInv(Apply(m, Advance(id, o))) && Disciplined(Apply(m, Advance(id, o)))
  {
    hide LocalInv, Step, MustCreate, BindingOf, SendCount, BoundOf;
    SelfKept(m, id, o);
    forall j | j in m.calls && j != id
      ensures LocalInv(m.calls[j], Apply(m, Advance(id, o)).sh)
      ensures SendCount(Apply(m, Advance(id, o)).sh.trace, j) == m.calls[j].sends
      ensures BoundOf(Apply(m, Advance(id, o)).sh.trace, j) == BindingOf(m.calls[j])
      ensures m.calls[j].pc == Create ==> MustCreate(m.calls[j], Apply(m, Advance(id, o)).sh)
    {
      OthersKept(m, id, o, j);
    }
  }

  lemma FreeBefore(m: Machine, id: nat, o: Oracle, sid: nat)
    requires Enabled(m, Advance(id, o))
    requires sid < |Apply(m, Advance(id, o)).sh.heap| && Free(Apply(m, Advance(id, o)), sid)
    requires m.calls[id].sid.Some? ==> Apply(m, Advance(id, o)).calls[id].sid == m.calls[id].sid
    ensures sid < |m.sh.heap| && Free(m, sid) && Apply(m, Advance(id, o)).calls[id].sid != Some(sid)
  {
    var m' := Apply(m, Advance(id, o));
    HeapGrowth(m.calls[id], m.sh, CachesOf(m, m.calls[id].inst), o);
    assert m'.calls[id].sid != Some(sid);
    forall j | j in m.calls ensures m.calls[j].sid != Some(sid) {
      assert j in m'.calls && (j != id ==> m'.calls[j] == m.calls[j]);
    }
  }

  lemma AdvanceKeepsIdle(m: Machine, id: nat, o: Oracle, sid: nat)
    requires Core(m) && Enabled(m, Advance(id, o))
    requires sid < |Apply(m, Advance(id, o)).sh.heap| && Free(Apply(m, Advance(id, o)), sid)
    ensures IdleInv(Apply(m, Advance(id, o)).sh, sid)
  {
    AdvanceLocally(m, id, o);
    FreeBefore(m, id, o, sid);
    FrameKeepsIdle(sid, Apply(m, Advance(id, o)).calls[id], m.sh, Apply(m, Advance(id, o)).sh);
  }

  lemma AdvanceKeepsSessions(m: Machine, id: nat, o: Oracle)
    requires Core(m) && Enabled(m, Advance(id, o))
    ensures SessionsInv(Apply(m, Advance(id, o)))
  {
    var m' := Apply(m, Advance(id, o));
    TablesKept(m.calls[id], m.sh, CachesOf(m, m.calls[id].inst), o);
    forall sid | 0 <= sid < |m'.sh.heap| && Free(m', sid) ensures IdleInv(m'.sh, sid) {
      AdvanceKeepsIdle(m, id, o, sid);
    }
  }

  lemma HeapGrowth(c: Call, sh: Shared, ca: Caches, o: Oracle)
    requires Sane(c, sh)
    ensures var r := Step(c, sh, ca, o);
            |r.sh.heap| == |sh.heap| || (|r.sh.heap| == |sh.heap| + 1 && r.c.sid == Some(|sh.heap|))
  {
  }

  lemma NewConn(c: Call, sh: Shared, ca: Caches, o: Oracle)
    requires Sane(c, sh)
    ensures var r := Step(c, sh, ca, o); |r.sh.conns| > |sh.conns| ==> r.c.pc == Start
  {
    hide Base64, BuildKey, SelectServer;
  }

  lemma LocalSid(c: Call, sh: Shared)
    requires LocalInv(c, sh)
    ensures c.sid.Some? ==> c.sid.value < |sh.heap|
    ensures c.pc !in {Lookup, Create} ==> (c.sid.Some? <==> c.msg.details.Some?)
  {
  }

  lemma AdvanceKeepsConnections(m: Machine, id: nat, o: Oracle)
    requires Core(m) && Enabled(m, Advance(id, o))
    ensures ConnectionsInv(Apply(m, Advance(id, o)))
  {
    hide LocalInv, Step;
    var m' := Apply(m, Advance(id, o));
    var c := m.calls[id];
    AdvanceLocally(m, id, o);
    NewConn(c, m.sh, CachesOf(m, c.inst), o);
    LocalSid(m'.calls[id], m'.sh);
    SameCall(c, m.sh, CachesOf(m, c.inst), o);
    forall x | 0 <= x < |m'.sh.conns|
      ensures m'.sh.conns[x].call < m'.next
      ensures m'.sh.conns[x].sid.Some? ==> m'.sh.conns[x].sid.value < |m'.sh.heap|
      ensures m'.sh.conns[x].sid.None? ==>
                if m'.sh.conns[x].call in m'.calls then m'.calls[m'.sh.conns[x].call].msg.details.None?
                else Status(m'.sh.conns[x], false)
    {
      if x < |m.sh.conns| {
        assert m'.sh.conns[x].sid.None? && m'.sh.conns[x].call !in m'.calls ==>
            !Owned(m'.calls[id].sid, id, m.sh.conns[x]);
      }
    }
  }

  lemma AdvanceKeepsFinished(m: Machine, id: nat, o: Oracle)
    requires Core(m) && FinishedInv(m) && Enabled(m, Advance(id, o))
    ensures FinishedInv(Apply(m, Advance(id, o)))
  {
    hide LocalInv, SendCount, BoundOf, Step;
    var m' := Apply(m, Advance(id, o));
    var c := m.calls[id];
    AdvanceLocally(m, id, o);
    SameCall(c, m.sh, CachesOf(m, c.inst), o);
    StepSends(c, m.sh, CachesOf(m, c.inst), o);
    forall j | j in m'.finished ensures FinishedCall(m'.finished[j], m'.sh) {
      OpenedByOthers(m.sh.conns, m'.sh.conns, j);
    }
  }

  lemma AdvanceKeepsInv(m: Machine, id: nat, o: Oracle)
    requires Inv(m) && Enabled(m, Advance(id, o))
    ensures Inv(Apply(m, Advance(id, o)))
  {
    AdvanceKeepsCalls(m, id, o);
    AdvanceKeepsSessions(m, id, o);
    AdvanceKeepsConnections(m, id, o);
    AdvanceKeepsFinished(m, id, o);
    StepTrace(m.calls[id], m.sh, CachesOf(m, m.calls[id].inst), o);
  }

  // --------------------------------------------------------- the other labels

  lemma ArriveKeepsSessions(m: Machine, inst: nat, msg: Message)
    requires CallsInv(m) && SessionsInv(m)
    ensures SessionsInv(Apply(m, Arrive(inst, msg)))
  {
    hide LocalInv, IdleInv;
    var m' := Apply(m, Arrive(inst, msg));
    forall sid | 0 <= sid < |m'.sh.heap| && Free(m', sid) ensures IdleInv(m'.sh, sid) {
      assert Free(m, sid) by {
        forall j | j in m.calls ensures m.calls[j].sid != Some(sid) {
          assert j in m'.calls && m'.calls[j] == m.calls[j];
        }
      }
    }
  }

  lemma ArriveKeepsCalls(m: Machine, inst: nat, msg: Message)
    requires Inv(m) && Polite(m, Arrive(inst, msg))
    ensures var m' := Apply(m, Arrive(inst, msg)); CallsInv(m') && Disciplined(m') && ConnectionsInv(m')
  {
    hide LocalInv, IdleInv, TraceInv, SendCount, BoundOf;
    BeginKeeps(m.next, inst, msg, m.sh);
  }

  lemma ArriveKeepsInv(m: Machine, inst: nat, msg: Message)
    requires Inv(m) && Polite(m, Arrive(inst, msg))
    ensures Inv(Apply(m, Arrive(inst, msg)))
  {
    hide LocalInv, IdleInv, SendCount, BoundOf, CallsInv, Disciplined, SessionsInv, ConnectionsInv;
    ArriveKeepsCalls(m, inst, msg);
    ArriveKeepsSessions(m, inst, msg);
  }

  // A call that is done leaves its session idle and none of its own connections open.
  lemma DoneIsIdle(c: Call, sh: Shared)
    requires LocalInv(c, sh) && c.pc == Done
    ensures c.sid.Some? ==> IdleInv(sh, c.sid.value)
    ensures c.sid.None? ==>
              forall x :: 0 <= x < |sh.conns| && Owned(c.sid, c.id, sh.conns[x]) ==> Status(sh.conns[x], false)
    ensures c.accepted.Some? ==> c.accepted.value < |sh.conns| && sh.conns[c.accepted.value].closes == 1
  {
    assert forall x :: !HeldBy(c, x);
  }

  lemma AnswerKeepsSessions(m: Machine, id: nat)
    requires Core(m) && Enabled(m, Answer(id))
    ensures SessionsInv(Apply(m, Answer(id)))
  {
    hide LocalInv, IdleInv;
    var m' := Apply(m, Answer(id));
    DoneIsIdle(m.calls[id], m.sh);
    forall sid | 0 <= sid < |m'.sh.heap| && Free(m', sid) ensures IdleInv(m'.sh, sid) {
      if m.calls[id].sid != Some(sid) {
        assert Free(m, sid) by {
          forall j | j in m.calls ensures m.calls[j].sid != Some(sid) {
            assert j != id ==> j in m'.calls && m'.calls[j] == m.calls[j];
          }
        }
      }
    }
  }

  lemma AnswerKeepsConnections(m: Machine, id: nat)
    requires Core(m) && Enabled(m, Answer(id))
    ensures ConnectionsInv(Apply(m, Answer(id)))
  {
    var c := m.calls[id];
    assert LocalInv(c, m.sh);
    DoneIsIdle(c, m.sh);
  }

  lemma AnswerKeepsFinished(m: Machine, id: nat)
    requires Core(m) && FinishedInv(m) && Enabled(m, Answer(id))
    ensures FinishedInv(Apply(m, Answer(id)))
  {
    hide LocalInv, SendCount, BoundOf, FinishedCall;
    DoneIsFinished(m.calls[id], m.sh);
  }

  lemma DoneIsFinished(c: Call, sh: Shared)
    requires LocalInv(c, sh) && c.pc == Done && SendCount(sh.trace, c.id) == c.sends
    ensures FinishedCall(c, sh)
  {
    DoneIsIdle(c, sh);
  }

  lemma AnswerKeepsInv(m: Machine, id: nat)
    requires Inv(m) && Enabled(m, Answer(id))
    ensures Inv(Apply(m, Answer(id)))
  {
    AnswerKeepsSessions(m, id);
    AnswerKeepsConnections(m, id);
    AnswerKeepsFinished(m, id);
  }

  lemma CleanKeepsCalls(m: Machine, key: string)
    requires CallsInv(m) && Enabled(m, Clean(key))
    ensures CallsInv(Apply(m, Clean(key)))
  {
    LogFolds(m.sh.trace, Dropped(key));
    forall j | j in m.calls ensures LocalInv(m.calls[j], Apply(m, Clean(key)).sh) {
      CleanKeepsLocal(m.calls[j], m.sh, key);
    }
  }

  lemma CleanKeepsInv(m: Machine, key: string)
    requires Inv(m) && Enabled(m, Clean(key))
    ensures Inv(Apply(m, Clean(key)))
  {
    hide CallsInv, SessionsInv, IdleInv, SendCount, BoundOf, Current, Stored;
    LogFolds(m.sh.trace, Dropped(key));
    LogKeepsGood(m.sh.trace, Dropped(key));
    CleanKeepsCalls(m, key);
    CleanKeepsIdle(m, key);
  }

  lemma CleanKeepsLocal(c: Call, sh: Shared, key: string)
    requires LocalInv(c, sh)
    ensures LocalInv(c, Log(sh.(table := sh.table - {key}), Dropped(key)))
  {
  }

  lemma CleanKeepsIdle(m: Machine, key: string)
    requires SessionsInv(m) && Enabled(m, Clean(key))
    ensures SessionsInv(Apply(m, Clean(key)))
  {
    var m' := Apply(m, Clean(key));
    forall sid | 0 <= sid < |m'.sh.heap| && Free(m', sid) ensures IdleInv(m'.sh, sid) {
      assert Free(m, sid);
      assert IdleInv(m.sh, sid);
    }
  }

  lemma SweepKeepsInv(m: Machine, inst: nat, now: int)
    requires Inv(m)
    ensures Inv(Apply(m, Sweep(inst, now)))
  {
    var m' := Apply(m, Sweep(inst, now));
    assert SessionsInv(m') by {
      forall sid | 0 <= sid < |m'.sh.heap| && Free(m', sid) ensures IdleInv(m'.sh, sid) {
        assert Free(m, sid);
      }
    }
  }

  lemma ApplyKeepsInv(m: Machine, l: Label)
    requires Inv(m) && Enabled(m, l) && Polite(m, l)
    ensures Inv(Apply(m, l))
  {
    match l
    case Arrive(inst, msg) => ArriveKeepsInv(m, inst, msg);
    case Advance(id, o) => AdvanceKeepsInv(m, id, o);
    case Answer(id) => AnswerKeepsInv(m, id);
    case Clean(key) => CleanKeepsInv(m, key);
    case Sweep(inst, now) => SweepKeepsInv(m, inst, now);
  }

  // The invariant holds after every orderly run.
  lemma {:induction false} RunKeepsInv(ls: seq<Label>)
    requires Orderly(INIT, ls)
    ensures Inv(Exec(INIT, ls))
  {
    if ls != [] {
      RunKeepsInv(ls[..|ls| - 1]);
      ApplyKeepsInv(Exec(INIT, ls[..|ls| - 1]), ls[|ls| - 1]);
    }
  }
}

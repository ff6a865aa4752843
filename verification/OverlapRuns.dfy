/**
 The invariant of every legal run, with overlapping requests of one session
 allowed.
 */
module OverlapRuns {
  import opened Common
  import opened Keys
  import opened Protocol
  import opened Pinning
  import opened PinningSteps
  import opened Traces
  import opened Runs
  import opened Overlap
  import opened OverlapSteps

  // --------------------------------------------------------------- invariant

  predicate Settles(m: Message) {
    m.command in {Commit, Abort}
  }

  predicate Counted(c: Call) {
    c.attempt <= MAX_RETRIES && c.sends <= if Before(c.pc) then c.attempt else c.attempt + 1
  }

  // A commit or abort is written only once it has been accepted, and it cannot be
  // accepted again before the call returns.
  predicate Once(c: Call) {
    c.sid.Some? && Settles(c.msg) ==>
      && c.sends <= 1
      && (c.pc == Send ==> Pending(c) && c.sends == 0)
      && (c.pc in {Select, Checkout, Start, Act} && c.sends > 0 ==> Pending(c))
  }

  // The connection of an accepted commit or abort is to be closed or has been.
  predicate ClosesIt(c: Call, sh: Shared) {
    c.accepted.Some? ==>
      && c.accepted.value < |sh.conns|
      && (Close(c.accepted.value, true) in c.defers || sh.conns[c.accepted.value].closes >= 1)
  }

  predicate CallOk(c: Call, sh: Shared) {
    Sound(c, sh) && PendingInv(c, sh) && Counted(c) && Once(c) && OpenedInv(c, sh) && ClosesIt(c, sh)
  }

  predicate CallsOk(m: Machine) {
    forall id :: id in m.calls ==>
      id < m.next && m.calls[id].id == id && CallOk(m.calls[id], m.sh) && SendCount(m.sh.trace, id) == m.calls[id].sends
  }

  predicate SameSession(c: Call, d: Call) {
    c.sid.Some? && c.sid == d.sid
  }

  // At most one call of a session has its ending pending.
  predicate Rivals(m: Machine) {
    forall i, j :: i in m.calls && j in m.calls && i != j && SameSession(m.calls[i], m.calls[j]) ==>
      !(Pending(m.calls[i]) && Pending(m.calls[j]))
  }

  predicate SharedOk(m: Machine) {
    && PinsOwned(m.sh) && TableInv(m.sh) && HeapInv(m.sh)
    && (forall x :: 0 <= x < |m.sh.conns| ==> m.sh.conns[x].call < m.next)
  }

  predicate FreeCore(m: Machine) {
    CallsOk(m) && Rivals(m) && SharedOk(m)
  }

  // -------------------------------------------------------- the stepping call

  // A step opens one connection, or marks or closes one, or leaves them alone.
  lemma ConnsShape(c: Call, sh: Shared, ca: Caches, o: Oracle) returns (x: Conn)
    requires Sane(c, sh)
    ensures var r := Step(c, sh, ca, o);
            || r.sh.conns == sh.conns
            || (c.pc == Checkout && r.c.pc == Start && r.c.attempt == c.attempt
                && r.sh.conns == sh.conns + [ConnRec(c.id, c.sid, c.server, 0, false)])
            || (x < |sh.conns| && r.sh.conns == sh.conns[x := r.sh.conns[x]]
                && r.sh.conns[x].call == sh.conns[x].call && r.sh.conns[x].closes >= sh.conns[x].closes)
  {
    hide Base64, BuildKey, SelectServer, DropSession;
    if c.pc == Act && c.sid.Some? && c.msg.command == EndSessions {
      DropConns(sh, c.sid.value, o.now);
    }
    x := if c.pc == Unwind && c.defers != [] && c.defers[|c.defers| - 1].Close?
        then c.defers[|c.defers| - 1].conn else c.conn;
  }

  lemma CountedStep(c: Call, sh: Shared, ca: Caches, o: Oracle)
    requires Sane(c, sh) && Counted(c)
    ensures var d := Step(c, sh, ca, o).c;
            && Counted(d) && d.attempt >= c.attempt
            && (c.pc in {Start, Act, Send} || c.pc.CacheCursor? || c.pc in {CacheTxn, Unwind, Done} ==>
                  d.pc !in {Lookup, Create, Select, Checkout} || d.attempt == c.attempt + 1)
  {
    hide Base64, BuildKey, SelectServer, DropSession;
  }

  lemma OpenedStep(c: Call, sh: Shared, ca: Caches, o: Oracle)
    requires Sane(c, sh) && OpenedInv(c, sh) && Counted(c)
    ensures var r := Step(c, sh, ca, o); OpenedInv(r.c, r.sh)
  {
    hide Opened, Step;
    var x := ConnsShape(c, sh, ca, o);
    var r := Step(c, sh, ca, o);
    CountedStep(c, sh, ca, o);
    SameCall(c, sh, ca, o);
    if r.sh.conns == sh.conns {
    } else if |r.sh.conns| > |sh.conns| {
      OpenedOfAppend(sh.conns, r.sh.conns[|sh.conns|], c.id);
    } else {
      OpenedOfUpdate(sh.conns, x, r.sh.conns[x], c.id);
    }
  }

  // A settling call leaves Act for the write only when it is accepted.
  lemma OnceShape(c: Call, sh: Shared, ca: Caches, o: Oracle)
    requires Sane(c, sh) && c.sid.Some? && Settles(c.msg)
    ensures var d := Step(c, sh, ca, o).c;
            && (d.pc == Send ==> c.pc == Act && d.sends == c.sends && Accepts(c, sh, c.sid.value))
            && (d.pc in {Select, Checkout, Start, Act} ==> c.pc in {Lookup, Create, Select, Checkout, Start, Send})
            && (c.pc !in {Send} ==> d.sends == c.sends)
            && d.sends <= c.sends + 1
  {
    hide Base64, BuildKey, SelectServer, DropSession;
  }

  lemma OnceStep(c: Call, sh: Shared, ca: Caches, o: Oracle)
    requires Sane(c, sh) && Sound(c, sh) && PendingInv(c, sh) && Once(c)
    ensures Once(Step(c, sh, ca, o).c)
  {
    hide Pending, Sole, Step;
    PendingStep(c, sh, ca, o);
    SameCall(c, sh, ca, o);
    if c.sid.Some? {
      BoundSid(c, sh, ca, o);
      if Settles(c.msg) {
        OnceShape(c, sh, ca, o);
        if c.pc == Act && c.sends > 0 { PendingBlocks(c, sh); }
      }
    } else {
      JustBound(c, sh, ca, o);
    }
  }

  lemma PendingBlocks(c: Call, sh: Shared)
    requires PendingInv(c, sh) && Pending(c)
    ensures c.sid.Some? && !Accepts(c, sh, c.sid.value)
  {
  }

  lemma JustBound(c: Call, sh: Shared, ca: Caches, o: Oracle)
    requires Sane(c, sh) && Sound(c, sh) && c.sid.None?
    ensures var d := Step(c, sh, ca, o).c; d.sid.Some? ==> d.pc == Select && d.sends == 0
  {
    hide Base64, BuildKey, SelectServer, DropSession;
  }

  lemma ClosesShape(c: Call, sh: Shared, ca: Caches, o: Oracle)
    requires Sane(c, sh) && Sound(c, sh)
    ensures var r := Step(c, sh, ca, o);
            && (r.c.accepted != c.accepted ==>
                  c.pc == Act && r.c.accepted == Some(c.conn) && r.c.defers == c.defers + [Unpin, Close(c.conn, true)])
            && (forall x: Conn :: Close(x, true) in c.defers && Close(x, true) !in r.c.defers ==>
                  c.pc == Unwind && x < |sh.conns| && r.sh.conns == sh.conns[x := r.sh.conns[x]]
                  && r.sh.conns[x].closes == sh.conns[x].closes + 1)
  {
    hide Base64, BuildKey, SelectServer, DropSession;
    var r := Step(c, sh, ca, o);
    if c.pc == Unwind && c.defers != [] {
      assert c.defers == c.defers[..|c.defers| - 1] + [c.defers[|c.defers| - 1]];
    }
  }

  lemma ClosesStep(c: Call, sh: Shared, ca: Caches, o: Oracle)
    requires Sane(c, sh) && Sound(c, sh) && ClosesIt(c, sh)
    ensures var r := Step(c, sh, ca, o); ClosesIt(r.c, r.sh)
  {
    hide Step;
    var r := Step(c, sh, ca, o);
    NotOk(c, sh);
    ClosesShape(c, sh, ca, o);
    var x := ConnsShape(c, sh, ca, o);
    if r.c.accepted != c.accepted {
      assert r.c.defers[|r.c.defers| - 1] == Close(c.conn, true);
    }
  }

  lemma DropConns(sh: Shared, sid: nat, now: int)
    requires sid < |sh.heap|
    ensures DropSession(sh, sid, now).conns == sh.conns && |DropSession(sh, sid, now).heap| == |sh.heap|
  {
  }

  lemma OwnPending(c: Call, sh: Shared, ca: Caches, o: Oracle)
    requires Sane(c, sh) && Sound(c, sh) && PendingInv(c, sh)
    ensures var r := Step(c, sh, ca, o); PendingInv(r.c, r.sh)
  {
    hide Base64, BuildKey, SelectServer, Pending, Sole, DropSession, Step;
    PendingStep(c, sh, ca, o);
    SameCall(c, sh, ca, o);
    if c.sid.Some? {
      SessionStep(c, sh, ca, o, c.sid.value);
      BoundSid(c, sh, ca, o);
    } else {
      NotPending(c, sh);
    }
  }

  lemma NotPending(c: Call, sh: Shared)
    requires PendingInv(c, sh) && c.sid.None?
    ensures !Pending(c)
  {
  }

  lemma BoundSid(c: Call, sh: Shared, ca: Caches, o: Oracle)
    requires Sane(c, sh) && Sound(c, sh) && c.sid.Some?
    ensures Step(c, sh, ca, o).c.sid == c.sid
  {
    SidKept(c, sh, ca, o);
  }

  lemma OwnStep(c: Call, sh: Shared, ca: Caches, o: Oracle)
    requires CallOk(c, sh) && PinsOwned(sh) && TableInv(sh) && HeapInv(sh)
    ensures Sane(c, sh)
    ensures var r := Step(c, sh, ca, o); CallOk(r.c, r.sh)
  {
    hide Sound, PendingInv, Counted, Once, OpenedInv, ClosesIt, Step;
    StepGood(c, sh, ca, o);
    OwnPending(c, sh, ca, o);
    OnceStep(c, sh, ca, o);
    CountedStep(c, sh, ca, o);
    OpenedStep(c, sh, ca, o);
    ClosesStep(c, sh, ca, o);
  }

  // ---------------------------------------------------------- the other calls

  // The step of c leaves the ending that d has pending alone.
  lemma OtherPending(c: Call, d: Call, sh: Shared, ca: Caches, o: Oracle)
    requires Sane(c, sh) && PendingInv(c, sh) && PendingInv(d, sh)
    requires d.sid.Some? && d.sid == c.sid ==> !(Pending(c) && Pending(d))
    ensures PendingInv(d, Step(c, sh, ca, o).sh)
  {
    hide Base64, BuildKey, SelectServer, DropSession, Step;
    if Pending(d) {
      SessionStep(c, sh, ca, o, d.sid.value);
    }
  }

  lemma OtherOpened(c: Call, d: Call, sh: Shared, sh': Shared)
    requires Frame(c, sh, sh') && d.id != c.id && OpenedInv(d, sh)
    ensures OpenedInv(d, sh')
  {
    OpenedByOthers(sh.conns, sh'.conns, d.id);
  }

  lemma OtherStep(c: Call, d: Call, sh: Shared, ca: Caches, o: Oracle)
    requires CallOk(c, sh) && CallOk(d, sh) && PinsOwned(sh) && TableInv(sh) && HeapInv(sh) && c.id != d.id
    requires d.sid.Some? && d.sid == c.sid ==> !(Pending(c) && Pending(d))
    ensures Sane(c, sh) && CallOk(d, Step(c, sh, ca, o).sh)
  {
    hide Sound, PendingInv, Counted, Once, OpenedInv, Step, Frame, TableInv, PinsOwned;
    StepGood(c, sh, ca, o);
    SameCall(c, sh, ca, o);
    TablesKept(c, sh, ca, o);
    var r := Step(c, sh, ca, o);
    MovesKeepSound(d, sh, r.sh);
    OtherPending(c, d, sh, ca, o);
    OtherOpened(r.c, d, sh, r.sh);
    FrameCloses(r.c, sh, r.sh);
  }

  lemma FrameCloses(c: Call, sh: Shared, sh': Shared)
    requires Frame(c, sh, sh')
    ensures |sh.conns| <= |sh'.conns| && forall x :: 0 <= x < |sh.conns| ==> sh'.conns[x].closes >= sh.conns[x].closes
  {
  }

  // ------------------------------------------------------------- the machine

  lemma AdvanceRivals(m: Machine, id: nat, o: Oracle)
    requires FreeCore(m) && Enabled(m, Advance(id, o))
    ensures Rivals(Apply(m, Advance(id, o)))
  {
    hide Step, Sole, CallOk, Pending;
    var m' := Apply(m, Advance(id, o));
    var c := m.calls[id];
    CallParts(c, m.sh);
    PendingStep(c, m.sh, CachesOf(m, c.inst), o);
    if c.sid.Some? { BoundSid(c, m.sh, CachesOf(m, c.inst), o); }
    forall j | j in m.calls && j != id && m'.calls[id].sid.Some? && m.calls[j].sid == m'.calls[id].sid
      ensures !(Pending(m.calls[j]) && Pending(m'.calls[id]))
    {
      CallParts(m.calls[j], m.sh);
      if c.sid.Some? && Pending(m.calls[j]) {
        RivalBlocks(c, m.calls[j], m.sh);
      } else if c.sid.None? {
        NotPending(c, m.sh);
      }
    }
  }

  // While another call of the session has its ending pending, none is accepted.
  lemma RivalBlocks(c: Call, d: Call, sh: Shared)
    requires PendingInv(d, sh) && Pending(d) && c.sid == d.sid
    ensures c.sid.Some? && !Accepts(c, sh, c.sid.value)
  {
  }

  lemma CallParts(c: Call, sh: Shared)
    requires CallOk(c, sh)
    ensures Sound(c, sh) && PendingInv(c, sh) && Counted(c) && Once(c) && OpenedInv(c, sh) && Sane(c, sh)
  {
    SoundIsSane(c, sh);
  }

  lemma AdvanceCalls(m: Machine, id: nat, o: Oracle)
    requires FreeCore(m) && Enabled(m, Advance(id, o))
    ensures CallsOk(Apply(m, Advance(id, o)))
  {
    hide CallOk, Step, SendCount;
    var m' := Apply(m, Advance(id, o));
    var c := m.calls[id];
    OwnStep(c, m.sh, CachesOf(m, c.inst), o);
    SameCall(c, m.sh, CachesOf(m, c.inst), o);
    StepSends(c, m.sh, CachesOf(m, c.inst), o);
    forall j | j in m.calls && j != id ensures CallOk(m.calls[j], m'.sh) {
      OtherStep(c, m.calls[j], m.sh, CachesOf(m, c.inst), o);
    }
  }

  lemma AdvanceShared(m: Machine, id: nat, o: Oracle)
    requires FreeCore(m) && Enabled(m, Advance(id, o))
    ensures SharedOk(Apply(m, Advance(id, o)))
  {
    hide Step, CallOk, TableInv, HeapInv, PinsOwned;
    var c := m.calls[id];
    CallParts(c, m.sh);
    StepGood(c, m.sh, CachesOf(m, c.inst), o);
    TablesKept(c, m.sh, CachesOf(m, c.inst), o);
    SameCall(c, m.sh, CachesOf(m, c.inst), o);
  }

  lemma BeginOk(id: nat, inst: nat, msg: Message, sh: Shared)
    requires TableInv(sh) && forall x :: 0 <= x < |sh.conns| ==> sh.conns[x].call < id
    ensures CallOk(Begin(id, inst, msg), sh)
  {
    NothingOpened(sh.conns, id);
  }

  lemma CleanOk(c: Call, sh: Shared, key: string)
    requires CallOk(c, sh)
    ensures CallOk(c, Log(sh.(table := sh.table - {key}), Dropped(key)))
  {
  }

  // ------------------------------------------------- calls that have returned

  // What stays true of a call for ever after its answer.
  predicate Returned(c: Call, sh: Shared) {
    && c.sends == SendCount(sh.trace, c.id) <= MAX_RETRIES + 1
    && (c.msg.details.Some? && Settles(c.msg) ==> SendCount(sh.trace, c.id) <= 1)
    && Opened(sh.conns, c.id) <= MAX_RETRIES + 1
    && (c.accepted.Some? ==> c.accepted.value < |sh.conns| && sh.conns[c.accepted.value].closes >= 1)
  }

  ghost predicate ReturnedOk(m: Machine) {
    && (forall id :: id in m.finished ==>
          id < m.next && id !in m.calls && m.finished[id].id == id && Returned(m.finished[id], m.sh))
    && (forall id :: id >= m.next ==> SendCount(m.sh.trace, id) == 0)
  }

  lemma DoneReturned(c: Call, sh: Shared)
    requires CallOk(c, sh) && c.pc == Done && SendCount(sh.trace, c.id) == c.sends
    ensures Returned(c, sh)
  {
  }

  lemma AdvanceReturned(m: Machine, id: nat, o: Oracle)
    requires FreeCore(m) && ReturnedOk(m) && Enabled(m, Advance(id, o))
    ensures ReturnedOk(Apply(m, Advance(id, o)))
  {
    hide CallOk, Step, SendCount, Opened;
    var m' := Apply(m, Advance(id, o));
    var c := m.calls[id];
    CallParts(c, m.sh);
    StepGood(c, m.sh, CachesOf(m, c.inst), o);
    SameCall(c, m.sh, CachesOf(m, c.inst), o);
    StepSends(c, m.sh, CachesOf(m, c.inst), o);
    FrameCloses(m'.calls[id], m.sh, m'.sh);
    forall j | j in m'.finished ensures Returned(m'.finished[j], m'.sh) {
      OpenedByOthers(m.sh.conns, m'.sh.conns, j);
    }
  }

  // -------------------------------------------------- calls without a session

  // The connection was opened by a call in flight that has no session.
  predicate OpenedPlain(m: Machine, x: Conn)
    requires x < |m.sh.conns|
  {
    var id := m.sh.conns[x].call; id in m.calls && m.calls[id].msg.details.None?
  }

  // A call without a session answers for its own connections alone.
  predicate PlainOk(m: Machine) {
    && (forall id :: id in m.calls && m.calls[id].msg.details.None? ==> LocalInv(m.calls[id], m.sh))
    && (forall x :: 0 <= x < |m.sh.conns| && OpenedPlain(m, x) ==> m.sh.conns[x].sid.None?)
  }

  lemma PlainStepKeeps(c: Call, sh: Shared, ca: Caches, o: Oracle)
    requires LocalInv(c, sh) && Sane(c, sh) && c.msg.details.None? && c.pc != Done
    ensures var r := Step(c, sh, ca, o); LocalInv(r.c, r.sh)
  {
    hide LocalInv, Base64;
    PlainPc(c, sh);
    if c.pc == Lookup {
      PassLookupKeeps(c, sh, Select);
    } else {
      StepKeeps(c, sh, ca, o);
    }
  }

  lemma PlainPc(c: Call, sh: Shared)
    requires LocalInv(c, sh) && c.msg.details.None? && Sane(c, sh)
    ensures c.pc != Create && c.sid.None?
  {
  }

  lemma AdvancePlainConns(m: Machine, id: nat, o: Oracle)
    requires FreeCore(m) && PlainOk(m) && Enabled(m, Advance(id, o))
    ensures var m' := Apply(m, Advance(id, o));
            forall x :: 0 <= x < |m'.sh.conns| && OpenedPlain(m', x) ==> m'.sh.conns[x].sid.None?
  {
    hide CallOk, Step, LocalInv, TableInv, HeapInv, PinsOwned, Sound;
    var c := m.calls[id];
    CallParts(c, m.sh);
    StepGood(c, m.sh, CachesOf(m, c.inst), o);
    SameCall(c, m.sh, CachesOf(m, c.inst), o);
    if c.msg.details.None? {
      PlainPc(c, m.sh);
      PlainSid(c, m.sh, CachesOf(m, c.inst), o);
    }
  }

  lemma OtherPlain(m: Machine, id: nat, o: Oracle, j: nat)
    requires FreeCore(m) && PlainOk(m) && Enabled(m, Advance(id, o))
    requires j in m.calls && j != id && m.calls[j].msg.details.None?
    ensures LocalInv(m.calls[j], Apply(m, Advance(id, o)).sh)
  {
    hide CallOk, Step, LocalInv, TableInv, HeapInv, PinsOwned, Sound;
    var c := m.calls[id];
    CallParts(c, m.sh);
    CallParts(m.calls[j], m.sh);
    StepGood(c, m.sh, CachesOf(m, c.inst), o);
    TablesKept(c, m.sh, CachesOf(m, c.inst), o);
    SameCall(c, m.sh, CachesOf(m, c.inst), o);
    PlainPc(m.calls[j], m.sh);
    FrameKeepsOther(m.calls[j], Apply(m, Advance(id, o)).calls[id], m.sh, Apply(m, Advance(id, o)).sh);
  }

  lemma AdvancePlain(m: Machine, id: nat, o: Oracle)
    requires FreeCore(m) && PlainOk(m) && Enabled(m, Advance(id, o))
    ensures PlainOk(Apply(m, Advance(id, o)))
  {
    hide FreeCore, Step, LocalInv;
    var m' := Apply(m, Advance(id, o));
    var c := m.calls[id];
    AdvancePlainConns(m, id, o);
    SameCall(c, m.sh, CachesOf(m, c.inst), o);
    if c.msg.details.None? {
      PlainStepKeeps(c, m.sh, CachesOf(m, c.inst), o);
    }
    forall j | j in m.calls && j != id && m.calls[j].msg.details.None? ensures LocalInv(m.calls[j], m'.sh) {
      OtherPlain(m, id, o, j);
    }
  }

  lemma PlainSid(c: Call, sh: Shared, ca: Caches, o: Oracle)
    requires Sane(c, sh) && c.msg.details.None? && c.sid.None? && c.pc != Create
    ensures Step(c, sh, ca, o).c.sid.None?
  {
    hide Base64, BuildKey, SelectServer, DropSession;
  }

  // ---------------------------------------------------------------- sessions

  // Pins come in pairs and only with a transaction.
  predicate Paired(sh: Shared) {
    forall s :: 0 <= s < |sh.heap| ==>
      && (sh.heap[s].conn.Some? <==> sh.heap[s].server.Some?)
      && (sh.heap[s].txn == NoTxn ==> sh.heap[s].conn.None?) && sh.heap[s].txn != Starting
      && (sh.heap[s].state == Ended ==> sh.heap[s].txn != InProgress)
  }

  // A live session that is neither without a transaction nor in one is being
  // ended by a call in flight.
  ghost predicate EndersKnown(m: Machine) {
    forall s :: 0 <= s < |m.sh.heap| && m.sh.heap[s].txn in {Committed, Aborted} && m.sh.heap[s].state == Active ==>
      exists id :: id in m.calls && m.calls[id].sid == Some(s) && Pending(m.calls[id])
  }

  lemma AdvancePaired(c: Call, sh: Shared, ca: Caches, o: Oracle)
    requires Sane(c, sh) && Paired(sh)
    ensures Paired(Step(c, sh, ca, o).sh)
  {
    hide Step;
    var r := Step(c, sh, ca, o);
    FreshSession(c, sh, ca, o);
    forall s | 0 <= s < |r.sh.heap|
      ensures r.sh.heap[s].conn.Some? <==> r.sh.heap[s].server.Some?
      ensures (r.sh.heap[s].txn == NoTxn ==> r.sh.heap[s].conn.None?) && r.sh.heap[s].txn != Starting
      ensures r.sh.heap[s].state == Ended ==> r.sh.heap[s].txn != InProgress
    {
      if s < |sh.heap| { SessionStep(c, sh, ca, o, s); }
    }
  }

  lemma AdvanceEnders(m: Machine, id: nat, o: Oracle)
    requires FreeCore(m) && Paired(m.sh) && EndersKnown(m) && Enabled(m, Advance(id, o))
    ensures EndersKnown(Apply(m, Advance(id, o)))
  {
    hide Step, CallOk, Pending, Sole;
    var m' := Apply(m, Advance(id, o));
    var c := m.calls[id];
    var ca := CachesOf(m, c.inst);
    CallParts(c, m.sh);
    FreshSession(c, m.sh, ca, o);
    PendingStep(c, m.sh, ca, o);
    if c.sid.Some? { BoundSid(c, m.sh, ca, o); }
    forall s | 0 <= s < |m'.sh.heap| && m'.sh.heap[s].txn in {Committed, Aborted} && m'.sh.heap[s].state == Active
      ensures exists j :: j in m'.calls && m'.calls[j].sid == Some(s) && Pending(m'.calls[j])
    {
      if s < |m.sh.heap| {
        SessionStep(c, m.sh, ca, o, s);
        assert m.sh.heap[s].state == Active;
        if m.sh.heap[s].txn in {Committed, Aborted} {
          var j :| j in m.calls && m.calls[j].sid == Some(s) && Pending(m.calls[j]);
          assert m'.calls[j].sid == Some(s) && Pending(m'.calls[j]);
        } else {
          assert Accepts(c, m.sh, s);
          assert m'.calls[id].sid == Some(s) && Pending(m'.calls[id]);
        }
      }
    }
  }

  // ---------------------------------------------------------------- every run

  ghost predicate FreeInv(m: Machine) {
    FreeCore(m) && ReturnedOk(m) && PlainOk(m) && Paired(m.sh) && EndersKnown(m)
  }

  lemma FreeAdvance(m: Machine, id: nat, o: Oracle)
    requires FreeInv(m) && Enabled(m, Advance(id, o))
    ensures FreeInv(Apply(m, Advance(id, o)))
  {
    hide CallsOk, Rivals, SharedOk, ReturnedOk, PlainOk, Paired, EndersKnown, Step;
    AdvanceCalls(m, id, o);
    AdvanceRivals(m, id, o);
    AdvanceShared(m, id, o);
    AdvanceReturned(m, id, o);
    AdvancePlain(m, id, o);
    AdvancePaired(m.calls[id], m.sh, CachesOf(m, m.calls[id].inst), o);
    AdvanceEnders(m, id, o);
  }

  lemma ArriveCalls(m: Machine, inst: nat, msg: Message)
    requires FreeCore(m) && ReturnedOk(m) && PlainOk(m)
    ensures var m' := Apply(m, Arrive(inst, msg)); FreeCore(m') && ReturnedOk(m') && PlainOk(m')
  {
    hide CallOk, LocalInv, Pending, SendCount, Opened, Returned;
    BeginOk(m.next, inst, msg, m.sh);
    BeginKeeps(m.next, inst, msg, m.sh);
    BeginPending(m.next, inst, msg);
  }

  lemma ArriveEnders(m: Machine, inst: nat, msg: Message)
    requires CallsOk(m) && EndersKnown(m)
    ensures EndersKnown(Apply(m, Arrive(inst, msg)))
  {
    hide CallOk, Pending;
    var m' := Apply(m, Arrive(inst, msg));
    forall s | 0 <= s < |m'.sh.heap| && m'.sh.heap[s].txn in {Committed, Aborted} && m'.sh.heap[s].state == Active
      ensures exists id :: id in m'.calls && m'.calls[id].sid == Some(s) && Pending(m'.calls[id])
    {
      var id :| id in m.calls && m.calls[id].sid == Some(s) && Pending(m.calls[id]);
      assert m'.calls[id] == m.calls[id];
    }
  }

  lemma FreeArrive(m: Machine, inst: nat, msg: Message)
    requires FreeInv(m)
    ensures FreeInv(Apply(m, Arrive(inst, msg)))
  {
    hide CallsOk, Rivals, SharedOk, ReturnedOk, PlainOk, Paired, EndersKnown;
    ArriveCalls(m, inst, msg);
    ArriveEnders(m, inst, msg);
  }

  lemma BeginPending(id: nat, inst: nat, msg: Message)
    ensures !Pending(Begin(id, inst, msg))
  {
  }

  lemma AnswerCalls(m: Machine, id: nat)
    requires FreeCore(m) && ReturnedOk(m) && Enabled(m, Answer(id))
    ensures FreeCore(Apply(m, Answer(id))) && ReturnedOk(Apply(m, Answer(id)))
  {
    hide CallOk, Pending, SendCount, Opened, Returned;
    DoneReturned(m.calls[id], m.sh);
  }

  lemma AnswerPlain(m: Machine, id: nat)
    requires PlainOk(m) && Enabled(m, Answer(id))
    ensures PlainOk(Apply(m, Answer(id)))
  {
    hide LocalInv;
  }

  lemma AnswerEnders(m: Machine, id: nat)
    requires FreeCore(m) && EndersKnown(m) && Enabled(m, Answer(id))
    ensures EndersKnown(Apply(m, Answer(id)))
  {
    hide CallOk, Pending;
    var m' := Apply(m, Answer(id));
    DoneNotPending(m.calls[id], m.sh);
    forall s | 0 <= s < |m'.sh.heap| && m'.sh.heap[s].txn in {Committed, Aborted} && m'.sh.heap[s].state == Active
      ensures exists j :: j in m'.calls && m'.calls[j].sid == Some(s) && Pending(m'.calls[j])
    {
      var j :| j in m.calls && m.calls[j].sid == Some(s) && Pending(m.calls[j]);
      assert m'.calls[j] == m.calls[j];
    }
  }

  lemma FreeAnswer(m: Machine, id: nat)
    requires FreeInv(m) && Enabled(m, Answer(id))
    ensures FreeInv(Apply(m, Answer(id)))
  {
    hide FreeCore, ReturnedOk, PlainOk, Paired, EndersKnown;
    AnswerCalls(m, id);
    AnswerPlain(m, id);
    AnswerEnders(m, id);
  }

  lemma DoneNotPending(c: Call, sh: Shared)
    requires CallOk(c, sh) && c.pc == Done
    ensures !Pending(c)
  {
  }

  lemma CleanCalls(m: Machine, key: string)
    requires FreeCore(m) && Enabled(m, Clean(key))
    ensures FreeCore(Apply(m, Clean(key)))
  {
    hide CallOk, Pending, SendCount;
    var m' := Apply(m, Clean(key));
    LogFolds(m.sh.trace, Dropped(key));
    forall j | j in m.calls ensures CallOk(m.calls[j], m'.sh) {
      CleanOk(m.calls[j], m.sh, key);
    }
  }

  lemma CleanReturned(m: Machine, key: string)
    requires ReturnedOk(m) && Enabled(m, Clean(key))
    ensures ReturnedOk(Apply(m, Clean(key)))
  {
    hide SendCount, Opened;
    LogFolds(m.sh.trace, Dropped(key));
  }

  lemma CleanPlain(m: Machine, key: string)
    requires PlainOk(m) && Enabled(m, Clean(key))
    ensures PlainOk(Apply(m, Clean(key)))
  {
    hide LocalInv;
    forall j | j in m.calls && m.calls[j].msg.details.None? ensures LocalInv(m.calls[j], Apply(m, Clean(key)).sh) {
      CleanKeepsLocal(m.calls[j], m.sh, key);
    }
  }

  lemma CleanSessions(m: Machine, key: string)
    requires Paired(m.sh) && EndersKnown(m) && Enabled(m, Clean(key))
    ensures Paired(Apply(m, Clean(key)).sh) && EndersKnown(Apply(m, Clean(key)))
  {
    hide Pending;
  }

  lemma FreeClean(m: Machine, key: string)
    requires FreeInv(m) && Enabled(m, Clean(key))
    ensures FreeInv(Apply(m, Clean(key)))
  {
    hide FreeCore, ReturnedOk, PlainOk, Paired, EndersKnown, Apply;
    CleanCalls(m, key);
    CleanReturned(m, key);
    CleanPlain(m, key);
    CleanSessions(m, key);
  }

  lemma FreeSweep(m: Machine, inst: nat, now: int)
    requires FreeInv(m)
    ensures FreeInv(Apply(m, Sweep(inst, now)))
  {
    hide CallOk, LocalInv, Pending;
  }

  lemma FreeApply(m: Machine, l: Label)
    requires FreeInv(m) && Enabled(m, l)
    ensures FreeInv(Apply(m, l))
  {
    hide FreeInv, Apply;
    match l
    case Arrive(inst, msg) => FreeArrive(m, inst, msg);
    case Advance(id, o) => FreeAdvance(m, id, o);
    case Answer(id) => FreeAnswer(m, id);
    case Clean(key) => FreeClean(m, key);
    case Sweep(inst, now) => FreeSweep(m, inst, now);
  }

  lemma {:induction false} LegalKeepsFree(m: Machine, ls: seq<Label>)
    requires FreeInv(m) && Legal(m, ls)
    ensures FreeInv(Exec(m, ls))
  {
    hide FreeInv, Apply;
    if ls != [] {
      LegalKeepsFree(m, ls[..|ls| - 1]);
      FreeApply(Exec(m, ls[..|ls| - 1]), ls[|ls| - 1]);
    }
  }

  lemma InitFree()
    ensures FreeInv(INIT)
  {
  }

  // The invariant holds after every legal run.
  lemma RunIsFree(ls: seq<Label>)
    requires Legal(INIT, ls)
    ensures FreeInv(Exec(INIT, ls))
  {
    InitFree();
    LegalKeepsFree(INIT, ls);
  }
}

/**
 Which connections stay open for ever, in every legal run: with nothing in
 flight, exactly those still open that no stored session pins.
 */
module Leaks {
  import opened Common
  import opened Keys
  import opened Protocol
  import opened Pinning
  import opened PinningSteps
  import opened Traces
  import opened Runs
  import opened Overlap
  import opened OverlapSteps
  import opened OverlapRuns
  import opened Escapes
  import Lru

  // A key of the table leads to a session that pins the connection.
  predicate StoredPin(m: Machine, x: Conn) {
    exists k :: k in m.sh.table && m.sh.table[k] < |m.sh.heap| && m.sh.heap[m.sh.table[k]].conn == Some(x)
  }

  // ------------------------------------------------------ lost for good

  predicate Touches(c: Call, x: Conn) {
    (HasConn(c) && c.conn == x) || Closing(c.defers, x)
  }

  // No key and no call leads to the session.
  predicate Unreachable(m: Machine, s: nat) {
    (forall k :: k in m.sh.table ==> m.sh.table[k] != s) && (forall id :: id in m.calls ==> m.calls[id].sid != Some(s))
  }

  predicate Adrift(m: Machine, x: Conn) {
    && x < |m.sh.conns|
    && (forall id :: id in m.calls ==> !Touches(m.calls[id], x))
    && (forall s :: 0 <= s < |m.sh.heap| && m.sh.heap[s].conn == Some(x) ==> Unreachable(m, s))
  }

  lemma TouchStep(c: Call, sh: Shared, ca: Caches, o: Oracle, x: Conn)
    requires Sane(c, sh) && x < |sh.conns| && !Touches(c, x) && PinOf(sh, c) != Some(x)
    ensures var r := Step(c, sh, ca, o);
            !Touches(r.c, x) && x < |r.sh.conns| && r.sh.conns[x].closes == sh.conns[x].closes
  {
    hide DoAct, DoUnwind;
    match c.pc
    case Act => ActTouches(c, sh, ca, o, x);
    case Unwind => UnwindTouches(c, sh, ca, o, x);
    case _ => QuietTouches(c, sh, ca, o, x);
  }

  lemma ActTouches(c: Call, sh: Shared, ca: Caches, o: Oracle, x: Conn)
    requires Sane(c, sh) && x < |sh.conns| && !Touches(c, x) && c.pc == Act
    ensures var r := DoAct(c, sh, ca, o);
            !Touches(r.c, x) && x < |r.sh.conns| && r.sh.conns[x].closes == sh.conns[x].closes
  {
    hide DropSession;
    if DoAct(c, sh, ca, o).c.pc == Send {
      ActCloses(c, sh, ca, o, x);
    }
  }

  lemma UnwindTouches(c: Call, sh: Shared, ca: Caches, o: Oracle, x: Conn)
    requires Sane(c, sh) && x < |sh.conns| && !Touches(c, x) && c.pc == Unwind
    ensures var r := DoUnwind(c, sh, ca, o);
            !Touches(r.c, x) && x < |r.sh.conns| && r.sh.conns[x].closes == sh.conns[x].closes
  {
    if c.defers != [] {
      ClosingOfPop(c.defers, x);
    }
  }

  lemma QuietTouches(c: Call, sh: Shared, ca: Caches, o: Oracle, x: Conn)
    requires Sane(c, sh) && x < |sh.conns| && !Touches(c, x) && PinOf(sh, c) != Some(x) && c.pc !in {Act, Unwind}
    ensures var r := Step(c, sh, ca, o);
            !Touches(r.c, x) && x < |r.sh.conns| && r.sh.conns[x].closes == sh.conns[x].closes
  {
    hide Step, Closing;
    TakeStep(c, sh, ca, o);
    QuietConns(c, sh, ca, o);
  }

  lemma QuietConns(c: Call, sh: Shared, ca: Caches, o: Oracle)
    requires Sane(c, sh) && c.pc !in {Act, Unwind}
    ensures var r := Step(c, sh, ca, o);
            && r.c.defers == c.defers && |sh.conns| <= |r.sh.conns|
            && forall x :: 0 <= x < |sh.conns| ==> r.sh.conns[x].closes == sh.conns[x].closes
  {
    hide Base64, BuildKey, SelectServer;
  }

  lemma ActCloses(c: Call, sh: Shared, ca: Caches, o: Oracle, x: Conn)
    requires Sane(c, sh) && c.pc == Act && DoAct(c, sh, ca, o).c.pc == Send && x != c.conn && !Closing(c.defers, x)
    ensures var r := DoAct(c, sh, ca, o); !Closing(r.c.defers, x) && r.sh.conns == sh.conns && r.c.conn == c.conn
  {
    var r := DoAct(c, sh, ca, o);
    forall i | 0 <= i < |r.c.defers| ensures !(r.c.defers[i].Close? && r.c.defers[i].conn == x) {
      assert i < |c.defers| ==> r.c.defers[i] == c.defers[i];
    }
  }

  // A step makes no lost session reachable.
  lemma ReachStep(c: Call, sh: Shared, ca: Caches, o: Oracle, s: nat)
    requires Sane(c, sh) && s < |sh.heap| && c.sid != Some(s)
    requires forall k :: k in sh.table ==> sh.table[k] != s
    ensures var r := Step(c, sh, ca, o); r.c.sid != Some(s) && forall k :: k in r.sh.table ==> r.sh.table[k] != s
  {
    hide Base64, BuildKey, SelectServer, DoAct;
    if c.pc == Act {
      ActReach(c, sh, ca, o, s);
    } else if c.pc !in {Lookup, Create} {
      PlainStep(c, sh, ca, o);
      SidKept(c, sh, ca, o);
    }
  }

  lemma ActReach(c: Call, sh: Shared, ca: Caches, o: Oracle, s: nat)
    requires Sane(c, sh) && c.pc == Act
    ensures var r := DoAct(c, sh, ca, o);
            r.c.sid == c.sid && forall k :: k in r.sh.table ==> k in sh.table && r.sh.table[k] == sh.table[k]
  {
  }

  lemma AdriftAdvance(m: Machine, id: nat, o: Oracle, x: Conn)
    requires FreeCore(m) && Adrift(m, x) && Enabled(m, Advance(id, o))
    ensures Adrift(Apply(m, Advance(id, o)), x)
    ensures Apply(m, Advance(id, o)).sh.conns[x].closes == m.sh.conns[x].closes
  {
    hide Step, CallOk, Touches, Sound;
    var m' := Apply(m, Advance(id, o));
    var c := m.calls[id];
    var ca := CachesOf(m, c.inst);
    CallParts(c, m.sh);
    assert PinOf(m.sh, c) != Some(x);
    TouchStep(c, m.sh, ca, o, x);
    FreshSession(c, m.sh, ca, o);
    forall s | 0 <= s < |m'.sh.heap| && m'.sh.heap[s].conn == Some(x) ensures Unreachable(m', s) {
      assert s < |m.sh.heap|;
      SessionStep(c, m.sh, ca, o, s);
      if Starts(c, m.sh, s) { StartTouches(c, m.sh, s, x); }
      ReachStep(c, m.sh, ca, o, s);
    }
  }

  lemma StartTouches(c: Call, sh: Shared, s: nat, x: Conn)
    requires Starts(c, sh, s) && !Touches(c, x)
    ensures c.conn != x
  {
  }

  lemma AdriftApply(m: Machine, l: Label, x: Conn)
    requires FreeCore(m) && Adrift(m, x) && Enabled(m, l)
    ensures Adrift(Apply(m, l), x) && Apply(m, l).sh.conns[x].closes == m.sh.conns[x].closes
  {
    hide Step, CallOk;
    if l.Advance? {
      AdriftAdvance(m, l.id, l.o, x);
    }
  }

  lemma {:induction false} AdriftForEver(m: Machine, ms: seq<Label>, x: Conn)
    requires FreeInv(m) && Adrift(m, x) && Legal(m, ms)
    ensures Adrift(Exec(m, ms), x) && Exec(m, ms).sh.conns[x].closes == m.sh.conns[x].closes
  {
    hide Apply, Enabled, Adrift, CallsOk, Rivals, SharedOk, ReturnedOk, PlainOk, Paired, EndersKnown;
    if ms != [] {
      AdriftForEver(m, ms[..|ms| - 1], x);
      LegalKeepsFree(m, ms[..|ms| - 1]);
      AdriftApply(Exec(m, ms[..|ms| - 1]), ms[|ms| - 1], x);
    }
  }

  // ---------------------------------------------------------- one call's run

  // The labels lead from m to a state in which call id, its caches and the shared
  // state are those of r, and the other calls in flight are the given ones.
  predicate Stage(m: Machine, ls: seq<Label>, others: map<nat, Call>, id: nat, r: Config) {
    && Legal(m, ls) && (others == map[] ==> Orderly(m, ls))
    && Exec(m, ls).calls == others[id := r.c] && (others == map[] ==> Exec(m, ls).next == id + 1)
    && Exec(m, ls).sh == r.sh && CachesOf(Exec(m, ls), r.c.inst) == r.ca
  }

  lemma StageStep(m: Machine, ls: seq<Label>, others: map<nat, Call>, id: nat, o: Oracle, r: Config)
    requires Stage(m, ls, others, id, r) && Sane(r.c, r.sh) && r.c.pc != Done
    ensures Stage(m, ls + [Advance(id, o)], others, id, Step(r.c, r.sh, r.ca, o))
  {
    hide Step;
    SameCall(r.c, r.sh, r.ca, o);
    var ns := ls + [Advance(id, o)];
    assert ns[..|ns| - 1] == ls && ns[|ns| - 1] == Advance(id, o);
    assert others[id := r.c][id := Step(r.c, r.sh, r.ca, o).c] == others[id := Step(r.c, r.sh, r.ca, o).c];
  }

  lemma StageArrive(m: Machine, inst: nat, msg: Message)
    requires m.calls == map[]
    ensures Stage(m, [Arrive(inst, msg)], map[], m.next, Config(Begin(m.next, inst, msg), m.sh, CachesOf(m, inst)))
  {
    var ls := [Arrive(inst, msg)];
    assert ls[..0] == [] && ls[..|ls| - 1] == [];
    assert Orderly(m, []) && Exec(m, []) == m;
  }

  // A call that is done is answered, and nothing is left in flight.
  lemma StageAnswer(m: Machine, ls: seq<Label>, id: nat, r: Config)
    requires Stage(m, ls, map[], id, r) && r.c.pc == Done
    ensures var ns := ls + [Answer(id)]; Orderly(m, ns) && Exec(m, ns).calls == map[] && Exec(m, ns).sh == r.sh
  {
    var ns := ls + [Answer(id)];
    assert ns[..|ns| - 1] == ls && ns[|ns| - 1] == Answer(id);
  }

  lemma StageIs(m: Machine, ls: seq<Label>, others: map<nat, Call>, id: nat, r: Config)
    requires Stage(m, ls, others, id, r)
    ensures Legal(m, ls) && (others == map[] ==> Orderly(m, ls)) && Exec(m, ls).sh == r.sh
    ensures Exec(m, ls).calls == others[id := r.c]
  {
  }

  // The driver offers a connection and the server replies without a cursor.
  function Replying(): Oracle {
    Oracle(0, Some(0), true, true, Reply(None))
  }

  function CommitOf(lsid: seq<byte>): Message {
    Message(Some(TxnDetails(lsid, 0, false, false)), Commit, 0, "", false)
  }

  // The session is stored, in progress and pins x.
  predicate Committable(sh: Shared, sid: nat, x: Conn) {
    && sid < |sh.heap| && x < |sh.conns|
    && (forall k :: k in sh.table ==> sh.table[k] < |sh.heap|)
    && var s := sh.heap[sid];
    && s.state == Active && s.txn == InProgress && s.conn == Some(x) && s.server.Some?
  }

  // A commit of the session finds it, takes its connection and is accepted.
  lemma CommitAccepted(m: Machine, ls: seq<Label>, others: map<nat, Call>, id: nat, r: Config, sid: nat, x: Conn)
    returns (ns: seq<Label>, s: Config)
    requires Committable(r.sh, sid, x) && r.c == Begin(id, 0, CommitOf(r.sh.heap[sid].lsid))
    requires Base64(r.sh.heap[sid].lsid) in r.sh.table && r.sh.table[Base64(r.sh.heap[sid].lsid)] == sid
    requires Stage(m, ls, others, id, r)
    ensures Stage(m, ns, others, id, s) && Sane(s.c, s.sh)
    ensures s.c.pc == Send && s.c.defers == [Unpin, Close(x, true)] && s.c.sid == Some(sid) && s.c.conn == x
    ensures s.c.msg == r.c.msg && s.c.id == id && s.c.inst == 0 && s.ca == r.ca
    ensures s.sh.conns == r.sh.conns && s.sh.table == r.sh.table
    ensures |s.sh.heap| == |r.sh.heap| && s.sh.heap[sid] == r.sh.heap[sid].(txn := Committed, lastActivity := 0)
    ensures s.sh.trace == r.sh.trace + [Bound(id, Base64(r.sh.heap[sid].lsid), sid)]
  {
    hide Base64, BuildKey, SelectServer, Stage;
    var o := Replying();
    var c, sh, ca := r.c, r.sh, r.ca;
    ns := ls;
    StageStep(m, ns, others, id, o, Config(c, sh, ca));
    ns := ns + [Advance(id, o)];
    sh := Log(Put(sh, sid, sh.heap[sid].(lastActivity := o.now)), Bound(id, Base64(r.sh.heap[sid].lsid), sid));
    c := c.(pc := Select, sid := Some(sid));
    StageStep(m, ns, others, id, o, Config(c, sh, ca));
    ns := ns + [Advance(id, o)];
    c := c.(pc := Checkout, server := r.sh.heap[sid].server.value);
    StageStep(m, ns, others, id, o, Config(c, sh, ca));
    ns := ns + [Advance(id, o)];
    c := c.(pc := Start, conn := x);
    StageStep(m, ns, others, id, o, Config(c, sh, ca));
    ns := ns + [Advance(id, o)];
    c := c.(pc := Act);
    StageStep(m, ns, others, id, o, Config(c, sh, ca));
    ns := ns + [Advance(id, o)];
    sh := Put(sh, sid, sh.heap[sid].(txn := Committed, lastActivity := o.now));
    c := c.(pc := Send, defers := [] + [Unpin, Close(x, true)], accepted := Some(x));
    s := Config(c, sh, ca);
  }

  // From the write on, the call goes through its reply to its deferred actions.
  lemma SendReturns(m: Machine, ls: seq<Label>, others: map<nat, Call>, id: nat, r: Config)
    returns (ns: seq<Label>, s: Config)
    requires Stage(m, ls, others, id, r) && Sane(r.c, r.sh) && r.c.pc == Send && !r.c.msg.unacknowledged
    ensures Stage(m, ns, others, id, s) && Sane(s.c, s.sh)
    ensures s.c == r.c.(pc := Unwind, sends := r.c.sends + 1, ok := true) && s.ca.cursors == r.ca.cursors
    ensures r.c.msg.command == Commit && r.c.msg.details.Some? && !r.c.msg.details.value.isStart ==>
              s.ca.txns == Lru.Remove(r.ca.txns, Base64(r.c.msg.details.value.lsid))
    ensures s.sh == Log(r.sh, Sent(r.c.id, r.c.sid, r.c.server, r.c.conn))
  {
    hide Base64, BuildKey, Stage, Lru.Add, Lru.Remove;
    var o := Replying();
    StageStep(m, ls, others, id, o, r);
    ns := ls + [Advance(id, o)];
    var c := r.c.(pc := CacheCursor(None), sends := r.c.sends + 1);
    var sh := Log(r.sh, Sent(r.c.id, r.c.sid, r.c.server, r.c.conn));
    StageStep(m, ns, others, id, o, Config(c, sh, r.ca));
    ns := ns + [Advance(id, o)];
    c := c.(pc := CacheTxn);
    StageStep(m, ns, others, id, o, Config(c, sh, r.ca));
    s := DoCacheTxn(c, sh, r.ca, o);
    ns := ns + [Advance(id, o)];
  }

  lemma UnwindCloses(r: Config, x: Conn)
    requires Sane(r.c, r.sh) && r.c.pc == Unwind && r.c.defers == [Unpin, Close(x, true)] && x < |r.sh.conns|
    requires r.c.sid.Some?
    ensures var s := Step(r.c, r.sh, r.ca, Replying());
            var sid := r.c.sid.value;
            && s.sh.conns == r.sh.conns[x := r.sh.conns[x].(closes := r.sh.conns[x].closes + 1)]
            && s.sh.heap == r.sh.heap[sid := ResetTransactionState(r.sh.heap[sid])]
            && s.sh.table == r.sh.table && s.sh.trace == r.sh.trace + [Finished(sid)]
            && s.ca == r.ca && s.c == r.c.(defers := [Unpin])
  {
    assert [Unpin, Close(x, true)][..1] == [Unpin];
  }

  // A stored session that pins a connection with nothing in flight can be committed.
  lemma PinIsCommittable(m: Machine, k: string)
    requires FreeInv(m) && m.calls == map[] && k in m.sh.table && m.sh.heap[m.sh.table[k]].conn.Some?
    ensures var sid := m.sh.table[k];
            Committable(m.sh, sid, m.sh.heap[sid].conn.value) && k == Base64(m.sh.heap[sid].lsid)
  {
    hide CallOk;
  }

  lemma StoredPinCloses(m: Machine, x: Conn) returns (ns: seq<Label>)
    requires FreeInv(m) && m.calls == map[] && StoredPin(m, x) && x < |m.sh.conns|
    ensures Orderly(m, ns) && x < |Exec(m, ns).sh.conns| && Exec(m, ns).sh.conns[x].closes > 0
  {
    hide FreeInv, Base64, Stage, Step;
    var k :| k in m.sh.table && m.sh.table[k] < |m.sh.heap| && m.sh.heap[m.sh.table[k]].conn == Some(x);
    PinIsCommittable(m, k);
    var sid := m.sh.table[k];
    var msg := CommitOf(m.sh.heap[sid].lsid);
    StageArrive(m, 0, msg);
    var r := Config(Begin(m.next, 0, msg), m.sh, CachesOf(m, 0));
    var ls, a := CommitAccepted(m, [Arrive(0, msg)], map[], m.next, r, sid, x);
    var us, s := SendReturns(m, ls, map[], m.next, a);
    UnwindCloses(s, x);
    StageStep(m, us, map[], m.next, Replying(), s);
    ns := us + [Advance(m.next, Replying())];
    StageIs(m, ns, map[], m.next, Step(s.c, s.sh, s.ca, Replying()));
  }

  // The connection is open now and in every state the run can still reach.
  ghost predicate OpenForEver(m: Machine, x: Conn) {
    forall ms :: Legal(m, ms) ==> x < |Exec(m, ms).sh.conns| && Exec(m, ms).sh.conns[x].closes == 0
  }

  lemma StoredPinEnds(m: Machine, x: Conn)
    requires FreeInv(m) && m.calls == map[] && StoredPin(m, x) && x < |m.sh.conns|
    ensures !OpenForEver(m, x)
  {
    hide FreeInv, StoredPin;
    var ns := StoredPinCloses(m, x);
  }

  /**
   With nothing in flight after any legal run, a connection stays open for ever,
   whatever is done next, if and only if it is open and no stored session pins it.
   */
  lemma OpenForEverExactly(ls: seq<Label>, x: Conn)
    requires Legal(INIT, ls) && Exec(INIT, ls).calls == map[] && x < |Exec(INIT, ls).sh.conns|
    ensures var m := Exec(INIT, ls);
            OpenForEver(m, x) <==> m.sh.conns[x].closes == 0 && !StoredPin(m, x)
  {
    hide FreeInv, Apply, Enabled;
    RunIsFree(ls);
    var m := Exec(INIT, ls);
    if OpenForEver(m, x) {
      assert Legal(m, []) && Exec(m, []) == m;
    }
    if StoredPin(m, x) {
      StoredPinEnds(m, x);
    }
    if m.sh.conns[x].closes == 0 && !StoredPin(m, x) {
      QuietIsAdrift(m, x);
      forall ms | Legal(m, ms) ensures x < |Exec(m, ms).sh.conns| && Exec(m, ms).sh.conns[x].closes == 0 {
        AdriftForEver(m, ms, x);
        AdriftBound(Exec(m, ms), x);
      }
    }
  }

  lemma AdriftBound(m: Machine, x: Conn)
    requires Adrift(m, x)
    ensures x < |m.sh.conns|
  {
  }

  lemma QuietIsAdrift(m: Machine, x: Conn)
    requires FreeInv(m) && m.calls == map[] && x < |m.sh.conns| && !StoredPin(m, x)
    ensures Adrift(m, x)
  {
    hide CallOk;
    forall s | 0 <= s < |m.sh.heap| && m.sh.heap[s].conn == Some(x) ensures Unreachable(m, s) {
      forall k | k in m.sh.table ensures m.sh.table[k] != s {}
    }
  }
}

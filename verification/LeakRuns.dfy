/**
 Three orderly runs from the beginning, each ending with nothing in flight and a
 connection that stays open for ever: a refused commit, a refused start, and an
 open transaction whose session is cleaned up.
 */
module LeakRuns {
  import opened Common
  import opened Keys
  import opened Protocol
  import opened Traces
  import opened Runs
  import opened OverlapRuns
  import opened Leaks
  import Lru

  function Request(lsid: seq<byte>, isStart: bool, command: Command): Message {
    Message(Some(TxnDetails(lsid, 1, isStart, false)), command, 0, "", false)
  }

  // The first request of a session has created it and opened a connection.
  function Opening(msg: Message): Call {
    Begin(0, 0, msg).(pc := Start, sid := Some(0))
  }

  function Created(lsid: seq<byte>): Shared {
    Shared([NewSession(lsid, 0)], map[Base64(lsid) := 0], [], [Bound(0, Base64(lsid), 0)])
  }

  function OneOut(lsid: seq<byte>): Shared {
    Created(lsid).(conns := [ConnRec(0, Some(0), 0, 0, false)])
  }

  lemma CreateIs(lsid: seq<byte>, c: Call, ca: Caches)
    requires c.pc == Create && c.msg.details.Some? && c.msg.details.value.lsid == lsid && c.id == 0 && c.sid.None?
    requires c.defers == []
    ensures DoCreate(c, INIT.sh, ca, Replying()) == Config(c.(pc := Select, sid := Some(0)), Created(lsid), ca)
  {
    hide Base64;
    var sh := DoCreate(c, INIT.sh, ca, Replying()).sh;
    assert sh.heap == Created(lsid).heap && sh.table == Created(lsid).table && sh.trace == Created(lsid).trace;
  }

  lemma SelectsTopology(msg: Message, o: Oracle)
    requires msg.cursorId == 0
    ensures SelectServer(NewCaches(), msg, o.topology) == o.topology
  {
  }

  lemma FirstCheckout(lsid: seq<byte>, isStart: bool, command: Command) returns (ls: seq<Label>)
    ensures var msg := Request(lsid, isStart, command);
            Stage(INIT, ls, map[], 0, Config(Opening(msg), OneOut(lsid), NewCaches()))
  {
    hide Base64, Stage, SelectServer;
    var msg, o, ca := Request(lsid, isStart, command), Replying(), NewCaches();
    var c := Begin(0, 0, msg);
    ls := [Arrive(0, msg)];
    StageArrive(INIT, 0, msg);
    StageStep(INIT, ls, map[], 0, o, Config(c, INIT.sh, ca));
    ls := ls + [Advance(0, o)];
    StageStep(INIT, ls, map[], 0, o, Config(c.(pc := Create), INIT.sh, ca));
    CreateIs(lsid, c.(pc := Create), ca);
    ls := ls + [Advance(0, o)];
    SelectsTopology(msg, o);
    StageStep(INIT, ls, map[], 0, o, Config(c.(pc := Select, sid := Some(0)), Created(lsid), ca));
    ls := ls + [Advance(0, o)];
    StageStep(INIT, ls, map[], 0, o, Config(c.(pc := Checkout, sid := Some(0)), Created(lsid), ca));
    assert Created(lsid).conns + [ConnRec(0, Some(0), 0, 0, false)] == OneOut(lsid).conns;
    ls := ls + [Advance(0, o)];
  }

  // The call has no more deferred actions.
  lemma Ends(ls: seq<Label>, r: Config) returns (ns: seq<Label>)
    requires Stage(INIT, ls, map[], 0, r) && Sane(r.c, r.sh) && r.c.pc == Unwind && r.c.defers == []
    ensures Orderly(INIT, ns) && Exec(INIT, ns).calls == map[] && Exec(INIT, ns).sh == r.sh
  {
    hide Stage;
    StageStep(INIT, ls, map[], 0, Replying(), r);
    ns := ls + [Advance(0, Replying())];
    StageAnswer(INIT, ns, 0, r.(c := r.c.(pc := Done)));
    ns := ns + [Answer(0)];
  }

  /**
   A commit of a session without a transaction is refused after its connection was
   checked out, and the connection stays open for ever.
   */
  lemma RefusedCommitLeaks(lsid: seq<byte>) returns (ls: seq<Label>)
    ensures Orderly(INIT, ls) && Exec(INIT, ls).calls == map[] && |Exec(INIT, ls).sh.conns| == 1
    ensures Exec(INIT, ls).sh.conns[0].leaked && OpenForEver(Exec(INIT, ls), 0)
  {
    hide Base64, Stage, OpenForEver;
    var o, ca := Replying(), NewCaches();
    ls := FirstCheckout(lsid, false, Commit);
    var c, sh := Opening(Request(lsid, false, Commit)), OneOut(lsid);
    StageStep(INIT, ls, map[], 0, o, Config(c, sh, ca));
    ls := ls + [Advance(0, o)];
    StageStep(INIT, ls, map[], 0, o, Config(c.(pc := Act), sh, ca));
    ls := ls + [Advance(0, o)];
    sh := LeakConn(sh, 0);
    ls := Ends(ls, Config(Return(c, false), sh, ca));
    OpenForEverExactly(ls, 0);
  }

  // A start that is accepted.
  function WithTransaction(lsid: seq<byte>): Shared {
    OneOut(lsid).(
      heap := [NewSession(lsid, 0).(txnNumber := 1, txn := InProgress, server := Some(0), conn := Some(0))],
      trace := OneOut(lsid).trace + [Started(0, 0, 0)])
  }

  lemma StartIs(lsid: seq<byte>, command: Command)
    ensures var c := Opening(Request(lsid, true, command));
            && Sane(c, OneOut(lsid))
            && DoStart(c, OneOut(lsid), NewCaches(), Replying()) ==
                Config(c.(pc := Act), WithTransaction(lsid), NewCaches())
  {
    hide Base64;
    var c := Opening(Request(lsid, true, command));
    assert DoStart(c, OneOut(lsid), NewCaches(), Replying()).sh.heap == WithTransaction(lsid).heap;
  }

  // The call that started the transaction is about to write.
  function Starter(lsid: seq<byte>): Call {
    Opening(Request(lsid, true, Other)).(pc := Send, defers := [Close(0, false)])
  }

  lemma StartsUp(lsid: seq<byte>) returns (ls: seq<Label>)
    ensures Stage(INIT, ls, map[], 0, Config(Starter(lsid), WithTransaction(lsid), NewCaches()))
    ensures Sane(Starter(lsid), WithTransaction(lsid))
  {
    hide Base64, Stage, DoStart;
    var o, ca, c := Replying(), NewCaches(), Opening(Request(lsid, true, Other));
    ls := FirstCheckout(lsid, true, Other);
    StartIs(lsid, Other);
    StageStep(INIT, ls, map[], 0, o, Config(c, OneOut(lsid), ca));
    ls := ls + [Advance(0, o)];
    StageStep(INIT, ls, map[], 0, o, Config(c.(pc := Act), WithTransaction(lsid), ca));
    ls := ls + [Advance(0, o)];
    assert [] + [Close(0, false)] == [Close(0, false)];
  }

  /**
   A transaction is started and its session cleaned up before it ends: the pinned
   connection stays open for ever.
   */
  lemma CleanedSessionLeaks(lsid: seq<byte>) returns (ls: seq<Label>)
    ensures Orderly(INIT, ls) && Exec(INIT, ls).calls == map[] && |Exec(INIT, ls).sh.conns| == 1
    ensures |Exec(INIT, ls).sh.heap| == 1 && Exec(INIT, ls).sh.heap[0].conn == Some(0)
    ensures Exec(INIT, ls).sh.table == map[]
    ensures !Exec(INIT, ls).sh.conns[0].leaked
    ensures OpenForEver(Exec(INIT, ls), 0)
  {
    hide Base64, Stage, OpenForEver;
    var o, ca := Replying(), NewCaches();
    ls := StartsUp(lsid);
    var c, sh := Starter(lsid), WithTransaction(lsid);
    var r;
    ls, r := SendReturns(INIT, ls, map[], 0, Config(c, sh, ca));
    StageStep(INIT, ls, map[], 0, o, r);
    ls := ls + [Advance(0, o)];
    r := r.(c := r.c.(defers := []));
    ls := Ends(ls, r);
    ls := Cleans(ls, Base64(lsid));
    OpenForEverExactly(ls, 0);
  }

  lemma Cleans(ls: seq<Label>, key: string) returns (ns: seq<Label>)
    requires Orderly(INIT, ls) && key in Exec(INIT, ls).sh.table
    ensures Orderly(INIT, ns) && Exec(INIT, ns).calls == Exec(INIT, ls).calls
    ensures Exec(INIT, ns).sh.heap == Exec(INIT, ls).sh.heap && Exec(INIT, ns).sh.conns == Exec(INIT, ls).sh.conns
    ensures Exec(INIT, ns).sh.table == Exec(INIT, ls).sh.table - {key}
  {
    ns := ls + [Clean(key)];
    assert ns[..|ns| - 1] == ls && ns[|ns| - 1] == Clean(key);
  }

  // The session after the same request has ended it.
  function SessionEnded(lsid: seq<byte>): Shared {
    WithTransaction(lsid).(
      heap := [NewSession(lsid, 0).(txnNumber := 1, txn := Aborted, state := Ended)],
      table := map[],
      trace := WithTransaction(lsid).trace + [Dropped(Base64(lsid))] + [Finished(0)])
  }

  lemma EndIs(lsid: seq<byte>)
    ensures var c := Opening(Request(lsid, true, EndSessions)).(pc := Act);
            && Sane(c, WithTransaction(lsid))
            && DoAct(c, WithTransaction(lsid), NewCaches(), Replying()) ==
               Config(c.(pc := Send, defers := [Close(0, false)]), SessionEnded(lsid), NewCaches())
  {
    hide Base64;
    var c := Opening(Request(lsid, true, EndSessions)).(pc := Act);
    var r := DoAct(c, WithTransaction(lsid), NewCaches(), Replying());
    assert r.sh.heap == SessionEnded(lsid).heap && r.sh.table == SessionEnded(lsid).table;
    assert r.c.defers == [Close(0, false)];
  }

  // The second attempt opens another connection and is refused.
  lemma SecondAttempt(lsid: seq<byte>, ls: seq<Label>, c: Call, sh: Shared) returns (ns: seq<Label>, s: Config)
    requires c.pc == Select && c.sid == Some(0) && c.msg == Request(lsid, true, EndSessions) && c.inst == 0 && c.id == 0
    requires c.defers == [Close(0, false)] && |sh.heap| == 1 && sh.heap[0].state == Ended && sh.heap[0].txn == Aborted
    requires sh.heap[0].conn.None? && |sh.conns| == 1 && sh.conns[0].closes == 0 && sh.table == map[]
    requires Stage(INIT, ls, map[], 0, Config(c, sh, NewCaches()))
    ensures Stage(INIT, ns, map[], 0, s) && Sane(s.c, s.sh) && s.c.pc == Unwind && s.c.defers == []
    ensures |s.sh.conns| == 2 && s.sh.conns[1].leaked && s.sh.conns[1].closes == 0
    ensures |s.sh.heap| == 1 && s.sh.heap[0].conn.None?
  {
    hide Base64, Stage, SelectServer;
    var o, ca := Replying(), NewCaches();
    var d, h := c, sh;
    ns := ls;
    SelectsTopology(c.msg, o);
    StageStep(INIT, ns, map[], 0, o, Config(d, h, ca));
    ns := ns + [Advance(0, o)];
    d := d.(pc := Checkout, server := 0);
    StageStep(INIT, ns, map[], 0, o, Config(d, h, ca));
    ns := ns + [Advance(0, o)];
    d, h := d.(pc := Start, conn := 1), h.(conns := h.conns + [ConnRec(0, Some(0), 0, 0, false)]);
    StageStep(INIT, ns, map[], 0, o, Config(d, h, ca));
    ns := ns + [Advance(0, o)];
    d, h := Return(d, false), LeakConn(h, 1);
    StageStep(INIT, ns, map[], 0, o, Config(d, h, ca));
    ns := ns + [Advance(0, o)];
    s := Config(d.(defers := [Close(0, false)][..0]), CloseConn(h, 0), ca);
  }

  /**
   An endSessions that also starts a transaction ends the session, is tried again
   after a retryable error, and is refused as a start on a session that is no
   longer active: the connection of its second attempt stays open for ever.
   */
  lemma RefusedStartLeaks(lsid: seq<byte>) returns (ls: seq<Label>)
    ensures Orderly(INIT, ls) && Exec(INIT, ls).calls == map[] && |Exec(INIT, ls).sh.conns| == 2
    ensures Exec(INIT, ls).sh.conns[1].leaked && OpenForEver(Exec(INIT, ls), 1)
  {
    hide Base64, Stage, OpenForEver, DoAct, DoStart;
    var o, ca := Replying(), NewCaches();
    var c := Opening(Request(lsid, true, EndSessions));
    ls := FirstCheckout(lsid, true, EndSessions);
    StartIs(lsid, EndSessions);
    StageStep(INIT, ls, map[], 0, o, Config(c, OneOut(lsid), ca));
    ls := ls + [Advance(0, o)];
    EndIs(lsid);
    StageStep(INIT, ls, map[], 0, o, Config(c.(pc := Act), WithTransaction(lsid), ca));
    ls := ls + [Advance(0, o)];
    var broken := o.(wire := WireError(true));
    c := c.(pc := Send, defers := [Close(0, false)]);
    StageStep(INIT, ls, map[], 0, broken, Config(c, SessionEnded(lsid), ca));
    ls := ls + [Advance(0, broken)];
    c := c.(pc := Select, attempt := 1, sends := 1);
    var s;
    ls, s := SecondAttempt(lsid, ls, c, Log(SessionEnded(lsid), Sent(0, Some(0), 0, 0)));
    ls := Ends(ls, s);
    OpenForEverExactly(ls, 1);
  }
}

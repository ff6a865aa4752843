/**
 Legal runs in which two requests of one logical session overlap, and what then
 goes wrong: a write escapes the pins, a connection is written to after it was
 closed and closed again, a start is written twice, pins are lost, and a
 transaction is pinned to a connection that has been closed.
 */
module OverlapFailures {
  import opened Common
  import opened Keys
  import opened Protocol
  import opened Pinning
  import opened Traces
  import opened Runs
  import opened OverlapRuns
  import opened OverlapTheorems
  import opened Positions
  import opened OverlapSteps
  import opened Escapes
  import opened Leaks
  import opened LeakRuns
  import Lru

  // ------------------------------------------------------------- two calls

  // A second request arrives while the first is in flight.
  lemma Joins(ls: seq<Label>, r: Config, msg: Message)
    requires Stage(INIT, ls, map[], 0, r) && r.c.inst == 0
    ensures Stage(INIT, ls + [Arrive(0, msg)], map[0 := r.c], 1, Config(Begin(1, 0, msg), r.sh, r.ca))
  {
    var ns := ls + [Arrive(0, msg)];
    assert ns[..|ns| - 1] == ls && ns[|ns| - 1] == Arrive(0, msg);
  }

  // The same state seen from the other call.
  lemma Turns(ls: seq<Label>, i: nat, c: Call, j: nat, r: Config)
    requires Stage(INIT, ls, map[i := c], j, r) && i != j && c.inst == r.c.inst
    ensures Stage(INIT, ls, map[j := r.c], i, Config(c, r.sh, r.ca))
  {
    assert map[i := c][j := r.c] == map[j := r.c][i := c];
    assert map[i := c] != map[] && map[j := r.c] != map[] by {
      assert i in map[i := c] && j in map[j := r.c];
    }
  }

  // ---------------------------------------------------- escaping the pins

  function Offering(server: Server): Oracle {
    Replying().(topology := Some(server))
  }

  // The second request has found the session and opened a connection of its own.
  function Second(lsid: seq<byte>, pc: PC): Call {
    Begin(1, 0, Request(lsid, false, Other)).(pc := pc, sid := Some(0), server := 2, conn := 1)
  }

  function BothOut(lsid: seq<byte>): Shared {
    OneOut(lsid).(conns := [ConnRec(0, Some(0), 0, 0, false), ConnRec(1, Some(0), 2, 0, false)],
                  trace := [Bound(0, Base64(lsid), 0), Bound(1, Base64(lsid), 0)])
  }

  lemma FindIs(lsid: seq<byte>)
    ensures var c := Begin(1, 0, Request(lsid, false, Other));
            var sh := BothOut(lsid).(conns := OneOut(lsid).conns);
            && Sane(c, OneOut(lsid))
            && DoLookup(c, OneOut(lsid), NewCaches(), Offering(2)) ==
               Config(c.(pc := Select, sid := Some(0)), sh, NewCaches())
  {
    hide Base64;
    var c := Begin(1, 0, Request(lsid, false, Other));
    var r := DoLookup(c, OneOut(lsid), NewCaches(), Offering(2));
    assert r.sh.heap == OneOut(lsid).heap && r.sh.trace == BothOut(lsid).trace;
  }

  lemma SecondOpens(lsid: seq<byte>, ls: seq<Label>, a: Call) returns (ns: seq<Label>)
    requires Stage(INIT, ls, map[0 := a], 1, Config(Begin(1, 0, Request(lsid, false, Other)), OneOut(lsid),
        NewCaches()))
    ensures Stage(INIT, ns, map[0 := a], 1, Config(Second(lsid, Start), BothOut(lsid), NewCaches()))
  {
    hide Base64, Stage, SelectServer, DoLookup;
    var o, ca, c := Offering(2), NewCaches(), Begin(1, 0, Request(lsid, false, Other));
    var sh := BothOut(lsid).(conns := OneOut(lsid).conns);
    FindIs(lsid);
    StageStep(INIT, ls, map[0 := a], 1, o, Config(c, OneOut(lsid), ca));
    ns := ls + [Advance(1, o)];
    SelectsTopology(c.msg, o);
    StageStep(INIT, ns, map[0 := a], 1, o, Config(c.(pc := Select, sid := Some(0)), sh, ca));
    ns := ns + [Advance(1, o)];
    StageStep(INIT, ns, map[0 := a], 1, o, Config(c.(pc := Checkout, sid := Some(0), server := 2), sh, ca));
    assert sh.conns + [ConnRec(1, Some(0), 2, 0, false)] == BothOut(lsid).conns;
    ns := ns + [Advance(1, o)];
  }

  function BothOpen(lsid: seq<byte>): Shared {
    BothOut(lsid).(heap := WithTransaction(lsid).heap, trace := BothOut(lsid).trace + [Started(0, 0, 0)])
  }

  lemma LateStartIs(lsid: seq<byte>)
    ensures var c := Opening(Request(lsid, true, Other));
            && Sane(c, BothOut(lsid))
            && DoStart(c, BothOut(lsid), NewCaches(), Replying()) == Config(c.(pc := Act), BothOpen(lsid), NewCaches())
  {
    hide Base64;
    var c := Opening(Request(lsid, true, Other));
    assert DoStart(c, BothOut(lsid), NewCaches(), Replying()).sh.heap == BothOpen(lsid).heap;
  }

  /**
   The second request checks out a connection of its own before the first one
   starts the transaction, and then writes on it, to another server, while the
   transaction is open and pinned.
   */
  lemma PinsEscaped(lsid: seq<byte>) returns (ls: seq<Label>)
    ensures Legal(INIT, ls)
    ensures var sh := Exec(INIT, ls).sh;
            && |sh.heap| == 1 && sh.heap[0].txn == InProgress
            && sh.heap[0].server == Some(0) && sh.heap[0].conn == Some(0)
            && sh.trace == [Bound(0, Base64(lsid), 0), Bound(1, Base64(lsid), 0), Started(0, 0, 0),
                Sent(1, Some(0), 2, 1)]
  {
    hide Base64, Stage, DoStart;
    var o, ca, a := Replying(), NewCaches(), Opening(Request(lsid, true, Other));
    ls := FirstCheckout(lsid, true, Other);
    Joins(ls, Config(a, OneOut(lsid), ca), Request(lsid, false, Other));
    ls := SecondOpens(lsid, ls + [Arrive(0, Request(lsid, false, Other))], a);
    Turns(ls, 0, a, 1, Config(Second(lsid, Start), BothOut(lsid), ca));
    LateStartIs(lsid);
    StageStep(INIT, ls, map[1 := Second(lsid, Start)], 0, o, Config(a, BothOut(lsid), ca));
    ls := ls + [Advance(0, o)];
    Turns(ls, 1, Second(lsid, Start), 0, Config(a.(pc := Act), BothOpen(lsid), ca));
    ls := SecondWrites(lsid, ls, a.(pc := Act));
  }

  lemma SecondWrites(lsid: seq<byte>, ls: seq<Label>, a: Call) returns (ns: seq<Label>)
    requires Stage(INIT, ls, map[0 := a], 1, Config(Second(lsid, Start), BothOpen(lsid), NewCaches()))
    ensures Legal(INIT, ns) && Exec(INIT, ns).sh == Log(BothOpen(lsid), Sent(1, Some(0), 2, 1))
  {
    hide Base64, Stage;
    var o, ca, sh, others := Replying(), NewCaches(), BothOpen(lsid), map[0 := a];
    StageStep(INIT, ls, others, 1, o, Config(Second(lsid, Start), sh, ca));
    ns := ls + [Advance(1, o)];
    StageStep(INIT, ns, others, 1, o, Config(Second(lsid, Act), sh, ca));
    ns := ns + [Advance(1, o)];
    var c := Second(lsid, Send).(defers := [] + [Close(1, false)]);
    StageStep(INIT, ns, others, 1, o, Config(c, sh, ca));
    ns := ns + [Advance(1, o)];
    StageIs(INIT, ns, others, 1, Step(c, sh, ca, o));
  }

  // ------------------------------------- a commit that overtakes the starter

  // The commit has one deferred action left; its session and its connection are
  // done with, and it is call a's turn again.
  predicate Overtook(lsid: seq<byte>, ns: seq<Label>, a: Call, sh: Shared, r: Config) {
    && Stage(INIT, ns, map[1 := r.c], 0, Config(a, r.sh, r.ca))
    && r.sh.heap == [NewSession(lsid, 0)] && r.sh.table == sh.table
    && r.sh.conns == [ConnRec(0, Some(0), 0, 1, false)]
    && r.ca == NewCaches()
    && LastUnpin(r.c)
  }

  predicate LastUnpin(c: Call) {
    c.inst == 0 && c.pc == Unwind && c.defers == [Unpin] && c.sid == Some(0) && c.msg.details.Some?
  }

  // A commit comes and goes while call a of the same session is in flight.
  lemma Overtaken(lsid: seq<byte>, ls: seq<Label>, a: Call, sh: Shared) returns (ns: seq<Label>, r: Config)
    requires Stage(INIT, ls, map[], 0, Config(a, sh, NewCaches())) && a.inst == 0
    requires sh.heap == WithTransaction(lsid).heap && sh.table == WithTransaction(lsid).table
    requires sh.conns == WithTransaction(lsid).conns
    ensures Overtook(lsid, ns, a, sh, r)
  {
    hide Base64, Stage, Lru.Remove;
    var msg := CommitOf(lsid);
    Joins(ls, Config(a, sh, NewCaches()), msg);
    ns := ls + [Arrive(0, msg)];
    var s;
    ns, s := CommitAccepted(INIT, ns, map[0 := a], 1, Config(Begin(1, 0, msg), sh, NewCaches()), 0, 0);
    ns, r := SendReturns(INIT, ns, map[0 := a], 1, s);
    UnwindCloses(r, 0);
    StageStep(INIT, ns, map[0 := a], 1, Replying(), r);
    ns := ns + [Advance(1, Replying())];
    r := Step(r.c, r.sh, r.ca, Replying());
    NothingRemoved(Base64(lsid));
    Turns(ns, 0, a, 1, r);
  }

  lemma NothingRemoved(key: string)
    ensures NewCaches().(txns := Lru.Remove(NewCaches().txns, key)) == NewCaches()
  {
  }

  // Call 0 is about to write on connection 0, which has been closed.
  predicate AboutToWriteOnClosed(m: Machine) {
    && 0 in m.calls && m.calls[0].pc == Send && m.calls[0].conn == 0
    && |m.sh.conns| == 1 && m.sh.conns[0].closes == 1
  }

  predicate ClosedTwice(m: Machine) {
    |m.sh.conns| == 1 && m.sh.conns[0].closes == 2
  }

  /**
   The starter's write is overtaken by a commit of its session: it goes out on the
   connection that the commit has closed, and the starter's deferred close then
   closes that connection a second time.
   */
  lemma WritesOnClosed(lsid: seq<byte>) returns (ls: seq<Label>, ns: seq<Label>)
    ensures Legal(INIT, ls) && AboutToWriteOnClosed(Exec(INIT, ls))
    ensures Legal(INIT, ns) && ClosedTwice(Exec(INIT, ns))
  {
    hide Base64, Stage;
    var us := StartsUp(lsid);
    var r;
    ls, r := Overtaken(lsid, us, Starter(lsid), WithTransaction(lsid));
    var others, b := map[1 := r.c], Config(Starter(lsid), r.sh, r.ca);
    StageIs(INIT, ls, others, 0, b);
    var s;
    ns, s := SendReturns(INIT, ls, others, 0, b);
    StageStep(INIT, ns, others, 0, Replying(), s);
    ns := ns + [Advance(0, Replying())];
    StageIs(INIT, ns, others, 0, Step(s.c, s.sh, s.ca, Replying()));
  }

  // The starter's first write failed and is to be repeated.
  function Retrying(lsid: seq<byte>): Call {
    Starter(lsid).(pc := Select, attempt := 1, sends := 1)
  }

  lemma FailsOnce(lsid: seq<byte>) returns (ls: seq<Label>)
    ensures Stage(INIT, ls, map[], 0,
                  Config(Retrying(lsid), Log(WithTransaction(lsid), Sent(0, Some(0), 0, 0)), NewCaches()))
  {
    hide Base64, Stage;
    var broken := Replying().(wire := WireError(true));
    ls := StartsUp(lsid);
    StageStep(INIT, ls, map[], 0, broken, Config(Starter(lsid), WithTransaction(lsid), NewCaches()));
    ls := ls + [Advance(0, broken)];
  }

  // Call 0 is about to write its start a second time, in a new transaction, and the
  // commit b still has its unpinning to do.
  predicate Restarted(lsid: seq<byte>, ls: seq<Label>, b: Call, r: Config) {
    && Stage(INIT, ls, map[1 := b], 0, r) && Sane(r.c, r.sh) && Sane(b, r.sh)
    && r.c.pc == Send && r.c.sends == 1 && r.c.msg == Request(lsid, true, Other) && r.c.inst == 0
    && LastUnpin(b)
    && |r.sh.heap| == 1 && r.sh.heap[0].txn == InProgress && r.sh.heap[0].conn == Some(1)
  }

  // Its second attempt finds the session without a transaction and starts again.
  lemma StartsAgain(lsid: seq<byte>) returns (ls: seq<Label>, b: Call, r: Config)
    ensures Restarted(lsid, ls, b, r)
  {
    hide Base64, Stage, SelectServer;
    var c, o, ca := Retrying(lsid), Replying(), NewCaches();
    ls := FailsOnce(lsid);
    var s;
    ls, s := Overtaken(lsid, ls, c, Log(WithTransaction(lsid), Sent(0, Some(0), 0, 0)));
    b := s.c;
    var others, sh := map[1 := b], s.sh;
    SelectsTopology(c.msg, o);
    StageStep(INIT, ls, others, 0, o, Config(c, sh, ca));
    ls := ls + [Advance(0, o)];
    c := c.(pc := Checkout);
    StageStep(INIT, ls, others, 0, o, Config(c, sh, ca));
    ls := ls + [Advance(0, o)];
    c, sh := c.(pc := Start, conn := 1), sh.(conns := sh.conns + [ConnRec(0, Some(0), 0, 0, false)]);
    StageStep(INIT, ls, others, 0, o, Config(c, sh, ca));
    ls := ls + [Advance(0, o)];
    var t := StartTransaction(sh.heap[0], 0, 1, 1, 0).value;
    c, sh := c.(pc := Act), Log(Put(sh, 0, t), Started(0, 0, 1));
    StageStep(INIT, ls, others, 0, o, Config(c, sh, ca));
    ls := ls + [Advance(0, o)];
    r := Config(c.(pc := Send, defers := c.defers + [Close(1, false)]), sh, ca);
  }

  /**
   A commit of the session completes between two attempts of a start, and the start
   is written a second time.
   */
  lemma StartWrittenTwice(lsid: seq<byte>) returns (ls: seq<Label>)
    ensures Legal(INIT, ls) && 0 in Exec(INIT, ls).calls && IsStart(Exec(INIT, ls).calls[0].msg)
    ensures SendCount(Exec(INIT, ls).sh.trace, 0) == 2
  {
    hide Base64, Stage, SendCount;
    var b, r;
    ls, b, r := StartsAgain(lsid);
    StageStep(INIT, ls, map[1 := b], 0, Replying(), r);
    ls := ls + [Advance(0, Replying())];
    StageIs(INIT, ls, map[1 := b], 0, Step(r.c, r.sh, r.ca, Replying()));
    SendsCounted(ls, 0);
  }

  /**
   The commit's last deferred action comes after the new start and lets go of the
   new transaction's pins: a transaction is open and nothing is pinned.
   */
  lemma PinsLetGo(lsid: seq<byte>) returns (ls: seq<Label>)
    ensures Legal(INIT, ls)
    ensures var s := Exec(INIT, ls).sh.heap; |s| == 1 && s[0].txn == InProgress && s[0].conn.None? && s[0].server.None?
  {
    hide Base64, Stage;
    var b, r;
    ls, b, r := StartsAgain(lsid);
    Turns(ls, 1, b, 0, r);
    StageStep(INIT, ls, map[0 := r.c], 1, Replying(), Config(b, r.sh, r.ca));
    ls := ls + [Advance(1, Replying())];
    StageIs(INIT, ls, map[0 := r.c], 1, Step(b, r.sh, r.ca, Replying()));
  }

  // ------------------------------------------- a start on a closed connection

  // Two more requests arrive while the first is in flight.
  lemma TwoJoin(ls: seq<Label>, r: Config, one: Message, two: Message)
    requires Stage(INIT, ls, map[], 0, r) && r.c.inst == 0
    ensures Stage(INIT, ls + [Arrive(0, one)] + [Arrive(0, two)], map[0 := r.c, 1 := Begin(1, 0, one)], 2,
                  Config(Begin(2, 0, two), r.sh, r.ca))
  {
    Joins(ls, r, one);
    var ks := ls + [Arrive(0, one)];
    assert ks[..|ks| - 1] == ls && ks[|ks| - 1] == Arrive(0, one);
    var ns := ks + [Arrive(0, two)];
    assert ns[..|ns| - 1] == ks && ns[|ns| - 1] == Arrive(0, two);
    assert 0 in map[0 := r.c, 1 := Begin(1, 0, one)];
  }

  // The same state of three calls seen from call i instead of call j.
  lemma Switches(ls: seq<Label>, a: Call, i: nat, c: Call, j: nat, r: Config)
    requires Stage(INIT, ls, map[0 := a, i := c], j, r) && i != j && i != 0 && j != 0 && c.inst == r.c.inst
    ensures Stage(INIT, ls, map[0 := a, j := r.c], i, Config(c, r.sh, r.ca))
  {
    assert map[0 := a, i := c][j := r.c] == map[0 := a, j := r.c][i := c];
    assert 0 in map[0 := a, i := c] && 0 in map[0 := a, j := r.c];
  }

  // A second start has found the session in its transaction and has been given the
  // pinned connection.
  function Restarter(lsid: seq<byte>, pc: PC): Call {
    Begin(1, 0, Request(lsid, true, Other)).(pc := pc, sid := Some(0))
  }

  function FoundAgain(lsid: seq<byte>): Shared {
    Log(WithTransaction(lsid), Bound(1, Base64(lsid), 0))
  }

  lemma FindsAgain(lsid: seq<byte>)
    ensures var c := Restarter(lsid, Lookup).(sid := None);
            && Sane(c, WithTransaction(lsid))
            && DoLookup(c, WithTransaction(lsid), NewCaches(), Replying()) ==
               Config(Restarter(lsid, Select), FoundAgain(lsid), NewCaches())
  {
    hide Base64;
    var c := Restarter(lsid, Lookup).(sid := None);
    assert DoLookup(c, WithTransaction(lsid), NewCaches(), Replying()).sh.heap == FoundAgain(lsid).heap;
  }

  lemma SecondStarts(lsid: seq<byte>, ls: seq<Label>, others: map<nat, Call>) returns (ns: seq<Label>)
    requires Stage(INIT, ls, others, 1, Config(Begin(1, 0, Request(lsid, true, Other)), WithTransaction(lsid),
        NewCaches()))
    ensures Stage(INIT, ns, others, 1, Config(Restarter(lsid, Start), FoundAgain(lsid), NewCaches()))
  {
    hide Base64, Stage, SelectServer, DoLookup;
    var o, ca := Replying(), NewCaches();
    FindsAgain(lsid);
    StageStep(INIT, ls, others, 1, o, Config(Begin(1, 0, Request(lsid, true, Other)), WithTransaction(lsid), ca));
    ns := ls + [Advance(1, o)];
    StageStep(INIT, ns, others, 1, o, Config(Restarter(lsid, Select), FoundAgain(lsid), ca));
    ns := ns + [Advance(1, o)];
    StageStep(INIT, ns, others, 1, o, Config(Restarter(lsid, Checkout), FoundAgain(lsid), ca));
    ns := ns + [Advance(1, o)];
  }

  // The session is free of its transaction, its connection closed, and call 1 about
  // to start on that connection.
  predicate BetweenTransactions(lsid: seq<byte>, ls: seq<Label>, b: Call, sh: Shared) {
    && Stage(INIT, ls, map[0 := Starter(lsid), 2 := b], 1, Config(Restarter(lsid, Start), sh, NewCaches()))
    && sh.heap == [NewSession(lsid, 0)] && sh.conns == [ConnRec(0, Some(0), 0, 1, false)]
    && forall k :: k in sh.table ==> sh.table[k] == 0
  }

  // A commit takes the connection that the second start has been given, closes it
  // and resets the session.
  lemma CommitComesBetween(lsid: seq<byte>) returns (ls: seq<Label>, b: Call, sh: Shared)
    ensures BetweenTransactions(lsid, ls, b, sh)
  {
    hide Base64, Stage, Lru.Remove;
    var start, commit := Request(lsid, true, Other), CommitOf(lsid);
    var a, c, ca := Starter(lsid), Restarter(lsid, Start), NewCaches();
    ls := StartsUp(lsid);
    TwoJoin(ls, Config(a, WithTransaction(lsid), ca), start, commit);
    ls := ls + [Arrive(0, start)] + [Arrive(0, commit)];
    Switches(ls, a, 1, Begin(1, 0, start), 2, Config(Begin(2, 0, commit), WithTransaction(lsid), ca));
    ls := SecondStarts(lsid, ls, map[0 := a, 2 := Begin(2, 0, commit)]);
    Switches(ls, a, 2, Begin(2, 0, commit), 1, Config(c, FoundAgain(lsid), ca));
    var others := map[0 := a, 1 := c];
    var s, r;
    ls, s := CommitAccepted(INIT, ls, others, 2, Config(Begin(2, 0, commit), FoundAgain(lsid), ca), 0, 0);
    ls, r := SendReturns(INIT, ls, others, 2, s);
    UnwindCloses(r, 0);
    StageStep(INIT, ls, others, 2, Replying(), r);
    ls := ls + [Advance(2, Replying())];
    r := Step(r.c, r.sh, r.ca, Replying());
    NothingRemoved(Base64(lsid));
    Switches(ls, a, 1, c, 2, r);
    b, sh := r.c, r.sh;
  }

  // The session's transaction, which call 1 has just started, is in progress and
  // pinned to a connection that has been closed; call 0, which is not its starter
  // and checked out long before, is about to write on that connection.
  predicate OnClosed(m: Machine, last: Label) {
    && last == Advance(1, Replying())
    && |m.sh.heap| == 1 && m.sh.heap[0].txn == InProgress && m.sh.heap[0].conn == Some(0)
    && |m.sh.conns| == 1 && m.sh.conns[0].closes == 1
    && 0 in m.calls && m.calls[0].pc == Send && m.calls[0].conn == 0
  }

  /**
   A start that has been given the connection of a transaction about to be committed
   succeeds after the commit, and pins the connection that the commit has closed.
   */
  lemma PinnedOnClosed(lsid: seq<byte>) returns (ls: seq<Label>)
    ensures Legal(INIT, ls) && ls != [] && OnClosed(Exec(INIT, ls), ls[|ls| - 1])
    ensures LastMove(ls, |ls|, 0) == StartedAt(|ls| - 1)
    ensures 0 in At(ls, |ls|).calls && Shares(ls, |ls|, |ls| - 1, 0, 0)
  {
    hide Base64, Stage, Shares;
    var b, sh;
    ls, b, sh := CommitComesBetween(lsid);
    var others, o, c := map[0 := Starter(lsid), 2 := b], Replying(), Restarter(lsid, Start);
    var r := Config(c, sh, NewCaches());
    StageIs(INIT, ls, others, 1, r);
    StageStep(INIT, ls, others, 1, o, r);
    var ns := ls + [Advance(1, o)];
    StageIs(INIT, ns, others, 1, Step(c, sh, NewCaches(), o));
    assert ns[..|ls|] == ls;
    assert StartsAt(ns, |ls|, 0);
    ls := ns;
    EscapesExactly(ls, |ls| - 1, 0, 0);
  }
}

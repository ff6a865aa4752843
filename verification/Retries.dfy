/**
 What each outcome of an attempt decides: whether the request goes on, is tried
 again, or is never written again and how it then returns. In every legal run.
 */
module Retries {
  import opened Common
  import opened Keys
  import opened Protocol
  import opened Pinning
  import opened PinningSteps
  import opened Traces
  import opened Runs
  import opened Overlap
  import opened OverlapSteps
  import opened OverlapRuns
  import opened Positions
  import opened OverlapTheorems
  import opened Escapes
  import opened Leaks
  import opened LeakRuns

  // --------------------------------------------------------- one answer

  // The answer sends the request back to the start of its loop: fewer than three
  // retries so far, and no connection to write on, a retryable error, or a reply
  // that cannot be read although one was asked for.
  predicate TriesAgain(msg: Message, attempt: nat, o: Oracle) {
    && attempt < 3
    && (|| !o.hasProcessor
        || (o.wire.WireError? && o.wire.retryable)
        || (o.wire.Undecodable? && !msg.unacknowledged))
  }

  // The answer is what the client was to get: a reply, or the end of a write that
  // asks for none.
  predicate Answers(msg: Message, o: Oracle) {
    o.hasProcessor && !o.wire.WireError? && (o.wire.Reply? || msg.unacknowledged)
  }

  // The request has been answered for good, and is to return with success or not.
  predicate Decided(c: Call, success: bool) {
    || (success && !c.ok && (c.pc.CacheCursor? || c.pc == CacheTxn))
    || (c.pc in {Unwind, Done} && c.ok == success)
  }

  lemma AnswerStep(c: Call, sh: Shared, ca: Caches, o: Oracle)
    requires Sane(c, sh) && c.pc == Send && !c.ok
    ensures var r := Step(c, sh, ca, o);
            && r.c.sends == c.sends + (if o.hasProcessor then 1 else 0)
            && r.sh.trace == sh.trace + (if o.hasProcessor then [Sent(c.id, c.sid, c.server, c.conn)] else [])
            && if TriesAgain(c.msg, c.attempt, o) then r.c.pc == Select && r.c.attempt == c.attempt + 1 && !r.c.ok
               else Decided(r.c, Answers(c.msg, o))
  {
  }

  lemma DecidedStep(c: Call, sh: Shared, ca: Caches, o: Oracle, success: bool)
    requires Sane(c, sh) && Decided(c, success)
    ensures var r := Step(c, sh, ca, o); Decided(r.c, success) && r.c.sends == c.sends
  {
    hide Base64, BuildKey;
  }

  // Decided, with the given number of writes, in flight or returned.
  predicate Settled(m: Machine, id: nat, sends: nat, success: bool) {
    && (id in m.calls ==> m.calls[id].sends == sends && Decided(m.calls[id], success))
    && (id in m.finished ==> m.finished[id].sends == sends && m.finished[id].ok == success)
    && (id in m.calls || id in m.finished)
  }

  lemma AnswerAt(ls: seq<Label>, k: nat, id: nat)
    requires Legal(INIT, ls) && k < |ls| && Makes(ls, k, id, Send)
    ensures id in At(ls, k + 1).calls && id !in At(ls, k + 1).finished
    ensures var c, d, o := At(ls, k).calls[id], At(ls, k + 1).calls[id], ls[k].o;
            && d.sends == c.sends + (if o.hasProcessor then 1 else 0)
            && if TriesAgain(c.msg, c.attempt, o) then d.pc == Select && d.attempt == c.attempt + 1
               else Decided(d, Answers(c.msg, o))
  {
    hide Legal, Exec, Step, CallOk, TriesAgain, Answers;
    AtStep(ls, k);
    AtFree(ls, k);
    FreeParts(ls, k, id);
    var m := At(ls, k);
    NotOkYet(m.calls[id], m.sh);
    AnswerStep(m.calls[id], m.sh, CachesOf(m, m.calls[id].inst), ls[k].o);
  }

  lemma NotOkYet(c: Call, sh: Shared)
    requires Sound(c, sh) && c.pc == Send
    ensures !c.ok
  {
  }

  lemma {:induction false} StaysSettled(ls: seq<Label>, k: nat, n: nat, id: nat, sends: nat, success: bool)
    requires Legal(INIT, ls) && k <= n <= |ls| && Settled(At(ls, k), id, sends, success)
    ensures Settled(At(ls, n), id, sends, success)
    decreases n
  {
    hide Legal, Exec, Step, CallOk, Decided;
    if k < n {
      StaysSettled(ls, k, n - 1, id, sends, success);
      AtStep(ls, n - 1);
      AtFree(ls, n - 1);
      var m := At(ls, n - 1);
      match ls[n - 1]
      case Advance(j, o) =>
        if j == id { DecidedStep(m.calls[id], m.sh, CachesOf(m, m.calls[id].inst), o, success); }
      case Answer(j) =>
        if j == id { DoneDecided(m.calls[id], success); }
      case _ =>
    }
  }

  lemma DoneDecided(c: Call, success: bool)
    requires Decided(c, success) && c.pc == Done
    ensures c.ok == success
  {
  }

  /**
   The answer to a write, or to the want of a connection to write on, decides. If it
   is one to try again on, the request goes back for the next attempt. Otherwise it
   is never written again, whatever else happens, and when it has returned it has
   succeeded exactly if the answer was a reply or none was asked for.
   */
  lemma AnswerDecides(ls: seq<Label>, k: nat, id: nat)
    requires Legal(INIT, ls) && k < |ls| && Makes(ls, k, id, Send)
    ensures id in At(ls, k + 1).calls
    ensures var c, d := At(ls, k).calls[id], At(ls, k + 1).calls[id];
            if TriesAgain(c.msg, c.attempt, ls[k].o) then d.pc == Select && d.attempt == c.attempt + 1
            else
              var m := Exec(INIT, ls);
              && Settled(m, id, d.sends, Answers(c.msg, ls[k].o))
              && SendCount(m.sh.trace, id) == d.sends == c.sends + if ls[k].o.hasProcessor then 1 else 0
  {
    hide Legal, Exec, SendCount, TriesAgain, Answers, Decided;
    AnswerAt(ls, k, id);
    AtEnds(ls);
    var c, d := At(ls, k).calls[id], At(ls, k + 1).calls[id];
    if !TriesAgain(c.msg, c.attempt, ls[k].o) {
      StaysSettled(ls, k + 1, |ls|, id, d.sends, Answers(c.msg, ls[k].o));
      SendsCounted(ls, id);
    }
  }

  // ------------------------------------------------------- before the write

  // The request is back at the start of its loop for the next attempt, or, after the
  // fourth, on its way back without success.
  predicate NextOrOver(c: Call, d: Call) {
    if c.attempt < 3 then d.pc == Select && d.attempt == c.attempt + 1 else Decided(d, false)
  }

  lemma SelectStep(m: Machine, id: nat, o: Oracle)
    requires id in m.calls && Sane(m.calls[id], m.sh) && m.calls[id].pc == Select && !m.calls[id].ok
    ensures var c := m.calls[id];
            var d, s := Step(c, m.sh, CachesOf(m, c.inst), o).c, Chooses(m, c, o);
            if s.Some? then d == c.(pc := Checkout, server := s.value)
            else if c.sid.Some? then Decided(d, false) else NextOrOver(c, d)
  {
    hide SelectServer;
  }

  lemma CheckoutStep(c: Call, sh: Shared, ca: Caches, o: Oracle)
    requires Sane(c, sh) && c.pc == Checkout && !c.ok
    ensures var d := Step(c, sh, ca, o).c;
            if PinOf(sh, c).Some? || o.canConnect then d == c.(pc := Start, conn := Takes(sh, c)) else NextOrOver(c, d)
  {
  }

  // The session refuses the request: a start when it is not active or has a
  // transaction, a commit or abort when none is in progress.
  predicate Refused(c: Call, sh: Shared)
    requires c.sid.Some? ==> c.sid.value < |sh.heap| && c.msg.details.Some?
  {
    c.sid.Some? &&
    var s := sh.heap[c.sid.value];
    || (c.pc == Start && c.msg.details.value.isStart && (s.state != Active || s.txn != NoTxn))
    || (c.pc == Act && c.msg.command in {Commit, Abort} && s.txn != InProgress)
  }

  lemma RefusalStep(c: Call, sh: Shared, ca: Caches, o: Oracle)
    requires Sane(c, sh) && c.pc in {Start, Act} && !c.ok
    ensures var d := Step(c, sh, ca, o).c;
            if Refused(c, sh) then Decided(d, false) else d.pc == (if c.pc == Start then Act else Send)
  {
    hide DropSession;
  }

  lemma NotOkBefore(c: Call, sh: Shared)
    requires Sound(c, sh) && c.pc in {Select, Checkout, Start, Act}
    ensures !c.ok
  {
  }

  // The request was decided, without success, when it had been written so many times.
  predicate FailedFor(ls: seq<Label>, id: nat, sends: nat)
    requires Legal(INIT, ls)
  {
    Settled(Exec(INIT, ls), id, sends, false) && SendCount(Exec(INIT, ls).sh.trace, id) == sends
  }

  lemma SendsKept(c: Call, sh: Shared, ca: Caches, o: Oracle)
    requires Sane(c, sh) && c.pc in {Select, Checkout, Start, Act}
    ensures Step(c, sh, ca, o).c.sends == c.sends
  {
    hide SelectServer, DropSession;
  }

  lemma FailsForGood(ls: seq<Label>, k: nat, id: nat)
    requires Legal(INIT, ls) && k < |ls| && id in At(ls, k).calls && id in At(ls, k + 1).calls
    requires Decided(At(ls, k + 1).calls[id], false) && At(ls, k + 1).calls[id].sends == At(ls, k).calls[id].sends
    ensures FailedFor(ls, id, At(ls, k).calls[id].sends)
  {
    hide Legal, Exec, SendCount, Decided, CallOk;
    AtEnds(ls);
    AtFree(ls, k + 1);
    StaysSettled(ls, k + 1, |ls|, id, At(ls, k).calls[id].sends, false);
    SendsCounted(ls, id);
  }

  /**
   Without a server a request of a session fails for good: it is never written again
   and returns without success. Any other is tried again up to the fourth attempt.
   With one it goes on with just that server.
   */
  lemma SelectionDecides(ls: seq<Label>, k: nat, id: nat)
    requires Legal(INIT, ls) && k < |ls| && Makes(ls, k, id, Select)
    ensures id in At(ls, k + 1).calls
    ensures var m := At(ls, k);
            var c, d, s := m.calls[id], At(ls, k + 1).calls[id], Chooses(m, m.calls[id], ls[k].o);
            if s.Some? then d == c.(pc := Checkout, server := s.value)
            else if c.msg.details.Some? || c.attempt >= 3 then FailedFor(ls, id, c.sends)
            else d.pc == Select && d.attempt == c.attempt + 1
  {
    hide Legal, Exec, Step, Chooses, Decided, FailedFor, FreeInv;
    AtStep(ls, k);
    FreeParts(ls, k, id);
    var m := At(ls, k);
    var c := m.calls[id];
    NotOkBefore(c, m.sh);
    SendsKept(c, m.sh, CachesOf(m, c.inst), ls[k].o);
    SidIffDetails(c, m.sh);
    if Decided(At(ls, k + 1).calls[id], false) { FailsForGood(ls, k, id); }
    SelectStep(m, id, ls[k].o);
  }

  /**
   Without a connection, pinned or new, a request is tried again up to the fourth
   attempt, and then fails for good. With one it goes on with just that connection.
   */
  lemma CheckoutDecides(ls: seq<Label>, k: nat, id: nat)
    requires Legal(INIT, ls) && k < |ls| && Makes(ls, k, id, Checkout)
    ensures id in At(ls, k + 1).calls
    ensures var m := At(ls, k);
            var c, d := m.calls[id], At(ls, k + 1).calls[id];
            if PinOf(m.sh, c).Some? || ls[k].o.canConnect then d == c.(pc := Start, conn := Takes(m.sh, c))
            else if c.attempt >= 3 then FailedFor(ls, id, c.sends)
            else d.pc == Select && d.attempt == c.attempt + 1
  {
    hide Legal, Exec, Step, Takes, PinOf, Decided, FailedFor, FreeInv;
    AtStep(ls, k);
    FreeParts(ls, k, id);
    var m := At(ls, k);
    var c := m.calls[id];
    NotOkBefore(c, m.sh);
    SendsKept(c, m.sh, CachesOf(m, c.inst), ls[k].o);
    if Decided(At(ls, k + 1).calls[id], false) { FailsForGood(ls, k, id); }
    CheckoutStep(c, m.sh, CachesOf(m, c.inst), ls[k].o);
  }

  /**
   A request that its session refuses fails for good; one that it does not goes on.
   */
  lemma RefusalDecides(ls: seq<Label>, k: nat, id: nat)
    requires Legal(INIT, ls) && k < |ls| && (Makes(ls, k, id, Start) || Makes(ls, k, id, Act))
    ensures id in At(ls, k + 1).calls
    ensures var m := At(ls, k);
            var c, d := m.calls[id], At(ls, k + 1).calls[id];
            && (c.sid.Some? ==> c.sid.value < |m.sh.heap| && c.msg.details.Some?)
            && if Refused(c, m.sh) then FailedFor(ls, id, c.sends) else d.pc == (if c.pc == Start then Act else Send)
  {
    hide Legal, Exec, Step, Decided, FailedFor, Refused, FreeInv;
    AtStep(ls, k);
    FreeParts(ls, k, id);
    var m := At(ls, k);
    var c := m.calls[id];
    NotOkBefore(c, m.sh);
    SendsKept(c, m.sh, CachesOf(m, c.inst), ls[k].o);
    SidIffDetails(c, m.sh);
    if Decided(At(ls, k + 1).calls[id], false) { FailsForGood(ls, k, id); }
    RefusalStep(c, m.sh, CachesOf(m, c.inst), ls[k].o);
  }

  lemma SidIffDetails(c: Call, sh: Shared)
    requires Sound(c, sh) && c.pc in {Select, Checkout, Start, Act}
    ensures c.sid.Some? <==> c.msg.details.Some?
    ensures c.sid.Some? ==> c.sid.value < |sh.heap|
  {
  }

  // ---------------------------------------------------------- four writes

  // A request without a session at its loop's start, after as many writes as retries.
  predicate Looping(ls: seq<Label>, msg: Message, c: Call)
    requires Legal(INIT, ls)
  {
    && c.msg == msg && c.inst == 0 && c.pc == Select && c.sid.None? && c.sends == c.attempt && !c.ok
    && Stage(INIT, ls, map[], 0, Config(c, Exec(INIT, ls).sh, NewCaches())) && Sane(c, Exec(INIT, ls).sh)
  }

  // One attempt that ends in an error, from the selection to the write.
  lemma OneAttempt(ls: seq<Label>, msg: Message, c: Call, o: Oracle) returns (ns: seq<Label>, r: Config)
    requires msg.cursorId == 0 && msg.details.None? && Legal(INIT, ls) && Looping(ls, msg, c)
    requires o.hasProcessor && o.canConnect && o.topology.Some?
    ensures Stage(INIT, ns, map[], 0, r) && r.ca == NewCaches() && Sane(r.c, r.sh)
    ensures r.c.pc == Send && r.c.msg == msg && r.c.inst == 0 && r.c.sid.None? && !r.c.ok
    ensures r.c.sends == c.sends && r.c.attempt == c.attempt
  {
    hide Stage, SelectServer;
    var d, sh, ca := c, Exec(INIT, ls).sh, NewCaches();
    SelectsTopology(msg, o);
    StageStep(INIT, ls, map[], 0, o, Config(d, sh, ca));
    ns := ls + [Advance(0, o)];
    d := d.(pc := Checkout, server := o.topology.value);
    StageStep(INIT, ns, map[], 0, o, Config(d, sh, ca));
    ns := ns + [Advance(0, o)];
    d := d.(pc := Start, conn := |sh.conns|);
    sh := sh.(conns := sh.conns + [ConnRec(d.id, None, d.server, 0, false)]);
    StageStep(INIT, ns, map[], 0, o, Config(d, sh, ca));
    ns := ns + [Advance(0, o)];
    d := d.(pc := Act);
    StageStep(INIT, ns, map[], 0, o, Config(d, sh, ca));
    ns := ns + [Advance(0, o)];
    d := Defer(d, [Close(d.conn, false)]);
    r := Config(d, sh, ca);
  }

  lemma {:induction false} LoopsOn(msg: Message, o: Oracle, n: nat) returns (ls: seq<Label>, c: Call)
    requires msg.cursorId == 0 && msg.details.None? && n <= 3
    requires o.hasProcessor && o.canConnect && o.topology.Some? && o.wire == WireError(true)
    ensures Legal(INIT, ls) && Looping(ls, msg, c) && c.attempt == n
  {
    if n == 0 {
      ls := [Arrive(0, msg)];
      c := Begin(0, 0, msg);
      StageArrive(INIT, 0, msg);
      StageStep(INIT, ls, map[], 0, o, Config(c, INIT.sh, NewCaches()));
      ls, c := ls + [Advance(0, o)], c.(pc := Select);
    } else {
      var r;
      ls, c := LoopsOn(msg, o, n - 1);
      ls, r := OneAttempt(ls, msg, c, o);
      StageStep(INIT, ls, map[], 0, o, r);
      ls, c := ls + [Advance(0, o)], Step(r.c, r.sh, r.ca, o).c;
    }
  }

  /**
   A request without a session whose every write meets a retryable error is written
   four times, and then returns the error.
   */
  lemma FourWrites(msg: Message, o: Oracle) returns (ls: seq<Label>)
    requires msg.cursorId == 0 && msg.details.None?
    requires o.hasProcessor && o.canConnect && o.topology.Some? && o.wire == WireError(true)
    ensures Legal(INIT, ls) && Settled(Exec(INIT, ls), 0, 4, false) && SendCount(Exec(INIT, ls).sh.trace, 0) == 4
  {
    hide Stage, SendCount;
    var c, r;
    ls, c := LoopsOn(msg, o, 3);
    ls, r := OneAttempt(ls, msg, c, o);
    StageStep(INIT, ls, map[], 0, o, r);
    ls := ls + [Advance(0, o)];
    StageIs(INIT, ls, map[], 0, Step(r.c, r.sh, r.ca, o));
    SendsCounted(ls, 0);
    RunIsFree(ls);
  }
}

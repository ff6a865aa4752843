/** Every step of a round trip keeps LocalInv and stays within what it owns. */
module PinningSteps {
  import opened Common
  import opened Keys
  import opened Protocol
  import opened Pinning

  // What a step of call c (as it is afterwards) may change in shared state.
  predicate Frame(c: Call, sh: Shared, sh': Shared) {
    && |sh.heap| <= |sh'.heap|
    && (forall i :: 0 <= i < |sh.heap| && c.sid != Some(i) ==> sh'.heap[i] == sh.heap[i])
    && (forall i :: 0 <= i < |sh.heap| ==> sh'.heap[i].id == sh.heap[i].id && sh'.heap[i].lsid == sh.heap[i].lsid)
    && |sh.conns| <= |sh'.conns|
    && (forall x :: 0 <= x < |sh.conns| && !Owned(c.sid, c.id, sh.conns[x]) ==> sh'.conns[x] == sh.conns[x])
    && (forall x :: 0 <= x < |sh.conns| ==> 
          && sh'.conns[x].call == sh.conns[x].call && sh'.conns[x].sid == sh.conns[x].sid
          && sh'.conns[x].closes >= sh.conns[x].closes)
    && (forall x :: |sh.conns| <= x < |sh'.conns| ==> sh'.conns[x].call == c.id && sh'.conns[x].sid == c.sid)
  }

  // --------------------------------------------------------- counting opens

  lemma {:induction false} OpenedOfUpdate(conns: seq<ConnRec>, x: nat, r: ConnRec, call: nat)
    requires x < |conns| && r.call == conns[x].call
    ensures Opened(conns[x := r], call) == Opened(conns, call)
  {
    var n := |conns| - 1;
    if x < n {
      OpenedOfUpdate(conns[..n], x, r, call);
      assert conns[x := r][..n] == conns[..n][x := r];
    } else {
      assert conns[x := r][..n] == conns[..n];
    }
  }

  lemma OpenedOfAppend(conns: seq<ConnRec>, r: ConnRec, call: nat)
    ensures Opened(conns + [r], call) == Opened(conns, call) + if r.call == call then 1 else 0
  {
    assert (conns + [r])[..|conns|] == conns;
  }

  // ------------------------------------------------------- closing and held

  lemma ClosingOfAppend(ds: seq<Deferred>, d: Deferred, x: Conn)
    ensures Closing(ds + [d], x) <==> Closing(ds, x) || (d.Close? && d.conn == x)
  {
    var es := ds + [d];
    if Closing(ds, x) {
      var i :| 0 <= i < |ds| && ds[i].Close? && ds[i].conn == x;
      assert es[i] == ds[i];
    }
    assert es[|ds|] == d;
  }

  lemma ClosingOfPop(ds: seq<Deferred>, x: Conn)
    requires ds != []
    ensures Closing(ds, x) <==>
              Closing(ds[..|ds| - 1], x) || (ds[|ds| - 1].Close? && ds[|ds| - 1].conn == x)
  {
    assert ds == ds[..|ds| - 1] + [ds[|ds| - 1]];
    ClosingOfAppend(ds[..|ds| - 1], ds[|ds| - 1], x);
  }

  // ------------------------------------------------------------------ steps

  lemma LogKeeps(c: Call, sh: Shared, e: Event)
    requires LocalInv(c, sh)
    ensures LocalInv(c, Log(sh, e))
  {
  }

  // Moving on without touching the deferred actions holds the same connections.
  lemma SameHeld(c: Call, c': Call)
    requires c'.defers == c.defers && c'.conn == c.conn
    requires c.pc in {Start, Act} <==> c'.pc in {Start, Act}
    ensures forall x :: HeldBy(c', x) <==> HeldBy(c, x)
  {
  }

  lemma GiveUpKeeps(c: Call, sh: Shared)
    requires LocalInv(c, sh) && c.pc in {Select, Checkout, Send}
    ensures LocalInv(Return(c, false), sh)
  {
    SameHeld(c, Return(c, false));
  }

  lemma AgainKeeps(c: Call, sh: Shared)
    requires LocalInv(c, sh) && c.pc in {Select, Checkout, Send} && c.attempt < MAX_RETRIES
    ensures LocalInv(c.(pc := Select, attempt := c.attempt + 1), sh)
  {
    SameHeld(c, c.(pc := Select, attempt := c.attempt + 1));
  }

  lemma RetryKeeps(c: Call, sh: Shared)
    requires LocalInv(c, sh) && c.pc in {Select, Checkout, Send}
    ensures LocalInv(Retry(c), sh)
  {
    if c.attempt < MAX_RETRIES { AgainKeeps(c, sh); } else { GiveUpKeeps(c, sh); }
  }

  lemma ChosenKeeps(c: Call, sh: Shared, server: Server)
    requires LocalInv(c, sh) && c.pc == Select && Sane(c, sh)
    requires c.sid.Some? && sh.heap[c.sid.value].txn == InProgress ==> sh.heap[c.sid.value].server == Some(server)
    ensures LocalInv(c.(pc := Checkout, server := server), sh)
  {
    SameHeld(c, c.(pc := Checkout, server := server));
  }

  lemma SelectKeeps(c: Call, sh: Shared, ca: Caches, o: Oracle)
    requires LocalInv(c, sh) && c.pc == Select && Sane(c, sh)
    ensures var r := DoSelect(c, sh, ca, o); LocalInv(r.c, r.sh) && r.sh == sh
  {
    var r := DoSelect(c, sh, ca, o);
    if r.c.pc == Checkout {
      ChosenKeeps(c, sh, r.c.server);
    } else if c.sid.Some? {
      GiveUpKeeps(c, sh);
    } else {
      RetryKeeps(c, sh);
    }
  }

  lemma ReuseKeeps(c: Call, sh: Shared)
    requires LocalInv(c, sh) && c.pc == Checkout && c.sid.Some? && Sane(c, sh)
    requires GetPinnedConnection(sh.heap[c.sid.value]).Some?
    ensures LocalInv(c.(pc := Start, conn := sh.heap[c.sid.value].conn.value), sh)
  {
    var p := sh.heap[c.sid.value].conn.value;
    forall x ensures HeldBy(c.(pc := Start, conn := p), x) <==> HeldBy(c, x) || x == p {}
  }

  lemma ConnectKeeps(c: Call, sh: Shared)
    requires LocalInv(c, sh) && c.pc == Checkout && Sane(c, sh)
    requires c.sid.Some? ==> GetPinnedConnection(sh.heap[c.sid.value]).None?
    ensures var c' := c.(pc := Start, conn := |sh.conns|);
            var sh' := sh.(conns := sh.conns + [ConnRec(c.id, c.sid, c.server, 0, false)]);
            LocalInv(c', sh') && Frame(c', sh, sh')
  {
    var c' := c.(pc := Start, conn := |sh.conns|);
    OpenedOfAppend(sh.conns, ConnRec(c.id, c.sid, c.server, 0, false), c.id);
    assert c.sid.Some? ==> Loose(sh.heap[c.sid.value]);
    assert forall x :: 0 <= x < |sh.conns| ==> (HeldBy(c', x) <==> HeldBy(c, x));
  }

  lemma CheckoutKeeps(c: Call, sh: Shared, ca: Caches, o: Oracle)
    requires LocalInv(c, sh) && c.pc == Checkout && Sane(c, sh)
    ensures var r := DoCheckout(c, sh, ca, o); LocalInv(r.c, r.sh) && Frame(r.c, sh, r.sh)
  {
    if c.sid.Some? && GetPinnedConnection(sh.heap[c.sid.value]).Some? {
      ReuseKeeps(c, sh);
    } else if o.canConnect {
      ConnectKeeps(c, sh);
    } else {
      RetryKeeps(c, sh);
    }
  }

  // Refusing a request on the pinned connection changes nothing.
  lemma RejectPinnedKeeps(c: Call, sh: Shared)
    requires LocalInv(c, sh) && c.pc in {Start, Act} && c.sid.Some? && Sane(c, sh)
    requires sh.heap[c.sid.value].conn == Some(c.conn)
    ensures LocalInv(Return(c, false), sh)
  {
    forall x ensures HeldBy(c, x) <==> x == c.conn || HeldBy(Return(c, false), x) {}
  }

  // Leaving a connection the session does not pin turns it from live to leaked.
  lemma RejectLooseKeeps(c: Call, sh: Shared)
    requires LocalInv(c, sh) && c.pc in {Start, Act} && c.sid.Some? && Sane(c, sh)
    requires sh.heap[c.sid.value].conn != Some(c.conn)
    ensures LocalInv(Return(c, false), LeakConn(sh, c.conn)) && Frame(c, sh, LeakConn(sh, c.conn))
  {
    var c', sh' := Return(c, false), LeakConn(sh, c.conn);
    OpenedOfUpdate(sh.conns, c.conn, sh'.conns[c.conn], c.id);
    assert Loose(sh.heap[c.sid.value]) && Temporary(c);
    forall x ensures HeldBy(c, x) <==> x == c.conn || HeldBy(c', x) {}
  }

  lemma RejectKeeps(c: Call, sh: Shared, ca: Caches)
    requires LocalInv(c, sh) && c.pc in {Start, Act} && c.sid.Some? && Sane(c, sh)
    ensures var r := Reject(c, sh, ca); LocalInv(r.c, r.sh) && Frame(r.c, sh, r.sh)
  {
    if sh.heap[c.sid.value].conn == Some(c.conn) {
      RejectPinnedKeeps(c, sh);
    } else {
      RejectLooseKeeps(c, sh);
    }
  }

  lemma StartAcceptedKeeps(c: Call, sh: Shared, ca: Caches, o: Oracle)
    requires LocalInv(c, sh) && c.pc == Start && Sane(c, sh)
    requires c.sid.Some? && c.msg.details.value.isStart
    requires sh.heap[c.sid.value].state == Active && sh.heap[c.sid.value].txn == NoTxn
    ensures var r := DoStart(c, sh, ca, o); LocalInv(r.c, r.sh) && Frame(r.c, sh, r.sh)
  {
    var r := DoStart(c, sh, ca, o);
    var s, s' := sh.heap[c.sid.value], r.sh.heap[c.sid.value];
    assert Loose(s) && Temporary(c) && Pinned(s') && r.sh.conns == sh.conns;
    assert c.sends == 0;
    forall x ensures HeldBy(r.c, x) <==> HeldBy(c, x) {}
  }

  lemma StartKeeps(c: Call, sh: Shared, ca: Caches, o: Oracle)
    requires LocalInv(c, sh) && c.pc == Start && Sane(c, sh)
    ensures var r := DoStart(c, sh, ca, o); LocalInv(r.c, r.sh) && Frame(r.c, sh, r.sh)
  {
    var r := DoStart(c, sh, ca, o);
    if c.sid.Some? && c.msg.details.value.isStart {
      var s := sh.heap[c.sid.value];
      if s.state == Active && s.txn == NoTxn {
        StartAcceptedKeeps(c, sh, ca, o);
      } else {
        RejectKeeps(c, sh, ca);
      }
    } else {
      forall x ensures HeldBy(r.c, x) <==> HeldBy(c, x) {}
    }
  }

  // ------------------------------------------------------------ acting on it

  lemma DeferKeepsHeld(c: Call, ds: seq<Deferred>, x: Conn)
    requires c.pc == Act && ds in {[Close(c.conn, false)], [Unpin, Close(c.conn, true)], [Close(c.conn, true)]}
    ensures HeldBy(Defer(c, ds), x) <==> HeldBy(c, x)
    ensures x == c.conn ==> Closing(Defer(c, ds).defers, x)
  {
    if ds == [Unpin, Close(c.conn, true)] {
      assert c.defers + ds == (c.defers + [Unpin]) + [Close(c.conn, true)];
      ClosingOfAppend(c.defers + [Unpin], Close(c.conn, true), x);
      ClosingOfAppend(c.defers, Unpin, x);
    } else {
      ClosingOfAppend(c.defers, ds[0], x);
    }
  }

  // A commit or abort that the session accepts.
  lemma EndingKeeps(c: Call, sh: Shared, s': Session)
    requires LocalInv(c, sh) && c.pc == Act && c.sid.Some? && Sane(c, sh)
    requires c.msg.command in {Commit, Abort} && sh.heap[c.sid.value].txn == InProgress
    requires s'.txn in {Committed, Aborted}
    requires s' == sh.heap[c.sid.value].(txn := s'.txn, lastActivity := s'.lastActivity)
    ensures var c' := Defer(c, [Unpin, Close(c.conn, true)]).(accepted := Some(c.conn));
            var sh' := Put(sh, c.sid.value, s');
            LocalInv(c', sh') && Frame(c', sh, sh')
  {
    var c' := Defer(c, [Unpin, Close(c.conn, true)]).(accepted := Some(c.conn));
    assert c.defers == [] && c.sends == 0;
    assert Ending(s') && s'.conn == Some(c.conn);
    forall x ensures HeldBy(c', x) <==> HeldBy(c, x) {
      DeferKeepsHeld(c, [Unpin, Close(c.conn, true)], x);
    }
    DeferKeepsHeld(c, [Unpin, Close(c.conn, true)], c.conn);
  }

  // Ending the session lets go of its pins; the close is deferred.
  lemma EndSessionKeeps(c: Call, sh: Shared, now: int)
    requires LocalInv(c, sh) && c.pc == Act && c.sid.Some? && Sane(c, sh) && c.msg.command == EndSessions
    ensures var c' := Defer(c, [Close(c.conn, false)]);
            var sh' := DropSession(sh, c.sid.value, now);
            LocalInv(c', sh') && Frame(c', sh, sh')
  {
    var c' := Defer(c, [Close(c.conn, false)]);
    var sh' := DropSession(sh, c.sid.value, now);
    var s, s' := sh.heap[c.sid.value], sh'.heap[c.sid.value];
    forall x ensures HeldBy(c', x) <==> HeldBy(c, x) {
      DeferKeepsHeld(c, [Close(c.conn, false)], x);
    }
    DeferKeepsHeld(c, [Close(c.conn, false)], c.conn);
    assert Loose(s') && sh'.conns == sh.conns;
  }

  lemma OtherKeeps(c: Call, sh: Shared)
    requires LocalInv(c, sh) && c.pc == Act && Sane(c, sh)
    requires c.sid.None? || c.msg.command == Other
    ensures LocalInv(Defer(c, [Close(c.conn, false)]), sh)
  {
    forall x ensures HeldBy(Defer(c, [Close(c.conn, false)]), x) <==> HeldBy(c, x) {
      DeferKeepsHeld(c, [Close(c.conn, false)], x);
    }
    DeferKeepsHeld(c, [Close(c.conn, false)], c.conn);
  }

  lemma ActKeeps(c: Call, sh: Shared, ca: Caches, o: Oracle)
    requires LocalInv(c, sh) && c.pc == Act && Sane(c, sh)
    ensures var r := DoAct(c, sh, ca, o); LocalInv(r.c, r.sh) && Frame(r.c, sh, r.sh)
  {
    if c.sid.None? || c.msg.command == Other {
      OtherKeeps(c, sh);
    } else if c.msg.command == EndSessions {
      EndSessionKeeps(c, sh, o.now);
    } else if sh.heap[c.sid.value].txn == InProgress {
      EndingKeeps(c, sh, DoAct(c, sh, ca, o).sh.heap[c.sid.value]);
    } else {
      RejectKeeps(c, sh, ca);
    }
  }

  // ------------------------------------------------------ wire and the rest

  lemma SentAgainKeeps(c: Call, sh: Shared)
    requires LocalInv(c, sh) && c.pc == Send && c.attempt < MAX_RETRIES
    ensures LocalInv(c.(sends := c.sends + 1, pc := Select, attempt := c.attempt + 1), sh)
  {
    SameHeld(c, c.(sends := c.sends + 1, pc := Select, attempt := c.attempt + 1));
  }

  lemma SentKeeps(c: Call, sh: Shared, pc: PC, ok: bool)
    requires LocalInv(c, sh) && c.pc == Send && (pc == Unwind || (pc.CacheCursor? && !ok))
    ensures LocalInv(c.(sends := c.sends + 1, pc := pc, ok := ok), sh)
  {
    SameHeld(c, c.(sends := c.sends + 1, pc := pc, ok := ok));
  }

  lemma SendShape(c: Call, sh: Shared, ca: Caches, o: Oracle)
    requires Sane(c, sh) && c.pc == Send && o.hasProcessor
    ensures var r := DoSend(c, sh, ca, o);
            && r.sh == Log(sh, Sent(c.id, c.sid, c.server, c.conn))
            && (|| (c.attempt < MAX_RETRIES && r.c == c.(sends := c.sends + 1, pc := Select, attempt := c.attempt + 1))
                || ((r.c.pc == Unwind || (r.c.pc.CacheCursor? && r.c.ok == c.ok))
                    && r.c == c.(sends := c.sends + 1, pc := r.c.pc, ok := r.c.ok)))
  {
  }

  lemma SendKeeps(c: Call, sh: Shared, ca: Caches, o: Oracle)
    requires LocalInv(c, sh) && c.pc == Send && Sane(c, sh)
    ensures var r := DoSend(c, sh, ca, o); LocalInv(r.c, r.sh) && Frame(r.c, sh, r.sh)
  {
    if !o.hasProcessor {
      RetryKeeps(c, sh);
    } else {
      var r := DoSend(c, sh, ca, o);
      SendShape(c, sh, ca, o);
      if r.c.pc == Select {
        SentAgainKeeps(c, sh);
      } else {
        SentKeeps(c, sh, r.c.pc, r.c.ok);
      }
      LogKeeps(r.c, sh, Sent(c.id, c.sid, c.server, c.conn));
    }
  }

  lemma RepliedKeeps(c: Call, sh: Shared)
    requires LocalInv(c, sh) && (c.pc.CacheCursor? || c.pc == CacheTxn)
    ensures c.pc.CacheCursor? ==> LocalInv(c.(pc := CacheTxn), sh)
    ensures c.pc == CacheTxn ==> LocalInv(Return(c, true), sh)
  {
    SameHeld(c, c.(pc := CacheTxn));
    SameHeld(c, Return(c, true));
  }

  lemma CacheKeeps(c: Call, sh: Shared, ca: Caches, o: Oracle)
    requires LocalInv(c, sh) && (c.pc.CacheCursor? || c.pc == CacheTxn) && Sane(c, sh)
    ensures var r := Step(c, sh, ca, o); LocalInv(r.c, r.sh) && Frame(r.c, sh, r.sh)
  {
    RepliedKeeps(c, sh);
  }

  lemma UnpinKeeps(c: Call, sh: Shared, ca: Caches, o: Oracle)
    requires LocalInv(c, sh) && c.pc == Unwind && Sane(c, sh)
    requires c.defers != [] && c.defers[|c.defers| - 1] == Unpin
    ensures var r := DoUnwind(c, sh, ca, o); LocalInv(r.c, r.sh) && Frame(r.c, sh, r.sh)
  {
    var r := DoUnwind(c, sh, ca, o);
    assert c.defers == [Unpin] && r.sh.heap == sh.heap;
    forall x ensures HeldBy(r.c, x) <==> HeldBy(c, x) {
      ClosingOfPop(c.defers, x);
    }
  }

  // A pending ending: the session is the call's, ending, and pins the connection.
  lemma EndingShape(c: Call, sh: Shared)
    requires LocalInv(c, sh) && c.pc == Unwind
    requires c.defers != [] && c.defers[|c.defers| - 1].Close? && c.defers[|c.defers| - 1].ends
    ensures c.sid.Some? && c.sid.value < |sh.heap| && PhaseEnding(c, sh.heap[c.sid.value])
    ensures OwnsConn(c, sh, c.defers[1].conn)
    ensures forall x :: HeldBy(c, x) <==> x == c.defers[1].conn
  {
  }

  lemma CloseEndingFrame(c: Call, sh: Shared, ca: Caches, o: Oracle)
    requires LocalInv(c, sh) && c.pc == Unwind && Sane(c, sh)
    requires c.defers != [] && c.defers[|c.defers| - 1].Close? && c.defers[|c.defers| - 1].ends
    ensures var r := DoUnwind(c, sh, ca, o); Frame(r.c, sh, r.sh)
  {
    hide LocalInv;
    EndingShape(c, sh);
  }

  // The close of an accepted commit or abort, and the reset after it.
  lemma CloseEndingKeeps(c: Call, sh: Shared, ca: Caches, o: Oracle)
    requires LocalInv(c, sh) && c.pc == Unwind && Sane(c, sh)
    requires c.defers != [] && c.defers[|c.defers| - 1].Close? && c.defers[|c.defers| - 1].ends
    ensures var r := DoUnwind(c, sh, ca, o); LocalInv(r.c, r.sh) && Frame(r.c, sh, r.sh)
  {
    hide Frame, Opened, HeldBy;
    CloseEndingFrame(c, sh, ca, o);
    EndingShape(c, sh);
    var r := DoUnwind(c, sh, ca, o);
    var p := c.defers[1].conn;
    assert r.c.defers == [Unpin];
    OpenedOfUpdate(sh.conns, p, r.sh.conns[p], c.id);
    NothingHeld(r.c);
  }

  lemma NothingHeld(c: Call)
    requires c.pc == Unwind && c.defers == [Unpin]
    ensures forall x :: !HeldBy(c, x)
  {
  }

  // Closing this call's own connection turns it from live to closed.
  lemma ReallyCloseKeeps(c: Call, sh: Shared)
    requires LocalInv(c, sh) && c.pc == Unwind && Sane(c, sh)
    requires c.defers != [] && c.defers[|c.defers| - 1].Close? && !c.defers[|c.defers| - 1].ends
    requires c.sid.None? || sh.heap[c.sid.value].txn != InProgress
    ensures var c' := c.(defers := c.defers[..|c.defers| - 1]);
            var sh' := CloseConn(sh, c.defers[|c.defers| - 1].conn);
            LocalInv(c', sh') && Frame(c', sh, sh')
  {
    var p := c.defers[|c.defers| - 1].conn;
    var c' := c.(defers := c.defers[..|c.defers| - 1]);
    OpenedOfUpdate(sh.conns, p, CloseConn(sh, p).conns[p], c.id);
    assert Temporary(c);
    forall x ensures HeldBy(c, x) <==> HeldBy(c', x) || x == p {
      ClosingOfPop(c.defers, x);
    }
    assert !HeldBy(c', p);
  }

  // The deferred close of a pinned connection does nothing.
  lemma SkipCloseKeeps(c: Call, sh: Shared)
    requires LocalInv(c, sh) && c.pc == Unwind && Sane(c, sh)
    requires c.defers != [] && c.defers[|c.defers| - 1].Close?
    requires c.sid.Some? && sh.heap[c.sid.value].txn == InProgress
    ensures LocalInv(c.(defers := c.defers[..|c.defers| - 1]), sh)
  {
    var c' := c.(defers := c.defers[..|c.defers| - 1]);
    forall x ensures HeldBy(c, x) <==> HeldBy(c', x) || x == sh.heap[c.sid.value].conn.value {
      ClosingOfPop(c.defers, x);
    }
  }

  lemma UnwindKeeps(c: Call, sh: Shared, ca: Caches, o: Oracle)
    requires LocalInv(c, sh) && c.pc == Unwind && Sane(c, sh)
    ensures var r := DoUnwind(c, sh, ca, o); LocalInv(r.c, r.sh) && Frame(r.c, sh, r.sh)
  {
    if c.defers == [] {
      forall x ensures HeldBy(DoUnwind(c, sh, ca, o).c, x) <==> HeldBy(c, x) {}
    } else if c.defers[|c.defers| - 1] == Unpin {
      UnpinKeeps(c, sh, ca, o);
    } else if c.defers[|c.defers| - 1].ends {
      CloseEndingKeeps(c, sh, ca, o);
    } else if c.sid.Some? && sh.heap[c.sid.value].txn == InProgress {
      SkipCloseKeeps(c, sh);
    } else {
      ReallyCloseKeeps(c, sh);
    }
  }

  lemma StepKeeps(c: Call, sh: Shared, ca: Caches, o: Oracle)
    requires LocalInv(c, sh) && c.pc !in {Lookup, Create, Done} && Sane(c, sh)
    ensures var r := Step(c, sh, ca, o); LocalInv(r.c, r.sh) && Frame(r.c, sh, r.sh)
  {
    match c.pc
    case Select => SelectKeeps(c, sh, ca, o);
    case Checkout => CheckoutKeeps(c, sh, ca, o);
    case Start => StartKeeps(c, sh, ca, o);
    case Act => ActKeeps(c, sh, ca, o);
    case Send => SendKeeps(c, sh, ca, o);
    case CacheCursor(_) => CacheKeeps(c, sh, ca, o);
    case CacheTxn => CacheKeeps(c, sh, ca, o);
    case Unwind => UnwindKeeps(c, sh, ca, o);
  }

  // ------------------------------------------------------- binding a session

  // A session that no call in flight is working on.
  predicate IdleInv(sh: Shared, sid: nat) {
    sid < |sh.heap| ==>
      var s := sh.heap[sid];
      && (Loose(s) || Pinned(s))
      && (s.conn.Some? ==> s.conn.value < |sh.conns| && sh.conns[s.conn.value].sid == Some(sid))
      && (forall x :: 0 <= x < |sh.conns| && sh.conns[x].sid == Some(sid) ==>
            Status(sh.conns[x], s.conn == Some(x)))
  }

  predicate TableInv(sh: Shared) {
    forall k :: k in sh.table ==>
      sh.table[k] < |sh.heap| && sh.heap[sh.table[k]].id == k && sh.heap[sh.table[k]].state == Active
  }

  predicate HeapInv(sh: Shared) {
    forall i :: 0 <= i < |sh.heap| ==> sh.heap[i].id == Base64(sh.heap[i].lsid)
  }

  lemma BeginKeeps(id: nat, inst: nat, msg: Message, sh: Shared)
    requires TableInv(sh)
    requires forall x :: 0 <= x < |sh.conns| ==> sh.conns[x].call < id
    ensures LocalInv(Begin(id, inst, msg), sh)
  {
    NothingOpened(sh.conns, id);
  }

  lemma {:induction false} NothingOpened(conns: seq<ConnRec>, id: nat)
    requires forall x :: 0 <= x < |conns| ==> conns[x].call < id
    ensures Opened(conns, id) == 0
  {
    if conns != [] {
      NothingOpened(conns[..|conns| - 1], id);
    }
  }

  lemma LookupKeeps(c: Call, sh: Shared, ca: Caches, o: Oracle)
    requires LocalInv(c, sh) && c.pc == Lookup && Sane(c, sh) && TableInv(sh) && HeapInv(sh)
    requires c.msg.details.Some? && Base64(c.msg.details.value.lsid) in sh.table
    requires IdleInv(sh, sh.table[Base64(c.msg.details.value.lsid)])
    ensures var r := DoLookup(c, sh, ca, o);
            LocalInv(r.c, r.sh) && Frame(r.c, sh, r.sh) && r.c.sid == Some(sh.table[Base64(c.msg.details.value.lsid)])
  {
    hide Base64;
    var key := Base64(c.msg.details.value.lsid);
    var sid := sh.table[key];
    Base64Injective(sh.heap[sid].lsid, c.msg.details.value.lsid);
    var r := DoLookup(c, sh, ca, o);
    assert r.sh.conns == sh.conns;
    assert forall x :: !HeldBy(r.c, x);
    assert Loose(r.sh.heap[sid]) || Pinned(r.sh.heap[sid]);
  }

  lemma PassLookupKeeps(c: Call, sh: Shared, pc: PC)
    requires LocalInv(c, sh) && c.pc == Lookup
    requires pc == (if c.msg.details.None? then Select else Create)
    ensures LocalInv(c.(pc := pc), sh)
  {
    SameHeld(c, c.(pc := pc));
  }

  lemma CreateKeeps(c: Call, sh: Shared, ca: Caches, o: Oracle)
    requires LocalInv(c, sh) && c.pc == Create && Sane(c, sh) && TableInv(sh)
    requires forall x :: 0 <= x < |sh.conns| && sh.conns[x].sid.Some? ==> sh.conns[x].sid.value < |sh.heap|
    ensures var r := DoCreate(c, sh, ca, o); LocalInv(r.c, r.sh) && Frame(r.c, sh, r.sh) && r.c.sid == Some(|sh.heap|)
  {
    var r := DoCreate(c, sh, ca, o);
    assert forall x :: !HeldBy(r.c, x);
    assert Loose(r.sh.heap[|sh.heap|]);
  }

  // -------------------------------------------------- what others do not see

  // A step of call c leaves the invariant of every other call alone.
  lemma FrameKeepsOther(d: Call, c: Call, sh: Shared, sh': Shared)
    requires LocalInv(d, sh) && Frame(c, sh, sh') && TableInv(sh')
    requires d.id != c.id && (d.sid.Some? ==> d.sid != c.sid)
    requires forall x :: |sh.conns| <= x < |sh'.conns| ==> sh'.conns[x].call != d.id
    ensures LocalInv(d, sh')
  {
    forall x | 0 <= x < |sh.conns|
      ensures Owned(d.sid, d.id, sh'.conns[x]) <==> Owned(d.sid, d.id, sh.conns[x])
      ensures Owned(d.sid, d.id, sh.conns[x]) ==> sh'.conns[x] == sh.conns[x]
    {}
    assert forall x :: |sh.conns| <= x < |sh'.conns| ==> !Owned(d.sid, d.id, sh'.conns[x]);
    OpenedByOthers(sh.conns, sh'.conns, d.id);
  }

  lemma {:induction false} OpenedByOthers(a: seq<ConnRec>, b: seq<ConnRec>, id: nat)
    requires |a| <= |b| && forall x :: 0 <= x < |a| ==> b[x].call == a[x].call
    requires forall x :: |a| <= x < |b| ==> b[x].call != id
    ensures Opened(b, id) == Opened(a, id)
  {
    if |b| > |a| {
      OpenedByOthers(a, b[..|b| - 1], id);
    } else if a != [] {
      OpenedByOthers(a[..|a| - 1], b[..|b| - 1], id);
    }
  }

  // Nor does it disturb an idle session.
  lemma FrameKeepsIdle(sid: nat, c: Call, sh: Shared, sh': Shared)
    requires sid < |sh.heap| && IdleInv(sh, sid) && Frame(c, sh, sh') && c.sid != Some(sid)
    ensures IdleInv(sh', sid)
  {
    forall x | 0 <= x < |sh.conns| && sh.conns[x].sid == Some(sid) ensures sh'.conns[x] == sh.conns[x] {}
  }
}

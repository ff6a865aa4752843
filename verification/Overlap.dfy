/**
 What holds of every legal run, however requests of one logical session overlap:
 references stay sound, connections stay within their session, and a session
 whose commit or abort has been accepted is held by that one call until it ends.
 */
module Overlap {
  import opened Common
  import opened Keys
  import opened Protocol
  import opened Pinning
  import opened PinningSteps
  import opened Traces
  import opened Runs

  // ---------------------------------------------------------- what steps move

  // Sessions keep their names and stay ended, connections keep their owners.
  predicate Moves(sh: Shared, sh': Shared) {
    && |sh.heap| <= |sh'.heap|
    && (forall i :: 0 <= i < |sh.heap| ==>
          sh'.heap[i].lsid == sh.heap[i].lsid && (sh.heap[i].state == Ended ==> sh'.heap[i].state == Ended))
    && |sh.conns| <= |sh'.conns|
    && (forall x :: 0 <= x < |sh.conns| ==>
          sh'.conns[x].call == sh.conns[x].call && sh'.conns[x].sid == sh.conns[x].sid)
  }

  // What a session pins is a connection of its own.
  predicate PinsOwned(sh: Shared) {
    forall s :: 0 <= s < |sh.heap| && sh.heap[s].conn.Some? ==>
      sh.heap[s].conn.value < |sh.conns| && sh.conns[sh.heap[s].conn.value].sid == Some(s)
  }

  predicate Sound(c: Call, sh: Shared) {
    BindingInv(c, sh) && RefsInv(c, sh) && (c.pc == Create ==> c.msg.details.Some?)
  }

  lemma SoundIsSane(c: Call, sh: Shared)
    requires Sound(c, sh)
    ensures Sane(c, sh)
  {
  }

  // Another call's step leaves a call's references sound.
  lemma MovesKeepSound(d: Call, sh: Shared, sh': Shared)
    requires Sound(d, sh) && Moves(sh, sh') && PinsOwned(sh') && TableInv(sh')
    ensures Sound(d, sh')
  {
  }

  // A step of call c that ends in configuration r.
  predicate Good(sh: Shared, r: Config) {
    Moves(sh, r.sh) && PinsOwned(r.sh) && Frame(r.c, sh, r.sh) && Sound(r.c, r.sh)
  }

  predicate Steady(c: Call, sh: Shared) {
    Sound(c, sh) && PinsOwned(sh) && TableInv(sh) && HeapInv(sh)
  }

  // A call that moves on and keeps its deferred actions stays sound.
  lemma ElsewhereSound(c: Call, sh: Shared, d: Call)
    requires Sound(c, sh) && c.pc !in {Lookup, Create}
    requires d.sid == c.sid && d.msg == c.msg && d.id == c.id && d.defers == c.defers
    requires d.pc !in {Lookup, Create, Start, Act, Send, Done} && (d.ok ==> d.pc == Unwind)
    ensures Sound(d, sh)
  {
  }

  // One session of the caller's is replaced.
  lemma PutGood(c: Call, sh: Shared, sid: nat, s: Session)
    requires PinsOwned(sh) && sid < |sh.heap| && c.sid == Some(sid)
    requires s.id == sh.heap[sid].id && s.lsid == sh.heap[sid].lsid && s.state == sh.heap[sid].state
    requires s.conn.None? || s.conn == sh.heap[sid].conn || OwnsConn(c, sh, s.conn.value)
    ensures var sh' := Put(sh, sid, s); Moves(sh, sh') && PinsOwned(sh') && Frame(c, sh, sh')
    ensures TableInv(sh) ==> TableInv(Put(sh, sid, s))
  {
  }

  // One connection of the caller's is marked or closed.
  lemma ConnGood(c: Call, sh: Shared, x: Conn, r: ConnRec)
    requires PinsOwned(sh) && OwnsConn(c, sh, x)
    requires r.call == sh.conns[x].call && r.sid == sh.conns[x].sid && r.closes >= sh.conns[x].closes
    ensures var sh' := sh.(conns := sh.conns[x := r]); Moves(sh, sh') && PinsOwned(sh') && Frame(c, sh, sh')
  {
  }

  lemma LogGood(c: Call, sh: Shared, sh': Shared, e: Event)
    requires Moves(sh, sh') && PinsOwned(sh') && Frame(c, sh, sh')
    ensures Moves(sh, Log(sh', e)) && PinsOwned(Log(sh', e)) && Frame(c, sh, Log(sh', e))
    ensures forall d: Call :: Sound(d, sh') ==> Sound(d, Log(sh', e))
    ensures TableInv(sh') ==> TableInv(Log(sh', e))
  {
  }

  lemma SameGood(c: Call, sh: Shared)
    requires PinsOwned(sh)
    ensures Moves(sh, sh) && Frame(c, sh, sh)
  {
  }

  lemma LookupGood(c: Call, sh: Shared, ca: Caches, o: Oracle)
    requires Steady(c, sh) && c.pc == Lookup
    ensures Sane(c, sh) && Good(sh, DoLookup(c, sh, ca, o))
  {
    hide Base64;
    if c.msg.details.Some? && Base64(c.msg.details.value.lsid) in sh.table {
      Base64Injective(sh.heap[sh.table[Base64(c.msg.details.value.lsid)]].lsid, c.msg.details.value.lsid);
    }
  }

  lemma CreateGood(c: Call, sh: Shared, ca: Caches, o: Oracle)
    requires Steady(c, sh) && c.pc == Create
    ensures Sane(c, sh) && Good(sh, DoCreate(c, sh, ca, o))
  {
    hide Base64;
  }

  lemma SelectGood(c: Call, sh: Shared, ca: Caches, o: Oracle)
    requires Steady(c, sh) && c.pc == Select
    ensures Sane(c, sh) && Good(sh, DoSelect(c, sh, ca, o))
  {
    hide Base64, SelectServer, Sound, Moves, Frame;
    SoundIsSane(c, sh);
    SameGood(DoSelect(c, sh, ca, o).c, sh);
    NotOk(c, sh);
    ElsewhereSound(c, sh, DoSelect(c, sh, ca, o).c);
  }

  lemma NotOk(c: Call, sh: Shared)
    requires Sound(c, sh)
    ensures c.ok ==> c.pc in {Unwind, Done}
    ensures c.pc in {Start, Act, Send} ==> OwnsConn(c, sh, c.conn)
    ensures forall i :: 0 <= i < |c.defers| && c.defers[i].Close? ==> OwnsConn(c, sh, c.defers[i].conn)
    ensures c.pc == Done ==> c.defers == []
  {
  }

  // The call has a connection of its session's.
  lemma TakenSound(c: Call, sh: Shared, x: Conn)
    requires Sound(c, sh) && c.pc == Checkout && OwnsConn(c, sh, x)
    ensures Sound(c.(pc := Start, conn := x), sh)
  {
  }

  lemma OpenGood(c: Call, sh: Shared)
    requires PinsOwned(sh) && TableInv(sh) && Sound(c, sh)
    ensures var sh' := sh.(conns := sh.conns + [ConnRec(c.id, c.sid, c.server, 0, false)]);
            Moves(sh, sh') && PinsOwned(sh') && Frame(c, sh, sh') && TableInv(sh') && OwnsConn(c, sh', |sh.conns|)
  {
    hide Sound;
  }

  lemma CheckoutGood(c: Call, sh: Shared, ca: Caches, o: Oracle)
    requires Steady(c, sh) && c.pc == Checkout
    ensures Sane(c, sh) && Good(sh, DoCheckout(c, sh, ca, o))
  {
    hide Base64, Sound, Moves, Frame, TableInv;
    SoundIsSane(c, sh);
    NotOk(c, sh);
    var r := DoCheckout(c, sh, ca, o);
    SameGood(r.c, sh);
    if r.c.pc != Start {
      ElsewhereSound(c, sh, r.c);
    } else if r.sh == sh {
      TakenSound(c, sh, r.c.conn);
    } else {
      OpenGood(c, sh);
      MovesKeepSound(c, sh, r.sh);
      TakenSound(c, r.sh, r.c.conn);
      FrameSame(c, r.c, sh, r.sh);
    }
  }

  lemma RejectGood(c: Call, sh: Shared, ca: Caches)
    requires Steady(c, sh) && c.pc in {Start, Act} && c.sid.Some?
    ensures Sane(c, sh) && Good(sh, Reject(c, sh, ca))
  {
    hide Base64, Sound, Moves, Frame, PinsOwned, TableInv;
    SoundIsSane(c, sh);
    NotOk(c, sh);
    var r := Reject(c, sh, ca);
    if r.sh != sh {
      ConnGood(r.c, sh, c.conn, r.sh.conns[c.conn]);
    } else {
      SameGood(r.c, sh);
    }
    SameTable(sh, r.sh);
    RefusedSound(c, sh, r.sh);
  }

  lemma SameTable(sh: Shared, sh': Shared)
    requires TableInv(sh) && sh'.heap == sh.heap && sh'.table == sh.table
    ensures TableInv(sh')
  {
  }

  // On to the next step with the same connection.
  lemma ForwardSound(c: Call, sh: Shared)
    requires Sound(c, sh) && c.pc == Start
    ensures Sound(c.(pc := Act), sh)
  {
  }

  lemma StartGood(c: Call, sh: Shared, ca: Caches, o: Oracle)
    requires Steady(c, sh) && c.pc == Start
    ensures Sane(c, sh) && Good(sh, DoStart(c, sh, ca, o))
  {
    hide Base64, Sound, Moves, Frame, PinsOwned, TableInv;
    SoundIsSane(c, sh);
    NotOk(c, sh);
    var r := DoStart(c, sh, ca, o);
    if r.c.pc == Unwind {
      RejectGood(c, sh, ca);
    } else {
      SameGood(r.c, sh);
      if r.sh != sh {
        var sid := c.sid.value;
        var s := StartTransaction(sh.heap[sid], c.server, c.conn, c.msg.details.value.txnNumber, o.now).value;
        PutGood(r.c, sh, sid, s);
        LogGood(r.c, sh, Put(sh, sid, s), Started(sid, c.server, c.conn));
        MovesKeepSound(c, sh, r.sh);
      }
      ForwardSound(c, r.sh);
    }
  }

  lemma DeferSound(c: Call, sh: Shared, ds: seq<Deferred>, sh': Shared)
    requires Steady(c, sh) && c.pc == Act && Moves(sh, sh') && PinsOwned(sh') && TableInv(sh')
    requires ds in {[Close(c.conn, false)], [Unpin, Close(c.conn, true)]}
    requires c.sid.Some? && c.msg.command == EndSessions ==> sh'.heap[c.sid.value].state == Ended
    ensures Sound(Defer(c, ds), sh')
    ensures forall x: Option<Conn> :: Sound(Defer(c, ds).(accepted := x), sh')
  {
    hide Base64;
    MovesKeepSound(c, sh, sh');
    var d := Defer(c, ds);
    assert d.defers[|d.defers| - 1].Close? && d.defers[|d.defers| - 1].conn == c.conn;
    forall i | 0 <= i < |d.defers| && d.defers[i].Close? ensures OwnsConn(d, sh', d.defers[i].conn) {
      assert i < |c.defers| ==> d.defers[i] == c.defers[i];
    }
  }

  lemma RefusedSound(c: Call, sh: Shared, sh': Shared)
    requires Steady(c, sh) && c.pc in {Start, Act} && Moves(sh, sh') && PinsOwned(sh') && TableInv(sh')
    ensures Sound(Return(c, false), sh')
  {
    hide Base64;
    MovesKeepSound(c, sh, sh');
  }

  lemma DropGood(c: Call, sh: Shared, sid: nat, now: int)
    requires PinsOwned(sh) && sid < |sh.heap| && c.sid == Some(sid)
    ensures var sh' := DropSession(sh, sid, now);
            Moves(sh, sh') && PinsOwned(sh') && Frame(c, sh, sh') && sh'.heap[sid].state == Ended
  {
  }

  lemma ActGood(c: Call, sh: Shared, ca: Caches, o: Oracle)
    requires Steady(c, sh) && c.pc == Act
    ensures Sane(c, sh) && Good(sh, DoAct(c, sh, ca, o))
  {
    hide Base64, Sound, Moves, Frame, PinsOwned, TableInv, DropSession;
    SoundIsSane(c, sh);
    var r := DoAct(c, sh, ca, o);
    if r.c.pc == Unwind {
      RejectGood(c, sh, ca);
    } else if c.sid.Some? && c.msg.command in {Commit, Abort} {
      PutGood(r.c, sh, c.sid.value, r.sh.heap[c.sid.value]);
      DeferSound(c, sh, [Unpin, Close(c.conn, true)], r.sh);
    } else if c.sid.Some? && c.msg.command == EndSessions {
      DropGood(r.c, sh, c.sid.value, o.now);
      DropKeepsTables(sh, c.sid.value, o.now);
      DeferSound(c, sh, [Close(c.conn, false)], r.sh);
    } else {
      SameGood(r.c, sh);
      DeferSound(c, sh, [Close(c.conn, false)], sh);
    }
  }

  lemma SendGood(c: Call, sh: Shared, ca: Caches, o: Oracle)
    requires Steady(c, sh) && c.pc == Send
    ensures Sane(c, sh) && Good(sh, DoSend(c, sh, ca, o))
  {
    hide Base64, Sound, Moves, Frame, PinsOwned;
    SoundIsSane(c, sh);
    NotOk(c, sh);
    var r := DoSend(c, sh, ca, o);
    SameGood(r.c, sh);
    LogGood(r.c, sh, sh, Sent(c.id, c.sid, c.server, c.conn));
    ElsewhereSound(c, sh, r.c);
  }

  lemma CacheGood(c: Call, sh: Shared, ca: Caches, o: Oracle)
    requires Steady(c, sh) && (c.pc.CacheCursor? || c.pc == CacheTxn)
    ensures Sane(c, sh) && Good(sh, if c.pc == CacheTxn then DoCacheTxn(c, sh, ca, o) else DoCacheCursor(c, sh, ca, o))
  {
    hide Base64, BuildKey, Sound, Moves, Frame, PinsOwned;
    SoundIsSane(c, sh);
    NotOk(c, sh);
    var r := if c.pc == CacheTxn then DoCacheTxn(c, sh, ca, o) else DoCacheCursor(c, sh, ca, o);
    SameGood(r.c, sh);
    ElsewhereSound(c, sh, r.c);
  }

  // One deferred action less.
  lemma PopSound(c: Call, sh: Shared, sh': Shared)
    requires Steady(c, sh) && c.pc == Unwind && c.defers != []
    requires Moves(sh, sh') && PinsOwned(sh') && TableInv(sh')
    ensures Sound(c.(defers := c.defers[..|c.defers| - 1]), sh')
  {
    hide Base64;
    MovesKeepSound(c, sh, sh');
  }

  lemma CloseGood(c: Call, sh: Shared, x: Conn, ends: bool)
    requires Steady(c, sh) && OwnsConn(c, sh, x) && (c.sid.Some? ==> c.sid.value < |sh.heap|)
    ensures var out := CloseConn(sh, x);
            var sh' := if ends && c.sid.Some? then
                Log(Put(out, c.sid.value, ResetTransactionState(out.heap[c.sid.value])), Finished(c.sid.value))
              else out;
            Moves(sh, sh') && PinsOwned(sh') && Frame(c, sh, sh') && TableInv(sh')
  {
    hide Base64, Sound;
  }

  lemma UnwindGood(c: Call, sh: Shared, ca: Caches, o: Oracle)
    requires Steady(c, sh) && c.pc == Unwind
    ensures Sane(c, sh) && Good(sh, DoUnwind(c, sh, ca, o))
  {
    hide Base64, Sound, Moves, Frame, PinsOwned, TableInv;
    SoundIsSane(c, sh);
    NotOk(c, sh);
    var r := DoUnwind(c, sh, ca, o);
    SameGood(c, sh);
    if c.defers == [] {
      FinishSound(c, sh);
    } else {
      match c.defers[|c.defers| - 1] {
        case Unpin =>
          if c.sid.Some? {
            PutGood(c, sh, c.sid.value, UnpinTransaction(sh.heap[c.sid.value]));
          }
        case Close(x, ends) => CloseGood(c, sh, x, ends);
      }
      PopSound(c, sh, r.sh);
    }
    FrameSame(c, r.c, sh, r.sh);
  }

  lemma FinishSound(c: Call, sh: Shared)
    requires Sound(c, sh) && c.pc == Unwind && c.defers == []
    ensures Sound(c.(pc := Done), sh)
  {
  }

  lemma FrameSame(c: Call, d: Call, sh: Shared, sh': Shared)
    requires Frame(c, sh, sh') && d.id == c.id && d.sid == c.sid
    ensures Frame(d, sh, sh')
  {
  }

  lemma StepGood(c: Call, sh: Shared, ca: Caches, o: Oracle)
    requires Steady(c, sh)
    ensures Sane(c, sh) && Good(sh, Step(c, sh, ca, o))
  {
    hide Good, Before, Base64;
    match c.pc
    case Lookup => LookupGood(c, sh, ca, o);
    case Create => CreateGood(c, sh, ca, o);
    case Select => SelectGood(c, sh, ca, o);
    case Checkout => CheckoutGood(c, sh, ca, o);
    case Start => StartGood(c, sh, ca, o);
    case Act => ActGood(c, sh, ca, o);
    case Send => SendGood(c, sh, ca, o);
    case CacheCursor(_) => CacheGood(c, sh, ca, o);
    case CacheTxn => CacheGood(c, sh, ca, o);
    case Unwind => UnwindGood(c, sh, ca, o);
    case Done => DoneGood(c, sh, ca);
  }

  lemma DoneGood(c: Call, sh: Shared, ca: Caches)
    requires Steady(c, sh)
    ensures Sane(c, sh) && Good(sh, Config(c, sh, ca))
  {
  }
}

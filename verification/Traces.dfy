/** The trace of a run, read event by event, and how it follows the shared state. */
module Traces {
  import opened Common
  import opened Keys
  import opened Protocol
  import opened Pinning
  import opened PinningSteps

  // The server and connection of the transaction open on session sid.
  function Current(tr: seq<Event>, sid: nat): Option<(Server, Conn)> {
    if tr == [] then None
    else
      var n := |tr| - 1;
      match tr[n]
      case Started(x, server, conn) => if x == sid then Some((server, conn)) else Current(tr[..n], sid)
      case Finished(x) => if x == sid then None else Current(tr[..n], sid)
      case _ => Current(tr[..n], sid)
  }

  // The session object that requests with this key are bound to.
  function Stored(tr: seq<Event>, key: string): Option<nat> {
    if tr == [] then None
    else
      var n := |tr| - 1;
      match tr[n]
      case Bound(_, k, sid) => if k == key then Some(sid) else Stored(tr[..n], key)
      case Dropped(k) => if k == key then None else Stored(tr[..n], key)
      case _ => Stored(tr[..n], key)
  }

  function SendCount(tr: seq<Event>, call: nat): nat {
    if tr == [] then 0
    else SendCount(tr[..|tr| - 1], call) + if tr[|tr| - 1].Sent? && tr[|tr| - 1].call == call then 1 else 0
  }

  function PinsOf(s: Session): Option<(Server, Conn)> {
    if s.server.Some? && s.conn.Some? then Some((s.server.value, s.conn.value)) else None
  }

  // The key and session object that a call was bound to.
  function BoundOf(tr: seq<Event>, call: nat): Option<(string, nat)> {
    if tr == [] then None
    else
      var n := |tr| - 1;
      match tr[n]
      case Bound(c, key, sid) => if c == call then Some((key, sid)) else BoundOf(tr[..n], call)
      case _ => BoundOf(tr[..n], call)
  }

  function BindingOf(c: Call): Option<(string, nat)> {
    if c.sid.Some? && c.msg.details.Some? then Some((Base64(c.msg.details.value.lsid), c.sid.value)) else None
  }

  // What must be true of the trace so far when an event happens: a write goes to
  // the open transaction's server and connection, a transaction starts only where
  // none is open, and a call is bound once, to the session stored under its key.
  predicate Fits(tr: seq<Event>, e: Event) {
    match e
    case Sent(call, session, server, conn) =>
      session.Some? ==>
        && (Current(tr, session.value).Some? ==> Current(tr, session.value) == Some((server, conn)))
        && BoundOf(tr, call).Some? && BoundOf(tr, call).value.1 == session.value
    case Started(sid, _, _) => Current(tr, sid).None?
    case Bound(call, key, sid) => BoundOf(tr, call).None? && (Stored(tr, key).Some? ==> Stored(tr, key) == Some(sid))
    case _ => true
  }

  ghost predicate CurrentInv(sh: Shared) {
    forall sid: nat ::
      Current(sh.trace, sid) == if sid < |sh.heap| then PinsOf(sh.heap[sid]) else None
  }

  ghost predicate StoredInv(sh: Shared) {
    forall key :: Stored(sh.trace, key) == if key in sh.table then Some(sh.table[key]) else None
  }

  predicate GoodTrace(tr: seq<Event>) {
    forall j :: 0 <= j < |tr| ==> Fits(tr[..j], tr[j])
  }

  ghost predicate TraceInv(sh: Shared) {
    CurrentInv(sh) && StoredInv(sh) && GoodTrace(sh.trace)
  }

  // ---------------------------------------------------------- adding events

  lemma LogFolds(tr: seq<Event>, e: Event)
    ensures forall sid: nat :: Current(tr + [e], sid) ==
              match e {
                case Started(x, server, conn) => if x == sid then Some((server, conn)) else Current(tr, sid)
                case Finished(x) => if x == sid then None else Current(tr, sid)
                case _ => Current(tr, sid) }
    ensures forall key :: Stored(tr + [e], key) ==
              match e {
                case Bound(_, k, sid) => if k == key then Some(sid) else Stored(tr, key)
                case Dropped(k) => if k == key then None else Stored(tr, key)
                case _ => Stored(tr, key) }
    ensures forall call :: SendCount(tr + [e], call) == SendCount(tr, call) + if e.Sent? && e.call == call then 1 else 0
    ensures forall call :: BoundOf(tr + [e], call) ==
              if e.Bound? && e.call == call then Some((e.key, e.sid)) else BoundOf(tr, call)
  {
    assert (tr + [e])[..|tr|] == tr;
  }

  lemma LogKeepsGood(tr: seq<Event>, e: Event)
    requires GoodTrace(tr) && Fits(tr, e)
    ensures GoodTrace(tr + [e])
  {
    var ts := tr + [e];
    forall j | 0 <= j < |ts| ensures Fits(ts[..j], ts[j]) {
      assert j < |tr| ==> ts[..j] == tr[..j] && ts[j] == tr[j];
      assert j == |tr| ==> ts[..j] == tr;
    }
  }

  // ------------------------------------------------------------ per step

  // Steps that log nothing and leave pins and table alone.
  lemma QuietKeepsTrace(sh: Shared, sh': Shared)
    requires TraceInv(sh) && sh'.trace == sh.trace && sh'.table == sh.table && |sh'.heap| == |sh.heap|
    requires forall i :: 0 <= i < |sh.heap| ==> PinsOf(sh'.heap[i]) == PinsOf(sh.heap[i])
    ensures TraceInv(sh')
  {
  }

  lemma StartTrace(c: Call, sh: Shared, ca: Caches, o: Oracle)
    requires LocalInv(c, sh) && Sane(c, sh) && TraceInv(sh) && c.pc == Start
    ensures TraceInv(DoStart(c, sh, ca, o).sh)
  {
    hide Current, Stored, GoodTrace, BoundOf, SendCount;
    var r := DoStart(c, sh, ca, o);
    if r.sh.trace != sh.trace {
      LogFolds(sh.trace, Started(c.sid.value, c.server, c.conn));
      LogKeepsGood(sh.trace, Started(c.sid.value, c.server, c.conn));
    } else {
      QuietKeepsTrace(sh, r.sh);
    }
  }

  // The events of a session's end, seen as one change of the two folds.
  lemma EndFolds(tr: seq<Event>, key: string, sid: nat)
    ensures var ts := tr + [Dropped(key)] + [Finished(sid)];
            && (forall x: nat :: Current(ts, x) == if x == sid then None else Current(tr, x))
            && (forall k :: Stored(ts, k) == if k == key then None else Stored(tr, k))
            && (forall call :: SendCount(ts, call) == SendCount(tr, call) && BoundOf(ts, call) == BoundOf(tr, call))
    ensures GoodTrace(tr) ==> GoodTrace(tr + [Dropped(key)] + [Finished(sid)])
  {
    LogFolds(tr, Dropped(key));
    LogFolds(tr + [Dropped(key)], Finished(sid));
    if GoodTrace(tr) {
      LogKeepsGood(tr, Dropped(key));
      LogKeepsGood(tr + [Dropped(key)], Finished(sid));
    }
  }

  lemma DropTrace(sh: Shared, sid: nat, now: int)
    requires TraceInv(sh) && sid < |sh.heap| && (Loose(sh.heap[sid]) || Pinned(sh.heap[sid]))
    ensures TraceInv(DropSession(sh, sid, now))
  {
    hide Current, Stored, GoodTrace;
    var s := sh.heap[sid];
    var r := DropSession(sh, sid, now);
    if s.state == Ended {
      assert r == sh;
    } else if s.txn == InProgress {
      EndFolds(sh.trace, s.id, sid);
      assert r.trace == sh.trace + [Dropped(s.id)] + [Finished(sid)];
      assert CurrentInv(r);
      assert StoredInv(r);
    } else {
      LogFolds(sh.trace, Dropped(s.id));
      LogKeepsGood(sh.trace, Dropped(s.id));
      assert r.trace == sh.trace + [Dropped(s.id)];
      assert CurrentInv(r);
    }
  }

  lemma ActTrace(c: Call, sh: Shared, ca: Caches, o: Oracle)
    requires LocalInv(c, sh) && Sane(c, sh) && TraceInv(sh) && c.pc == Act
    ensures TraceInv(DoAct(c, sh, ca, o).sh)
  {
    hide Current, Stored, GoodTrace, BoundOf, SendCount;
    if c.sid.Some? && c.msg.command == EndSessions {
      DropTrace(sh, c.sid.value, o.now);
    } else {
      QuietKeepsTrace(sh, DoAct(c, sh, ca, o).sh);
    }
  }

  lemma SendTrace(c: Call, sh: Shared, ca: Caches, o: Oracle)
    requires LocalInv(c, sh) && Sane(c, sh) && TraceInv(sh) && c.pc == Send
    requires BoundOf(sh.trace, c.id) == BindingOf(c)
    ensures TraceInv(DoSend(c, sh, ca, o).sh)
  {
    if o.hasProcessor {
      SendShape(c, sh, ca, o);
      var e := Sent(c.id, c.sid, c.server, c.conn);
      if c.sid.Some? && PinsOf(sh.heap[c.sid.value]).Some? {
        var s := sh.heap[c.sid.value];
        assert PhasePinned(c, s) || PhaseEnding(c, s);
      }
      LogFolds(sh.trace, e);
      LogKeepsGood(sh.trace, e);
    }
  }

  lemma UnwindTrace(c: Call, sh: Shared, ca: Caches, o: Oracle)
    requires LocalInv(c, sh) && Sane(c, sh) && TraceInv(sh) && c.pc == Unwind
    ensures TraceInv(DoUnwind(c, sh, ca, o).sh)
  {
    hide Current, Stored, GoodTrace, BoundOf, SendCount;
    var r := DoUnwind(c, sh, ca, o);
    if r.sh.trace != sh.trace {
      LogFolds(sh.trace, Finished(c.sid.value));
      LogKeepsGood(sh.trace, Finished(c.sid.value));
    } else {
      QuietKeepsTrace(sh, r.sh);
    }
  }

  lemma LookupTrace(c: Call, sh: Shared, ca: Caches, o: Oracle)
    requires Sane(c, sh) && TraceInv(sh) && TableInv(sh)
    requires BoundOf(sh.trace, c.id).None?
    ensures TraceInv(DoLookup(c, sh, ca, o).sh)
  {
    hide Base64, Current, Stored, BoundOf, SendCount, GoodTrace;
    var r := DoLookup(c, sh, ca, o);
    if r.sh != sh {
      var e := Bound(c.id, Base64(c.msg.details.value.lsid), r.c.sid.value);
      LogFolds(sh.trace, e);
      LogKeepsGood(sh.trace, e);
    }
  }

  lemma CreateTrace(c: Call, sh: Shared, ca: Caches, o: Oracle)
    requires Sane(c, sh) && TraceInv(sh) && TableInv(sh) && c.pc == Create
    requires BoundOf(sh.trace, c.id).None?
    requires Base64(c.msg.details.value.lsid) !in sh.table
    ensures TraceInv(DoCreate(c, sh, ca, o).sh)
  {
    hide Base64, Current, Stored, BoundOf, SendCount, GoodTrace;
    var e := Bound(c.id, Base64(c.msg.details.value.lsid), |sh.heap|);
    LogFolds(sh.trace, e);
    LogKeepsGood(sh.trace, e);
  }

  lemma StepTrace(c: Call, sh: Shared, ca: Caches, o: Oracle)
    requires LocalInv(c, sh) && Sane(c, sh) && TraceInv(sh) && TableInv(sh)
    requires BoundOf(sh.trace, c.id) == BindingOf(c)
    requires c.pc == Create ==> Base64(c.msg.details.value.lsid) !in sh.table
    ensures TraceInv(Step(c, sh, ca, o).sh)
  {
    match c.pc
    case Lookup => LookupTrace(c, sh, ca, o);
    case Create => CreateTrace(c, sh, ca, o);
    case Start => StartTrace(c, sh, ca, o);
    case Act => ActTrace(c, sh, ca, o);
    case Send => SendTrace(c, sh, ca, o);
    case Unwind => UnwindTrace(c, sh, ca, o);
    case _ => QuietKeepsTrace(sh, Step(c, sh, ca, o).sh);
  }

  lemma DropSends(sh: Shared, sid: nat, now: int)
    requires sid < |sh.heap|
    ensures var tr := DropSession(sh, sid, now).trace;
            forall call ::
              SendCount(tr, call) == SendCount(sh.trace, call) && BoundOf(tr, call) == BoundOf(sh.trace, call)
  {
    EndFolds(sh.trace, sh.heap[sid].id, sid);
    LogFolds(sh.trace, Dropped(sh.heap[sid].id));
  }

  predicate SameRequest(c: Call, d: Call, sent: bool) {
    d.id == c.id && d.msg == c.msg && d.inst == c.inst && d.sends == c.sends + if sent then 1 else 0
  }

  lemma BindingSame(c: Call, sh: Shared, ca: Caches, o: Oracle)
    requires Sane(c, sh)
    ensures SameRequest(c, DoLookup(c, sh, ca, o).c, false)
    ensures c.pc == Create ==> SameRequest(c, DoCreate(c, sh, ca, o).c, false)
    ensures SameRequest(c, DoSelect(c, sh, ca, o).c, false)
    ensures SameRequest(c, DoCheckout(c, sh, ca, o).c, false)
  {
    hide Base64, SelectServer;
  }

  lemma ActingSame(c: Call, sh: Shared, ca: Caches, o: Oracle)
    requires Sane(c, sh)
    ensures c.pc == Start ==> SameRequest(c, DoStart(c, sh, ca, o).c, false)
    ensures c.pc == Act ==> SameRequest(c, DoAct(c, sh, ca, o).c, false)
    ensures SameRequest(c, DoSend(c, sh, ca, o).c, o.hasProcessor)
  {
    hide DropSession;
  }

  lemma EndingSame(c: Call, sh: Shared, ca: Caches, o: Oracle)
    requires Sane(c, sh)
    ensures c.pc.CacheCursor? ==> SameRequest(c, DoCacheCursor(c, sh, ca, o).c, false)
    ensures SameRequest(c, DoCacheTxn(c, sh, ca, o).c, false)
    ensures SameRequest(c, DoUnwind(c, sh, ca, o).c, false)
  {
    hide Base64, BuildKey;
  }

  lemma SameCall(c: Call, sh: Shared, ca: Caches, o: Oracle)
    requires Sane(c, sh)
    ensures SameRequest(c, Step(c, sh, ca, o).c, c.pc == Send && o.hasProcessor)
  {
    hide DoLookup, DoCreate, DoSelect, DoCheckout, DoStart, DoAct, DoSend, DoCacheCursor, DoCacheTxn, DoUnwind;
    BindingSame(c, sh, ca, o);
    ActingSame(c, sh, ca, o);
    EndingSame(c, sh, ca, o);
  }

  // A step counts its own sends and nobody else's.
  lemma StepSends(c: Call, sh: Shared, ca: Caches, o: Oracle)
    requires Sane(c, sh)
    ensures var r := Step(c, sh, ca, o);
            && (forall call :: call != c.id ==> SendCount(r.sh.trace, call) == SendCount(sh.trace, call))
            && (forall call :: call != c.id ==> BoundOf(r.sh.trace, call) == BoundOf(sh.trace, call))
            && SendCount(r.sh.trace, c.id) - r.c.sends == SendCount(sh.trace, c.id) - c.sends
  {
    hide Base64;
    var r := Step(c, sh, ca, o);
    SameCall(c, sh, ca, o);
    if c.pc == Act {
      if c.sid.Some? && c.msg.command == EndSessions {
        DropSends(sh, c.sid.value, o.now);
      }
    } else if r.sh.trace != sh.trace {
      var e := r.sh.trace[|sh.trace|];
      assert r.sh.trace == sh.trace + [e];
      assert (e.Sent? <==> c.pc == Send && o.hasProcessor) && (e.Sent? ==> e.call == c.id);
      assert e.Bound? ==> e.call == c.id;
      LogFolds(sh.trace, e);
    }
  }

  lemma SidKept(c: Call, sh: Shared, ca: Caches, o: Oracle)
    requires Sane(c, sh) && c.pc !in {Lookup, Create}
    ensures Step(c, sh, ca, o).c.sid == c.sid && Step(c, sh, ca, o).c.pc != Create
  {
  }

  lemma NothingBound(c: Call, sh: Shared, ca: Caches, o: Oracle)
    requires Sane(c, sh) && c.pc !in {Lookup, Create}
    ensures BoundOf(Step(c, sh, ca, o).sh.trace, c.id) == BoundOf(sh.trace, c.id)
  {
    var r := Step(c, sh, ca, o);
    if c.pc == Act {
      if c.sid.Some? && c.msg.command == EndSessions {
        DropSends(sh, c.sid.value, o.now);
      }
    } else if r.sh.trace != sh.trace {
      var e := r.sh.trace[|sh.trace|];
      assert r.sh.trace == sh.trace + [e] && !e.Bound?;
      LogFolds(sh.trace, e);
    }
  }

  // Binding is logged when it happens and only then.
  lemma StepBinds(c: Call, sh: Shared, ca: Caches, o: Oracle)
    requires Sane(c, sh) && BoundOf(sh.trace, c.id) == BindingOf(c)
    ensures BoundOf(Step(c, sh, ca, o).sh.trace, c.id) == BindingOf(Step(c, sh, ca, o).c)
  {
    var r := Step(c, sh, ca, o);
    if c.pc in {Lookup, Create} {
      if r.sh.trace != sh.trace {
        LogFolds(sh.trace, Bound(c.id, Base64(c.msg.details.value.lsid), r.c.sid.value));
      }
    } else {
      SidKept(c, sh, ca, o);
      SameCall(c, sh, ca, o);
      NothingBound(c, sh, ca, o);
    }
  }
}

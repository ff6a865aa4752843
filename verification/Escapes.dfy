/**
 Exactly when a request bound to a session with an open transaction uses the
 transaction's pinned connection and server, in every legal run.
 */
module Escapes {
  import opened Common
  import opened Keys
  import opened Protocol
  import opened Pinning
  import opened PinningSteps
  import opened Traces
  import opened Runs
  import opened Overlap
  import opened OverlapSteps
  import opened OverlapRuns
  import opened Positions
  import opened OverlapTheorems

  // ---------------------------------------------- what a checkout takes

  predicate HasConn(c: Call) {
    c.pc in {Start, Act, Send}
  }

  // The connection that the call's session pins, if any.
  function PinOf(sh: Shared, c: Call): Option<Conn> {
    if c.sid.Some? && c.sid.value < |sh.heap| then GetPinnedConnection(sh.heap[c.sid.value]) else None
  }

  // What a checkout in this state takes: the pinned connection or a new one.
  function Takes(sh: Shared, c: Call): Conn {
    if PinOf(sh, c).Some? then PinOf(sh, c).value else |sh.conns|
  }

  lemma TakeStep(c: Call, sh: Shared, ca: Caches, o: Oracle)
    requires Sane(c, sh)
    ensures var d := Step(c, sh, ca, o).c;
            && (HasConn(d) && c.pc == Checkout ==> d.conn == Takes(sh, c) && d.pc == Start && d.sid == c.sid)
            && (HasConn(d) && c.pc != Checkout ==> HasConn(c) && d.conn == c.conn)
            && (d.pc == Start ==> c.pc == Checkout)
  {
    hide Base64, BuildKey, SelectServer, DropSession;
  }

  // A call's connection is what its last checkout took.
  predicate TookIt(ls: seq<Label>, n: nat, id: nat)
    requires Legal(INIT, ls) && n <= |ls|
  {
    var m := At(ls, n);
    id in m.calls && HasConn(m.calls[id]) ==>
      var k := Last(ls, n, id, Checkout);
      && k.Some?
      && var c := At(ls, k.value).calls[id];
      m.calls[id].conn == Takes(At(ls, k.value).sh, c) && m.calls[id].sid == c.sid
  }

  lemma {:induction false} ConnWasTaken(ls: seq<Label>, n: nat, id: nat)
    requires Legal(INIT, ls) && n <= |ls|
    ensures TookIt(ls, n, id)
  {
    hide Legal, Exec, Step, FreeInv, Takes, Sound;
    if n == 0 {
      AtEnds(ls);
    } else {
      ConnWasTaken(ls, n - 1, id);
      AtStep(ls, n - 1);
      var m := At(ls, n - 1);
      if ls[n - 1].Advance? && ls[n - 1].id == id {
        FreeParts(ls, n - 1, id);
        var c := m.calls[id];
        TakeStep(c, m.sh, CachesOf(m, c.inst), ls[n - 1].o);
        if c.pc == Checkout || HasConn(c) { SidAfter(c, m.sh, CachesOf(m, c.inst), ls[n - 1].o); }
      }
    }
  }

  lemma SidAfter(c: Call, sh: Shared, ca: Caches, o: Oracle)
    requires Sane(c, sh) && Sound(c, sh) && c.pc !in {Lookup, Create}
    ensures Step(c, sh, ca, o).c.sid == c.sid
  {
    SidKept(c, sh, ca, o);
  }

  // ------------------------------------------------- a connection just opened

  // Nobody else has the connection, and no session pins it.
  predicate Untouched(m: Machine, id: nat, x: Conn) {
    && (forall j :: j in m.calls && j != id && HasConn(m.calls[j]) ==> m.calls[j].conn != x)
    && (forall s :: 0 <= s < |m.sh.heap| ==> m.sh.heap[s].conn != Some(x))
  }

  // The call's last checkout before step n opened a new connection.
  predicate OpenedNew(ls: seq<Label>, n: nat, id: nat)
    requires Legal(INIT, ls) && n <= |ls|
  {
    var k := Last(ls, n, id, Checkout);
    k.Some? && PinOf(At(ls, k.value).sh, At(ls, k.value).calls[id]).None?
  }

  // While a call that opened a new connection has not tried to start, the
  // connection is its own.
  predicate NewIsOwn(ls: seq<Label>, n: nat, id: nat)
    requires Legal(INIT, ls) && n <= |ls|
  {
    var m := At(ls, n);
    id in m.calls && m.calls[id].pc == Start && OpenedNew(ls, n, id) ==> Untouched(m, id, m.calls[id].conn)
  }

  lemma JustOpened(m: Machine, id: nat, o: Oracle)
    requires FreeCore(m) && Enabled(m, Advance(id, o)) && m.calls[id].pc == Checkout
    requires PinOf(m.sh, m.calls[id]).None? && Apply(m, Advance(id, o)).calls[id].pc == Start
    ensures Untouched(Apply(m, Advance(id, o)), id, Apply(m, Advance(id, o)).calls[id].conn)
  {
    hide CallOk;
    forall j | j in m.calls && HasConn(m.calls[j]) ensures m.calls[j].conn < |m.sh.conns| {
      CallParts(m.calls[j], m.sh);
    }
  }

  // A step of another call leaves the connection untouched.
  lemma StaysUntouched(m: Machine, id: nat, j: nat, o: Oracle, x: Conn)
    requires FreeCore(m) && Enabled(m, Advance(j, o)) && j != id && x < |m.sh.conns| && Untouched(m, id, x)
    ensures Untouched(Apply(m, Advance(j, o)), id, x)
  {
    hide CallOk, Step, Sound;
    var m' := Apply(m, Advance(j, o));
    var c := m.calls[j];
    var ca := CachesOf(m, c.inst);
    CallParts(c, m.sh);
    TakeStep(c, m.sh, ca, o);
    FreshSession(c, m.sh, ca, o);
    forall s | 0 <= s < |m'.sh.heap| ensures m'.sh.heap[s].conn != Some(x) {
      if s < |m.sh.heap| { SessionStep(c, m.sh, ca, o, s); }
    }
  }

  lemma LastKept(ls: seq<Label>, n: nat, id: nat)
    requires Legal(INIT, ls) && 0 < n <= |ls| && !(ls[n - 1].Advance? && ls[n - 1].id == id)
    ensures Last(ls, n, id, Checkout) == Last(ls, n - 1, id, Checkout)
  {
  }

  lemma {:induction false} OpenedIsOwn(ls: seq<Label>, n: nat, id: nat)
    requires Legal(INIT, ls) && n <= |ls|
    ensures NewIsOwn(ls, n, id)
  {
    hide Step, CallOk, Sound, Untouched, Last, OpenedNew, ReturnedOk, PlainOk, EndersKnown, Paired;
    if n == 0 {
      AtEnds(ls);
    } else {
      OpenedIsOwn(ls, n - 1, id);
      AtStep(ls, n - 1);
      AtFree(ls, n - 1);
      var m := At(ls, n - 1);
      var m' := At(ls, n);
      if id in m'.calls && m'.calls[id].pc == Start && OpenedNew(ls, n, id) {
        OwnOneStep(ls, n, id);
      }
    }
  }

  lemma OwnOneStep(ls: seq<Label>, n: nat, id: nat)
    requires Legal(INIT, ls) && 0 < n <= |ls| && NewIsOwn(ls, n - 1, id)
    requires id in At(ls, n).calls && At(ls, n).calls[id].pc == Start && OpenedNew(ls, n, id)
    ensures Untouched(At(ls, n), id, At(ls, n).calls[id].conn)
  {
    hide Legal, Exec, Step, CallOk, Sound, Untouched, ReturnedOk, PlainOk, EndersKnown, Paired;
    AtStep(ls, n - 1);
    AtFree(ls, n - 1);
    var m, m' := At(ls, n - 1), At(ls, n);
    match ls[n - 1]
    case Advance(j, o) =>
      if j == id {
        CallParts(m.calls[id], m.sh);
        TakeStep(m.calls[id], m.sh, CachesOf(m, m.calls[id].inst), o);
        JustOpened(m, id, o);
      } else {
        LastKept(ls, n, id);
        ConnBound(m, id);
        StaysUntouched(m, id, j, o, m.calls[id].conn);
      }
    case _ =>
      LastKept(ls, n, id);
      OtherLabels(m, ls[n - 1], id);
  }

  lemma ConnBound(m: Machine, id: nat)
    requires CallsOk(m) && id in m.calls && HasConn(m.calls[id])
    ensures m.calls[id].conn < |m.sh.conns|
  {
    hide CallOk;
    CallParts(m.calls[id], m.sh);
  }

  lemma OtherLabels(m: Machine, l: Label, id: nat)
    requires FreeCore(m) && Enabled(m, l) && !l.Advance? && id in Apply(m, l).calls && Apply(m, l).calls[id].pc == Start
    ensures id in m.calls && m.calls[id] == Apply(m, l).calls[id]
    ensures Untouched(m, id, m.calls[id].conn) ==> Untouched(Apply(m, l), id, m.calls[id].conn)
  {
    hide CallOk;
  }

  // ------------------------------------------------ the pinned connection

  // Since its last checkout a call has had the same connection.
  lemma {:induction false} HadItSince(ls: seq<Label>, t: nat, n: nat, id: nat)
    requires Legal(INIT, ls) && n <= |ls| && id in At(ls, n).calls && HasConn(At(ls, n).calls[id])
    requires Last(ls, n, id, Checkout).Some? && Last(ls, n, id, Checkout).value < t <= n
    ensures id in At(ls, t).calls && HasConn(At(ls, t).calls[id])
    ensures At(ls, t).calls[id].conn == At(ls, n).calls[id].conn
    decreases n
  {
    hide Legal, Exec, Step, FreeInv, Sound, Takes;
    if t < n {
      var k := Last(ls, n, id, Checkout).value;
      assert Makes(ls, k, id, Checkout) && !Makes(ls, n - 1, id, Checkout);
      InFlight(ls, k, n, id);
      AtStep(ls, n - 1);
      NextGrows(ls, n - 1, n - 1, id);
      var m := At(ls, n - 1);
      if ls[n - 1].Advance? && ls[n - 1].id == id {
        FreeParts(ls, n - 1, id);
        TakeStep(m.calls[id], m.sh, CachesOf(m, m.calls[id].inst), ls[n - 1].o);
      }
      HadItSince(ls, t, n - 1, id);
    }
  }

  lemma {:induction false} ConnKeepsOwner(ls: seq<Label>, i: nat, n: nat, x: Conn)
    requires Legal(INIT, ls) && i <= n <= |ls| && x < |At(ls, i).sh.conns|
    ensures x < |At(ls, n).sh.conns| && At(ls, n).sh.conns[x].sid == At(ls, i).sh.conns[x].sid
    ensures At(ls, n).sh.conns[x].call == At(ls, i).sh.conns[x].call
    decreases n
  {
    hide Legal, Exec, Step, CallOk, Sound, Frame;
    if i < n {
      ConnKeepsOwner(ls, i, n - 1, x);
      AtStep(ls, n - 1);
      AtFree(ls, n - 1);
      var m := At(ls, n - 1);
      if ls[n - 1].Advance? {
        var c := m.calls[ls[n - 1].id];
        CallParts(c, m.sh);
        StepGood(c, m.sh, CachesOf(m, c.inst), ls[n - 1].o);
      }
    }
  }

  // The starter of the transaction and its connection.
  lemma StarterHolds(ls: seq<Label>, i: nat, sid: nat)
    requires Legal(INIT, ls) && i < |ls| && StartsAt(ls, i, sid)
    ensures var a := ls[i].id;
            && a in At(ls, i).calls && HasConn(At(ls, i).calls[a]) && At(ls, i).calls[a].pc == Start
            && var x := At(ls, i).calls[a].conn;
            x < |At(ls, i).sh.conns| && At(ls, i).sh.conns[x].sid == Some(sid)
  {
    hide FreeInv;
    FreeParts(ls, i, ls[i].id);
  }

  // A request of another session, or of none, never has the connection.
  lemma StrangersDiffer(ls: seq<Label>, n: nat, i: nat, sid: nat, b: nat)
    requires Legal(INIT, ls) && i < n <= |ls| && StartsAt(ls, i, sid)
    requires b in At(ls, n).calls && HasConn(At(ls, n).calls[b]) && At(ls, n).calls[b].sid != Some(sid)
    ensures At(ls, n).calls[b].conn != At(ls, i).calls[ls[i].id].conn
  {
    hide FreeInv;
    StarterHolds(ls, i, sid);
    ConnKeepsOwner(ls, i, n, At(ls, i).calls[ls[i].id].conn);
    FreeParts(ls, n, b);
  }

  // Checked out after the start: the pinned connection exactly if it was still pinned.
  lemma LaterTakes(ls: seq<Label>, n: nat, i: nat, sid: nat, b: nat)
    requires Legal(INIT, ls) && n <= |ls| && LastMove(ls, n, sid) == StartedAt(i)
    requires b in At(ls, n).calls && HasConn(At(ls, n).calls[b]) && At(ls, n).calls[b].sid == Some(sid)
    requires Last(ls, n, b, Checkout).Some? && Last(ls, n, b, Checkout).value > i
    ensures var k := Last(ls, n, b, Checkout).value;
            At(ls, n).calls[b].conn == At(ls, i).calls[ls[i].id].conn <==> PinOf(At(ls, k).sh, At(ls, k).calls[b]).Some?
  {
    hide FreeInv, Starts, Resets, Legal, Exec;
    var k := Last(ls, n, b, Checkout).value;
    ConnWasTaken(ls, n, b);
    MoveThen(ls, k, n, i, sid);
    MovesDecide(ls, k, sid);
    StarterHolds(ls, i, sid);
    ConnKeepsOwner(ls, i, k, At(ls, i).calls[ls[i].id].conn);
  }

  lemma {:induction false} MoveThen(ls: seq<Label>, k: nat, n: nat, i: nat, sid: nat)
    requires Legal(INIT, ls) && i < k <= n <= |ls| && LastMove(ls, n, sid) == StartedAt(i)
    ensures LastMove(ls, k, sid) == StartedAt(i)
    decreases n
  {
    hide StartsAt, ResetsAt;
    if k < n { MoveThen(ls, k, n - 1, i, sid); }
  }

  // ------------------------------------------------- where a connection is from

  // A connection that a checkout is given because it is pinned was pinned by the
  // last start of the session, whose call had checked it out before.
  lemma PinnedByStart(ls: seq<Label>, k: nat, id: nat)
    requires Legal(INIT, ls) && k < |ls| && Makes(ls, k, id, Checkout)
    requires PinOf(At(ls, k).sh, At(ls, k).calls[id]).Some?
    ensures var c := At(ls, k).calls[id];
            && c.sid.Some?
            && var move := LastMove(ls, k, c.sid.value);
            && move.StartedAt? && Last(ls, move.k, ls[move.k].id, Checkout).Some?
            && ls[move.k].id in At(ls, move.k).calls && HasConn(At(ls, move.k).calls[ls[move.k].id])
            && PinOf(At(ls, k).sh, c) == Some(At(ls, move.k).calls[ls[move.k].id].conn)
  {
    hide FreeInv, Resets, Legal, Exec, Takes;
    var sid := At(ls, k).calls[id].sid.value;
    MovesDecide(ls, k, sid);
    var i := LastMove(ls, k, sid).k;
    ConnWasTaken(ls, i, ls[i].id);
  }

  // The checkout that opened what checkout k takes: itself if nothing is pinned, else
  // the origin of what the call that started the pinned transaction had checked out.
  function Origin(ls: seq<Label>, k: nat, id: nat): (r: nat)
    requires Legal(INIT, ls) && k < |ls| && Makes(ls, k, id, Checkout)
    ensures r <= k
    decreases k
  {
    var c := At(ls, k).calls[id];
    if PinOf(At(ls, k).sh, c).None? then k
    else
      PinnedByStart(ls, k, id);
      var i := LastMove(ls, k, c.sid.value).k;
      Origin(ls, Last(ls, i, ls[i].id, Checkout).value, ls[i].id)
  }

  // What checkout k takes is what its origin opens.
  lemma {:induction false} OriginTakes(ls: seq<Label>, k: nat, id: nat)
    requires Legal(INIT, ls) && k < |ls| && Makes(ls, k, id, Checkout)
    ensures Takes(At(ls, k).sh, At(ls, k).calls[id]) == |At(ls, Origin(ls, k, id)).sh.conns|
    decreases k
  {
    hide FreeInv, Resets, Legal, Exec;
    var c := At(ls, k).calls[id];
    if PinOf(At(ls, k).sh, c).Some? {
      PinnedByStart(ls, k, id);
      var i := LastMove(ls, k, c.sid.value).k;
      ConnWasTaken(ls, i, ls[i].id);
      OriginTakes(ls, Last(ls, i, ls[i].id, Checkout).value, ls[i].id);
    }
  }

  // The last checkout of a call that has a connection succeeded.
  lemma LastSucceeds(ls: seq<Label>, n: nat, id: nat)
    requires Legal(INIT, ls) && n <= |ls| && id in At(ls, n).calls && HasConn(At(ls, n).calls[id])
    ensures var k := Last(ls, n, id, Checkout);
            k.Some? && id in At(ls, k.value + 1).calls && HasConn(At(ls, k.value + 1).calls[id])
  {
    hide Legal, Exec, Takes;
    ConnWasTaken(ls, n, id);
    HadItSince(ls, Last(ls, n, id, Checkout).value + 1, n, id);
  }

  lemma OpenStep(c: Call, sh: Shared, ca: Caches, o: Oracle)
    requires Sane(c, sh) && c.pc == Checkout && PinOf(sh, c).None? && HasConn(Step(c, sh, ca, o).c)
    ensures |Step(c, sh, ca, o).sh.conns| == |sh.conns| + 1
  {
  }

  // The origin of a checkout that succeeded opened a connection.
  lemma {:induction false} OriginOpens(ls: seq<Label>, k: nat, id: nat)
    requires Legal(INIT, ls) && k < |ls| && Makes(ls, k, id, Checkout)
    requires id in At(ls, k + 1).calls && HasConn(At(ls, k + 1).calls[id])
    ensures var r := Origin(ls, k, id); |At(ls, r + 1).sh.conns| == |At(ls, r).sh.conns| + 1
    decreases k
  {
    hide FreeInv, Resets, Legal, Exec, Step;
    var c := At(ls, k).calls[id];
    if PinOf(At(ls, k).sh, c).Some? {
      PinnedByStart(ls, k, id);
      var i := LastMove(ls, k, c.sid.value).k;
      LastSucceeds(ls, i, ls[i].id);
      OriginOpens(ls, Last(ls, i, ls[i].id, Checkout).value, ls[i].id);
    } else {
      AtStep(ls, k);
      OpenStep(c, At(ls, k).sh, CachesOf(At(ls, k), c.inst), ls[k].o);
    }
  }

  lemma {:induction false} ConnsGrow(ls: seq<Label>, i: nat, n: nat)
    requires Legal(INIT, ls) && i <= n <= |ls|
    ensures |At(ls, i).sh.conns| <= |At(ls, n).sh.conns|
    decreases n
  {
    hide Legal, Exec;
    if i < n {
      ConnsGrow(ls, i, n - 1);
      HeapGrows(ls, n);
    }
  }

  // The last checkouts of the two calls, before steps n and m, go back to one opening.
  predicate SameOrigin(ls: seq<Label>, n: nat, b: nat, m: nat, a: nat)
    requires Legal(INIT, ls) && n <= |ls| && m <= |ls|
  {
    var k, l := Last(ls, n, b, Checkout), Last(ls, m, a, Checkout);
    k.Some? && l.Some? && Origin(ls, k.value, b) == Origin(ls, l.value, a)
  }

  /**
   Two requests, each at its own moment, have the same connection if and only if
   their last checkouts go back to the same opening.
   */
  lemma SameConnExactly(ls: seq<Label>, n: nat, b: nat, m: nat, a: nat)
    requires Legal(INIT, ls) && n <= |ls| && b in At(ls, n).calls && HasConn(At(ls, n).calls[b])
    requires m <= |ls| && a in At(ls, m).calls && HasConn(At(ls, m).calls[a])
    ensures At(ls, n).calls[b].conn == At(ls, m).calls[a].conn <==> SameOrigin(ls, n, b, m, a)
  {
    hide Legal, Exec, Takes, Origin;
    LastSucceeds(ls, n, b);
    LastSucceeds(ls, m, a);
    ConnWasTaken(ls, n, b);
    ConnWasTaken(ls, m, a);
    var k, l := Last(ls, n, b, Checkout).value, Last(ls, m, a, Checkout).value;
    OriginTakes(ls, k, b);
    OriginTakes(ls, l, a);
    OriginOpens(ls, k, b);
    OriginOpens(ls, l, a);
    var r, q := Origin(ls, k, b), Origin(ls, l, a);
    if r < q {
      ConnsGrow(ls, r + 1, q);
    } else if q < r {
      ConnsGrow(ls, q + 1, r);
    }
  }

  lemma EarlierTakes(ls: seq<Label>, n: nat, i: nat, sid: nat, b: nat)
    requires Legal(INIT, ls) && i < n <= |ls| && StartsAt(ls, i, sid)
    requires b in At(ls, n).calls && HasConn(At(ls, n).calls[b])
    requires Last(ls, n, b, Checkout).Some? && Last(ls, n, b, Checkout).value < i
    ensures At(ls, n).calls[b].conn == At(ls, i).calls[ls[i].id].conn <==>
              b == ls[i].id || (!OpenedNew(ls, i, ls[i].id) && SameOrigin(ls, n, b, i, ls[i].id))
  {
    hide FreeInv, Starts, Resets, Legal, Exec, Takes, SameOrigin;
    var a := ls[i].id;
    StarterHolds(ls, i, sid);
    SameConnExactly(ls, n, b, i, a);
    HadItSince(ls, i, n, b);
    if b != a && OpenedNew(ls, i, a) {
      OpenedIsOwn(ls, i, a);
    }
  }

  // The request shares the connection of the transaction started at step i: it is
  // bound to the session and checked out after the start while the pins were set,
  // or it is the starter; or the starter itself had been given a connection that
  // an earlier transaction still pinned, and the request's goes back to the same
  // opening.
  predicate Shares(ls: seq<Label>, n: nat, i: nat, sid: nat, b: nat)
    requires Legal(INIT, ls) && i < n <= |ls| && ls[i].Advance? && b in At(ls, n).calls
  {
    && At(ls, n).calls[b].sid == Some(sid)
    && var k := Last(ls, n, b, Checkout);
    && k.Some?
    && if k.value > i then PinOf(At(ls, k.value).sh, At(ls, k.value).calls[b]).Some?
       else b == ls[i].id || (!OpenedNew(ls, i, ls[i].id) && SameOrigin(ls, n, b, i, ls[i].id))
  }

  /**
   While the transaction started at step i is open, a request that is about to
   write, of whatever session, is on the pinned connection if and only if it
   shares it. All else is an escape: a request of the session that checked out
   before the start, or after its pins had been let go.
   */
  lemma EscapesExactly(ls: seq<Label>, i: nat, sid: nat, b: nat)
    requires Legal(INIT, ls) && LastMove(ls, |ls|, sid) == StartedAt(i)
    requires b in Exec(INIT, ls).calls && HasConn(Exec(INIT, ls).calls[b])
    ensures b in At(ls, |ls|).calls
    ensures Exec(INIT, ls).calls[b].conn == At(ls, i).calls[ls[i].id].conn <==> Shares(ls, |ls|, i, sid, b)
  {
    hide FreeInv, Starts, Resets, Legal, Exec, Takes, PinOf, SameOrigin, OpenedNew;
    AtEnds(ls);
    var n := |ls|;
    ConnWasTaken(ls, n, b);
    if At(ls, n).calls[b].sid != Some(sid) {
      StrangersDiffer(ls, n, i, sid, b);
    } else {
      var k := Last(ls, n, b, Checkout).value;
      if k > i {
        LaterTakes(ls, n, i, sid, b);
      } else {
        StarterHolds(ls, i, sid);
        EarlierTakes(ls, n, i, sid, b);
      }
    }
  }

  // ------------------------------------------------------------ the server

  predicate HasServer(c: Call) {
    c.pc == Checkout || HasConn(c)
  }

  // What a selection in this state chooses: the pinned server of a transaction in
  // progress, else what the caches or the topology give.
  function Chooses(m: Machine, c: Call, o: Oracle): Option<Server> {
    var pinned := if c.sid.Some? && c.sid.value < |m.sh.heap| then GetPinnedServer(m.sh.heap[c.sid.value]) else None;
    if pinned.Some? then pinned else SelectServer(CachesOf(m, c.inst), c.msg, o.topology)
  }

  lemma ChooseStep(m: Machine, id: nat, o: Oracle)
    requires id in m.calls && Sane(m.calls[id], m.sh)
    ensures var c := m.calls[id];
            var d := Step(c, m.sh, CachesOf(m, c.inst), o).c;
            && (d.pc == Checkout ==> c.pc == Select && Chooses(m, c, o) == Some(d.server))
            && (HasConn(d) ==> HasServer(c) && d.server == c.server)
  {
    hide Base64, BuildKey, SelectServer, DropSession, DoSelect, DoUnwind, DoCacheCursor, DoCacheTxn;
    var c := m.calls[id];
    ElsewherePc(c, m.sh, CachesOf(m, c.inst), o);
    SelectIs(m, c, o);
  }

  lemma SelectIs(m: Machine, c: Call, o: Oracle)
    requires Sane(c, m.sh)
    ensures var d := DoSelect(c, m.sh, CachesOf(m, c.inst), o).c;
            (d.pc == Checkout ==> Chooses(m, c, o) == Some(d.server)) && !HasConn(d)
  {
    hide Base64, BuildKey, SelectServer;
  }

  lemma ElsewherePc(c: Call, sh: Shared, ca: Caches, o: Oracle)
    requires Sane(c, sh)
    ensures c.pc.CacheCursor? ==> DoCacheCursor(c, sh, ca, o).c.pc == CacheTxn
    ensures DoCacheTxn(c, sh, ca, o).c.pc == Unwind
    ensures c.pc == Unwind ==> DoUnwind(c, sh, ca, o).c.pc in {Unwind, Done}
  {
    hide Base64, BuildKey;
  }

  // A call's server is what its last selection chose.
  predicate ChoseIt(ls: seq<Label>, n: nat, id: nat)
    requires Legal(INIT, ls) && n <= |ls|
  {
    var m := At(ls, n);
    id in m.calls && HasServer(m.calls[id]) ==>
      var k := Last(ls, n, id, Select);
      && k.Some?
      && var c := At(ls, k.value).calls[id];
      && Chooses(At(ls, k.value), c, ls[k.value].o) == Some(m.calls[id].server)
      && m.calls[id].sid == c.sid && m.calls[id].msg == c.msg && m.calls[id].inst == c.inst
  }

  lemma {:induction false} ServerWasChosen(ls: seq<Label>, n: nat, id: nat)
    requires Legal(INIT, ls) && n <= |ls|
    ensures ChoseIt(ls, n, id)
  {
    hide Legal, Exec, Step, FreeInv, Chooses, Sound;
    if n == 0 {
      AtEnds(ls);
    } else {
      ServerWasChosen(ls, n - 1, id);
      AtStep(ls, n - 1);
      var m := At(ls, n - 1);
      if ls[n - 1].Advance? && ls[n - 1].id == id {
        FreeParts(ls, n - 1, id);
        var c := m.calls[id];
        ChooseStep(m, id, ls[n - 1].o);
        SameCall(c, m.sh, CachesOf(m, c.inst), ls[n - 1].o);
        if c.pc == Select || HasServer(c) { SidAfter(c, m.sh, CachesOf(m, c.inst), ls[n - 1].o); }
      }
    }
  }

  // The request selected its server after the start, with the pins in force.
  predicate SelectedPinned(ls: seq<Label>, n: nat, i: nat, sid: nat, b: nat)
    requires Legal(INIT, ls) && i < n <= |ls| && b in At(ls, n).calls
  {
    var k := Last(ls, n, b, Select);
    && k.Some? && k.value > i && At(ls, n).calls[b].sid == Some(sid)
    && sid < |At(ls, k.value).sh.heap| && GetPinnedServer(At(ls, k.value).sh.heap[sid]).Some?
  }

  /**
   The same for the server: a request that selected it after the start, while the
   transaction was in progress and pinned, has the pinned server. One of the
   session that selected after the start otherwise has what the caches or the
   topology gave, and one that selected before the start what it chose then.
   */
  lemma ServerExactly(ls: seq<Label>, i: nat, sid: nat, b: nat)
    requires Legal(INIT, ls) && LastMove(ls, |ls|, sid) == StartedAt(i)
    requires b in Exec(INIT, ls).calls && HasServer(Exec(INIT, ls).calls[b])
    ensures b in At(ls, |ls|).calls && Last(ls, |ls|, b, Select).Some?
    ensures var k := Last(ls, |ls|, b, Select).value;
            var c := Exec(INIT, ls).calls[b];
            if SelectedPinned(ls, |ls|, i, sid, b) then c.server == At(ls, i).calls[ls[i].id].server
            else if c.sid == Some(sid) && k > i then
              SelectServer(CachesOf(At(ls, k), c.inst), c.msg, ls[k].o.topology) == Some(c.server)
            else Chooses(At(ls, k), At(ls, k).calls[b], ls[k].o) == Some(c.server)
  {
    hide FreeInv, Starts, Resets, Legal, Exec, SelectServer;
    AtEnds(ls);
    var n := |ls|;
    ServerWasChosen(ls, n, b);
    var k := Last(ls, n, b, Select).value;
    if SelectedPinned(ls, n, i, sid, b) {
      MoveThen(ls, k, n, i, sid);
      MovesDecide(ls, k, sid);
    }
  }
}

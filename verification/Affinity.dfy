/**
 Where the two caches of an instance send a request, told from the history of the
 run: to the server of the last start of its session, or of the last reply with its
 cursor, that came through the instance. In every legal run.
 */
module Affinity {
  import opened Common
  import opened Keys
  import opened Protocol
  import opened Pinning
  import opened Traces
  import opened Runs
  import opened OverlapRuns
  import opened Positions
  import opened OverlapTheorems
  import opened Escapes
  import Lru
  import LruTheorems

  // ------------------------------------------------- transactions of sessions

  // The step has the reply of a start, commit or abort of the session that came
  // through the instance.
  predicate SettlesSession(c: Call, inst: nat, lsid: seq<byte>) {
    && c.pc == CacheTxn && c.inst == inst && c.msg.details.Some? && c.msg.details.value.lsid == lsid
    && (c.msg.details.value.isStart || c.msg.command in {Commit, Abort})
  }

  predicate SettlesAt(ls: seq<Label>, k: nat, inst: nat, lsid: seq<byte>)
    requires Legal(INIT, ls) && k < |ls|
  {
    ls[k].Advance? && ls[k].id in At(ls, k).calls && SettlesSession(At(ls, k).calls[ls[k].id], inst, lsid)
  }

  // The last such step before step n.
  function LastSettled(ls: seq<Label>, n: nat, inst: nat, lsid: seq<byte>): (r: Option<nat>)
    requires Legal(INIT, ls) && n <= |ls|
    ensures r.Some? ==> r.value < n && SettlesAt(ls, r.value, inst, lsid)
  {
    if n == 0 then None
    else if SettlesAt(ls, n - 1, inst, lsid) then Some(n - 1)
    else LastSettled(ls, n - 1, inst, lsid)
  }

  // The calls that the transaction cache of an instance has seen before step n: an
  // Add for each answered start, a Remove for each answered commit or abort, and the
  // sweeps.
  function TxnOps(ls: seq<Label>, n: nat, inst: nat): seq<Lru.Timed<string, Server>>
    requires Legal(INIT, ls) && n <= |ls|
  {
    if n == 0 then []
    else
      TxnOps(ls, n - 1, inst) +
      match ls[n - 1]
      case Sweep(i, now) => if i == inst then [Lru.Timed(Lru.OpExpire, now)] else []
      case Advance(id, o) =>
        (if id !in At(ls, n - 1).calls then []
         else
           var c := At(ls, n - 1).calls[id];
           if c.msg.details.None? || !SettlesSession(c, inst, c.msg.details.value.lsid) then []
           else
             var key := Base64(c.msg.details.value.lsid);
             [Lru.Timed(if c.msg.details.value.isStart then Lru.OpAdd(key, c.server) else Lru.OpRemove(key), o.now)])
      case _ => []
  }

  // How a step changes the transaction cache of its instance.
  lemma TxnsStep(c: Call, sh: Shared, ca: Caches, o: Oracle)
    requires Sane(c, sh)
    ensures Step(c, sh, ca, o).ca.txns ==
            if c.msg.details.None? || !SettlesSession(c, c.inst, c.msg.details.value.lsid) then ca.txns
            else if c.msg.details.value.isStart then
              Lru.Add(ca.txns, Base64(c.msg.details.value.lsid), c.server, o.now)
            else Lru.Remove(ca.txns, Base64(c.msg.details.value.lsid))
  {
    hide Base64, BuildKey, SelectServer, DropSession, Lru.Add, Lru.Remove;
  }

  /**
   The transaction cache of an instance is what those calls make of an empty cache
   for 1048576 sessions and two minutes.
   */
  lemma {:induction false} TxnsAreLru(ls: seq<Label>, n: nat, inst: nat)
    requires Legal(INIT, ls) && n <= |ls|
    ensures CachesOf(At(ls, n), inst).txns == Lru.Run(1048576, 120_000_000_000, TxnOps(ls, n, inst))
  {
    hide Legal, Exec, Step, Base64, SettlesSession, Lru.Add, Lru.Remove, Lru.Expire, Lru.Run;
    if n == 0 {
      AtEnds(ls);
      NewIsRun(TxnOps(ls, n, inst));
    } else {
      TxnsAreLru(ls, n - 1, inst);
      AtStep(ls, n - 1);
      var m, ops := At(ls, n - 1), TxnOps(ls, n - 1, inst);
      assert ops + [] == ops;
      match ls[n - 1]
      case Advance(id, o) =>
        var c := m.calls[id];
        TxnsStep(c, m.sh, CachesOf(m, c.inst), o);
        if c.inst != inst && c.msg.details.Some? { OtherInstance(c, inst, c.msg.details.value.lsid); }
        if c.msg.details.Some? {
          var key := Base64(c.msg.details.value.lsid);
          Lru.RunOneMore(1048576, 120_000_000_000, ops, Lru.Timed(Lru.OpAdd(key, c.server), o.now));
          Lru.RunOneMore(1048576, 120_000_000_000, ops, Lru.Timed(Lru.OpRemove(key), o.now));
        }
      case Sweep(_, now) => Lru.RunOneMore(1048576, 120_000_000_000, ops, Lru.Timed(Lru.OpExpire, now));
      case _ =>
    }
  }

  lemma NewIsRun(ops: seq<Lru.Timed<string, Server>>)
    requires ops == []
    ensures NewCaches().txns == Lru.Run(1048576, 120_000_000_000, ops)
    ensures NewCaches().cursors == Lru.Run(1048576, 86_400_000_000_000, ops)
  {
  }

  lemma OtherInstance(c: Call, inst: nat, lsid: seq<byte>)
    requires c.inst != inst
    ensures !SettlesSession(c, inst, lsid)
  {
  }

  // What was last stored for the session is the server of its last answered start,
  // if no commit or abort has been answered since.
  lemma {:induction false} StoredIsSettled(ls: seq<Label>, n: nat, inst: nat, lsid: seq<byte>)
    requires Legal(INIT, ls) && n <= |ls|
    ensures LruTheorems.LastStored(TxnOps(ls, n, inst), Base64(lsid)) ==
            var k := LastSettled(ls, n, inst, lsid);
            if k.None? then None
            else
              var c := At(ls, k.value).calls[ls[k.value].id];
              if c.msg.details.value.isStart then Some(c.server) else None
  {
    hide Legal, Exec, Base64;
    if n > 0 {
      StoredIsSettled(ls, n - 1, inst, lsid);
      var ops, more := TxnOps(ls, n - 1, inst), TxnOps(ls, n, inst);
      assert |more| > |ops| ==> more[..|ops|] == ops;
      assert ops + [] == ops;
      if ls[n - 1].Advance? && ls[n - 1].id in At(ls, n - 1).calls {
        var c := At(ls, n - 1).calls[ls[n - 1].id];
        if c.msg.details.Some? && Base64(c.msg.details.value.lsid) == Base64(lsid) {
          Base64Injective(c.msg.details.value.lsid, lsid);
        }
      }
    }
  }

  /**
   A request with transaction details that found no pinned server when it selected,
   but its session in the transaction cache, writes to the server of the last start
   of the session answered through its instance; and no commit or abort of the
   session was answered through it between that start and the selection.
   */
  lemma TransactionAffinity(ls: seq<Label>, id: nat)
    requires Legal(INIT, ls) && id in Exec(INIT, ls).calls && Exec(INIT, ls).calls[id].pc == Send
    requires Exec(INIT, ls).calls[id].msg.details.Some?
    ensures Last(ls, |ls|, id, Select).Some?
    ensures var c := Exec(INIT, ls).calls[id];
            var k := Last(ls, |ls|, id, Select).value;
            var m, lsid := At(ls, k), c.msg.details.value.lsid;
            && Lru.Peek(CachesOf(m, c.inst).txns, Base64(lsid)).Some?
            && (c.sid.Some? && c.sid.value < |m.sh.heap| ==> GetPinnedServer(m.sh.heap[c.sid.value]).None?)
            ==>
              && var j := LastSettled(ls, k, c.inst, lsid);
              && j.Some?
              && var starter := At(ls, j.value).calls[ls[j.value].id];
              starter.msg.details.value.isStart && c.server == starter.server
  {
    hide Legal, Exec, Base64, BuildKey, SettlesSession, Lru.Peek;
    AtEnds(ls);
    ServerWasChosen(ls, |ls|, id);
    var k := Last(ls, |ls|, id, Select).value;
    var c := Exec(INIT, ls).calls[id];
    var lsid := c.msg.details.value.lsid;
    TxnsAreLru(ls, k, c.inst);
    LruTheorems.HitIsLastStored(1048576, 120_000_000_000, TxnOps(ls, k, c.inst), Base64(lsid));
    StoredIsSettled(ls, k, c.inst, lsid);
  }

  // ------------------------------------------------------------------ cursors

  // The step has a reply that came through the instance and reports the cursor, or
  // says that the request's own cursor is exhausted.
  predicate Reports(c: Call, inst: nat, cursorId: int, collection: string) {
    && c.pc.CacheCursor? && c.inst == inst && c.pc.reply.Some? && c.msg.collection == collection
    && (c.pc.reply.value == cursorId != 0 || (c.pc.reply.value == 0 && c.msg.cursorId == cursorId != 0))
  }

  predicate ReportsAt(ls: seq<Label>, k: nat, inst: nat, cursorId: int, collection: string)
    requires Legal(INIT, ls) && k < |ls|
  {
    ls[k].Advance? && ls[k].id in At(ls, k).calls && Reports(At(ls, k).calls[ls[k].id], inst, cursorId, collection)
  }

  function LastReported(ls: seq<Label>, n: nat, inst: nat, cursorId: int, collection: string): (r: Option<nat>)
    requires Legal(INIT, ls) && n <= |ls|
    ensures r.Some? ==> r.value < n && ReportsAt(ls, r.value, inst, cursorId, collection)
  {
    if n == 0 then None
    else if ReportsAt(ls, n - 1, inst, cursorId, collection) then Some(n - 1)
    else LastReported(ls, n - 1, inst, cursorId, collection)
  }

  // The calls that the cursor cache of an instance has seen before step n: an Add
  // for each reported cursor, a Remove for each exhausted one, and the sweeps.
  function CursorOps(ls: seq<Label>, n: nat, inst: nat): seq<Lru.Timed<string, Server>>
    requires Legal(INIT, ls) && n <= |ls|
  {
    if n == 0 then []
    else
      CursorOps(ls, n - 1, inst) +
      match ls[n - 1]
      case Sweep(i, now) => if i == inst then [Lru.Timed(Lru.OpExpire, now)] else []
      case Advance(id, o) =>
        (if id !in At(ls, n - 1).calls then []
         else
           var c := At(ls, n - 1).calls[id];
           if !c.pc.CacheCursor? || c.inst != inst || c.pc.reply.None? then []
           else if c.pc.reply.value != 0 then
             [Lru.Timed(Lru.OpAdd(BuildKey(c.pc.reply.value, c.msg.collection), c.server), o.now)]
           else if c.msg.cursorId != 0 then
             [Lru.Timed(Lru.OpRemove(BuildKey(c.msg.cursorId, c.msg.collection)), o.now)]
           else [])
      case _ => []
  }

  lemma CursorsStep(c: Call, sh: Shared, ca: Caches, o: Oracle)
    requires Sane(c, sh)
    ensures Step(c, sh, ca, o).ca.cursors ==
            if !c.pc.CacheCursor? || c.pc.reply.None? then ca.cursors
            else if c.pc.reply.value != 0 then
              Lru.Add(ca.cursors, BuildKey(c.pc.reply.value, c.msg.collection), c.server, o.now)
            else if c.msg.cursorId != 0 then Lru.Remove(ca.cursors, BuildKey(c.msg.cursorId, c.msg.collection))
            else ca.cursors
  {
    hide Base64, BuildKey, SelectServer, DropSession, Lru.Add, Lru.Remove;
  }

  /**
   The cursor cache of an instance is what those calls make of an empty cache for
   1048576 cursors and a day.
   */
  lemma {:induction false} CursorsAreLru(ls: seq<Label>, n: nat, inst: nat)
    requires Legal(INIT, ls) && n <= |ls|
    ensures CachesOf(At(ls, n), inst).cursors == Lru.Run(1048576, 86_400_000_000_000, CursorOps(ls, n, inst))
  {
    hide Legal, Exec, Step, BuildKey, Lru.Add, Lru.Remove, Lru.Expire, Lru.Run;
    if n == 0 {
      AtEnds(ls);
      NewIsRun(CursorOps(ls, n, inst));
    } else {
      CursorsAreLru(ls, n - 1, inst);
      AtStep(ls, n - 1);
      var m, ops := At(ls, n - 1), CursorOps(ls, n - 1, inst);
      assert ops + [] == ops;
      match ls[n - 1]
      case Advance(id, o) =>
        var c := m.calls[id];
        CursorsStep(c, m.sh, CachesOf(m, c.inst), o);
        if c.pc.CacheCursor? && c.pc.reply.Some? {
          var add, remove := BuildKey(c.pc.reply.value, c.msg.collection), BuildKey(c.msg.cursorId, c.msg.collection);
          Lru.RunOneMore(1048576, 86_400_000_000_000, ops, Lru.Timed(Lru.OpAdd(add, c.server), o.now));
          Lru.RunOneMore(1048576, 86_400_000_000_000, ops, Lru.Timed(Lru.OpRemove(remove), o.now));
        }
      case Sweep(_, now) => Lru.RunOneMore(1048576, 86_400_000_000_000, ops, Lru.Timed(Lru.OpExpire, now));
      case _ =>
    }
  }

  // What was last stored for the cursor is the server of the last reply that
  // reported it, if it has not been exhausted since.
  lemma {:induction false} StoredIsReported(ls: seq<Label>, n: nat, inst: nat, id: int, collection: string)
    requires Legal(INIT, ls) && n <= |ls| && id != 0
    ensures LruTheorems.LastStored(CursorOps(ls, n, inst), BuildKey(id, collection)) ==
            var k := LastReported(ls, n, inst, id, collection);
            if k.None? then None
            else
              var c := At(ls, k.value).calls[ls[k.value].id];
              if c.pc.reply == Some(id) then Some(c.server) else None
  {
    hide Legal, Exec, BuildKey, CachesOf, Enabled;
    if n > 0 {
      StoredIsReported(ls, n - 1, inst, id, collection);
      var ops, more := CursorOps(ls, n - 1, inst), CursorOps(ls, n, inst);
      assert |more| > |ops| ==> more[..|ops|] == ops;
      assert ops + [] == ops;
      if ls[n - 1].Advance? && ls[n - 1].id in At(ls, n - 1).calls {
        var c := At(ls, n - 1).calls[ls[n - 1].id];
        if c.pc.CacheCursor? && c.pc.reply.Some? {
          var mine := if c.pc.reply.value != 0 then c.pc.reply.value else c.msg.cursorId;
          if BuildKey(mine, c.msg.collection) == BuildKey(id, collection) {
            BuildKeyInjective(mine, c.msg.collection, id, collection);
          }
        }
      }
    }
  }

  /**
   A request for a cursor that found no pinned server and no session in the
   transaction cache when it selected, but its cursor in the cursor cache, writes to
   the server of the last reply through its instance that reported this cursor of
   this collection; and no reply in between said that the cursor was exhausted.
   */
  lemma CursorAffinity(ls: seq<Label>, id: nat)
    requires Legal(INIT, ls) && id in Exec(INIT, ls).calls && Exec(INIT, ls).calls[id].pc == Send
    requires Exec(INIT, ls).calls[id].msg.cursorId != 0
    ensures Last(ls, |ls|, id, Select).Some?
    ensures var c := Exec(INIT, ls).calls[id];
            var k := Last(ls, |ls|, id, Select).value;
            var m := At(ls, k);
            && Lru.Peek(CachesOf(m, c.inst).cursors, BuildKey(c.msg.cursorId, c.msg.collection)).Some?
            && (c.msg.details.Some? ==> Lru.Peek(CachesOf(m, c.inst).txns, Base64(c.msg.details.value.lsid)).None?)
            && (c.sid.Some? && c.sid.value < |m.sh.heap| ==> GetPinnedServer(m.sh.heap[c.sid.value]).None?)
            ==>
              && var j := LastReported(ls, k, c.inst, c.msg.cursorId, c.msg.collection);
              && j.Some?
              && var reporter := At(ls, j.value).calls[ls[j.value].id];
              reporter.pc.reply == Some(c.msg.cursorId) && c.server == reporter.server
  {
    hide Legal, Exec, Base64, BuildKey, Reports, Lru.Peek;
    AtEnds(ls);
    ServerWasChosen(ls, |ls|, id);
    var k := Last(ls, |ls|, id, Select).value;
    var c := Exec(INIT, ls).calls[id];
    CursorsAreLru(ls, k, c.inst);
    LruTheorems.HitIsLastStored(1048576, 86_400_000_000_000, CursorOps(ls, k, c.inst),
      BuildKey(c.msg.cursorId, c.msg.collection));
    StoredIsReported(ls, k, c.inst, c.msg.cursorId, c.msg.collection);
  }

  /**
   A request that found neither when it selected writes to the server the topology
   gave it then.
   */
  lemma TopologyOtherwise(ls: seq<Label>, id: nat)
    requires Legal(INIT, ls) && id in Exec(INIT, ls).calls && Exec(INIT, ls).calls[id].pc == Send
    ensures Last(ls, |ls|, id, Select).Some?
    ensures var c := Exec(INIT, ls).calls[id];
            var k := Last(ls, |ls|, id, Select).value;
            var m := At(ls, k);
            && (c.msg.cursorId != 0 ==>
                  Lru.Peek(CachesOf(m, c.inst).cursors, BuildKey(c.msg.cursorId, c.msg.collection)).None?)
            && (c.msg.details.Some? ==> Lru.Peek(CachesOf(m, c.inst).txns, Base64(c.msg.details.value.lsid)).None?)
            && (c.sid.Some? && c.sid.value < |m.sh.heap| ==> GetPinnedServer(m.sh.heap[c.sid.value]).None?)
            ==> ls[k].o.topology == Some(c.server)
  {
    hide Legal, Exec, Base64, BuildKey, Lru.Peek;
    AtEnds(ls);
    ServerWasChosen(ls, |ls|, id);
  }
}

/**
 Concurrent runs of proxy/router.go: any number of GetRoute, AddRoute and
 RemoveRoute calls and cache sweeps, interleaved one step at a time. The cache is
 probed without the lock; it is filled under the read lock and cleared under the
 write lock, before the table changes.
 */
module RouterRuns {
  import opened Common
  import opened Patterns
  import opened Router
  import Lru
  import L = LruTheorems

  datatype Change = AddChange(pattern: string, route: Route) | RemoveChange(pattern: string)

  function Changed(t: Table, c: Change): Table {
    match c
    case AddChange(p, r) => Add(t, p, r)
    case RemoveChange(p) => Remove(t, p)
  }

  datatype ReadAt =
    | Probing
    | WaitRead
    | HoldRead
    | Resolved(found: Option<Route>)
    | Leaving(found: Option<Route>)
    | Answered(answer: Option<Route>, until: nat)

  datatype WriteAt = WaitWrite | HoldWrite | Cleared | Done | Finished

  // A lookup remembers which table was current when it began, and how many there
  // had been when it ended.
  datatype Thread =
    | Lookup(name: string, start: nat, read: ReadAt)
    | Update(change: Change, write: WriteAt)

  // Every table so far, the current one last.
  datatype State = State(
    tables: seq<Table>,
    cache: Lru.Cache<string, Route>,
    threads: map<nat, Thread>,
    readers: set<nat>,
    writer: Option<nat>)

  function Now(s: State): Table
    requires s.tables != []
  {
    s.tables[|s.tables| - 1]
  }

  function Start(): State {
    State([Empty()], Lru.New(1000, 300_000_000_000), map[], {}, None)
  }

  datatype Label =
    | BeginLookup(id: nat, database: string)
    | BeginUpdate(id: nat, change: Change)
    | Advance(id: nat, now: int)
    | Sweep(now: int)

  predicate Enabled(s: State, l: Label) {
    match l
    case BeginLookup(id, _) => id !in s.threads
    case BeginUpdate(id, _) => id !in s.threads
    case Sweep(_) => true
    case Advance(id, _) =>
      id in s.threads &&
      match s.threads[id]
      case Lookup(_, _, WaitRead) => s.writer.None?
      case Lookup(_, _, at) => !at.Answered?
      case Update(_, WaitWrite) => s.writer.None? && s.readers == {}
      case Update(_, at) => at != Finished
  }

  function Go(s: State, id: nat, t: Thread): State {
    s.(threads := s.threads[id := t])
  }

  function StepLookup(s: State, id: nat, name: string, start: nat, at: ReadAt, now: int): State
    requires s.tables != []
  {
    match at
    case Probing =>
      var hit := Lru.Peek(s.cache, name);
      if hit.Some? then Go(s, id, Lookup(name, start, Answered(hit, |s.tables|))).(cache := Lru.Get(s.cache, name, now))
      else Go(s, id, Lookup(name, start, WaitRead))
    case WaitRead => Go(s, id, Lookup(name, start, HoldRead)).(readers := s.readers + {id})
    case HoldRead => Go(s, id, Lookup(name, start, Resolved(Resolve(Now(s), name))))
    case Resolved(found) =>
      Go(s, id, Lookup(name, start, Leaving(found))).(
        cache := if found.Some? then Lru.Add(s.cache, name, found.value, now) else s.cache)
    case Leaving(found) => Go(s, id, Lookup(name, start, Answered(found, |s.tables|))).(readers := s.readers - {id})
    case Answered(_, _) => s
  }

  function StepUpdate(s: State, id: nat, c: Change, at: WriteAt): State
    requires s.tables != []
  {
    match at
    case WaitWrite => Go(s, id, Update(c, HoldWrite)).(writer := Some(id))
    case HoldWrite => Go(s, id, Update(c, Cleared)).(cache := Lru.Clear(s.cache))
    case Cleared => Go(s, id, Update(c, Done)).(tables := s.tables + [Changed(Now(s), c)])
    case Done => Go(s, id, Update(c, Finished)).(writer := None)
    case Finished => s
  }

  function Next(s: State, l: Label): State
    requires s.tables != [] && Enabled(s, l)
  {
    match l
    case BeginLookup(id, database) => Go(s, id, Lookup(Lower(database), |s.tables| - 1, Probing))
    case BeginUpdate(id, change) => Go(s, id, Update(change, WaitWrite))
    case Sweep(now) => s.(cache := Lru.Expire(s.cache, now))
    case Advance(id, now) =>
      match s.threads[id]
      case Lookup(name, start, at) => StepLookup(s, id, name, start, at, now)
      case Update(c, at) => StepUpdate(s, id, c, at)
  }

  // The state a run reaches, if each of its steps is enabled when it is taken.
  function Run(ls: seq<Label>): (o: Option<State>)
    ensures o.Some? ==> o.value.tables != []
  {
    if ls == [] then Some(Start())
    else
      var o := Run(ls[..|ls| - 1]);
      var l := ls[|ls| - 1];
      if o.Some? && Enabled(o.value, l) then Some(Next(o.value, l)) else None
  }

  // The call that a step makes of the route cache, if any: a Get to probe it, an Add
  // for a route found, a Clear for a change, and the sweep.
  function CacheOp(s: State, l: Label): Option<Lru.Timed<string, Route>>
    requires Enabled(s, l)
  {
    match l
    case Sweep(now) => Some(Lru.Timed(Lru.OpExpire, now))
    case Advance(id, now) =>
      (match s.threads[id]
       case Lookup(name, _, Probing) => Some(Lru.Timed(Lru.OpGet(name), now))
       case Lookup(name, _, Resolved(Some(route))) => Some(Lru.Timed(Lru.OpAdd(name, route), now))
       case Update(_, HoldWrite) => Some(Lru.Timed(Lru.OpClear, now))
       case _ => None)
    case _ => None
  }

  // All of them in a run.
  function CacheOps(ls: seq<Label>): seq<Lru.Timed<string, Route>>
    requires Run(ls).Some?
  {
    if ls == [] then []
    else
      var op := CacheOp(Run(ls[..|ls| - 1]).value, ls[|ls| - 1]);
      CacheOps(ls[..|ls| - 1]) + if op.Some? then [op.value] else []
  }

  lemma CacheStep(s: State, l: Label)
    requires s.tables != [] && Enabled(s, l)
    ensures Next(s, l).cache == if CacheOp(s, l).Some? then Lru.Apply(s.cache, CacheOp(s, l).value) else s.cache
  {
    hide Lru.Get, Lru.Add, Lru.Expire, Lru.Peek, Lower, Resolve, Changed;
    if l.Advance? && s.threads[l.id].Lookup? {
      MissedProbe(s.cache, s.threads[l.id].name, l.now);
    }
  }

  /**
   The route cache is what those calls make of an empty cache for 1000 names and
   five minutes.
   */
  lemma {:induction false} CacheIsLru(ls: seq<Label>)
    requires Run(ls).Some?
    ensures Run(ls).value.cache == Lru.Run(1000, 300_000_000_000, CacheOps(ls))
  {
    hide Lru.Apply, Next, CacheOp, Enabled;
    if ls != [] {
      var s, l := Run(ls[..|ls| - 1]).value, ls[|ls| - 1];
      CacheIsLru(ls[..|ls| - 1]);
      CacheStep(s, l);
      var ops := CacheOps(ls[..|ls| - 1]);
      assert ops + [] == ops;
      if CacheOp(s, l).Some? { Lru.RunOneMore(1000, 300_000_000_000, ops, CacheOp(s, l).value); }
    }
  }

  lemma MissedProbe(c: Lru.Cache<string, Route>, name: string, now: int)
    ensures Lru.Peek(c, name).None? ==> Lru.Get(c, name, now) == c
  {
  }

  // --------------------------------------------------------------- invariant

  predicate Reading(t: Thread) {
    t.Lookup? && (t.read.HoldRead? || t.read.Resolved? || t.read.Leaving?)
  }

  predicate Writing(t: Thread) {
    t.Update? && (t.write.HoldWrite? || t.write.Cleared? || t.write.Done?)
  }

  // The locks are held by the threads that believe to hold them, as an
  // exclusive writer or as readers.
  ghost predicate LocksInv(s: State) {
    && (forall id :: id in s.readers <==> id in s.threads && Reading(s.threads[id]))
    && (forall id :: s.writer == Some(id) <==> id in s.threads && Writing(s.threads[id]))
    && (s.writer.Some? ==> s.readers == {})
  }

  // What is cached is what the table would answer.
  ghost predicate Coherent(t: Table, c: Lru.Cache<string, Route>) {
    && Lru.Distinct(c.entries)
    && forall name :: Lru.Peek(c, name).Some? ==> Lru.Peek(c, name) == Resolve(t, name)
  }

  // Some table that was current during the lookup gives the answer.
  predicate AnsweredBy(ts: seq<Table>, name: string, start: nat, until: nat, a: Option<Route>) {
    until <= |ts| && exists v :: start <= v < until && Resolve(ts[v], name) == a
  }

  predicate ThreadInv(s: State, t: Thread)
    requires s.tables != []
  {
    match t
    case Lookup(name, start, at) =>
      start < |s.tables| &&
      (match at
       case Resolved(found) => found == Resolve(Now(s), name)
       case Leaving(found) => found == Resolve(Now(s), name)
       case Answered(a, until) => AnsweredBy(s.tables, name, start, until, a)
       case _ => true)
    case Update(_, at) => at.Cleared? ==> s.cache.entries == []
  }

  ghost predicate Inv(s: State) {
    && s.tables != []
    && LocksInv(s)
    && Coherent(Now(s), s.cache)
    && forall id :: id in s.threads ==> ThreadInv(s, s.threads[id])
  }

  // ------------------------------------------------------- what keeps the cache

  lemma GetCoherent(t: Table, c: Lru.Cache<string, Route>, k: string, now: int)
    requires Coherent(t, c)
    ensures Coherent(t, Lru.Get(c, k, now))
    ensures c.entries == [] ==> Lru.Get(c, k, now) == c
  {
    hide Resolve;
    L.ApplyKeepsDistinct(c, Lru.Timed(Lru.OpGet(k), now));
    forall x | Lru.Peek(Lru.Get(c, k, now), x).Some?
      ensures Lru.Peek(Lru.Get(c, k, now), x) == Resolve(t, x)
    {
      L.PeekAfterGet(c, k, now, x);
    }
  }

  lemma AddCoherent(t: Table, c: Lru.Cache<string, Route>, k: string, r: Route, now: int)
    requires Coherent(t, c) && Resolve(t, k) == Some(r)
    ensures Coherent(t, Lru.Add(c, k, r, now))
  {
    hide Resolve;
    L.ApplyKeepsDistinct(c, Lru.Timed(Lru.OpAdd(k, r), now));
    forall x | Lru.Peek(Lru.Add(c, k, r, now), x).Some?
      ensures Lru.Peek(Lru.Add(c, k, r, now), x) == Resolve(t, x)
    {
      Lru.PeekAfterAdd(c, k, r, now, x);
    }
  }

  lemma ExpireCoherent(t: Table, c: Lru.Cache<string, Route>, now: int)
    requires Coherent(t, c)
    ensures Coherent(t, Lru.Expire(c, now))
    ensures c.entries == [] ==> Lru.Expire(c, now) == c
  {
    hide Resolve;
    forall x | Lru.Peek(Lru.Expire(c, now), x).Some?
      ensures Lru.Peek(Lru.Expire(c, now), x) == Resolve(t, x)
    {
      L.PeekAfterExpire(c, now, x);
    }
  }

  // -------------------------------------------------------- each step keeps it

  // A new table keeps every lookup's answer justified.
  lemma AnswerStays(ts: seq<Table>, t: Table, name: string, start: nat, until: nat, a: Option<Route>)
    requires AnsweredBy(ts, name, start, until, a)
    ensures AnsweredBy(ts + [t], name, start, until, a)
  {
    var v :| start <= v < until && Resolve(ts[v], name) == a;
    assert (ts + [t])[v] == ts[v];
  }

  // A step of one thread that leaves the table alone leaves the other threads' facts alone.
  lemma OthersKept(s: State, n: State, id: nat, t: Thread)
    requires Inv(s) && n.tables == s.tables && n.threads == s.threads[id := t]
    requires n.cache.entries == [] || s.cache.entries != [] || s.writer.None?
    requires LocksInv(n) && Coherent(Now(n), n.cache) && ThreadInv(n, t)
    ensures Inv(n)
  {
    hide Resolve, AnsweredBy, Lru.Peek;
    forall i | i in n.threads ensures ThreadInv(n, n.threads[i]) {
      assert i != id ==> ThreadInv(s, s.threads[i]);
      assert i in s.threads && Writing(s.threads[i]) ==> s.writer == Some(i);
    }
  }

  lemma ProbeKeeps(s: State, id: nat, now: int)
    requires Inv(s) && id in s.threads && s.threads[id].Lookup? && s.threads[id].read.Probing?
    ensures Inv(Next(s, Advance(id, now)))
  {
    hide Resolve, Lru.Get;
    var t := s.threads[id];
    var n := Next(s, Advance(id, now));
    GetCoherent(Now(s), s.cache, t.name, now);
    if Lru.Peek(s.cache, t.name).Some? {
      assert Resolve(s.tables[|s.tables| - 1], t.name) == Lru.Peek(s.cache, t.name);
    }
    OthersKept(s, n, id, n.threads[id]);
  }

  lemma FillKeeps(s: State, id: nat, now: int)
    requires Inv(s) && id in s.threads && s.threads[id].Lookup? && s.threads[id].read.Resolved?
    ensures Inv(Next(s, Advance(id, now)))
  {
    hide Resolve, Lru.Add, Lru.Peek;
    var t := s.threads[id];
    var n := Next(s, Advance(id, now));
    assert ThreadInv(s, t) && id in s.readers;
    if t.read.found.Some? {
      AddCoherent(Now(s), s.cache, t.name, t.read.found.value, now);
    }
    OthersKept(s, n, id, n.threads[id]);
  }

  lemma LookupKeeps(s: State, id: nat, now: int)
    requires Inv(s) && Enabled(s, Advance(id, now)) && s.threads[id].Lookup?
    ensures Inv(Next(s, Advance(id, now)))
  {
    hide Resolve, Lru.Get, Lru.Add, Lru.Peek;
    var t := s.threads[id];
    var n := Next(s, Advance(id, now));
    if t.read.Probing? {
      ProbeKeeps(s, id, now);
    } else if t.read.Resolved? {
      FillKeeps(s, id, now);
    } else {
      if t.read.Leaving? {
        assert ThreadInv(s, t);
        assert Resolve(s.tables[|s.tables| - 1], t.name) == t.read.found;
      }
      OthersKept(s, n, id, n.threads[id]);
    }
  }

  lemma ClearCoherent(t: Table, c: Lru.Cache<string, Route>)
    ensures Coherent(t, Lru.Clear(c))
  {
  }

  lemma UpdateKeeps(s: State, id: nat, now: int)
    requires Inv(s) && Enabled(s, Advance(id, now)) && s.threads[id].Update?
    ensures Inv(Next(s, Advance(id, now)))
  {
    hide Resolve, Changed, Lru.Peek, AnsweredBy;
    var u := s.threads[id];
    var n := Next(s, Advance(id, now));
    match u.write
    case HoldWrite => ClearCoherent(Now(s), s.cache);
    case Cleared =>
      assert s.cache == Lru.Clear(s.cache);
      ClearCoherent(Now(n), s.cache);
      forall i | i in n.threads ensures ThreadInv(n, n.threads[i]) {
        var t := n.threads[i];
        if i != id && t.Lookup? && t.read.Answered? {
          AnswerStays(s.tables, Changed(Now(s), u.change), t.name, t.start, t.read.until, t.read.answer);
        }
        assert i != id ==> t == s.threads[i] && !Reading(t);
      }
    case _ =>
  }

  lemma StepKeeps(s: State, l: Label)
    requires Inv(s) && Enabled(s, l)
    ensures Inv(Next(s, l))
  {
    match l
    case Sweep(now) =>
      hide Resolve, Lru.Expire, Lru.Peek;
      ExpireCoherent(Now(s), s.cache, now);
    case Advance(id, now) =>
      if s.threads[id].Lookup? { LookupKeeps(s, id, now); } else { UpdateKeeps(s, id, now); }
    case _ => hide Resolve, Lru.Peek;
  }

  // ----------------------------------------------------------------- theorems

  lemma {:induction false} RunKeeps(ls: seq<Label>)
    requires Run(ls).Some?
    ensures Inv(Run(ls).value)
  {
    if ls != [] {
      RunKeeps(ls[..|ls| - 1]);
      StepKeeps(Run(ls[..|ls| - 1]).value, ls[|ls| - 1]);
    }
  }

  /**
   In every state of every run a cached route is the one the current table
   resolves to, however lookups, changes and sweeps are interleaved.
   */
  lemma CachedRouteIsCurrent(ls: seq<Label>, name: string)
    requires Run(ls).Some? && Lru.Peek(Run(ls).value.cache, name).Some?
    ensures Lru.Peek(Run(ls).value.cache, name) == Resolve(Now(Run(ls).value), name)
  {
    RunKeeps(ls);
  }

  /**
   Each finished lookup, cached or not, answered as one of the tables that were
   current between its beginning and its end; with no change in between it
   answered as that very table.
   */
  lemma LookupIsAtomic(ls: seq<Label>, id: nat)
    requires Run(ls).Some? && id in Run(ls).value.threads
    requires var t := Run(ls).value.threads[id]; t.Lookup? && t.read.Answered?
    ensures var s := Run(ls).value;
            var t := s.threads[id];
            && AnsweredBy(s.tables, t.name, t.start, t.read.until, t.read.answer)
            && (t.read.until == t.start + 1 ==> t.read.answer == Resolve(s.tables[t.start], t.name))
  {
    hide Run, Resolve, Coherent, LocksInv;
    RunKeeps(ls);
    assert ThreadInv(Run(ls).value, Run(ls).value.threads[id]);
  }

  // No two calls change the table at once, and none while a lookup reads it.
  lemma ChangesAreExclusive(ls: seq<Label>, a: nat, b: nat)
    requires Run(ls).Some? && a in Run(ls).value.threads && b in Run(ls).value.threads && a != b
    ensures var ts := Run(ls).value.threads;
            Writing(ts[a]) ==> !Writing(ts[b]) && !Reading(ts[b])
  {
    RunKeeps(ls);
    var s := Run(ls).value;
    assert Writing(s.threads[a]) ==> s.writer == Some(a);
    assert Reading(s.threads[b]) ==> b in s.readers;
  }
}

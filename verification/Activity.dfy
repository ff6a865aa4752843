/**
 What the activity time of a session tells: the clock reading of the last step that
 looked the session up, made it, or moved its transaction. In every legal run.
 */
module Activity {
  import opened Common
  import opened Keys
  import opened Protocol
  import opened Runs
  import opened OverlapSteps
  import opened OverlapRuns
  import opened Positions

  // The step makes the session, finds it by its lsid, starts a transaction on it,
  // accepts a commit or abort of it, or ends it.
  predicate Stirs(c: Call, sh: Shared, sid: nat) {
    || (c.pc == Create && sid == |sh.heap|)
    || (&& c.pc == Lookup && c.msg.details.Some?
        && var key := Base64(c.msg.details.value.lsid);
        && key in sh.table && sh.table[key] == sid && sid < |sh.heap| && sh.heap[sid].state != Ended)
    || Starts(c, sh, sid)
    || Accepts(c, sh, sid)
    || (&& c.pc == Act && c.sid == Some(sid) && c.msg.command == EndSessions
        && sid < |sh.heap| && sh.heap[sid].state != Ended)
  }

  predicate StirsAt(ls: seq<Label>, k: nat, sid: nat)
    requires Legal(INIT, ls) && k < |ls|
  {
    ls[k].Advance? && ls[k].id in At(ls, k).calls && Stirs(At(ls, k).calls[ls[k].id], At(ls, k).sh, sid)
  }

  // The last such step before step n.
  function LastStirred(ls: seq<Label>, n: nat, sid: nat): (r: Option<nat>)
    requires Legal(INIT, ls) && n <= |ls|
    ensures r.Some? ==> r.value < n && StirsAt(ls, r.value, sid)
  {
    if n == 0 then None
    else if StirsAt(ls, n - 1, sid) then Some(n - 1)
    else LastStirred(ls, n - 1, sid)
  }

  lemma StirStep(c: Call, sh: Shared, ca: Caches, o: Oracle, sid: nat)
    requires Sane(c, sh)
    ensures var r := Step(c, sh, ca, o);
            && |sh.heap| <= |r.sh.heap|
            && (sid < |r.sh.heap| ==>
                  if Stirs(c, sh, sid) then r.sh.heap[sid].lastActivity == o.now
                  else sid < |sh.heap| && r.sh.heap[sid].lastActivity == sh.heap[sid].lastActivity)
  {
    hide Base64, BuildKey, SelectServer;
  }

  /**
   The activity time of a session, by which cleanup decides, is the reading of the
   clock at the last such step.
   */
  lemma {:induction false} ActivityIsLastStir(ls: seq<Label>, n: nat, sid: nat)
    requires Legal(INIT, ls) && n <= |ls| && sid < |At(ls, n).sh.heap|
    ensures var k := LastStirred(ls, n, sid);
            k.Some? && At(ls, n).sh.heap[sid].lastActivity == ls[k.value].o.now
  {
    hide Legal, Exec, Step, Stirs;
    if n == 0 {
      AtEnds(ls);
    } else {
      AtStep(ls, n - 1);
      var m := At(ls, n - 1);
      if ls[n - 1].Advance? {
        var c := m.calls[ls[n - 1].id];
        StirStep(c, m.sh, CachesOf(m, c.inst), ls[n - 1].o, sid);
      }
      if !StirsAt(ls, n - 1, sid) {
        ActivityIsLastStir(ls, n - 1, sid);
      }
    }
  }
}

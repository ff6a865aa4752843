/**
 The method RoundTrip inside a run: a call made while the proxy is in any
 reachable state, other calls of its session in flight or not, is a stretch of a
 run of the machine in Runs.
 */
module Refinement {
  import opened Common
  import opened Keys
  import opened Protocol
  import opened Pinning
  import opened PinningSteps
  import opened Runs
  import opened OverlapRuns
  import RoundTrip
  import Traces

  // The labels of the first n steps of call id, up to its end.
  function CallLabels(cfg: Config, id: nat, oracle: nat -> Oracle, n: nat): seq<Label> {
    if n == 0 then []
    else
      var ls := CallLabels(cfg, id, oracle, n - 1);
      var p := RoundTrip.Iterate(RoundTrip.Steps(oracle), cfg, 0, n - 1);
      if p.c.pc == Done then ls else ls + [Advance(id, oracle(n - 1))]
  }

  lemma StepAtDone(cfg: Config, o: Oracle)
    requires cfg.c.pc == Done
    ensures RoundTrip.StepOf(cfg, o) == cfg
  {
  }

  lemma IterateStep(cfg: Config, oracle: nat -> Oracle, n: nat)
    requires n > 0
    ensures RoundTrip.Iterate(RoundTrip.Steps(oracle), cfg, 0, n) ==
            RoundTrip.StepOf(RoundTrip.Iterate(RoundTrip.Steps(oracle), cfg, 0, n - 1), oracle(n - 1))
  {
  }

  lemma AdvanceSelf(m: Machine, id: nat, o: Oracle)
    requires FreeInv(m) && id in m.calls && m.calls[id].pc != Done
    ensures Enabled(m, Advance(id, o))
    ensures var c := m.calls[id];
            var r := RoundTrip.StepOf(Config(c, m.sh, CachesOf(m, c.inst)), o);
            var m' := Apply(m, Advance(id, o));
            && id in m'.calls && m'.calls[id] == r.c && m'.sh == r.sh && CachesOf(m', c.inst) == r.ca
            && r.c.inst == c.inst
  {
    CallParts(m.calls[id], m.sh);
    Traces.SameCall(m.calls[id], m.sh, CachesOf(m, m.calls[id].inst), o);
  }

  // The state of the machine once the call has made n steps.
  ghost predicate Holds(m: Machine, id: nat, inst: nat, cfg: Config) {
    && FreeInv(m) && id in m.calls && m.calls[id] == cfg.c && cfg.c.inst == inst
    && m.sh == cfg.sh && CachesOf(m, inst) == cfg.ca
  }

  lemma {:induction false} CallIsRun(m: Machine, id: nat, inst: nat, cfg: Config, oracle: nat -> Oracle, n: nat)
    requires Holds(m, id, inst, cfg)
    ensures Orderly(m, CallLabels(cfg, id, oracle, n))
    ensures Holds(Exec(m, CallLabels(cfg, id, oracle, n)), id, inst,
                  RoundTrip.Iterate(RoundTrip.Steps(oracle), cfg, 0, n))
  {
    hide FreeInv, Apply, RoundTrip.StepOf;
    if n > 0 {
      CallIsRun(m, id, inst, cfg, oracle, n - 1);
      var ls := CallLabels(cfg, id, oracle, n - 1);
      var p := RoundTrip.Iterate(RoundTrip.Steps(oracle), cfg, 0, n - 1);
      IterateStep(cfg, oracle, n);
      if p.c.pc == Done {
        StepAtDone(p, oracle(n - 1));
      } else {
        var m' := Exec(m, ls);
        AdvanceSelf(m', id, oracle(n - 1));
        FreeApply(m', Advance(id, oracle(n - 1)));
        var ls' := ls + [Advance(id, oracle(n - 1))];
        assert ls'[..|ls'| - 1] == ls && ls'[|ls'| - 1] == Advance(id, oracle(n - 1));
      }
    }
  }

  // The configuration in which a request that arrives in state m begins.
  function Arrived(m: Machine, inst: nat, msg: Message): Config {
    Config(Begin(m.next, inst, msg), m.sh, CachesOf(m, inst))
  }

  // What RoundTrip ensures of its execution, n steps from Begin to Done, is a legal
  // run: the request arrives, its call advances, and the machine ends with the same
  // sessions, connections, trace and caches.
  lemma MethodIsRun(m: Machine, inst: nat, msg: Message, oracle: nat -> Oracle, n: nat)
    requires FreeInv(m)
    requires RoundTrip.Iterate(RoundTrip.Steps(oracle), Arrived(m, inst, msg), 0, n).c.pc == Done
    ensures var r := RoundTrip.Iterate(RoundTrip.Steps(oracle), Arrived(m, inst, msg), 0, n);
            var arrived := Apply(m, Arrive(inst, msg));
            var ls := CallLabels(Arrived(m, inst, msg), m.next, oracle, n);
            && Orderly(arrived, ls)
            && var m' := Exec(arrived, ls);
            && FreeInv(m') && m'.sh == r.sh && CachesOf(m', inst) == r.ca
            && m.next in m'.calls && m'.calls[m.next] == r.c
            && Enabled(m', Answer(m.next))
  {
    hide FreeInv, RoundTrip.Iterate, RoundTrip.Steps, CallLabels;
    FreeApply(m, Arrive(inst, msg));
    CallIsRun(Apply(m, Arrive(inst, msg)), m.next, inst, Arrived(m, inst, msg), oracle, n);
  }
}

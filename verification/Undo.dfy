/**
 Undoing Apply. One fault-free Cleanup restores a clean store exactly, rule for
 rule and in order, after a run of Apply in which any commands failed; and over
 arbitrary histories it does so if and only if no hook has more copies than
 Cleanup has deletions for it.
 */
module Undo {
  import opened Netfilter
  import opened Footprints
  import opened Cleaners
  import opened Firewall
  import opened Ownership
  import opened Additions
  import opened Confinement

  // ----- histories -----

  /** One call, with its own faults. */
  datatype Call = ApplyCall(env: Env, bypass: BypassList) | CleanupCall(env: Env)

  function Begin(s: Store): Machine {
    Machine(s, 0, [])
  }

  function RunCall(cfg: Config, s: Store, c: Call): Store {
    match c
    case ApplyCall(env, bypass) => Run(env, Begin(s), ApplyProgram(cfg, bypass)).store
    case CleanupCall(env) => Run(env, Begin(s), CleanupProgram(cfg)).store
  }

  function RunCalls(cfg: Config, s: Store, calls: seq<Call>): Store
    decreases calls
  {
    if calls == [] then s else RunCalls(cfg, RunCall(cfg, s, calls[0]), calls[1..])
  }

  /** Through any history of calls, however many commands fail, foreign rules keep their content and order. */
  lemma {:induction false} ForeignRulesSurvive(cfg: Config, s: Store, calls: seq<Call>)
    requires Shape(Owned(cfg), s)
    ensures Foreign(Owned(cfg), RunCalls(cfg, s, calls)) == Foreign(Owned(cfg), s)
    ensures Shape(Owned(cfg), RunCalls(cfg, s, calls))
    decreases calls
  {
    if calls != [] {
      match calls[0] {
        case ApplyCall(env, bypass) =>
          ApplyWithin(cfg, bypass);
          RunKeepsForeign(env, Owned(cfg), Begin(s), ApplyProgram(cfg, bypass));
        case CleanupCall(env) =>
          CleanupWithin(cfg);
          RunKeepsForeign(env, Owned(cfg), Begin(s), CleanupProgram(cfg));
      }
      ForeignRulesSurvive(cfg, RunCall(cfg, s, calls[0]), calls[1..]);
    }
  }

  /**
   After any history from a clean start, one fault-free Cleanup restores the
   original store if and only if no hook is stacked deeper than Cleanup digs.
   */
  lemma {:induction false} CleanupRestoresExactly(cfg: Config, s0: Store, calls: seq<Call>, env: Env)
    requires CleanStart(cfg, s0) && FaultFree(env)
    ensures Deletions(CleanupPhases(cfg))
    ensures RunCall(cfg, RunCalls(cfg, s0, calls), CleanupCall(env)) == s0
       <==> Bounded(Owned(cfg), CleanupPhases(cfg), RunCalls(cfg, s0, calls))
  {
    var fp, cl, s := Owned(cfg), CleanupPhases(cfg), RunCalls(cfg, s0, calls);
    OwnedFacts(cfg);
    CleanIsForeign(fp, s0);
    ForeignRulesSurvive(cfg, s0, calls);
    if Bounded(fp, cl, s) {
      CleanupFits(cfg, s);
    }
    CleanerExact(env, fp, Begin(s), cl);
  }

  lemma {:induction false} CleanCounts(fp: Footprint, s: Store, id: ChainId, r: Rule)
    requires Clean(fp, s) && (id, r) in fp.rules
    ensures Count(s, id, r) == 0
  {
  }

  /** One run of Apply, whatever fails in it, stacks no hook too deep. */
  lemma {:induction false} PartialApplyBounded(cfg: Config, s0: Store, env: Env, bypass: BypassList)
    requires CleanStart(cfg, s0)
    ensures Deletions(CleanupPhases(cfg))
    ensures Bounded(Owned(cfg), CleanupPhases(cfg), RunCall(cfg, s0, ApplyCall(env, bypass)))
  {
    var fp, cl := Owned(cfg), CleanupPhases(cfg);
    OwnedFacts(cfg);
    forall id, r | (id, r) in fp.rules
      ensures Count(RunCall(cfg, s0, ApplyCall(env, bypass)), id, r) <= AllDeletes(cl, id, r)
    {
      RunCount(env, Begin(s0), ApplyProgram(cfg, bypass), id, r);
      CleanCounts(fp, s0, id, r);
      ApplyAdds(cfg, bypass, id, r);
    }
  }

  /**
   From any clean start, if any commands of Apply fail, or it stops after any
   prefix, one fault-free Cleanup restores every chain exactly.
   */
  lemma {:induction false} UndoPartialApply(cfg: Config, s0: Store, faulty: Env, bypass: BypassList, env: Env)
    requires CleanStart(cfg, s0) && FaultFree(env)
    ensures RunCall(cfg, RunCall(cfg, s0, ApplyCall(faulty, bypass)), CleanupCall(env)) == s0
  {
    PartialApplyBounded(cfg, s0, faulty, bypass);
    OneCall(cfg, s0, ApplyCall(faulty, bypass));
    CleanupRestoresExactly(cfg, s0, [ApplyCall(faulty, bypass)], env);
  }

  lemma {:induction false} OneCall(cfg: Config, s: Store, call: Call)
    ensures RunCalls(cfg, s, [call]) == RunCall(cfg, s, call)
  {
    assert [call][1..] == [];
    assert RunCalls(cfg, RunCall(cfg, s, call), [call][1..]) == RunCall(cfg, s, call);
  }
}

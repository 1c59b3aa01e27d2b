/**
 One disturbed Apply is always undone, but a series of them need not be: if the
 deletions keep failing while the hook goes in, hooks pile up deeper than one
 Cleanup digs.
 */
module Stacking {
  import opened Common
  import opened Netfilter
  import opened Footprints
  import opened Firewall
  import opened Iptables
  import opened Ownership
  import opened Additions
  import opened Idle
  import opened Disturbed
  import opened Reports
  import opened Undo

  /** Every command but number `j` fails. */
  function AllBut(k: Kernel, j: nat): Env {
    Env(k, (n: nat) => if n == j then None else Some(NoSuchChain))
  }

  lemma {:induction false} FailedAll(env: Env, s: Store, clock: nat, cs: seq<Command>)
    requires forall n: nat :: clock <= n < clock + |cs| ==> env.faults(n).Some?
    ensures MutedAll(env, s, clock, cs)
    decreases cs
  {
    if cs != [] {
      FailedAll(env, s, clock + 1, cs[1..]);
    }
  }

  /** A program whose commands all fail is muted. */
  lemma {:induction false} FailedMuted(env: Env, s: Store, clock: nat, p: Program)
    requires forall n: nat :: clock <= n < clock + Costs(p) ==> env.faults(n).Some?
    ensures Muted(env, s, clock, p)
    decreases p
  {
    if p != [] {
      if p[0].FirstOk? {
        FailedAll(env, s, clock, p[0].cmds);
      }
      FailedMuted(env, s, clock + Cost(p[0]), p[1..]);
    }
  }

  lemma {:induction false} RunIdle(env: Env, m: Machine, p: Program)
    requires forall n: nat :: m.clock <= n < m.clock + Costs(p) ==> env.faults(n).Some?
    ensures Run(env, m, p).store == m.store
    ensures Run(env, m, p).clock == m.clock + Costs(p)
  {
    FailedMuted(env, m.store, m.clock, p);
    MutedIdle(env, m, p);
  }

  lemma {:induction false} OneWorks(k: Kernel, s: Store, a: Program, c: Command, b: Program)
    requires Refusal(k, s, c).None?
    ensures Run(AllBut(k, Costs(a)), Begin(s), a + [Must(c)] + b).store == Effect(k, s, c)
  {
    var env := AllBut(k, Costs(a));
    Run3(env, Begin(s), a, [Must(c)], b);
    RunIdle(env, Begin(s), a);
    var m := Run(env, Begin(s), a);
    RunSnoc(env, m, [], Must(c));
    assert [] + [Must(c)] == [Must(c)];
    RunIdle(env, Run(env, m, [Must(c)]), b);
  }

  /** The hook insertion comes after all the commands before it, if none of them succeeds. */
  lemma {:induction false} HookComes(cfg: Config, bypass: BypassList)
    ensures Costs(CleanerProgram(RulesPhases(cfg)) + ChainsProgram(cfg, bypass)) == HookAt(Making(cfg), PlanOf(cfg, bypass))
  {
    CostsConcat(CleanerProgram(RulesPhases(cfg)), ChainsProgram(cfg, bypass));
    MakingIs(cfg);
    ChainsProgramMust(cfg, bypass);
    MustCosts(ChainsProgram(cfg, bypass));
  }

  lemma {:induction false} SplitFirst(a: Program, p: Program, rest: Program)
    requires p != []
    ensures a + p + rest == a + [p[0]] + (p[1..] + rest)
  {
    assert p == [p[0]] + p[1..];
  }

  /** An Apply of which only the first command after the cleanup works. */
  lemma {:induction false} OnlyMakes(k: Kernel, cfg: Config, s: Store, bypass: BypassList)
    requires NatChain(OutName(Prefix(cfg))) !in s
    ensures RunCall(cfg, s, ApplyCall(AllBut(k, Making(cfg)), bypass)) == s[NatChain(OutName(Prefix(cfg))) := []]
  {
    var a, make := CleanerProgram(RulesPhases(cfg)), MakeChains(Prefix(cfg));
    var c := New(NatChain(OutName(Prefix(cfg))));
    var rest := Appends(NatChain(OutName(Prefix(cfg))), ChainRules(cfg, bypass, true))
              + (Appends(NatChain(PreName(Prefix(cfg))), ChainRules(cfg, bypass, false)) + (HooksProgram(cfg) + BestEffortProgram(cfg)));
    MakeFirst(cfg, bypass);
    MakingIs(cfg);
    SplitFirst(a, make, rest);
    OneWorks(k, s, a, c, make[1..] + rest);
  }

  lemma {:induction false} MakeFirst(cfg: Config, bypass: BypassList)
    ensures ApplyProgram(cfg, bypass)
         == CleanerProgram(RulesPhases(cfg)) + MakeChains(Prefix(cfg))
          + (Appends(NatChain(OutName(Prefix(cfg))), ChainRules(cfg, bypass, true))
             + (Appends(NatChain(PreName(Prefix(cfg))), ChainRules(cfg, bypass, false)) + (HooksProgram(cfg) + BestEffortProgram(cfg))))
  {
    Regroup(CleanerProgram(RulesPhases(cfg)), MakeChains(Prefix(cfg)),
            Appends(NatChain(OutName(Prefix(cfg))), ChainRules(cfg, bypass, true)),
            Appends(NatChain(PreName(Prefix(cfg))), ChainRules(cfg, bypass, false)), HooksProgram(cfg), BestEffortProgram(cfg));
  }

  lemma {:induction false} Regroup(a: Program, b: Program, c: Program, d: Program, e: Program, f: Program)
    ensures a + ((b + c + d) + e) + f == a + b + (c + (d + (e + f)))
    ensures a + ((b + c + d) + e) + f == (a + (b + c + d)) + e + f
  {
  }

  /** An Apply of which only the insertion of the OUTPUT hook works. */
  lemma {:induction false} OnlyHooks(k: Kernel, cfg: Config, s: Store, bypass: BypassList)
    requires NatChain(OutName(Prefix(cfg))) in s && NAT_OUTPUT in s
    ensures RunCall(cfg, s, ApplyCall(AllBut(k, HookAt(Making(cfg), PlanOf(cfg, bypass))), bypass))
         == s[NAT_OUTPUT := [TcpJump(OutName(Prefix(cfg)))] + s[NAT_OUTPUT]]
  {
    var a := CleanerProgram(RulesPhases(cfg)) + ChainsProgram(cfg, bypass);
    var hooks, rest := HooksProgram(cfg), BestEffortProgram(cfg);
    Regroup(CleanerProgram(RulesPhases(cfg)), MakeChains(Prefix(cfg)),
            Appends(NatChain(OutName(Prefix(cfg))), ChainRules(cfg, bypass, true)),
            Appends(NatChain(PreName(Prefix(cfg))), ChainRules(cfg, bypass, false)), hooks, rest);
    SplitFirst(a, hooks, rest);
    HookComes(cfg, bypass);
    OneWorks(k, s, a, Insert(NAT_OUTPUT, TcpJump(OutName(Prefix(cfg)))), hooks[1..] + rest);
  }

  function Again(call: Call, n: nat): seq<Call> {
    if n == 0 then [] else [call] + Again(call, n - 1)
  }

  lemma {:induction false} OneMoreHook(k: Kernel, cfg: Config, s: Store, call: Call, bypass: BypassList)
    requires NatChain(OutName(Prefix(cfg))) in s && NAT_OUTPUT in s && NAT_OUTPUT != NatChain(OutName(Prefix(cfg)))
    requires call == ApplyCall(AllBut(k, HookAt(Making(cfg), PlanOf(cfg, bypass))), bypass)
    ensures NatChain(OutName(Prefix(cfg))) in RunCall(cfg, s, call) && NAT_OUTPUT in RunCall(cfg, s, call)
    ensures Count(RunCall(cfg, s, call), NAT_OUTPUT, TcpJump(OutName(Prefix(cfg)))) == Count(s, NAT_OUTPUT, TcpJump(OutName(Prefix(cfg)))) + 1
  {
    OnlyHooks(k, cfg, s, bypass);
  }

  lemma {:induction false} OneMoreCall(cfg: Config, s: Store, call: Call, n: nat)
    requires n > 0
    ensures RunCalls(cfg, s, Again(call, n)) == RunCalls(cfg, RunCall(cfg, s, call), Again(call, n - 1))
  {
    assert Again(call, n)[1..] == Again(call, n - 1);
  }

  /** Wherever the chain is there, the call puts one more copy of the rule into nat OUTPUT. */
  ghost predicate AddsOneCopy(cfg: Config, call: Call, out: ChainId, r: Rule) {
    forall s: Store :: OneCopyMore(cfg, s, call, out, r)
  }

  ghost predicate OneCopyMore(cfg: Config, s: Store, call: Call, out: ChainId, r: Rule) {
    var t := RunCall(cfg, s, call);
    out in s && NAT_OUTPUT in s ==> out in t && NAT_OUTPUT in t && Count(t, NAT_OUTPUT, r) == Count(s, NAT_OUTPUT, r) + 1
  }

  lemma {:induction false} CopiesPileUp(cfg: Config, s: Store, call: Call, out: ChainId, r: Rule, n: nat)
    requires AddsOneCopy(cfg, call, out, r) && out in s && NAT_OUTPUT in s
    ensures Count(RunCalls(cfg, s, Again(call, n)), NAT_OUTPUT, r) == Count(s, NAT_OUTPUT, r) + n
    decreases n
  {
    if n > 0 {
      assert OneCopyMore(cfg, s, call, out, r);
      OneMoreCall(cfg, s, call, n);
      CopiesPileUp(cfg, RunCall(cfg, s, call), call, out, r, n - 1);
    }
  }

  /** `n` such calls put `n` hooks in place. */
  lemma {:induction false} HooksPileUp(k: Kernel, cfg: Config, s: Store, bypass: BypassList, n: nat)
    requires NatChain(OutName(Prefix(cfg))) in s && NAT_OUTPUT in s && NAT_OUTPUT != NatChain(OutName(Prefix(cfg)))
    ensures Count(RunCalls(cfg, s, Again(ApplyCall(AllBut(k, HookAt(Making(cfg), PlanOf(cfg, bypass))), bypass), n)), NAT_OUTPUT, TcpJump(OutName(Prefix(cfg))))
         == Count(s, NAT_OUTPUT, TcpJump(OutName(Prefix(cfg)))) + n
  {
    var call := ApplyCall(AllBut(k, HookAt(Making(cfg), PlanOf(cfg, bypass))), bypass);
    var out, hook := NatChain(OutName(Prefix(cfg))), TcpJump(OutName(Prefix(cfg)));
    forall t: Store ensures OneCopyMore(cfg, t, call, out, hook) {
      if out in t && NAT_OUTPUT in t {
        OneMoreHook(k, cfg, t, call, bypass);
      }
    }
    CopiesPileUp(cfg, s, call, out, hook, n);
  }

  ghost predicate AllApply(calls: seq<Call>) {
    forall i :: 0 <= i < |calls| ==> calls[i].ApplyCall?
  }

  lemma {:induction false} AgainAll(first: Call, call: Call, n: nat)
    requires first.ApplyCall? && call.ApplyCall?
    ensures AllApply([first] + Again(call, n))
    decreases n
  {
    if n > 0 {
      AgainAll(call, call, n - 1);
      assert Again(call, n) == [call] + Again(call, n - 1);
    }
  }

  /** From every clean start some series of disturbed Apply calls is beyond what one Cleanup restores. */
  lemma {:induction false} CleanupCanFallShort(cfg: Config, s0: Store, bypass: BypassList, env: Env)
    requires CleanStart(cfg, s0) && FaultFree(env)
    ensures exists calls :: AllApply(calls) && RunCall(cfg, RunCalls(cfg, s0, calls), CleanupCall(env)) != s0
  {
    OwnedFacts(cfg);
    var n := AllDeletes(CleanupPhases(cfg), NAT_OUTPUT, TcpJump(OutName(Prefix(cfg)))) + 1;
    var calls := PiledUp(env.kernel, cfg, s0, bypass, n);
    CleanupRestoresExactly(cfg, s0, calls, env);
  }

  lemma {:induction false} PiledUp(k: Kernel, cfg: Config, s0: Store, bypass: BypassList, n: nat) returns (calls: seq<Call>)
    requires CleanStart(cfg, s0)
    ensures AllApply(calls)
    ensures Count(RunCalls(cfg, s0, calls), NAT_OUTPUT, TcpJump(OutName(Prefix(cfg)))) == n
  {
    var make := ApplyCall(AllBut(k, Making(cfg)), bypass);
    var hook := ApplyCall(AllBut(k, HookAt(Making(cfg), PlanOf(cfg, bypass))), bypass);
    OnlyMakes(k, cfg, s0, bypass);
    HooksPileUp(k, cfg, s0[NatChain(OutName(Prefix(cfg))) := []], bypass, n);
    calls := [make] + Again(hook, n);
    AgainAll(make, hook, n);
  }
}

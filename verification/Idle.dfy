/**
 Programs of which no command changes anything: every command is refused by the
 store or failed. The cleanup at the start of Apply is one on a clean store.
 */
module Idle {
  import opened Common
  import opened Netfilter
  import opened Footprints
  import opened Cleaners
  import opened Firewall
  import opened Ownership
  import opened Additions

  // ----- recorded errors -----

  ghost predicate MustOnly(p: Program) {
    forall i :: 0 <= i < |p| ==> p[i].Must?
  }

  ghost predicate NoMust(p: Program) {
    forall i :: 0 <= i < |p| ==> !p[i].Must?
  }

  lemma {:induction false} FirstOkErrs(env: Env, m: Machine, cs: seq<Command>)
    ensures RunFirstOk(env, m, cs).errs == m.errs
    decreases cs
  {
    if cs != [] && Outcome(env, m, cs[0]).Some? {
      FirstOkErrs(env, Tick(env, m, cs[0]), cs[1..]);
    }
  }

  lemma {:induction false} WhileOkErrs(env: Env, m: Machine, c: Command, n: nat)
    ensures RunWhileOk(env, m, c, n).errs == m.errs
    decreases n
  {
    if n != 0 && Outcome(env, m, c).None? {
      WhileOkErrs(env, Tick(env, m, c), c, n - 1);
    }
  }

  lemma {:induction false} NoMustErrs(env: Env, m: Machine, p: Program)
    requires NoMust(p)
    ensures Run(env, m, p).errs == m.errs
    decreases p
  {
    if p != [] {
      assert !p[0].Must?;
      match p[0] {
        case FirstOk(cs) => FirstOkErrs(env, m, cs);
        case WhileOk(c, n) => WhileOkErrs(env, m, c, n);
      }
      NoMustErrs(env, RunStep(env, m, p[0]), p[1..]);
    }
  }

  // ----- the length of an idle run -----

  /** How many commands a step issues when none of them succeeds. */
  function Cost(step: Step): nat {
    match step
    case Must(_) => 1
    case FirstOk(cs) => |cs|
    case WhileOk(_, n) => if n == 0 then 0 else 1
  }

  function Costs(p: Program): nat {
    if p == [] then 0 else Cost(p[0]) + Costs(p[1..])
  }

  lemma {:induction false} CostsConcat(p: Program, q: Program)
    ensures Costs(p + q) == Costs(p) + Costs(q)
  {
    if p == [] {
      assert p + q == q;
    } else {
      assert (p + q)[0] == p[0] && (p + q)[1..] == p[1..] + q;
      CostsConcat(p[1..], q);
    }
  }

  lemma {:induction false} MustCosts(p: Program)
    requires MustOnly(p)
    ensures Costs(p) == |p|
  {
    if p != [] {
      assert p[0].Must?;
      MustCosts(p[1..]);
    }
  }

  // ----- muted programs -----

  /** The command, as number `clock` of the run, is refused by the store or failed. */
  predicate MutedCommand(env: Env, s: Store, clock: nat, c: Command) {
    env.faults(clock).Some? || Refusal(env.kernel, s, c).Some?
  }

  predicate MutedAll(env: Env, s: Store, clock: nat, cs: seq<Command>)
    decreases cs
  {
    cs == [] || (MutedCommand(env, s, clock, cs[0]) && MutedAll(env, s, clock + 1, cs[1..]))
  }

  predicate MutedStep(env: Env, s: Store, clock: nat, step: Step) {
    match step
    case Must(c) => MutedCommand(env, s, clock, c)
    case FirstOk(cs) => MutedAll(env, s, clock, cs)
    case WhileOk(c, n) => n == 0 || MutedCommand(env, s, clock, c)
  }

  /** No command of the program gets through, from number `clock` on. */
  predicate Muted(env: Env, s: Store, clock: nat, p: Program)
    decreases p
  {
    p == [] || (MutedStep(env, s, clock, p[0]) && Muted(env, s, clock + Cost(p[0]), p[1..]))
  }

  lemma {:induction false} MutedConcat(env: Env, s: Store, clock: nat, p: Program, q: Program)
    ensures Muted(env, s, clock, p + q) <==> Muted(env, s, clock, p) && Muted(env, s, clock + Costs(p), q)
    decreases p
  {
    if p == [] {
      assert p + q == q;
    } else {
      assert (p + q)[0] == p[0] && (p + q)[1..] == p[1..] + q;
      MutedConcat(env, s, clock + Cost(p[0]), p[1..], q);
    }
  }

  lemma {:induction false} MutedFirstOk(env: Env, m: Machine, cs: seq<Command>)
    requires MutedAll(env, m.store, m.clock, cs)
    ensures RunFirstOk(env, m, cs) == m.(clock := m.clock + |cs|)
    decreases cs
  {
    if cs != [] {
      MutedFirstOk(env, Tick(env, m, cs[0]), cs[1..]);
    }
  }

  /** A muted program changes nothing and issues its cost in commands. */
  lemma {:induction false} MutedIdle(env: Env, m: Machine, p: Program)
    requires Muted(env, m.store, m.clock, p)
    ensures Run(env, m, p).store == m.store
    ensures Run(env, m, p).clock == m.clock + Costs(p)
    decreases p
  {
    if p != [] {
      if p[0].FirstOk? {
        MutedFirstOk(env, m, p[0].cmds);
      }
      MutedIdle(env, RunStep(env, m, p[0]), p[1..]);
    }
  }

  // ----- the cleanup at the start does nothing on a clean store, whatever fails -----

  ghost predicate Removes(fp: Footprint, c: Command) {
    (c.Delete? || c.Flush? || c.DeleteChain?) && Within(fp, c)
  }

  lemma {:induction false} CleanerRemovesOnly(fp: Footprint, cl: seq<Phase>)
    requires Deletions(cl) && CleanerInside(fp, cl)
    ensures ProgramAll(c => Removes(fp, c), CleanerProgram(cl))
    ensures NoMust(CleanerProgram(cl))
    decreases cl
  {
    if cl != [] {
      DeletesWithin(fp, cl[0].deletes);
      forall i | 0 <= i < |cl[0].deletes| ensures StepAll(c => Removes(fp, c), cl[0].deletes[i]) {
        assert DeleteStep(cl[0].deletes[i]) && StepAll(c => Within(fp, c), cl[0].deletes[i]);
      }
      RemovalsRemoveOnly(fp, cl[0].chains);
      ProgramAllConcat(c => Removes(fp, c), cl[0].deletes, Removals(cl[0].chains));
      assert CleanerInside(fp, cl[1..]) by {
        forall i, c | 0 <= i < |cl[1..]| && c in cl[1..][i].chains ensures c in fp.chains { assert cl[1..][i] == cl[i + 1]; }
        forall i, id, r | 0 <= i < |cl[1..]| && Deletes(cl[1..][i].deletes, id, r) > 0
          ensures (id, r) in fp.rules && id !in fp.chains { assert cl[1..][i] == cl[i + 1]; }
        forall i, j | 0 <= i < |cl[1..]| && 0 <= j < |cl[1..][i].deletes| && cl[1..][i].deletes[j].WhileOk?
          ensures cl[1..][i].deletes[j].times > 0 { assert cl[1..][i] == cl[i + 1]; }
      }
      CleanerRemovesOnly(fp, cl[1..]);
      ProgramAllConcat(c => Removes(fp, c), PhaseProgram(cl[0]), CleanerProgram(cl[1..]));
    }
  }

  lemma {:induction false} RemovalsRemoveOnly(fp: Footprint, chains: seq<ChainId>)
    requires forall c :: c in chains ==> c in fp.chains
    ensures ProgramAll(c => Removes(fp, c), Removals(chains))
    ensures NoMust(Removals(chains))
  {
    if chains != [] {
      RemovalsRemoveOnly(fp, chains[1..]);
      var two := [Best(Flush(chains[0])), Best(DeleteChain(chains[0]))];
      assert ProgramAll(c => Removes(fp, c), two);
      ProgramAllConcat(c => Removes(fp, c), two, Removals(chains[1..]));
    }
  }

  lemma {:induction false} CleanRefuses(k: Kernel, fp: Footprint, s: Store, c: Command)
    requires Clean(fp, s) && Removes(fp, c)
    ensures Refusal(k, s, c).Some?
  {
  }

  lemma {:induction false} RemovesMutedAll(env: Env, fp: Footprint, s: Store, clock: nat, cs: seq<Command>)
    requires Clean(fp, s) && forall i :: 0 <= i < |cs| ==> Removes(fp, cs[i])
    ensures MutedAll(env, s, clock, cs)
    decreases cs
  {
    if cs != [] {
      CleanRefuses(env.kernel, fp, s, cs[0]);
      RemovesMutedAll(env, fp, s, clock + 1, cs[1..]);
    }
  }

  /** On a clean store a cleanup is muted, whatever fails. */
  lemma {:induction false} RemovesMuted(env: Env, fp: Footprint, s: Store, clock: nat, p: Program)
    requires Clean(fp, s) && ProgramAll(c => Removes(fp, c), p)
    ensures Muted(env, s, clock, p)
    decreases p
  {
    if p != [] {
      assert StepAll(c => Removes(fp, c), p[0]);
      match p[0] {
        case Must(c) => CleanRefuses(env.kernel, fp, s, c);
        case FirstOk(cs) => RemovesMutedAll(env, fp, s, clock, cs);
        case WhileOk(c, _) => CleanRefuses(env.kernel, fp, s, c);
      }
      assert ProgramAll(c => Removes(fp, c), p[1..]) by {
        forall i | 0 <= i < |p[1..]| ensures StepAll(c => Removes(fp, c), p[1..][i]) { assert p[1..][i] == p[i + 1]; }
      }
      RemovesMuted(env, fp, s, clock + Cost(p[0]), p[1..]);
    }
  }

  /** The number of the first command of Apply after its cleanup, on a clean store. */
  function Making(cfg: Config): nat {
    6 * (5 + 2 * NonBlank(Ifaces(cfg))) + 2 * 6 + 1 + 4
  }

  function NonBlank(ifaces: seq<string>): nat {
    if ifaces == [] then 0 else (if Blank(ifaces[0]) then 0 else 1) + NonBlank(ifaces[1..])
  }

  lemma {:induction false} CostsTwo(a: Step, b: Step)
    ensures Costs([a, b]) == Cost(a) + Cost(b)
  {
    assert [a, b][1..] == [b] && [b][1..] == [];
    assert Costs([b]) == Cost(b) + Costs([b][1..]);
  }

  lemma {:induction false} IfaceDeleteCosts(ifaces: seq<string>, at: ChainId, ch: string)
    ensures Costs(IfaceDeletes(ifaces, at, ch)) == 2 * NonBlank(ifaces)
  {
    if ifaces != [] {
      var head := if Blank(ifaces[0]) then [] else
        [Best(Delete(at, IfaceTcpJump(ifaces[0], ch))), Best(Delete(at, IfaceJump(ifaces[0], ch)))];
      IfaceDeleteCosts(ifaces[1..], at, ch);
      CostsConcat(head, IfaceDeletes(ifaces[1..], at, ch));
      CostsTwo(Best(Delete(at, IfaceTcpJump(ifaces[0], ch))), Best(Delete(at, IfaceJump(ifaces[0], ch))));
    }
  }

  lemma {:induction false} FixedCosts(ch: string)
    ensures Costs(FixedDeletes(ch)) == 5
  {
    var p := FixedDeletes(ch);
    CostsTwo(p[0], p[1]);
    CostsTwo(p[2], p[3]);
    CostsConcat([p[0], p[1]], [p[2], p[3]]);
    CostsConcat([p[0], p[1]] + [p[2], p[3]], [p[4]]);
    assert [p[0], p[1]] + [p[2], p[3]] + [p[4]] == p;
    assert [p[4]][1..] == [];
  }

  lemma {:induction false} HookCosts(names: seq<string>, ifaces: seq<string>)
    ensures Costs(HookDeletes(names, ifaces)) == |names| * (5 + 2 * NonBlank(ifaces))
  {
    if names != [] {
      var fixed, per, rest := FixedDeletes(names[0]), IfaceDeletes(ifaces, NAT_PREROUTING, names[0]), HookDeletes(names[1..], ifaces);
      FixedCosts(names[0]);
      IfaceDeleteCosts(ifaces, NAT_PREROUTING, names[0]);
      HookCosts(names[1..], ifaces);
      CostsConcat(fixed, per);
      CostsConcat(fixed + per, rest);
      OneMore(|names|, 5 + 2 * NonBlank(ifaces));
    }
  }

  lemma {:induction false} OneMore(n: nat, each: nat)
    requires n > 0
    ensures n * each == each + (n - 1) * each
  {
  }

  lemma {:induction false} RemovalCosts(chains: seq<ChainId>)
    ensures Costs(Removals(chains)) == 2 * |chains|
  {
    if chains != [] {
      var two := [Best(Flush(chains[0])), Best(DeleteChain(chains[0]))];
      CostsTwo(two[0], two[1]);
      RemovalCosts(chains[1..]);
      CostsConcat(two, Removals(chains[1..]));
    }
  }

  lemma {:induction false} FilterCosts()
    ensures Costs(FilterPhase().deletes) == 5
  {
    var q := QuicDeletes();
    CostsTwo(q[0], q[1]);
    CostsTwo(q[2], q[3]);
    CostsConcat([q[0], q[1]], [q[2], q[3]]);
    assert [q[0], q[1]] + [q[2], q[3]] == q;
    CostsConcat(ForwardDelete(), q);
    assert ForwardDelete()[1..] == [];
  }

  lemma {:induction false} PhaseCosts(a: Phase, b: Phase)
    ensures Costs(CleanerProgram([a, b])) == Costs(a.deletes) + 2 * |a.chains| + Costs(b.deletes) + 2 * |b.chains|
  {
    assert [a, b][1..] == [b] && [b][1..] == [];
    assert CleanerProgram([b]) == PhaseProgram(b) + [];
    RemovalCosts(a.chains);
    RemovalCosts(b.chains);
    CostsConcat(a.deletes, Removals(a.chains));
    CostsConcat(b.deletes, Removals(b.chains));
    CostsConcat(PhaseProgram(b), []);
    CostsConcat(PhaseProgram(a), CleanerProgram([b]));
  }

  lemma {:induction false} MakingIs(cfg: Config)
    ensures Costs(CleanerProgram(RulesPhases(cfg))) == Making(cfg)
  {
    PhaseCosts(NatPhase(Prefix(cfg), Ifaces(cfg)), FilterPhase());
    HookCosts(LegacyNames(Prefix(cfg)), Ifaces(cfg));
    FilterCosts();
  }

  lemma {:induction false} RulesCleanupMuted(cfg: Config, env: Env, s: Store, clock: nat)
    requires Clean(Owned(cfg), s)
    ensures Muted(env, s, clock, CleanerProgram(RulesPhases(cfg)))
    ensures NoMust(CleanerProgram(RulesPhases(cfg)))
  {
    OwnedFacts(cfg);
    CleanupShape(cfg);
    assert RulesPhases(cfg) == CleanupPhases(cfg)[..2];
    CleanerRemovesOnly(Owned(cfg), RulesPhases(cfg));
    RemovesMuted(env, Owned(cfg), s, clock, CleanerProgram(RulesPhases(cfg)));
  }

  lemma {:induction false} RulesCleanupOnClean(cfg: Config, env: Env, m: Machine)
    requires Clean(Owned(cfg), m.store)
    ensures Run(env, m, CleanerProgram(RulesPhases(cfg))) == Machine(m.store, m.clock + Making(cfg), m.errs)
  {
    RulesCleanupMuted(cfg, env, m.store, m.clock);
    MutedIdle(env, m, CleanerProgram(RulesPhases(cfg)));
    MakingIs(cfg);
    NoMustErrs(env, m, CleanerProgram(RulesPhases(cfg)));
  }
}

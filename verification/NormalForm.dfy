/**
 The normal-form theorem of Apply: from every store a history of calls can
 leave, as long as no hook is stacked too deep, a fault-free Apply ends in
 InstalledStore of the clean start. Re-applying never stacks anything.
 */
module NormalForm {
  import opened Netfilter
  import opened Footprints
  import opened Cleaners
  import opened Firewall
  import opened Iptables
  import opened Ownership
  import opened Additions
  import opened Undo
  import opened Installed

  // ----- the two halves of the footprint -----

  function RulesOwned(cfg: Config): Footprint {
    CleanupShape(cfg);
    FootprintOf(RulesPhases(cfg))
  }

  const HOOK6: Rule := AnyJump(DROP6_NAME)

  /** `half` is the IPv4 half of `fp`; the IPv6 half is the chain DROP6 and its two hooks. */
  ghost predicate Halves(fp: Footprint, half: Footprint) {
    && (forall id, r :: (id, r) in half.rules <==> id.family == V4 && (id, r) in fp.rules)
    && (forall c :: c in half.chains <==> c.family == V4 && c in fp.chains)
    && (forall id: ChainId, r :: id.family == V6 ==> ((id, r) in fp.rules <==> (id == OUTPUT6 || id == FORWARD6) && r == HOOK6))
    && (forall c: ChainId :: c.family == V6 ==> (c in fp.chains <==> c == DROP6))
  }

  lemma {:induction false} TwoPhaseDeletes(cl: seq<Phase>, id: ChainId, r: Rule)
    requires |cl| == 2 && Deletions(cl)
    ensures AllDeletes(cl, id, r) == Deletes(cl[0].deletes, id, r) + Deletes(cl[1].deletes, id, r)
  {
    assert cl[1..][1..] == [];
    assert AllDeletes(cl[1..], id, r) == Deletes(cl[1].deletes, id, r) + AllDeletes(cl[1..][1..], id, r);
  }

  lemma {:induction false} FilterPhaseV4(id: ChainId, r: Rule)
    ensures DeletesOnly(FilterPhase().deletes)
    ensures Deletes(FilterPhase().deletes, id, r) > 0 ==> id.family == V4
  {
    DeletedRulesAre(FilterPhase().deletes, id, r);
  }

  lemma {:induction false} IPv6PhaseDeletes(id: ChainId, r: Rule)
    ensures DeletesOnly(EnableIPv6Phase().deletes)
    ensures Deletes(EnableIPv6Phase().deletes, id, r) == if (id == OUTPUT6 || id == FORWARD6) && r == HOOK6 then 1 else 0
  {
    DeletesTwo(EnableIPv6Phase().deletes[0], EnableIPv6Phase().deletes[1], id, r);
  }

  /** How the deletions of the whole cleanup split by family. */
  lemma {:induction false} DeletesByFamily(cfg: Config, id: ChainId, r: Rule)
    ensures Deletions(CleanupPhases(cfg)) && Deletions(RulesPhases(cfg))
    ensures id.family == V4 ==> AllDeletes(CleanupPhases(cfg), id, r) == AllDeletes(RulesPhases(cfg), id, r)
    ensures id.family == V6 ==> AllDeletes(RulesPhases(cfg), id, r) == 0
    ensures id.family == V6 ==>
      AllDeletes(CleanupPhases(cfg), id, r) == if (id == OUTPUT6 || id == FORWARD6) && r == HOOK6 then 1 else 0
  {
    CleanupShape(cfg);
    NatPhaseShape(Prefix(cfg), Ifaces(cfg));
    HooksDelete(NatPhase(Prefix(cfg), Ifaces(cfg)).deletes, V4, NameSet(LegacyNames(Prefix(cfg))), id, r);
    FilterPhaseV4(id, r);
    IPv6PhaseDeletes(id, r);
    TwoPhaseDeletes(RulesPhases(cfg), id, r);
    ThreePhaseDeletes(CleanupPhases(cfg), id, r);
  }

  lemma {:induction false} RulesOwnedFacts(cfg: Config)
    ensures Deletions(RulesPhases(cfg)) && OwnerOf(RulesOwned(cfg), RulesPhases(cfg))
    ensures CleanerInside(RulesOwned(cfg), RulesPhases(cfg))
  {
    CleanupShape(cfg);
    FootprintOwns(RulesPhases(cfg));
  }

  lemma {:induction false} RulesOwnedChains(cfg: Config, c: ChainId)
    ensures c in RulesOwned(cfg).chains <==> c in ChainsOf(V4, Nat, LegacyNames(Prefix(cfg)))
  {
    var cl := RulesPhases(cfg);
    ChainSetIs(cl, c);
    assert cl[0].chains == ChainsOf(V4, Nat, LegacyNames(Prefix(cfg))) && cl[1].chains == [];
    if c in ChainsOf(V4, Nat, LegacyNames(Prefix(cfg))) {
      assert c in cl[0].chains;
    }
  }

  lemma {:induction false} OwnedHalves(cfg: Config)
    ensures Halves(Owned(cfg), RulesOwned(cfg))
  {
    OwnedFacts(cfg);
    RulesOwnedFacts(cfg);
    HalvesOf(cfg, Owned(cfg), RulesOwned(cfg));
  }

  lemma {:induction false} HalvesOf(cfg: Config, fp: Footprint, half: Footprint)
    requires fp == Owned(cfg) && half == RulesOwned(cfg)
    requires Deletions(CleanupPhases(cfg)) && OwnerOf(fp, CleanupPhases(cfg))
    requires Deletions(RulesPhases(cfg)) && OwnerOf(half, RulesPhases(cfg))
    ensures Halves(fp, half)
  {
    forall id, r
      ensures (id, r) in half.rules <==> id.family == V4 && (id, r) in fp.rules
      ensures id.family == V6 ==> ((id, r) in fp.rules <==> (id == OUTPUT6 || id == FORWARD6) && r == HOOK6)
    {
      DeletesByFamily(cfg, id, r);
    }
    forall c
      ensures c in half.chains <==> c.family == V4 && c in fp.chains
      ensures c.family == V6 ==> (c in fp.chains <==> c == DROP6)
    {
      OwnedChains(cfg, c);
      RulesOwnedChains(cfg, c);
    }
  }

  // ----- the cleanup at the start of Apply -----

  lemma {:induction false} KeepSame(fp: Footprint, half: Footprint, id: ChainId, rules: seq<Rule>)
    requires forall r :: (id, r) in fp.rules <==> (id, r) in half.rules
    ensures Keep(fp, id, rules) == Keep(half, id, rules)
  {
    if rules != [] {
      KeepSame(fp, half, id, rules[1..]);
    }
  }

  ghost predicate SameV4(a: Store, b: Store) {
    forall id: ChainId :: id.family == V4 ==> (id in a <==> id in b) && (id in a ==> a[id] == b[id])
  }

  ghost predicate SameV6(a: Store, b: Store) {
    forall id: ChainId :: id.family == V6 ==> (id in a <==> id in b) && (id in a ==> a[id] == b[id])
  }

  lemma {:induction false} HalfForeign(fp: Footprint, half: Footprint, s: Store)
    requires Halves(fp, half)
    ensures SameV4(Foreign(half, s), Foreign(fp, s))
    ensures SameV6(Foreign(half, s), s)
  {
    forall id: ChainId | id.family == V4 && id in s ensures Keep(fp, id, s[id]) == Keep(half, id, s[id]) {
      KeepSame(fp, half, id, s[id]);
    }
    forall id: ChainId | id.family == V6 && id in s ensures Keep(half, id, s[id]) == s[id] {
      KeepAll(half, id, s[id]);
    }
  }

  lemma {:induction false} HalfCleanup(env: Env, fp: Footprint, half: Footprint, first: seq<Phase>, m: Machine)
    requires FaultFree(env) && Shape(fp, m.store) && Halves(fp, half)
    requires OwnerOf(half, first) && CleanerInside(half, first)
    requires Bounded(half, first, m.store) && Fits(half, first, m.store)
    ensures SameV4(Run(env, m, CleanerProgram(first)).store, Foreign(fp, m.store))
    ensures SameV6(Run(env, m, CleanerProgram(first)).store, m.store)
  {
    CleanerExact(env, half, m, first);
    HalfForeign(fp, half, m.store);
  }

  lemma {:induction false} RulesFit(cfg: Config, s: Store)
    requires Deletions(CleanupPhases(cfg)) && Bounded(Owned(cfg), CleanupPhases(cfg), s)
    requires Halves(Owned(cfg), RulesOwned(cfg)) && OwnerOf(Owned(cfg), CleanupPhases(cfg))
    ensures Deletions(RulesPhases(cfg)) && Fits(RulesOwned(cfg), RulesPhases(cfg), s)
  {
    CleanupFits(cfg, s);
    assert CleanupPhases(cfg)[..2] == RulesPhases(cfg);
  }

  lemma {:induction false} HalfBounded(cfg: Config, s: Store)
    requires Deletions(CleanupPhases(cfg)) && Bounded(Owned(cfg), CleanupPhases(cfg), s)
    requires Halves(Owned(cfg), RulesOwned(cfg)) && Deletions(RulesPhases(cfg))
    ensures Bounded(RulesOwned(cfg), RulesPhases(cfg), s)
  {
    forall id, r | (id, r) in RulesOwned(cfg).rules ensures Count(s, id, r) <= AllDeletes(RulesPhases(cfg), id, r) {
      DeletesByFamily(cfg, id, r);
    }
  }

  /** A fault-free cleanupRules leaves the IPv4 half foreign and the IPv6 half as it was. */
  lemma {:induction false} RulesCleanupExact(cfg: Config, env: Env, m: Machine)
    requires FaultFree(env) && Shape(Owned(cfg), m.store)
    requires Deletions(CleanupPhases(cfg)) && Bounded(Owned(cfg), CleanupPhases(cfg), m.store)
    ensures SameV4(Run(env, m, CleanerProgram(RulesPhases(cfg))).store, Foreign(Owned(cfg), m.store))
    ensures SameV6(Run(env, m, CleanerProgram(RulesPhases(cfg))).store, m.store)
  {
    OwnedFacts(cfg);
    RulesOwnedFacts(cfg);
    OwnedHalves(cfg);
    HalfBounded(cfg, m.store);
    RulesFit(cfg, m.store);
    HalfCleanup(env, Owned(cfg), RulesOwned(cfg), RulesPhases(cfg), m);
  }

  // ----- Apply -----

  lemma {:induction false} SameAfterQuic(k: Kernel, a: Store, b: Store)
    requires FILTER_OUTPUT in a && FILTER_OUTPUT in b && SameV4(a, b)
    ensures SameV4(WithQuic(k, a), WithQuic(k, b)) && SameV6(WithQuic(k, a), a)
  {
  }

  lemma {:induction false} SameAfterDns(prefix: string, port: int, a: Store, b: Store)
    requires NAT_OUTPUT in a && NAT_OUTPUT in b && SameV4(a, b)
    ensures SameV4(WithDns(prefix, port, a), WithDns(prefix, port, b))
    ensures SameV6(WithDns(prefix, port, a), a)
  {
  }

  /** The two stores differ at most in what disableIPv6 is about to overwrite. */
  ghost predicate SameBeyondHooks6(a: Store, b: Store) {
    forall id: ChainId :: id.family == V6 && id != DROP6 ==>
      && (id in a <==> id in b)
      && (id in a ==> if id == OUTPUT6 || id == FORWARD6 then RemoveFirst(a[id], HOOK6) == RemoveFirst(b[id], HOOK6)
                      else a[id] == b[id])
  }

  lemma {:induction false} SameAfterIPv6(k: Kernel, a: Store, b: Store)
    requires OUTPUT6 in a && FORWARD6 in a && OUTPUT6 in b && FORWARD6 in b
    requires SameV4(a, b) && SameBeyondHooks6(a, b)
    ensures WithIPv6(k, a) == WithIPv6(k, b)
  {
    var x, y := WithIPv6(k, a), WithIPv6(k, b);
    forall id ensures (id in x <==> id in y) && (id in x ==> x[id] == y[id]) {
      assert id.family == V4 || id.family == V6;
    }
  }

  lemma {:induction false} SameInstalled(k: Kernel, cfg: Config, bypass: BypassList, a: Store, b: Store)
    requires BUILTINS <= a.Keys && BUILTINS <= b.Keys
    requires SameV4(a, b) && SameBeyondHooks6(a, b)
    ensures InstalledStore(k, cfg, bypass, a) == InstalledStore(k, cfg, bypass, b)
  {
    SameBestEffort(k, cfg, WithRedirect(k, cfg, bypass, a), WithRedirect(k, cfg, bypass, b));
  }

  lemma {:induction false} SameBestEffort(k: Kernel, cfg: Config, a1: Store, b1: Store)
    requires BUILTINS <= a1.Keys && BUILTINS <= b1.Keys
    requires SameV4(a1, b1) && SameBeyondHooks6(a1, b1)
    ensures WithBestEffort(k, cfg, a1) == WithBestEffort(k, cfg, b1)
  {
    var a2, b2 := WithForward(cfg, a1), WithForward(cfg, b1);
    var a3, b3 := WithDns(Prefix(cfg), cfg.dnsForwardPort, a2), WithDns(Prefix(cfg), cfg.dnsForwardPort, b2);
    SameAfterDns(Prefix(cfg), cfg.dnsForwardPort, a2, b2);
    SameAfterDns(Prefix(cfg), cfg.dnsForwardPort, b2, a2);
    SameAfterQuic(k, a3, b3);
    SameAfterQuic(k, b3, a3);
    SameAfterIPv6(k, WithQuic(k, a3), WithQuic(k, b3));
  }

  lemma {:induction false} Hooks6Cleaned(fp: Footprint, half: Footprint, s: Store)
    requires Halves(fp, half)
    requires Count(s, OUTPUT6, HOOK6) <= 1 && Count(s, FORWARD6, HOOK6) <= 1
    ensures SameBeyondHooks6(s, Foreign(fp, s))
  {
    forall id: ChainId | id.family == V6 && id in s && id != DROP6
      ensures if id == OUTPUT6 || id == FORWARD6 then RemoveFirst(s[id], HOOK6) == RemoveFirst(Keep(fp, id, s[id]), HOOK6)
              else s[id] == Keep(fp, id, s[id])
    {
      if id == OUTPUT6 || id == FORWARD6 {
        RemoveFirstIsKeep(fp, id, s[id], HOOK6);
        KeepMembers(fp, id, s[id], HOOK6);
        RemoveFirstAbsent(Keep(fp, id, s[id]), HOOK6);
      } else {
        KeepAll(fp, id, s[id]);
      }
    }
  }

  lemma {:induction false} DnsNotBuiltin(prefix: string)
    ensures NatChain(DnsName(prefix)) != NAT_OUTPUT
  {
    assert LegacyNames(prefix)[3] == DnsName(prefix);
    HookPointsPlain(NAT_OUTPUT);
  }

  /** The store before the recorded commands of a fault-free Apply. */
  lemma {:induction false} AfterCleanup(cfg: Config, env: Env, m: Machine)
    requires FaultFree(env) && Shape(Owned(cfg), m.store)
    requires BUILTINS <= Foreign(Owned(cfg), m.store).Keys
    requires Deletions(CleanupPhases(cfg)) && Bounded(Owned(cfg), CleanupPhases(cfg), m.store)
    ensures BUILTINS <= Run(env, m, CleanerProgram(RulesPhases(cfg))).store.Keys
    ensures SameV4(Run(env, m, CleanerProgram(RulesPhases(cfg))).store, Foreign(Owned(cfg), m.store))
    ensures SameBeyondHooks6(Run(env, m, CleanerProgram(RulesPhases(cfg))).store, Foreign(Owned(cfg), m.store))
    ensures NatChain(OutName(Prefix(cfg))) !in Run(env, m, CleanerProgram(RulesPhases(cfg))).store
    ensures NatChain(PreName(Prefix(cfg))) !in Run(env, m, CleanerProgram(RulesPhases(cfg))).store
  {
    RulesCleanupExact(cfg, env, m);
    OwnChainsOwned(cfg);
    OwnedHalves(cfg);
    DeletesByFamily(cfg, OUTPUT6, HOOK6);
    DeletesByFamily(cfg, FORWARD6, HOOK6);
    AfterHalfCleanup(Owned(cfg), RulesOwned(cfg), m.store, Run(env, m, CleanerProgram(RulesPhases(cfg))).store,
                     NatChain(OutName(Prefix(cfg))), NatChain(PreName(Prefix(cfg))));
  }

  lemma {:induction false} AfterHalfCleanup(fp: Footprint, half: Footprint, s: Store, s1: Store, out: ChainId, pre: ChainId)
    requires Halves(fp, half) && BUILTINS <= Foreign(fp, s).Keys
    requires SameV4(s1, Foreign(fp, s)) && SameV6(s1, s)
    requires (OUTPUT6, HOOK6) in fp.rules ==> Count(s, OUTPUT6, HOOK6) <= 1
    requires (FORWARD6, HOOK6) in fp.rules ==> Count(s, FORWARD6, HOOK6) <= 1
    requires out in fp.chains && pre in fp.chains && out.family == V4 && pre.family == V4
    ensures BUILTINS <= s1.Keys
    ensures SameBeyondHooks6(s1, Foreign(fp, s))
    ensures out !in s1
    ensures pre !in s1
  {
    Hooks6Cleaned(fp, half, s);
    forall id | id in BUILTINS ensures id in s1 {
      assert id in Foreign(fp, s) && id in s;
      assert id.family == V4 || id.family == V6;
    }
  }

  /**
   Normal form: a fault-free Apply, started in any store of the right shape in
   which no hook is stacked too deep, ends in the store that one Apply builds
   on the foreign part.
   */
  lemma {:induction false} ApplyNormalForm(cfg: Config, env: Env, m: Machine, bypass: BypassList)
    requires FaultFree(env) && Shape(Owned(cfg), m.store) && m.errs == []
    requires BUILTINS <= Foreign(Owned(cfg), m.store).Keys
    requires Deletions(CleanupPhases(cfg)) && Bounded(Owned(cfg), CleanupPhases(cfg), m.store)
    ensures Run(env, m, ApplyProgram(cfg, bypass)).store
         == InstalledStore(env.kernel, cfg, bypass, Foreign(Owned(cfg), m.store))
  {
    var p0, p1, p2 := CleanerProgram(RulesPhases(cfg)), RedirectProgram(cfg, bypass), BestEffortProgram(cfg);
    var m1 := Run(env, m, p0);
    var m2 := Run(env, m1, p1);
    Run3(env, m, p0, p1, p2);
    AfterCleanup(cfg, env, m);
    RunRedirect(env, m1, cfg, bypass);
    DnsNotBuiltin(Prefix(cfg));
    RunBestEffort(env, m2, cfg);
    SameInstalled(env.kernel, cfg, bypass, m1.store, Foreign(Owned(cfg), m.store));
  }

  /** After any history, as long as no hook is stacked too deep, Apply gives the one installed store. */
  lemma {:induction false} ApplyAfterHistory(cfg: Config, s0: Store, calls: seq<Call>, env: Env, bypass: BypassList)
    requires CleanStart(cfg, s0) && FaultFree(env)
    requires Deletions(CleanupPhases(cfg)) && Bounded(Owned(cfg), CleanupPhases(cfg), RunCalls(cfg, s0, calls))
    ensures RunCall(cfg, RunCalls(cfg, s0, calls), ApplyCall(env, bypass)) == InstalledStore(env.kernel, cfg, bypass, s0)
  {
    CleanIsForeign(Owned(cfg), s0);
    ForeignRulesSurvive(cfg, s0, calls);
    ApplyNormalForm(cfg, env, Begin(RunCalls(cfg, s0, calls)), bypass);
  }

  /** A partial Apply is repaired by the next Apply. */
  lemma {:induction false} ReapplyAfterPartial(cfg: Config, s0: Store, faulty: Env, before: BypassList, env: Env, bypass: BypassList)
    requires CleanStart(cfg, s0) && FaultFree(env)
    ensures RunCall(cfg, RunCall(cfg, s0, ApplyCall(faulty, before)), ApplyCall(env, bypass))
         == RunCall(cfg, s0, ApplyCall(env, bypass))
         == InstalledStore(env.kernel, cfg, bypass, s0)
  {
    PartialApplyBounded(cfg, s0, faulty, before);
    OneCall(cfg, s0, ApplyCall(faulty, before));
    ApplyAfterHistory(cfg, s0, [ApplyCall(faulty, before)], env, bypass);
    ApplyFromClean(cfg, s0, env, bypass);
  }

  lemma {:induction false} ApplyFromClean(cfg: Config, s0: Store, env: Env, bypass: BypassList)
    requires CleanStart(cfg, s0) && FaultFree(env)
    ensures RunCall(cfg, s0, ApplyCall(env, bypass)) == InstalledStore(env.kernel, cfg, bypass, s0)
  {
    CleanBounded(cfg, s0);
    ApplyAfterHistory(cfg, s0, [], env, bypass);
  }

  lemma {:induction false} CleanBounded(cfg: Config, s: Store)
    requires CleanStart(cfg, s)
    ensures Deletions(CleanupPhases(cfg)) && Bounded(Owned(cfg), CleanupPhases(cfg), s)
  {
    OwnedFacts(cfg);
    forall id, r | (id, r) in Owned(cfg).rules ensures Count(s, id, r) == 0 {
      CleanCounts(Owned(cfg), s, id, r);
    }
  }

  /** Repeat a step with one list after the other. */
  function Repeat(step: (Store, BypassList) -> Store, s: Store, lists: seq<BypassList>): Store
    decreases lists
  {
    if lists == [] then s else Repeat(step, step(s, lists[0]), lists[1..])
  }

  lemma {:induction false} RepeatIsLast(step: (Store, BypassList) -> Store, s0: Store, lists: seq<BypassList>)
    requires forall b1, b2 :: step(step(s0, b1), b2) == step(s0, b2)
    requires lists != []
    ensures Repeat(step, s0, lists) == step(s0, lists[|lists| - 1])
    decreases |lists|
  {
    if |lists| > 1 {
      var rest := lists[1..];
      assert rest[0] == lists[1];
      assert Repeat(step, step(s0, lists[0]), rest) == Repeat(step, step(step(s0, lists[0]), rest[0]), rest[1..]);
      assert Repeat(step, s0, rest) == Repeat(step, step(s0, rest[0]), rest[1..]);
      RepeatIsLast(step, s0, rest);
    } else {
      assert Repeat(step, step(s0, lists[0]), lists[1..]) == step(s0, lists[0]);
    }
  }

  /** Re-apply never stacks: any number of Apply calls ends like the last one alone. */
  lemma {:induction false} ReapplyNeverStacks(cfg: Config, s0: Store, env: Env, lists: seq<BypassList>)
    requires CleanStart(cfg, s0) && FaultFree(env) && lists != []
    ensures Repeat((s: Store, b: BypassList) => RunCall(cfg, s, ApplyCall(env, b)), s0, lists)
         == InstalledStore(env.kernel, cfg, lists[|lists| - 1], s0)
  {
    var step := (s: Store, b: BypassList) => RunCall(cfg, s, ApplyCall(env, b));
    forall b1, b2 ensures step(step(s0, b1), b2) == step(s0, b2) {
      ReapplyAfterPartial(cfg, s0, env, b1, env, b2);
    }
    RepeatIsLast(step, s0, lists);
    ApplyFromClean(cfg, s0, env, lists[|lists| - 1]);
  }
}

/**
 The teardown of a tunnel run cleans up with the configuration of the moment,
 not with the one Apply used. This is exactly when that restores the tables,
 whatever failed in Apply.
 */
module ConfigChange {
  import opened Common
  import opened Netfilter
  import opened Footprints
  import opened Cleaners
  import opened Firewall
  import opened Iptables
  import opened Ownership
  import opened Additions
  import opened Confinement
  import opened Undo
  import opened Idle
  import opened Disturbed
  import opened InForce
  import opened BestEffort
  import opened NoTrace
  import opened NormalForm
  import opened Agreement

  /** `a` with the prefix and the interface list of `b`, which is all that Cleanup sees. */
  function Retarget(a: Config, b: Config): Config {
    a.(chainsPrefix := b.chainsPrefix, hotspotIfaces := b.hotspotIfaces)
  }

  // ----- the condition -----

  /** How many hooks of a pattern got in, inserted from command number `clock` on. */
  function KeptTimes(env: Env, clock: nat, ifaces: seq<string>, i: string): nat
    decreases ifaces
  {
    if ifaces == [] then 0
    else if Blank(ifaces[0]) then KeptTimes(env, clock, ifaces[1..], i)
    else (if ifaces[0] == i && env.faults(clock).None? then 1 else 0) + KeptTimes(env, clock + 1, ifaces[1..], i)
  }

  /** The current list has as many deletions for each pattern as hooks of it got in. */
  ghost predicate HooksFit(env: Env, making: nat, l: Plan, current: seq<string>) {
    l.hotspot && env.faults(making + 2).None? ==> forall i :: KeptTimes(env, HookAt(making, l) + 1, l.ifaces, i) <= Times(current, i)
  }

  /** The number of -L of the DNS chain, if the recorded commands start with number `making`. */
  function DnsListAt(making: nat, cfg: Config, bypass: BypassList): nat {
    DnsAt(ForwardAt(making, cfg, bypass), cfg)
  }

  /** There is no DNS chain to make, or -N of it was failed. */
  predicate DnsNotMade(env: Env, list: nat, port: int) {
    port > 0 ==> env.faults(list + 1).Some?
  }

  /**
   With the same prefix: every hook that got in is covered. With another: no chain was
   made that the current prefix does not name; "_HOTSPOT_DNS" is a name that Cleanup
   knows and Apply makes when the prefix itself ends in "_HOTSPOT".
   */
  ghost predicate Restorable(env: Env, making: nat, applied: Config, bypass: BypassList, current: Config) {
    if Prefix(applied) == Prefix(current) then HooksFit(env, making, PlanOf(applied, bypass), Ifaces(current))
    else NotMade(env, making)
         && (DnsNotMade(env, DnsListAt(making, applied, bypass), applied.dnsForwardPort) || Prefix(applied) == Prefix(current) + "_HOTSPOT")
  }

  lemma {:induction false} KeptHooksCount(env: Env, clock: nat, ifaces: seq<string>, ch: string, r: Rule)
    ensures multiset(KeptHooks(env, clock, ifaces, ch))[r]
         == if r.inIface.Some? && r == IfaceTcpJump(r.inIface.value, ch) then KeptTimes(env, clock, ifaces, r.inIface.value) else 0
    decreases ifaces
  {
    if ifaces != [] && Blank(ifaces[0]) {
      KeptHooksCount(env, clock, ifaces[1..], ch, r);
    } else if ifaces != [] {
      KeptHooksCount(env, clock + 1, ifaces[1..], ch, r);
    }
  }

  lemma {:induction false} KeptTimesBound(env: Env, clock: nat, ifaces: seq<string>, i: string)
    ensures KeptTimes(env, clock, ifaces, i) <= Times(ifaces, i)
    ensures FaultFree(env) ==> KeptTimes(env, clock, ifaces, i) == Times(ifaces, i)
    decreases ifaces
  {
    if ifaces != [] && Blank(ifaces[0]) {
      KeptTimesBound(env, clock, ifaces[1..], i);
    } else if ifaces != [] {
      KeptTimesBound(env, clock + 1, ifaces[1..], i);
    }
  }

  lemma {:induction false} TimesMember(ifaces: seq<string>, i: string)
    ensures Times(ifaces, i) > 0 <==> i in ifaces && !Blank(i)
  {
    if ifaces != [] {
      TimesMember(ifaces[1..], i);
    }
  }

  lemma {:induction false} OwnsIfaceHook(cfg: Config, i: string)
    requires i in Ifaces(cfg) && !Blank(i)
    ensures Within(Owned(cfg), Insert(NAT_PREROUTING, IfaceTcpJump(i, PreName(Prefix(cfg)))))
  {
    IfaceDeletesHave(Ifaces(cfg), PreName(Prefix(cfg)), i);
    DeletableIsOwned(cfg, NAT_PREROUTING, IfaceTcpJump(i, PreName(Prefix(cfg))));
  }

  lemma {:induction false} OwnsOutHook(cfg: Config)
    ensures Within(Owned(cfg), Insert(NAT_OUTPUT, TcpJump(OutName(Prefix(cfg)))))
  {
    FixedHas(OutName(Prefix(cfg)), NAT_OUTPUT, TcpJump(OutName(Prefix(cfg))));
    DeletableIsOwned(cfg, NAT_OUTPUT, TcpJump(OutName(Prefix(cfg))));
  }

  // ----- a store with hooks on top -----

  /** Owned hooks in front of the old rules. */
  ghost predicate OnTop(fp: Footprint, id: ChainId, hooks: seq<Rule>, was: seq<Rule>, now: seq<Rule>) {
    now == hooks + was && forall r :: r in hooks ==> (id, r) in fp.rules
  }

  lemma {:induction false} KeepNone(fp: Footprint, id: ChainId, rules: seq<Rule>)
    requires forall r :: r in rules ==> (id, r) in fp.rules
    ensures Keep(fp, id, rules) == []
  {
    if rules != [] {
      assert rules[0] in rules;
      KeepNone(fp, id, rules[1..]);
    }
  }

  lemma {:induction false} OnTopKeep(fp: Footprint, id: ChainId, hooks: seq<Rule>, was: seq<Rule>, now: seq<Rule>)
    requires OnTop(fp, id, hooks, was, now) && forall r :: r in was ==> (id, r) !in fp.rules
    ensures Keep(fp, id, now) == was
  {
    KeepConcat(fp, id, hooks, was);
    KeepNone(fp, id, hooks);
    KeepAll(fp, id, was);
    assert [] + was == was;
  }

  /** Every chain of `t` is an owned one without jumps, or an old one with owned hooks on top. */
  ghost predicate Layered(fp: Footprint, s0: Store, t: Store, hooks: ChainId -> seq<Rule>) {
    && s0.Keys <= t.Keys
    && (forall id :: id in t && id in fp.chains ==> NoJumps(t[id]))
    && (forall id :: id in t && id !in fp.chains ==> id in s0 && OnTop(fp, id, hooks(id), s0[id], t[id]))
  }

  lemma {:induction false} LayeredForeign(fp: Footprint, s0: Store, t: Store, hooks: ChainId -> seq<Rule>)
    requires Clean(fp, s0) && Layered(fp, s0, t, hooks) && forall id, r :: (id, r) in fp.rules ==> id !in fp.chains
    ensures Foreign(fp, t) == s0 && Shape(fp, t)
  {
    forall id | id in t && id !in fp.chains ensures id in s0 && Keep(fp, id, t[id]) == s0[id] {
      OnTopKeep(fp, id, hooks(id), s0[id], t[id]);
    }
    CleanIsForeign(fp, s0);
    forall id, r | id in t && r in t[id] && IntoOwned(fp, id, r) ensures id !in fp.chains && (id, r) in fp.rules {
      if id !in fp.chains {
        assert OnTop(fp, id, hooks(id), s0[id], t[id]);
        assert r in s0[id] ==> !IntoOwned(fp, id, r) || (id, r) in fp.rules;
      }
    }
  }

  // ----- the same prefix -----

  /** The hooks that the recorded commands put on top of a chain. */
  function HooksAt(env: Env, making: nat, l: Plan): ChainId -> seq<Rule> {
    (id: ChainId) => if id == NAT_OUTPUT then OutHooks(env, making, l) else if id == NAT_PREROUTING then PreHooks(env, making, l) else []
  }

  lemma {:induction false} KeptNoJumps(env: Env, clock: nat, rules: seq<Rule>)
    requires NoJumps(rules)
    ensures NoJumps(Kept(env, clock, rules))
  {
    KeptMembers(env, clock, rules);
  }

  /** The hooks that got in are owned by the current configuration. */
  lemma {:induction false} HooksOwned(env: Env, making: nat, l: Plan, current: Config, r: Rule)
    requires l.out == OutName(Prefix(current)) && l.pre == PreName(Prefix(current)) && HooksFit(env, making, l, Ifaces(current))
    ensures r in OutHooks(env, making, l) ==> (NAT_OUTPUT, r) in Owned(current).rules
    ensures r in PreHooks(env, making, l) ==> (NAT_PREROUTING, r) in Owned(current).rules
  {
    OwnsOutHook(current);
    BuiltinsNotOwned(current);
    if r in PreHooks(env, making, l) {
      KeptHooksCount(env, HookAt(making, l) + 1, l.ifaces, l.pre, r);
      assert multiset(KeptHooks(env, HookAt(making, l) + 1, l.ifaces, l.pre))[r] > 0;
      var i := r.inIface.value;
      assert KeptTimes(env, HookAt(making, l) + 1, l.ifaces, i) <= Times(Ifaces(current), i);
      TimesMember(Ifaces(current), i);
      OwnsIfaceHook(current, i);
    }
  }

  /** What the recorded commands leave, whatever failed, seen with the current footprint `fp`. */
  lemma {:induction false} PlanLayered(env: Env, making: nat, l: Plan, fp: Footprint, s0: Store, t: Store)
    requires Chains(env, making, l, t) && Hooks(env, making, l, s0, t) && NamesFree(l) && NoJumps(OutRules(l)) && NoJumps(PreRules(l))
    requires forall id :: id != NatChain(l.out) && id != NatChain(l.pre) && id != NAT_OUTPUT && id != NAT_PREROUTING ==> SameAt(t, s0, id)
    requires OnlyMade(env, making, l, t)
    requires NatChain(l.out) !in s0 && NatChain(l.pre) !in s0
    requires NatChain(l.out) in fp.chains && NatChain(l.pre) in fp.chains && (forall c :: c in fp.chains ==> c !in s0)
    requires forall r :: r in OutHooks(env, making, l) ==> (NAT_OUTPUT, r) in fp.rules
    requires forall r :: r in PreHooks(env, making, l) ==> (NAT_PREROUTING, r) in fp.rules
    ensures Layered(fp, s0, t, HooksAt(env, making, l))
  {
    KeptNoJumps(env, making + 4, OutRules(l));
    KeptNoJumps(env, PreFirst(making, l), PreRules(l));
    forall id | id in t && id !in fp.chains ensures id in s0 && OnTop(fp, id, HooksAt(env, making, l)(id), s0[id], t[id]) {
      if id != NAT_OUTPUT && id != NAT_PREROUTING {
        assert SameAt(t, s0, id);
        assert [] + s0[id] == s0[id];
      }
    }
    forall id | id != NatChain(l.out) && id != NatChain(l.pre) && id != NAT_OUTPUT && id != NAT_PREROUTING ensures id in t <==> id in s0 {
      assert SameAt(t, s0, id);
    }
    forall id | id in s0 ensures id in t {
      assert id != NAT_OUTPUT && id != NAT_PREROUTING ==> SameAt(t, s0, id);
    }
  }

  /** Copies of owned rules after the recorded commands. */
  lemma {:induction false} PlanCounts(env: Env, making: nat, l: Plan, current: Config, s0: Store, t: Store, id: ChainId, r: Rule)
    requires l.out == OutName(Prefix(current)) && l.pre == PreName(Prefix(current)) && HooksFit(env, making, l, Ifaces(current))
    requires Layered(Owned(current), s0, t, HooksAt(env, making, l)) && Clean(Owned(current), s0)
    requires (id, r) in Owned(current).rules && id !in Owned(current).chains
    ensures Count(t, id, r) <= HookPart(l.out, Ifaces(current), id, r) + HookPart(l.pre, Ifaces(current), id, r)
  {
    HooksCounts(env, making, l, Ifaces(current), id, r);
    if id in t {
      OnTopCount(Owned(current), id, HooksAt(env, making, l)(id), s0[id], t[id], r);
    }
  }

  lemma {:induction false} OnTopCount(fp: Footprint, id: ChainId, hooks: seq<Rule>, was: seq<Rule>, now: seq<Rule>, r: Rule)
    requires OnTop(fp, id, hooks, was, now) && (id, r) in fp.rules && forall x :: x in was ==> (id, x) !in fp.rules
    ensures multiset(now)[r] == multiset(hooks)[r]
  {
    assert r !in was && multiset(was)[r] == 0;
  }

  lemma {:induction false} HooksCounts(env: Env, making: nat, l: Plan, current: seq<string>, id: ChainId, r: Rule)
    requires HooksFit(env, making, l, current)
    ensures multiset(HooksAt(env, making, l)(id))[r] <= HookPart(l.out, current, id, r) + HookPart(l.pre, current, id, r)
  {
    FixedHas(l.out, id, r);
    if id == NAT_PREROUTING && l.hotspot && env.faults(making + 2).None? {
      KeptHooksCount(env, HookAt(making, l) + 1, l.ifaces, l.pre, r);
      IfaceDeleteCount(current, NAT_PREROUTING, l.pre, id, r);
    }
  }

  /** A store in which only owned things are new, and not too many of them, is restored. */
  lemma {:induction false} Restores(current: Config, s0: Store, u: Store, env: Env)
    requires FaultFree(env) && Deletions(CleanupPhases(current))
    requires Shape(Owned(current), u) && Foreign(Owned(current), u) == s0 && Bounded(Owned(current), CleanupPhases(current), u)
    ensures RunCall(current, u, CleanupCall(env)) == s0
  {
    OwnedFacts(current);
    CleanupFits(current, u);
    CleanerExact(env, Owned(current), Begin(u), CleanupPhases(current));
  }

  /** The store after the recorded commands, seen with the current configuration. */
  lemma {:induction false} RecordedLayered(applied: Config, current: Config, m: Machine, env: Env, bypass: BypassList)
    requires CleanStart(applied, m.store) && CleanStart(current, m.store) && Prefix(applied) == Prefix(current)
    requires HooksFit(env, m.clock, PlanOf(applied, bypass), Ifaces(current))
    ensures Layered(Owned(current), m.store, Run(env, m, RedirectProgram(applied, bypass)).store, HooksAt(env, m.clock, PlanOf(applied, bypass)))
  {
    var l, t := PlanOf(applied, bypass), Run(env, m, RedirectProgram(applied, bypass)).store;
    RecordedLeave(env, m, applied, bypass);
    OwnFresh(applied, m.store);
    OwnChainsOwned(current);
    PlanRules(applied, bypass, l);
    ChainsApart(applied, bypass);
    forall r ensures (r in OutHooks(env, m.clock, l) ==> (NAT_OUTPUT, r) in Owned(current).rules)
                  && (r in PreHooks(env, m.clock, l) ==> (NAT_PREROUTING, r) in Owned(current).rules) {
      HooksOwned(env, m.clock, l, current, r);
    }
    OthersSame(applied, m, env, bypass);
    PlanLayered(env, m.clock, l, Owned(current), m.store, t);
  }

  /** The recorded commands touch no chain but their two and the two nat hooks. */
  lemma {:induction false} OthersSame(cfg: Config, m: Machine, env: Env, bypass: BypassList)
    ensures forall id :: (id != NatChain(OutName(Prefix(cfg))) && id != NatChain(PreName(Prefix(cfg))) && id != NAT_OUTPUT && id != NAT_PREROUTING
                          ==> SameAt(Run(env, m, RedirectProgram(cfg, bypass)).store, m.store, id))
  {
    forall id | id != NatChain(OutName(Prefix(cfg))) && id != NatChain(PreName(Prefix(cfg))) && id != NAT_OUTPUT && id != NAT_PREROUTING
      ensures SameAt(Run(env, m, RedirectProgram(cfg, bypass)).store, m.store, id)
    {
      RedirectKeepsOthers(env, m, cfg, bypass, id);
    }
  }

  lemma {:induction false} SameOwned(applied: Config, current: Config)
    ensures Owned(Retarget(applied, current)) == Owned(current)
  {
    assert CleanupPhases(Retarget(applied, current)) == CleanupPhases(current);
  }

  lemma {:induction false} SameIgnored(applied: Config, current: Config)
    requires Prefix(applied) == Prefix(current)
    ensures BestEffortProgram(Retarget(applied, current)) == BestEffortProgram(applied)
  {
  }

  /** The ignored commands stay inside the footprint of the current configuration. */
  lemma {:induction false} IgnoredWithin(applied: Config, current: Config)
    requires Prefix(applied) == Prefix(current)
    ensures ProgramAll(c => Within(Owned(current), c), BestEffortProgram(applied))
  {
    SameOwned(applied, current);
    SameIgnored(applied, current);
    BestEffortWithin(Retarget(applied, current));
  }

  lemma {:induction false} CleanupDeletesFor(applied: Config, current: Config, id: ChainId, r: Rule)
    requires Deletions(CleanupPhases(current)) && Prefix(applied) == Prefix(current)
    requires id != NatChain(DnsName(Prefix(current))) && id != DROP6
    ensures AllDeletes(CleanupPhases(current), id, r)
         >= HookPart(OutName(Prefix(current)), Ifaces(current), id, r) + HookPart(PreName(Prefix(current)), Ifaces(current), id, r)
            + Adds(BestEffortProgram(applied), id, r)
  {
    var mid := Retarget(applied, current);
    BestEffortAdds(mid, id, r);
    CleanupDeletes(mid, id, r);
  }

  lemma {:induction false} FitBounded(applied: Config, current: Config, m: Machine, t: Machine, env: Env, bypass: BypassList)
    requires CleanStart(current, m.store) && Prefix(applied) == Prefix(current)
    requires HooksFit(env, m.clock, PlanOf(applied, bypass), Ifaces(current))
    requires Layered(Owned(current), m.store, t.store, HooksAt(env, m.clock, PlanOf(applied, bypass)))
    ensures Deletions(CleanupPhases(current))
    ensures Bounded(Owned(current), CleanupPhases(current), Run(env, t, BestEffortProgram(applied)).store)
  {
    OwnedFacts(current);
    OwnChainsOwned(current);
    forall id, r | (id, r) in Owned(current).rules
      ensures Count(Run(env, t, BestEffortProgram(applied)).store, id, r) <= AllDeletes(CleanupPhases(current), id, r)
    {
      RunCount(env, t, BestEffortProgram(applied), id, r);
      PlanCounts(env, m.clock, PlanOf(applied, bypass), current, m.store, t.store, id, r);
      CleanupDeletesFor(applied, current, id, r);
    }
  }

  /** Enough: the same prefix and hooks that fit. */
  lemma {:induction false} FitRestores(applied: Config, current: Config, m: Machine, faulty: Env, env: Env, bypass: BypassList)
    requires CleanStart(applied, m.store) && CleanStart(current, m.store) && FaultFree(env) && Prefix(applied) == Prefix(current)
    requires HooksFit(faulty, m.clock, PlanOf(applied, bypass), Ifaces(current))
    ensures RunCall(current, Run(faulty, Run(faulty, m, RedirectProgram(applied, bypass)), BestEffortProgram(applied)).store, CleanupCall(env)) == m.store
  {
    var fp, t := Owned(current), Run(faulty, m, RedirectProgram(applied, bypass));
    OwnedFacts(current);
    RecordedLayered(applied, current, m, faulty, bypass);
    LayeredForeign(fp, m.store, t.store, HooksAt(faulty, m.clock, PlanOf(applied, bypass)));
    IgnoredWithin(applied, current);
    RunKeepsForeign(faulty, fp, t, BestEffortProgram(applied));
    FitBounded(applied, current, m, t, faulty, bypass);
    Restores(current, m.store, Run(faulty, t, BestEffortProgram(applied)).store, env);
  }

  // ----- hooks that do not fit stay -----

  /** A cleanup never removes a chain it does not list. */
  lemma {:induction false} CleanerKeepsChain(env: Env, m: Machine, cl: seq<Phase>, id: ChainId)
    requires FaultFree(env) && Deletions(cl) && id in m.store
    requires forall i :: 0 <= i < |cl| ==> id !in cl[i].chains
    ensures id in Run(env, m, CleanerProgram(cl)).store
    decreases cl
  {
    if cl != [] {
      var m1 := Run(env, m, cl[0].deletes);
      RunCleanerHead(env, m, cl);
      RunDeletesKeys(env, m, cl[0].deletes);
      RemovalsFrame(env, m1, cl[0].chains);
      CleanerKeepsChain(env, Run(env, m1, Removals(cl[0].chains)), cl[1..], id);
    }
  }

  lemma {:induction false} NotListed(cfg: Config, id: ChainId)
    requires id !in ChainsOf(V4, Nat, LegacyNames(Prefix(cfg))) && id != DROP6
    ensures forall i :: 0 <= i < |CleanupPhases(cfg)| ==> id !in CleanupPhases(cfg)[i].chains
  {
    var cl := CleanupPhases(cfg);
    assert cl[0].chains == ChainsOf(V4, Nat, LegacyNames(Prefix(cfg))) && cl[1].chains == [] && cl[2].chains == [DROP6];
  }

  lemma {:induction false} IfaceHookDeletes(cfg: Config, i: string)
    ensures Deletions(CleanupPhases(cfg))
    ensures AllDeletes(CleanupPhases(cfg), NAT_PREROUTING, IfaceTcpJump(i, PreName(Prefix(cfg)))) == Times(Ifaces(cfg), i)
  {
    var r := IfaceTcpJump(i, PreName(Prefix(cfg)));
    CleanupShape(cfg);
    ThreePhaseDeletes(CleanupPhases(cfg), NAT_PREROUTING, r);
    FilterPhaseAt(NAT_PREROUTING, r);
    IPv6PhaseDeletes(NAT_PREROUTING, r);
    IfaceHookSum(Prefix(cfg), Ifaces(cfg), i);
  }

  lemma {:induction false} FilterPhaseAt(id: ChainId, r: Rule)
    requires id.table == Nat
    ensures DeletesOnly(FilterPhase().deletes)
    ensures Deletes(FilterPhase().deletes, id, r) == 0
  {
    DeletedRulesAre(FilterPhase().deletes, id, r);
  }

  lemma {:induction false} IfaceHookPart(ch: string, ifaces: seq<string>, i: string, pre: string)
    ensures HookPart(ch, ifaces, NAT_PREROUTING, IfaceTcpJump(i, pre)) == if ch == pre then Times(ifaces, i) else 0
  {
    var r := IfaceTcpJump(i, pre);
    IfaceDeleteCount(ifaces, NAT_PREROUTING, ch, NAT_PREROUTING, r);
    DeletedRulesAre(FixedDeletes(ch), NAT_PREROUTING, r);
  }

  lemma {:induction false} IfaceHookSum(prefix: string, ifaces: seq<string>, i: string)
    ensures DeletesOnly(HookDeletes(LegacyNames(prefix), ifaces))
    ensures Deletes(HookDeletes(LegacyNames(prefix), ifaces), NAT_PREROUTING, IfaceTcpJump(i, PreName(prefix))) == Times(ifaces, i)
  {
    var n, r, pre := LegacyNames(prefix), IfaceTcpJump(i, PreName(prefix)), PreName(prefix);
    HookSum(n, ifaces, NAT_PREROUTING, r);
    HookSum(n[1..], ifaces, NAT_PREROUTING, r);
    assert n[1..][0] == pre && n[1..][1..] == n[2..];
    IfaceHookPart(n[0], ifaces, i, pre);
    IfaceHookPart(pre, ifaces, i, pre);
    assert |n[0]| == |prefix| + 7 && |pre| == |prefix| + 11;
    assert |n[2]| == |prefix| + 6 && |n[3]| == |prefix| + 4 && |n[4]| == |prefix| + 8 && |n[5]| == |prefix| + 12;
    NoIfaceHook(n[2..], ifaces, i, pre);
  }

  lemma {:induction false} NoIfaceHook(names: seq<string>, ifaces: seq<string>, i: string, pre: string)
    requires pre !in names
    ensures DeletesOnly(HookDeletes(names, ifaces))
    ensures Deletes(HookDeletes(names, ifaces), NAT_PREROUTING, IfaceTcpJump(i, pre)) == 0
  {
    HookDeletesAreHooks(names, ifaces, NameSet(names));
    if names != [] {
      HookSum(names, ifaces, NAT_PREROUTING, IfaceTcpJump(i, pre));
      IfaceHookPart(names[0], ifaces, i, pre);
      NoIfaceHook(names[1..], ifaces, i, pre);
    }
  }

  lemma {:induction false} HooksLeft(current: Config, s: Store, env: Env, r: Rule, i: string)
    requires FaultFree(env) && r == IfaceTcpJump(i, PreName(Prefix(current))) && NAT_PREROUTING in s
    ensures Count(RunCall(current, s, CleanupCall(env)), NAT_PREROUTING, r) >= Count(s, NAT_PREROUTING, r) - Times(Ifaces(current), i)
  {
    IfaceHookDeletes(current, i);
    OwnedFacts(current);
    BuiltinsNotOwned(current);
    OwnedChains(current, NAT_PREROUTING);
    NotListed(current, NAT_PREROUTING);
    CleanerCount(env, Begin(s), CleanupPhases(current), NAT_PREROUTING, r);
  }

  lemma {:induction false} UnfitLeavesHook(applied: Config, current: Config, s0: Store, faulty: Env, env: Env, bypass: BypassList)
    requires CleanStart(applied, s0) && FaultFree(env) && Prefix(applied) == Prefix(current)
    requires !HooksFit(faulty, Making(applied), PlanOf(applied, bypass), Ifaces(current))
    ensures RunCall(current, RunCall(applied, s0, ApplyCall(faulty, bypass)), CleanupCall(env)) != s0
  {
    var l, at, s := PlanOf(applied, bypass), HookAt(Making(applied), PlanOf(applied, bypass)) + 1, RunCall(applied, s0, ApplyCall(faulty, bypass));
    var i :| KeptTimes(faulty, at, l.ifaces, i) > Times(Ifaces(current), i);
    ApplySeen(applied, s0, faulty, bypass);
    KeptHooksCount(faulty, at, l.ifaces, l.pre, IfaceTcpJump(i, l.pre));
    HooksLeft(current, s, env, IfaceTcpJump(i, l.pre), i);
    KeptTimesBound(faulty, at, l.ifaces, i);
    NoHookBefore(applied, s0, i);
  }

  lemma {:induction false} NoHookBefore(applied: Config, s0: Store, i: string)
    requires CleanStart(applied, s0) && Times(Ifaces(applied), i) > 0
    ensures Count(s0, NAT_PREROUTING, IfaceTcpJump(i, PreName(Prefix(applied)))) == 0
  {
    TimesMember(Ifaces(applied), i);
    OwnsIfaceHook(applied, i);
    BuiltinsNotOwned(applied);
    CleanCounts(Owned(applied), s0, NAT_PREROUTING, IfaceTcpJump(i, PreName(Prefix(applied))));
  }

  // ----- another prefix -----

  lemma {:induction false} NamesDiffer(p1: string, p2: string)
    requires p1 != p2
    ensures NatChain(OutName(p1)) !in ChainsOf(V4, Nat, LegacyNames(p2))
    ensures NatChain(PreName(p1)) !in ChainsOf(V4, Nat, LegacyNames(p2))
    ensures p1 != p2 + "_HOTSPOT" ==> NatChain(DnsName(p1)) !in ChainsOf(V4, Nat, LegacyNames(p2))
  {
    NotLegacy(OutName(p1), p1, p2, "_OUTPUT");
    NotLegacy(PreName(p1), p1, p2, "_PREROUTING");
    if p1 != p2 + "_HOTSPOT" {
      NotLegacy(DnsName(p1), p1, p2, "_DNS");
    }
  }

  /** The six names differ in their last two characters, but for the two that end in "_DNS". */
  lemma {:induction false} NotLegacy(n: string, p1: string, p2: string, tail: string)
    requires n == p1 + tail && p1 != p2 && (tail == "_OUTPUT" || tail == "_PREROUTING" || (tail == "_DNS" && p1 != p2 + "_HOTSPOT"))
    ensures n !in LegacyNames(p2)
  {
    forall i | 0 <= i < 6 ensures LegacyNames(p2)[i] != n {
      var x := LegacyNames(p2)[i];
      assert n[|n| - 1] == tail[|tail| - 1] && n[|n| - 2] == tail[|tail| - 2];
      assert n[..|n| - |tail|] == p1;
      if i == 5 {
        assert x == (p2 + "_HOTSPOT") + "_DNS";
        assert x[..|x| - 4] == p2 + "_HOTSPOT";
      } else {
        assert x[..|p2|] == p2;
      }
    }
  }

  lemma {:induction false} StaysBehind(current: Config, s: Store, env: Env, id: ChainId)
    requires FaultFree(env) && id in s && id !in ChainsOf(V4, Nat, LegacyNames(Prefix(current))) && id != DROP6
    ensures id in RunCall(current, s, CleanupCall(env))
  {
    OwnedFacts(current);
    NotListed(current, id);
    CleanerKeepsChain(env, Begin(s), CleanupPhases(current), id);
  }

  lemma {:induction false} ChainInstalled(applied: Config, s0: Store, env: Env, bypass: BypassList)
    requires CleanStart(applied, s0) && env.faults(Making(applied)).None?
    ensures NatChain(OutName(Prefix(applied))) in RunCall(applied, s0, ApplyCall(env, bypass))
    ensures NatChain(OutName(Prefix(applied))) !in s0
  {
    ApplySeen(applied, s0, env, bypass);
    OwnFresh(applied, s0);
  }

  lemma {:induction false} MadeStays(applied: Config, current: Config, s0: Store, faulty: Env, env: Env, bypass: BypassList)
    requires CleanStart(applied, s0) && FaultFree(env) && Prefix(applied) != Prefix(current) && !NotMade(faulty, Making(applied))
    ensures RunCall(current, RunCall(applied, s0, ApplyCall(faulty, bypass)), CleanupCall(env)) != s0
  {
    var s, l := RunCall(applied, s0, ApplyCall(faulty, bypass)), PlanOf(applied, bypass);
    ApplySeen(applied, s0, faulty, bypass);
    OwnFresh(applied, s0);
    NamesDiffer(Prefix(applied), Prefix(current));
    if faulty.faults(Making(applied)).None? {
      StaysBehind(current, s, env, NatChain(l.out));
    } else {
      StaysBehind(current, s, env, NatChain(l.pre));
    }
  }

  // ----- the ignored commands in parts -----

  lemma {:induction false} RunParts(env: Env, m: Machine, f: Program, d: Program, q: Program, v: Program)
    ensures Run(env, m, f + d + q + v) == Run(env, Run(env, Run(env, m, f), d), q + v)
  {
    Assoc(f + d, q, v);
    RunConcat(env, m, f + d, q + v);
    RunConcat(env, m, f, d);
  }

  lemma {:induction false} ForwardRuns(env: Env, m: Machine, cfg: Config)
    ensures Run(env, m, ForwardAccept(cfg)).clock == m.clock + if cfg.hotspot then 1 else 0
    ensures forall id :: id != FILTER_FORWARD ==> SameAt(Run(env, m, ForwardAccept(cfg)).store, m.store, id)
  {
    if cfg.hotspot {
      assert ForwardAccept(cfg)[1..] == [];
      assert [Insert(FILTER_FORWARD, Plain(Accept))][1..] == [];
    }
  }

  lemma {:induction false} DnsIdle(env: Env, m: Machine, prefix: string, port: int)
    requires NatChain(DnsName(prefix)) !in m.store && NAT_OUTPUT in m.store && DnsJump(DnsName(prefix)) !in m.store[NAT_OUTPUT]
    requires DnsNotMade(env, m.clock, port)
    ensures Run(env, m, DnsProgram(prefix, port)).store == m.store
  {
    MutedDns(env, m.store, m.clock, DnsName(prefix), prefix, port);
    MutedIdle(env, m, DnsProgram(prefix, port));
  }

  lemma {:induction false} AdditiveKeepsChain(env: Env, m: Machine, p: Program, id: ChainId)
    requires ProgramAll(c => Additive(c), p) && id in m.store
    ensures id in Run(env, m, p).store
  {
    var inv := (s: Store) => id in s;
    var allowed := (c: Command) => Additive(c);
    forall s, c | inv(s) && allowed(c) && Refusal(env.kernel, s, c).None? ensures inv(Effect(env.kernel, s, c)) {
    }
    RunInvariant(env, m, p, inv, allowed);
  }

  lemma {:induction false} ListOrNew(env: Env, m: Machine, id: ChainId)
    requires id !in m.store && env.faults(m.clock + 1).None?
    ensures id in RunStep(env, m, FirstOk([List(id), New(id)])).store
  {
    RunEither(env, m, List(id), New(id));
  }

  lemma {:induction false} DnsMade(env: Env, m: Machine, prefix: string, port: int)
    requires NatChain(DnsName(prefix)) !in m.store && port > 0 && env.faults(m.clock + 1).None?
    ensures NatChain(DnsName(prefix)) in Run(env, m, DnsProgram(prefix, port)).store
  {
    var p, id := DnsProgram(prefix, port), NatChain(DnsName(prefix));
    ListOrNew(env, m, id);
    IgnoredAdditive(prefix, port);
    assert ProgramAll(c => Additive(c), p[1..]) by {
      forall i | 0 <= i < |p[1..]| ensures StepAll(c => Additive(c), p[1..][i]) { assert p[1..][i] == p[i + 1]; }
    }
    AdditiveKeepsChain(env, RunStep(env, m, p[0]), p[1..], id);
  }

  /** The machine after the recorded commands of an Apply that made no chain. */
  lemma {:induction false} NothingRecorded(applied: Config, s0: Store, env: Env, bypass: BypassList) returns (t: Machine)
    requires CleanStart(applied, s0) && NotMade(env, Making(applied))
    ensures t.store == s0 && t.clock == ForwardAt(Making(applied), applied, bypass)
    ensures RunCall(applied, s0, ApplyCall(env, bypass)) == Run(env, t, BestEffortProgram(applied)).store
  {
    var m := Machine(s0, Making(applied), []);
    t := Run(env, m, RedirectProgram(applied, bypass));
    CleanIsBare(applied, s0);
    RedirectTraces(env, m, applied, bypass);
    ApplyRuns(applied, s0, env, bypass);
  }

  /** After the FORWARD rule the DNS commands find what they found before. */
  lemma {:induction false} BeforeDns(applied: Config, t: Machine, env: Env)
    requires CleanStart(applied, t.store)
    ensures var m1 := Run(env, t, ForwardAccept(applied));
      && m1.clock == DnsAt(t.clock, applied) && NatChain(DnsName(Prefix(applied))) !in m1.store && NAT_OUTPUT in m1.store
      && DnsJump(DnsName(Prefix(applied))) !in m1.store[NAT_OUTPUT]
  {
    var m1 := Run(env, t, ForwardAccept(applied));
    ForwardRuns(env, t, applied);
    DnsFresh(applied, t.store);
    HookNotThere(applied, t.store);
    assert SameAt(m1.store, t.store, NatChain(DnsName(Prefix(applied)))) && SameAt(m1.store, t.store, NAT_OUTPUT);
  }

  lemma {:induction false} DnsStays(applied: Config, current: Config, t: Machine, faulty: Env, env: Env)
    requires CleanStart(applied, t.store) && FaultFree(env) && Prefix(applied) != Prefix(current)
    requires !DnsNotMade(faulty, DnsAt(t.clock, applied), applied.dnsForwardPort) && Prefix(applied) != Prefix(current) + "_HOTSPOT"
    ensures RunCall(current, Run(faulty, t, BestEffortProgram(applied)).store, CleanupCall(env)) != t.store
  {
    var d, id := DnsProgram(Prefix(applied), applied.dnsForwardPort), NatChain(DnsName(Prefix(applied)));
    var m1 := Run(faulty, t, ForwardAccept(applied));
    BeforeDns(applied, t, faulty);
    DnsFresh(applied, t.store);
    DnsMade(faulty, m1, Prefix(applied), applied.dnsForwardPort);
    LastKeeps(faulty, Run(faulty, m1, d), id);
    RunParts(faulty, t, ForwardAccept(applied), d, QuicProgram(), IPv6Program());
    NamesDiffer(Prefix(applied), Prefix(current));
    StaysBehind(current, Run(faulty, t, BestEffortProgram(applied)).store, env, id);
  }

  lemma {:induction false} LastKeeps(env: Env, m: Machine, id: ChainId)
    requires id in m.store
    ensures id in Run(env, m, QuicProgram() + IPv6Program()).store
  {
    IgnoredAdditive("", 0);
    IPv6Additive();
    ProgramAllConcat(c => Additive(c), QuicProgram(), IPv6Program());
    AdditiveKeepsChain(env, m, QuicProgram() + IPv6Program(), id);
  }

  // ----- enough, with another prefix -----

  lemma {:induction false} LegacyHas(names: seq<string>, ifaces: seq<string>, ch: string, id: ChainId, r: Rule)
    requires ch in names
    ensures DeletesOnly(HookDeletes(names, ifaces))
    ensures Deletes(HookDeletes(names, ifaces), id, r) >= HookPart(ch, ifaces, id, r)
  {
    HookSum(names, ifaces, id, r);
    if names[0] != ch {
      LegacyHas(names[1..], ifaces, ch, id, r);
    }
  }

  /** Cleanup deletes what the ignored commands other than those for DNS add, and the hooks of any name it knows. */
  lemma {:induction false} CleanupDeletesName(applied: Config, current: Config, ch: string, id: ChainId, r: Rule)
    requires Deletions(CleanupPhases(current)) && ch in LegacyNames(Prefix(current)) && id != DROP6
    ensures AllDeletes(CleanupPhases(current), id, r)
         >= HookPart(ch, Ifaces(current), id, r) + Adds(ForwardAccept(applied), id, r) + Adds(QuicProgram(), id, r) + Adds(IPv6Program(), id, r)
  {
    var cl := CleanupPhases(current);
    ForwardAdds(applied, id, r);
    QuicAdds(id, r);
    IPv6Adds(id, r);
    LegacyHas(LegacyNames(Prefix(current)), Ifaces(current), ch, id, r);
    ThreePhaseDeletes(cl, id, r);
    DeletesConcat(ForwardDelete(), QuicDeletes(), id, r);
    assert cl[0].deletes == HookDeletes(LegacyNames(Prefix(current)), Ifaces(current));
  }

  lemma {:induction false} ForwardWithin(applied: Config, current: Config)
    ensures ProgramAll(c => Within(Owned(current), c), ForwardAccept(applied))
  {
    SameOwned(applied, current);
    if applied.hotspot {
      OwnsForward(Retarget(applied, current));
    }
    ForwardWithinFor(Owned(current), applied);
  }

  lemma {:induction false} LastWithin(current: Config)
    ensures ProgramAll(c => Within(Owned(current), c), QuicProgram() + IPv6Program())
  {
    OwnChainsOwned(current);
    OwnsHooks6(current);
    OwnsQuic(current, 443);
    OwnsQuic(current, 80);
    QuicWithinFor(Owned(current));
    IPv6WithinFor(Owned(current));
    ProgramAllConcat(c => Within(Owned(current), c), QuicProgram(), IPv6Program());
  }

  /** The DNS chain of prefix P_HOTSPOT is one that a cleanup with prefix P knows. */
  lemma {:induction false} DnsKnown(applied: Config, current: Config)
    requires Prefix(applied) == Prefix(current) + "_HOTSPOT"
    ensures DnsName(Prefix(applied)) in LegacyNames(Prefix(current))
    ensures ProgramAll(c => Within(Owned(current), c), DnsProgram(Prefix(applied), applied.dnsForwardPort))
  {
    var p1, names := Prefix(applied), LegacyNames(Prefix(current));
    var dns := DnsName(p1);
    assert dns == Prefix(current) + "_HOTSPOT_DNS" == names[5];
    OwnedFacts(current);
    OwnedChains(current, NatChain(dns));
    assert ChainsOf(V4, Nat, names)[5] == NatChain(dns);
    FixedHas(dns, NAT_OUTPUT, DnsJump(dns));
    CleanupDeletesName(applied, current, dns, NAT_OUTPUT, DnsJump(dns));
    BuiltinsNotOwned(current);
    DnsWithinFor(Owned(current), p1, applied.dnsForwardPort);
  }

  /** The store holds at most `n` copies of the rule, and its foreign part is `s0`. */
  ghost predicate Gains(fp: Footprint, s0: Store, s: Store, id: ChainId, r: Rule, n: nat) {
    Count(s, id, r) <= n && Shape(fp, s) && Foreign(fp, s) == s0
  }

  lemma {:induction false} PartGains(fp: Footprint, env: Env, s0: Store, m: Machine, p: Program, id: ChainId, r: Rule, n: nat)
    requires Gains(fp, s0, m.store, id, r, n) && ProgramAll(c => Within(fp, c), p)
    ensures Gains(fp, s0, Run(env, m, p).store, id, r, n + Adds(p, id, r))
  {
    RunKeepsForeign(env, fp, m, p);
    RunCount(env, m, p, id, r);
  }

  lemma {:induction false} OtherGains(applied: Config, current: Config, t: Machine, env: Env, ch: string, id: ChainId, r: Rule)
    requires CleanStart(applied, t.store) && CleanStart(current, t.store) && (id, r) in Owned(current).rules && ch in LegacyNames(Prefix(current))
    requires DnsNotMade(env, DnsAt(t.clock, applied), applied.dnsForwardPort)
             || (Prefix(applied) == Prefix(current) + "_HOTSPOT" && ch == DnsName(Prefix(applied)))
    ensures Deletions(CleanupPhases(current))
    ensures Gains(Owned(current), t.store, Run(env, t, BestEffortProgram(applied)).store, id, r, AllDeletes(CleanupPhases(current), id, r))
  {
    var fp, f, d := Owned(current), ForwardAccept(applied), DnsProgram(Prefix(applied), applied.dnsForwardPort);
    var m1 := Run(env, t, f);
    var m2 := Run(env, m1, d);
    OwnedFacts(current);
    OwnChainsOwned(current);
    CleanIsForeign(fp, t.store);
    CleanCounts(fp, t.store, id, r);
    ForwardWithin(applied, current);
    PartGains(fp, env, t.store, t, f, id, r, 0);
    BeforeDns(applied, t, env);
    LastWithin(current);
    CleanupDeletesName(applied, current, ch, id, r);
    AddsConcat(QuicProgram(), IPv6Program(), id, r);
    var n := Adds(f, id, r);
    if DnsNotMade(env, DnsAt(t.clock, applied), applied.dnsForwardPort) {
      DnsIdle(env, m1, Prefix(applied), applied.dnsForwardPort);
    } else {
      DnsKnown(applied, current);
      PartGains(fp, env, t.store, m1, d, id, r, n);
      KnownChain(current, ch);
      DnsAdds(Prefix(applied), applied.dnsForwardPort, Ifaces(current), id, r);
      n := n + Adds(d, id, r);
    }
    PartGains(fp, env, t.store, m2, QuicProgram() + IPv6Program(), id, r, n);
    RunParts(env, t, f, d, QuicProgram(), IPv6Program());
  }

  lemma {:induction false} KnownChain(current: Config, ch: string)
    requires ch in LegacyNames(Prefix(current))
    ensures NatChain(ch) in Owned(current).chains
  {
    var names := LegacyNames(Prefix(current));
    var i :| 0 <= i < |names| && names[i] == ch;
    assert ChainsOf(V4, Nat, names)[i] == NatChain(ch);
    OwnedChains(current, NatChain(ch));
  }

  lemma {:induction false} OtherRestores(applied: Config, current: Config, t: Machine, faulty: Env, env: Env)
    requires CleanStart(applied, t.store) && CleanStart(current, t.store) && FaultFree(env)
    requires DnsNotMade(faulty, DnsAt(t.clock, applied), applied.dnsForwardPort) || Prefix(applied) == Prefix(current) + "_HOTSPOT"
    ensures RunCall(current, Run(faulty, t, BestEffortProgram(applied)).store, CleanupCall(env)) == t.store
  {
    var u := Run(faulty, t, BestEffortProgram(applied)).store;
    var hot := Prefix(applied) == Prefix(current) + "_HOTSPOT";
    var ch := if hot then DnsName(Prefix(applied)) else OutName(Prefix(current));
    if hot {
      DnsKnown(applied, current);
    }
    assert LegacyNames(Prefix(current))[0] == OutName(Prefix(current));
    OwnedFacts(current);
    forall id, r | (id, r) in Owned(current).rules
      ensures Gains(Owned(current), t.store, u, id, r, AllDeletes(CleanupPhases(current), id, r)) {
      OtherGains(applied, current, t, faulty, ch, id, r);
    }
    OwnsOutHook(current);
    BuiltinsNotOwned(current);
    var hook := TcpJump(OutName(Prefix(current)));
    assert Gains(Owned(current), t.store, u, NAT_OUTPUT, hook, AllDeletes(CleanupPhases(current), NAT_OUTPUT, hook));
    Restores(current, t.store, u, env);
  }

  // ----- exactly when -----

  /** With another prefix. */
  lemma {:induction false} OtherPrefix(applied: Config, current: Config, s0: Store, faulty: Env, env: Env, bypass: BypassList)
    requires CleanStart(applied, s0) && CleanStart(current, s0) && FaultFree(env) && Prefix(applied) != Prefix(current)
    ensures RunCall(current, RunCall(applied, s0, ApplyCall(faulty, bypass)), CleanupCall(env)) == s0
       <==> Restorable(faulty, Making(applied), applied, bypass, current)
  {
    if NotMade(faulty, Making(applied)) {
      var t := NothingRecorded(applied, s0, faulty, bypass);
      if DnsNotMade(faulty, DnsAt(t.clock, applied), applied.dnsForwardPort) || Prefix(applied) == Prefix(current) + "_HOTSPOT" {
        OtherRestores(applied, current, t, faulty, env);
      } else {
        DnsStays(applied, current, t, faulty, env);
      }
    } else {
      MadeStays(applied, current, s0, faulty, env, bypass);
    }
  }

  /** With the same prefix. */
  lemma {:induction false} SamePrefix(applied: Config, current: Config, s0: Store, faulty: Env, env: Env, bypass: BypassList)
    requires CleanStart(applied, s0) && CleanStart(current, s0) && FaultFree(env) && Prefix(applied) == Prefix(current)
    ensures RunCall(current, RunCall(applied, s0, ApplyCall(faulty, bypass)), CleanupCall(env)) == s0
       <==> Restorable(faulty, Making(applied), applied, bypass, current)
  {
    if HooksFit(faulty, Making(applied), PlanOf(applied, bypass), Ifaces(current)) {
      ApplyRuns(applied, s0, faulty, bypass);
      FitRestores(applied, current, Machine(s0, Making(applied), []), faulty, env, bypass);
    } else {
      UnfitLeavesHook(applied, current, s0, faulty, env, bypass);
    }
  }

  /**
   Cleaning up with another configuration restores the original store, whatever
   failed in Apply, if and only if every hook that got in is covered by the current
   interface list and, with another prefix, no chain was made that it does not name.
   */
  lemma {:induction false} TeardownWithOtherConfig(applied: Config, current: Config, s0: Store, faulty: Env, env: Env, bypass: BypassList)
    requires CleanStart(applied, s0) && CleanStart(current, s0) && FaultFree(env)
    ensures RunCall(current, RunCall(applied, s0, ApplyCall(faulty, bypass)), CleanupCall(env)) == s0
       <==> Restorable(faulty, Making(applied), applied, bypass, current)
  {
    if Prefix(applied) == Prefix(current) {
      SamePrefix(applied, current, s0, faulty, env, bypass);
    } else {
      OtherPrefix(applied, current, s0, faulty, env, bypass);
    }
  }

  /** What a caller can read off the two configurations alone. */
  ghost predicate HooksCovered(applied: Config, current: Config) {
    applied.hotspot ==> Covered(Ifaces(applied), Ifaces(current))
  }

  /** The same prefix and covered hooks are always enough; if nothing fails in Apply, they are needed. */
  lemma {:induction false} CoveredIsRestorable(env: Env, making: nat, applied: Config, bypass: BypassList, current: Config)
    ensures Prefix(applied) == Prefix(current) && HooksCovered(applied, current) ==> Restorable(env, making, applied, bypass, current)
    ensures FaultFree(env)
        ==> (Restorable(env, making, applied, bypass, current) <==> Prefix(applied) == Prefix(current) && HooksCovered(applied, current))
  {
    var l := PlanOf(applied, bypass);
    forall i ensures KeptTimes(env, HookAt(making, l) + 1, l.ifaces, i) <= Times(l.ifaces, i) {
      KeptTimesBound(env, HookAt(making, l) + 1, l.ifaces, i);
    }
    if FaultFree(env) {
      forall i ensures KeptTimes(env, HookAt(making, l) + 1, l.ifaces, i) == Times(l.ifaces, i) {
        KeptTimesBound(env, HookAt(making, l) + 1, l.ifaces, i);
      }
    }
  }
}

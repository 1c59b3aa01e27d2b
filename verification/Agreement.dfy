/**
 The daemon's Cleanup and net_clean.sh are two programs over the same tables.
 On everything a full or partial Apply can leave they end in the same store,
 and each of them changes nothing after the other; over histories each restores
 exactly what its own number of deletions reaches.

 The script fixes the prefix SSHC and six interface patterns; the lemmas hold
 for any prefix and list it might fix.
 */
module Agreement {
  import opened Common
  import opened Netfilter
  import opened Footprints
  import opened Cleaners
  import opened Firewall
  import opened Ownership
  import opened Additions
  import opened Confinement
  import opened Undo

  /** The script, for a prefix and an interface list. */
  function Script(prefix: string, list: seq<string>): seq<Phase> {
    ScriptPhasesFor(prefix, list, LegacyNames(prefix) + [DROP6_NAME])
  }

  lemma {:induction false} ScriptIsScript()
    ensures ScriptPhases() == Script(DEFAULT_PREFIX, DEFAULT_IFACES)
  {
  }

  // ----- the shape of the script -----

  /** Phase 1 works on nat hooks, phase 2 on the FORWARD rule and IPv6 hooks, phase 3 on QUIC rules. */
  ghost predicate ScriptShape(cl: seq<Phase>, names: set<string>, names6: set<string>) {
    && |cl| == 3 && Deletions(cl) && Repeats(cl)
    && NatHooks(cl[0].deletes, V4, names)
    && (forall c :: c in cl[0].chains ==> c.family == V4 && '_' in c.name)
    && |cl[1].deletes| > 0 && cl[1].deletes[0] == ForwardDelete()[0]
    && NatHooks(cl[1].deletes[1..], V6, names6)
    && (forall c :: c in cl[1].chains ==> c.family == V6 && '_' in c.name)
    && cl[2] == Phase(QuicDeletes(), [])
  }

  lemma {:induction false} ScriptShapeOf(a: Phase, d6: Program, c6: seq<ChainId>, names: set<string>, names6: set<string>)
    requires NatHooks(a.deletes, V4, names) && NatHooks(d6, V6, names6)
    requires forall c :: c in a.chains ==> c.family == V4 && '_' in c.name
    requires forall c :: c in c6 ==> c.family == V6 && '_' in c.name
    ensures ScriptShape([a, Phase(ForwardDelete() + d6, c6), Phase(QuicDeletes(), [])], names, names6)
  {
    var cl := [a, Phase(ForwardDelete() + d6, c6), Phase(QuicDeletes(), [])];
    assert cl[1].deletes[1..] == d6;
    forall j | 0 <= j < |cl[1].deletes| ensures DeleteStep(cl[1].deletes[j]) && cl[1].deletes[j].FirstOk? {
      assert j > 0 ==> cl[1].deletes[j] == d6[j - 1];
    }
  }

  lemma {:induction false} ScriptChainsNamed(names: seq<string>)
    requires forall n :: n in names ==> '_' in n
    ensures forall c :: c in ScriptChains6(names) ==> c.family == V6 && '_' in c.name
  {
    if names != [] {
      ScriptChainsNamed(names[1..]);
    }
  }

  lemma {:induction false} ScriptHasShape(prefix: string, list: seq<string>)
    ensures ScriptShape(Script(prefix, list), NameSet(LegacyNames(prefix)), NameSet(LegacyNames(prefix) + [DROP6_NAME]))
  {
    var names6 := LegacyNames(prefix) + [DROP6_NAME];
    NatPhaseShape(prefix, list);
    ScriptDeletesAreHooks(names6, list, NameSet(names6));
    LegacyUnderscores(prefix);
    assert DROP6_NAME[4] == '_';
    ScriptChainsNamed(names6);
    ScriptShapeOf(NatPhase(prefix, list), ScriptDeletes6(names6, list), ScriptChains6(names6),
                  NameSet(LegacyNames(prefix)), NameSet(names6));
  }

  lemma {:induction false} ShapeSeparated(cl: seq<Phase>, names: set<string>, names6: set<string>)
    requires ScriptShape(cl, names, names6)
    ensures Separated(cl)
  {
    forall i, j | 0 <= i < |cl| && 0 <= j < |cl[i].deletes| ensures HookPoint(DeleteOf(cl[i].deletes[j]).0) {
      if i == 0 {
        assert NatHook(cl[0].deletes[j], V4, names);
      } else if i == 1 && j > 0 {
        assert NatHook(cl[1].deletes[1..][j - 1], V6, names6);
      }
    }
  }

  lemma {:induction false} Phase1Deletes(cl: seq<Phase>, names: set<string>, names6: set<string>, id: ChainId, r: Rule)
    requires ScriptShape(cl, names, names6)
    ensures Deletes(cl[1].deletes, id, r) > 0 ==> (id, r) == (FILTER_FORWARD, Plain(Accept)) || (id.family == V6 && r.target.Jump?)
    ensures DeletesOnly(cl[1].deletes[1..]) && DeletesOnly([cl[1].deletes[0]])
    ensures Deletes(cl[1].deletes, id, r) == Deletes(ForwardDelete(), id, r) + Deletes(cl[1].deletes[1..], id, r)
  {
    var head, tail := [cl[1].deletes[0]], cl[1].deletes[1..];
    HooksDelete(tail, V6, names6, id, r);
    DeletesOne(cl[1].deletes[0], id, r);
    DeletesConcat(head, tail, id, r);
    assert head + tail == cl[1].deletes && head == ForwardDelete();
  }

  lemma {:induction false} QuicDeletesPlain(id: ChainId, r: Rule)
    ensures DeletesOnly(QuicDeletes())
    ensures Deletes(QuicDeletes(), id, r) > 0 ==> id == FILTER_OUTPUT && !r.target.Jump?
  {
    DeletedRulesAre(QuicDeletes(), id, r);
  }

  /** A jump into a chain of a phase is deleted in that phase only. */
  lemma {:induction false} JumpInOnePhase(cl: seq<Phase>, names: set<string>, names6: set<string>, i: nat, id: ChainId, r: Rule)
    requires ScriptShape(cl, names, names6) && i < |cl| && r.target.Jump?
    requires ChainId(id.family, id.table, r.target.chain) in cl[i].chains
    ensures AllDeletes(cl, id, r) == Deletes(cl[i].deletes, id, r)
  {
    HooksDelete(cl[0].deletes, V4, names, id, r);
    Phase1Deletes(cl, names, names6, id, r);
    QuicDeletesPlain(id, r);
    ThreePhaseDeletes(cl, id, r);
  }

  lemma {:induction false} ScriptFits(fp: Footprint, cl: seq<Phase>, names: set<string>, names6: set<string>, s: Store)
    requires ScriptShape(cl, names, names6) && OwnerOf(fp, cl) && Bounded(fp, cl, s)
    ensures Fits(fp, cl, s)
  {
    forall i, id, r | 0 <= i < |cl| && (id, r) in fp.rules && r.target.Jump?
                      && ChainId(id.family, id.table, r.target.chain) in cl[i].chains
      ensures Count(s, id, r) <= Deletes(cl[i].deletes, id, r)
    {
      JumpInOnePhase(cl, names, names6, i, id, r);
    }
  }

  function ScriptOwned(prefix: string, list: seq<string>): Footprint {
    ScriptHasShape(prefix, list);
    FootprintOf(Script(prefix, list))
  }

  lemma {:induction false} ScriptOwnedFacts(prefix: string, list: seq<string>)
    ensures Deletions(Script(prefix, list))
    ensures OwnerOf(ScriptOwned(prefix, list), Script(prefix, list))
    ensures CleanerInside(ScriptOwned(prefix, list), Script(prefix, list))
    ensures forall c :: c in ScriptOwned(prefix, list).chains ==> '_' in c.name
  {
    ScriptHasShape(prefix, list);
    ShapeSeparated(Script(prefix, list), NameSet(LegacyNames(prefix)), NameSet(LegacyNames(prefix) + [DROP6_NAME]));
    FootprintOwns(Script(prefix, list));
  }

  // ----- the script owns what Cleanup owns -----

  /** How many times a nonblank pattern occurs. */
  function Times(ifaces: seq<string>, i: string): nat {
    if ifaces == [] then 0 else (if ifaces[0] == i && !Blank(i) then 1 else 0) + Times(ifaces[1..], i)
  }

  lemma {:induction false} IfaceInsertCount(ifaces: seq<string>, ch: string, id: ChainId, r: Rule)
    ensures Adds(IfaceInserts(ifaces, ch), id, r)
         == if id == NAT_PREROUTING && r.inIface.Some? && r == IfaceTcpJump(r.inIface.value, ch) then Times(ifaces, r.inIface.value) else 0
  {
    if ifaces != [] {
      IfaceInsertCount(ifaces[1..], ch, id, r);
      if !Blank(ifaces[0]) {
        var ins := Must(Insert(NAT_PREROUTING, IfaceTcpJump(ifaces[0], ch)));
        AddsOne(ins, id, r);
        AddsConcat([ins], IfaceInserts(ifaces[1..], ch), id, r);
      } else {
        assert [] + IfaceInserts(ifaces[1..], ch) == IfaceInserts(ifaces[1..], ch);
      }
    }
  }

  lemma {:induction false} IfaceDeleteCount(ifaces: seq<string>, at: ChainId, ch: string, id: ChainId, r: Rule)
    requires HookPoint(at)
    ensures DeletesOnly(IfaceDeletes(ifaces, at, ch))
    ensures Deletes(IfaceDeletes(ifaces, at, ch), id, r)
         == if id == at && r.inIface.Some? && (r == IfaceTcpJump(r.inIface.value, ch) || r == IfaceJump(r.inIface.value, ch))
            then Times(ifaces, r.inIface.value) else 0
  {
    IfaceDeletesAreHooks(ifaces, at, ch, {ch});
    if ifaces != [] {
      IfaceDeleteCount(ifaces[1..], at, ch, id, r);
      if !Blank(ifaces[0]) {
        var d1, d2 := Best(Delete(at, IfaceTcpJump(ifaces[0], ch))), Best(Delete(at, IfaceJump(ifaces[0], ch)));
        DeletesTwo(d1, d2, id, r);
        DeletesConcat([d1, d2], IfaceDeletes(ifaces[1..], at, ch), id, r);
      } else {
        assert [] + IfaceDeletes(ifaces[1..], at, ch) == IfaceDeletes(ifaces[1..], at, ch);
      }
    }
  }

  /** Every pattern occurs in `big` at least as often as in `small`. */
  ghost predicate Covered(small: seq<string>, big: seq<string>) {
    forall i :: Times(small, i) <= Times(big, i)
  }

  lemma {:induction false} HookPartGrows(ch: string, small: seq<string>, big: seq<string>, id: ChainId, r: Rule)
    requires Covered(small, big)
    ensures HookPart(ch, small, id, r) <= HookPart(ch, big, id, r)
  {
    IfaceDeleteCount(small, NAT_PREROUTING, ch, id, r);
    IfaceDeleteCount(big, NAT_PREROUTING, ch, id, r);
  }

  lemma {:induction false} HookDeletesGrow(names: seq<string>, small: seq<string>, big: seq<string>, id: ChainId, r: Rule)
    requires Covered(small, big)
    ensures DeletesOnly(HookDeletes(names, small))
    ensures DeletesOnly(HookDeletes(names, big))
    ensures Deletes(HookDeletes(names, small), id, r) <= Deletes(HookDeletes(names, big), id, r)
  {
    HookDeletesAreHooks(names, small, NameSet(names));
    HookDeletesAreHooks(names, big, NameSet(names));
    if names != [] {
      HookSum(names, small, id, r);
      HookSum(names, big, id, r);
      HookPartGrows(names[0], small, big, id, r);
      HookDeletesGrow(names[1..], small, big, id, r);
    }
  }

  lemma {:induction false} ScriptHas6(names: seq<string>, list: seq<string>, n: string)
    requires n in names
    ensures DeletesOnly(ScriptDeletes6(names, list))
    ensures Deletes(ScriptDeletes6(names, list), OUTPUT6, AnyJump(n)) >= 1
    ensures Deletes(ScriptDeletes6(names, list), FORWARD6, AnyJump(n)) >= 1
  {
    ScriptDeletesAreHooks(names, list, NameSet(names));
    ScriptDeletesAreHooks(names[1..], list, NameSet(names));
    var fixed, per := ScriptFixedDeletes6(names[0]), IfaceDeletes(list, ChainId(V6, Nat, "PREROUTING"), names[0]);
    IfaceDeletesAreHooks(list, ChainId(V6, Nat, "PREROUTING"), names[0], {names[0]});
    forall id | id == OUTPUT6 || id == FORWARD6
      ensures Deletes(ScriptDeletes6(names, list), id, AnyJump(n)) >= 1
    {
      DeletesConcat(fixed, per, id, AnyJump(n));
      DeletesConcat(fixed + per, ScriptDeletes6(names[1..], list), id, AnyJump(n));
      if names[0] == n {
        DeletedRulesAre(fixed, id, AnyJump(n));
        assert DeleteOf(fixed[0]) == (OUTPUT6, AnyJump(n)) && DeleteOf(fixed[1]) == (FORWARD6, AnyJump(n));
      } else {
        ScriptHas6(names[1..], list, n);
      }
    }
  }

  /** The script deletes each owned rule at least as often as Cleanup does. */
  lemma {:induction false} ScriptDeletesMore(cfg: Config, list: seq<string>, id: ChainId, r: Rule)
    requires Covered(Ifaces(cfg), list)
    ensures Deletions(CleanupPhases(cfg)) && Deletions(Script(Prefix(cfg), list))
    ensures AllDeletes(CleanupPhases(cfg), id, r) <= AllDeletes(Script(Prefix(cfg), list), id, r)
  {
    CleanupShape(cfg);
    ScriptHasShape(Prefix(cfg), list);
    HookDeletesGrow(LegacyNames(Prefix(cfg)), Ifaces(cfg), list, id, r);
    ThreePhaseDeletes(Script(Prefix(cfg), list), id, r);
    ScriptParts(Prefix(cfg), list, id, r);
    CleanupParts(cfg, id, r);
  }

  lemma {:induction false} CleanupParts(cfg: Config, id: ChainId, r: Rule)
    requires Deletions(CleanupPhases(cfg)) && DeletesOnly(HookDeletes(LegacyNames(Prefix(cfg)), Ifaces(cfg)))
    ensures DeletesOnly(ForwardDelete()) && DeletesOnly(QuicDeletes())
    ensures AllDeletes(CleanupPhases(cfg), id, r)
         <= Deletes(HookDeletes(LegacyNames(Prefix(cfg)), Ifaces(cfg)), id, r) + Deletes(ForwardDelete(), id, r) + Deletes(QuicDeletes(), id, r)
            + if (id == OUTPUT6 || id == FORWARD6) && r == AnyJump(DROP6_NAME) then 1 else 0
  {
    ThreePhaseDeletes(CleanupPhases(cfg), id, r);
    DeletesConcat(ForwardDelete(), QuicDeletes(), id, r);
    IPv6Part(id, r);
  }

  lemma {:induction false} IPv6Part(id: ChainId, r: Rule)
    ensures DeletesOnly(EnableIPv6Phase().deletes)
    ensures Deletes(EnableIPv6Phase().deletes, id, r) <= if (id == OUTPUT6 || id == FORWARD6) && r == AnyJump(DROP6_NAME) then 1 else 0
  {
    DeletesTwo(EnableIPv6Phase().deletes[0], EnableIPv6Phase().deletes[1], id, r);
  }

  lemma {:induction false} ScriptParts(prefix: string, list: seq<string>, id: ChainId, r: Rule)
    ensures Deletions(Script(prefix, list)) && |Script(prefix, list)| == 3
    ensures Script(prefix, list)[0].deletes == HookDeletes(LegacyNames(prefix), list)
    ensures Deletes(Script(prefix, list)[1].deletes, id, r)
         >= Deletes(ForwardDelete(), id, r) + (if (id == OUTPUT6 || id == FORWARD6) && r == AnyJump(DROP6_NAME) then 1 else 0)
    ensures Script(prefix, list)[2].deletes == QuicDeletes()
  {
    var names6 := LegacyNames(prefix) + [DROP6_NAME];
    ScriptHasShape(prefix, list);
    Phase1Deletes(Script(prefix, list), NameSet(LegacyNames(prefix)), NameSet(names6), id, r);
    assert Script(prefix, list)[1].deletes[1..] == ScriptDeletes6(names6, list);
    assert names6[6] == DROP6_NAME;
    ScriptHas6(names6, list, DROP6_NAME);
  }

  lemma {:induction false} ScriptChainsHave(names: seq<string>, n: string)
    requires n in names
    ensures ChainId(V6, Filter, n) in ScriptChains6(names)
  {
    if names[0] != n {
      ScriptChainsHave(names[1..], n);
    }
  }

  lemma {:induction false} ScriptOwnsChain(cfg: Config, list: seq<string>, c: ChainId)
    requires c in Owned(cfg).chains
    ensures c in ScriptOwned(Prefix(cfg), list).chains
  {
    OwnedChains(cfg, c);
    ScriptChainsAre(Prefix(cfg), list);
    ChainSetIs(Script(Prefix(cfg), list), c);
    if c == DROP6 {
      assert c in Script(Prefix(cfg), list)[1].chains;
    } else {
      assert c in Script(Prefix(cfg), list)[0].chains;
    }
  }

  lemma {:induction false} ScriptOwnsMore(cfg: Config, list: seq<string>)
    requires Covered(Ifaces(cfg), list)
    ensures Owned(cfg).chains <= ScriptOwned(Prefix(cfg), list).chains
    ensures Owned(cfg).rules <= ScriptOwned(Prefix(cfg), list).rules
  {
    OwnedFacts(cfg);
    ScriptOwnedFacts(Prefix(cfg), list);
    forall c | c in Owned(cfg).chains ensures c in ScriptOwned(Prefix(cfg), list).chains {
      ScriptOwnsChain(cfg, list, c);
    }
    OwnsMoreRules(cfg, list, Owned(cfg), ScriptOwned(Prefix(cfg), list));
  }

  lemma {:induction false} OwnsMoreRules(cfg: Config, list: seq<string>, fp: Footprint, big: Footprint)
    requires Covered(Ifaces(cfg), list)
    requires Deletions(CleanupPhases(cfg)) && OwnerOf(fp, CleanupPhases(cfg))
    requires Deletions(Script(Prefix(cfg), list)) && OwnerOf(big, Script(Prefix(cfg), list))
    ensures fp.rules <= big.rules
  {
    forall p | p in fp.rules ensures p in big.rules {
      ScriptDeletesMore(cfg, list, p.0, p.1);
      assert (p.0, p.1) == p;
    }
  }

  lemma {:induction false} ScriptChainsAre(prefix: string, list: seq<string>)
    ensures |Script(prefix, list)| == 3
    ensures Script(prefix, list)[0].chains == ChainsOf(V4, Nat, LegacyNames(prefix))
    ensures DROP6 in Script(prefix, list)[1].chains
  {
    var names6 := LegacyNames(prefix) + [DROP6_NAME];
    assert names6[6] == DROP6_NAME;
    ScriptChainsHave(names6, DROP6_NAME);
  }

  // ----- both clean up whatever one Apply left -----

  /** A bigger footprint holds the same commands, if their appended rules never jump. */
  ghost predicate Jumpless(fp: Footprint, c: Command) {
    (c.Append? || c.Insert?) && c.id in fp.chains ==> !c.rule.target.Jump?
  }

  lemma {:induction false} WithinBigger(small: Footprint, big: Footprint, c: Command)
    requires small.chains <= big.chains && small.rules <= big.rules
    requires forall id, r :: (id, r) in big.rules ==> id !in big.chains
    requires Within(small, c) && Jumpless(small, c)
    ensures Within(big, c)
  {
  }

  lemma {:induction false} AppendsJumpless(fp: Footprint, id: ChainId, rules: seq<Rule>)
    requires forall r :: r in rules ==> !r.target.Jump?
    ensures ProgramAll(c => Jumpless(fp, c), Appends(id, rules))
  {
    if rules != [] {
      AppendsJumpless(fp, id, rules[1..]);
      var head := [Must(Append(id, rules[0]))];
      assert ProgramAll(c => Jumpless(fp, c), head);
      ProgramAllConcat(c => Jumpless(fp, c), head, Appends(id, rules[1..]));
    }
  }

  lemma {:induction false} IfaceInsertsJumpless(fp: Footprint, ifaces: seq<string>, ch: string)
    requires NAT_PREROUTING !in fp.chains
    ensures ProgramAll(c => Jumpless(fp, c), IfaceInserts(ifaces, ch))
  {
    if ifaces != [] {
      IfaceInsertsJumpless(fp, ifaces[1..], ch);
    }
  }

  lemma {:induction false} DeletesJumpless(fp: Footprint, p: Program)
    requires DeletesOnly(p)
    ensures ProgramAll(c => Jumpless(fp, c), p)
  {
    forall i | 0 <= i < |p| ensures StepAll(c => Jumpless(fp, c), p[i]) {
      assert DeleteStep(p[i]);
    }
  }

  lemma {:induction false} RemovalsJumpless(fp: Footprint, chains: seq<ChainId>)
    ensures ProgramAll(c => Jumpless(fp, c), Removals(chains))
  {
    if chains != [] {
      RemovalsJumpless(fp, chains[1..]);
      var two := [Best(Flush(chains[0])), Best(DeleteChain(chains[0]))];
      assert ProgramAll(c => Jumpless(fp, c), two);
      ProgramAllConcat(c => Jumpless(fp, c), two, Removals(chains[1..]));
    }
  }

  lemma {:induction false} CleanerJumpless(fp: Footprint, cl: seq<Phase>)
    requires Deletions(cl)
    ensures ProgramAll(c => Jumpless(fp, c), CleanerProgram(cl))
    decreases cl
  {
    if cl != [] {
      DeletesJumpless(fp, cl[0].deletes);
      RemovalsJumpless(fp, cl[0].chains);
      CleanerJumpless(fp, cl[1..]);
      ProgramAllConcat(c => Jumpless(fp, c), cl[0].deletes, Removals(cl[0].chains));
      ProgramAllConcat(c => Jumpless(fp, c), PhaseProgram(cl[0]), CleanerProgram(cl[1..]));
    }
  }

  lemma {:induction false} ChainsJumplessFor(fp: Footprint, make: Program, out: ChainId, pre: ChainId, a: seq<Rule>, b: seq<Rule>)
    requires make == [Must(New(out)), Must(Flush(out)), Must(New(pre)), Must(Flush(pre))]
    requires forall r :: r in a || r in b ==> !r.target.Jump?
    ensures ProgramAll(c => Jumpless(fp, c), make + Appends(out, a) + Appends(pre, b))
  {
    AppendsJumpless(fp, out, a);
    AppendsJumpless(fp, pre, b);
    assert ProgramAll(c => Jumpless(fp, c), make);
    ProgramAllConcat(c => Jumpless(fp, c), make, Appends(out, a));
    ProgramAllConcat(c => Jumpless(fp, c), make + Appends(out, a), Appends(pre, b));
  }

  lemma {:induction false} ChainsJumpless(fp: Footprint, cfg: Config, bypass: BypassList)
    ensures ProgramAll(c => Jumpless(fp, c), ChainsProgram(cfg, bypass))
  {
    ChainRulesPlain(cfg, bypass, true);
    ChainRulesPlain(cfg, bypass, false);
    ChainsJumplessFor(fp, MakeChains(Prefix(cfg)), NatChain(OutName(Prefix(cfg))), NatChain(PreName(Prefix(cfg))),
                      ChainRules(cfg, bypass, true), ChainRules(cfg, bypass, false));
  }

  lemma {:induction false} BestEffortJumpless(fp: Footprint, cfg: Config)
    requires forall id :: id in BUILTINS ==> id !in fp.chains
    ensures ProgramAll(c => Jumpless(fp, c), BestEffortProgram(cfg))
  {
    var f, d := ForwardAccept(cfg), DnsProgram(Prefix(cfg), cfg.dnsForwardPort);
    assert ProgramAll(c => Jumpless(fp, c), f);
    DnsJumpless(fp, Prefix(cfg), cfg.dnsForwardPort);
    assert ProgramAll(c => Jumpless(fp, c), QuicProgram());
    assert ProgramAll(c => Jumpless(fp, c), IPv6Program());
    ProgramAllConcat(c => Jumpless(fp, c), f, d);
    ProgramAllConcat(c => Jumpless(fp, c), f + d, QuicProgram());
    ProgramAllConcat(c => Jumpless(fp, c), f + d + QuicProgram(), IPv6Program());
  }

  lemma {:induction false} DnsJumpless(fp: Footprint, prefix: string, port: int)
    requires NAT_OUTPUT !in fp.chains
    ensures ProgramAll(c => Jumpless(fp, c), DnsProgram(prefix, port))
  {
  }

  lemma {:induction false} HooksJumpless(fp: Footprint, cfg: Config)
    requires NAT_OUTPUT !in fp.chains && NAT_PREROUTING !in fp.chains
    ensures ProgramAll(c => Jumpless(fp, c), HooksProgram(cfg))
  {
    IfaceInsertsJumpless(fp, Ifaces(cfg), PreName(Prefix(cfg)));
  }

  lemma {:induction false} ApplyJumpless(cfg: Config, bypass: BypassList)
    ensures ProgramAll(c => Jumpless(Owned(cfg), c), ApplyProgram(cfg, bypass))
  {
    var fp := Owned(cfg);
    OwnedFacts(cfg);
    CleanupShape(cfg);
    BuiltinsNotOwned(cfg);
    CleanerJumpless(fp, RulesPhases(cfg));
    ChainsJumpless(fp, cfg, bypass);
    HooksJumpless(fp, cfg);
    BestEffortJumpless(fp, cfg);
    ProgramAllConcat(c => Jumpless(fp, c), ChainsProgram(cfg, bypass), HooksProgram(cfg));
    ProgramAllConcat(c => Jumpless(fp, c), CleanerProgram(RulesPhases(cfg)), RedirectProgram(cfg, bypass));
    ProgramAllConcat(c => Jumpless(fp, c), CleanerProgram(RulesPhases(cfg)) + RedirectProgram(cfg, bypass), BestEffortProgram(cfg));
  }

  lemma {:induction false} BuiltinsNotOwned(cfg: Config)
    ensures forall id :: id in BUILTINS ==> id !in Owned(cfg).chains
  {
    OwnedFacts(cfg);
    BuiltinsPlain();
  }

  lemma {:induction false} ProgramWithinBigger(small: Footprint, big: Footprint, p: Program)
    requires small.chains <= big.chains && small.rules <= big.rules
    requires forall id, r :: (id, r) in big.rules ==> id !in big.chains
    requires ProgramAll(c => Within(small, c), p) && ProgramAll(c => Jumpless(small, c), p)
    ensures ProgramAll(c => Within(big, c), p)
  {
    forall i | 0 <= i < |p| ensures StepAll(c => Within(big, c), p[i]) {
      assert StepAll(c => Within(small, c), p[i]) && StepAll(c => Jumpless(small, c), p[i]);
      match p[i] {
        case Must(c) => WithinBigger(small, big, c);
        case FirstOk(cs) =>
          forall j | 0 <= j < |cs| ensures Within(big, cs[j]) {
            WithinBigger(small, big, cs[j]);
          }
        case WhileOk(c, _) => WithinBigger(small, big, c);
      }
    }
  }

  /** Nothing the script deletes is there either. */
  ghost predicate ScriptStart(cfg: Config, list: seq<string>, s: Store) {
    CleanStart(cfg, s) && Clean(ScriptOwned(Prefix(cfg), list), s)
  }

  /** Such a start exists for every configuration: the built-in chains, all empty. */
  lemma {:induction false} ScriptStartMet(cfg: Config, list: seq<string>)
    ensures CleanStart(cfg, EmptyTables()) && ScriptStart(cfg, list, EmptyTables())
  {
    OwnedFacts(cfg);
    ScriptOwnedFacts(Prefix(cfg), list);
    EmptyIsClean(Owned(cfg), EmptyTables());
    EmptyIsClean(ScriptOwned(Prefix(cfg), list), EmptyTables());
  }

  lemma {:induction false} ScriptUndoes(fp: Footprint, cl: seq<Phase>, names: set<string>, names6: set<string>, env: Env, s: Store)
    requires FaultFree(env) && ScriptShape(cl, names, names6) && OwnerOf(fp, cl) && CleanerInside(fp, cl)
    requires Shape(fp, s)
    ensures Run(env, Begin(s), CleanerProgram(cl)).store == Foreign(fp, s) <==> Bounded(fp, cl, s)
  {
    if Bounded(fp, cl, s) {
      ScriptFits(fp, cl, names, names6, s);
    }
    CleanerExact(env, fp, Begin(s), cl);
  }

  // ----- over histories -----

  lemma {:induction false} ApplyInScript(cfg: Config, list: seq<string>, bypass: BypassList)
    requires Covered(Ifaces(cfg), list)
    ensures ProgramAll(c => Within(ScriptOwned(Prefix(cfg), list), c), ApplyProgram(cfg, bypass))
  {
    ScriptOwnedFacts(Prefix(cfg), list);
    ScriptOwnsMore(cfg, list);
    ApplyWithin(cfg, bypass);
    ApplyJumpless(cfg, bypass);
    ProgramWithinBigger(Owned(cfg), ScriptOwned(Prefix(cfg), list), ApplyProgram(cfg, bypass));
  }

  lemma {:induction false} CleanupInScript(cfg: Config, list: seq<string>)
    requires Covered(Ifaces(cfg), list)
    ensures ProgramAll(c => Within(ScriptOwned(Prefix(cfg), list), c), CleanupProgram(cfg))
  {
    ScriptOwnedFacts(Prefix(cfg), list);
    ScriptOwnsMore(cfg, list);
    CleanupShape(cfg);
    CleanupWithin(cfg);
    CleanerJumpless(Owned(cfg), CleanupPhases(cfg));
    ProgramWithinBigger(Owned(cfg), ScriptOwned(Prefix(cfg), list), CleanupProgram(cfg));
  }

  /** No history touches what is foreign to the script. */
  lemma {:induction false} HistoryInScript(cfg: Config, list: seq<string>, s: Store, calls: seq<Call>)
    requires Covered(Ifaces(cfg), list) && Shape(ScriptOwned(Prefix(cfg), list), s)
    ensures Shape(ScriptOwned(Prefix(cfg), list), RunCalls(cfg, s, calls))
    ensures Foreign(ScriptOwned(Prefix(cfg), list), RunCalls(cfg, s, calls)) == Foreign(ScriptOwned(Prefix(cfg), list), s)
    decreases calls
  {
    var big := ScriptOwned(Prefix(cfg), list);
    if calls != [] {
      match calls[0] {
        case ApplyCall(env, bypass) =>
          ApplyInScript(cfg, list, bypass);
          RunKeepsForeign(env, big, Begin(s), ApplyProgram(cfg, bypass));
        case CleanupCall(env) =>
          CleanupInScript(cfg, list);
          RunKeepsForeign(env, big, Begin(s), CleanupProgram(cfg));
      }
      HistoryInScript(cfg, list, RunCall(cfg, s, calls[0]), calls[1..]);
    }
  }

  /** A rule that Cleanup does not own and that was not there never appears. */
  lemma {:induction false} NeverAppears(fp: Footprint, s0: Store, s: Store, id: ChainId, r: Rule)
    requires Foreign(fp, s) == s0 && id !in fp.chains && (id, r) !in fp.rules && (id in s0 ==> r !in s0[id])
    ensures Count(s, id, r) == 0
  {
    if id in s {
      assert id in Foreign(fp, s);
      KeepMembers(fp, id, s[id], r);
    }
  }

  /** What Cleanup can dig out, the script can. */
  lemma {:induction false} BoundedInScript(cfg: Config, list: seq<string>, s0: Store, s: Store)
    requires Covered(Ifaces(cfg), list) && ScriptStart(cfg, list, s0) && Foreign(Owned(cfg), s) == s0
    requires Deletions(CleanupPhases(cfg)) && Bounded(Owned(cfg), CleanupPhases(cfg), s)
    ensures Deletions(Script(Prefix(cfg), list)) && Bounded(ScriptOwned(Prefix(cfg), list), Script(Prefix(cfg), list), s)
  {
    var fp, big, cl := Owned(cfg), ScriptOwned(Prefix(cfg), list), Script(Prefix(cfg), list);
    ScriptOwnedFacts(Prefix(cfg), list);
    ScriptOwnsMore(cfg, list);
    forall id, r | (id, r) in big.rules ensures Count(s, id, r) <= AllDeletes(cl, id, r) {
      if (id, r) in fp.rules {
        ScriptDeletesMore(cfg, list, id, r);
      } else {
        NeverAppears(fp, s0, s, id, r);
      }
    }
  }

  /**
   After any history of Apply and Cleanup calls, however many commands failed, the
   script restores the original store if and only if no hook is stacked deeper
   than the script digs; and it does so whenever Cleanup does.
   */
  lemma {:induction false} ScriptRestoresExactly(cfg: Config, list: seq<string>, s0: Store, calls: seq<Call>, env: Env)
    requires Covered(Ifaces(cfg), list) && ScriptStart(cfg, list, s0) && FaultFree(env)
    ensures Deletions(Script(Prefix(cfg), list))
    ensures Run(env, Begin(RunCalls(cfg, s0, calls)), CleanerProgram(Script(Prefix(cfg), list))).store == s0
       <==> Bounded(ScriptOwned(Prefix(cfg), list), Script(Prefix(cfg), list), RunCalls(cfg, s0, calls))
    ensures RunCall(cfg, RunCalls(cfg, s0, calls), CleanupCall(env)) == s0
        ==> Run(env, Begin(RunCalls(cfg, s0, calls)), CleanerProgram(Script(Prefix(cfg), list))).store == s0
  {
    var s := RunCalls(cfg, s0, calls);
    ScriptOwnedFacts(Prefix(cfg), list);
    ScriptHasShape(Prefix(cfg), list);
    CleanIsForeign(ScriptOwned(Prefix(cfg), list), s0);
    HistoryInScript(cfg, list, s0, calls);
    ScriptUndoes(ScriptOwned(Prefix(cfg), list), Script(Prefix(cfg), list), NameSet(LegacyNames(Prefix(cfg))),
                 NameSet(LegacyNames(Prefix(cfg)) + [DROP6_NAME]), env, s);
    if RunCall(cfg, s, CleanupCall(env)) == s0 {
      CleanupRestoresExactly(cfg, s0, calls, env);
      CleanIsForeign(Owned(cfg), s0);
      ForeignRulesSurvive(cfg, s0, calls);
      BoundedInScript(cfg, list, s0, s);
    }
  }

  /**
   After any run of Apply, whatever failed in it, the script and Cleanup both
   restore the original store.
   */
  lemma {:induction false} CleanupsAgree(cfg: Config, list: seq<string>, s0: Store, faulty: Env, bypass: BypassList, env: Env)
    requires Covered(Ifaces(cfg), list) && ScriptStart(cfg, list, s0) && FaultFree(env)
    ensures var s := RunCall(cfg, s0, ApplyCall(faulty, bypass));
      Run(env, Begin(s), CleanerProgram(Script(Prefix(cfg), list))).store == s0 == RunCall(cfg, s, CleanupCall(env))
  {
    UndoPartialApply(cfg, s0, faulty, bypass, env);
    OneCall(cfg, s0, ApplyCall(faulty, bypass));
    ScriptRestoresExactly(cfg, list, s0, [ApplyCall(faulty, bypass)], env);
  }

  /** Either cleanup, run where the other has been, changes nothing. */
  lemma {:induction false} CleanupsIdle(cfg: Config, list: seq<string>, s0: Store, env: Env)
    requires ScriptStart(cfg, list, s0) && FaultFree(env)
    ensures Run(env, Begin(s0), CleanerProgram(Script(Prefix(cfg), list))).store == s0
    ensures RunCall(cfg, s0, CleanupCall(env)) == s0
  {
    var big, cl := ScriptOwned(Prefix(cfg), list), Script(Prefix(cfg), list);
    ScriptOwnedFacts(Prefix(cfg), list);
    ScriptHasShape(Prefix(cfg), list);
    CleanIsForeign(big, s0);
    forall id, r | (id, r) in big.rules ensures Count(s0, id, r) <= AllDeletes(cl, id, r) {
      CleanCounts(big, s0, id, r);
    }
    ScriptUndoes(big, cl, NameSet(LegacyNames(Prefix(cfg))), NameSet(LegacyNames(Prefix(cfg)) + [DROP6_NAME]), env, s0);
    CleanupIdle(cfg, s0, env);
  }

  lemma {:induction false} CleanupIdle(cfg: Config, s0: Store, env: Env)
    requires CleanStart(cfg, s0) && FaultFree(env)
    ensures RunCall(cfg, s0, CleanupCall(env)) == s0
  {
    OwnedFacts(cfg);
    assert RunCalls(cfg, s0, []) == s0;
    forall id, r | (id, r) in Owned(cfg).rules ensures Count(s0, id, r) <= AllDeletes(CleanupPhases(cfg), id, r) {
      CleanCounts(Owned(cfg), s0, id, r);
    }
    CleanupRestoresExactly(cfg, s0, [], env);
  }

  /** A list without repetition, drawn from another, is covered by it. */
  lemma {:induction false} DrawnIsCovered(small: seq<string>, big: seq<string>)
    requires forall i, j :: 0 <= i < j < |small| ==> small[i] != small[j]
    requires forall i :: i in small ==> i in big
    ensures Covered(small, big)
  {
    forall i ensures Times(small, i) <= Times(big, i) {
      OnceAtMost(small, i);
      OnceAtLeast(big, i);
    }
  }

  lemma {:induction false} OnceAtMost(list: seq<string>, i: string)
    requires forall a, b :: 0 <= a < b < |list| ==> list[a] != list[b]
    ensures Times(list, i) <= 1
    ensures i !in list || Blank(i) ==> Times(list, i) == 0
  {
    if list != [] {
      OnceAtMost(list[1..], i);
    }
  }

  lemma {:induction false} OnceAtLeast(list: seq<string>, i: string)
    ensures i in list && !Blank(i) ==> Times(list, i) >= 1
  {
    if list != [] {
      OnceAtLeast(list[1..], i);
    }
  }

  /** The same for the script as shipped: prefix SSHC and interfaces drawn without repetition from its six. */
  lemma {:induction false} NetCleanAgrees(cfg: Config, s0: Store, faulty: Env, bypass: BypassList, env: Env)
    requires Prefix(cfg) == DEFAULT_PREFIX
    requires forall i, j :: 0 <= i < j < |Ifaces(cfg)| ==> Ifaces(cfg)[i] != Ifaces(cfg)[j]
    requires forall i :: i in Ifaces(cfg) ==> i in DEFAULT_IFACES
    requires ScriptStart(cfg, DEFAULT_IFACES, s0) && FaultFree(env)
    ensures var s := RunCall(cfg, s0, ApplyCall(faulty, bypass));
      Run(env, Begin(s), CleanerProgram(ScriptPhases())).store == s0 == RunCall(cfg, s, CleanupCall(env))
    ensures Run(env, Begin(s0), CleanerProgram(ScriptPhases())).store == s0
  {
    ScriptIsScript();
    DrawnIsCovered(Ifaces(cfg), DEFAULT_IFACES);
    CleanupsAgree(cfg, DEFAULT_IFACES, s0, faulty, bypass, env);
    CleanupsIdle(cfg, DEFAULT_IFACES, s0, env);
  }
}

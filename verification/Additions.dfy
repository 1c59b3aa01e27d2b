/**
 How many copies of each hook Apply can add, against the deletions that Cleanup
 has for it.
 */
module Additions {
  import opened Common
  import opened Netfilter
  import opened Footprints
  import opened Cleaners
  import opened Firewall
  import opened Ownership

  // ----- counting over short programs -----

  lemma {:induction false} AddsOne(a: Step, id: ChainId, r: Rule)
    ensures Adds([a], id, r) == StepAdds(a, id, r)
  {
    assert [a][1..] == [];
    assert Adds([a][1..], id, r) == 0;
  }

  lemma {:induction false} AddsTwo(a: Step, b: Step, id: ChainId, r: Rule)
    ensures Adds([a, b], id, r) == StepAdds(a, id, r) + StepAdds(b, id, r)
  {
    AddsOne(a, id, r);
    AddsOne(b, id, r);
    AddsConcat([a], [b], id, r);
    assert [a] + [b] == [a, b];
  }

  lemma {:induction false} AddsFour(p: Program, id: ChainId, r: Rule)
    requires |p| == 4
    ensures Adds(p, id, r) == StepAdds(p[0], id, r) + StepAdds(p[1], id, r) + StepAdds(p[2], id, r) + StepAdds(p[3], id, r)
  {
    AddsTwo(p[0], p[1], id, r);
    AddsTwo(p[2], p[3], id, r);
    AddsConcat([p[0], p[1]], [p[2], p[3]], id, r);
    assert [p[0], p[1]] + [p[2], p[3]] == p;
  }

  lemma {:induction false} CommandsAddTwo(a: Command, b: Command, id: ChainId, r: Rule)
    ensures CommandsAdd([a, b], id, r) == CommandAdds(a, id, r) + CommandAdds(b, id, r)
  {
    BestAdds(b, id, r);
    assert [a, b][1..] == [b];
  }

  lemma {:induction false} BestAdds(c: Command, id: ChainId, r: Rule)
    ensures StepAdds(Best(c), id, r) == CommandAdds(c, id, r) == CommandsAdd([c], id, r)
  {
    assert [c][1..] == [];
    assert CommandsAdd([c][1..], id, r) == 0;
  }

  lemma {:induction false} DeletesOne(a: Step, id: ChainId, r: Rule)
    requires DeleteStep(a)
    ensures DeletesOnly([a]) && Deletes([a], id, r) == StepDeletes(a, id, r)
  {
    assert [a][1..] == [];
    assert Deletes([a][1..], id, r) == 0;
  }

  lemma {:induction false} DeletesTwo(a: Step, b: Step, id: ChainId, r: Rule)
    requires DeleteStep(a) && DeleteStep(b)
    ensures DeletesOnly([a, b])
    ensures Deletes([a, b], id, r) == StepDeletes(a, id, r) + StepDeletes(b, id, r)
  {
    DeletesOne(a, id, r);
    DeletesOne(b, id, r);
    DeletesConcat([a], [b], id, r);
    assert [a] + [b] == [a, b];
  }

  // ----- what Apply adds -----

  /** How many deletions of (id, r) the hook phase has for one chain name. */
  function HookPart(ch: string, ifaces: seq<string>, id: ChainId, r: Rule): nat {
    IfaceDeletesAreHooks(ifaces, NAT_PREROUTING, ch, {ch});
    Deletes(FixedDeletes(ch), id, r) + Deletes(IfaceDeletes(ifaces, NAT_PREROUTING, ch), id, r)
  }

  lemma {:induction false} HookSum(names: seq<string>, ifaces: seq<string>, id: ChainId, r: Rule)
    requires names != []
    ensures DeletesOnly(HookDeletes(names, ifaces))
    ensures DeletesOnly(HookDeletes(names[1..], ifaces))
    ensures Deletes(HookDeletes(names, ifaces), id, r)
         == HookPart(names[0], ifaces, id, r) + Deletes(HookDeletes(names[1..], ifaces), id, r)
  {
    HookDeletesAreHooks(names, ifaces, NameSet(names));
    HookDeletesAreHooks(names[1..], ifaces, NameSet(names));
    IfaceDeletesAreHooks(ifaces, NAT_PREROUTING, names[0], {names[0]});
    var fixed, per := FixedDeletes(names[0]), IfaceDeletes(ifaces, NAT_PREROUTING, names[0]);
    DeletesConcat(fixed, per, id, r);
    DeletesConcat(fixed + per, HookDeletes(names[1..], ifaces), id, r);
  }

  lemma {:induction false} SixHooks(prefix: string, ifaces: seq<string>, id: ChainId, r: Rule)
    ensures DeletesOnly(HookDeletes(LegacyNames(prefix), ifaces))
    ensures Deletes(HookDeletes(LegacyNames(prefix), ifaces), id, r)
         >= HookPart(OutName(prefix), ifaces, id, r) + HookPart(PreName(prefix), ifaces, id, r)
            + HookPart(DnsName(prefix), ifaces, id, r)
  {
    var n := LegacyNames(prefix);
    HookSum(n, ifaces, id, r);
    HookSum(n[1..], ifaces, id, r);
    HookSum(n[2..], ifaces, id, r);
    HookSum(n[3..], ifaces, id, r);
    assert n[1..][1..] == n[2..] && n[2..][1..] == n[3..];
  }

  lemma {:induction false} IfaceAdds(ifaces: seq<string>, ch: string, id: ChainId, r: Rule)
    ensures DeletesOnly(IfaceDeletes(ifaces, NAT_PREROUTING, ch))
    ensures Adds(IfaceInserts(ifaces, ch), id, r) <= Deletes(IfaceDeletes(ifaces, NAT_PREROUTING, ch), id, r)
  {
    IfaceDeletesAreHooks(ifaces, NAT_PREROUTING, ch, {ch});
    if ifaces != [] {
      IfaceAdds(ifaces[1..], ch, id, r);
      if !Blank(ifaces[0]) {
        var ins := Must(Insert(NAT_PREROUTING, IfaceTcpJump(ifaces[0], ch)));
        var d1 := Best(Delete(NAT_PREROUTING, IfaceTcpJump(ifaces[0], ch)));
        var d2 := Best(Delete(NAT_PREROUTING, IfaceJump(ifaces[0], ch)));
        AddsOne(ins, id, r);
        AddsConcat([ins], IfaceInserts(ifaces[1..], ch), id, r);
        DeletesTwo(d1, d2, id, r);
        DeletesConcat([d1, d2], IfaceDeletes(ifaces[1..], NAT_PREROUTING, ch), id, r);
      } else {
        assert [] + IfaceInserts(ifaces[1..], ch) == IfaceInserts(ifaces[1..], ch);
        assert [] + IfaceDeletes(ifaces[1..], NAT_PREROUTING, ch) == IfaceDeletes(ifaces[1..], NAT_PREROUTING, ch);
      }
    }
  }

  lemma {:induction false} AppendsAdd(at: ChainId, rules: seq<Rule>, id: ChainId, r: Rule)
    requires id != at
    ensures Adds(Appends(at, rules), id, r) == 0
  {
    if rules != [] {
      AppendsAdd(at, rules[1..], id, r);
    }
  }

  lemma {:induction false} CleanerAddsNothing(cl: seq<Phase>, id: ChainId, r: Rule)
    requires Deletions(cl)
    ensures Adds(CleanerProgram(cl), id, r) == 0
  {
    if cl != [] {
      CleanerAddsNothing(cl[1..], id, r);
      DeletesAddNothing(cl[0].deletes, id, r);
      RemovalsAddNothing(cl[0].chains, id, r);
      AddsConcat(cl[0].deletes, Removals(cl[0].chains), id, r);
      AddsConcat(PhaseProgram(cl[0]), CleanerProgram(cl[1..]), id, r);
    }
  }

  lemma {:induction false} DeletesAddNothing(p: Program, id: ChainId, r: Rule)
    requires DeletesOnly(p)
    ensures Adds(p, id, r) == 0
  {
    if p != [] {
      assert DeleteStep(p[0]);
      DeletesAddNothing(p[1..], id, r);
      if p[0].FirstOk? {
        BestAdds(p[0].cmds[0], id, r);
        assert p[0] == Best(p[0].cmds[0]);
      }
    }
  }

  lemma {:induction false} RemovalsAddNothing(chains: seq<ChainId>, id: ChainId, r: Rule)
    ensures Adds(Removals(chains), id, r) == 0
  {
    if chains != [] {
      var f, x := Flush(chains[0]), DeleteChain(chains[0]);
      RemovalsAddNothing(chains[1..], id, r);
      BestAdds(f, id, r);
      BestAdds(x, id, r);
      AddsTwo(Best(f), Best(x), id, r);
      AddsConcat([Best(f), Best(x)], Removals(chains[1..]), id, r);
    }
  }

  lemma {:induction false} RedirectAdds(cfg: Config, bypass: BypassList, id: ChainId, r: Rule)
    requires id != NatChain(OutName(Prefix(cfg))) && id != NatChain(PreName(Prefix(cfg)))
    ensures Adds(RedirectProgram(cfg, bypass), id, r)
         <= HookPart(OutName(Prefix(cfg)), Ifaces(cfg), id, r) + HookPart(PreName(Prefix(cfg)), Ifaces(cfg), id, r)
  {
    var out, pre := OutName(Prefix(cfg)), PreName(Prefix(cfg));
    var make := MakeChains(Prefix(cfg));
    var a := Appends(NatChain(out), ChainRules(cfg, bypass, true));
    var b := Appends(NatChain(pre), ChainRules(cfg, bypass, false));
    AppendsAdd(NatChain(out), ChainRules(cfg, bypass, true), id, r);
    AppendsAdd(NatChain(pre), ChainRules(cfg, bypass, false), id, r);
    MakeAdds(Prefix(cfg), id, r);
    AddsConcat(make, a, id, r);
    AddsConcat(make + a, b, id, r);
    HooksAdds(cfg, id, r);
    AddsConcat(ChainsProgram(cfg, bypass), HooksProgram(cfg), id, r);
  }

  lemma {:induction false} MakeAdds(prefix: string, id: ChainId, r: Rule)
    ensures Adds(MakeChains(prefix), id, r) == 0
  {
    AddsFour(MakeChains(prefix), id, r);
  }

  lemma {:induction false} HooksAdds(cfg: Config, id: ChainId, r: Rule)
    ensures Adds(HooksProgram(cfg), id, r)
         <= HookPart(OutName(Prefix(cfg)), Ifaces(cfg), id, r) + HookPart(PreName(Prefix(cfg)), Ifaces(cfg), id, r)
  {
    var hook := Must(Insert(NAT_OUTPUT, TcpJump(OutName(Prefix(cfg)))));
    var per := if cfg.hotspot then IfaceInserts(Ifaces(cfg), PreName(Prefix(cfg))) else [];
    IfaceAdds(Ifaces(cfg), PreName(Prefix(cfg)), id, r);
    AddsOne(hook, id, r);
    AddsConcat([hook], per, id, r);
    FixedHas(OutName(Prefix(cfg)), id, r);
  }

  lemma {:induction false} FixedHas(ch: string, id: ChainId, r: Rule)
    ensures DeletesOnly(FixedDeletes(ch))
    ensures id == NAT_OUTPUT && (r == TcpJump(ch) || r == DnsJump(ch)) ==> Deletes(FixedDeletes(ch), id, r) > 0
  {
    var p := FixedDeletes(ch);
    DeletedRulesAre(p, id, r);
    assert DeleteOf(p[0]) == (NAT_OUTPUT, TcpJump(ch)) && DeleteOf(p[2]) == (NAT_OUTPUT, DnsJump(ch));
  }

  lemma {:induction false} ReinsertAdds(p: Program, chain: ChainId, at: ChainId, hook: Rule, a: Rule, b: Rule, id: ChainId, r: Rule)
    requires |p| == 6 && id != chain
    requires p[0] == FirstOk([List(chain), New(chain)]) && p[1] == Best(Flush(chain))
    requires p[2] == Best(Append(chain, a)) && p[3] == Best(Append(chain, b))
    requires p[4] == Best(Delete(at, hook)) && p[5] == Best(Insert(at, hook))
    ensures Adds(p, id, r) <= if (id, r) == (at, hook) then 1 else 0
  {
    AddsFour(p[..4], id, r);
    AddsTwo(p[4], p[5], id, r);
    AddsConcat(p[..4], [p[4], p[5]], id, r);
    assert p[..4] + [p[4], p[5]] == p;
    CommandsAddTwo(p[0].cmds[0], p[0].cmds[1], id, r);
    BestAdds(p[1].cmds[0], id, r);
    BestAdds(p[2].cmds[0], id, r);
    BestAdds(p[3].cmds[0], id, r);
    BestAdds(p[4].cmds[0], id, r);
    BestAdds(p[5].cmds[0], id, r);
  }

  lemma {:induction false} DnsAdds(prefix: string, port: int, ifaces: seq<string>, id: ChainId, r: Rule)
    requires id != NatChain(DnsName(prefix))
    ensures Adds(DnsProgram(prefix, port), id, r) <= HookPart(DnsName(prefix), ifaces, id, r)
  {
    if port > 0 {
      ReinsertAdds(DnsProgram(prefix, port), NatChain(DnsName(prefix)), NAT_OUTPUT, DnsJump(DnsName(prefix)), RootReturn(), DnsDnat(port), id, r);
      FixedHas(DnsName(prefix), id, r);
    }
  }

  lemma {:induction false} QuicAdds(id: ChainId, r: Rule)
    ensures DeletesOnly(QuicDeletes())
    ensures Adds(QuicProgram(), id, r) <= Deletes(QuicDeletes(), id, r)
  {
    var p, d := QuicProgram(), QuicDeletes();
    QuicStepAdds(443, id, r);
    QuicStepAdds(80, id, r);
    AddsTwo(p[0], p[1], id, r);
    DeletesTwo(d[0], d[1], id, r);
    DeletesTwo(d[2], d[3], id, r);
    DeletesConcat([d[0], d[1]], [d[2], d[3]], id, r);
    assert [d[0], d[1]] + [d[2], d[3]] == d;
  }

  lemma {:induction false} QuicStepAdds(port: int, id: ChainId, r: Rule)
    ensures StepAdds(FirstOk(QuicCommands(port)), id, r)
         == (if id == FILTER_OUTPUT && r == QuicReject(port) then 1 else 0)
            + (if id == FILTER_OUTPUT && r == QuicDrop(port) then 1 else 0)
  {
    var cs := QuicCommands(port);
    CommandsAddTwo(cs[2], cs[3], id, r);
    assert cs[1..] == [cs[1], cs[2], cs[3]] && cs[1..][1..] == [cs[2], cs[3]];
    assert CommandsAdd(cs[1..], id, r) == CommandAdds(cs[1], id, r) + CommandsAdd(cs[1..][1..], id, r);
  }

  lemma {:induction false} IPv6Adds(id: ChainId, r: Rule)
    requires id != DROP6
    ensures Adds(IPv6Program(), id, r) <= Deletes(EnableIPv6Phase().deletes, id, r)
  {
    var p, d := IPv6Program(), EnableIPv6Phase().deletes;
    AddsFour(p[..4], id, r);
    AddsFour(p[4..], id, r);
    AddsConcat(p[..4], p[4..], id, r);
    assert p[..4] + p[4..] == p;
    CommandsAddTwo(p[0].cmds[0], p[0].cmds[1], id, r);
    CommandsAddTwo(p[3].cmds[0], p[3].cmds[1], id, r);
    BestAdds(p[1].cmds[0], id, r);
    BestAdds(p[2].cmds[0], id, r);
    BestAdds(p[4].cmds[0], id, r);
    BestAdds(p[5].cmds[0], id, r);
    BestAdds(p[6].cmds[0], id, r);
    BestAdds(p[7].cmds[0], id, r);
    DeletesTwo(d[0], d[1], id, r);
  }

  lemma {:induction false} ForwardAdds(cfg: Config, id: ChainId, r: Rule)
    ensures Adds(ForwardAccept(cfg), id, r) <= Deletes(ForwardDelete(), id, r)
  {
    if cfg.hotspot {
      BestAdds(Insert(FILTER_FORWARD, Plain(Accept)), id, r);
      AddsOne(ForwardAccept(cfg)[0], id, r);
      DeletesOne(ForwardDelete()[0], id, r);
    }
  }

  lemma {:induction false} OwnedFacts(cfg: Config)
    ensures Deletions(CleanupPhases(cfg)) && Separated(CleanupPhases(cfg))
    ensures OwnerOf(Owned(cfg), CleanupPhases(cfg))
    ensures CleanerInside(Owned(cfg), CleanupPhases(cfg))
    ensures forall id, r :: (id, r) in Owned(cfg).rules ==> HookPoint(id)
    ensures forall c :: c in Owned(cfg).chains ==> '_' in c.name
  {
    CleanupShape(cfg);
    FootprintOwns(CleanupPhases(cfg));
  }

  lemma {:induction false} OwnedChains(cfg: Config, c: ChainId)
    ensures c in Owned(cfg).chains <==> c == DROP6 || c in ChainsOf(V4, Nat, LegacyNames(Prefix(cfg)))
  {
    var cl := CleanupPhases(cfg);
    ChainSetIs(cl, c);
    assert cl[0].chains == ChainsOf(V4, Nat, LegacyNames(Prefix(cfg))) && cl[1].chains == [] && cl[2].chains == [DROP6];
    if c == DROP6 {
      assert c in cl[2].chains;
    }
    if c in ChainsOf(V4, Nat, LegacyNames(Prefix(cfg))) {
      assert c in cl[0].chains;
    }
  }

  lemma {:induction false} OwnChainsOwned(cfg: Config)
    ensures NatChain(OutName(Prefix(cfg))) in Owned(cfg).chains
    ensures NatChain(PreName(Prefix(cfg))) in Owned(cfg).chains
    ensures NatChain(DnsName(Prefix(cfg))) in Owned(cfg).chains
    ensures DROP6 in Owned(cfg).chains
  {
    var ids := ChainsOf(V4, Nat, LegacyNames(Prefix(cfg)));
    assert ids[0] == NatChain(OutName(Prefix(cfg))) && ids[1] == NatChain(PreName(Prefix(cfg))) && ids[3] == NatChain(DnsName(Prefix(cfg)));
    OwnedChains(cfg, ids[0]);
    OwnedChains(cfg, ids[1]);
    OwnedChains(cfg, ids[3]);
    OwnedChains(cfg, DROP6);
  }

  /** Apply adds no more copies of a hook than Cleanup deletes. */
  lemma {:induction false} ApplyAdds(cfg: Config, bypass: BypassList, id: ChainId, r: Rule)
    requires Deletions(CleanupPhases(cfg))
    requires id !in Owned(cfg).chains
    ensures Adds(ApplyProgram(cfg, bypass), id, r) <= AllDeletes(CleanupPhases(cfg), id, r)
  {
    CleanupShape(cfg);
    OwnChainsOwned(cfg);
    CleanerAddsNothing(RulesPhases(cfg), id, r);
    RedirectAdds(cfg, bypass, id, r);
    BestEffortAdds(cfg, id, r);
    AddsConcat(CleanerProgram(RulesPhases(cfg)), RedirectProgram(cfg, bypass), id, r);
    AddsConcat(CleanerProgram(RulesPhases(cfg)) + RedirectProgram(cfg, bypass), BestEffortProgram(cfg), id, r);
    CleanupDeletes(cfg, id, r);
  }

  lemma {:induction false} CleanupDeletes(cfg: Config, id: ChainId, r: Rule)
    requires Deletions(CleanupPhases(cfg))
    requires id != NatChain(DnsName(Prefix(cfg))) && id != DROP6
    ensures AllDeletes(CleanupPhases(cfg), id, r)
         >= HookPart(OutName(Prefix(cfg)), Ifaces(cfg), id, r) + HookPart(PreName(Prefix(cfg)), Ifaces(cfg), id, r)
            + Adds(ForwardAccept(cfg), id, r) + Adds(DnsProgram(Prefix(cfg), cfg.dnsForwardPort), id, r)
            + Adds(QuicProgram(), id, r) + Adds(IPv6Program(), id, r)
  {
    ForwardAdds(cfg, id, r);
    DnsAdds(Prefix(cfg), cfg.dnsForwardPort, Ifaces(cfg), id, r);
    QuicAdds(id, r);
    IPv6Adds(id, r);
    SixHooks(Prefix(cfg), Ifaces(cfg), id, r);
    var cl := CleanupPhases(cfg);
    ThreePhaseDeletes(cl, id, r);
    DeletesConcat(ForwardDelete(), QuicDeletes(), id, r);
    assert cl[0].deletes == HookDeletes(LegacyNames(Prefix(cfg)), Ifaces(cfg));
  }

  lemma {:induction false} BestEffortAdds(cfg: Config, id: ChainId, r: Rule)
    ensures Adds(BestEffortProgram(cfg), id, r)
         == Adds(ForwardAccept(cfg), id, r) + Adds(DnsProgram(Prefix(cfg), cfg.dnsForwardPort), id, r)
            + Adds(QuicProgram(), id, r) + Adds(IPv6Program(), id, r)
  {
    var f, d := ForwardAccept(cfg), DnsProgram(Prefix(cfg), cfg.dnsForwardPort);
    AddsConcat(f, d, id, r);
    AddsConcat(f + d, QuicProgram(), id, r);
    AddsConcat(f + d + QuicProgram(), IPv6Program(), id, r);
  }
}

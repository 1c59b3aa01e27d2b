/** Every command of Apply and Cleanup stays inside the footprint. */
module Confinement {
  import opened Common
  import opened Netfilter
  import opened Footprints
  import opened Cleaners
  import opened Firewall
  import opened Ownership
  import opened Additions

  // ----- every command of Apply and Cleanup is inside the footprint -----

  lemma {:induction false} DeletableIsOwned(cfg: Config, id: ChainId, r: Rule)
    requires HookPoint(id)
    requires HookPart(OutName(Prefix(cfg)), Ifaces(cfg), id, r) + HookPart(PreName(Prefix(cfg)), Ifaces(cfg), id, r)
             + Adds(ForwardAccept(cfg), id, r) + Adds(DnsProgram(Prefix(cfg), cfg.dnsForwardPort), id, r)
             + Adds(QuicProgram(), id, r) + Adds(IPv6Program(), id, r) > 0
    ensures id !in Owned(cfg).chains && (id, r) in Owned(cfg).rules
  {
    OwnedFacts(cfg);
    HookPointsPlain(id);
    OwnChainsOwned(cfg);
    CleanupDeletes(cfg, id, r);
  }

  lemma {:induction false} AddsAt(p: Program, i: nat, id: ChainId, r: Rule)
    requires i < |p| && StepAdds(p[i], id, r) > 0
    ensures Adds(p, id, r) > 0
    decreases i
  {
    if i > 0 {
      AddsAt(p[1..], i - 1, id, r);
    }
  }

  lemma {:induction false} AppendsWithin(fp: Footprint, id: ChainId, rules: seq<Rule>)
    requires id in fp.chains
    requires forall r :: r in rules ==> !r.target.Jump?
    ensures ProgramAll(c => Within(fp, c), Appends(id, rules))
  {
    if rules != [] {
      AppendsWithin(fp, id, rules[1..]);
      var head := [Must(Append(id, rules[0]))];
      assert ProgramAll(c => Within(fp, c), head);
      ProgramAllConcat(c => Within(fp, c), head, Appends(id, rules[1..]));
    }
  }

  lemma {:induction false} CidrReturnsPlain(cs: seq<Cidr>)
    ensures forall r :: r in CidrReturns(cs) ==> r.target == Return
  {
    if cs != [] {
      CidrReturnsPlain(cs[1..]);
    }
  }

  lemma {:induction false} BypassReturnsPlain(bypass: BypassList)
    ensures forall r :: r in BypassReturns(bypass) ==> r.target == Return
  {
    if bypass != [] {
      BypassReturnsPlain(bypass[1..]);
    }
  }

  lemma {:induction false} PortReturnsPlain(ports: seq<int>)
    ensures forall r :: r in PortReturns(ports) ==> r.target == Return
  {
    if ports != [] {
      PortReturnsPlain(ports[1..]);
    }
  }

  lemma {:induction false} RulesPlain(isOutput: bool, cidrs: seq<Cidr>, bypass: BypassList, ports: seq<int>, redirect: int)
    ensures forall r :: r in RulesFor(isOutput, cidrs, bypass, ports, redirect) ==> r.target.Return? || r.target.Redirect?
  {
    CidrReturnsPlain(cidrs);
    BypassReturnsPlain(bypass);
    PortReturnsPlain(ports);
  }

  lemma {:induction false} IfaceInsertsWithin(fp: Footprint, all: seq<string>, ifaces: seq<string>, ch: string)
    requires forall i :: i in ifaces ==> i in all
    requires forall i :: i in all && !Blank(i) ==> Within(fp, Insert(NAT_PREROUTING, IfaceTcpJump(i, ch)))
    ensures ProgramAll(c => Within(fp, c), IfaceInserts(ifaces, ch))
  {
    if ifaces != [] {
      IfaceInsertsWithin(fp, all, ifaces[1..], ch);
      assert ifaces[0] in all;
    }
  }

  lemma {:induction false} IfaceDeletesHave(ifaces: seq<string>, ch: string, iface: string)
    requires iface in ifaces && !Blank(iface)
    ensures DeletesOnly(IfaceDeletes(ifaces, NAT_PREROUTING, ch))
    ensures Deletes(IfaceDeletes(ifaces, NAT_PREROUTING, ch), NAT_PREROUTING, IfaceTcpJump(iface, ch)) > 0
  {
    IfaceDeletesAreHooks(ifaces, NAT_PREROUTING, ch, {ch});
    if ifaces[0] != iface {
      IfaceDeletesHave(ifaces[1..], ch, iface);
      var head := if Blank(ifaces[0]) then [] else
        [Best(Delete(NAT_PREROUTING, IfaceTcpJump(ifaces[0], ch))), Best(Delete(NAT_PREROUTING, IfaceJump(ifaces[0], ch)))];
      DeletesConcat(head, IfaceDeletes(ifaces[1..], NAT_PREROUTING, ch), NAT_PREROUTING, IfaceTcpJump(iface, ch));
    }
  }

  lemma {:induction false} HooksWithin(cfg: Config)
    ensures ProgramAll(c => Within(Owned(cfg), c), HooksProgram(cfg))
  {
    var fp, out, pre := Owned(cfg), OutName(Prefix(cfg)), PreName(Prefix(cfg));
    FixedHas(out, NAT_OUTPUT, TcpJump(out));
    DeletableIsOwned(cfg, NAT_OUTPUT, TcpJump(out));
    forall i | i in Ifaces(cfg) && !Blank(i) ensures Within(fp, Insert(NAT_PREROUTING, IfaceTcpJump(i, pre))) {
      IfaceDeletesHave(Ifaces(cfg), pre, i);
      DeletableIsOwned(cfg, NAT_PREROUTING, IfaceTcpJump(i, pre));
    }
    HooksWithinFor(fp, out, pre, Ifaces(cfg), cfg.hotspot);
  }

  lemma {:induction false} HooksWithinFor(fp: Footprint, out: string, pre: string, ifaces: seq<string>, hotspot: bool)
    requires Within(fp, Insert(NAT_OUTPUT, TcpJump(out)))
    requires forall i :: i in ifaces && !Blank(i) && hotspot ==> Within(fp, Insert(NAT_PREROUTING, IfaceTcpJump(i, pre)))
    ensures ProgramAll(c => Within(fp, c), [Must(Insert(NAT_OUTPUT, TcpJump(out)))] + if hotspot then IfaceInserts(ifaces, pre) else [])
  {
    if hotspot {
      IfaceInsertsWithin(fp, ifaces, ifaces, pre);
    }
  }

  lemma {:induction false} ChainsWithinFor(fp: Footprint, make: Program, out: ChainId, pre: ChainId, a: seq<Rule>, b: seq<Rule>)
    requires out in fp.chains && pre in fp.chains
    requires make == [Must(New(out)), Must(Flush(out)), Must(New(pre)), Must(Flush(pre))]
    requires forall r :: r in a || r in b ==> !r.target.Jump?
    ensures ProgramAll(c => Within(fp, c), make + Appends(out, a) + Appends(pre, b))
  {
    AppendsWithin(fp, out, a);
    AppendsWithin(fp, pre, b);
    assert ProgramAll(c => Within(fp, c), make);
    ProgramAllConcat(c => Within(fp, c), make, Appends(out, a));
    ProgramAllConcat(c => Within(fp, c), make + Appends(out, a), Appends(pre, b));
  }

  lemma {:induction false} ChainsWithin(cfg: Config, bypass: BypassList)
    ensures ProgramAll(c => Within(Owned(cfg), c), ChainsProgram(cfg, bypass))
  {
    OwnChainsOwned(cfg);
    ChainRulesPlain(cfg, bypass, true);
    ChainRulesPlain(cfg, bypass, false);
    ChainsWithinFor(Owned(cfg), MakeChains(Prefix(cfg)), NatChain(OutName(Prefix(cfg))), NatChain(PreName(Prefix(cfg))),
                    ChainRules(cfg, bypass, true), ChainRules(cfg, bypass, false));
  }

  lemma {:induction false} ChainRulesPlain(cfg: Config, bypass: BypassList, isOutput: bool)
    ensures forall r :: r in ChainRules(cfg, bypass, isOutput) ==> !r.target.Jump?
  {
    RulesPlain(isOutput, PrivateCidrs(), bypass, ExemptPorts(cfg), Port(cfg));
  }

  lemma {:induction false} OwnsDnsHook(cfg: Config)
    requires cfg.dnsForwardPort > 0
    ensures (NAT_OUTPUT, DnsJump(DnsName(Prefix(cfg)))) in Owned(cfg).rules
    ensures NAT_OUTPUT !in Owned(cfg).chains
  {
    var hook := DnsJump(DnsName(Prefix(cfg)));
    BestAdds(Insert(NAT_OUTPUT, hook), NAT_OUTPUT, hook);
    AddsAt(DnsProgram(Prefix(cfg), cfg.dnsForwardPort), 5, NAT_OUTPUT, hook);
    DeletableIsOwned(cfg, NAT_OUTPUT, hook);
  }

  lemma {:induction false} OwnsQuic(cfg: Config, port: int)
    requires port == 443 || port == 80
    ensures FILTER_OUTPUT !in Owned(cfg).chains
    ensures (FILTER_OUTPUT, QuicReject(port)) in Owned(cfg).rules
    ensures (FILTER_OUTPUT, QuicDrop(port)) in Owned(cfg).rules
  {
    QuicStepAdds(port, FILTER_OUTPUT, QuicReject(port));
    QuicStepAdds(port, FILTER_OUTPUT, QuicDrop(port));
    AddsAt(QuicProgram(), if port == 443 then 0 else 1, FILTER_OUTPUT, QuicReject(port));
    AddsAt(QuicProgram(), if port == 443 then 0 else 1, FILTER_OUTPUT, QuicDrop(port));
    DeletableIsOwned(cfg, FILTER_OUTPUT, QuicReject(port));
    DeletableIsOwned(cfg, FILTER_OUTPUT, QuicDrop(port));
  }

  lemma {:induction false} OwnsHooks6(cfg: Config)
    ensures OUTPUT6 !in Owned(cfg).chains
    ensures (OUTPUT6, AnyJump(DROP6_NAME)) in Owned(cfg).rules
    ensures FORWARD6 !in Owned(cfg).chains
    ensures (FORWARD6, AnyJump(DROP6_NAME)) in Owned(cfg).rules
  {
    var p, hook := IPv6Program(), AnyJump(DROP6_NAME);
    BestAdds(Insert(OUTPUT6, hook), OUTPUT6, hook);
    BestAdds(Insert(FORWARD6, hook), FORWARD6, hook);
    AddsAt(p, 5, OUTPUT6, hook);
    AddsAt(p, 7, FORWARD6, hook);
    DeletableIsOwned(cfg, OUTPUT6, hook);
    DeletableIsOwned(cfg, FORWARD6, hook);
  }

  lemma {:induction false} OwnsForward(cfg: Config)
    requires cfg.hotspot
    ensures FILTER_FORWARD !in Owned(cfg).chains
    ensures (FILTER_FORWARD, Plain(Accept)) in Owned(cfg).rules
  {
    BestAdds(Insert(FILTER_FORWARD, Plain(Accept)), FILTER_FORWARD, Plain(Accept));
    AddsAt(ForwardAccept(cfg), 0, FILTER_FORWARD, Plain(Accept));
    DeletableIsOwned(cfg, FILTER_FORWARD, Plain(Accept));
  }

  lemma {:induction false} DnsWithinFor(fp: Footprint, prefix: string, port: int)
    requires port > 0 ==> (NAT_OUTPUT, DnsJump(DnsName(prefix))) in fp.rules && NAT_OUTPUT !in fp.chains
    requires NatChain(DnsName(prefix)) in fp.chains
    ensures ProgramAll(c => Within(fp, c), DnsProgram(prefix, port))
  {
  }

  lemma {:induction false} QuicWithinFor(fp: Footprint)
    requires FILTER_OUTPUT !in fp.chains
    requires forall port :: port == 443 || port == 80 ==>
      (FILTER_OUTPUT, QuicReject(port)) in fp.rules && (FILTER_OUTPUT, QuicDrop(port)) in fp.rules
    ensures ProgramAll(c => Within(fp, c), QuicProgram())
  {
  }

  lemma {:induction false} IPv6WithinFor(fp: Footprint)
    requires OUTPUT6 !in fp.chains && (OUTPUT6, AnyJump(DROP6_NAME)) in fp.rules
    requires FORWARD6 !in fp.chains && (FORWARD6, AnyJump(DROP6_NAME)) in fp.rules
    requires DROP6 in fp.chains
    ensures ProgramAll(c => Within(fp, c), IPv6Program())
  {
  }

  lemma {:induction false} ForwardWithinFor(fp: Footprint, cfg: Config)
    requires cfg.hotspot ==> FILTER_FORWARD !in fp.chains && (FILTER_FORWARD, Plain(Accept)) in fp.rules
    ensures ProgramAll(c => Within(fp, c), ForwardAccept(cfg))
  {
  }

  lemma {:induction false} BestEffortWithin(cfg: Config)
    ensures ProgramAll(c => Within(Owned(cfg), c), BestEffortProgram(cfg))
  {
    var fp, f, d := Owned(cfg), ForwardAccept(cfg), DnsProgram(Prefix(cfg), cfg.dnsForwardPort);
    OwnChainsOwned(cfg);
    OwnsHooks6(cfg);
    OwnsQuic(cfg, 443);
    OwnsQuic(cfg, 80);
    if cfg.hotspot { OwnsForward(cfg); }
    if cfg.dnsForwardPort > 0 { OwnsDnsHook(cfg); }
    ForwardWithinFor(fp, cfg);
    DnsWithinFor(fp, Prefix(cfg), cfg.dnsForwardPort);
    QuicWithinFor(fp);
    IPv6WithinFor(fp);
    ProgramAllConcat(c => Within(fp, c), f, d);
    ProgramAllConcat(c => Within(fp, c), f + d, QuicProgram());
    ProgramAllConcat(c => Within(fp, c), f + d + QuicProgram(), IPv6Program());
  }

  lemma {:induction false} CleanupWithin(cfg: Config)
    ensures ProgramAll(c => Within(Owned(cfg), c), CleanupProgram(cfg))
  {
    OwnedFacts(cfg);
    CleanerWithin(Owned(cfg), CleanupPhases(cfg));
  }

  lemma {:induction false} RulesCleanupWithin(cfg: Config)
    ensures ProgramAll(c => Within(Owned(cfg), c), CleanerProgram(RulesPhases(cfg)))
  {
    OwnedFacts(cfg);
    CleanupShape(cfg);
    var cl, all := RulesPhases(cfg), CleanupPhases(cfg);
    assert cl == all[..2];
    PrefixInside(Owned(cfg), all, 2);
    CleanerWithin(Owned(cfg), cl);
  }

  lemma {:induction false} PrefixInside(fp: Footprint, cl: seq<Phase>, n: nat)
    requires n <= |cl| && Deletions(cl) && CleanerInside(fp, cl)
    ensures Deletions(cl[..n]) && CleanerInside(fp, cl[..n])
  {
  }

  lemma {:induction false} ApplyWithin(cfg: Config, bypass: BypassList)
    ensures ProgramAll(c => Within(Owned(cfg), c), ApplyProgram(cfg, bypass))
  {
    var fp := Owned(cfg);
    RulesCleanupWithin(cfg);
    ChainsWithin(cfg, bypass);
    HooksWithin(cfg);
    BestEffortWithin(cfg);
    ProgramAllConcat(c => Within(fp, c), ChainsProgram(cfg, bypass), HooksProgram(cfg));
    ProgramAllConcat(c => Within(fp, c), CleanerProgram(RulesPhases(cfg)), RedirectProgram(cfg, bypass));
    ProgramAllConcat(c => Within(fp, c), CleanerProgram(RulesPhases(cfg)) + RedirectProgram(cfg, bypass), BestEffortProgram(cfg));
  }
}

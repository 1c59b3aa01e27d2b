/**
 What the installed rules mean: for every packet, the verdict of each hooked
 chain after Apply, stated without the rules, against the verdict of the chain
 as it was before.
 */
module Verdicts {
  import opened Common
  import opened Netfilter
  import opened Firewall
  import opened Ownership
  import opened Additions
  import opened Confinement
  import opened Installed
  import opened Packets

  // ----- which packets are exempt -----

  /** The reserved address ranges, by octets. */
  predicate Reserved(a: nat) {
    var o1, o2 := a / 0x100_0000, a / 0x1_0000 % 0x100;
    || o1 == 0 || o1 == 10 || o1 == 127 || o1 >= 224
    || (o1 == 100 && 64 <= o2 < 128)
    || (o1 == 169 && o2 == 254)
    || (o1 == 172 && 16 <= o2 < 32)
    || (o1 == 192 && o2 == 168)
  }

  /** Destination and port of a TCP packet that is not to be redirected. */
  predicate Exempt(cfg: Config, bypass: BypassList, p: Packet) {
    || Reserved(p.dst)
    || Some(p.dst) in bypass
    || (p.dport > 0 && (p.dport == cfg.apiPort || p.dport == cfg.socksPort || p.dport == cfg.tcpPort || p.dport == cfg.dnsForwardPort))
  }

  lemma {:induction false} Pow2Values()
    ensures Pow2(0) == 1
    ensures Pow2(16) == 0x1_0000
    ensures Pow2(20) == 0x10_0000
    ensures Pow2(22) == 0x40_0000
    ensures Pow2(24) == 0x100_0000 && Pow2(28) == 0x1000_0000
  {
    assert Pow2(4) == 16;
    assert Pow2(8) == 256;
    assert Pow2(12) == 4096;
    assert Pow2(16) == 0x1_0000;
    assert Pow2(20) == 0x10_0000;
    assert Pow2(24) == 0x100_0000;
  }

  lemma {:induction false} MulMonotone(x: nat, y: nat, size: nat)
    requires x <= y
    ensures x * size <= y * size
  {
  }

  lemma {:induction false} DivBlock(a: nat, size: nat, n: nat)
    requires size > 0
    ensures a / size == n <==> n * size <= a < n * size + size
  {
    var q, r := a / size, a % size;
    assert a == q * size + r;
    if q < n {
      MulMonotone(q + 1, n, size);
    } else if q > n {
      MulMonotone(n + 1, q, size);
    }
  }

  lemma {:induction false} CidrBlock(c: Cidr, n: nat, size: nat, a: nat)
    requires c.bits <= 32 && Pow2(32 - c.bits) == size && c.base == n * size
    ensures CidrHas(c, a) <==> c.base <= a < c.base + size
  {
    DivBlock(a, size, n);
    DivBlock(c.base, size, n);
  }

  /** The block size and block number of each reserved range. */
  function PrivateBlock(i: nat): (nat, nat)
    requires i < 9
  {
    if i == 0 then (0, 0x100_0000) else if i == 1 then (10, 0x100_0000) else if i == 2 then (401, 0x40_0000)
    else if i == 3 then (127, 0x100_0000) else if i == 4 then (43518, 0x1_0000) else if i == 5 then (2753, 0x10_0000)
    else if i == 6 then (49320, 0x1_0000) else if i == 7 then (14, 0x1000_0000) else (15, 0x1000_0000)
  }

  lemma {:induction false} PrivateBlocks(i: nat)
    requires i < 9
    ensures PrivateCidr(i).bits <= 32
    ensures Pow2(32 - PrivateCidr(i).bits) == PrivateBlock(i).1
    ensures PrivateCidr(i).base == PrivateBlock(i).0 * PrivateBlock(i).1
  {
    Pow2Values();
  }

  /** Each reserved range, by the octets of the address. */
  predicate InRange(i: nat, o1: nat, o2: nat)
    requires i < 9
  {
    if i == 0 then o1 == 0 else if i == 1 then o1 == 10 else if i == 2 then o1 == 100 && 64 <= o2 < 128
    else if i == 3 then o1 == 127 else if i == 4 then o1 == 169 && o2 == 254
    else if i == 5 then o1 == 172 && 16 <= o2 < 32 else if i == 6 then o1 == 192 && o2 == 168
    else if i == 7 then 224 <= o1 < 240 else 240 <= o1
  }

  lemma {:induction false} ReservedRange(i: nat, a: nat, o1: nat, o2: nat, low: nat)
    requires i < 9 && a < 0x1_0000_0000
    requires a == o1 * 0x100_0000 + o2 * 0x1_0000 + low && o2 < 0x100 && low < 0x1_0000
    ensures CidrHas(PrivateCidr(i), a) <==> InRange(i, o1, o2)
  {
    PrivateBlocks(i);
    CidrBlock(PrivateCidr(i), PrivateBlock(i).0, PrivateBlock(i).1, a);
  }

  lemma {:induction false} ReservedIsPrivate(a: nat)
    requires a < 0x1_0000_0000
    ensures Reserved(a) <==> exists i :: 0 <= i < 9 && CidrHas(PrivateCidr(i), a)
  {
    var o1, o2, low := a / 0x100_0000, a / 0x1_0000 % 0x100, a % 0x1_0000;
    forall i | 0 <= i < 9 ensures CidrHas(PrivateCidr(i), a) ==> Reserved(a) {
      ReservedRange(i, a, o1, o2, low);
    }
    if Reserved(a) {
      var i := if o1 == 0 then 0 else if o1 == 10 then 1 else if o1 == 100 then 2 else if o1 == 127 then 3
               else if o1 == 169 then 4 else if o1 == 172 then 5 else if o1 == 192 then 6 else if o1 < 240 then 7 else 8;
      ReservedRange(i, a, o1, o2, low);
      assert CidrHas(PrivateCidr(i), a);
    }
  }

  // ----- what the RETURN rules match -----

  ghost predicate SomeMatch(ext: Ext, rules: seq<Rule>, p: Packet) {
    exists r :: r in rules && Matches(ext, r, p)
  }

  lemma {:induction false} SomeMatchCons(ext: Ext, r: Rule, rules: seq<Rule>, p: Packet)
    ensures SomeMatch(ext, [r] + rules, p) <==> Matches(ext, r, p) || SomeMatch(ext, rules, p)
  {
    if Matches(ext, r, p) {
      assert r in [r] + rules;
    }
    if SomeMatch(ext, rules, p) {
      var x :| x in rules && Matches(ext, x, p);
      assert x in [r] + rules;
    }
  }

  lemma {:induction false} CidrsMatch(ext: Ext, cs: seq<Cidr>, p: Packet)
    ensures SomeMatch(ext, CidrReturns(cs), p) <==> exists i :: 0 <= i < |cs| && CidrHas(cs[i], p.dst)
  {
    if cs != [] {
      CidrsMatch(ext, cs[1..], p);
      SomeMatchCons(ext, DstReturn(cs[0]), CidrReturns(cs[1..]), p);
      if i :| 0 <= i < |cs[1..]| && CidrHas(cs[1..][i], p.dst) {
        assert CidrHas(cs[i + 1], p.dst);
      }
      if i :| 0 < i < |cs| && CidrHas(cs[i], p.dst) {
        assert CidrHas(cs[1..][i - 1], p.dst);
      }
    }
  }

  lemma {:induction false} BypassesMatch(ext: Ext, bypass: BypassList, p: Packet)
    ensures SomeMatch(ext, BypassReturns(bypass), p) <==> Some(p.dst) in bypass
  {
    if bypass != [] {
      BypassesMatch(ext, bypass[1..], p);
      if bypass[0].Some? {
        Pow2Values();
        SomeMatchCons(ext, DstReturn(Cidr(bypass[0].value, 32)), BypassReturns(bypass[1..]), p);
      }
    }
  }

  lemma {:induction false} PortsMatch(ext: Ext, ports: seq<int>, p: Packet)
    requires p.proto.Tcp?
    ensures SomeMatch(ext, PortReturns(ports), p) <==> p.dport > 0 && p.dport in ports
  {
    if ports != [] {
      PortsMatch(ext, ports[1..], p);
      if ports[0] > 0 {
        SomeMatchCons(ext, PortReturn(ports[0]), PortReturns(ports[1..]), p);
      }
    }
  }

  /** Rules the kernel refuses match no packet with a real port, so leaving them out changes nothing. */
  lemma {:induction false} AcceptedMatch(k: Kernel, ext: Ext, rules: seq<Rule>, p: Packet)
    requires ValidPacket(p)
    requires forall r :: r in rules ==> r.target == Return
    ensures SomeMatch(ext, Accepted(k, V4, rules), p) <==> SomeMatch(ext, rules, p)
    ensures forall r :: r in Accepted(k, V4, rules) ==> r.target == Return
  {
    if rules != [] {
      var r := rules[0];
      assert r in rules && rules == [r] + rules[1..];
      AcceptedMatch(k, ext, rules[1..], p);
      SomeMatchCons(ext, r, rules[1..], p);
      SomeMatchCons(ext, r, Accepted(k, V4, rules[1..]), p);
    }
  }

  lemma {:induction false} AcceptedConcat(k: Kernel, f: Family, a: seq<Rule>, b: seq<Rule>)
    ensures Accepted(k, f, a + b) == Accepted(k, f, a) + Accepted(k, f, b)
  {
    if a == [] {
      assert a + b == b;
    } else {
      assert (a + b)[0] == a[0] && (a + b)[1..] == a[1..] + b;
      AcceptedConcat(k, f, a[1..], b);
    }
  }

  function ReturnsOf(isOutput: bool, cidrs: seq<Cidr>, bypass: BypassList, ports: seq<int>): seq<Rule> {
    (if isOutput then [RootReturn()] else []) + CidrReturns(cidrs) + BypassReturns(bypass) + PortReturns(ports)
  }

  lemma {:induction false} ReturnsPlain(isOutput: bool, cidrs: seq<Cidr>, bypass: BypassList, ports: seq<int>)
    ensures forall r :: r in ReturnsOf(isOutput, cidrs, bypass, ports) ==> r.target == Return
  {
    CidrReturnsPlain(cidrs);
    BypassReturnsPlain(bypass);
    PortReturnsPlain(ports);
  }

  lemma {:induction false} ReturnsMatch(ext: Ext, isOutput: bool, cidrs: seq<Cidr>, bypass: BypassList, ports: seq<int>, p: Packet)
    requires p.proto.Tcp?
    ensures SomeMatch(ext, ReturnsOf(isOutput, cidrs, bypass, ports), p)
       <==> (isOutput && p.uid == Some(0)) || (exists i :: 0 <= i < |cidrs| && CidrHas(cidrs[i], p.dst))
            || Some(p.dst) in bypass || (p.dport > 0 && p.dport in ports)
  {
    var root := if isOutput then [RootReturn()] else [];
    CidrsMatch(ext, cidrs, p);
    BypassesMatch(ext, bypass, p);
    PortsMatch(ext, ports, p);
    assert SomeMatch(ext, root, p) <==> isOutput && p.uid == Some(0) by {
      if isOutput {
        SomeMatchCons(ext, RootReturn(), [], p);
        assert [RootReturn()] + [] == root;
      }
    }
  }

  lemma {:induction false} RulesVerdict(k: Kernel, s: Store, ext: Ext, at: ChainId, avail: set<ChainId>, isOutput: bool,
                                        cidrs: seq<Cidr>, bypass: BypassList, ports: seq<int>, redirect: int, p: Packet)
    requires ValidPacket(p) && p.proto.Tcp?
    ensures Eval(s, ext, at, avail, Accepted(k, V4, RulesFor(isOutput, cidrs, bypass, ports, redirect)), p)
         == if (isOutput && p.uid == Some(0)) || (exists i :: 0 <= i < |cidrs| && CidrHas(cidrs[i], p.dst))
               || Some(p.dst) in bypass || (p.dport > 0 && p.dport in ports) || !ValidPort(redirect)
            then None else Some(Redirect(redirect))
  {
    var rets := ReturnsOf(isOutput, cidrs, bypass, ports);
    ReturnsPlain(isOutput, cidrs, bypass, ports);
    ReturnsMatch(ext, isOutput, cidrs, bypass, ports, p);
    AcceptedMatch(k, ext, rets, p);
    AcceptedConcat(k, V4, rets, [RedirectTo(redirect)]);
    EvalReturns(s, ext, at, avail, Accepted(k, V4, rets), Accepted(k, V4, [RedirectTo(redirect)]), p);
  }

  /** What a redirect chain does to a TCP packet that enters it. */
  lemma {:induction false} RedirectChainVerdict(k: Kernel, s: Store, ext: Ext, at: ChainId, avail: set<ChainId>,
                                                cfg: Config, bypass: BypassList, isOutput: bool, p: Packet)
    requires ValidPacket(p) && p.proto.Tcp?
    ensures Eval(s, ext, at, avail, Accepted(k, V4, ChainRules(cfg, bypass, isOutput)), p)
         == if (isOutput && p.uid == Some(0)) || Exempt(cfg, bypass, p) || !ValidPort(Port(cfg)) then None
            else Some(Redirect(Port(cfg)))
  {
    ExemptListed(cfg, bypass, p);
    RulesVerdict(k, s, ext, at, avail, isOutput, PrivateCidrs(), bypass, ExemptPorts(cfg), Port(cfg), p);
  }

  lemma {:induction false} ExemptListed(cfg: Config, bypass: BypassList, p: Packet)
    requires ValidPacket(p)
    ensures Exempt(cfg, bypass, p)
       <==> (exists i :: 0 <= i < |PrivateCidrs()| && CidrHas(PrivateCidrs()[i], p.dst))
            || Some(p.dst) in bypass || (p.dport > 0 && p.dport in ExemptPorts(cfg))
  {
    ReservedIsPrivate(p.dst);
    PrivateListed(p.dst);
  }

  lemma {:induction false} PrivateListed(a: nat)
    ensures (exists i :: 0 <= i < |PrivateCidrs()| && CidrHas(PrivateCidrs()[i], a))
       <==> (exists i :: 0 <= i < 9 && CidrHas(PrivateCidr(i), a))
  {
    if i :| 0 <= i < 9 && CidrHas(PrivateCidr(i), a) {
      assert CidrHas(PrivateCidrs()[i], a);
    }
  }

  // ----- the installed chains -----

  ghost predicate Start(cfg: Config, s0: Store) {
    CleanStart(cfg, s0) && NoBuiltinJumps(s0)
  }

  lemma {:induction false} StartMet(cfg: Config)
    ensures Start(cfg, EmptyTables())
  {
    OwnedFacts(cfg);
    EmptyIsClean(Owned(cfg), EmptyTables());
  }

  lemma {:induction false} ChainFrame(k: Kernel, cfg: Config, bypass: BypassList, s: Store, id: ChainId)
    requires BUILTINS <= s.Keys && id in s && id !in BUILTINS
    requires id != NatChain(OutName(Prefix(cfg))) && id != NatChain(PreName(Prefix(cfg))) && id != NatChain(DnsName(Prefix(cfg))) && id != DROP6
    ensures id in InstalledStore(k, cfg, bypass, s)
    ensures InstalledStore(k, cfg, bypass, s)[id] == s[id]
  {
  }

  /** Foreign chains that are not built-in are untouched. */
  lemma {:induction false} ForeignChainsKept(k: Kernel, cfg: Config, bypass: BypassList, s0: Store)
    requires CleanStart(cfg, s0)
    ensures forall id :: id in s0 && id !in BUILTINS ==>
      id in InstalledStore(k, cfg, bypass, s0) && InstalledStore(k, cfg, bypass, s0)[id] == s0[id]
  {
    OwnChainsOwned(cfg);
    forall id | id in s0 && id !in BUILTINS
      ensures id in InstalledStore(k, cfg, bypass, s0) && InstalledStore(k, cfg, bypass, s0)[id] == s0[id]
    {
      ChainFrame(k, cfg, bypass, s0, id);
    }
  }

  lemma {:induction false} RedirectLookups(k: Kernel, cfg: Config, bypass: BypassList, s: Store)
    requires BUILTINS <= s.Keys
    requires NatChain(OutName(Prefix(cfg))) !in BUILTINS && NatChain(PreName(Prefix(cfg))) !in BUILTINS
    ensures var t := WithRedirect(k, cfg, bypass, s); var out, pre := OutName(Prefix(cfg)), PreName(Prefix(cfg));
      && BUILTINS <= t.Keys && NatChain(out) in t && NatChain(pre) in t
      && t[NatChain(out)] == Accepted(k, V4, ChainRules(cfg, bypass, true))
      && t[NatChain(pre)] == Accepted(k, V4, ChainRules(cfg, bypass, false))
      && t[NAT_OUTPUT] == [TcpJump(out)] + s[NAT_OUTPUT]
      && t[NAT_PREROUTING] == (if cfg.hotspot then HooksFor(Ifaces(cfg), pre) else []) + s[NAT_PREROUTING]
  {
    var out, pre := OutName(Prefix(cfg)), PreName(Prefix(cfg));
  }

  lemma {:induction false} OwnNotBuiltin(cfg: Config)
    ensures NatChain(OutName(Prefix(cfg))) !in BUILTINS
    ensures NatChain(PreName(Prefix(cfg))) !in BUILTINS
    ensures NatChain(DnsName(Prefix(cfg))) !in BUILTINS && DROP6 !in BUILTINS
  {
    var n := LegacyNames(Prefix(cfg));
    assert n[0] == OutName(Prefix(cfg)) && n[1] == PreName(Prefix(cfg)) && n[3] == DnsName(Prefix(cfg));
    forall id | id in BUILTINS ensures '_' !in id.name {
      HookPointsPlain(id);
    }
    assert DROP6_NAME[4] == '_';
  }

  /** The installed nat OUTPUT chain. */
  lemma {:induction false} InstalledNatOutput(k: Kernel, cfg: Config, bypass: BypassList, s0: Store)
    requires CleanStart(cfg, s0)
    ensures InstalledStore(k, cfg, bypass, s0)[NAT_OUTPUT]
         == (if cfg.dnsForwardPort > 0 then [DnsJump(DnsName(Prefix(cfg)))] else [])
            + ([TcpJump(OutName(Prefix(cfg)))] + s0[NAT_OUTPUT])
  {
    OwnNotBuiltin(cfg);
    RedirectLookups(k, cfg, bypass, s0);
    DnsHookAbsent(cfg, s0);
    OutputAfterBestEffort(k, cfg, WithRedirect(k, cfg, bypass, s0), [TcpJump(OutName(Prefix(cfg)))] + s0[NAT_OUTPUT]);
  }

  lemma {:induction false} DnsHookAbsent(cfg: Config, s0: Store)
    requires CleanStart(cfg, s0) && NAT_OUTPUT in s0
    ensures cfg.dnsForwardPort > 0 ==> DnsJump(DnsName(Prefix(cfg))) !in [TcpJump(OutName(Prefix(cfg)))] + s0[NAT_OUTPUT]
  {
    if cfg.dnsForwardPort > 0 {
      OwnsDnsHook(cfg);
    }
  }

  lemma {:induction false} OutputAfterBestEffort(k: Kernel, cfg: Config, t: Store, rules: seq<Rule>)
    requires BUILTINS <= t.Keys && t[NAT_OUTPUT] == rules && NatChain(DnsName(Prefix(cfg))) != NAT_OUTPUT
    requires cfg.dnsForwardPort > 0 ==> DnsJump(DnsName(Prefix(cfg))) !in rules
    ensures WithBestEffort(k, cfg, t)[NAT_OUTPUT] == (if cfg.dnsForwardPort > 0 then [DnsJump(DnsName(Prefix(cfg)))] else []) + rules
  {
    if cfg.dnsForwardPort > 0 {
      RemoveFirstAbsent(rules, DnsJump(DnsName(Prefix(cfg))));
    } else {
      EmptyPlus(rules);
    }
  }

  lemma {:induction false} EmptyPlus(rules: seq<Rule>)
    ensures [] + rules == rules
  {
  }

  lemma {:induction false} InstalledNatChains(k: Kernel, cfg: Config, bypass: BypassList, s0: Store)
    requires CleanStart(cfg, s0)
    ensures var t := InstalledStore(k, cfg, bypass, s0); var out, pre := OutName(Prefix(cfg)), PreName(Prefix(cfg));
      && NatChain(out) in t && NatChain(pre) in t
      && t[NatChain(out)] == Accepted(k, V4, ChainRules(cfg, bypass, true))
      && t[NatChain(pre)] == Accepted(k, V4, ChainRules(cfg, bypass, false))
      && t[NAT_PREROUTING] == (if cfg.hotspot then HooksFor(Ifaces(cfg), pre) else []) + s0[NAT_PREROUTING]
  {
    var t := WithRedirect(k, cfg, bypass, s0);
    OwnNotBuiltin(cfg);
    RedirectLookups(k, cfg, bypass, s0);
    assert |OutName(Prefix(cfg))| != |DnsName(Prefix(cfg))| && |PreName(Prefix(cfg))| != |DnsName(Prefix(cfg))|;
    IgnoredKeep(k, cfg, t, NatChain(OutName(Prefix(cfg))));
    IgnoredKeep(k, cfg, t, NatChain(PreName(Prefix(cfg))));
    IgnoredKeep(k, cfg, t, NAT_PREROUTING);
  }

  /** The ignored commands touch no nat chain but OUTPUT and the DNS chain. */
  lemma {:induction false} IgnoredKeep(k: Kernel, cfg: Config, s: Store, id: ChainId)
    requires BUILTINS <= s.Keys && id in s && id.table == Nat && id != NAT_OUTPUT && id != NatChain(DnsName(Prefix(cfg)))
    ensures id in WithBestEffort(k, cfg, s) && WithBestEffort(k, cfg, s)[id] == s[id]
  {
  }

  lemma {:induction false} InstalledDns(k: Kernel, cfg: Config, bypass: BypassList, s0: Store)
    requires CleanStart(cfg, s0) && cfg.dnsForwardPort > 0
    ensures NatChain(DnsName(Prefix(cfg))) in InstalledStore(k, cfg, bypass, s0)
    ensures InstalledStore(k, cfg, bypass, s0)[NatChain(DnsName(Prefix(cfg)))] == DnsRules(cfg.dnsForwardPort)
  {
    OwnNotBuiltin(cfg);
    RedirectLookups(k, cfg, bypass, s0);
  }

  // ----- nat OUTPUT -----

  lemma {:induction false} DnsChainVerdict(s: Store, ext: Ext, at: ChainId, avail: set<ChainId>, port: int, p: Packet)
    requires p.proto.Udp? && p.dport == 53
    ensures Eval(s, ext, at, avail, DnsRules(port), p)
         == if p.uid == Some(0) || !ValidPort(port) then None else Some(Dnat(LOOPBACK, port))
  {
    var tail := if ValidPort(port) then [DnsDnat(port)] else [];
    assert DnsRules(port)[0] == RootReturn() && DnsRules(port)[1..] == tail;
    if ValidPort(port) {
      EvalSkip(s, ext, at, avail, DnsDnat(port), [], p);
      assert [DnsDnat(port)] + [] == tail;
    }
  }

  /** A hook list in front of the original rules: what a packet meets in nat OUTPUT. */
  lemma {:induction false} HookedOutput(s: Store, ext: Ext, avail: set<ChainId>, dns: seq<Rule>, dnsName: string, outName: string,
                                        rest: seq<Rule>, p: Packet)
    requires NatChain(outName) in s && NatChain(outName) in avail
    requires dns == [] || (dns == [DnsJump(dnsName)] && NatChain(dnsName) in s && NatChain(dnsName) in avail)
    ensures Eval(s, ext, NAT_OUTPUT, avail, dns + ([TcpJump(outName)] + rest), p)
         == if p.proto.Tcp? && Eval(s, ext, NatChain(outName), avail - {NatChain(outName)}, s[NatChain(outName)], p).Some?
            then Eval(s, ext, NatChain(outName), avail - {NatChain(outName)}, s[NatChain(outName)], p)
            else if p.proto.Udp? && p.dport == 53 && dns != []
                    && Eval(s, ext, NatChain(dnsName), avail - {NatChain(dnsName)}, s[NatChain(dnsName)], p).Some?
            then Eval(s, ext, NatChain(dnsName), avail - {NatChain(dnsName)}, s[NatChain(dnsName)], p)
            else Eval(s, ext, NAT_OUTPUT, avail, rest, p)
  {
    EvalSkip(s, ext, NAT_OUTPUT, avail, TcpJump(outName), rest, p);
    if dns != [] {
      EvalSkip(s, ext, NAT_OUTPUT, avail, DnsJump(dnsName), [TcpJump(outName)] + rest, p);
    } else {
      assert dns + ([TcpJump(outName)] + rest) == [TcpJump(outName)] + rest;
    }
  }

  /**
   Rule compilation: after Apply from a clean start, every locally generated
   packet is redirected, sent to the DNS forwarder, or treated as before,
   exactly as this formula says.
   */
  lemma {:induction false} NatOutputVerdict(k: Kernel, cfg: Config, bypass: BypassList, s0: Store, ext: Ext, p: Packet)
    requires Start(cfg, s0) && ValidPacket(p)
    ensures var port := if cfg.tcpPort > 0 then cfg.tcpPort else 10810;
      Verdict(InstalledStore(k, cfg, bypass, s0), ext, NAT_OUTPUT, p)
         == if p.proto.Tcp? && p.uid != Some(0) && !Exempt(cfg, bypass, p) && port <= 65535
              then Some(Redirect(port))
            else if p.proto.Udp? && p.dport == 53 && p.uid != Some(0) && 0 < cfg.dnsForwardPort <= 65535
              then Some(Dnat(127 * 0x100_0000 + 1, cfg.dnsForwardPort))
            else Verdict(s0, ext, NAT_OUTPUT, p)
  {
    var t := InstalledStore(k, cfg, bypass, s0);
    var avail := t.Keys - {NAT_OUTPUT};
    var out, dns := NatChain(OutName(Prefix(cfg))), NatChain(DnsName(Prefix(cfg)));
    InstalledNatOutput(k, cfg, bypass, s0);
    InstalledNatChains(k, cfg, bypass, s0);
    OwnNotBuiltin(cfg);
    ForeignChainsKept(k, cfg, bypass, s0);
    VerdictSame(s0, t, ext, NAT_OUTPUT, p);
    if p.proto.Tcp? {
      RedirectChainVerdict(k, t, ext, out, avail - {out}, cfg, bypass, true, p);
    }
    if cfg.dnsForwardPort > 0 {
      InstalledDns(k, cfg, bypass, s0);
      if p.proto.Udp? && p.dport == 53 {
        DnsChainVerdict(t, ext, dns, avail - {dns}, cfg.dnsForwardPort, p);
      }
    }
    HookedOutput(t, ext, avail, if cfg.dnsForwardPort > 0 then [DnsJump(DnsName(Prefix(cfg)))] else [],
                 DnsName(Prefix(cfg)), OutName(Prefix(cfg)), s0[NAT_OUTPUT], p);
  }
}

/**
 The verdicts of the other hooked chains: nat PREROUTING (hotspot), filter
 OUTPUT (QUIC), filter FORWARD, and the two IPv6 chains.
 */
module MoreVerdicts {
  import opened Common
  import opened Netfilter
  import opened Footprints
  import opened Firewall
  import opened Ownership
  import opened Additions
  import opened Confinement
  import opened Installed
  import opened NormalForm
  import opened Packets
  import opened Verdicts

  // ----- nat PREROUTING -----

  /** Some listed interface pattern, other than a blank one, matches. */
  ghost predicate Listed(ifaces: seq<string>, name: string) {
    exists i :: i in ifaces && !Blank(i) && IfaceMatches(i, name)
  }

  predicate StartsWith(s: string, head: string) {
    |s| >= |head| && s[..|head|] == head
  }

  /** The interface belongs to hotspot clients: one of the configured patterns matches, or it has one of the usual names. */
  ghost predicate OfClients(cfg: Config, name: string) {
    if cfg.hotspotIfaces != [] then exists i :: i in cfg.hotspotIfaces && (exists c :: c in i && !White(c)) && IfaceMatches(i, name)
    else StartsWith(name, "wlan") || StartsWith(name, "swlan") || StartsWith(name, "ap") || StartsWith(name, "rndis")
         || StartsWith(name, "ncm") || StartsWith(name, "bt-pan")
  }

  lemma {:induction false} PlusMatches(head: string, name: string)
    ensures IfaceMatches(head + "+", name) <==> StartsWith(name, head)
  {
    assert (head + "+")[..|head|] == head;
  }

  lemma {:induction false} ClientsAreListed(cfg: Config, name: string)
    ensures OfClients(cfg, name) <==> Listed(Ifaces(cfg), name)
  {
    if cfg.hotspotIfaces == [] {
      UsualNames(name);
    }
    forall i | i in cfg.hotspotIfaces ensures Blank(i) <==> forall c :: c in i ==> White(c) {
      BlankMeans(i);
    }
  }

  /** Patterns with a plus behind them match the names that start with one of the heads. */
  lemma {:induction false} HeadsListed(heads: seq<string>, patterns: seq<string>, name: string)
    requires |patterns| == |heads| && forall i :: 0 <= i < |heads| ==> patterns[i] == heads[i] + "+" && heads[i] != "" && !IsSpace(heads[i][0])
    ensures Listed(patterns, name) <==> exists i :: 0 <= i < |heads| && StartsWith(name, heads[i])
  {
    forall i | 0 <= i < |heads| ensures patterns[i] in patterns && !Blank(patterns[i]) && (IfaceMatches(patterns[i], name) <==> StartsWith(name, heads[i])) {
      PlusMatches(heads[i], name);
      assert patterns[i][0] == heads[i][0];
    }
  }

  lemma {:induction false} UsualNames(name: string)
    ensures Listed(DEFAULT_IFACES, name)
       <==> (StartsWith(name, "wlan") || StartsWith(name, "swlan") || StartsWith(name, "ap") || StartsWith(name, "rndis")
             || StartsWith(name, "ncm") || StartsWith(name, "bt-pan"))
  {
    var heads := ["wlan", "swlan", "ap", "rndis", "ncm", "bt-pan"];
    HeadsListed(heads, DEFAULT_IFACES, name);
    assert (StartsWith(name, heads[0]) || StartsWith(name, heads[1]) || StartsWith(name, heads[2]) || StartsWith(name, heads[3])
            || StartsWith(name, heads[4]) || StartsWith(name, heads[5])) <==> exists i :: 0 <= i < 6 && StartsWith(name, heads[i]);
  }

  lemma {:induction false} HooksEval(s: Store, ext: Ext, avail: set<ChainId>, ifaces: seq<string>, ch: string, rest: seq<Rule>, p: Packet)
    requires NatChain(ch) in s && NatChain(ch) in avail
    ensures var inner := Eval(s, ext, NatChain(ch), avail - {NatChain(ch)}, s[NatChain(ch)], p);
      Eval(s, ext, NAT_PREROUTING, avail, HooksFor(ifaces, ch) + rest, p)
      == if p.proto.Tcp? && Listed(ifaces, p.inIface) && inner.Some? then inner
         else Eval(s, ext, NAT_PREROUTING, avail, rest, p)
    decreases ifaces
  {
    if ifaces == [] {
      EmptyPlus(rest);
    } else {
      var front := if Blank(ifaces[0]) then [] else [IfaceTcpJump(ifaces[0], ch)];
      Assoc(HooksFor(ifaces[1..], ch), front, rest);
      HooksEval(s, ext, avail, ifaces[1..], ch, front + rest, p);
      if Blank(ifaces[0]) {
        EmptyPlus(rest);
      } else {
        EvalSkip(s, ext, NAT_PREROUTING, avail, IfaceTcpJump(ifaces[0], ch), rest, p);
      }
      assert Listed(ifaces, p.inIface)
        <==> (!Blank(ifaces[0]) && IfaceMatches(ifaces[0], p.inIface)) || Listed(ifaces[1..], p.inIface);
    }
  }

  /**
   Hotspot: with the option on, a TCP packet that enters on an interface some
   listed pattern matches is redirected unless exempt; every other packet gets
   the verdict it had before.
   */
  lemma {:induction false} PreroutingVerdict(k: Kernel, cfg: Config, bypass: BypassList, s0: Store, ext: Ext, p: Packet)
    requires Start(cfg, s0) && ValidPacket(p)
    ensures Verdict(InstalledStore(k, cfg, bypass, s0), ext, NAT_PREROUTING, p)
         == if cfg.hotspot && p.proto.Tcp? && OfClients(cfg, p.inIface) && !Exempt(cfg, bypass, p) && cfg.tcpPort <= 65535
            then Some(Redirect(if cfg.tcpPort > 0 then cfg.tcpPort else 10810))
            else Verdict(s0, ext, NAT_PREROUTING, p)
  {
    var t := InstalledStore(k, cfg, bypass, s0);
    var avail := t.Keys - {NAT_PREROUTING};
    ClientsAreListed(cfg, p.inIface);
    var pre := NatChain(PreName(Prefix(cfg)));
    InstalledNatChains(k, cfg, bypass, s0);
    OwnNotBuiltin(cfg);
    ForeignChainsKept(k, cfg, bypass, s0);
    VerdictSame(s0, t, ext, NAT_PREROUTING, p);
    if p.proto.Tcp? {
      RedirectChainVerdict(k, t, ext, pre, avail - {pre}, cfg, bypass, false, p);
    }
    if cfg.hotspot {
      HooksEval(t, ext, avail, Ifaces(cfg), PreName(Prefix(cfg)), s0[NAT_PREROUTING], p);
    } else {
      EmptyPlus(s0[NAT_PREROUTING]);
    }
  }

  /** Order, overlap and repetition of the interface patterns do not matter. */
  lemma {:induction false} HotspotOrderIndependent(k: Kernel, cfg: Config, ifaces: seq<string>, bypass: BypassList, s0: Store, ext: Ext, p: Packet)
    requires Start(cfg, s0) && Start(cfg.(hotspotIfaces := ifaces), s0) && ValidPacket(p)
    requires |ifaces| > 0 && |cfg.hotspotIfaces| > 0
    requires forall i :: i in ifaces <==> i in cfg.hotspotIfaces
    ensures Verdict(InstalledStore(k, cfg, bypass, s0), ext, NAT_PREROUTING, p)
         == Verdict(InstalledStore(k, cfg.(hotspotIfaces := ifaces), bypass, s0), ext, NAT_PREROUTING, p)
  {
    PreroutingVerdict(k, cfg, bypass, s0, ext, p);
    PreroutingVerdict(k, cfg.(hotspotIfaces := ifaces), bypass, s0, ext, p);
  }

  // ----- filter chains -----

  function QuicBlock(k: Kernel, port: int): Rule {
    if k.reject4 then QuicReject(port) else QuicDrop(port)
  }

  lemma {:induction false} FilterFrame(k: Kernel, cfg: Config, bypass: BypassList, s: Store)
    requires BUILTINS <= s.Keys
    requires NatChain(OutName(Prefix(cfg))) !in BUILTINS && NatChain(PreName(Prefix(cfg))) !in BUILTINS
    ensures var t := InstalledStore(k, cfg, bypass, s);
      && t[FILTER_OUTPUT] == QuicStep(k, 80, QuicStep(k, 443, s[FILTER_OUTPUT]))
      && t[FILTER_FORWARD] == (if cfg.hotspot then [Plain(Accept)] + s[FILTER_FORWARD] else s[FILTER_FORWARD])
      && DROP6 in t && t[DROP6] == Drop6Rules(k)
      && t[OUTPUT6] == [HOOK6] + RemoveFirst(s[OUTPUT6], HOOK6)
      && t[FORWARD6] == [HOOK6] + RemoveFirst(s[FORWARD6], HOOK6)
  {
  }

  lemma {:induction false} InstalledFilter(k: Kernel, cfg: Config, bypass: BypassList, s0: Store)
    requires CleanStart(cfg, s0)
    ensures var t := InstalledStore(k, cfg, bypass, s0);
      && t[FILTER_OUTPUT] == s0[FILTER_OUTPUT] + [QuicBlock(k, 443), QuicBlock(k, 80)]
      && t[FILTER_FORWARD] == (if cfg.hotspot then [Plain(Accept)] + s0[FILTER_FORWARD] else s0[FILTER_FORWARD])
      && DROP6 in t && t[DROP6] == Drop6Rules(k)
      && t[OUTPUT6] == [HOOK6] + s0[OUTPUT6]
      && t[FORWARD6] == [HOOK6] + s0[FORWARD6]
  {
    OwnNotBuiltin(cfg);
    FilterFrame(k, cfg, bypass, s0);
    QuicAbsent(cfg, s0, 443);
    QuicAbsent(cfg, s0, 80);
    TwoQuicSteps(k, s0[FILTER_OUTPUT]);
    OwnsHooks6(cfg);
    RemoveFirstAbsent(s0[OUTPUT6], HOOK6);
    RemoveFirstAbsent(s0[FORWARD6], HOOK6);
  }

  lemma {:induction false} QuicAbsent(cfg: Config, s0: Store, port: int)
    requires CleanStart(cfg, s0) && (port == 443 || port == 80)
    ensures QuicReject(port) !in s0[FILTER_OUTPUT]
    ensures QuicDrop(port) !in s0[FILTER_OUTPUT]
  {
    OwnsQuic(cfg, port);
  }

  lemma {:induction false} TwoQuicSteps(k: Kernel, rules: seq<Rule>)
    requires QuicReject(443) !in rules && QuicDrop(443) !in rules && QuicReject(80) !in rules && QuicDrop(80) !in rules
    ensures QuicStep(k, 80, QuicStep(k, 443, rules)) == rules + [QuicBlock(k, 443), QuicBlock(k, 80)]
  {
    var one := QuicStep(k, 443, rules);
    assert one == rules + [QuicBlock(k, 443)];
    assert QuicStep(k, 80, one) == one + [QuicBlock(k, 80)];
  }

  lemma {:induction false} EndsSame(s0: Store, s1: Store, ext: Ext, at: ChainId, avail0: set<ChainId>, avail1: set<ChainId>,
                                    rules: seq<Rule>, p: Packet)
    requires RefsClosed(s0) && NoBuiltinJumps(s0)
    requires forall id :: id in s0 && id !in BUILTINS ==> id in s1 && s1[id] == s0[id]
    requires forall id :: id in s0 && id !in BUILTINS ==> (id in avail0 <==> id in avail1)
    requires ListedJumps(s0, at, rules)
    ensures Ends(s1, ext, at, avail1, rules, p) <==> Ends(s0, ext, at, avail0, rules, p)
    decreases rules
  {
    if rules != [] {
      EndsSame(s0, s1, ext, at, avail0, avail1, rules[1..], p);
      var r := rules[0];
      assert r in rules;
      if r.target.Jump? {
        var to := ChainId(at.family, at.table, r.target.chain);
        if to in avail0 {
          assert ListedJumps(s0, to, s0[to]);
          EvalSame(s0, s1, ext, to, avail0 - {to}, avail1 - {to}, s0[to], p);
        }
      }
    }
  }

  /** The original filter OUTPUT chain runs to its end on this packet without a verdict or a RETURN. */
  predicate RunsOut(s: Store, ext: Ext, p: Packet)
    requires FILTER_OUTPUT in s
  {
    Ends(s, ext, FILTER_OUTPUT, s.Keys - {FILTER_OUTPUT}, s[FILTER_OUTPUT], p)
  }

  lemma {:induction false} QuicTail(k: Kernel, s: Store, ext: Ext, avail: set<ChainId>, p: Packet)
    ensures Eval(s, ext, FILTER_OUTPUT, avail, [QuicBlock(k, 443), QuicBlock(k, 80)], p)
         == if p.proto.Udp? && (p.dport == 443 || p.dport == 80) then Some(QuicBlock(k, 443).target) else None
  {
    EvalSkip(s, ext, FILTER_OUTPUT, avail, QuicBlock(k, 443), [QuicBlock(k, 80)], p);
    EvalSkip(s, ext, FILTER_OUTPUT, avail, QuicBlock(k, 80), [], p);
    assert [QuicBlock(k, 443)] + [QuicBlock(k, 80)] == [QuicBlock(k, 443), QuicBlock(k, 80)];
    assert [QuicBlock(k, 80)] + [] == [QuicBlock(k, 80)];
  }

  /**
   QUIC: the block rules stand at the end of filter OUTPUT, so outbound UDP to
   443 or 80 is stopped exactly when the original chain runs out on the packet;
   an earlier verdict or RETURN there lets it pass as before.
   */
  lemma {:induction false} FilterOutputVerdict(k: Kernel, cfg: Config, bypass: BypassList, s0: Store, ext: Ext, p: Packet)
    requires Start(cfg, s0)
    ensures Verdict(InstalledStore(k, cfg, bypass, s0), ext, FILTER_OUTPUT, p)
         == if RunsOut(s0, ext, p) && p.proto.Udp? && (p.dport == 443 || p.dport == 80)
            then Some(if k.reject4 then Reject("icmp-port-unreachable") else Drop)
            else Verdict(s0, ext, FILTER_OUTPUT, p)
  {
    var t := InstalledStore(k, cfg, bypass, s0);
    var avail := t.Keys - {FILTER_OUTPUT};
    InstalledFilter(k, cfg, bypass, s0);
    ForeignChainsKept(k, cfg, bypass, s0);
    VerdictSame(s0, t, ext, FILTER_OUTPUT, p);
    assert ListedJumps(s0, FILTER_OUTPUT, s0[FILTER_OUTPUT]);
    EndsSame(s0, t, ext, FILTER_OUTPUT, s0.Keys - {FILTER_OUTPUT}, avail, s0[FILTER_OUTPUT], p);
    EvalAppend(t, ext, FILTER_OUTPUT, avail, s0[FILTER_OUTPUT], [QuicBlock(k, 443), QuicBlock(k, 80)], p);
    QuicTail(k, t, ext, avail, p);
    EvalAppend(s0, ext, FILTER_OUTPUT, s0.Keys - {FILTER_OUTPUT}, s0[FILTER_OUTPUT], [], p);
    assert s0[FILTER_OUTPUT] + [] == s0[FILTER_OUTPUT];
  }

  lemma {:induction false} AcceptNotOwned(cfg: Config)
    ensures (FILTER_OUTPUT, Plain(Accept)) !in Owned(cfg).rules
  {
    var cl := CleanupPhases(cfg);
    OwnedFacts(cfg);
    CleanupGoShape(cfg);
    HooksDelete(cl[0].deletes, V4, NameSet(LegacyNames(Prefix(cfg))), FILTER_OUTPUT, Plain(Accept));
    QuicOnly(FILTER_OUTPUT, Plain(Accept));
    DeletedRulesAre(cl[2].deletes, FILTER_OUTPUT, Plain(Accept));
    ThreePhaseDeletes(cl, FILTER_OUTPUT, Plain(Accept));
  }

  lemma {:induction false} QuicOnly(id: ChainId, r: Rule)
    requires id == FILTER_OUTPUT && r == Plain(Accept)
    ensures DeletesOnly(FilterPhase().deletes) && Deletes(FilterPhase().deletes, id, r) == 0
  {
    DeletedRulesAre(FilterPhase().deletes, id, r);
  }

  lemma {:induction false} AcceptingStart(cfg: Config, s0: Store)
    requires s0 == EmptyTables()[FILTER_OUTPUT := [Plain(Accept)]]
    ensures Start(cfg, s0)
  {
    OwnedFacts(cfg);
    EmptyIsClean(Owned(cfg), EmptyTables());
    AcceptNotOwned(cfg);
    OneRuleClean(Owned(cfg), EmptyTables(), FILTER_OUTPUT, Plain(Accept));
  }

  lemma {:induction false} OneRuleClean(fp: Footprint, s: Store, id: ChainId, r: Rule)
    requires Clean(fp, s) && id in s && (id, r) !in fp.rules && !r.target.Jump?
    ensures Clean(fp, s[id := [r]])
  {
  }

  lemma {:induction false} AcceptsAll(s0: Store, ext: Ext, p: Packet)
    requires FILTER_OUTPUT in s0 && s0[FILTER_OUTPUT] == [Plain(Accept)]
    ensures !RunsOut(s0, ext, p) && Verdict(s0, ext, FILTER_OUTPUT, p) == Some(Accept)
  {
  }

  /** A start whose filter OUTPUT accepts everything: QUIC passes the installed rules. */
  lemma {:induction false} QuicPasses(k: Kernel, cfg: Config, bypass: BypassList, ext: Ext, p: Packet) returns (s0: Store)
    requires p.proto.Udp? && (p.dport == 443 || p.dport == 80)
    ensures Start(cfg, s0) && Verdict(InstalledStore(k, cfg, bypass, s0), ext, FILTER_OUTPUT, p) == Some(Accept)
  {
    s0 := EmptyTables()[FILTER_OUTPUT := [Plain(Accept)]];
    AcceptingStart(cfg, s0);
    AcceptsAll(s0, ext, p);
    FilterOutputVerdict(k, cfg, bypass, s0, ext, p);
  }

  /** With hotspot on, everything forwarded is accepted; otherwise FORWARD decides as before. */
  lemma {:induction false} FilterForwardVerdict(k: Kernel, cfg: Config, bypass: BypassList, s0: Store, ext: Ext, p: Packet)
    requires Start(cfg, s0)
    ensures Verdict(InstalledStore(k, cfg, bypass, s0), ext, FILTER_FORWARD, p)
         == if cfg.hotspot then Some(Accept) else Verdict(s0, ext, FILTER_FORWARD, p)
  {
    var t := InstalledStore(k, cfg, bypass, s0);
    InstalledFilter(k, cfg, bypass, s0);
    ForeignChainsKept(k, cfg, bypass, s0);
    VerdictSame(s0, t, ext, FILTER_FORWARD, p);
    EvalSkip(t, ext, FILTER_FORWARD, t.Keys - {FILTER_FORWARD}, Plain(Accept), s0[FILTER_FORWARD], p);
  }

  /** No IPv6 leaves or crosses the device except over the loopback interface. */
  lemma {:induction false} IPv6Verdict(k: Kernel, cfg: Config, bypass: BypassList, s0: Store, ext: Ext, at: ChainId, p: Packet)
    requires Start(cfg, s0) && (at == OUTPUT6 || at == FORWARD6)
    ensures Verdict(InstalledStore(k, cfg, bypass, s0), ext, at, p)
         == if p.outIface == "lo" then Verdict(s0, ext, at, p)
            else Some(if k.reject6 then Reject("icmp6-adm-prohibited") else Drop)
  {
    var t := InstalledStore(k, cfg, bypass, s0);
    var avail := t.Keys - {at};
    InstalledFilter(k, cfg, bypass, s0);
    OwnNotBuiltin(cfg);
    ForeignChainsKept(k, cfg, bypass, s0);
    VerdictSame(s0, t, ext, at, p);
    EvalSkip(t, ext, at, avail, HOOK6, s0[at], p);
    Drop6Verdict(k, t, ext, avail - {DROP6}, p);
  }

  lemma {:induction false} Drop6Verdict(k: Kernel, s: Store, ext: Ext, avail: set<ChainId>, p: Packet)
    ensures Eval(s, ext, DROP6, avail, Drop6Rules(k), p)
         == if p.outIface == "lo" then None else Some(if k.reject6 then Reject("icmp6-adm-prohibited") else Drop)
  {
    var last := if k.reject6 then Reject6() else Plain(Drop);
    EvalSkip(s, ext, DROP6, avail, last, [], p);
    assert [last] + [] == [last];
    assert Drop6Rules(k)[0] == LoopbackReturn() && Drop6Rules(k)[1..] == [last];
    assert IfaceMatches("lo", p.outIface) <==> p.outIface == "lo";
  }
}

/**
 What the result of Apply says. Apply records the errors of its redirect
 commands, drops those with one of three texts, and ignores every other
 command. The exact meaning of a nil result is in InForce; here are the runs in
 which no failure carries a dropped text, in which all do, and in which none fails.
 */
module Reports {
  import opened Common
  import opened Netfilter
  import opened Footprints
  import opened Firewall
  import opened Iptables
  import opened Ownership
  import opened Additions
  import opened Undo
  import opened Idle
  import opened BestEffort
  import opened Disturbed
  import opened InForce
  import opened Installed
  import opened Packets
  import opened Verdicts

  // ----- errors only grow -----

  /** An error that carries none of the three texts Apply drops. */
  predicate Reported(e: Error) {
    e.OtherError? || e.NotEmpty? || e.InUse? || e.NoTarget? || e.BadSpec?
  }

  /** The fault oracle never answers with one of those texts. */
  ghost predicate PlainFaults(env: Env) {
    forall n: nat :: env.faults(n).Some? ==> Reported(env.faults(n).value)
  }

  /** If no fatal error was recorded, no recorded command was failed. */
  lemma {:induction false} NoFatalIsQuiet(env: Env, m: Machine, p: Program)
    requires MustOnly(p) && PlainFaults(env)
    requires Fatal(Run(env, m, p).errs) == []
    ensures Quiet(env, m.clock, m.clock + |p|)
    ensures Fatal(m.errs) == []
    decreases p
  {
    if p != [] {
      assert p[0].Must?;
      var m1 := RunStep(env, m, p[0]);
      NoFatalIsQuiet(env, m1, p[1..]);
      var e := Outcome(env, m, p[0].cmd);
      if e.Some? {
        FatalConcat(m.errs, [e.value]);
      }
    }
  }

  // ----- success -----

  lemma {:induction false} RedirectMustOnly(cfg: Config, bypass: BypassList)
    ensures MustOnly(RedirectProgram(cfg, bypass))
    ensures |RedirectProgram(cfg, bypass)| == RedirectLength(cfg, bypass)
  {
    ChainsProgramMust(cfg, bypass);
    HooksMust(cfg);
    MustConcat(ChainsProgram(cfg, bypass), HooksProgram(cfg));
  }

  lemma {:induction false} MakeMust(prefix: string)
    ensures MustOnly(MakeChains(prefix)) && |MakeChains(prefix)| == 4
  {
  }

  lemma {:induction false} ChainsProgramMust(cfg: Config, bypass: BypassList)
    ensures MustOnly(ChainsProgram(cfg, bypass))
    ensures |ChainsProgram(cfg, bypass)| == 4 + |ChainRules(cfg, bypass, true)| + |ChainRules(cfg, bypass, false)|
  {
    MakeMust(Prefix(cfg));
    ChainsMust(MakeChains(Prefix(cfg)), NatChain(OutName(Prefix(cfg))), NatChain(PreName(Prefix(cfg))),
               ChainRules(cfg, bypass, true), ChainRules(cfg, bypass, false));
  }

  lemma {:induction false} ChainsMust(make: Program, out: ChainId, pre: ChainId, a: seq<Rule>, b: seq<Rule>)
    requires MustOnly(make)
    ensures MustOnly(make + Appends(out, a) + Appends(pre, b))
    ensures |make + Appends(out, a) + Appends(pre, b)| == |make| + |a| + |b|
  {
    AppendsMust(out, a);
    AppendsMust(pre, b);
    MustConcat(make, Appends(out, a));
    MustConcat(make + Appends(out, a), Appends(pre, b));
  }

  lemma {:induction false} HooksMust(cfg: Config)
    ensures MustOnly(HooksProgram(cfg))
  {
    IfaceInsertsMust(Ifaces(cfg), PreName(Prefix(cfg)));
  }

  lemma {:induction false} MustConcat(p: Program, q: Program)
    requires MustOnly(p) && MustOnly(q)
    ensures MustOnly(p + q)
  {
  }

  lemma {:induction false} AppendsMust(id: ChainId, rules: seq<Rule>)
    ensures MustOnly(Appends(id, rules)) && |Appends(id, rules)| == |rules|
  {
    if rules != [] {
      AppendsMust(id, rules[1..]);
    }
  }

  lemma {:induction false} IfaceInsertsMust(ifaces: seq<string>, ch: string)
    ensures MustOnly(IfaceInserts(ifaces, ch))
  {
    if ifaces != [] {
      IfaceInsertsMust(ifaces[1..], ch);
    }
  }

  lemma {:induction false} RefusedFatal(k: Kernel, f: Family, rules: seq<Rule>)
    ensures Fatal(Refused(k, f, rules)) == Refused(k, f, rules)
    ensures Refused(k, f, rules) == [] <==> forall r :: r in rules ==> ValidRule(k, f, r)
  {
    if rules != [] {
      var rest := Refused(k, f, rules[1..]);
      RefusedFatal(k, f, rules[1..]);
      FatalConcat([BadSpec], rest);
      assert rules[0] in rules;
      assert [] + rest == rest;
      assert Refused(k, f, rules) == (if ValidRule(k, f, rules[0]) then [] else [BadSpec]) + rest;
      if ValidRule(k, f, rules[0]) && rest == [] {
        forall r | r in rules ensures ValidRule(k, f, r) {
          assert r == rules[0] || r in rules[1..];
        }
      }
    }
  }

  lemma {:induction false} KeptQuiet(env: Env, clock: nat, rules: seq<Rule>)
    requires Quiet(env, clock, clock + |rules|)
    ensures Kept(env, clock, rules) == Accepted(env.kernel, V4, rules)
    decreases rules
  {
    if rules != [] {
      KeptQuiet(env, clock + 1, rules[1..]);
    }
  }

  /** If no recorded command was failed, the exempting rules shield what they are meant to. */
  lemma {:induction false} QuietShield(env: Env, making: nat, cfg: Config, bypass: BypassList, ext: Ext, p: Packet)
    requires Quiet(env, making, making + RedirectLength(cfg, bypass)) && ValidPacket(p) && p.proto.Tcp?
    ensures Decided(env, making, PlanOf(cfg, bypass))
    ensures Shielded(env, making, PlanOf(cfg, bypass), ext, p) <==> p.uid == Some(0) || Exempt(cfg, bypass, p)
  {
    var rets := PlanOf(cfg, bypass).outRets;
    assert ChainRules(cfg, bypass, true) == rets + [RedirectTo(Port(cfg))];
    KeptQuiet(env, making + 4, rets);
    ReturnsPlain(true, PrivateCidrs(), bypass, ExemptPorts(cfg));
    AcceptedMatch(env.kernel, ext, rets, p);
    ReturnsMatch(ext, true, PrivateCidrs(), bypass, ExemptPorts(cfg), p);
    ExemptListed(cfg, bypass, p);
  }

  /** A nil result without a dropped text: no recorded command was failed. */
  lemma {:induction false} NilIsQuiet(cfg: Config, s0: Store, env: Env, bypass: BypassList)
    requires CleanStart(cfg, s0) && PlainFaults(env)
    requires Fatal(Run(env, Begin(s0), ApplyProgram(cfg, bypass)).errs) == []
    ensures Quiet(env, Making(cfg), Making(cfg) + RedirectLength(cfg, bypass))
  {
    var m := Machine(s0, Making(cfg), []);
    ApplyRuns(cfg, s0, env, bypass);
    RunFatal(env, Run(env, m, RedirectProgram(cfg, bypass)), BestEffortProgram(cfg));
    RedirectMustOnly(cfg, bypass);
    NoFatalIsQuiet(env, m, RedirectProgram(cfg, bypass));
  }

  /**
   As long as no failure carries a dropped text, a nil result means that every TCP
   packet this device sends is redirected unless exempt, even if the cleanup, DNS,
   QUIC, FORWARD and IPv6 commands all failed.
   */
  lemma {:induction false} SuccessMeansRedirected(cfg: Config, s0: Store, env: Env, bypass: BypassList, ext: Ext, p: Packet)
    requires Start(cfg, s0) && PlainFaults(env) && ValidPacket(p) && p.proto.Tcp?
    requires Fatal(Run(env, Begin(s0), ApplyProgram(cfg, bypass)).errs) == []
    ensures Verdict(Run(env, Begin(s0), ApplyProgram(cfg, bypass)).store, ext, NAT_OUTPUT, p)
         == if p.uid != Some(0) && !Exempt(cfg, bypass, p) then Some(Redirect(Port(cfg)))
            else Verdict(s0, ext, NAT_OUTPUT, p)
  {
    NilIsQuiet(cfg, s0, env, bypass);
    QuietShield(env, Making(cfg), cfg, bypass, ext, p);
    NilVerdict(cfg, s0, env, bypass, ext, p);
  }

  // ----- an error of any other kind -----

  lemma {:induction false} NilSwallows(env: Env, m: Machine, p: Program, n: nat)
    requires MustOnly(p) && m.clock <= n < m.clock + |p|
    requires Fatal(Run(env, m, p).errs) == []
    ensures env.faults(n).Some? ==> Swallowed(env.faults(n).value)
    decreases p
  {
    var m1 := RunStep(env, m, p[0]);
    assert p[0].Must?;
    if n == m.clock {
      RunFatal(env, m1, p[1..]);
      MustNil(env, m, p[0].cmd);
    } else {
      NilSwallows(env, m1, p[1..], n);
    }
  }

  /** A recorded command that fails with any other error makes Apply return one. */
  lemma {:induction false} ErrorReported(cfg: Config, s0: Store, env: Env, bypass: BypassList, n: nat)
    requires CleanStart(cfg, s0) && Making(cfg) <= n < Making(cfg) + RedirectLength(cfg, bypass)
    requires env.faults(n).Some? && Reported(env.faults(n).value)
    ensures Fatal(Run(env, Begin(s0), ApplyProgram(cfg, bypass)).errs) != []
  {
    var m := Machine(s0, Making(cfg), []);
    if Fatal(Run(env, Begin(s0), ApplyProgram(cfg, bypass)).errs) == [] {
      ApplyRuns(cfg, s0, env, bypass);
      RunFatal(env, Run(env, m, RedirectProgram(cfg, bypass)), BestEffortProgram(cfg));
      RedirectMustOnly(cfg, bypass);
      NilSwallows(env, m, RedirectProgram(cfg, bypass), n);
    }
  }

  // ----- a nil result with nothing installed -----

  /** Every command fails with one of the dropped texts. */
  ghost predicate AllDropped(env: Env) {
    forall n: nat :: env.faults(n) == Some(ChainExists) || env.faults(n) == Some(NoSuchChain) || env.faults(n) == Some(NoSuchRule)
  }

  lemma {:induction false} AllFail(env: Env, m: Machine, p: Program)
    requires AllDropped(env)
    requires Fatal(m.errs) == []
    ensures Run(env, m, p).store == m.store && Fatal(Run(env, m, p).errs) == []
    decreases p
  {
    if p != [] {
      match p[0] {
        case Must(c) =>
          FatalConcat(m.errs, [env.faults(m.clock).value]);
        case FirstOk(cs) =>
          FirstOkErrs(env, m, cs);
          FirstOkFails(env, m, cs);
        case WhileOk(c, n) => WhileOkErrs(env, m, c, n);
      }
      AllFail(env, RunStep(env, m, p[0]), p[1..]);
    }
  }

  lemma {:induction false} FirstOkFails(env: Env, m: Machine, cs: seq<Command>)
    requires AllDropped(env)
    ensures RunFirstOk(env, m, cs).store == m.store
    decreases cs
  {
    if cs != [] {
      FirstOkFails(env, Tick(env, m, cs[0]), cs[1..]);
    }
  }

  /**
   If every command fails with one of the three texts that Apply drops, it
   returns nil and no rule is there.
   */
  lemma {:induction false} SilentFailure(cfg: Config, s0: Store, env: Env, bypass: BypassList)
    requires AllDropped(env)
    ensures Fatal(Run(env, Begin(s0), ApplyProgram(cfg, bypass)).errs) == []
    ensures Run(env, Begin(s0), ApplyProgram(cfg, bypass)).store == s0
  {
    AllFail(env, Begin(s0), ApplyProgram(cfg, bypass));
  }

  // ----- without faults, the result only depends on the ports -----

  ghost predicate PortsTaken(cfg: Config) {
    ValidPort(Port(cfg)) && forall x :: x in ExemptPorts(cfg) && x > 0 ==> ValidPort(x)
  }

  lemma {:induction false} PortReturnsHave(ports: seq<int>, x: int)
    requires x in ports && x > 0
    ensures PortReturn(x) in PortReturns(ports)
  {
    if ports[0] != x {
      PortReturnsHave(ports[1..], x);
    }
  }

  lemma {:induction false} PortReturnsValid(k: Kernel, ports: seq<int>)
    requires forall x :: x in ports && x > 0 ==> ValidPort(x)
    ensures forall r :: r in PortReturns(ports) ==> ValidRule(k, V4, r)
  {
    if ports != [] {
      PortReturnsValid(k, ports[1..]);
    }
  }

  lemma {:induction false} CidrReturnsValid(k: Kernel, cs: seq<Cidr>)
    ensures forall r :: r in CidrReturns(cs) ==> ValidRule(k, V4, r)
  {
    if cs != [] {
      CidrReturnsValid(k, cs[1..]);
    }
  }

  lemma {:induction false} BypassReturnsValid(k: Kernel, bypass: BypassList)
    ensures forall r :: r in BypassReturns(bypass) ==> ValidRule(k, V4, r)
  {
    if bypass != [] {
      BypassReturnsValid(k, bypass[1..]);
    }
  }

  lemma {:induction false} RulesValid(k: Kernel, isOutput: bool, cidrs: seq<Cidr>, bypass: BypassList, ports: seq<int>, redirect: int)
    ensures (forall r :: r in RulesFor(isOutput, cidrs, bypass, ports, redirect) ==> ValidRule(k, V4, r))
       <==> ValidPort(redirect) && forall x :: x in ports && x > 0 ==> ValidPort(x)
  {
    var rules := RulesFor(isOutput, cidrs, bypass, ports, redirect);
    CidrReturnsValid(k, cidrs);
    BypassReturnsValid(k, bypass);
    if ValidPort(redirect) && forall x :: x in ports && x > 0 ==> ValidPort(x) {
      PortReturnsValid(k, ports);
    }
    if forall r :: r in rules ==> ValidRule(k, V4, r) {
      assert RedirectTo(redirect) in rules;
      forall x | x in ports && x > 0 ensures ValidPort(x) {
        PortReturnsHave(ports, x);
        assert PortReturn(x) in rules;
      }
    }
  }

  lemma {:induction false} ChainRulesValid(k: Kernel, cfg: Config, bypass: BypassList, isOutput: bool)
    ensures (forall r :: r in ChainRules(cfg, bypass, isOutput) ==> ValidRule(k, V4, r)) <==> PortsTaken(cfg)
  {
    RulesValid(k, isOutput, PrivateCidrs(), bypass, ExemptPorts(cfg), Port(cfg));
  }

  /** Without faults and from a clean start, Apply returns nil iff iptables takes every configured port. */
  lemma {:induction false} FaultFreeResult(cfg: Config, s0: Store, env: Env, bypass: BypassList)
    requires CleanStart(cfg, s0) && FaultFree(env)
    ensures Fatal(Run(env, Begin(s0), ApplyProgram(cfg, bypass)).errs) == []
       <==> cfg.apiPort <= 65535 && cfg.socksPort <= 65535 && cfg.tcpPort <= 65535 && cfg.dnsForwardPort <= 65535
  {
    var p0, p1, p2 := CleanerProgram(RulesPhases(cfg)), RedirectProgram(cfg, bypass), BestEffortProgram(cfg);
    var m1 := Run(env, Begin(s0), p0);
    Run3(env, Begin(s0), p0, p1, p2);
    RulesCleanupOnClean(cfg, env, Begin(s0));
    BestEffortAside(cfg);
    NoMustErrs(env, Run(env, m1, p1), p2);
    OwnChainsOwned(cfg);
    RunRedirect(env, m1, cfg, bypass);
    assert [] + RedirectErrors(env.kernel, cfg, bypass) == RedirectErrors(env.kernel, cfg, bypass);
    FatalConcat(Refused(env.kernel, V4, ChainRules(cfg, bypass, true)), Refused(env.kernel, V4, ChainRules(cfg, bypass, false)));
    RefusedFatal(env.kernel, V4, ChainRules(cfg, bypass, true));
    RefusedFatal(env.kernel, V4, ChainRules(cfg, bypass, false));
    ChainRulesValid(env.kernel, cfg, bypass, true);
    ChainRulesValid(env.kernel, cfg, bypass, false);
    PortsTakenMeans(cfg);
  }

  lemma {:induction false} PortsTakenMeans(cfg: Config)
    ensures PortsTaken(cfg) <==> cfg.apiPort <= 65535 && cfg.socksPort <= 65535 && cfg.tcpPort <= 65535 && cfg.dnsForwardPort <= 65535
  {
    var ports := ExemptPorts(cfg);
    assert ports[0] in ports && ports[1] in ports && ports[2] in ports && ports[3] in ports;
  }
}

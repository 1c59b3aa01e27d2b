/**
 The daemon's and the cleanup script's imperative code over the rule tables:
 loops that issue one iptables command at a time. `Now()` is the whole state.
 */
module Iptables {
  import opened Common
  import opened Netfilter
  import opened Footprints
  import opened Firewall
  import opened Cleaners

  lemma {:induction false} RunSnoc(env: Env, m: Machine, p: Program, step: Step)
    ensures Run(env, m, p + [step]) == RunStep(env, Run(env, m, p), step)
  {
    RunConcat(env, m, p, [step]);
    assert [step][1..] == [];
  }

  lemma {:induction false} Run3(env: Env, m: Machine, p: Program, q: Program, r: Program)
    ensures Run(env, m, p + q + r) == Run(env, Run(env, Run(env, m, p), q), r)
  {
    RunConcat(env, m, p + q, r);
    RunConcat(env, m, p, q);
  }

  lemma {:induction false} RunEither(env: Env, m: Machine, first: Command, second: Command)
    ensures RunStep(env, m, FirstOk([first, second]))
         == if Outcome(env, m, first).None? then Tick(env, m, first) else Tick(env, Tick(env, m, first), second)
  {
    BestIsTick(env, Tick(env, m, first), second);
    assert [first, second][1..] == [second];
  }

  /** Each command runs if those before it failed. */
  lemma {:induction false} FourthOnly(env: Env, m: Machine, a: Command, b: Command, c: Command, d: Command)
    ensures RunFirstOk(env, m, [a, b, c, d])
         == if Outcome(env, m, a).None? then Tick(env, m, a)
            else var m1 := Tick(env, m, a);
            if Outcome(env, m1, b).None? then Tick(env, m1, b)
            else var m2 := Tick(env, m1, b);
            if Outcome(env, m2, c).None? then Tick(env, m2, c) else Tick(env, Tick(env, m2, c), d)
  {
    var cs := [a, b, c, d];
    var m2 := Tick(env, Tick(env, m, a), b);
    assert cs[1..] == [b, c, d] && cs[1..][1..] == [c, d];
    RunEither(env, m2, c, d);
  }

  lemma {:induction false} TwoPhases(a: Phase, b: Phase, p: Program, q: Program)
    requires b == Phase(p + q, [])
    ensures CleanerProgram([a, b]) == PhaseProgram(a) + p + q
  {
    assert [a, b][1..] == [b] && [b][1..] == [];
    assert CleanerProgram([b]) == PhaseProgram(b) + [];
    assert PhaseProgram(b) == p + q;
  }

  function IfacePair(at: ChainId, iface: string, ch: string): Program {
    [Best(Delete(at, IfaceTcpJump(iface, ch))), Best(Delete(at, IfaceJump(iface, ch)))]
  }

  lemma {:induction false} NextIface(env: Env, m: Machine, at: ChainId, ch: string, ifaces: seq<string>, i: nat)
    requires i < |ifaces|
    ensures Run(env, m, IfaceDeletes(ifaces[i..], at, ch))
         == Run(env, if Blank(ifaces[i]) then m else Run(env, m, IfacePair(at, ifaces[i], ch)), IfaceDeletes(ifaces[i + 1..], at, ch))
  {
    assert ifaces[i..][1..] == ifaces[i + 1..];
    var rest := IfaceDeletes(ifaces[i + 1..], at, ch);
    if Blank(ifaces[i]) {
      assert [] + rest == rest;
    } else {
      RunConcat(env, m, IfacePair(at, ifaces[i], ch), rest);
    }
  }

  lemma {:induction false} NextBypass(bypass: BypassList, i: nat, rules: seq<Rule>)
    requires i < |bypass|
    ensures rules + BypassReturns(bypass[i..])
         == (if bypass[i].Some? then rules + [DstReturn(Cidr(bypass[i].value, 32))] else rules) + BypassReturns(bypass[i + 1..])
  {
    assert bypass[i..][1..] == bypass[i + 1..];
  }

  lemma {:induction false} NextPort(ports: seq<int>, i: nat, rules: seq<Rule>)
    requires i < |ports|
    ensures rules + PortReturns(ports[i..])
         == (if ports[i] > 0 then rules + [PortReturn(ports[i])] else rules) + PortReturns(ports[i + 1..])
  {
    assert ports[i..][1..] == ports[i + 1..];
  }

  lemma {:induction false} FatalFrom(all: seq<Error>, i: nat, fatal: seq<Error>)
    requires i < |all|
    ensures fatal + Fatal(all[i..]) == (if Swallowed(all[i]) then fatal else fatal + [all[i]]) + Fatal(all[i + 1..])
  {
    assert all[i..][1..] == all[i + 1..];
    assert Fatal(all[i..]) == (if Swallowed(all[i]) then [] else [all[i]]) + Fatal(all[i + 1..]);
  }

  class Tables {
    const env: Env
    var store: Store
    var clock: nat
    var errs: seq<Error>   // the `errs` slice of the Apply call in progress

    constructor (env: Env, store: Store)
      ensures this.env == env && Now() == Machine(store, 0, [])
    {
      this.env, this.store, this.clock, this.errs := env, store, 0, [];
    }

    function Now(): Machine
      reads this
    {
      Machine(store, clock, errs)
    }

    /** Run one iptables command. */
    method Ipt(c: Command) returns (err: Option<Error>)
      modifies this
      ensures Now() == Tick(env, old(Now()), c)
      ensures err == Outcome(env, old(Now()), c)
    {
      err := Outcome(env, Now(), c);
      store, clock := Tick(env, Now(), c).store, clock + 1;
    }

    /** A command whose error is ignored, as the next step after `done`. */
    method Ignore(c: Command, ghost start: Machine, ghost done: Program)
      requires Now() == Run(env, start, done)
      modifies this
      ensures Now() == Run(env, start, done + [Best(c)])
    {
      RunSnoc(env, start, done, Best(c));
      BestIsTick(env, Now(), c);
      var _ := Ipt(c);
    }

    /** The same for step k of a program known in advance. */
    method IgnoreAt(c: Command, ghost start: Machine, ghost p: Program, ghost k: nat)
      requires k < |p| && p[k] == Best(c)
      requires Now() == Run(env, start, p[..k])
      modifies this
      ensures Now() == Run(env, start, p[..k + 1])
    {
      Ignore(c, start, p[..k]);
      assert p[..k] + [p[k]] == p[..k + 1];
    }

    /** A command whose error is appended to errs: the `run` closure of Apply. */
    method Record(c: Command, ghost start: Machine, ghost done: Program)
      requires Now() == Run(env, start, done)
      modifies this
      ensures Now() == Run(env, start, done + [Must(c)])
    {
      RunSnoc(env, start, done, Must(c));
      var err := Ipt(c);
      if err.Some? {
        errs := errs + [err.value];
      }
    }

    // ----- cleanup -----

    method DetachIfaces(at: ChainId, ch: string, ifaces: seq<string>)
      modifies this
      ensures Now() == Run(env, old(Now()), IfaceDeletes(ifaces, at, ch))
    {
      ghost var start := Now();
      for i := 0 to |ifaces|
        invariant Run(env, start, IfaceDeletes(ifaces, at, ch)) == Run(env, Now(), IfaceDeletes(ifaces[i..], at, ch))
      {
        NextIface(env, Now(), at, ch, ifaces, i);
        if !Blank(ifaces[i]) {
          ghost var m := Now();
          ghost var one := [Best(Delete(at, IfaceTcpJump(ifaces[i], ch)))];
          Ignore(Delete(at, IfaceTcpJump(ifaces[i], ch)), m, []);
          assert [] + one == one;
          Ignore(Delete(at, IfaceJump(ifaces[i], ch)), m, one);
          assert one + [Best(Delete(at, IfaceJump(ifaces[i], ch)))] == IfacePair(at, ifaces[i], ch);
        }
      }
    }

    /** The five hook shapes of one chain that do not name an interface. */
    method DetachFixed(ch: string)
      modifies this
      ensures Now() == Run(env, old(Now()), FixedDeletes(ch))
    {
      ghost var start := Now();
      ghost var p := FixedDeletes(ch);
      assert p[..0] == [];
      IgnoreAt(Delete(NAT_OUTPUT, TcpJump(ch)), start, p, 0);
      IgnoreAt(Delete(NAT_OUTPUT, AnyJump(ch)), start, p, 1);
      IgnoreAt(Delete(NAT_OUTPUT, DnsJump(ch)), start, p, 2);
      IgnoreAt(Delete(NAT_PREROUTING, TcpJump(ch)), start, p, 3);
      IgnoreAt(Delete(NAT_PREROUTING, AnyJump(ch)), start, p, 4);
      assert p[..5] == p;
    }

    /** All hook shapes of one chain. */
    method DetachChain(ch: string, ifaces: seq<string>)
      modifies this
      ensures Now() == Run(env, old(Now()), FixedDeletes(ch) + IfaceDeletes(ifaces, NAT_PREROUTING, ch))
    {
      RunConcat(env, Now(), FixedDeletes(ch), IfaceDeletes(ifaces, NAT_PREROUTING, ch));
      DetachFixed(ch);
      DetachIfaces(NAT_PREROUTING, ch, ifaces);
    }

    /** Phase 1: detach all hook shapes of all chains. */
    method DetachHooks(names: seq<string>, ifaces: seq<string>)
      modifies this
      ensures Now() == Run(env, old(Now()), HookDeletes(names, ifaces))
    {
      ghost var start := Now();
      for i := 0 to |names|
        invariant Run(env, start, HookDeletes(names, ifaces)) == Run(env, Now(), HookDeletes(names[i..], ifaces))
      {
        assert names[i..][0] == names[i] && names[i..][1..] == names[i + 1..];
        RunConcat(env, Now(), FixedDeletes(names[i]) + IfaceDeletes(ifaces, NAT_PREROUTING, names[i]),
                  HookDeletes(names[i + 1..], ifaces));
        DetachChain(names[i], ifaces);
      }
    }

    /** Phase 2: flush, then delete each chain. */
    method RemoveChains(chains: seq<ChainId>)
      modifies this
      ensures Now() == Run(env, old(Now()), Removals(chains))
    {
      ghost var start, done := Now(), [];
      for i := 0 to |chains|
        invariant Now() == Run(env, start, done)
        invariant Removals(chains) == done + Removals(chains[i..])
      {
        Ignore(Flush(chains[i]), start, done);
        done := done + [Best(Flush(chains[i]))];
        Ignore(DeleteChain(chains[i]), start, done);
        done := done + [Best(DeleteChain(chains[i]))];
        assert chains[i..][1..] == chains[i + 1..];
      }
      assert done == Removals(chains);
    }

    /** `for i := 0; i < times; i++ { if -D fails { break } }` */
    method DeleteUpTo(c: Command, times: nat)
      modifies this
      ensures Now() == RunWhileOk(env, old(Now()), c, times)
    {
      var i := 0;
      while i < times
        invariant 0 <= i <= times
        invariant RunWhileOk(env, old(Now()), c, times) == RunWhileOk(env, Now(), c, times - i)
      {
        var err := Ipt(c);
        if err.Some? {
          return;
        }
        i := i + 1;
      }
    }

    method UnblockQUIC()
      modifies this
      ensures Now() == Run(env, old(Now()), QuicDeletes())
    {
      ghost var start := Now();
      ghost var p := QuicDeletes();
      for i := 0 to 2
        invariant Now() == Run(env, start, p[..2 * i])
      {
        var port := if i == 0 then 443 else 80;
        RunSnoc(env, start, p[..2 * i], p[2 * i]);
        assert p[..2 * i] + [p[2 * i]] == p[..2 * i + 1];
        DeleteUpTo(Delete(FILTER_OUTPUT, QuicDrop(port)), 4);
        RunSnoc(env, start, p[..2 * i + 1], p[2 * i + 1]);
        assert p[..2 * i + 1] + [p[2 * i + 1]] == p[..2 * (i + 1)];
        DeleteUpTo(Delete(FILTER_OUTPUT, QuicReject(port)), 4);
      }
      assert p[..4] == p;
    }

    /** The IPv4 part of a cleanup, up to the FORWARD rule. */
    method CleanNat(prefix: string, ifaces: seq<string>)
      modifies this
      ensures Now() == Run(env, old(Now()), PhaseProgram(NatPhase(prefix, ifaces)) + ForwardDelete())
    {
      ghost var start := Now();
      var names := LegacyNames(prefix);
      DetachHooks(names, ifaces);
      RemoveChains(ChainsOf(V4, Nat, names));
      ghost var ph := PhaseProgram(NatPhase(prefix, ifaces));
      RunConcat(env, start, HookDeletes(names, ifaces), Removals(ChainsOf(V4, Nat, names)));
      Ignore(Delete(FILTER_FORWARD, Plain(Accept)), start, ph);
    }

    method CleanupRules(cfg: Config)
      modifies this
      ensures Now() == Run(env, old(Now()), CleanerProgram(RulesPhases(cfg)))
    {
      ghost var start := Now();
      CleanNat(Prefix(cfg), Ifaces(cfg));
      UnblockQUIC();
      RunConcat(env, start, PhaseProgram(NatPhase(Prefix(cfg), Ifaces(cfg))) + ForwardDelete(), QuicDeletes());
      TwoPhases(NatPhase(Prefix(cfg), Ifaces(cfg)), FilterPhase(), ForwardDelete(), QuicDeletes());
    }

    method EnableIPv6()
      modifies this
      ensures Now() == Run(env, old(Now()), PhaseProgram(EnableIPv6Phase()))
    {
      ghost var start := Now();
      ghost var p := PhaseProgram(EnableIPv6Phase());
      assert Removals([DROP6]) == [Best(Flush(DROP6)), Best(DeleteChain(DROP6))];
      assert p[..0] == [];
      IgnoreAt(Delete(OUTPUT6, AnyJump(DROP6_NAME)), start, p, 0);
      IgnoreAt(Delete(FORWARD6, AnyJump(DROP6_NAME)), start, p, 1);
      IgnoreAt(Flush(DROP6), start, p, 2);
      IgnoreAt(DeleteChain(DROP6), start, p, 3);
      assert p[..4] == p;
    }

    /** Remove everything Apply puts into the rule tables. */
    method Cleanup(cfg: Config)
      modifies this
      ensures Now() == Run(env, old(Now()), CleanupProgram(cfg))
    {
      ghost var start := Now();
      CleanupRules(cfg);
      EnableIPv6();
      RunConcat(env, start, CleanerProgram(RulesPhases(cfg)), PhaseProgram(EnableIPv6Phase()));
      CleanupSplits(cfg);
    }

    // ----- Apply -----

    method AppendRule(id: ChainId, r: Rule, ghost start: Machine, ghost rules: seq<Rule>)
      requires Now() == Run(env, start, Appends(id, rules))
      modifies this
      ensures Now() == Run(env, start, Appends(id, rules + [r]))
    {
      Record(Append(id, r), start, Appends(id, rules));
      AppendsConcat(id, rules, [r]);
      assert Appends(id, [r]) == [Must(Append(id, r))];
    }

    method AppendCidrs(id: ChainId, cidrs: seq<Cidr>)
      modifies this
      ensures Now() == Run(env, old(Now()), Appends(id, CidrReturns(cidrs)))
    {
      ghost var start, rules := Now(), [];
      for i := 0 to |cidrs|
        invariant Now() == Run(env, start, Appends(id, rules))
        invariant CidrReturns(cidrs) == rules + CidrReturns(cidrs[i..])
      {
        assert cidrs[i..][1..] == cidrs[i + 1..];
        AppendRule(id, DstReturn(cidrs[i]), start, rules);
        rules := rules + [DstReturn(cidrs[i])];
      }
      assert rules == CidrReturns(cidrs);
    }

    method AppendBypasses(id: ChainId, bypass: BypassList)
      modifies this
      ensures Now() == Run(env, old(Now()), Appends(id, BypassReturns(bypass)))
    {
      ghost var start, rules := Now(), [];
      for i := 0 to |bypass|
        invariant Now() == Run(env, start, Appends(id, rules))
        invariant BypassReturns(bypass) == rules + BypassReturns(bypass[i..])
      {
        NextBypass(bypass, i, rules);
        if bypass[i].Some? {
          var r := DstReturn(Cidr(bypass[i].value, 32));
          AppendRule(id, r, start, rules);
          rules := rules + [r];
        }
      }
      assert rules == BypassReturns(bypass);
    }

    method AppendPorts(id: ChainId, ports: seq<int>)
      modifies this
      ensures Now() == Run(env, old(Now()), Appends(id, PortReturns(ports)))
    {
      ghost var start, rules := Now(), [];
      for i := 0 to |ports|
        invariant Now() == Run(env, start, Appends(id, rules))
        invariant PortReturns(ports) == rules + PortReturns(ports[i..])
      {
        NextPort(ports, i, rules);
        if ports[i] > 0 {
          AppendRule(id, PortReturn(ports[i]), start, rules);
          rules := rules + [PortReturn(ports[i])];
        }
      }
      assert rules == PortReturns(ports);
    }

    method AddRules(id: ChainId, isOutput: bool, cidrs: seq<Cidr>, bypass: BypassList, ports: seq<int>, redirect: int)
      modifies this
      ensures Now() == Run(env, old(Now()), Appends(id, RulesFor(isOutput, cidrs, bypass, ports, redirect)))
    {
      ghost var start := Now();
      ghost var root := if isOutput then [RootReturn()] else [];
      if isOutput {
        assert Appends(id, []) == [] && [] + [RootReturn()] == root;
        AppendRule(id, RootReturn(), start, []);
      }
      AppendCidrs(id, cidrs);
      RunAppends(env, start, id, root, CidrReturns(cidrs));
      AppendBypasses(id, bypass);
      RunAppends(env, start, id, root + CidrReturns(cidrs), BypassReturns(bypass));
      AppendPorts(id, ports);
      RunAppends(env, start, id, root + CidrReturns(cidrs) + BypassReturns(bypass), PortReturns(ports));
      AppendRule(id, RedirectTo(redirect), start, root + CidrReturns(cidrs) + BypassReturns(bypass) + PortReturns(ports));
    }

    method AddBypasses(cfg: Config, bypass: BypassList, ch: string, isOutput: bool)
      modifies this
      ensures Now() == Run(env, old(Now()), Appends(NatChain(ch), ChainRules(cfg, bypass, isOutput)))
    {
      AddRules(NatChain(ch), isOutput, PrivateCidrs(), bypass, ExemptPorts(cfg), Port(cfg));
    }

    method CreateChains(prefix: string)
      modifies this
      ensures Now() == Run(env, old(Now()), MakeChains(prefix))
    {
      ghost var start := Now();
      ghost var p := MakeChains(prefix);
      Record(New(NatChain(OutName(prefix))), start, []);
      Record(Flush(NatChain(OutName(prefix))), start, [p[0]]);
      Record(New(NatChain(PreName(prefix))), start, [p[0], p[1]]);
      Record(Flush(NatChain(PreName(prefix))), start, [p[0], p[1], p[2]]);
      assert p == [p[0], p[1], p[2]] + [p[3]];
    }

    method HookIfaces(ifaces: seq<string>, ch: string)
      modifies this
      ensures Now() == Run(env, old(Now()), IfaceInserts(ifaces, ch))
    {
      ghost var start, done := Now(), [];
      for i := 0 to |ifaces|
        invariant Now() == Run(env, start, done)
        invariant IfaceInserts(ifaces, ch) == done + IfaceInserts(ifaces[i..], ch)
      {
        if !Blank(ifaces[i]) {
          Record(Insert(NAT_PREROUTING, IfaceTcpJump(ifaces[i], ch)), start, done);
          done := done + [Must(Insert(NAT_PREROUTING, IfaceTcpJump(ifaces[i], ch)))];
        }
        assert ifaces[i..][1..] == ifaces[i + 1..];
      }
      assert done == IfaceInserts(ifaces, ch);
    }

    method SetupDNSForward(prefix: string, port: int)
      modifies this
      ensures Now() == Run(env, old(Now()), DnsProgram(prefix, port))
    {
      if port <= 0 {
        return;
      }
      ghost var start := Now();
      var chain, hook := NatChain(DnsName(prefix)), DnsJump(DnsName(prefix));
      ghost var p := DnsProgram(prefix, port);
      RunSnoc(env, start, [], p[0]);
      OrElse(List(chain), New(chain));
      assert [] + [p[0]] == p[..1];
      IgnoreAt(Flush(chain), start, p, 1);
      IgnoreAt(Append(chain, RootReturn()), start, p, 2);
      IgnoreAt(Append(chain, DnsDnat(port)), start, p, 3);
      IgnoreAt(Delete(NAT_OUTPUT, hook), start, p, 4);
      IgnoreAt(Insert(NAT_OUTPUT, hook), start, p, 5);
      assert p[..6] == p;
    }

    /** `if first fails { second }` */
    method OrElse(first: Command, second: Command)
      modifies this
      ensures Now() == RunStep(env, old(Now()), FirstOk([first, second]))
    {
      RunEither(env, Now(), first, second);
      var err := Ipt(first);
      if err.Some? {
        var _ := Ipt(second);
      }
    }

    method BlockQUIC()
      modifies this
      ensures Now() == Run(env, old(Now()), QuicProgram())
    {
      ghost var start := Now();
      ghost var p := QuicProgram();
      for i := 0 to 2
        invariant Now() == Run(env, start, p[..i])
      {
        var port := if i == 0 then 443 else 80;
        RunSnoc(env, start, p[..i], p[i]);
        assert p[..i] + [p[i]] == p[..i + 1];
        FourthOnly(env, Now(), Check(FILTER_OUTPUT, QuicReject(port)), Append(FILTER_OUTPUT, QuicReject(port)),
                   Check(FILTER_OUTPUT, QuicDrop(port)), Append(FILTER_OUTPUT, QuicDrop(port)));
        var err := Ipt(Check(FILTER_OUTPUT, QuicReject(port)));
        if err.Some? {
          err := Ipt(Append(FILTER_OUTPUT, QuicReject(port)));
          if err.Some? {
            // REJECT is not available on some kernels: fall back to DROP.
            err := Ipt(Check(FILTER_OUTPUT, QuicDrop(port)));
            if err.Some? {
              var _ := Ipt(Append(FILTER_OUTPUT, QuicDrop(port)));
            }
          }
        }
      }
      assert p[..2] == p;
    }

    method DisableIPv6()
      modifies this
      ensures Now() == Run(env, old(Now()), IPv6Program())
    {
      ghost var start := Now();
      ghost var p := IPv6Program();
      RunSnoc(env, start, [], p[0]);
      OrElse(List(DROP6), New(DROP6));
      assert [] + [p[0]] == p[..1];
      IgnoreAt(Flush(DROP6), start, p, 1);
      IgnoreAt(Append(DROP6, LoopbackReturn()), start, p, 2);
      RunSnoc(env, start, p[..3], p[3]);
      assert p[..3] + [p[3]] == p[..4];
      OrElse(Append(DROP6, Reject6()), Append(DROP6, Plain(Drop)));
      IgnoreAt(Delete(OUTPUT6, AnyJump(DROP6_NAME)), start, p, 4);
      IgnoreAt(Insert(OUTPUT6, AnyJump(DROP6_NAME)), start, p, 5);
      IgnoreAt(Delete(FORWARD6, AnyJump(DROP6_NAME)), start, p, 6);
      IgnoreAt(Insert(FORWARD6, AnyJump(DROP6_NAME)), start, p, 7);
      assert p[..8] == p;
    }

    method InstallChains(cfg: Config, bypass: BypassList)
      modifies this
      ensures Now() == Run(env, old(Now()), ChainsProgram(cfg, bypass))
    {
      ghost var start := Now();
      ghost var p2 := Appends(NatChain(OutName(Prefix(cfg))), ChainRules(cfg, bypass, true));
      ghost var p3 := Appends(NatChain(PreName(Prefix(cfg))), ChainRules(cfg, bypass, false));
      Run3(env, start, MakeChains(Prefix(cfg)), p2, p3);
      CreateChains(Prefix(cfg));
      AddBypasses(cfg, bypass, OutName(Prefix(cfg)), true);
      AddBypasses(cfg, bypass, PreName(Prefix(cfg)), false);
    }

    method InstallHooks(cfg: Config)
      modifies this
      ensures Now() == Run(env, old(Now()), HooksProgram(cfg))
    {
      ghost var start := Now();
      var hook := Insert(NAT_OUTPUT, TcpJump(OutName(Prefix(cfg))));
      Record(hook, start, []);
      assert [] + [Must(hook)] == [Must(hook)];
      if cfg.hotspot {
        RunConcat(env, start, [Must(hook)], IfaceInserts(Ifaces(cfg), PreName(Prefix(cfg))));
        HookIfaces(Ifaces(cfg), PreName(Prefix(cfg)));
      } else {
        assert [Must(hook)] + [] == [Must(hook)];
      }
    }

    /** The commands whose errors are ignored. */
    method InstallBestEffort(cfg: Config)
      modifies this
      ensures Now() == Run(env, old(Now()), BestEffortProgram(cfg))
    {
      ghost var start := Now();
      ghost var fwd, dns := ForwardAccept(cfg), DnsProgram(Prefix(cfg), cfg.dnsForwardPort);
      if cfg.hotspot {
        Ignore(Insert(FILTER_FORWARD, Plain(Accept)), start, []);
        assert [] + fwd == fwd;
      }
      SetupDNSForward(Prefix(cfg), cfg.dnsForwardPort);
      RunConcat(env, start, fwd, dns);
      BlockQUIC();
      RunConcat(env, start, fwd + dns, QuicProgram());
      DisableIPv6();
      RunConcat(env, start, fwd + dns + QuicProgram(), IPv6Program());
    }

    /**
     Install the chains, the hooks and the leak blocks. The result is the error
     list after the swallowed texts are filtered out; empty means success.
     */
    method Apply(cfg: Config, bypass: BypassList) returns (fatal: seq<Error>)
      modifies this
      ensures Now() == Run(env, old(Now()).(errs := []), ApplyProgram(cfg, bypass))
      ensures fatal == Fatal(errs)
    {
      errs := [];
      Run3(env, Now(), CleanerProgram(RulesPhases(cfg)), RedirectProgram(cfg, bypass), BestEffortProgram(cfg));
      CleanupRules(cfg);
      RunConcat(env, Now(), ChainsProgram(cfg, bypass), HooksProgram(cfg));
      InstallChains(cfg, bypass);
      InstallHooks(cfg);
      InstallBestEffort(cfg);
      fatal := FatalErrors();
    }

    /** Filter the swallowed texts out of the error list. */
    method FatalErrors() returns (fatal: seq<Error>)
      ensures fatal == Fatal(errs)
    {
      fatal := [];
      var all := errs;
      for i := 0 to |all|
        invariant Fatal(all) == fatal + Fatal(all[i..])
      {
        FatalFrom(all, i, fatal);
        if !Swallowed(all[i]) {
          fatal := fatal + [all[i]];
        }
      }
    }

    // ----- net_clean.sh -----

    method ScriptDetachChain6(ch: string, ifaces: seq<string>)
      modifies this
      ensures Now() == Run(env, old(Now()),
                           ScriptFixedDeletes6(ch) + IfaceDeletes(ifaces, ChainId(V6, Nat, "PREROUTING"), ch))
    {
      ghost var start := Now();
      ghost var p := ScriptFixedDeletes6(ch);
      RunConcat(env, start, p, IfaceDeletes(ifaces, ChainId(V6, Nat, "PREROUTING"), ch));
      assert p[..0] == [];
      IgnoreAt(Delete(OUTPUT6, AnyJump(ch)), start, p, 0);
      IgnoreAt(Delete(FORWARD6, AnyJump(ch)), start, p, 1);
      IgnoreAt(Delete(ChainId(V6, Nat, "OUTPUT"), TcpJump(ch)), start, p, 2);
      IgnoreAt(Delete(ChainId(V6, Nat, "OUTPUT"), AnyJump(ch)), start, p, 3);
      IgnoreAt(Delete(ChainId(V6, Nat, "PREROUTING"), TcpJump(ch)), start, p, 4);
      IgnoreAt(Delete(ChainId(V6, Nat, "PREROUTING"), AnyJump(ch)), start, p, 5);
      assert p[..6] == p;
      DetachIfaces(ChainId(V6, Nat, "PREROUTING"), ch, ifaces);
    }

    method ScriptDetach6(names: seq<string>, ifaces: seq<string>)
      modifies this
      ensures Now() == Run(env, old(Now()), ScriptDeletes6(names, ifaces))
    {
      ghost var start := Now();
      for i := 0 to |names|
        invariant Run(env, start, ScriptDeletes6(names, ifaces)) == Run(env, Now(), ScriptDeletes6(names[i..], ifaces))
      {
        assert names[i..][0] == names[i] && names[i..][1..] == names[i + 1..];
        RunConcat(env, Now(), ScriptFixedDeletes6(names[i]) + IfaceDeletes(ifaces, ChainId(V6, Nat, "PREROUTING"), names[i]),
                  ScriptDeletes6(names[i + 1..], ifaces));
        ScriptDetachChain6(names[i], ifaces);
      }
    }

    /** clean_v4, clean_v6 and clean_quic of the script. */
    method NetClean()
      modifies this
      ensures Now() == Run(env, old(Now()), CleanerProgram(ScriptPhases()))
    {
      CleanWith(DEFAULT_PREFIX, DEFAULT_IFACES, SCRIPT_NAMES6);
    }

    /** The script's three functions, for its chain and interface lists. */
    method CleanWith(prefix: string, ifaces: seq<string>, names6: seq<string>)
      modifies this
      ensures Now() == Run(env, old(Now()), CleanerProgram(ScriptPhasesFor(prefix, ifaces, names6)))
    {
      ghost var start := Now();
      ghost var v4 := NatPhase(prefix, ifaces);
      ghost var d6, c6 := ScriptDeletes6(names6, ifaces), ScriptChains6(names6);
      CleanNat(prefix, ifaces);
      ScriptDetach6(names6, ifaces);
      RunConcat(env, start, PhaseProgram(v4) + ForwardDelete(), d6);
      RemoveChains(ScriptChains6(names6));
      RunConcat(env, start, PhaseProgram(v4) + ForwardDelete() + d6, Removals(c6));
      UnblockQUIC();
      RunConcat(env, start, PhaseProgram(v4) + ForwardDelete() + d6 + Removals(c6), QuicDeletes());
      ThreePhases(v4, ForwardDelete(), d6, c6, QuicDeletes());
    }
  }

  lemma {:induction false} CleanupSplits(cfg: Config)
    ensures CleanupProgram(cfg) == CleanerProgram(RulesPhases(cfg)) + PhaseProgram(EnableIPv6Phase())
  {
    CleanerConcat(RulesPhases(cfg), [EnableIPv6Phase()]);
    assert CleanupPhases(cfg) == RulesPhases(cfg) + [EnableIPv6Phase()];
    assert [EnableIPv6Phase()][1..] == [];
  }

  lemma {:induction false} CleanerConcat(a: seq<Phase>, b: seq<Phase>)
    ensures CleanerProgram(a + b) == CleanerProgram(a) + CleanerProgram(b)
  {
    if a == [] {
      assert a + b == b;
    } else {
      assert (a + b)[0] == a[0] && (a + b)[1..] == a[1..] + b;
      CleanerConcat(a[1..], b);
    }
  }

  lemma {:induction false} ThreePhases(a: Phase, f: Program, d: Program, chains: seq<ChainId>, q: Program)
    ensures CleanerProgram([a, Phase(f + d, chains), Phase(q, [])])
         == PhaseProgram(a) + f + d + Removals(chains) + q
  {
    var ph := [a, Phase(f + d, chains), Phase(q, [])];
    assert CleanerProgram([ph[2]]) == q by {
      assert [ph[2]][1..] == [] && Removals([]) == [];
    }
    assert CleanerProgram([ph[1], ph[2]]) == f + d + Removals(chains) + q by {
      assert [ph[1], ph[2]][1..] == [ph[2]];
    }
    assert ph[1..] == [ph[1], ph[2]];
  }

  lemma {:induction false} RunAppends(env: Env, m: Machine, id: ChainId, a: seq<Rule>, b: seq<Rule>)
    ensures Run(env, m, Appends(id, a + b)) == Run(env, Run(env, m, Appends(id, a)), Appends(id, b))
  {
    AppendsConcat(id, a, b);
    RunConcat(env, m, Appends(id, a), Appends(id, b));
  }

  lemma {:induction false} AppendsConcat(id: ChainId, a: seq<Rule>, b: seq<Rule>)
    ensures Appends(id, a + b) == Appends(id, a) + Appends(id, b)
  {
    if a == [] {
      assert a + b == b;
    } else {
      assert (a + b)[0] == a[0] && (a + b)[1..] == a[1..] + b;
      AppendsConcat(id, a[1..], b);
    }
  }
}

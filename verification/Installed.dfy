/** The store a fault-free Apply produces, written out chain by chain. */
module Installed {
  import opened Common
  import opened Netfilter
  import opened Cleaners
  import opened Firewall
  import opened Iptables
  import opened Confinement

  // ----- runs of recorded commands -----

  /** No command of the clock range is failed by the fault oracle. */
  ghost predicate Quiet(env: Env, lo: nat, hi: nat) {
    forall n: nat :: lo <= n < hi ==> env.faults(n).None?
  }

  /** The rules the kernel takes. */
  function Accepted(k: Kernel, f: Family, rules: seq<Rule>): seq<Rule> {
    if rules == [] then []
    else (if ValidRule(k, f, rules[0]) then [rules[0]] else []) + Accepted(k, f, rules[1..])
  }

  /** One error for each rule it does not take. */
  function Refused(k: Kernel, f: Family, rules: seq<Rule>): seq<Error> {
    if rules == [] then []
    else (if ValidRule(k, f, rules[0]) then [] else [BadSpec]) + Refused(k, f, rules[1..])
  }

  lemma {:induction false} RunAppendsQuiet(env: Env, m: Machine, id: ChainId, rules: seq<Rule>)
    requires Quiet(env, m.clock, m.clock + |rules|)
    requires id in m.store
    requires forall r :: r in rules ==> !r.target.Jump?
    ensures Run(env, m, Appends(id, rules))
         == Machine(m.store[id := m.store[id] + Accepted(env.kernel, id.family, rules)], m.clock + |rules|,
                    m.errs + Refused(env.kernel, id.family, rules))
    decreases rules
  {
    if rules == [] {
      assert m.store[id := m.store[id] + []] == m.store by { assert m.store[id] + [] == m.store[id]; }
      assert m.errs + [] == m.errs;
    } else {
      var r := rules[0];
      var m1 := RunStep(env, m, Must(Append(id, r)));
      var p := Appends(id, rules);
      assert r in rules && !r.target.Jump?;
      assert p[0] == Must(Append(id, r)) && p[1..] == Appends(id, rules[1..]);
      RunAppendsQuiet(env, m1, id, rules[1..]);
      var ok := if ValidRule(env.kernel, id.family, r) then [r] else [];
      var bad := if ValidRule(env.kernel, id.family, r) then [] else [BadSpec];
      assert m1.store[id] == m.store[id] + ok;
      assert m1.errs == m.errs + bad;
      assert m.store[id] + ok + Accepted(env.kernel, id.family, rules[1..])
          == m.store[id] + Accepted(env.kernel, id.family, rules);
      assert m.errs + bad + Refused(env.kernel, id.family, rules[1..]) == m.errs + Refused(env.kernel, id.family, rules);
    }
  }

  /** The interface hooks in the order they end up in: each one is put in front. */
  function HooksFor(ifaces: seq<string>, ch: string): seq<Rule> {
    if ifaces == [] then []
    else HooksFor(ifaces[1..], ch) + (if Blank(ifaces[0]) then [] else [IfaceTcpJump(ifaces[0], ch)])
  }

  lemma {:induction false} RunIfaceInserts(env: Env, m: Machine, ifaces: seq<string>, ch: string)
    requires Quiet(env, m.clock, m.clock + |IfaceInserts(ifaces, ch)|)
    requires NAT_PREROUTING in m.store && NatChain(ch) in m.store
    ensures Run(env, m, IfaceInserts(ifaces, ch)).store
         == m.store[NAT_PREROUTING := HooksFor(ifaces, ch) + m.store[NAT_PREROUTING]]
    ensures Run(env, m, IfaceInserts(ifaces, ch)).errs == m.errs
    decreases ifaces
  {
    if ifaces == [] {
      assert [] + m.store[NAT_PREROUTING] == m.store[NAT_PREROUTING];
    } else if Blank(ifaces[0]) {
      assert [] + IfaceInserts(ifaces[1..], ch) == IfaceInserts(ifaces[1..], ch);
      RunIfaceInserts(env, m, ifaces[1..], ch);
      assert HooksFor(ifaces[1..], ch) + [] == HooksFor(ifaces[1..], ch);
    } else {
      var step := Must(Insert(NAT_PREROUTING, IfaceTcpJump(ifaces[0], ch)));
      var m1 := RunStep(env, m, step);
      var p := IfaceInserts(ifaces, ch);
      assert p[0] == step && p[1..] == IfaceInserts(ifaces[1..], ch);
      RunIfaceInserts(env, m1, ifaces[1..], ch);
      assert HooksFor(ifaces[1..], ch) + ([IfaceTcpJump(ifaces[0], ch)] + m.store[NAT_PREROUTING])
          == HooksFor(ifaces, ch) + m.store[NAT_PREROUTING];
    }
  }

  lemma {:induction false} RunMakeChains(env: Env, m: Machine, prefix: string)
    requires Quiet(env, m.clock, m.clock + 4)
    requires NatChain(OutName(prefix)) !in m.store && NatChain(PreName(prefix)) !in m.store
    requires OutName(prefix) != PreName(prefix)
    ensures Run(env, m, MakeChains(prefix))
         == Machine(m.store[NatChain(OutName(prefix)) := []][NatChain(PreName(prefix)) := []], m.clock + 4, m.errs)
  {
    var p := MakeChains(prefix);
    RunSnoc(env, m, [], p[0]);
    RunSnoc(env, m, [p[0]], p[1]);
    RunSnoc(env, m, [p[0], p[1]], p[2]);
    RunSnoc(env, m, [p[0], p[1], p[2]], p[3]);
    assert [] + [p[0]] == [p[0]] && [p[0]] + [p[1]] == [p[0], p[1]] && [p[0], p[1]] + [p[2]] == [p[0], p[1], p[2]];
    assert [p[0], p[1], p[2]] + [p[3]] == p;
  }

  // ----- the redirect part -----

  function RedirectErrors(k: Kernel, cfg: Config, bypass: BypassList): seq<Error> {
    Refused(k, V4, ChainRules(cfg, bypass, true)) + Refused(k, V4, ChainRules(cfg, bypass, false))
  }

  function WithRedirect(k: Kernel, cfg: Config, bypass: BypassList, s: Store): Store
    requires BUILTINS <= s.Keys
  {
    var out, pre := OutName(Prefix(cfg)), PreName(Prefix(cfg));
    s[NatChain(out) := Accepted(k, V4, ChainRules(cfg, bypass, true))]
     [NatChain(pre) := Accepted(k, V4, ChainRules(cfg, bypass, false))]
     [NAT_OUTPUT := [TcpJump(out)] + s[NAT_OUTPUT]]
     [NAT_PREROUTING := (if cfg.hotspot then HooksFor(Ifaces(cfg), pre) else []) + s[NAT_PREROUTING]]
  }

  function RedirectLength(cfg: Config, bypass: BypassList): nat {
    4 + |ChainRules(cfg, bypass, true)| + |ChainRules(cfg, bypass, false)| + |HooksProgram(cfg)|
  }

  lemma {:induction false} RunChainsFor(env: Env, m: Machine, make: Program, out: ChainId, pre: ChainId, a: seq<Rule>, b: seq<Rule>)
    requires Quiet(env, m.clock, m.clock + 4 + |a| + |b|)
    requires out != pre && out.family == V4 && pre.family == V4
    requires forall r :: r in a || r in b ==> !r.target.Jump?
    requires Run(env, m, make) == Machine(m.store[out := []][pre := []], m.clock + 4, m.errs)
    ensures Run(env, m, make + Appends(out, a) + Appends(pre, b))
         == Machine(m.store[out := Accepted(env.kernel, V4, a)][pre := Accepted(env.kernel, V4, b)],
                    m.clock + 4 + |a| + |b|,
                    m.errs + Refused(env.kernel, V4, a) + Refused(env.kernel, V4, b))
  {
    var m1 := Run(env, m, make);
    var m2 := Run(env, m1, Appends(out, a));
    Run3(env, m, make, Appends(out, a), Appends(pre, b));
    RunAppendsEmpty(env, m1, out, a);
    RunAppendsEmpty(env, m2, pre, b);
  }

  lemma {:induction false} RunAppendsEmpty(env: Env, m: Machine, id: ChainId, rules: seq<Rule>)
    requires Quiet(env, m.clock, m.clock + |rules|)
    requires id in m.store && m.store[id] == []
    requires forall r :: r in rules ==> !r.target.Jump?
    ensures Run(env, m, Appends(id, rules))
         == Machine(m.store[id := Accepted(env.kernel, id.family, rules)], m.clock + |rules|,
                    m.errs + Refused(env.kernel, id.family, rules))
  {
    RunAppendsQuiet(env, m, id, rules);
    assert [] + Accepted(env.kernel, id.family, rules) == Accepted(env.kernel, id.family, rules);
  }

  lemma {:induction false} RunChains(env: Env, m: Machine, cfg: Config, bypass: BypassList)
    requires Quiet(env, m.clock, m.clock + RedirectLength(cfg, bypass))
    requires NatChain(OutName(Prefix(cfg))) !in m.store && NatChain(PreName(Prefix(cfg))) !in m.store
    ensures Run(env, m, ChainsProgram(cfg, bypass))
         == Machine(m.store[NatChain(OutName(Prefix(cfg))) := Accepted(env.kernel, V4, ChainRules(cfg, bypass, true))]
                           [NatChain(PreName(Prefix(cfg))) := Accepted(env.kernel, V4, ChainRules(cfg, bypass, false))],
                    m.clock + 4 + |ChainRules(cfg, bypass, true)| + |ChainRules(cfg, bypass, false)|,
                    m.errs + Refused(env.kernel, V4, ChainRules(cfg, bypass, true))
                           + Refused(env.kernel, V4, ChainRules(cfg, bypass, false)))
  {
    ChainRulesPlain(cfg, bypass, true);
    ChainRulesPlain(cfg, bypass, false);
    RunMakeChains(env, m, Prefix(cfg));
    RunChainsFor(env, m, MakeChains(Prefix(cfg)), NatChain(OutName(Prefix(cfg))), NatChain(PreName(Prefix(cfg))),
                 ChainRules(cfg, bypass, true), ChainRules(cfg, bypass, false));
  }

  lemma {:induction false} RunHooks(env: Env, m: Machine, cfg: Config)
    requires Quiet(env, m.clock, m.clock + |HooksProgram(cfg)|)
    requires NatChain(OutName(Prefix(cfg))) in m.store && NatChain(PreName(Prefix(cfg))) in m.store
    requires NAT_OUTPUT in m.store && NAT_PREROUTING in m.store
    ensures Run(env, m, HooksProgram(cfg)).store
         == m.store[NAT_OUTPUT := [TcpJump(OutName(Prefix(cfg)))] + m.store[NAT_OUTPUT]]
                   [NAT_PREROUTING := (if cfg.hotspot then HooksFor(Ifaces(cfg), PreName(Prefix(cfg))) else []) + m.store[NAT_PREROUTING]]
    ensures Run(env, m, HooksProgram(cfg)).errs == m.errs
  {
    var hook := Must(Insert(NAT_OUTPUT, TcpJump(OutName(Prefix(cfg)))));
    var per := if cfg.hotspot then IfaceInserts(Ifaces(cfg), PreName(Prefix(cfg))) else [];
    var m1 := RunStep(env, m, hook);
    RunSnoc(env, m, [], hook);
    assert [] + [hook] == [hook];
    RunConcat(env, m, [hook], per);
    if cfg.hotspot {
      RunIfaceInserts(env, m1, Ifaces(cfg), PreName(Prefix(cfg)));
    } else {
      assert [] + m.store[NAT_PREROUTING] == m.store[NAT_PREROUTING];
    }
  }

  /** What the recorded commands of Apply do when none of them is failed. */
  lemma {:induction false} RunRedirect(env: Env, m: Machine, cfg: Config, bypass: BypassList)
    requires Quiet(env, m.clock, m.clock + RedirectLength(cfg, bypass))
    requires BUILTINS <= m.store.Keys
    requires NatChain(OutName(Prefix(cfg))) !in m.store && NatChain(PreName(Prefix(cfg))) !in m.store
    ensures Run(env, m, RedirectProgram(cfg, bypass)).store == WithRedirect(env.kernel, cfg, bypass, m.store)
    ensures Run(env, m, RedirectProgram(cfg, bypass)).errs == m.errs + RedirectErrors(env.kernel, cfg, bypass)
  {
    RunConcat(env, m, ChainsProgram(cfg, bypass), HooksProgram(cfg));
    RunChains(env, m, cfg, bypass);
    RunHooks(env, Run(env, m, ChainsProgram(cfg, bypass)), cfg);
    Assoc(m.errs, Refused(env.kernel, V4, ChainRules(cfg, bypass, true)), Refused(env.kernel, V4, ChainRules(cfg, bypass, false)));
  }

  // ----- the best-effort part, without faults -----

  lemma {:induction false} RunTwo(env: Env, m: Machine, a: Step, b: Step)
    ensures Run(env, m, [a, b]) == RunStep(env, RunStep(env, m, a), b)
  {
    RunSnoc(env, m, [], a);
    RunSnoc(env, m, [a], b);
    assert [] + [a] == [a] && [a] + [b] == [a, b];
  }

  lemma {:induction false} RunFour(env: Env, m: Machine, p: Program)
    requires |p| == 4
    ensures Run(env, m, p) == RunStep(env, RunStep(env, RunStep(env, RunStep(env, m, p[0]), p[1]), p[2]), p[3])
  {
    RunTwo(env, m, p[0], p[1]);
    RunTwo(env, RunStep(env, RunStep(env, m, p[0]), p[1]), p[2], p[3]);
    RunConcat(env, m, [p[0], p[1]], [p[2], p[3]]);
    assert [p[0], p[1]] + [p[2], p[3]] == p;
  }

  function WithForward(cfg: Config, s: Store): Store
    requires FILTER_FORWARD in s
  {
    if cfg.hotspot then s[FILTER_FORWARD := [Plain(Accept)] + s[FILTER_FORWARD]] else s
  }

  lemma {:induction false} RunForward(env: Env, m: Machine, cfg: Config)
    requires FaultFree(env) && FILTER_FORWARD in m.store
    ensures Run(env, m, ForwardAccept(cfg)).store == WithForward(cfg, m.store)
  {
    if cfg.hotspot {
      RunSnoc(env, m, [], ForwardAccept(cfg)[0]);
      assert [] + [ForwardAccept(cfg)[0]] == ForwardAccept(cfg);
      BestIsTick(env, m, Insert(FILTER_FORWARD, Plain(Accept)));
    }
  }

  function DnsRules(port: int): seq<Rule> {
    [RootReturn()] + (if ValidPort(port) then [DnsDnat(port)] else [])
  }

  function WithDns(prefix: string, port: int, s: Store): Store
    requires NAT_OUTPUT in s
  {
    if port <= 0 then s
    else s[NatChain(DnsName(prefix)) := DnsRules(port)]
          [NAT_OUTPUT := [DnsJump(DnsName(prefix))] + RemoveFirst(s[NAT_OUTPUT], DnsJump(DnsName(prefix)))]
  }

  /** Make or empty a chain: `-L` or `-N`, then `-F`. */
  lemma {:induction false} RunFreshChain(env: Env, m: Machine, id: ChainId)
    requires FaultFree(env)
    ensures RunStep(env, RunStep(env, m, FirstOk([List(id), New(id)])), Best(Flush(id))).store == m.store[id := []]
  {
    RunEither(env, m, List(id), New(id));
    BestIsTick(env, RunStep(env, m, FirstOk([List(id), New(id)])), Flush(id));
  }

  /** Delete one copy of a hook, then put the hook in front. */
  lemma {:induction false} RunReinsert(env: Env, m: Machine, at: ChainId, r: Rule)
    requires FaultFree(env) && at in m.store && TargetPresent(m.store, at, r)
    requires ValidRule(env.kernel, at.family, r)
    ensures RunStep(env, RunStep(env, m, Best(Delete(at, r))), Best(Insert(at, r))).store
         == m.store[at := [r] + RemoveFirst(m.store[at], r)]
  {
    var m1 := RunStep(env, m, Best(Delete(at, r)));
    BestIsTick(env, m, Delete(at, r));
    BestIsTick(env, m1, Insert(at, r));
    if r !in m.store[at] {
      RemoveFirstAbsent(m.store[at], r);
    }
  }

  lemma {:induction false} RemoveFirstAbsent(rules: seq<Rule>, r: Rule)
    requires r !in rules
    ensures RemoveFirst(rules, r) == rules
  {
    if rules != [] {
      RemoveFirstAbsent(rules[1..], r);
    }
  }

  lemma {:induction false} RunDns(env: Env, m: Machine, prefix: string, port: int)
    requires FaultFree(env) && NAT_OUTPUT in m.store && NatChain(DnsName(prefix)) != NAT_OUTPUT
    ensures Run(env, m, DnsProgram(prefix, port)).store == WithDns(prefix, port, m.store)
  {
    if port > 0 {
      var p := DnsProgram(prefix, port);
      var chain, hook := NatChain(DnsName(prefix)), DnsJump(DnsName(prefix));
      RunFour(env, m, p[..4]);
      var m1 := RunStep(env, RunStep(env, m, p[0]), p[1]);
      var m2 := RunStep(env, m1, p[2]);
      var m3 := RunStep(env, m2, p[3]);
      RunFreshChain(env, m, chain);
      BestIsTick(env, m1, Append(chain, RootReturn()));
      BestIsTick(env, m2, Append(chain, DnsDnat(port)));
      assert m2.store[chain] == [RootReturn()];
      assert m3.store[chain] == DnsRules(port);
      assert m3.store == m.store[chain := DnsRules(port)];
      RunConcat(env, m, p[..4], [p[4], p[5]]);
      RunTwo(env, m3, p[4], p[5]);
      RunReinsert(env, m3, NAT_OUTPUT, hook);
      assert p[..4] + [p[4], p[5]] == p;
    }
  }

  function QuicStep(k: Kernel, port: int, rules: seq<Rule>): seq<Rule> {
    if QuicReject(port) in rules then rules
    else if k.reject4 then rules + [QuicReject(port)]
    else if QuicDrop(port) in rules then rules
    else rules + [QuicDrop(port)]
  }

  function WithQuic(k: Kernel, s: Store): Store
    requires FILTER_OUTPUT in s
  {
    s[FILTER_OUTPUT := QuicStep(k, 80, QuicStep(k, 443, s[FILTER_OUTPUT]))]
  }

  lemma {:induction false} RunQuicStep(env: Env, m: Machine, port: int)
    requires FaultFree(env) && FILTER_OUTPUT in m.store && ValidPort(port)
    ensures RunStep(env, m, FirstOk(QuicCommands(port))).store
         == m.store[FILTER_OUTPUT := QuicStep(env.kernel, port, m.store[FILTER_OUTPUT])]
  {
    var cs := QuicCommands(port);
    var m1 := Tick(env, m, cs[0]);
    var m2 := Tick(env, m1, cs[1]);
    assert cs[1..][1..] == [cs[2], cs[3]] && cs[1..][0] == cs[1];
    RunEither(env, m2, cs[2], cs[3]);
    assert RunFirstOk(env, m1, cs[1..]) == if Outcome(env, m1, cs[1]).None? then m2 else RunFirstOk(env, m2, cs[1..][1..]);
  }

  lemma {:induction false} RunQuic(env: Env, m: Machine)
    requires FaultFree(env) && FILTER_OUTPUT in m.store
    ensures Run(env, m, QuicProgram()).store == WithQuic(env.kernel, m.store)
  {
    RunTwo(env, m, QuicProgram()[0], QuicProgram()[1]);
    RunQuicStep(env, m, 443);
    RunQuicStep(env, RunStep(env, m, FirstOk(QuicCommands(443))), 80);
  }

  function Drop6Rules(k: Kernel): seq<Rule> {
    [LoopbackReturn(), if k.reject6 then Reject6() else Plain(Drop)]
  }

  function WithIPv6(k: Kernel, s: Store): Store
    requires OUTPUT6 in s && FORWARD6 in s
  {
    var hook := AnyJump(DROP6_NAME);
    s[DROP6 := Drop6Rules(k)]
     [OUTPUT6 := [hook] + RemoveFirst(s[OUTPUT6], hook)]
     [FORWARD6 := [hook] + RemoveFirst(s[FORWARD6], hook)]
  }

  lemma {:induction false} RunDrop6Chain(env: Env, m: Machine, p: Program, id: ChainId, a: Rule, b: Rule, c: Rule)
    requires FaultFree(env) && |p| == 4 && !a.target.Jump? && !b.target.Jump? && !c.target.Jump?
    requires p[0] == FirstOk([List(id), New(id)]) && p[1] == Best(Flush(id)) && p[2] == Best(Append(id, a))
    requires p[3] == FirstOk([Append(id, b), Append(id, c)])
    requires ValidRule(env.kernel, id.family, a) && ValidRule(env.kernel, id.family, c)
    ensures Run(env, m, p).store == m.store[id := [a, if ValidRule(env.kernel, id.family, b) then b else c]]
  {
    RunFour(env, m, p);
    var m1 := RunStep(env, RunStep(env, m, p[0]), p[1]);
    var m2 := RunStep(env, m1, p[2]);
    RunFreshChain(env, m, id);
    BestIsTick(env, m1, Append(id, a));
    RunEither(env, m2, Append(id, b), Append(id, c));
    var rest := Run(env, m, p).store;
    assert m1.store == m.store[id := []];
    assert m1.store[id] + [a] == [a] && m2.store == m1.store[id := [a]];
    assert rest[id] == [a, if ValidRule(env.kernel, id.family, b) then b else c];
  }

  lemma {:induction false} RunTwoReinserts(env: Env, m: Machine, p: Program, one: ChainId, two: ChainId, r: Rule)
    requires FaultFree(env) && |p| == 4 && one != two && one in m.store && two in m.store
    requires p[0] == Best(Delete(one, r)) && p[1] == Best(Insert(one, r)) && p[2] == Best(Delete(two, r)) && p[3] == Best(Insert(two, r))
    requires one.family == two.family && one.table == two.table && TargetPresent(m.store, one, r) && ValidRule(env.kernel, one.family, r)
    ensures Run(env, m, p).store
         == m.store[one := [r] + RemoveFirst(m.store[one], r)][two := [r] + RemoveFirst(m.store[two], r)]
  {
    RunFour(env, m, p);
    RunReinsert(env, m, one, r);
    RunReinsert(env, RunStep(env, RunStep(env, m, p[0]), p[1]), two, r);
  }

  lemma {:induction false} RunIPv6(env: Env, m: Machine)
    requires FaultFree(env) && OUTPUT6 in m.store && FORWARD6 in m.store
    ensures Run(env, m, IPv6Program()).store == WithIPv6(env.kernel, m.store)
  {
    var p := IPv6Program();
    assert p[..4] + p[4..] == p;
    RunConcat(env, m, p[..4], p[4..]);
    RunDrop6Chain(env, m, p[..4], DROP6, LoopbackReturn(), Reject6(), Plain(Drop));
    RunTwoReinserts(env, Run(env, m, p[..4]), p[4..], OUTPUT6, FORWARD6, AnyJump(DROP6_NAME));
  }

  /** The store that one fault-free Apply builds on `s`. */
  function InstalledStore(k: Kernel, cfg: Config, bypass: BypassList, s: Store): Store
    requires BUILTINS <= s.Keys
  {
    WithBestEffort(k, cfg, WithRedirect(k, cfg, bypass, s))
  }

  function WithBestEffort(k: Kernel, cfg: Config, s: Store): Store
    requires BUILTINS <= s.Keys
  {
    WithIPv6(k, WithQuic(k, WithDns(Prefix(cfg), cfg.dnsForwardPort, WithForward(cfg, s))))
  }

  lemma {:induction false} RunBestEffort(env: Env, m: Machine, cfg: Config)
    requires FaultFree(env) && BUILTINS <= m.store.Keys
    requires NatChain(DnsName(Prefix(cfg))) != NAT_OUTPUT
    ensures Run(env, m, BestEffortProgram(cfg)).store == WithBestEffort(env.kernel, cfg, m.store)
  {
    var f, d := ForwardAccept(cfg), DnsProgram(Prefix(cfg), cfg.dnsForwardPort);
    var m1 := Run(env, m, f);
    var m2 := Run(env, m1, d);
    var m3 := Run(env, m2, QuicProgram());
    RunConcat(env, m, f + d + QuicProgram(), IPv6Program());
    Run3(env, m, f, d, QuicProgram());
    RunForward(env, m, cfg);
    RunDns(env, m1, Prefix(cfg), cfg.dnsForwardPort);
    RunQuic(env, m2);
    RunIPv6(env, m3);
  }
}

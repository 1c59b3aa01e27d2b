/**
 When an Apply from a clean start leaves no trace: exactly if every command that
 the clean store would take was failed. There are at most nine of them, at fixed
 numbers of the run.
 */
module NoTrace {
  import opened Common
  import opened Netfilter
  import opened Firewall
  import opened Ownership
  import opened Additions
  import opened Confinement
  import opened Undo
  import opened Idle
  import opened BestEffort
  import opened Installed
  import opened Disturbed
  import opened Reports

  // ----- stores that show a trace -----

  /** A chain was added, or a filter chain grew. */
  ghost predicate Marked(s0: Store, s: Store) {
    || !(s.Keys <= s0.Keys)
    || Grew(s0, s, FILTER_FORWARD)
    || Grew(s0, s, FILTER_OUTPUT)
  }

  ghost predicate Grew(s0: Store, s: Store, id: ChainId) {
    id in s && id in s0 && |s[id]| > |s0[id]|
  }

  /** The command never takes such a trace away. */
  predicate Additive(c: Command) {
    !c.DeleteChain? && (c.Flush? || c.Delete? ==> c.id != FILTER_FORWARD && c.id != FILTER_OUTPUT)
  }

  /** In the clean store the command is refused or leaves a trace. */
  ghost predicate Marks(k: Kernel, s0: Store, c: Command) {
    Additive(c) && (Refusal(k, s0, c).Some? || Marked(s0, Effect(k, s0, c)))
  }

  lemma {:induction false} AdditiveKeeps(k: Kernel, s0: Store, s: Store, c: Command)
    requires Additive(c) && Marked(s0, s) && Refusal(k, s, c).None?
    ensures Marked(s0, Effect(k, s, c))
  {
    var t := Effect(k, s, c);
    if !(s.Keys <= s0.Keys) {
      var id :| id in s && id !in s0;
      assert id in t;
    }
  }

  lemma {:induction false} AdditiveInductive(k: Kernel, s0: Store)
    ensures Inductive(k, (s: Store) => Marked(s0, s), (c: Command) => Additive(c))
  {
    forall s, c | Marked(s0, s) && Additive(c) && Refusal(k, s, c).None? ensures Marked(s0, Effect(k, s, c)) {
      AdditiveKeeps(k, s0, s, c);
    }
  }

  lemma {:induction false} FirstOkMarks(env: Env, m: Machine, cs: seq<Command>)
    requires forall i :: 0 <= i < |cs| ==> Marks(env.kernel, m.store, cs[i])
    requires !MutedAll(env, m.store, m.clock, cs)
    ensures Marked(m.store, RunFirstOk(env, m, cs).store)
    decreases cs
  {
    assert Marks(env.kernel, m.store, cs[0]);
    if MutedCommand(env, m.store, m.clock, cs[0]) {
      FirstOkMarks(env, Tick(env, m, cs[0]), cs[1..]);
    }
  }

  lemma {:induction false} StepMarks(env: Env, m: Machine, step: Step)
    requires StepAll(c => Marks(env.kernel, m.store, c), step) && !MutedStep(env, m.store, m.clock, step)
    ensures Marked(m.store, RunStep(env, m, step).store)
  {
    match step {
      case Must(c) =>
      case FirstOk(cs) => FirstOkMarks(env, m, cs);
      case WhileOk(c, n) =>
        AdditiveInductive(env.kernel, m.store);
        WhileOkInvariant(env, Tick(env, m, c), c, n - 1, (s: Store) => Marked(m.store, s), (x: Command) => Additive(x));
    }
  }

  lemma {:induction false} MarksAdditive(k: Kernel, s0: Store, p: Program)
    requires ProgramAll(c => Marks(k, s0, c), p)
    ensures ProgramAll(c => Additive(c), p)
  {
    forall i | 0 <= i < |p| ensures StepAll(c => Additive(c), p[i]) {
      assert StepAll(c => Marks(k, s0, c), p[i]);
      match p[i] {
        case Must(c) => assert Marks(k, s0, c);
        case FirstOk(cs) => assert forall j :: 0 <= j < |cs| ==> Marks(k, s0, cs[j]);
        case WhileOk(c, _) => assert Marks(k, s0, c);
      }
    }
  }

  /** A program that is not muted leaves a trace, and nothing after it takes the trace away. */
  lemma {:induction false} UnmutedMarks(env: Env, m: Machine, p: Program)
    requires ProgramAll(c => Marks(env.kernel, m.store, c), p) && !Muted(env, m.store, m.clock, p)
    ensures Marked(m.store, Run(env, m, p).store)
    decreases p
  {
    assert StepAll(c => Marks(env.kernel, m.store, c), p[0]);
    assert ProgramAll(c => Marks(env.kernel, m.store, c), p[1..]) by {
      forall i | 0 <= i < |p[1..]| ensures StepAll(c => Marks(env.kernel, m.store, c), p[1..][i]) { assert p[1..][i] == p[i + 1]; }
    }
    if MutedStep(env, m.store, m.clock, p[0]) {
      assert Muted(env, m.store, m.clock, [p[0]]) by { assert [p[0]][1..] == []; }
      MutedIdle(env, m, [p[0]]);
      assert Run(env, m, [p[0]]) == RunStep(env, m, p[0]) by { assert [p[0]][1..] == []; }
      assert Costs([p[0]]) == Cost(p[0]) by { assert [p[0]][1..] == []; }
      UnmutedMarks(env, RunStep(env, m, p[0]), p[1..]);
    } else {
      StepMarks(env, m, p[0]);
      MarksAdditive(env.kernel, m.store, p[1..]);
      AdditiveInductive(env.kernel, m.store);
      RunInvariant(env, RunStep(env, m, p[0]), p[1..], (s: Store) => Marked(m.store, s), (c: Command) => Additive(c));
    }
  }

  // ----- the clean store -----

  /** What the commands of Apply find in a clean store. */
  ghost predicate Bare(out: string, pre: string, dns: string, s: Store) {
    && NatChain(out) !in s && NatChain(pre) !in s && NatChain(dns) !in s && DROP6 !in s
    && BUILTINS <= s.Keys
    && DnsJump(dns) !in s[NAT_OUTPUT]
    && QuicReject(443) !in s[FILTER_OUTPUT] && QuicDrop(443) !in s[FILTER_OUTPUT]
    && QuicReject(80) !in s[FILTER_OUTPUT] && QuicDrop(80) !in s[FILTER_OUTPUT]
    && AnyJump(DROP6_NAME) !in s[OUTPUT6] && AnyJump(DROP6_NAME) !in s[FORWARD6]
  }

  lemma {:induction false} CleanIsBare(cfg: Config, s: Store)
    requires CleanStart(cfg, s)
    ensures Bare(OutName(Prefix(cfg)), PreName(Prefix(cfg)), DnsName(Prefix(cfg)), s)
  {
    OwnChainsOwned(cfg);
    HookNotThere(cfg, s);
    OwnsQuic(cfg, 443);
    OwnsQuic(cfg, 80);
    OwnsHooks6(cfg);
  }

  // ----- muted parts -----

  lemma {:induction false} MutedTwo(env: Env, s: Store, clock: nat, a: Step, b: Step)
    ensures Muted(env, s, clock, [a, b]) <==> MutedStep(env, s, clock, a) && MutedStep(env, s, clock + Cost(a), b)
  {
    assert [a, b][1..] == [b] && [b][1..] == [];
    assert Muted(env, s, clock + Cost(a), [b]) <==> MutedStep(env, s, clock + Cost(a), b);
  }

  lemma {:induction false} MutedBest(env: Env, s: Store, clock: nat, c: Command)
    ensures MutedStep(env, s, clock, Best(c)) <==> MutedCommand(env, s, clock, c)
  {
    assert [c][1..] == [];
    assert MutedAll(env, s, clock, [c]) <==> MutedCommand(env, s, clock, c) && MutedAll(env, s, clock + 1, [c][1..]);
  }

  lemma {:induction false} MutedEither(env: Env, s: Store, clock: nat, a: Command, b: Command)
    ensures MutedStep(env, s, clock, FirstOk([a, b])) <==> MutedCommand(env, s, clock, a) && MutedCommand(env, s, clock + 1, b)
  {
    assert [a, b][1..] == [b] && [b][1..] == [];
    assert MutedAll(env, s, clock + 1, [b]) <==> MutedCommand(env, s, clock + 1, b);
  }

  lemma {:induction false} MutedMake(env: Env, s: Store, clock: nat, prefix: string)
    requires NatChain(OutName(prefix)) !in s && NatChain(PreName(prefix)) !in s
    ensures Muted(env, s, clock, MakeChains(prefix)) <==> env.faults(clock).Some? && env.faults(clock + 2).Some?
    ensures Costs(MakeChains(prefix)) == 4
  {
    var p := MakeChains(prefix);
    assert p == [p[0], p[1]] + [p[2], p[3]];
    MutedConcat(env, s, clock, [p[0], p[1]], [p[2], p[3]]);
    CostsTwo(p[0], p[1]);
    CostsTwo(p[2], p[3]);
    CostsConcat([p[0], p[1]], [p[2], p[3]]);
    MutedTwo(env, s, clock, p[0], p[1]);
    MutedTwo(env, s, clock + 2, p[2], p[3]);
  }

  lemma {:induction false} MutedAppends(env: Env, s: Store, clock: nat, id: ChainId, rules: seq<Rule>)
    requires id !in s
    ensures Muted(env, s, clock, Appends(id, rules))
    ensures Costs(Appends(id, rules)) == |rules|
    decreases rules
  {
    if rules != [] {
      MutedAppends(env, s, clock + 1, id, rules[1..]);
    }
  }

  lemma {:induction false} MutedInserts(env: Env, s: Store, clock: nat, ifaces: seq<string>, ch: string)
    requires NatChain(ch) !in s
    ensures Muted(env, s, clock, IfaceInserts(ifaces, ch))
    decreases ifaces
  {
    if ifaces != [] && Blank(ifaces[0]) {
      assert [] + IfaceInserts(ifaces[1..], ch) == IfaceInserts(ifaces[1..], ch);
      MutedInserts(env, s, clock, ifaces[1..], ch);
    } else if ifaces != [] {
      var step := Must(Insert(NAT_PREROUTING, IfaceTcpJump(ifaces[0], ch)));
      assert ([step] + IfaceInserts(ifaces[1..], ch))[1..] == IfaceInserts(ifaces[1..], ch);
      MutedInserts(env, s, clock + 1, ifaces[1..], ch);
    }
  }

  /** Of the recorded commands only the two chain creations are taken by a clean store. */
  lemma {:induction false} MutedRedirect(env: Env, s: Store, clock: nat, cfg: Config, bypass: BypassList)
    requires Bare(OutName(Prefix(cfg)), PreName(Prefix(cfg)), DnsName(Prefix(cfg)), s)
    ensures Muted(env, s, clock, RedirectProgram(cfg, bypass)) <==> env.faults(clock).Some? && env.faults(clock + 2).Some?
    ensures Costs(RedirectProgram(cfg, bypass)) == RedirectLength(cfg, bypass)
  {
    var out, pre := NatChain(OutName(Prefix(cfg))), NatChain(PreName(Prefix(cfg)));
    var make, a, b := MakeChains(Prefix(cfg)), Appends(out, ChainRules(cfg, bypass, true)), Appends(pre, ChainRules(cfg, bypass, false));
    RedirectMustOnly(cfg, bypass);
    MustCosts(RedirectProgram(cfg, bypass));
    MutedMake(env, s, clock, Prefix(cfg));
    MutedAppends(env, s, clock + 4, out, ChainRules(cfg, bypass, true));
    MutedAppends(env, s, clock + 4 + Costs(a), pre, ChainRules(cfg, bypass, false));
    CostsConcat(make, a);
    MutedConcat(env, s, clock, make, a);
    MutedConcat(env, s, clock, make + a, b);
    MutedHooks(env, s, clock + Costs(ChainsProgram(cfg, bypass)), cfg);
    MutedConcat(env, s, clock, ChainsProgram(cfg, bypass), HooksProgram(cfg));
  }

  lemma {:induction false} MutedHooks(env: Env, s: Store, clock: nat, cfg: Config)
    requires NatChain(OutName(Prefix(cfg))) !in s && NatChain(PreName(Prefix(cfg))) !in s && NAT_OUTPUT in s && NAT_PREROUTING in s
    ensures Muted(env, s, clock, HooksProgram(cfg))
  {
    var hook := Must(Insert(NAT_OUTPUT, TcpJump(OutName(Prefix(cfg)))));
    MutedInserts(env, s, clock + 1, Ifaces(cfg), PreName(Prefix(cfg)));
    assert HooksProgram(cfg)[0] == hook && HooksProgram(cfg)[1..] == PerIface(cfg);
  }

  // ----- muted ignored commands -----

  lemma {:induction false} MutedForward(env: Env, s: Store, clock: nat, cfg: Config)
    requires FILTER_FORWARD in s
    ensures Muted(env, s, clock, ForwardAccept(cfg)) <==> (cfg.hotspot ==> env.faults(clock).Some?)
    ensures Costs(ForwardAccept(cfg)) == if cfg.hotspot then 1 else 0
  {
    if cfg.hotspot {
      MutedBest(env, s, clock, Insert(FILTER_FORWARD, Plain(Accept)));
      assert ForwardAccept(cfg)[1..] == [];
    }
  }

  /** Make or empty a chain, fill it with two rules, and hook it once. */
  lemma {:induction false} MutedChain(env: Env, s: Store, clock: nat, p: Program, id: ChainId, fill: Step, fill2: Step)
    requires |p| == 4 && id !in s && p[0] == FirstOk([List(id), New(id)]) && p[1] == Best(Flush(id)) && p[2] == fill && p[3] == fill2
    requires MutedStep(env, s, clock + 3, fill) && MutedStep(env, s, clock + 3 + Cost(fill), fill2)
    ensures Muted(env, s, clock, p) <==> env.faults(clock + 1).Some?
    ensures Costs(p) == 3 + Cost(fill) + Cost(fill2)
  {
    MutedEither(env, s, clock, List(id), New(id));
    MutedBest(env, s, clock + 2, Flush(id));
    MutedTwo(env, s, clock, p[0], p[1]);
    MutedTwo(env, s, clock + 3, p[2], p[3]);
    CostsTwo(p[0], p[1]);
    CostsTwo(p[2], p[3]);
    MutedConcat(env, s, clock, [p[0], p[1]], [p[2], p[3]]);
    CostsConcat([p[0], p[1]], [p[2], p[3]]);
    assert [p[0], p[1]] + [p[2], p[3]] == p;
  }

  /** Deleting a hook that is not there and inserting it without its chain. */
  lemma {:induction false} MutedReinsert(env: Env, s: Store, clock: nat, at: ChainId, r: Rule)
    requires at in s && r !in s[at] && !TargetPresent(s, at, r)
    ensures Muted(env, s, clock, [Best(Delete(at, r)), Best(Insert(at, r))])
    ensures Costs([Best(Delete(at, r)), Best(Insert(at, r))]) == 2
  {
    MutedBest(env, s, clock, Delete(at, r));
    MutedBest(env, s, clock + 1, Insert(at, r));
    MutedTwo(env, s, clock, Best(Delete(at, r)), Best(Insert(at, r)));
    CostsTwo(Best(Delete(at, r)), Best(Insert(at, r)));
  }

  lemma {:induction false} MutedDns(env: Env, s: Store, clock: nat, dns: string, prefix: string, port: int)
    requires dns == DnsName(prefix) && NatChain(dns) !in s && NAT_OUTPUT in s && DnsJump(dns) !in s[NAT_OUTPUT]
    ensures Muted(env, s, clock, DnsProgram(prefix, port)) <==> (port > 0 ==> env.faults(clock + 1).Some?)
    ensures Costs(DnsProgram(prefix, port)) == if port > 0 then 7 else 0
  {
    if port > 0 {
      var p, chain := DnsProgram(prefix, port), NatChain(dns);
      MutedBest(env, s, clock + 3, Append(chain, RootReturn()));
      MutedBest(env, s, clock + 4, Append(chain, DnsDnat(port)));
      MutedChain(env, s, clock, p[..4], chain, p[2], p[3]);
      MutedReinsert(env, s, clock + 5, NAT_OUTPUT, DnsJump(dns));
      assert p == p[..4] + [Best(Delete(NAT_OUTPUT, DnsJump(dns))), Best(Insert(NAT_OUTPUT, DnsJump(dns)))];
      MutedConcat(env, s, clock, p[..4], [Best(Delete(NAT_OUTPUT, DnsJump(dns))), Best(Insert(NAT_OUTPUT, DnsJump(dns)))]);
      CostsConcat(p[..4], [Best(Delete(NAT_OUTPUT, DnsJump(dns))), Best(Insert(NAT_OUTPUT, DnsJump(dns)))]);
    }
  }

  /** The REJECT append is refused by a kernel without the target, the DROP append never. */
  predicate QuicFailed(env: Env, clock: nat) {
    (env.kernel.reject4 ==> env.faults(clock + 1).Some?) && env.faults(clock + 3).Some?
  }

  lemma {:induction false} MutedQuicStep(env: Env, s: Store, clock: nat, port: int)
    requires ValidPort(port) && FILTER_OUTPUT in s && QuicReject(port) !in s[FILTER_OUTPUT] && QuicDrop(port) !in s[FILTER_OUTPUT]
    ensures MutedStep(env, s, clock, FirstOk(QuicCommands(port))) <==> QuicFailed(env, clock)
  {
    var cs := QuicCommands(port);
    assert cs[1..] == [cs[1], cs[2], cs[3]] && cs[1..][1..] == [cs[2], cs[3]];
    assert MutedAll(env, s, clock + 1, cs[1..]) <==> MutedCommand(env, s, clock + 1, cs[1]) && MutedAll(env, s, clock + 2, [cs[2], cs[3]]);
    MutedEither(env, s, clock + 2, cs[2], cs[3]);
  }

  lemma {:induction false} MutedQuicSteps(env: Env, s: Store, clock: nat, one: int, two: int)
    requires ValidPort(one) && ValidPort(two) && FILTER_OUTPUT in s
    requires QuicReject(one) !in s[FILTER_OUTPUT] && QuicDrop(one) !in s[FILTER_OUTPUT]
    requires QuicReject(two) !in s[FILTER_OUTPUT] && QuicDrop(two) !in s[FILTER_OUTPUT]
    ensures var p := [FirstOk(QuicCommands(one)), FirstOk(QuicCommands(two))];
      (Muted(env, s, clock, p) <==> QuicFailed(env, clock) && QuicFailed(env, clock + 4)) && Costs(p) == 8
  {
    var a, b := FirstOk(QuicCommands(one)), FirstOk(QuicCommands(two));
    MutedQuicStep(env, s, clock, one);
    MutedQuicStep(env, s, clock + 4, two);
    MutedTwo(env, s, clock, a, b);
    CostsTwo(a, b);
  }

  lemma {:induction false} MutedQuic(env: Env, s: Store, clock: nat)
    requires FILTER_OUTPUT in s
    requires QuicReject(443) !in s[FILTER_OUTPUT] && QuicDrop(443) !in s[FILTER_OUTPUT]
    requires QuicReject(80) !in s[FILTER_OUTPUT] && QuicDrop(80) !in s[FILTER_OUTPUT]
    ensures Muted(env, s, clock, QuicProgram()) <==> QuicFailed(env, clock) && QuicFailed(env, clock + 4)
    ensures Costs(QuicProgram()) == 8
  {
    MutedQuicSteps(env, s, clock, 443, 80);
  }

  lemma {:induction false} MutedTwoReinserts(env: Env, s: Store, clock: nat, p: Program, one: ChainId, two: ChainId, r: Rule)
    requires one in s && r !in s[one] && !TargetPresent(s, one, r) && two in s && r !in s[two] && !TargetPresent(s, two, r)
    requires |p| == 4 && p[0] == Best(Delete(one, r)) && p[1] == Best(Insert(one, r)) && p[2] == Best(Delete(two, r)) && p[3] == Best(Insert(two, r))
    ensures Muted(env, s, clock, p)
  {
    MutedReinsert(env, s, clock, one, r);
    MutedReinsert(env, s, clock + 2, two, r);
    MutedConcat(env, s, clock, [p[0], p[1]], [p[2], p[3]]);
    assert [p[0], p[1]] + [p[2], p[3]] == p;
  }

  lemma {:induction false} MutedHookedChain(env: Env, s: Store, clock: nat, p: Program, id: ChainId, a: Command, b: Command, c: Command,
                                            one: ChainId, two: ChainId, r: Rule)
    requires id !in s && a.Append? && b.Append? && c.Append? && a.id == id && b.id == id && c.id == id
    requires |p| == 8 && p[0] == FirstOk([List(id), New(id)]) && p[1] == Best(Flush(id)) && p[2] == Best(a) && p[3] == FirstOk([b, c])
    requires one in s && r !in s[one] && !TargetPresent(s, one, r) && two in s && r !in s[two] && !TargetPresent(s, two, r)
    requires p[4] == Best(Delete(one, r)) && p[5] == Best(Insert(one, r)) && p[6] == Best(Delete(two, r)) && p[7] == Best(Insert(two, r))
    ensures Muted(env, s, clock, p) <==> env.faults(clock + 1).Some?
  {
    MutedBest(env, s, clock + 3, a);
    MutedEither(env, s, clock + 4, b, c);
    MutedChain(env, s, clock, p[..4], id, p[2], p[3]);
    MutedTwoReinserts(env, s, clock + 6, p[4..], one, two, r);
    MutedConcat(env, s, clock, p[..4], p[4..]);
    assert p == p[..4] + p[4..];
  }

  // ----- the whole of Apply -----

  /** The number of the first ignored command. */
  function ForwardAt(making: nat, cfg: Config, bypass: BypassList): nat {
    making + RedirectLength(cfg, bypass)
  }

  function DnsAt(forward: nat, cfg: Config): nat {
    forward + if cfg.hotspot then 1 else 0
  }

  function QuicAt(forward: nat, cfg: Config): nat {
    DnsAt(forward, cfg) + if cfg.dnsForwardPort > 0 then 7 else 0
  }

  /** Both -N of the redirect chains were failed. */
  predicate NotMade(env: Env, making: nat) {
    env.faults(making).Some? && env.faults(making + 2).Some?
  }

  /** The FORWARD rule, and -N of the DNS chain, were failed where there are any; `forward` is the number of the first ignored command. */
  predicate FirstFailed(env: Env, forward: nat, cfg: Config) {
    && (cfg.hotspot ==> env.faults(forward).Some?)
    && (cfg.dnsForwardPort > 0 ==> env.faults(DnsAt(forward, cfg) + 1).Some?)
  }

  /** The QUIC rules, and -N of SSHC_DROP6, were failed. */
  predicate LastFailed(env: Env, quic: nat) {
    QuicFailed(env, quic) && QuicFailed(env, quic + 4) && env.faults(quic + 8 + 1).Some?
  }

  /** The ignored commands that a clean store takes were all failed. */
  predicate IgnoredFailed(env: Env, forward: nat, cfg: Config) {
    FirstFailed(env, forward, cfg) && LastFailed(env, QuicAt(forward, cfg))
  }

  /**
   Every command that a clean store takes was failed: both -N of the redirect
   chains, and the ignored ones.
   */
  predicate Suppressed(env: Env, cfg: Config, bypass: BypassList) {
    NotMade(env, Making(cfg)) && IgnoredFailed(env, ForwardAt(Making(cfg), cfg, bypass), cfg)
  }

  // ----- every other command leaves a trace -----

  lemma {:induction false} AppendsMark(k: Kernel, s: Store, id: ChainId, rules: seq<Rule>)
    requires id !in s
    ensures ProgramAll(c => Marks(k, s, c), Appends(id, rules))
  {
    if rules != [] {
      AppendsMark(k, s, id, rules[1..]);
    }
  }

  lemma {:induction false} InsertsMark(k: Kernel, s: Store, ifaces: seq<string>, ch: string)
    requires NatChain(ch) !in s
    ensures ProgramAll(c => Marks(k, s, c), IfaceInserts(ifaces, ch))
  {
    if ifaces != [] {
      InsertsMark(k, s, ifaces[1..], ch);
    }
  }

  lemma {:induction false} NewMarks(k: Kernel, s: Store, id: ChainId)
    ensures Marks(k, s, New(id))
  {
    if id !in s {
      assert id in Effect(k, s, New(id));
    }
  }

  lemma {:induction false} MakeMarks(k: Kernel, s: Store, prefix: string)
    requires NatChain(OutName(prefix)) !in s && NatChain(PreName(prefix)) !in s
    ensures ProgramAll(c => Marks(k, s, c), MakeChains(prefix))
  {
    NewMarks(k, s, NatChain(OutName(prefix)));
    NewMarks(k, s, NatChain(PreName(prefix)));
  }

  lemma {:induction false} RedirectMarks(k: Kernel, s: Store, cfg: Config, bypass: BypassList)
    requires Bare(OutName(Prefix(cfg)), PreName(Prefix(cfg)), DnsName(Prefix(cfg)), s)
    ensures ProgramAll(c => Marks(k, s, c), RedirectProgram(cfg, bypass))
  {
    var out, pre := NatChain(OutName(Prefix(cfg))), NatChain(PreName(Prefix(cfg)));
    var make, a, b := MakeChains(Prefix(cfg)), Appends(out, ChainRules(cfg, bypass, true)), Appends(pre, ChainRules(cfg, bypass, false));
    var hook := [Must(Insert(NAT_OUTPUT, TcpJump(OutName(Prefix(cfg)))))];
    MakeMarks(k, s, Prefix(cfg));
    AppendsMark(k, s, out, ChainRules(cfg, bypass, true));
    AppendsMark(k, s, pre, ChainRules(cfg, bypass, false));
    InsertsMark(k, s, Ifaces(cfg), PreName(Prefix(cfg)));
    assert ProgramAll(c => Marks(k, s, c), hook);
    ProgramAllConcat(c => Marks(k, s, c), make, a);
    ProgramAllConcat(c => Marks(k, s, c), make + a, b);
    ProgramAllConcat(c => Marks(k, s, c), hook, PerIface(cfg));
    ProgramAllConcat(c => Marks(k, s, c), make + a + b, hook + PerIface(cfg));
  }

  lemma {:induction false} DnsMarks(k: Kernel, s: Store, dns: string, prefix: string, port: int)
    requires dns == DnsName(prefix) && NatChain(dns) !in s && NAT_OUTPUT in s && DnsJump(dns) !in s[NAT_OUTPUT]
    ensures ProgramAll(c => Marks(k, s, c), DnsProgram(prefix, port))
  {
    NewMarks(k, s, NatChain(dns));
  }

  lemma {:induction false} QuicMarks(k: Kernel, s: Store, port: int)
    requires FILTER_OUTPUT in s && QuicReject(port) !in s[FILTER_OUTPUT] && QuicDrop(port) !in s[FILTER_OUTPUT]
    ensures StepAll(c => Marks(k, s, c), FirstOk(QuicCommands(port)))
  {
  }

  lemma {:induction false} HookedChainMarks(k: Kernel, s: Store, p: Program, id: ChainId, a: Command, b: Command, c: Command,
                                            one: ChainId, two: ChainId, r: Rule)
    requires id !in s && id != FILTER_FORWARD && id != FILTER_OUTPUT && one != FILTER_FORWARD && one != FILTER_OUTPUT && two != FILTER_FORWARD
    requires two != FILTER_OUTPUT && a.Append? && b.Append? && c.Append? && a.id == id && b.id == id && c.id == id
    requires |p| == 8 && p[0] == FirstOk([List(id), New(id)]) && p[1] == Best(Flush(id)) && p[2] == Best(a) && p[3] == FirstOk([b, c])
    requires one in s && r !in s[one] && !TargetPresent(s, one, r) && two in s && r !in s[two] && !TargetPresent(s, two, r)
    requires p[4] == Best(Delete(one, r)) && p[5] == Best(Insert(one, r)) && p[6] == Best(Delete(two, r)) && p[7] == Best(Insert(two, r))
    ensures ProgramAll(c => Marks(k, s, c), p)
  {
    NewMarks(k, s, id);
  }

  lemma {:induction false} IPv6Marks(k: Kernel, s: Store)
    requires DROP6 !in s && OUTPUT6 in s && FORWARD6 in s
    requires AnyJump(DROP6_NAME) !in s[OUTPUT6] && AnyJump(DROP6_NAME) !in s[FORWARD6]
    ensures ProgramAll(c => Marks(k, s, c), IPv6Program())
  {
    HookedChainMarks(k, s, IPv6Program(), DROP6, Append(DROP6, LoopbackReturn()), Append(DROP6, Reject6()), Append(DROP6, Plain(Drop)),
                     OUTPUT6, FORWARD6, AnyJump(DROP6_NAME));
  }

  // ----- idle from a number on -----

  function ForwardIdle(env: Env, cfg: Config): nat -> bool {
    (clock: nat) => cfg.hotspot ==> env.faults(clock).Some?
  }

  function DnsIdle(env: Env, port: int): nat -> bool {
    (clock: nat) => port > 0 ==> env.faults(clock + 1).Some?
  }

  function QuicIdle(env: Env): nat -> bool {
    (clock: nat) => QuicFailed(env, clock) && QuicFailed(env, clock + 4)
  }

  function IPv6Idle(env: Env): nat -> bool {
    (clock: nat) => env.faults(clock + 1).Some?
  }

  function IgnoredIdle(env: Env, cfg: Config): nat -> bool {
    (clock: nat) => IgnoredFailed(env, clock, cfg)
  }

  function MadeIdle(env: Env): nat -> bool {
    (clock: nat) => env.faults(clock).Some? && env.faults(clock + 2).Some?
  }

  // ----- part after part -----

  /** The run from `m` to `u` took `n` commands without a trace if `idle`, and left a trace otherwise. */
  ghost predicate Traces(m: Machine, u: Machine, idle: bool, n: nat) {
    if idle then u.store == m.store && u.clock == m.clock + n else Marked(m.store, u.store)
  }

  /** From `m` on, if its store is `s`, the program leaves no trace exactly if `idle` holds of its first number. */
  ghost predicate SilentFrom(env: Env, s: Store, m: Machine, p: Program, idle: nat -> bool) {
    m.store == s ==> Traces(m, Run(env, m, p), idle(m.clock), Costs(p))
  }

  ghost predicate Silent(env: Env, s: Store, p: Program, idle: nat -> bool) {
    forall m: Machine :: SilentFrom(env, s, m, p, idle)
  }

  /** A program of which every command is refused or leaves a trace is silent exactly if it is muted. */
  lemma {:induction false} PartSilent(env: Env, s: Store, p: Program, idle: nat -> bool)
    requires ProgramAll(c => Marks(env.kernel, s, c), p)
    requires forall clock: nat :: Muted(env, s, clock, p) <==> idle(clock)
    ensures Silent(env, s, p, idle)
  {
    forall m: Machine ensures SilentFrom(env, s, m, p, idle) {
      if m.store != s {
      } else if Muted(env, s, m.clock, p) {
        MutedIdle(env, m, p);
      } else {
        UnmutedMarks(env, m, p);
      }
    }
  }

  lemma {:induction false} TracesThen(env: Env, m: Machine, t: Machine, q: Program, a: bool, b: bool, n: nat, n2: nat)
    requires Traces(m, t, a, n) && (a ==> Traces(t, Run(env, t, q), b, n2)) && ProgramAll(c => Additive(c), q)
    ensures Traces(m, Run(env, t, q), a && b, n + n2)
  {
    if !a {
      AdditiveInductive(env.kernel, m.store);
      RunInvariant(env, t, q, (u: Store) => Marked(m.store, u), (c: Command) => Additive(c));
    }
  }

  /** One part after the other. */
  lemma {:induction false} SilentThen(env: Env, s: Store, p: Program, q: Program, r: Program, a: nat -> bool, b: nat -> bool, idle: nat -> bool)
    requires Silent(env, s, p, a) && Silent(env, s, q, b) && r == p + q
    requires ProgramAll(c => Additive(c), q)
    requires forall clock: nat :: idle(clock) <==> a(clock) && b(clock + Costs(p))
    ensures Silent(env, s, r, idle)
  {
    forall m: Machine ensures SilentFrom(env, s, m, r, idle) {
      assert SilentFrom(env, s, m, p, a);
      if m.store == s {
        SilentTwo(env, m, p, q, a, b, idle);
      }
    }
  }

  lemma {:induction false} SilentTwo(env: Env, m: Machine, p: Program, q: Program, a: nat -> bool, b: nat -> bool, idle: nat -> bool)
    requires SilentFrom(env, m.store, m, p, a) && Silent(env, m.store, q, b)
    requires ProgramAll(c => Additive(c), q)
    requires idle(m.clock) <==> a(m.clock) && b(m.clock + Costs(p))
    ensures SilentFrom(env, m.store, m, p + q, idle)
  {
    var t := Run(env, m, p);
    RunConcat(env, m, p, q);
    CostsConcat(p, q);
    if a(m.clock) {
      assert SilentFrom(env, m.store, t, q, b);
    }
    TracesThen(env, m, t, q, a(m.clock), b(m.clock + Costs(p)), Costs(p), Costs(q));
  }

  lemma {:induction false} ForwardSilent(env: Env, s: Store, cfg: Config)
    requires FILTER_FORWARD in s
    ensures Silent(env, s, ForwardAccept(cfg), ForwardIdle(env, cfg))
  {
    assert ProgramAll(c => Marks(env.kernel, s, c), ForwardAccept(cfg));
    forall clock: nat ensures Muted(env, s, clock, ForwardAccept(cfg)) <==> (cfg.hotspot ==> env.faults(clock).Some?) {
      MutedForward(env, s, clock, cfg);
    }
    PartSilent(env, s, ForwardAccept(cfg), ForwardIdle(env, cfg));
  }

  lemma {:induction false} DnsSilent(env: Env, s: Store, dns: string, prefix: string, port: int)
    requires dns == DnsName(prefix) && NatChain(dns) !in s && NAT_OUTPUT in s && DnsJump(dns) !in s[NAT_OUTPUT]
    ensures Silent(env, s, DnsProgram(prefix, port), DnsIdle(env, port))
  {
    DnsMarks(env.kernel, s, dns, prefix, port);
    forall clock: nat ensures Muted(env, s, clock, DnsProgram(prefix, port)) <==> (port > 0 ==> env.faults(clock + 1).Some?) {
      MutedDns(env, s, clock, dns, prefix, port);
    }
    PartSilent(env, s, DnsProgram(prefix, port), DnsIdle(env, port));
  }

  lemma {:induction false} QuicAllMark(k: Kernel, s: Store)
    requires FILTER_OUTPUT in s
    requires QuicReject(443) !in s[FILTER_OUTPUT] && QuicDrop(443) !in s[FILTER_OUTPUT]
    requires QuicReject(80) !in s[FILTER_OUTPUT] && QuicDrop(80) !in s[FILTER_OUTPUT]
    ensures ProgramAll(c => Marks(k, s, c), QuicProgram())
  {
    QuicMarks(k, s, 443);
    QuicMarks(k, s, 80);
  }

  lemma {:induction false} QuicStepsSilent(env: Env, s: Store, one: int, two: int, p: Program)
    requires ValidPort(one) && ValidPort(two) && FILTER_OUTPUT in s
    requires QuicReject(one) !in s[FILTER_OUTPUT] && QuicDrop(one) !in s[FILTER_OUTPUT]
    requires QuicReject(two) !in s[FILTER_OUTPUT] && QuicDrop(two) !in s[FILTER_OUTPUT]
    requires p == [FirstOk(QuicCommands(one)), FirstOk(QuicCommands(two))]
    requires ProgramAll(c => Marks(env.kernel, s, c), p)
    ensures Silent(env, s, p, QuicIdle(env))
  {
    forall clock: nat ensures Muted(env, s, clock, p) <==> QuicIdle(env)(clock) {
      MutedQuicSteps(env, s, clock, one, two);
    }
    PartSilent(env, s, p, QuicIdle(env));
  }

  lemma {:induction false} QuicSilent(env: Env, s: Store)
    requires FILTER_OUTPUT in s
    requires QuicReject(443) !in s[FILTER_OUTPUT] && QuicDrop(443) !in s[FILTER_OUTPUT]
    requires QuicReject(80) !in s[FILTER_OUTPUT] && QuicDrop(80) !in s[FILTER_OUTPUT]
    ensures Silent(env, s, QuicProgram(), QuicIdle(env))
  {
    QuicAllMark(env.kernel, s);
    QuicStepsSilent(env, s, 443, 80, QuicProgram());
  }

  lemma {:induction false} HookedChainSilent(env: Env, s: Store, p: Program, id: ChainId, a: Command, b: Command, c: Command,
                                             one: ChainId, two: ChainId, r: Rule)
    requires id !in s && a.Append? && b.Append? && c.Append? && a.id == id && b.id == id && c.id == id
    requires |p| == 8 && p[0] == FirstOk([List(id), New(id)]) && p[1] == Best(Flush(id)) && p[2] == Best(a) && p[3] == FirstOk([b, c])
    requires one in s && r !in s[one] && !TargetPresent(s, one, r) && two in s && r !in s[two] && !TargetPresent(s, two, r)
    requires p[4] == Best(Delete(one, r)) && p[5] == Best(Insert(one, r)) && p[6] == Best(Delete(two, r)) && p[7] == Best(Insert(two, r))
    requires ProgramAll(c => Marks(env.kernel, s, c), p)
    ensures Silent(env, s, p, IPv6Idle(env))
  {
    forall clock: nat ensures Muted(env, s, clock, p) <==> IPv6Idle(env)(clock) {
      MutedHookedChain(env, s, clock, p, id, a, b, c, one, two, r);
    }
    PartSilent(env, s, p, IPv6Idle(env));
  }

  lemma {:induction false} IPv6Silent(env: Env, s: Store)
    requires DROP6 !in s && OUTPUT6 in s && FORWARD6 in s
    requires AnyJump(DROP6_NAME) !in s[OUTPUT6] && AnyJump(DROP6_NAME) !in s[FORWARD6]
    ensures Silent(env, s, IPv6Program(), IPv6Idle(env))
  {
    IPv6Marks(env.kernel, s);
    HookedChainSilent(env, s, IPv6Program(), DROP6, Append(DROP6, LoopbackReturn()), Append(DROP6, Reject6()), Append(DROP6, Plain(Drop)),
                      OUTPUT6, FORWARD6, AnyJump(DROP6_NAME));
  }

  lemma {:induction false} RedirectSilent(env: Env, s: Store, cfg: Config, bypass: BypassList)
    requires Bare(OutName(Prefix(cfg)), PreName(Prefix(cfg)), DnsName(Prefix(cfg)), s)
    ensures Silent(env, s, RedirectProgram(cfg, bypass), MadeIdle(env))
    ensures Costs(RedirectProgram(cfg, bypass)) == RedirectLength(cfg, bypass)
  {
    RedirectMarks(env.kernel, s, cfg, bypass);
    MutedRedirect(env, s, 0, cfg, bypass);
    forall clock: nat ensures Muted(env, s, clock, RedirectProgram(cfg, bypass)) <==> env.faults(clock).Some? && env.faults(clock + 2).Some? {
      MutedRedirect(env, s, clock, cfg, bypass);
    }
    PartSilent(env, s, RedirectProgram(cfg, bypass), MadeIdle(env));
  }

  lemma {:induction false} IgnoredAdditive(prefix: string, port: int)
    ensures ProgramAll(c => Additive(c), DnsProgram(prefix, port))
    ensures ProgramAll(c => Additive(c), QuicProgram())
  {
  }

  lemma {:induction false} IPv6Additive()
    ensures ProgramAll(c => Additive(c), IPv6Program())
  {
  }

  lemma {:induction false} IgnoredCosts(env: Env, s: Store, cfg: Config, port: int)
    requires Bare(OutName(Prefix(cfg)), PreName(Prefix(cfg)), DnsName(Prefix(cfg)), s) && port == cfg.dnsForwardPort
    ensures Costs(ForwardAccept(cfg)) == DnsAt(0, cfg)
    ensures Costs(DnsProgram(Prefix(cfg), port)) == if port > 0 then 7 else 0
    ensures Costs(QuicProgram()) == 8
  {
    MutedForward(env, s, 0, cfg);
    MutedDns(env, s, 0, DnsName(Prefix(cfg)), Prefix(cfg), port);
    MutedQuic(env, s, 0);
  }

  lemma {:induction false} FirstSilent(env: Env, s: Store, cfg: Config, f: Program, d: Program)
    requires Silent(env, s, f, ForwardIdle(env, cfg)) && Silent(env, s, d, DnsIdle(env, cfg.dnsForwardPort))
    requires Costs(f) == DnsAt(0, cfg) && ProgramAll(c => Additive(c), d)
    ensures Silent(env, s, f + d, (clock: nat) => FirstFailed(env, clock, cfg))
  {
    SilentThen(env, s, f, d, f + d, ForwardIdle(env, cfg), DnsIdle(env, cfg.dnsForwardPort), (clock: nat) => FirstFailed(env, clock, cfg));
  }

  lemma {:induction false} LastSilent(env: Env, s: Store, q: Program, v: Program)
    requires Silent(env, s, q, QuicIdle(env)) && Silent(env, s, v, IPv6Idle(env))
    requires Costs(q) == 8 && ProgramAll(c => Additive(c), v)
    ensures Silent(env, s, q + v, (clock: nat) => LastFailed(env, clock))
  {
    SilentThen(env, s, q, v, q + v, QuicIdle(env), IPv6Idle(env), (clock: nat) => LastFailed(env, clock));
  }

  /** `f`, `d`, `q` and `v` are the four groups of ignored commands. */
  lemma {:induction false} FourSilent(env: Env, s: Store, cfg: Config, f: Program, d: Program, q: Program, v: Program)
    requires Silent(env, s, f, ForwardIdle(env, cfg)) && Silent(env, s, d, DnsIdle(env, cfg.dnsForwardPort))
    requires Silent(env, s, q, QuicIdle(env)) && Silent(env, s, v, IPv6Idle(env))
    requires Costs(f) == DnsAt(0, cfg) && Costs(d) == (if cfg.dnsForwardPort > 0 then 7 else 0) && Costs(q) == 8
    requires ProgramAll(c => Additive(c), d) && ProgramAll(c => Additive(c), q) && ProgramAll(c => Additive(c), v)
    ensures Silent(env, s, f + d + q + v, IgnoredIdle(env, cfg))
  {
    FirstSilent(env, s, cfg, f, d);
    LastSilent(env, s, q, v);
    CostsConcat(f, d);
    Assoc(f + d, q, v);
    ProgramAllConcat(c => Additive(c), q, v);
    SilentThen(env, s, f + d, q + v, f + d + q + v, (clock: nat) => FirstFailed(env, clock, cfg), (clock: nat) => LastFailed(env, clock),
               IgnoredIdle(env, cfg));
  }

  /** The ignored commands in a clean store. */
  lemma {:induction false} BestEffortSilent(env: Env, s: Store, cfg: Config)
    requires Bare(OutName(Prefix(cfg)), PreName(Prefix(cfg)), DnsName(Prefix(cfg)), s)
    ensures Silent(env, s, BestEffortProgram(cfg), IgnoredIdle(env, cfg))
  {
    ForwardSilent(env, s, cfg);
    DnsSilent(env, s, DnsName(Prefix(cfg)), Prefix(cfg), cfg.dnsForwardPort);
    QuicSilent(env, s);
    IPv6Silent(env, s);
    IgnoredAdditive(Prefix(cfg), cfg.dnsForwardPort);
    IPv6Additive();
    IgnoredCosts(env, s, cfg, cfg.dnsForwardPort);
    FourSilent(env, s, cfg, ForwardAccept(cfg), DnsProgram(Prefix(cfg), cfg.dnsForwardPort), QuicProgram(), IPv6Program());
  }

  lemma {:induction false} ForwardAdditive(cfg: Config)
    ensures ProgramAll(c => Additive(c), ForwardAccept(cfg))
  {
  }

  lemma {:induction false} BestEffortAdditive(cfg: Config)
    ensures ProgramAll(c => Additive(c), BestEffortProgram(cfg))
  {
    var f, d := ForwardAccept(cfg), DnsProgram(Prefix(cfg), cfg.dnsForwardPort);
    ForwardAdditive(cfg);
    IgnoredAdditive(Prefix(cfg), cfg.dnsForwardPort);
    IPv6Additive();
    ProgramAllConcat(c => Additive(c), f, d);
    ProgramAllConcat(c => Additive(c), f + d, QuicProgram());
    ProgramAllConcat(c => Additive(c), f + d + QuicProgram(), IPv6Program());
  }

  /** `t` is what the recorded commands leave. */
  lemma {:induction false} TwoTraces(env: Env, m: Machine, t: Machine, best: Program, a: bool, b: bool, n: nat, n2: nat)
    requires Traces(m, t, a, n) && (a ==> Traces(t, Run(env, t, best), b, n2)) && ProgramAll(c => Additive(c), best)
    ensures Run(env, t, best).store == m.store <==> a && b
  {
    TracesThen(env, m, t, best, a, b, n, n2);
  }

  lemma {:induction false} RedirectTraces(env: Env, m: Machine, cfg: Config, bypass: BypassList)
    requires Bare(OutName(Prefix(cfg)), PreName(Prefix(cfg)), DnsName(Prefix(cfg)), m.store)
    ensures Traces(m, Run(env, m, RedirectProgram(cfg, bypass)), NotMade(env, m.clock), RedirectLength(cfg, bypass))
  {
    RedirectSilent(env, m.store, cfg, bypass);
    assert SilentFrom(env, m.store, m, RedirectProgram(cfg, bypass), MadeIdle(env));
  }

  lemma {:induction false} BestEffortTraces(env: Env, m: Machine, cfg: Config)
    requires Bare(OutName(Prefix(cfg)), PreName(Prefix(cfg)), DnsName(Prefix(cfg)), m.store)
    ensures Traces(m, Run(env, m, BestEffortProgram(cfg)), IgnoredFailed(env, m.clock, cfg), Costs(BestEffortProgram(cfg)))
  {
    BestEffortSilent(env, m.store, cfg);
    assert SilentFrom(env, m.store, m, BestEffortProgram(cfg), IgnoredIdle(env, cfg));
  }

  /** `forward` is the number of the first ignored command, if the recorded ones left no trace. */
  lemma {:induction false} BestEffortAfter(env: Env, m: Machine, t: Machine, u: Machine, cfg: Config, idle: bool, n: nat, forward: nat)
    requires Bare(OutName(Prefix(cfg)), PreName(Prefix(cfg)), DnsName(Prefix(cfg)), m.store) && Traces(m, t, idle, n)
    requires u == Run(env, t, BestEffortProgram(cfg)) && forward == m.clock + n
    ensures u.store == m.store <==> idle && IgnoredFailed(env, forward, cfg)
  {
    BestEffortAdditive(cfg);
    if idle {
      assert t.clock == forward;
      BestEffortTraces(env, t, cfg);
    }
    TwoTraces(env, m, t, BestEffortProgram(cfg), idle, IgnoredFailed(env, forward, cfg), n, Costs(BestEffortProgram(cfg)));
  }

  /** The machines after the cleanup, after the recorded commands and at the end of Apply. */
  lemma {:induction false} ApplyStages(cfg: Config, s0: Store, env: Env, bypass: BypassList) returns (m: Machine, t: Machine, u: Machine)
    requires CleanStart(cfg, s0)
    ensures m.store == s0 && m.clock == Making(cfg)
    ensures t == Run(env, m, RedirectProgram(cfg, bypass)) && u == Run(env, t, BestEffortProgram(cfg))
    ensures RunCall(cfg, s0, ApplyCall(env, bypass)) == u.store
  {
    ApplyRuns(cfg, s0, env, bypass);
    m := Machine(s0, Making(cfg), []);
    t := Run(env, m, RedirectProgram(cfg, bypass));
    u := Run(env, t, BestEffortProgram(cfg));
  }

  lemma {:induction false} RedirectStage(cfg: Config, s0: Store, env: Env, bypass: BypassList) returns (m: Machine, t: Machine, u: Machine)
    requires CleanStart(cfg, s0)
    ensures m.store == s0 && m.clock == Making(cfg)
    ensures Traces(m, t, NotMade(env, m.clock), RedirectLength(cfg, bypass))
    ensures u == Run(env, t, BestEffortProgram(cfg)) && RunCall(cfg, s0, ApplyCall(env, bypass)) == u.store
    ensures Bare(OutName(Prefix(cfg)), PreName(Prefix(cfg)), DnsName(Prefix(cfg)), s0)
  {
    CleanIsBare(cfg, s0);
    m, t, u := ApplyStages(cfg, s0, env, bypass);
    RedirectTraces(env, m, cfg, bypass);
  }

  /**
   An Apply from a clean start leaves the store as it was if and only if every
   command that a clean store takes was failed.
   */
  lemma {:induction false} ApplyLeavesNoTrace(cfg: Config, s0: Store, env: Env, bypass: BypassList)
    requires CleanStart(cfg, s0)
    ensures RunCall(cfg, s0, ApplyCall(env, bypass)) == s0 <==> Suppressed(env, cfg, bypass)
  {
    var m, t, u := RedirectStage(cfg, s0, env, bypass);
    BestEffortAfter(env, m, t, u, cfg, NotMade(env, m.clock), RedirectLength(cfg, bypass), ForwardAt(m.clock, cfg, bypass));
  }
}

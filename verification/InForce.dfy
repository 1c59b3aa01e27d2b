/**
 What a disturbed Apply from a clean start means for TCP, at nat OUTPUT and at nat
 PREROUTING, whatever failed in it; and when a nil result means that the redirect is
 in force. The commands that decide have fixed numbers.
 */
module InForce {
  import opened Common
  import opened Netfilter
  import opened Firewall
  import opened Ownership
  import opened Additions
  import opened Undo
  import opened Idle
  import opened BestEffort
  import opened Packets
  import opened Verdicts
  import opened MoreVerdicts
  import opened Disturbed

  /** Neither of the two commands that decide was failed. */
  predicate Decided(env: Env, making: nat, l: Plan) {
    env.faults(RedirectAt(making, l)).None? && env.faults(HookAt(making, l)).None?
  }

  /** Some interface hook that matches the name, of those inserted from command number `clock` on, was not failed. */
  predicate Caught(env: Env, clock: nat, ifaces: seq<string>, name: string)
    decreases ifaces
  {
    ifaces != []
    && if Blank(ifaces[0]) then Caught(env, clock, ifaces[1..], name)
       else (env.faults(clock).None? && IfaceMatches(ifaces[0], name)) || Caught(env, clock + 1, ifaces[1..], name)
  }

  /** The same for packets that enter on the interface. */
  predicate HotspotDecided(env: Env, making: nat, l: Plan, name: string) {
    l.hotspot && env.faults(PreRedirectAt(making, l)).None? && Caught(env, HookAt(making, l) + 1, l.ifaces, name)
  }

  /** Some exempting rule that matches the packet got in. */
  ghost predicate Shielded(env: Env, making: nat, l: Plan, ext: Ext, p: Packet) {
    SomeMatch(ext, Kept(env, making + 4, l.outRets), p)
  }

  ghost predicate HotspotShielded(env: Env, making: nat, l: Plan, ext: Ext, p: Packet) {
    SomeMatch(ext, Kept(env, PreFirst(making, l), l.preRets), p)
  }

  /** A TCP packet that this device sends is redirected after Apply, whatever Apply returned. */
  ghost predicate Redirected(env: Env, making: nat, l: Plan, ext: Ext, p: Packet) {
    env.faults(making).None? && Decided(env, making, l) && ValidPort(l.port) && !Shielded(env, making, l, ext, p)
  }

  /** And one that enters the device. */
  ghost predicate HotspotRedirected(env: Env, making: nat, l: Plan, ext: Ext, p: Packet) {
    && env.faults(making + 2).None? && HotspotDecided(env, making, l, p.inIface) && ValidPort(l.port)
    && !HotspotShielded(env, making, l, ext, p)
  }

  // ----- the chains -----

  ghost predicate AllReturn(rules: seq<Rule>) {
    forall r :: r in rules ==> r.target == Return
  }

  lemma {:induction false} KeptConcat(env: Env, clock: nat, a: seq<Rule>, b: seq<Rule>)
    ensures Kept(env, clock, a + b) == Kept(env, clock, a) + Kept(env, clock + |a|, b)
    decreases a
  {
    if a == [] {
      assert a + b == b;
    } else {
      assert (a + b)[0] == a[0] && (a + b)[1..] == a[1..] + b;
      KeptConcat(env, clock + 1, a[1..], b);
    }
  }

  lemma {:induction false} KeptMembers(env: Env, clock: nat, rules: seq<Rule>)
    ensures forall r :: r in Kept(env, clock, rules) ==> r in rules
    decreases rules
  {
    if rules != [] {
      KeptMembers(env, clock + 1, rules[1..]);
    }
  }

  /** A chain of exempting rules and a REDIRECT, as far as they got in. */
  lemma {:induction false} KeptVerdict(env: Env, clock: nat, rets: seq<Rule>, port: int, last: nat, s: Store, ext: Ext, at: ChainId,
                                       avail: set<ChainId>, p: Packet)
    requires p.proto.Tcp? && AllReturn(rets) && last == clock + |rets|
    ensures Eval(s, ext, at, avail, Kept(env, clock, rets + [RedirectTo(port)]), p)
         == if SomeMatch(ext, Kept(env, clock, rets), p) || env.faults(last).Some? || !ValidPort(port) then None else Some(Redirect(port))
  {
    var redirect := [RedirectTo(port)];
    var tail := Kept(env, clock + |rets|, redirect);
    KeptConcat(env, clock, rets, redirect);
    KeptMembers(env, clock, rets);
    EvalReturns(s, ext, at, avail, Kept(env, clock, rets), tail, p);
    assert redirect[1..] == [] && tail == if env.faults(last).None? && ValidPort(port) then redirect else [];
    EvalSkip(s, ext, at, avail, RedirectTo(port), [], p);
    assert redirect + [] == redirect;
  }

  /** The interface hooks that got in, in front of the old rules. */
  lemma {:induction false} KeptHooksEval(env: Env, clock: nat, s: Store, ext: Ext, avail: set<ChainId>, ifaces: seq<string>, ch: string,
                                         rest: seq<Rule>, p: Packet)
    requires NatChain(ch) in s && NatChain(ch) in avail && p.proto.Tcp?
    ensures var inner := Eval(s, ext, NatChain(ch), avail - {NatChain(ch)}, s[NatChain(ch)], p);
      Eval(s, ext, NAT_PREROUTING, avail, KeptHooks(env, clock, ifaces, ch) + rest, p)
      == if Caught(env, clock, ifaces, p.inIface) && inner.Some? then inner else Eval(s, ext, NAT_PREROUTING, avail, rest, p)
    decreases ifaces
  {
    if ifaces == [] {
      EmptyPlus(rest);
    } else if Blank(ifaces[0]) {
      KeptHooksEval(env, clock, s, ext, avail, ifaces[1..], ch, rest, p);
    } else {
      var front := if env.faults(clock).None? then [IfaceTcpJump(ifaces[0], ch)] else [];
      Assoc(KeptHooks(env, clock + 1, ifaces[1..], ch), front, rest);
      KeptHooksEval(env, clock + 1, s, ext, avail, ifaces[1..], ch, front + rest, p);
      EmptyPlus(rest);
      EvalSkip(s, ext, NAT_PREROUTING, avail, IfaceTcpJump(ifaces[0], ch), rest, p);
    }
  }

  lemma {:induction false} CopiesSkip(s: Store, ext: Ext, avail: set<ChainId>, n: nat, name: string, rest: seq<Rule>, p: Packet)
    requires p.proto.Tcp?
    ensures Eval(s, ext, NAT_OUTPUT, avail, Copies(n, DnsJump(name)) + rest, p) == Eval(s, ext, NAT_OUTPUT, avail, rest, p)
  {
    if n == 0 {
      assert [] + rest == rest;
    } else {
      Assoc([DnsJump(name)], Copies(n - 1, DnsJump(name)), rest);
      EvalSkip(s, ext, NAT_OUTPUT, avail, DnsJump(name), Copies(n - 1, DnsJump(name)) + rest, p);
      CopiesSkip(s, ext, avail, n - 1, name, rest, p);
    }
  }

  // ----- the original rules -----

  /** The chains of the original store that are not built-in are still there. */
  ghost predicate Keeps(s0: Store, s: Store) {
    forall c :: c in s0 && c !in BUILTINS ==> c in s && s[c] == s0[c]
  }

  /** In every such store the original rules of the chain treat the packet as they did. */
  ghost predicate Stable(s0: Store, ext: Ext, id: ChainId, p: Packet) {
    id in s0 && forall s :: Keeps(s0, s) ==> Eval(s, ext, id, s.Keys - {id}, s0[id], p) == Verdict(s0, ext, id, p)
  }

  lemma {:induction false} StartStable(cfg: Config, s0: Store, ext: Ext, id: ChainId, p: Packet)
    requires Start(cfg, s0) && id in BUILTINS
    ensures Stable(s0, ext, id, p)
  {
    forall s | Keeps(s0, s) ensures Eval(s, ext, id, s.Keys - {id}, s0[id], p) == Verdict(s0, ext, id, p) {
      VerdictSame(s0, s, ext, id, p);
    }
  }

  // ----- the store that Apply leaves -----

  /** The nat chains after Apply; `dns` names the DNS chain. */
  ghost predicate Seen(env: Env, making: nat, l: Plan, dns: string, s0: Store, s: Store) {
    && NamesFree(l) && Keeps(s0, s) && Chains(env, making, l, s)
    && NAT_OUTPUT in s && NAT_OUTPUT in s0 && Fronted(DnsJump(dns), OutHooks(env, making, l) + s0[NAT_OUTPUT], s[NAT_OUTPUT])
    && NAT_PREROUTING in s && NAT_PREROUTING in s0 && s[NAT_PREROUTING] == PreHooks(env, making, l) + s0[NAT_PREROUTING]
  }

  /** The ignored commands change nothing of that but DNS hooks in front of OUTPUT. */
  lemma {:induction false} KeptSeen(env: Env, making: nat, l: Plan, dns: string, s0: Store, t: Store, s: Store)
    requires NamesFree(l) && Keeps(s0, t) && Chains(env, making, l, t) && Hooks(env, making, l, s0, t)
    requires NatKept(NatChain(dns), DnsJump(dns), t, s) && l.out != dns && l.pre != dns && NatChain(dns) != NAT_PREROUTING
    requires NatChain(dns) !in s0 && DROP6 !in s0
    ensures Seen(env, making, l, dns, s0, s)
  {
  }

  lemma {:induction false} NamesApart(prefix: string)
    ensures OutName(prefix) != DnsName(prefix) && PreName(prefix) != DnsName(prefix)
  {
    assert |OutName(prefix)| != |DnsName(prefix)| && |PreName(prefix)| != |DnsName(prefix)|;
  }

  lemma {:induction false} RedirectKeepsForeign(env: Env, m: Machine, cfg: Config, bypass: BypassList)
    requires CleanStart(cfg, m.store)
    ensures Keeps(m.store, Run(env, m, RedirectProgram(cfg, bypass)).store)
  {
    OwnChainsOwned(cfg);
    forall c | c in m.store && c !in BUILTINS ensures SameAt(Run(env, m, RedirectProgram(cfg, bypass)).store, m.store, c) {
      RedirectKeepsOthers(env, m, cfg, bypass, c);
    }
  }

  lemma {:induction false} DnsFresh(cfg: Config, s0: Store)
    requires CleanStart(cfg, s0)
    ensures NatChain(DnsName(Prefix(cfg))) !in s0 && DROP6 !in s0
    ensures NatChain(DnsName(Prefix(cfg))) !in BUILTINS && DROP6 !in BUILTINS
  {
    OwnChainsOwned(cfg);
    OwnNotBuiltin(cfg);
  }

  /** The DNS hook is not among the hooks that the recorded commands leave. */
  lemma {:induction false} NoDnsHook(cfg: Config, bypass: BypassList, env: Env, making: nat, s0: Store)
    requires CleanStart(cfg, s0)
    ensures DnsJump(DnsName(Prefix(cfg))) !in OutHooks(env, making, PlanOf(cfg, bypass)) + s0[NAT_OUTPUT]
  {
    HookNotThere(cfg, s0);
  }

  lemma {:induction false} InstallSeen(cfg: Config, m: Machine, t: Machine, env: Env, bypass: BypassList)
    requires CleanStart(cfg, m.store) && t == Run(env, m, RedirectProgram(cfg, bypass))
    ensures Seen(env, m.clock, PlanOf(cfg, bypass), DnsName(Prefix(cfg)), m.store, Run(env, t, BestEffortProgram(cfg)).store)
  {
    RecordedLeave(env, m, cfg, bypass);
    RedirectKeepsForeign(env, m, cfg, bypass);
    DnsFresh(cfg, m.store);
    NamesApart(Prefix(cfg));
    NoDnsHook(cfg, bypass, env, m.clock, m.store);
    BestEffortKeepsNat(cfg, env, t);
    KeptSeen(env, m.clock, PlanOf(cfg, bypass), DnsName(Prefix(cfg)), m.store, t.store, Run(env, t, BestEffortProgram(cfg)).store);
  }

  lemma {:induction false} ApplySeen(cfg: Config, s0: Store, env: Env, bypass: BypassList)
    requires CleanStart(cfg, s0)
    ensures Seen(env, Making(cfg), PlanOf(cfg, bypass), DnsName(Prefix(cfg)), s0, Run(env, Begin(s0), ApplyProgram(cfg, bypass)).store)
  {
    var m := Machine(s0, Making(cfg), []);
    ApplyRuns(cfg, s0, env, bypass);
    InstallSeen(cfg, m, Run(env, m, RedirectProgram(cfg, bypass)), env, bypass);
  }

  // ----- the verdicts -----

  ghost predicate OnlyReturns(l: Plan) {
    AllReturn(l.outRets) && AllReturn(l.preRets)
  }

  lemma {:induction false} PlanReturns(cfg: Config, bypass: BypassList)
    ensures OnlyReturns(PlanOf(cfg, bypass))
  {
    ReturnsPlain(true, PrivateCidrs(), bypass, ExemptPorts(cfg));
    ReturnsPlain(false, PrivateCidrs(), bypass, ExemptPorts(cfg));
  }

  lemma {:induction false} SeenOutput(env: Env, making: nat, l: Plan, dns: string, s0: Store, s: Store, ext: Ext, p: Packet)
    requires Seen(env, making, l, dns, s0, s) && Stable(s0, ext, NAT_OUTPUT, p) && p.proto.Tcp? && OnlyReturns(l)
    ensures Verdict(s, ext, NAT_OUTPUT, p)
         == if Redirected(env, making, l, ext, p) then Some(Redirect(l.port)) else Verdict(s0, ext, NAT_OUTPUT, p)
  {
    var avail, to := s.Keys - {NAT_OUTPUT}, NatChain(l.out);
    var front := OutHooks(env, making, l);
    var n: nat :| s[NAT_OUTPUT] == Copies(n, DnsJump(dns)) + (front + s0[NAT_OUTPUT]);
    CopiesSkip(s, ext, avail, n, dns, front + s0[NAT_OUTPUT], p);
    if env.faults(making).None? && env.faults(HookAt(making, l)).None? {
      EvalSkip(s, ext, NAT_OUTPUT, avail, TcpJump(l.out), s0[NAT_OUTPUT], p);
      KeptVerdict(env, making + 4, l.outRets, l.port, RedirectAt(making, l), s, ext, to, avail - {to}, p);
    } else {
      EmptyPlus(s0[NAT_OUTPUT]);
    }
  }

  lemma {:induction false} SeenPrerouting(env: Env, making: nat, l: Plan, dns: string, s0: Store, s: Store, ext: Ext, p: Packet)
    requires Seen(env, making, l, dns, s0, s) && Stable(s0, ext, NAT_PREROUTING, p) && p.proto.Tcp? && OnlyReturns(l)
    ensures Verdict(s, ext, NAT_PREROUTING, p)
         == if HotspotRedirected(env, making, l, ext, p) then Some(Redirect(l.port)) else Verdict(s0, ext, NAT_PREROUTING, p)
  {
    var avail, to := s.Keys - {NAT_PREROUTING}, NatChain(l.pre);
    if l.hotspot && env.faults(making + 2).None? {
      KeptHooksEval(env, HookAt(making, l) + 1, s, ext, avail, l.ifaces, l.pre, s0[NAT_PREROUTING], p);
      KeptVerdict(env, PreFirst(making, l), l.preRets, l.port, PreRedirectAt(making, l), s, ext, to, avail - {to}, p);
    } else {
      EmptyPlus(s0[NAT_PREROUTING]);
    }
  }

  /**
   What Apply means for a TCP packet that this device sends, whatever failed in it and
   whatever it returned: the packet is redirected if the chain was made, neither
   deciding command was failed, the port is one iptables takes, and no exempting
   rule that matches the packet got in; otherwise it is treated as before.
   */
  lemma {:induction false} ApplyVerdict(cfg: Config, s0: Store, env: Env, bypass: BypassList, ext: Ext, p: Packet)
    requires Start(cfg, s0) && p.proto.Tcp?
    ensures Verdict(Run(env, Begin(s0), ApplyProgram(cfg, bypass)).store, ext, NAT_OUTPUT, p)
         == if Redirected(env, Making(cfg), PlanOf(cfg, bypass), ext, p) then Some(Redirect(Port(cfg))) else Verdict(s0, ext, NAT_OUTPUT, p)
  {
    ApplySeen(cfg, s0, env, bypass);
    PlanReturns(cfg, bypass);
    StartStable(cfg, s0, ext, NAT_OUTPUT, p);
    SeenOutput(env, Making(cfg), PlanOf(cfg, bypass), DnsName(Prefix(cfg)), s0, Run(env, Begin(s0), ApplyProgram(cfg, bypass)).store, ext, p);
  }

  /** The same for a TCP packet that enters the device, from a hotspot client or elsewhere. */
  lemma {:induction false} HotspotApplyVerdict(cfg: Config, s0: Store, env: Env, bypass: BypassList, ext: Ext, p: Packet)
    requires Start(cfg, s0) && p.proto.Tcp?
    ensures Verdict(Run(env, Begin(s0), ApplyProgram(cfg, bypass)).store, ext, NAT_PREROUTING, p)
         == if HotspotRedirected(env, Making(cfg), PlanOf(cfg, bypass), ext, p) then Some(Redirect(Port(cfg)))
            else Verdict(s0, ext, NAT_PREROUTING, p)
  {
    ApplySeen(cfg, s0, env, bypass);
    PlanReturns(cfg, bypass);
    StartStable(cfg, s0, ext, NAT_PREROUTING, p);
    SeenPrerouting(env, Making(cfg), PlanOf(cfg, bypass), DnsName(Prefix(cfg)), s0, Run(env, Begin(s0), ApplyProgram(cfg, bypass)).store, ext, p);
  }

  // ----- a nil result -----

  /** With a nil result, a REDIRECT that was not failed stands for a valid port if its chain was made. */
  lemma {:induction false} RedirectFine(env: Env, clock: nat, made: bool, rets: seq<Rule>, port: int, last: nat)
    requires AppendsFine(env, clock, made, rets + [RedirectTo(port)]) && made && last == clock + |rets| && env.faults(last).None?
    ensures ValidPort(port)
  {
    assert (rets + [RedirectTo(port)])[|rets|] == RedirectTo(port);
    assert RuleFine(env, clock + |rets|, made, (rets + [RedirectTo(port)])[|rets|]);
  }

  lemma {:induction false} NilDecides(env: Env, making: nat, l: Plan, ext: Ext, p: Packet)
    requires ReturnsNil(env, making, l)
    ensures Redirected(env, making, l, ext, p) <==> Decided(env, making, l) && !Shielded(env, making, l, ext, p)
  {
    if Decided(env, making, l) {
      RedirectFine(env, making + 4, env.faults(making).None?, l.outRets, l.port, RedirectAt(making, l));
    }
  }

  lemma {:induction false} CaughtFine(env: Env, clock: nat, ifaces: seq<string>, name: string, made: bool)
    requires AllFine(env, clock, clock + NonBlank(ifaces), made) && Caught(env, clock, ifaces, name)
    ensures made
    decreases ifaces
  {
    if Blank(ifaces[0]) {
      CaughtFine(env, clock, ifaces[1..], name, made);
    } else {
      assert Fine(env, clock, made);
      AllFineCons(env, clock, clock + NonBlank(ifaces), made);
      if !(env.faults(clock).None? && IfaceMatches(ifaces[0], name)) {
        CaughtFine(env, clock + 1, ifaces[1..], name, made);
      }
    }
  }

  lemma {:induction false} NilHotspotDecides(env: Env, making: nat, l: Plan, ext: Ext, p: Packet)
    requires ReturnsNil(env, making, l)
    ensures HotspotRedirected(env, making, l, ext, p) <==> HotspotDecided(env, making, l, p.inIface) && !HotspotShielded(env, making, l, ext, p)
  {
    if HotspotDecided(env, making, l, p.inIface) {
      CaughtFine(env, HookAt(making, l) + 1, l.ifaces, p.inIface, env.faults(making + 2).None?);
      RedirectFine(env, PreFirst(making, l), env.faults(making + 2).None?, l.preRets, l.port, PreRedirectAt(making, l));
    }
  }

  /**
   What a nil result says of a TCP packet that this device sends, exactly: it is
   redirected if neither deciding command was failed and no exempting rule that
   matches it got in; otherwise it is treated as before.
   */
  lemma {:induction false} NilVerdict(cfg: Config, s0: Store, env: Env, bypass: BypassList, ext: Ext, p: Packet)
    requires Start(cfg, s0) && p.proto.Tcp?
    requires Fatal(Run(env, Begin(s0), ApplyProgram(cfg, bypass)).errs) == []
    ensures var l := PlanOf(cfg, bypass);
      Verdict(Run(env, Begin(s0), ApplyProgram(cfg, bypass)).store, ext, NAT_OUTPUT, p)
         == if Decided(env, Making(cfg), l) && !Shielded(env, Making(cfg), l, ext, p) then Some(Redirect(Port(cfg)))
            else Verdict(s0, ext, NAT_OUTPUT, p)
  {
    ApplyVerdict(cfg, s0, env, bypass, ext, p);
    NilExactly(cfg, s0, env, bypass);
    NilDecides(env, Making(cfg), PlanOf(cfg, bypass), ext, p);
  }

  /** And of one that enters the device. */
  lemma {:induction false} NilHotspotVerdict(cfg: Config, s0: Store, env: Env, bypass: BypassList, ext: Ext, p: Packet)
    requires Start(cfg, s0) && p.proto.Tcp?
    requires Fatal(Run(env, Begin(s0), ApplyProgram(cfg, bypass)).errs) == []
    ensures var l := PlanOf(cfg, bypass);
      Verdict(Run(env, Begin(s0), ApplyProgram(cfg, bypass)).store, ext, NAT_PREROUTING, p)
         == if HotspotDecided(env, Making(cfg), l, p.inIface) && !HotspotShielded(env, Making(cfg), l, ext, p) then Some(Redirect(Port(cfg)))
            else Verdict(s0, ext, NAT_PREROUTING, p)
  {
    HotspotApplyVerdict(cfg, s0, env, bypass, ext, p);
    NilExactly(cfg, s0, env, bypass);
    NilHotspotDecides(env, Making(cfg), PlanOf(cfg, bypass), ext, p);
  }

  /** A packet that Apply is to redirect: TCP, not of root, not exempt. */
  predicate Diverted(cfg: Config, bypass: BypassList, p: Packet) {
    ValidPacket(p) && p.proto.Tcp? && p.uid != Some(0) && !Exempt(cfg, bypass, p)
  }

  lemma {:induction false} DivertedOpen(env: Env, making: nat, cfg: Config, bypass: BypassList, ext: Ext, p: Packet)
    requires Diverted(cfg, bypass, p)
    ensures !Shielded(env, making, PlanOf(cfg, bypass), ext, p)
  {
    ExemptListed(cfg, bypass, p);
    ReturnsMatch(ext, true, PrivateCidrs(), bypass, ExemptPorts(cfg), p);
    KeptMembers(env, making + 4, PlanOf(cfg, bypass).outRets);
  }

  /** Every packet that is to be redirected is. */
  ghost predicate AllDiverted(cfg: Config, bypass: BypassList, s: Store) {
    forall ext: Ext, p :: Diverted(cfg, bypass, p) ==> Verdict(s, ext, NAT_OUTPUT, p) == Some(Redirect(Port(cfg)))
  }

  lemma {:induction false} NilDiverted(cfg: Config, s0: Store, env: Env, bypass: BypassList, ext: Ext, p: Packet)
    requires Start(cfg, s0) && Diverted(cfg, bypass, p)
    requires Fatal(Run(env, Begin(s0), ApplyProgram(cfg, bypass)).errs) == []
    ensures Verdict(Run(env, Begin(s0), ApplyProgram(cfg, bypass)).store, ext, NAT_OUTPUT, p)
         == if Decided(env, Making(cfg), PlanOf(cfg, bypass)) then Some(Redirect(Port(cfg))) else Verdict(s0, ext, NAT_OUTPUT, p)
  {
    NilVerdict(cfg, s0, env, bypass, ext, p);
    DivertedOpen(env, Making(cfg), cfg, bypass, ext, p);
  }

  /**
   The exact condition: after a nil result every packet that is to be redirected is,
   if and only if neither the REDIRECT append nor the hook insertion was failed,
   unless the original chain redirects them all by itself.
   */
  lemma {:induction false} NilMeansRedirected(cfg: Config, s0: Store, env: Env, bypass: BypassList)
    requires Start(cfg, s0)
    requires Fatal(Run(env, Begin(s0), ApplyProgram(cfg, bypass)).errs) == []
    ensures AllDiverted(cfg, bypass, Run(env, Begin(s0), ApplyProgram(cfg, bypass)).store)
       <==> Decided(env, Making(cfg), PlanOf(cfg, bypass)) || AllDiverted(cfg, bypass, s0)
  {
    forall ext: Ext, p | Diverted(cfg, bypass, p)
      ensures Verdict(Run(env, Begin(s0), ApplyProgram(cfg, bypass)).store, ext, NAT_OUTPUT, p)
           == if Decided(env, Making(cfg), PlanOf(cfg, bypass)) then Some(Redirect(Port(cfg))) else Verdict(s0, ext, NAT_OUTPUT, p)
    {
      NilDiverted(cfg, s0, env, bypass, ext, p);
    }
  }

  /** A packet of a hotspot client that Apply is to redirect. */
  ghost predicate HotspotDiverted(cfg: Config, bypass: BypassList, p: Packet) {
    ValidPacket(p) && p.proto.Tcp? && cfg.hotspot && Listed(Ifaces(cfg), p.inIface) && !Exempt(cfg, bypass, p)
  }

  lemma {:induction false} HotspotOpen(env: Env, making: nat, cfg: Config, bypass: BypassList, ext: Ext, p: Packet)
    requires HotspotDiverted(cfg, bypass, p)
    ensures !HotspotShielded(env, making, PlanOf(cfg, bypass), ext, p)
  {
    ExemptListed(cfg, bypass, p);
    ReturnsMatch(ext, false, PrivateCidrs(), bypass, ExemptPorts(cfg), p);
    KeptMembers(env, PreFirst(making, PlanOf(cfg, bypass)), PlanOf(cfg, bypass).preRets);
  }

  /**
   After a nil result such a packet is redirected if and only if neither the REDIRECT
   append of the PREROUTING chain nor every hook for its interface was failed, unless
   the original chain redirects it by itself.
   */
  lemma {:induction false} NilMeansCaught(cfg: Config, s0: Store, env: Env, bypass: BypassList, ext: Ext, p: Packet)
    requires Start(cfg, s0) && HotspotDiverted(cfg, bypass, p)
    requires Fatal(Run(env, Begin(s0), ApplyProgram(cfg, bypass)).errs) == []
    ensures Verdict(Run(env, Begin(s0), ApplyProgram(cfg, bypass)).store, ext, NAT_PREROUTING, p) == Some(Redirect(Port(cfg)))
       <==> HotspotDecided(env, Making(cfg), PlanOf(cfg, bypass), p.inIface) || Verdict(s0, ext, NAT_PREROUTING, p) == Some(Redirect(Port(cfg)))
  {
    NilHotspotVerdict(cfg, s0, env, bypass, ext, p);
    HotspotOpen(env, Making(cfg), cfg, bypass, ext, p);
  }
}

/** The commands whose errors Apply ignores cannot undo the redirect. */
module BestEffort {
  import opened Netfilter
  import opened Firewall
  import opened Ownership
  import opened Additions
  import opened Confinement
  import opened Idle

  /** Copies of the DNS hook. */
  function Copies(n: nat, r: Rule): seq<Rule> {
    if n == 0 then [] else [r] + Copies(n - 1, r)
  }

  /** What the ignored commands may touch. */
  ghost predicate Aside(dns: ChainId, hook: Rule, c: Command) {
    || c.id == dns || c.id == DROP6
    || (c.id == NAT_OUTPUT && (c == Insert(NAT_OUTPUT, hook) || c == Delete(NAT_OUTPUT, hook)))
    || ((c.id == FILTER_OUTPUT || c.id == FILTER_FORWARD || c.id == OUTPUT6 || c.id == FORWARD6)
        && (c.Append? || c.Insert? || c.Delete? || c.Check?))
  }

  lemma {:induction false} DnsAside(prefix: string, port: int)
    ensures ProgramAll(c => Aside(NatChain(DnsName(prefix)), DnsJump(DnsName(prefix)), c), DnsProgram(prefix, port))
  {
  }

  lemma {:induction false} FilterAside(cfg: Config, dns: ChainId, hook: Rule)
    ensures ProgramAll(c => Aside(dns, hook, c), ForwardAccept(cfg))
    ensures ProgramAll(c => Aside(dns, hook, c), QuicProgram())
    ensures NoMust(ForwardAccept(cfg)) && NoMust(QuicProgram())
  {
  }

  lemma {:induction false} IPv6Aside(dns: ChainId, hook: Rule)
    ensures ProgramAll(c => Aside(dns, hook, c), IPv6Program()) && NoMust(IPv6Program())
  {
  }

  lemma {:induction false} BestEffortAside(cfg: Config)
    ensures ProgramAll(c => Aside(NatChain(DnsName(Prefix(cfg))), DnsJump(DnsName(Prefix(cfg))), c), BestEffortProgram(cfg))
    ensures NoMust(BestEffortProgram(cfg))
  {
    var dns, hook := NatChain(DnsName(Prefix(cfg))), DnsJump(DnsName(Prefix(cfg)));
    var f, d := ForwardAccept(cfg), DnsProgram(Prefix(cfg), cfg.dnsForwardPort);
    FilterAside(cfg, dns, hook);
    IPv6Aside(dns, hook);
    DnsAside(Prefix(cfg), cfg.dnsForwardPort);
    ProgramAllConcat(c => Aside(dns, hook, c), f, d);
    ProgramAllConcat(c => Aside(dns, hook, c), f + d, QuicProgram());
    ProgramAllConcat(c => Aside(dns, hook, c), f + d + QuicProgram(), IPv6Program());
  }

  /** The nat chains are those of `t`, but for DNS hooks in front of OUTPUT and the DNS chain itself. */
  ghost predicate NatKept(dns: ChainId, hook: Rule, t: Store, s: Store) {
    && (forall id :: id in t && id.family == V4 && id.table == Nat && id != dns && id != NAT_OUTPUT ==> id in s && s[id] == t[id])
    && (forall id :: id in t && id !in BUILTINS && id != dns && id != DROP6 ==> id in s && s[id] == t[id])
    && NAT_OUTPUT in s && NAT_OUTPUT in t
    && Fronted(hook, t[NAT_OUTPUT], s[NAT_OUTPUT])
  }

  /** Hook copies in front of the rules. */
  ghost predicate Fronted(hook: Rule, rest: seq<Rule>, rules: seq<Rule>) {
    exists n: nat :: rules == Copies(n, hook) + rest
  }

  /** Inserting the hook, or deleting one where there is one, only changes the number of copies. */
  lemma {:induction false} HookMoves(hook: Rule, rest: seq<Rule>, rules: seq<Rule>)
    requires Fronted(hook, rest, rules) && hook !in rest
    ensures Fronted(hook, rest, [hook] + rules)
    ensures hook in rules ==> Fronted(hook, rest, RemoveFirst(rules, hook))
  {
    var n: nat :| rules == Copies(n, hook) + rest;
    assert [hook] + rules == Copies(n + 1, hook) + rest;
    if hook in rules {
      assert n > 0;
      assert rules[0] == hook && rules[1..] == Copies(n - 1, hook) + rest;
    }
  }

  lemma {:induction false} AsideElsewhere(k: Kernel, dns: ChainId, hook: Rule, t: Store, s: Store, c: Command)
    requires Aside(dns, hook, c) && NatKept(dns, hook, t, s) && Refusal(k, s, c).None? && c.id != NAT_OUTPUT
    requires dns !in BUILTINS && DROP6 !in BUILTINS
    ensures NatKept(dns, hook, t, Effect(k, s, c))
  {
    assert Effect(k, s, c)[NAT_OUTPUT] == s[NAT_OUTPUT];
  }

  lemma {:induction false} AsideKeepsNat(k: Kernel, dns: ChainId, hook: Rule, t: Store, s: Store, c: Command)
    requires Aside(dns, hook, c) && NatKept(dns, hook, t, s) && Refusal(k, s, c).None?
    requires dns !in BUILTINS && hook !in t[NAT_OUTPUT] && DROP6 !in BUILTINS
    ensures NatKept(dns, hook, t, Effect(k, s, c))
  {
    if c.id == NAT_OUTPUT {
      HookMoves(hook, t[NAT_OUTPUT], s[NAT_OUTPUT]);
    } else {
      AsideElsewhere(k, dns, hook, t, s, c);
    }
  }

  lemma {:induction false} BestEffortKeepsNat(cfg: Config, env: Env, m: Machine)
    requires NatChain(DnsName(Prefix(cfg))) !in BUILTINS && DROP6 !in BUILTINS && NAT_OUTPUT in m.store
    requires DnsJump(DnsName(Prefix(cfg))) !in m.store[NAT_OUTPUT]
    ensures NatKept(NatChain(DnsName(Prefix(cfg))), DnsJump(DnsName(Prefix(cfg))), m.store,
                    Run(env, m, BestEffortProgram(cfg)).store)
  {
    var dns, hook := NatChain(DnsName(Prefix(cfg))), DnsJump(DnsName(Prefix(cfg)));
    var inv := (s: Store) => NatKept(dns, hook, m.store, s);
    var allowed := (c: Command) => Aside(dns, hook, c);
    BestEffortAside(cfg);
    assert m.store[NAT_OUTPUT] == Copies(0, hook) + m.store[NAT_OUTPUT];
    assert Fronted(hook, m.store[NAT_OUTPUT], m.store[NAT_OUTPUT]);
    forall s, c | inv(s) && allowed(c) && Refusal(env.kernel, s, c).None? ensures inv(Effect(env.kernel, s, c)) {
      AsideKeepsNat(env.kernel, dns, hook, m.store, s, c);
    }
    RunInvariant(env, m, BestEffortProgram(cfg), inv, allowed);
  }

  lemma {:induction false} HookNotThere(cfg: Config, s0: Store)
    requires CleanStart(cfg, s0)
    ensures DnsJump(DnsName(Prefix(cfg))) !in [TcpJump(OutName(Prefix(cfg)))] + s0[NAT_OUTPUT]
  {
    FixedHas(DnsName(Prefix(cfg)), NAT_OUTPUT, DnsJump(DnsName(Prefix(cfg))));
    OwnsDnsHookAlways(cfg);
  }

  lemma {:induction false} OwnsDnsHookAlways(cfg: Config)
    ensures (NAT_OUTPUT, DnsJump(DnsName(Prefix(cfg)))) in Owned(cfg).rules
  {
    var cfg' := cfg.(dnsForwardPort := 5353);
    OwnsDnsHook(cfg');
    assert CleanupPhases(cfg') == CleanupPhases(cfg);
  }
}

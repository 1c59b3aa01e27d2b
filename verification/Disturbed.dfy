/**
 A disturbed Apply from a clean start. What the recorded commands leave, and whether
 the result is nil, is fixed by which numbers of the run were failed: each command's
 own outcome only depends on which of the two redirect chains were made.
 */
module Disturbed {
  import opened Common
  import opened Netfilter
  import opened Footprints
  import opened Firewall
  import opened Iptables
  import opened Ownership
  import opened Additions
  import opened Confinement
  import opened Undo
  import opened Idle
  import opened BestEffort
  import opened Verdicts

  /**
   What the recorded commands work with: the names of the two chains, their exempting
   rules, the redirect port, and the interface patterns.
   */
  datatype Plan = Plan(out: string, pre: string, outRets: seq<Rule>, preRets: seq<Rule>, port: int, ifaces: seq<string>, hotspot: bool)

  function PlanOf(cfg: Config, bypass: BypassList): Plan {
    Plan(OutName(Prefix(cfg)), PreName(Prefix(cfg)), ReturnsOf(true, PrivateCidrs(), bypass, ExemptPorts(cfg)),
         ReturnsOf(false, PrivateCidrs(), bypass, ExemptPorts(cfg)), Port(cfg), Ifaces(cfg), cfg.hotspot)
  }

  function OutRules(l: Plan): seq<Rule> {
    l.outRets + [RedirectTo(l.port)]
  }

  function PreRules(l: Plan): seq<Rule> {
    l.preRets + [RedirectTo(l.port)]
  }

  function Inserts(l: Plan): Program {
    if l.hotspot then IfaceInserts(l.ifaces, l.pre) else []
  }

  // The numbers of the recorded commands, if the first chain is made by number `making`.

  function RedirectAt(making: nat, l: Plan): nat {
    making + 4 + |l.outRets|
  }

  function PreFirst(making: nat, l: Plan): nat {
    RedirectAt(making, l) + 1
  }

  function PreRedirectAt(making: nat, l: Plan): nat {
    PreFirst(making, l) + |l.preRets|
  }

  function HookAt(making: nat, l: Plan): nat {
    PreRedirectAt(making, l) + 1
  }

  lemma {:induction false} PlanRules(cfg: Config, bypass: BypassList, l: Plan)
    requires l == PlanOf(cfg, bypass)
    ensures OutRules(l) == ChainRules(cfg, bypass, true) && PreRules(l) == ChainRules(cfg, bypass, false)
  {
  }

  /** The rules of a list, appended from command number `clock` on, that get in. */
  function Kept(env: Env, clock: nat, rules: seq<Rule>): seq<Rule>
    decreases rules
  {
    if rules == [] then []
    else (if env.faults(clock).None? && ValidRule(env.kernel, V4, rules[0]) then [rules[0]] else []) + Kept(env, clock + 1, rules[1..])
  }

  // ----- recorded errors only grow -----

  lemma {:induction false} FatalConcat(a: seq<Error>, b: seq<Error>)
    ensures Fatal(a + b) == Fatal(a) + Fatal(b)
  {
    if a == [] {
      assert a + b == b;
    } else {
      assert (a + b)[0] == a[0] && (a + b)[1..] == a[1..] + b;
      FatalConcat(a[1..], b);
    }
  }

  lemma {:induction false} StepFatal(env: Env, m: Machine, step: Step)
    requires Fatal(RunStep(env, m, step).errs) == []
    ensures Fatal(m.errs) == []
  {
    match step {
      case Must(c) =>
        if Outcome(env, m, c).Some? {
          FatalConcat(m.errs, [Outcome(env, m, c).value]);
        }
      case FirstOk(cs) => FirstOkErrs(env, m, cs);
      case WhileOk(c, n) => WhileOkErrs(env, m, c, n);
    }
  }

  /** A nil result at the end is a nil result at every moment before. */
  lemma {:induction false} RunFatal(env: Env, m: Machine, p: Program)
    requires Fatal(Run(env, m, p).errs) == []
    ensures Fatal(m.errs) == []
    decreases p
  {
    if p != [] {
      RunFatal(env, RunStep(env, m, p[0]), p[1..]);
      StepFatal(env, m, p[0]);
    }
  }

  // ----- single chains -----

  /** The two stores agree on the chain. */
  ghost predicate SameAt(s: Store, t: Store, id: ChainId) {
    (id in s <==> id in t) && (id in s ==> s[id] == t[id])
  }

  predicate Avoids(c: Command, id: ChainId) {
    c.id != id
  }

  /** A program that does not name the chain leaves it alone. */
  lemma {:induction false} RunKeepsChain(env: Env, m: Machine, p: Program, id: ChainId)
    requires ProgramAll(c => Avoids(c, id), p)
    ensures SameAt(Run(env, m, p).store, m.store, id)
  {
    var inv := (s: Store) => SameAt(s, m.store, id);
    var allowed := (c: Command) => Avoids(c, id);
    RunInvariant(env, m, p, inv, allowed);
  }

  ghost predicate NoJumps(rules: seq<Rule>) {
    forall r :: r in rules ==> !r.target.Jump?
  }

  /** Appending rules under faults. */
  lemma {:induction false} RunAppendsFaulty(env: Env, m: Machine, id: ChainId, rules: seq<Rule>)
    requires forall r :: r in rules ==> !r.target.Jump?
    requires id.family == V4
    ensures var t := Run(env, m, Appends(id, rules));
      && t.clock == m.clock + |rules|
      && t.store == (if id in m.store then m.store[id := m.store[id] + Kept(env, m.clock, rules)] else m.store)
    decreases rules
  {
    if rules == [] {
      assert id in m.store ==> m.store[id] + [] == m.store[id];
    } else {
      var r, p := rules[0], Appends(id, rules);
      var m1 := RunStep(env, m, Must(Append(id, r)));
      assert r in rules && p[0] == Must(Append(id, r)) && p[1..] == Appends(id, rules[1..]);
      RunAppendsFaulty(env, m1, id, rules[1..]);
      if id in m.store {
        var one := if env.faults(m.clock).None? && ValidRule(env.kernel, V4, r) then [r] else [];
        assert m1.store[id] == m.store[id] + one;
        assert Kept(env, m.clock, rules) == one + Kept(env, m.clock + 1, rules[1..]);
        Assoc(m.store[id], one, Kept(env, m.clock + 1, rules[1..]));
      }
    }
  }

  lemma {:induction false} AppendsAvoid(id: ChainId, rules: seq<Rule>, other: ChainId)
    requires id != other
    ensures ProgramAll(c => Avoids(c, other), Appends(id, rules))
  {
    if rules != [] {
      AppendsAvoid(id, rules[1..], other);
    }
  }

  lemma {:induction false} InsertsAvoid(ifaces: seq<string>, ch: string, other: ChainId)
    requires other != NAT_PREROUTING
    ensures ProgramAll(c => Avoids(c, other), IfaceInserts(ifaces, ch))
  {
    if ifaces != [] {
      InsertsAvoid(ifaces[1..], ch, other);
    }
  }

  lemma {:induction false} ChainsAvoid(cfg: Config, bypass: BypassList, other: ChainId)
    requires other != NatChain(OutName(Prefix(cfg))) && other != NatChain(PreName(Prefix(cfg)))
    ensures ProgramAll(c => Avoids(c, other), ChainsProgram(cfg, bypass))
  {
    var out, pre := NatChain(OutName(Prefix(cfg))), NatChain(PreName(Prefix(cfg)));
    AppendsAvoid(out, ChainRules(cfg, bypass, true), other);
    AppendsAvoid(pre, ChainRules(cfg, bypass, false), other);
    ProgramAllConcat(c => Avoids(c, other), MakeChains(Prefix(cfg)), Appends(out, ChainRules(cfg, bypass, true)));
    ProgramAllConcat(c => Avoids(c, other), MakeChains(Prefix(cfg)) + Appends(out, ChainRules(cfg, bypass, true)), Appends(pre, ChainRules(cfg, bypass, false)));
  }

  function PerIface(cfg: Config): Program {
    if cfg.hotspot then IfaceInserts(Ifaces(cfg), PreName(Prefix(cfg))) else []
  }

  lemma {:induction false} ChainsApart(cfg: Config, bypass: BypassList)
    ensures NatChain(OutName(Prefix(cfg))) != NatChain(PreName(Prefix(cfg)))
    ensures NoJumps(ChainRules(cfg, bypass, true)) && NoJumps(ChainRules(cfg, bypass, false))
  {
    assert |OutName(Prefix(cfg))| != |PreName(Prefix(cfg))|;
    ChainRulesPlain(cfg, bypass, true);
    ChainRulesPlain(cfg, bypass, false);
  }

  /** The recorded commands are the chains, the OUTPUT hook and the interface hooks. */
  lemma {:induction false} SplitRedirect(env: Env, m: Machine, chains: Program, hook: Step, per: Program)
    ensures Run(env, m, chains + ([hook] + per)) == Run(env, RunStep(env, Run(env, m, chains), hook), per)
  {
    RunConcat(env, m, chains, [hook] + per);
    assert ([hook] + per)[1..] == per;
  }

  lemma {:induction false} RedirectSplits(env: Env, m: Machine, cfg: Config, bypass: BypassList)
    ensures Run(env, m, RedirectProgram(cfg, bypass))
         == Run(env, RunStep(env, Run(env, m, ChainsProgram(cfg, bypass)), Must(Insert(NAT_OUTPUT, TcpJump(OutName(Prefix(cfg)))))), PerIface(cfg))
  {
    SplitRedirect(env, m, ChainsProgram(cfg, bypass), Must(Insert(NAT_OUTPUT, TcpJump(OutName(Prefix(cfg))))), PerIface(cfg));
  }

  lemma {:induction false} RedirectKeepsOthers(env: Env, m: Machine, cfg: Config, bypass: BypassList, id: ChainId)
    requires id != NAT_OUTPUT && id != NAT_PREROUTING && id != NatChain(OutName(Prefix(cfg))) && id != NatChain(PreName(Prefix(cfg)))
    ensures SameAt(Run(env, m, RedirectProgram(cfg, bypass)).store, m.store, id)
  {
    var hook, per := Must(Insert(NAT_OUTPUT, TcpJump(OutName(Prefix(cfg))))), PerIface(cfg);
    ChainsAvoid(cfg, bypass, id);
    InsertsAvoid(Ifaces(cfg), PreName(Prefix(cfg)), id);
    ProgramAllConcat(c => Avoids(c, id), [hook], per);
    ProgramAllConcat(c => Avoids(c, id), ChainsProgram(cfg, bypass), [hook] + per);
    RunKeepsChain(env, m, RedirectProgram(cfg, bypass), id);
  }

  /** From a clean start the cleanup at the beginning of Apply only takes time. */
  lemma {:induction false} ApplyRuns(cfg: Config, s0: Store, env: Env, bypass: BypassList)
    requires CleanStart(cfg, s0)
    ensures Run(env, Begin(s0), ApplyProgram(cfg, bypass))
         == Run(env, Run(env, Machine(s0, Making(cfg), []), RedirectProgram(cfg, bypass)), BestEffortProgram(cfg))
  {
    Run3(env, Begin(s0), CleanerProgram(RulesPhases(cfg)), RedirectProgram(cfg, bypass), BestEffortProgram(cfg));
    RulesCleanupOnClean(cfg, env, Begin(s0));
  }

  // ----- when the result is nil -----

  /** Command number `n` leaves no fatal error: it was failed with a dropped text, or not failed and `ok` holds. */
  predicate Fine(env: Env, n: nat, ok: bool) {
    if env.faults(n).Some? then Swallowed(env.faults(n).value) else ok
  }

  predicate RuleFine(env: Env, n: nat, made: bool, r: Rule) {
    Fine(env, n, made ==> ValidRule(env.kernel, V4, r))
  }

  /** The appends from command number `clock` on; where the chain was not made the error is a dropped one. */
  ghost predicate AppendsFine(env: Env, clock: nat, made: bool, rules: seq<Rule>) {
    forall i :: 0 <= i < |rules| ==> RuleFine(env, clock + i, made, rules[i])
  }

  /** The commands number `first` up to `end`, each fine if `ok`. */
  ghost predicate AllFine(env: Env, first: nat, end: nat, ok: bool) {
    forall n: nat :: first <= n < end ==> Fine(env, n, ok)
  }

  /** The two chains are made from command number `making` on, then filled with `a` and, from `second` on, with `b`. */
  ghost predicate FilledFine(env: Env, making: nat, second: nat, a: seq<Rule>, b: seq<Rule>) {
    && AllFine(env, making, making + 4, true)
    && AppendsFine(env, making + 4, env.faults(making).None?, a)
    && AppendsFine(env, second, env.faults(making + 2).None?, b)
  }

  /**
   If the first recorded command is number `making`: every fault has a dropped text,
   every rule that was not failed and has its chain is one the kernel takes, and
   every hook that was not failed has its chain.
   */
  ghost predicate ReturnsNil(env: Env, making: nat, l: Plan) {
    && FilledFine(env, making, PreFirst(making, l), OutRules(l), PreRules(l))
    && Fine(env, HookAt(making, l), env.faults(making).None?)
    && (l.hotspot ==> AllFine(env, HookAt(making, l) + 1, HookAt(making, l) + 1 + NonBlank(l.ifaces), env.faults(making + 2).None?))
  }

  // ----- single commands -----

  lemma {:induction false} MustNil(env: Env, m: Machine, c: Command)
    ensures var o := Outcome(env, m, c);
      Fatal(RunStep(env, m, Must(c)).errs) == [] <==> Fatal(m.errs) == [] && (o.Some? ==> Swallowed(o.value))
  {
    var o := Outcome(env, m, c);
    if o.Some? {
      FatalConcat(m.errs, [o.value]);
      assert [o.value][1..] == [];
    }
  }

  lemma {:induction false} AppendNil(env: Env, m: Machine, id: ChainId, r: Rule)
    requires !r.target.Jump? && id.family == V4
    ensures var t := RunStep(env, m, Must(Append(id, r)));
      && (Fatal(t.errs) == [] <==> Fatal(m.errs) == [] && RuleFine(env, m.clock, id in m.store, r))
      && t.clock == m.clock + 1 && (id in t.store <==> id in m.store)
  {
    MustNil(env, m, Append(id, r));
  }

  lemma {:induction false} AppendsCons(env: Env, clock: nat, made: bool, rules: seq<Rule>)
    requires rules != []
    ensures AppendsFine(env, clock, made, rules)
       <==> RuleFine(env, clock, made, rules[0]) && AppendsFine(env, clock + 1, made, rules[1..])
  {
    if AppendsFine(env, clock, made, rules) {
      assert RuleFine(env, clock + 0, made, rules[0]);
      forall i | 0 <= i < |rules[1..]| ensures RuleFine(env, clock + 1 + i, made, rules[1..][i]) {
        assert RuleFine(env, clock + (i + 1), made, rules[i + 1]);
      }
    }
    if RuleFine(env, clock, made, rules[0]) && AppendsFine(env, clock + 1, made, rules[1..]) {
      forall i | 0 <= i < |rules| ensures RuleFine(env, clock + i, made, rules[i]) {
        if i > 0 {
          assert RuleFine(env, clock + 1 + (i - 1), made, rules[1..][i - 1]);
        }
      }
    }
  }

  lemma {:induction false} AppendsNil(env: Env, m: Machine, id: ChainId, rules: seq<Rule>)
    requires NoJumps(rules) && id.family == V4
    ensures Fatal(Run(env, m, Appends(id, rules)).errs) == [] <==> Fatal(m.errs) == [] && AppendsFine(env, m.clock, id in m.store, rules)
    decreases rules
  {
    if rules != [] {
      var p := Appends(id, rules);
      assert rules[0] in rules && p[0] == Must(Append(id, rules[0])) && p[1..] == Appends(id, rules[1..]);
      AppendNil(env, m, id, rules[0]);
      AppendsNil(env, RunStep(env, m, p[0]), id, rules[1..]);
      AppendsCons(env, m.clock, id in m.store, rules);
    }
  }

  lemma {:induction false} InsertNil(env: Env, m: Machine, at: ChainId, r: Rule, ch: string)
    requires at in m.store && at.family == V4 && at.table == Nat && at != NatChain(ch) && r.target == Jump(ch) && r.dport.None?
    ensures var t := RunStep(env, m, Must(Insert(at, r)));
      && (Fatal(t.errs) == [] <==> Fatal(m.errs) == [] && Fine(env, m.clock, NatChain(ch) in m.store))
      && t.clock == m.clock + 1 && at in t.store && (NatChain(ch) in t.store <==> NatChain(ch) in m.store)
  {
    MustNil(env, m, Insert(at, r));
  }

  lemma {:induction false} AllFineCons(env: Env, first: nat, end: nat, ok: bool)
    requires first < end
    ensures AllFine(env, first, end, ok) <==> Fine(env, first, ok) && AllFine(env, first + 1, end, ok)
  {
    if Fine(env, first, ok) && AllFine(env, first + 1, end, ok) {
      forall n: nat | first <= n < end ensures Fine(env, n, ok) {
        assert n == first || first + 1 <= n;
      }
    }
  }

  lemma {:induction false} InsertsNil(env: Env, m: Machine, ifaces: seq<string>, ch: string)
    requires NAT_PREROUTING in m.store && NatChain(ch) != NAT_PREROUTING
    ensures Fatal(Run(env, m, IfaceInserts(ifaces, ch)).errs) == []
       <==> Fatal(m.errs) == [] && AllFine(env, m.clock, m.clock + NonBlank(ifaces), NatChain(ch) in m.store)
    decreases ifaces
  {
    if ifaces != [] && Blank(ifaces[0]) {
      assert [] + IfaceInserts(ifaces[1..], ch) == IfaceInserts(ifaces[1..], ch);
      InsertsNil(env, m, ifaces[1..], ch);
    } else if ifaces != [] {
      var r := IfaceTcpJump(ifaces[0], ch);
      var step := Must(Insert(NAT_PREROUTING, r));
      assert ([step] + IfaceInserts(ifaces[1..], ch))[1..] == IfaceInserts(ifaces[1..], ch);
      InsertNil(env, m, NAT_PREROUTING, r, ch);
      InsertsNil(env, RunStep(env, m, step), ifaces[1..], ch);
      AllFineCons(env, m.clock, m.clock + NonBlank(ifaces), NatChain(ch) in m.store);
    }
  }

  // ----- the two chains -----

  lemma {:induction false} NewNil(env: Env, m: Machine, id: ChainId)
    requires id !in m.store
    ensures var t := Run(env, m, [Must(New(id)), Must(Flush(id))]);
      && (Fatal(t.errs) == [] <==> Fatal(m.errs) == [] && Fine(env, m.clock, true) && Fine(env, m.clock + 1, true))
      && t.clock == m.clock + 2 && t.store == if env.faults(m.clock).None? then m.store[id := []] else m.store
  {
    var p := [Must(New(id)), Must(Flush(id))];
    assert p[1..] == [Must(Flush(id))] && p[1..][1..] == [];
    var m1 := RunStep(env, m, p[0]);
    assert Run(env, m, p) == Run(env, m1, p[1..]) && Run(env, m1, p[1..]) == RunStep(env, m1, p[1]);
    MustNil(env, m, New(id));
    MustNil(env, m1, Flush(id));
    assert m.store[id := []][id := []] == m.store[id := []];
  }

  /** What making the chains leaves. */
  ghost predicate Made(env: Env, m: Machine, t: Machine, out: ChainId, pre: ChainId) {
    && t.clock == m.clock + 4
    && (out in t.store <==> env.faults(m.clock).None?) && (out in t.store ==> t.store[out] == [])
    && (pre in t.store <==> env.faults(m.clock + 2).None?) && (pre in t.store ==> t.store[pre] == [])
    && SameAt(t.store, m.store, NAT_OUTPUT) && SameAt(t.store, m.store, NAT_PREROUTING)
    && (Fatal(t.errs) == [] <==> Fatal(m.errs) == [] && AllFine(env, m.clock, m.clock + 4, true))
  }

  lemma {:induction false} MakeNil(env: Env, m: Machine, prefix: string, out: ChainId, pre: ChainId)
    requires out == NatChain(OutName(prefix)) && pre == NatChain(PreName(prefix)) && out !in m.store && pre !in m.store && out != pre
    requires out != NAT_OUTPUT && out != NAT_PREROUTING && pre != NAT_OUTPUT && pre != NAT_PREROUTING
    ensures Made(env, m, Run(env, m, MakeChains(prefix)), out, pre)
  {
    var a, b := [Must(New(out)), Must(Flush(out))], [Must(New(pre)), Must(Flush(pre))];
    assert MakeChains(prefix) == a + b;
    RunConcat(env, m, a, b);
    NewNil(env, m, out);
    NewNil(env, Run(env, m, a), pre);
    FourFine(env, m.clock);
  }

  lemma {:induction false} FourFine(env: Env, clock: nat)
    ensures AllFine(env, clock, clock + 4, true)
       <==> Fine(env, clock, true) && Fine(env, clock + 1, true) && Fine(env, clock + 2, true) && Fine(env, clock + 3, true)
  {
    if Fine(env, clock, true) && Fine(env, clock + 1, true) && Fine(env, clock + 2, true) && Fine(env, clock + 3, true) {
      forall n: nat | clock <= n < clock + 4 ensures Fine(env, n, true) {
        assert n == clock || n == clock + 1 || n == clock + 2 || n == clock + 3;
      }
    }
  }

  /** What filling the chains leaves; `a` and `b` are their rules, `second` the number of the first append to the second. */
  ghost predicate Filled(env: Env, m: Machine, t: Machine, out: ChainId, pre: ChainId, a: seq<Rule>, b: seq<Rule>, second: nat) {
    && t.clock == second + |b|
    && (out in t.store <==> env.faults(m.clock).None?) && (out in t.store ==> t.store[out] == Kept(env, m.clock + 4, a))
    && (pre in t.store <==> env.faults(m.clock + 2).None?) && (pre in t.store ==> t.store[pre] == Kept(env, second, b))
    && SameAt(t.store, m.store, NAT_OUTPUT) && SameAt(t.store, m.store, NAT_PREROUTING)
    && (Fatal(t.errs) == [] <==> Fatal(m.errs) == [] && FilledFine(env, m.clock, second, a, b))
  }

  /** One chain is filled from command number `clock` on. */
  lemma {:induction false} FillOne(env: Env, m: Machine, t: Machine, id: ChainId, rules: seq<Rule>, clock: nat, made: bool)
    requires t == Run(env, m, Appends(id, rules)) && NoJumps(rules) && id.family == V4 && (id in m.store ==> m.store[id] == [])
    requires clock == m.clock && made == (id in m.store)
    ensures t.clock == clock + |rules|
    ensures (id in t.store) == made && (made ==> t.store[id] == Kept(env, clock, rules))
    ensures Fatal(t.errs) == [] <==> Fatal(m.errs) == [] && AppendsFine(env, clock, made, rules)
  {
    RunAppendsFaulty(env, m, id, rules);
    AppendsNil(env, m, id, rules);
    assert [] + Kept(env, m.clock, rules) == Kept(env, m.clock, rules);
  }

  /** The others stay. */
  lemma {:induction false} FillKeeps(env: Env, m: Machine, id: ChainId, rules: seq<Rule>, other: ChainId)
    requires NoJumps(rules) && id.family == V4 && other != id
    ensures SameAt(Run(env, m, Appends(id, rules)).store, m.store, other)
  {
    RunAppendsFaulty(env, m, id, rules);
  }

  lemma {:induction false} FillBoth(env: Env, m: Machine, m1: Machine, m2: Machine, t: Machine, out: ChainId, pre: ChainId, a: seq<Rule>, b: seq<Rule>,
                                    second: nat)
    requires second == m.clock + 4 + |a| && Made(env, m, m1, out, pre) && m2 == Run(env, m1, Appends(out, a)) && t == Run(env, m2, Appends(pre, b))
    requires out != pre && out.family == V4 && pre.family == V4 && NoJumps(a) && NoJumps(b)
    requires out != NAT_OUTPUT && out != NAT_PREROUTING && pre != NAT_OUTPUT && pre != NAT_PREROUTING
    ensures Filled(env, m, t, out, pre, a, b, second)
  {
    var outMade, preMade := env.faults(m.clock).None?, env.faults(m.clock + 2).None?;
    FillKeeps(env, m1, out, a, pre);
    FillKeeps(env, m2, pre, b, out);
    FillOne(env, m1, m2, out, a, m.clock + 4, outMade);
    FillOne(env, m2, t, pre, b, second, preMade);
    FillKeeps(env, m1, out, a, NAT_OUTPUT);
    FillKeeps(env, m2, pre, b, NAT_OUTPUT);
    FillKeeps(env, m1, out, a, NAT_PREROUTING);
    FillKeeps(env, m2, pre, b, NAT_PREROUTING);
  }

  lemma {:induction false} OwnFresh(cfg: Config, s: Store)
    requires CleanStart(cfg, s)
    ensures var out, pre := NatChain(OutName(Prefix(cfg))), NatChain(PreName(Prefix(cfg)));
      && out !in s && pre !in s && out != pre && NAT_OUTPUT in s && NAT_PREROUTING in s
      && out != NAT_OUTPUT && out != NAT_PREROUTING && pre != NAT_OUTPUT && pre != NAT_PREROUTING
  {
    OwnChainsOwned(cfg);
    OwnNotBuiltin(cfg);
    assert |OutName(Prefix(cfg))| != |PreName(Prefix(cfg))|;
  }

  /** The chains after a run of their commands from a clean store, whatever failed. */
  lemma {:induction false} ChainsFilled(env: Env, m: Machine, cfg: Config, bypass: BypassList, a: seq<Rule>, b: seq<Rule>, second: nat)
    requires CleanStart(cfg, m.store) && a == ChainRules(cfg, bypass, true) && b == ChainRules(cfg, bypass, false) && second == m.clock + 4 + |a|
    ensures Filled(env, m, Run(env, m, ChainsProgram(cfg, bypass)), NatChain(OutName(Prefix(cfg))), NatChain(PreName(Prefix(cfg))), a, b, second)
  {
    var out, pre, make := NatChain(OutName(Prefix(cfg))), NatChain(PreName(Prefix(cfg))), MakeChains(Prefix(cfg));
    var m1 := Run(env, m, make);
    var m2 := Run(env, m1, Appends(out, a));
    OwnFresh(cfg, m.store);
    ChainsApart(cfg, bypass);
    MakeNil(env, m, Prefix(cfg), out, pre);
    Run3(env, m, make, Appends(out, a), Appends(pre, b));
    FillBoth(env, m, m1, m2, Run(env, m2, Appends(pre, b)), out, pre, a, b, second);
  }

  // ----- the hooks -----

  ghost predicate NamesFree(l: Plan) {
    && NatChain(l.out) != NAT_OUTPUT && NatChain(l.out) != NAT_PREROUTING
    && NatChain(l.pre) != NAT_OUTPUT && NatChain(l.pre) != NAT_PREROUTING
  }

  /** `outMade` and `preMade` say which chains are there; `u` is what the OUTPUT hook leaves, command number `hook`. */
  lemma {:induction false} HooksNil(env: Env, t: Machine, u: Machine, l: Plan, hook: nat, outMade: bool, preMade: bool)
    requires NAT_OUTPUT in t.store && NAT_PREROUTING in t.store && NamesFree(l) && u == RunStep(env, t, Must(Insert(NAT_OUTPUT, TcpJump(l.out))))
    requires hook == t.clock && outMade == (NatChain(l.out) in t.store) && preMade == (NatChain(l.pre) in t.store)
    ensures Fatal(Run(env, u, Inserts(l)).errs) == []
       <==> Fatal(t.errs) == [] && Fine(env, hook, outMade) && (l.hotspot ==> AllFine(env, hook + 1, hook + 1 + NonBlank(l.ifaces), preMade))
  {
    InsertNil(env, t, NAT_OUTPUT, TcpJump(l.out), l.out);
    if l.hotspot {
      InsertsNil(env, u, l.ifaces, l.pre);
    }
  }

  /** The chains of the plan are filled in `t`, from `m` on. */
  ghost predicate FilledFor(env: Env, m: Machine, t: Machine, l: Plan) {
    Filled(env, m, t, NatChain(l.out), NatChain(l.pre), OutRules(l), PreRules(l), PreFirst(m.clock, l))
  }

  lemma {:induction false} RecordedNil(env: Env, m: Machine, t: Machine, u: Machine, l: Plan)
    requires FilledFor(env, m, t, l) && m.errs == [] && NAT_OUTPUT in m.store && NAT_PREROUTING in m.store && NamesFree(l)
    requires u == RunStep(env, t, Must(Insert(NAT_OUTPUT, TcpJump(l.out))))
    ensures Fatal(Run(env, u, Inserts(l)).errs) == [] <==> ReturnsNil(env, m.clock, l)
  {
    HooksNil(env, t, u, l, HookAt(m.clock, l), env.faults(m.clock).None?, env.faults(m.clock + 2).None?);
  }

  /** The recorded commands are those of the plan: `t` is what filling the chains leaves, `u` what the OUTPUT hook makes of it. */
  lemma {:induction false} Recorded(env: Env, m: Machine, cfg: Config, bypass: BypassList) returns (t: Machine, u: Machine)
    requires CleanStart(cfg, m.store)
    ensures FilledFor(env, m, t, PlanOf(cfg, bypass)) && NamesFree(PlanOf(cfg, bypass)) && NAT_OUTPUT in m.store && NAT_PREROUTING in m.store
    ensures u == RunStep(env, t, Must(Insert(NAT_OUTPUT, TcpJump(PlanOf(cfg, bypass).out))))
    ensures Run(env, m, RedirectProgram(cfg, bypass)) == Run(env, u, Inserts(PlanOf(cfg, bypass)))
  {
    var l := PlanOf(cfg, bypass);
    t := Run(env, m, ChainsProgram(cfg, bypass));
    u := RunStep(env, t, Must(Insert(NAT_OUTPUT, TcpJump(l.out))));
    OwnFresh(cfg, m.store);
    PlanRules(cfg, bypass, l);
    ChainsFilled(env, m, cfg, bypass, OutRules(l), PreRules(l), PreFirst(m.clock, l));
    RedirectSplits(env, m, cfg, bypass);
  }

  lemma {:induction false} RedirectNil(env: Env, m: Machine, cfg: Config, bypass: BypassList)
    requires CleanStart(cfg, m.store) && m.errs == []
    ensures Fatal(Run(env, m, RedirectProgram(cfg, bypass)).errs) == [] <==> ReturnsNil(env, m.clock, PlanOf(cfg, bypass))
  {
    var t, u := Recorded(env, m, cfg, bypass);
    RecordedNil(env, m, t, u, PlanOf(cfg, bypass));
  }

  /** Exactly when Apply returns nil from a clean start, whatever fails in it. */
  lemma {:induction false} NilExactly(cfg: Config, s0: Store, env: Env, bypass: BypassList)
    requires CleanStart(cfg, s0)
    ensures Fatal(Run(env, Begin(s0), ApplyProgram(cfg, bypass)).errs) == [] <==> ReturnsNil(env, Making(cfg), PlanOf(cfg, bypass))
  {
    var m := Machine(s0, Making(cfg), []);
    ApplyRuns(cfg, s0, env, bypass);
    BestEffortAside(cfg);
    NoMustErrs(env, Run(env, m, RedirectProgram(cfg, bypass)), BestEffortProgram(cfg));
    RedirectNil(env, m, cfg, bypass);
  }

  // ----- what the recorded commands leave -----

  /** The interface hooks that get in, inserted from command number `clock` on. */
  function KeptHooks(env: Env, clock: nat, ifaces: seq<string>, ch: string): seq<Rule>
    decreases ifaces
  {
    if ifaces == [] then []
    else if Blank(ifaces[0]) then KeptHooks(env, clock, ifaces[1..], ch)
    else KeptHooks(env, clock + 1, ifaces[1..], ch) + if env.faults(clock).None? then [IfaceTcpJump(ifaces[0], ch)] else []
  }

  lemma {:induction false} InsertsLeave(env: Env, m: Machine, ifaces: seq<string>, ch: string)
    requires NAT_PREROUTING in m.store && NatChain(ch) != NAT_PREROUTING
    ensures Run(env, m, IfaceInserts(ifaces, ch)).store
         == if NatChain(ch) in m.store then m.store[NAT_PREROUTING := KeptHooks(env, m.clock, ifaces, ch) + m.store[NAT_PREROUTING]] else m.store
    decreases ifaces
  {
    if ifaces == [] {
      assert [] + m.store[NAT_PREROUTING] == m.store[NAT_PREROUTING];
    } else if Blank(ifaces[0]) {
      assert [] + IfaceInserts(ifaces[1..], ch) == IfaceInserts(ifaces[1..], ch);
      InsertsLeave(env, m, ifaces[1..], ch);
    } else {
      var step := Must(Insert(NAT_PREROUTING, IfaceTcpJump(ifaces[0], ch)));
      var front := if env.faults(m.clock).None? then [IfaceTcpJump(ifaces[0], ch)] else [];
      assert ([step] + IfaceInserts(ifaces[1..], ch))[1..] == IfaceInserts(ifaces[1..], ch);
      InsertsLeave(env, RunStep(env, m, step), ifaces[1..], ch);
      assert [] + m.store[NAT_PREROUTING] == m.store[NAT_PREROUTING];
      Assoc(KeptHooks(env, m.clock + 1, ifaces[1..], ch), front, m.store[NAT_PREROUTING]);
    }
  }

  /** The hooks of OUTPUT and of PREROUTING after the recorded commands. */
  function OutHooks(env: Env, making: nat, l: Plan): seq<Rule> {
    if env.faults(making).None? && env.faults(HookAt(making, l)).None? then [TcpJump(l.out)] else []
  }

  function PreHooks(env: Env, making: nat, l: Plan): seq<Rule> {
    if l.hotspot && env.faults(making + 2).None? then KeptHooks(env, HookAt(making, l) + 1, l.ifaces, l.pre) else []
  }

  /** Both chains, where they were made, with the rules that got in. */
  ghost predicate Chains(env: Env, making: nat, l: Plan, s: Store) {
    && (env.faults(making).None? ==> NatChain(l.out) in s && s[NatChain(l.out)] == Kept(env, making + 4, OutRules(l)))
    && (env.faults(making + 2).None? ==> NatChain(l.pre) in s && s[NatChain(l.pre)] == Kept(env, PreFirst(making, l), PreRules(l)))
  }

  /** Only chains that were made are there. */
  ghost predicate OnlyMade(env: Env, making: nat, l: Plan, s: Store) {
    (NatChain(l.out) in s ==> env.faults(making).None?) && (NatChain(l.pre) in s ==> env.faults(making + 2).None?)
  }

  ghost predicate Hooks(env: Env, making: nat, l: Plan, s0: Store, s: Store) {
    && NAT_OUTPUT in s && NAT_OUTPUT in s0 && s[NAT_OUTPUT] == OutHooks(env, making, l) + s0[NAT_OUTPUT]
    && NAT_PREROUTING in s && NAT_PREROUTING in s0 && s[NAT_PREROUTING] == PreHooks(env, making, l) + s0[NAT_PREROUTING]
  }

  lemma {:induction false} OutHookLeaves(env: Env, t: Machine, out: string)
    requires NAT_OUTPUT in t.store && NatChain(out) != NAT_OUTPUT
    ensures var u := RunStep(env, t, Must(Insert(NAT_OUTPUT, TcpJump(out))));
      && u.clock == t.clock + 1
      && u.store == t.store[NAT_OUTPUT := (if NatChain(out) in t.store && env.faults(t.clock).None? then [TcpJump(out)] else []) + t.store[NAT_OUTPUT]]
  {
    assert [] + t.store[NAT_OUTPUT] == t.store[NAT_OUTPUT];
  }

  lemma {:induction false} HooksLeave(env: Env, m: Machine, t: Machine, u: Machine, l: Plan)
    requires FilledFor(env, m, t, l) && NamesFree(l) && NAT_OUTPUT in m.store && NAT_PREROUTING in m.store
    requires u == RunStep(env, t, Must(Insert(NAT_OUTPUT, TcpJump(l.out))))
    ensures var v := Run(env, u, Inserts(l));
      Chains(env, m.clock, l, v.store) && OnlyMade(env, m.clock, l, v.store) && Hooks(env, m.clock, l, m.store, v.store)
  {
    OutHookLeaves(env, t, l.out);
    if l.hotspot {
      InsertsLeave(env, u, l.ifaces, l.pre);
    }
    assert [] + m.store[NAT_PREROUTING] == m.store[NAT_PREROUTING];
  }

  /** What the recorded commands leave in a clean store, whatever failed. */
  lemma {:induction false} RecordedLeave(env: Env, m: Machine, cfg: Config, bypass: BypassList)
    requires CleanStart(cfg, m.store)
    ensures var v, l := Run(env, m, RedirectProgram(cfg, bypass)), PlanOf(cfg, bypass);
      Chains(env, m.clock, l, v.store) && OnlyMade(env, m.clock, l, v.store) && Hooks(env, m.clock, l, m.store, v.store) && NamesFree(l)
  {
    var t, u := Recorded(env, m, cfg, bypass);
    HooksLeave(env, m, t, u, PlanOf(cfg, bypass));
  }
}

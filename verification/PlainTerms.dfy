/**
 What Cleanup and net_clean.sh take out, and what Apply puts in, once more in names
 and rules written out, apart from the programs. Clean starts are stated on it too.
 */
module PlainTerms {
  import opened Common
  import opened Netfilter
  import opened Footprints
  import opened Cleaners
  import opened Firewall
  import opened Ownership
  import opened Additions
  import opened Undo
  import opened Installed
  import opened Disturbed
  import opened Verdicts
  import opened MoreVerdicts
  import opened Agreement
  import opened ConfigChange

  // ----- names and rules -----

  function PrefixOf(cfg: Config): string {
    if cfg.chainsPrefix != "" then cfg.chainsPrefix else "SSHC"
  }

  function ListOf(cfg: Config): seq<string> {
    if cfg.hotspotIfaces != [] then cfg.hotspotIfaces else ["wlan+", "swlan+", "ap+", "rndis+", "ncm+", "bt-pan+"]
  }

  /** Every chain name that was ever shipped. */
  function ShippedNames(p: string): seq<string> {
    [p + "_OUTPUT", p + "_PREROUTING", p + "_PROXY", p + "_DNS", p + "_HOTSPOT", p + "_HOTSPOT_DNS"]
  }

  /** `[-p proto] [--dport dport] [-i iface] -j chain` */
  function JumpRule(proto: Option<Proto>, dport: Option<int>, iface: Option<string>, chain: string): Rule {
    Rule(proto, None, dport, None, iface, None, None, Jump(chain))
  }

  /** How many copies of a rule are deleted as a hook of one chain name, from the nat tables of a family. */
  function HookCopies(f: Family, id: ChainId, r: Rule, n: string, list: seq<string>): nat {
    if id == ChainId(f, Nat, "OUTPUT") then
      if r == JumpRule(Some(Tcp), None, None, n) || r == JumpRule(None, None, None, n)
         || (f == V4 && r == JumpRule(Some(Udp), Some(53), None, n)) then 1 else 0
    else if id == ChainId(f, Nat, "PREROUTING") then
      if r.inIface.None? then if r == JumpRule(Some(Tcp), None, None, n) || r == JumpRule(None, None, None, n) then 1 else 0
      else if r == JumpRule(Some(Tcp), None, r.inIface, n) || r == JumpRule(None, None, r.inIface, n) then Times(list, r.inIface.value)
      else 0
    else 0
  }

  function SumCopies(f: Family, id: ChainId, r: Rule, names: seq<string>, list: seq<string>): nat {
    if names == [] then 0 else HookCopies(f, id, r, names[0], list) + SumCopies(f, id, r, names[1..], list)
  }

  /** Up to four copies of each QUIC rule, and one of the FORWARD rule. */
  function FilterCopies(id: ChainId, r: Rule): nat {
    if id == ChainId(V4, Filter, "OUTPUT") && r.proto == Some(Udp) && (r.dport == Some(443) || r.dport == Some(80))
       && r.dst.None? && r.uid.None? && r.inIface.None? && r.outIface.None? && r.other.None?
       && (r.target == Drop || r.target == Reject("icmp-port-unreachable")) then 4
    else if id == ChainId(V4, Filter, "FORWARD") && r == Rule(None, None, None, None, None, None, None, Accept) then 1
    else 0
  }

  /** How many copies of a rule one Cleanup takes out. */
  function TakesOut(cfg: Config, id: ChainId, r: Rule): nat {
    SumCopies(V4, id, r, ShippedNames(PrefixOf(cfg)), ListOf(cfg)) + FilterCopies(id, r)
    + if id.family == V6 && id.table == Filter && (id.name == "OUTPUT" || id.name == "FORWARD") && r == JumpRule(None, None, None, "SSHC_DROP6")
      then 1 else 0
  }

  // ----- Cleanup takes out exactly that -----

  lemma {:induction false} FixedCopies(ch: string, id: ChainId, r: Rule)
    ensures DeletesOnly(FixedDeletes(ch))
    ensures Deletes(FixedDeletes(ch), id, r)
         == (if id == ChainId(V4, Nat, "OUTPUT")
                && (r == JumpRule(Some(Tcp), None, None, ch) || r == JumpRule(None, None, None, ch) || r == JumpRule(Some(Udp), Some(53), None, ch))
             then 1 else 0)
            + (if id == ChainId(V4, Nat, "PREROUTING") && (r == JumpRule(Some(Tcp), None, None, ch) || r == JumpRule(None, None, None, ch)) then 1 else 0)
  {
    var p := FixedDeletes(ch);
    DeletesTwo(p[0], p[1], id, r);
    DeletesTwo(p[2], p[3], id, r);
    DeletesOne(p[4], id, r);
    DeletesConcat([p[0], p[1]], [p[2], p[3]], id, r);
    DeletesConcat([p[0], p[1]] + [p[2], p[3]], [p[4]], id, r);
    assert [p[0], p[1]] + [p[2], p[3]] + [p[4]] == p;
  }

  lemma {:induction false} HookPartIs(ch: string, list: seq<string>, id: ChainId, r: Rule)
    ensures HookPart(ch, list, id, r) == HookCopies(V4, id, r, ch, list)
  {
    FixedCopies(ch, id, r);
    IfaceDeleteCount(list, NAT_PREROUTING, ch, id, r);
  }

  lemma {:induction false} HooksAre(names: seq<string>, list: seq<string>, id: ChainId, r: Rule)
    ensures DeletesOnly(HookDeletes(names, list))
    ensures Deletes(HookDeletes(names, list), id, r) == SumCopies(V4, id, r, names, list)
  {
    if names != [] {
      HookSum(names, list, id, r);
      HookPartIs(names[0], list, id, r);
      HooksAre(names[1..], list, id, r);
    }
  }

  lemma {:induction false} QuicCopies(id: ChainId, r: Rule)
    ensures DeletesOnly(QuicDeletes()) && DeletesOnly(ForwardDelete())
    ensures Deletes(ForwardDelete(), id, r) + Deletes(QuicDeletes(), id, r) == FilterCopies(id, r)
  {
    var d := QuicDeletes();
    DeletesTwo(d[0], d[1], id, r);
    DeletesTwo(d[2], d[3], id, r);
    DeletesConcat([d[0], d[1]], [d[2], d[3]], id, r);
    assert [d[0], d[1]] + [d[2], d[3]] == d;
    DeletesOne(ForwardDelete()[0], id, r);
  }

  lemma {:induction false} CleanupTakes(cfg: Config, id: ChainId, r: Rule)
    ensures Deletions(CleanupPhases(cfg)) && AllDeletes(CleanupPhases(cfg), id, r) == TakesOut(cfg, id, r)
  {
    CleanupShape(cfg);
    NamesAre(cfg);
    ThreePhaseDeletes(CleanupPhases(cfg), id, r);
    HooksAre(LegacyNames(Prefix(cfg)), Ifaces(cfg), id, r);
    FilterPart(id, r);
    IPv6Copies(id, r);
  }

  lemma {:induction false} NamesAre(cfg: Config)
    ensures LegacyNames(Prefix(cfg)) == ShippedNames(PrefixOf(cfg)) && Ifaces(cfg) == ListOf(cfg)
  {
  }

  lemma {:induction false} FilterPart(id: ChainId, r: Rule)
    ensures DeletesOnly(FilterPhase().deletes) && Deletes(FilterPhase().deletes, id, r) == FilterCopies(id, r)
  {
    QuicCopies(id, r);
    DeletesConcat(ForwardDelete(), QuicDeletes(), id, r);
  }

  lemma {:induction false} IPv6Copies(id: ChainId, r: Rule)
    ensures DeletesOnly(EnableIPv6Phase().deletes)
    ensures Deletes(EnableIPv6Phase().deletes, id, r)
         == if id.family == V6 && id.table == Filter && (id.name == "OUTPUT" || id.name == "FORWARD") && r == JumpRule(None, None, None, "SSHC_DROP6")
            then 1 else 0
  {
    DeletesTwo(EnableIPv6Phase().deletes[0], EnableIPv6Phase().deletes[1], id, r);
  }

  predicate BuiltIn(id: ChainId) {
    || (id.family == V4 && id.table == Nat && (id.name == "OUTPUT" || id.name == "PREROUTING"))
    || (id.table == Filter && (id.name == "OUTPUT" || id.name == "FORWARD"))
  }

  lemma {:induction false} BuiltInsAre(id: ChainId)
    ensures BuiltIn(id) <==> id in BUILTINS
  {
  }

  /** One fault-free Cleanup takes exactly so many copies of each rule out of the built-in chains, as far as they are there. */
  lemma {:induction false} CleanupCounts(cfg: Config, s: Store, env: Env, id: ChainId, r: Rule)
    requires FaultFree(env) && BuiltIn(id)
    ensures Count(RunCall(cfg, s, CleanupCall(env)), id, r)
         == if Count(s, id, r) <= TakesOut(cfg, id, r) then 0 else Count(s, id, r) - TakesOut(cfg, id, r)
  {
    BuiltInsAre(id);
    CleanupTakes(cfg, id, r);
    BuiltinsNotOwned(cfg);
    OwnedFacts(cfg);
    OwnedChains(cfg, id);
    NotListed(cfg, id);
    CleanerCount(env, Begin(s), CleanupPhases(cfg), id, r);
  }

  /** The chains that Cleanup removes. */
  predicate Shipped(cfg: Config, c: ChainId) {
    c == ChainId(V6, Filter, "SSHC_DROP6") || (c.family == V4 && c.table == Nat && c.name in ShippedNames(PrefixOf(cfg)))
  }

  lemma {:induction false} OwnedIsShipped(cfg: Config, c: ChainId)
    ensures c in Owned(cfg).chains <==> Shipped(cfg, c)
  {
    var names := LegacyNames(Prefix(cfg));
    OwnedChains(cfg, c);
    NamesAre(cfg);
    if Shipped(cfg, c) && c != DROP6 {
      var i :| 0 <= i < |names| && names[i] == c.name;
      assert ChainsOf(V4, Nat, names)[i] == c;
    }
  }

  /** A clean start: no jump without its chain, no shipped chain, no rule that Cleanup takes out, and the built-in chains. */
  lemma {:induction false} CleanStartMeans(cfg: Config, s: Store)
    ensures CleanStart(cfg, s)
       <==> (forall id, r :: id in s && r in s[id] ==> TargetPresent(s, id, r) && TakesOut(cfg, id, r) == 0)
            && (forall c :: c in s ==> !Shipped(cfg, c))
            && (forall id :: BuiltIn(id) ==> id in s)
  {
    OwnsShipped(cfg);
    forall id ensures BuiltIn(id) <==> id in BUILTINS {
      BuiltInsAre(id);
    }
    CleanMeans(Owned(cfg), cfg, s);
  }

  /** The footprint owns what Cleanup takes out. */
  ghost predicate OwnsTaken(fp: Footprint, cfg: Config) {
    (forall id, r :: (id, r) in fp.rules <==> TakesOut(cfg, id, r) > 0) && (forall c :: c in fp.chains <==> Shipped(cfg, c))
  }

  lemma {:induction false} OwnsShipped(cfg: Config)
    ensures OwnsTaken(Owned(cfg), cfg)
  {
    OwnedFacts(cfg);
    forall id, r ensures (id, r) in Owned(cfg).rules <==> TakesOut(cfg, id, r) > 0 {
      CleanupTakes(cfg, id, r);
    }
    forall c ensures c in Owned(cfg).chains <==> Shipped(cfg, c) {
      OwnedIsShipped(cfg, c);
    }
  }

  lemma {:induction false} CleanMeans(fp: Footprint, cfg: Config, s: Store)
    requires OwnsTaken(fp, cfg)
    ensures Clean(fp, s)
       <==> (forall id, r :: id in s && r in s[id] ==> TargetPresent(s, id, r) && TakesOut(cfg, id, r) == 0) && (forall c :: c in s ==> !Shipped(cfg, c))
  {
  }

  // ----- an old version's chain and hook -----

  lemma {:induction false} SumHas(f: Family, id: ChainId, r: Rule, names: seq<string>, n: string, list: seq<string>)
    requires n in names
    ensures SumCopies(f, id, r, names, list) >= HookCopies(f, id, r, n, list)
  {
    if names[0] != n {
      SumHas(f, id, r, names[1..], n, list);
    }
  }

  /**
   A chain of any name that was ever shipped, with any rules that do not jump, and one
   hook of any shape that was ever used: one fault-free Cleanup removes both and
   restores the store that was there without them.
   */
  lemma {:induction false} OldInstallGone(cfg: Config, s0: Store, n: string, rules: seq<Rule>, at: ChainId, hook: Rule, env: Env)
    requires CleanStart(cfg, s0) && FaultFree(env) && n in ShippedNames(PrefixOf(cfg)) && NoJumps(rules)
    requires HookCopies(V4, at, hook, n, ListOf(cfg)) >= 1 && at in s0
    ensures RunCall(cfg, s0[ChainId(V4, Nat, n) := rules][at := [hook] + s0[at]], CleanupCall(env)) == s0
  {
    var fp, c := Owned(cfg), ChainId(V4, Nat, n);
    var t := s0[c := rules][at := [hook] + s0[at]];
    OwnedFacts(cfg);
    OwnedIsShipped(cfg, c);
    SumHas(V4, at, hook, ShippedNames(PrefixOf(cfg)), n, ListOf(cfg));
    CleanupTakes(cfg, at, hook);
    OneHook(fp, s0, c, rules, at, hook, t);
    forall id, r | (id, r) in fp.rules ensures Count(t, id, r) <= AllDeletes(CleanupPhases(cfg), id, r) {
      OneHookCount(fp, s0, c, rules, at, hook, t, id, r);
    }
    Restores(cfg, s0, t, env);
  }

  lemma {:induction false} OneHookCount(fp: Footprint, s0: Store, c: ChainId, rules: seq<Rule>, at: ChainId, hook: Rule, t: Store, id: ChainId, r: Rule)
    requires Clean(fp, s0) && c in fp.chains && at in s0 && (id, r) in fp.rules && id !in fp.chains && t == s0[c := rules][at := [hook] + s0[at]]
    ensures Count(t, id, r) == if id == at && r == hook then 1 else 0
  {
    CleanCounts(fp, s0, id, r);
    if id == at {
      assert multiset([hook] + s0[at])[r] == multiset([hook])[r] + multiset(s0[at])[r];
    }
  }

  lemma {:induction false} OneHook(fp: Footprint, s0: Store, c: ChainId, rules: seq<Rule>, at: ChainId, hook: Rule, t: Store)
    requires Clean(fp, s0) && c in fp.chains && at in s0 && (at, hook) in fp.rules && NoJumps(rules)
    requires t == s0[c := rules][at := [hook] + s0[at]] && forall id, r :: (id, r) in fp.rules ==> id !in fp.chains
    ensures Foreign(fp, t) == s0 && Shape(fp, t)
  {
    var hooks := (id: ChainId) => if id == at then [hook] else [];
    forall id | id in t && id !in fp.chains ensures id in s0 && OnTop(fp, id, hooks(id), s0[id], t[id]) {
      if id != at {
        assert [] + s0[id] == s0[id];
      }
    }
    LayeredForeign(fp, s0, t, hooks);
  }

  // ----- the script takes out exactly this -----

  function ShippedNames6(p: string): seq<string> {
    ShippedNames(p) + ["SSHC_DROP6"]
  }

  /** Plain jumps from the two IPv6 filter chains. */
  function Filter6Copies(id: ChainId, r: Rule, names: seq<string>): nat {
    if names == [] then 0
    else (if id.family == V6 && id.table == Filter && (id.name == "OUTPUT" || id.name == "FORWARD") && r == JumpRule(None, None, None, names[0]) then 1 else 0)
         + Filter6Copies(id, r, names[1..])
  }

  /** How many copies of a rule one run of net_clean.sh takes out, for the prefix and the interface list it fixes. */
  function ScriptTakesOut(p: string, list: seq<string>, id: ChainId, r: Rule): nat {
    SumCopies(V4, id, r, ShippedNames(p), list) + SumCopies(V6, id, r, ShippedNames6(p), list) + Filter6Copies(id, r, ShippedNames6(p))
    + FilterCopies(id, r)
  }

  lemma {:induction false} Fixed6Copies(ch: string, id: ChainId, r: Rule)
    ensures DeletesOnly(ScriptFixedDeletes6(ch))
    ensures Deletes(ScriptFixedDeletes6(ch), id, r)
         == (if id.family == V6 && id.table == Filter && (id.name == "OUTPUT" || id.name == "FORWARD") && r == JumpRule(None, None, None, ch) then 1 else 0)
            + if id.family == V6 && id.table == Nat && (id.name == "OUTPUT" || id.name == "PREROUTING")
                 && (r == JumpRule(Some(Tcp), None, None, ch) || r == JumpRule(None, None, None, ch)) then 1 else 0
  {
    var p := ScriptFixedDeletes6(ch);
    DeletesTwo(p[0], p[1], id, r);
    DeletesTwo(p[2], p[3], id, r);
    DeletesTwo(p[4], p[5], id, r);
    DeletesConcat([p[0], p[1]], [p[2], p[3]], id, r);
    DeletesConcat([p[0], p[1]] + [p[2], p[3]], [p[4], p[5]], id, r);
    assert [p[0], p[1]] + [p[2], p[3]] + [p[4], p[5]] == p;
  }

  lemma {:induction false} Hooks6Are(names: seq<string>, list: seq<string>, id: ChainId, r: Rule)
    ensures DeletesOnly(ScriptDeletes6(names, list))
    ensures Deletes(ScriptDeletes6(names, list), id, r) == SumCopies(V6, id, r, names, list) + Filter6Copies(id, r, names)
  {
    if names != [] {
      var fixed, per := ScriptFixedDeletes6(names[0]), IfaceDeletes(list, ChainId(V6, Nat, "PREROUTING"), names[0]);
      Fixed6Copies(names[0], id, r);
      IfaceDeleteCount(list, ChainId(V6, Nat, "PREROUTING"), names[0], id, r);
      Hooks6Are(names[1..], list, id, r);
      DeletesConcat(fixed, per, id, r);
      DeletesConcat(fixed + per, ScriptDeletes6(names[1..], list), id, r);
    }
  }

  lemma {:induction false} ScriptNamesAre(p: string)
    ensures LegacyNames(p) == ShippedNames(p) && LegacyNames(p) + [DROP6_NAME] == ShippedNames6(p)
  {
  }

  lemma {:induction false} ScriptTakesFor(names: seq<string>, names6: seq<string>, list: seq<string>, a: Phase, b: Phase, c: Phase, id: ChainId, r: Rule)
    requires a.deletes == HookDeletes(names, list) && b.deletes == ForwardDelete() + ScriptDeletes6(names6, list) && c.deletes == QuicDeletes()
    requires Deletions([a, b, c])
    ensures AllDeletes([a, b, c], id, r)
         == SumCopies(V4, id, r, names, list) + SumCopies(V6, id, r, names6, list) + Filter6Copies(id, r, names6) + FilterCopies(id, r)
  {
    ThreePhaseDeletes([a, b, c], id, r);
    HooksAre(names, list, id, r);
    Hooks6Are(names6, list, id, r);
    QuicCopies(id, r);
    DeletesConcat(ForwardDelete(), ScriptDeletes6(names6, list), id, r);
  }

  lemma {:induction false} ScriptTakes(p: string, list: seq<string>, id: ChainId, r: Rule)
    ensures Deletions(Script(p, list)) && AllDeletes(Script(p, list), id, r) == ScriptTakesOut(p, list, id, r)
  {
    var cl := Script(p, list);
    ScriptHasShape(p, list);
    ScriptNamesAre(p);
    assert cl == [cl[0], cl[1], cl[2]];
    ScriptTakesFor(LegacyNames(p), LegacyNames(p) + [DROP6_NAME], list, cl[0], cl[1], cl[2], id, r);
  }

  /** The chains that the script removes: the shipped names in nat, and in both IPv6 tables with SSHC_DROP6. */
  predicate ScriptShipped(p: string, c: ChainId) {
    || (c.family == V4 && c.table == Nat && c.name in ShippedNames(p))
    || (c.family == V6 && (c.table == Nat || c.table == Filter) && c.name in ShippedNames6(p))
  }

  lemma {:induction false} Chains6Are(names: seq<string>, c: ChainId)
    ensures c in ScriptChains6(names) <==> c.family == V6 && (c.table == Nat || c.table == Filter) && c.name in names
  {
    if names != [] {
      Chains6Are(names[1..], c);
    }
  }

  lemma {:induction false} ChainsOfAre(f: Family, t: Table, names: seq<string>, c: ChainId)
    ensures c in ChainsOf(f, t, names) <==> c.family == f && c.table == t && c.name in names
  {
    if names != [] {
      ChainsOfAre(f, t, names[1..], c);
    }
  }

  lemma {:induction false} ScriptOwnsShipped(p: string, list: seq<string>, c: ChainId)
    ensures c in ScriptOwned(p, list).chains <==> ScriptShipped(p, c)
  {
    ScriptOwnedFacts(p, list);
    ScriptNamesAre(p);
    Chains6Are(LegacyNames(p) + [DROP6_NAME], c);
    ChainsOfAre(V4, Nat, LegacyNames(p), c);
    ScriptHasShape(p, list);
    ThreeChains(Script(p, list), ScriptOwned(p, list), c);
  }

  lemma {:induction false} ThreeChains(cl: seq<Phase>, fp: Footprint, c: ChainId)
    requires |cl| == 3 && OwnerOf(fp, cl)
    ensures c in fp.chains <==> c in cl[0].chains || c in cl[1].chains || c in cl[2].chains
  {
  }

  ghost predicate OwnsScript(fp: Footprint, p: string, list: seq<string>) {
    (forall id, r :: (id, r) in fp.rules <==> ScriptTakesOut(p, list, id, r) > 0) && (forall c :: c in fp.chains <==> ScriptShipped(p, c))
  }

  lemma {:induction false} ScriptOwns(p: string, list: seq<string>)
    ensures OwnsScript(ScriptOwned(p, list), p, list)
  {
    ScriptOwnedFacts(p, list);
    forall id, r ensures (id, r) in ScriptOwned(p, list).rules <==> ScriptTakesOut(p, list, id, r) > 0 {
      ScriptTakes(p, list, id, r);
    }
    forall c ensures c in ScriptOwned(p, list).chains <==> ScriptShipped(p, c) {
      ScriptOwnsShipped(p, list, c);
    }
  }

  lemma {:induction false} ScriptCleanMeans(fp: Footprint, p: string, list: seq<string>, s: Store)
    requires OwnsScript(fp, p, list)
    ensures Clean(fp, s)
       <==> (forall id, r :: id in s && r in s[id] ==> TargetPresent(s, id, r) && ScriptTakesOut(p, list, id, r) == 0)
            && (forall c :: c in s ==> !ScriptShipped(p, c))
  {
  }

  /** A clean start for the script. */
  lemma {:induction false} ScriptStartMeans(cfg: Config, list: seq<string>, s: Store)
    ensures ScriptStart(cfg, list, s)
       <==> CleanStart(cfg, s)
            && (forall id, r :: id in s && r in s[id] ==> TargetPresent(s, id, r) && ScriptTakesOut(PrefixOf(cfg), list, id, r) == 0)
            && (forall c :: c in s ==> !ScriptShipped(PrefixOf(cfg), c))
  {
    ScriptOwns(Prefix(cfg), list);
    ScriptCleanMeans(ScriptOwned(Prefix(cfg), list), Prefix(cfg), list, s);
  }

  lemma {:induction false} ScriptLeaves(p: string, list: seq<string>, id: ChainId)
    requires !ScriptShipped(p, id)
    ensures forall i :: 0 <= i < |Script(p, list)| ==> id !in Script(p, list)[i].chains
  {
    ScriptNamesAre(p);
    Chains6Are(LegacyNames(p) + [DROP6_NAME], id);
    ChainsOfAre(V4, Nat, LegacyNames(p), id);
  }

  /** One undisturbed run of the script takes exactly so many copies of each rule out of a chain that it does not remove. */
  lemma {:induction false} ScriptCounts(p: string, list: seq<string>, s: Store, env: Env, id: ChainId, r: Rule)
    requires FaultFree(env) && !ScriptShipped(p, id)
    ensures Count(Run(env, Begin(s), CleanerProgram(Script(p, list))).store, id, r)
         == if Count(s, id, r) <= ScriptTakesOut(p, list, id, r) then 0 else Count(s, id, r) - ScriptTakesOut(p, list, id, r)
  {
    ScriptTakes(p, list, id, r);
    ScriptLeaves(p, list, id);
    CleanerCount(env, Begin(s), Script(p, list), id, r);
  }

  /** As shipped it fixes the prefix SSHC and the six usual patterns. */
  lemma {:induction false} ShippedScript()
    ensures ScriptPhases() == Script("SSHC", ["wlan+", "swlan+", "ap+", "rndis+", "ncm+", "bt-pan+"])
  {
    ScriptIsScript();
  }

  // ----- what Apply puts in -----

  /** The chains of an undisturbed Apply from a clean start. */
  lemma {:induction false} InstalledChains(k: Kernel, cfg: Config, bypass: BypassList, s0: Store)
    requires CleanStart(cfg, s0)
    ensures InstalledStore(k, cfg, bypass, s0).Keys
         == s0.Keys + {ChainId(V4, Nat, PrefixOf(cfg) + "_OUTPUT"), ChainId(V4, Nat, PrefixOf(cfg) + "_PREROUTING"), ChainId(V6, Filter, "SSHC_DROP6")}
            + if cfg.dnsForwardPort > 0 then {ChainId(V4, Nat, PrefixOf(cfg) + "_DNS")} else {}
  {
    OwnNotBuiltin(cfg);
  }

  /** Its hooks stand at the first positions: the DNS hook, then the TCP hook; the IPv6 hooks; and the QUIC rules stand at the end. */
  lemma {:induction false} InstalledPositions(k: Kernel, cfg: Config, bypass: BypassList, s0: Store)
    requires CleanStart(cfg, s0)
    ensures var t := InstalledStore(k, cfg, bypass, s0); var out, p := ChainId(V4, Nat, "OUTPUT"), PrefixOf(cfg);
      && out in t && out in s0
      && t[out] == (if cfg.dnsForwardPort > 0 then [JumpRule(Some(Udp), Some(53), None, p + "_DNS")] else [])
                   + ([JumpRule(Some(Tcp), None, None, p + "_OUTPUT")] + s0[out])
    ensures var t := InstalledStore(k, cfg, bypass, s0);
      forall id: ChainId :: id.family == V6 && id.table == Filter && (id.name == "OUTPUT" || id.name == "FORWARD")
        ==> id in t && id in s0 && t[id] == [JumpRule(None, None, None, "SSHC_DROP6")] + s0[id]
    ensures var t := InstalledStore(k, cfg, bypass, s0); var out, to := ChainId(V4, Filter, "OUTPUT"), if k.reject4 then Reject("icmp-port-unreachable") else Drop;
      && out in t && out in s0
      && t[out] == s0[out] + [Rule(Some(Udp), None, Some(443), None, None, None, None, to), Rule(Some(Udp), None, Some(80), None, None, None, None, to)]
  {
    InstalledNatOutput(k, cfg, bypass, s0);
    InstalledFilter(k, cfg, bypass, s0);
  }
}

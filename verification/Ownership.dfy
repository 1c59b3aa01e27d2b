/**
 What Cleanup owns: the shape of its phases, and the footprint of the rules it
 deletes and the chains it removes.
 */
module Ownership {
  import opened Netfilter
  import opened Footprints
  import opened Cleaners
  import opened Firewall

  // ----- the footprint of a cleanup, as sets -----

  function DeletedRules(p: Program): set<(ChainId, Rule)>
    requires DeletesOnly(p)
  {
    if p == [] then {} else {DeleteOf(p[0])} + DeletedRules(p[1..])
  }

  lemma {:induction false} DeletedRulesAre(p: Program, id: ChainId, r: Rule)
    requires DeletesOnly(p)
    requires forall i :: 0 <= i < |p| && p[i].WhileOk? ==> p[i].times > 0
    ensures (id, r) in DeletedRules(p) <==> Deletes(p, id, r) > 0
    ensures (id, r) in DeletedRules(p) <==> exists i :: 0 <= i < |p| && DeleteOf(p[i]) == (id, r)
  {
    if p != [] {
      DeletedRulesAre(p[1..], id, r);
      if i :| 0 <= i < |p[1..]| && DeleteOf(p[1..][i]) == (id, r) {
        assert DeleteOf(p[i + 1]) == (id, r);
      }
      if i :| 0 < i < |p| && DeleteOf(p[i]) == (id, r) {
        assert DeleteOf(p[1..][i - 1]) == (id, r);
      }
    }
  }

  function ChainSet(cl: seq<Phase>): set<ChainId> {
    if cl == [] then {} else (set c | c in cl[0].chains) + ChainSet(cl[1..])
  }

  function RuleSet(cl: seq<Phase>): set<(ChainId, Rule)>
    requires forall i :: 0 <= i < |cl| ==> DeletesOnly(cl[i].deletes)
  {
    if cl == [] then {} else DeletedRules(cl[0].deletes) + RuleSet(cl[1..])
  }

  function FootprintOf(cl: seq<Phase>): Footprint
    requires forall i :: 0 <= i < |cl| ==> DeletesOnly(cl[i].deletes)
  {
    Footprint(ChainSet(cl), RuleSet(cl))
  }

  ghost predicate Repeats(cl: seq<Phase>) {
    forall i, j :: 0 <= i < |cl| && 0 <= j < |cl[i].deletes| && cl[i].deletes[j].WhileOk? ==> cl[i].deletes[j].times > 0
  }

  lemma {:induction false} ChainSetIs(cl: seq<Phase>, c: ChainId)
    ensures c in ChainSet(cl) <==> exists i :: 0 <= i < |cl| && c in cl[i].chains
  {
    if cl != [] {
      ChainSetIs(cl[1..], c);
      if i :| 0 <= i < |cl[1..]| && c in cl[1..][i].chains {
        assert c in cl[i + 1].chains;
      }
      if i :| 0 < i < |cl| && c in cl[i].chains {
        assert c in cl[1..][i - 1].chains;
      }
    }
  }

  lemma {:induction false} RuleSetIs(cl: seq<Phase>, id: ChainId, r: Rule)
    requires Deletions(cl) && Repeats(cl)
    ensures (id, r) in RuleSet(cl) <==> AllDeletes(cl, id, r) > 0
  {
    if cl != [] {
      DeletedRulesAre(cl[0].deletes, id, r);
      assert Repeats(cl[1..]) by {
        forall i, j | 0 <= i < |cl[1..]| && 0 <= j < |cl[1..][i].deletes| && cl[1..][i].deletes[j].WhileOk?
          ensures cl[1..][i].deletes[j].times > 0 { assert cl[1..][i] == cl[i + 1]; }
      }
      RuleSetIs(cl[1..], id, r);
    }
  }

  /** Deletions happen at hook points, removals concern chains with an underscore in the name. */
  predicate HookPoint(id: ChainId) {
    id.name == "OUTPUT" || id.name == "PREROUTING" || id.name == "FORWARD"
  }

  ghost predicate Separated(cl: seq<Phase>)
    requires Deletions(cl)
  {
    && Repeats(cl)
    && (forall i, j :: 0 <= i < |cl| && 0 <= j < |cl[i].deletes| ==> HookPoint(DeleteOf(cl[i].deletes[j]).0))
    && (forall i, c :: 0 <= i < |cl| && c in cl[i].chains ==> '_' in c.name)
  }

  lemma {:induction false} AllDeletesSome(cl: seq<Phase>, id: ChainId, r: Rule)
    requires Deletions(cl) && AllDeletes(cl, id, r) > 0
    ensures exists i :: 0 <= i < |cl| && Deletes(cl[i].deletes, id, r) > 0
  {
    if Deletes(cl[0].deletes, id, r) == 0 {
      AllDeletesSome(cl[1..], id, r);
      var i :| 0 <= i < |cl[1..]| && Deletes(cl[1..][i].deletes, id, r) > 0;
      assert Deletes(cl[i + 1].deletes, id, r) > 0;
    }
  }

  lemma {:induction false} HookPointsPlain(id: ChainId)
    requires HookPoint(id)
    ensures '_' !in id.name
  {
  }

  lemma {:induction false} RuleSetAtHooks(cl: seq<Phase>, id: ChainId, r: Rule)
    requires Deletions(cl) && Separated(cl) && AllDeletes(cl, id, r) > 0
    ensures HookPoint(id)
  {
    AllDeletesSome(cl, id, r);
    var i :| 0 <= i < |cl| && Deletes(cl[i].deletes, id, r) > 0;
    DeletedRulesAre(cl[i].deletes, id, r);
    var j :| 0 <= j < |cl[i].deletes| && DeleteOf(cl[i].deletes[j]) == (id, r);
    assert HookPoint(DeleteOf(cl[i].deletes[j]).0);
  }

  lemma {:induction false} FootprintOwns(cl: seq<Phase>)
    requires Deletions(cl) && Separated(cl)
    ensures OwnerOf(FootprintOf(cl), cl)
    ensures CleanerInside(FootprintOf(cl), cl)
    ensures forall c :: c in FootprintOf(cl).chains ==> '_' in c.name
    ensures forall id, r :: (id, r) in FootprintOf(cl).rules ==> HookPoint(id)
  {
    var fp := FootprintOf(cl);
    forall c ensures c in fp.chains <==> exists i :: 0 <= i < |cl| && c in cl[i].chains {
      ChainSetIs(cl, c);
    }
    forall id, r
      ensures (id, r) in fp.rules <==> AllDeletes(cl, id, r) > 0
      ensures (id, r) in fp.rules ==> HookPoint(id) && id !in fp.chains
    {
      RuleSetIs(cl, id, r);
      if (id, r) in fp.rules {
        RuleSetAtHooks(cl, id, r);
        HookPointsPlain(id);
      }
    }
    OwnerInside(fp, cl);
  }

  // ----- the shape of the concrete cleanups -----

  /** A deletion of a jump into one of the named chains, at a nat hook point of the family. */
  predicate NatHook(step: Step, f: Family, names: set<string>) {
    && DeleteStep(step) && step.FirstOk?
    && HookPoint(DeleteOf(step).0) && DeleteOf(step).0.family == f
    && DeleteOf(step).1.target.Jump? && DeleteOf(step).1.target.chain in names
  }

  ghost predicate NatHooks(p: Program, f: Family, names: set<string>) {
    forall i :: 0 <= i < |p| ==> NatHook(p[i], f, names)
  }

  lemma {:induction false} IfaceDeletesAreHooks(ifaces: seq<string>, at: ChainId, ch: string, names: set<string>)
    requires HookPoint(at) && ch in names
    ensures NatHooks(IfaceDeletes(ifaces, at, ch), at.family, names)
  {
    if ifaces != [] {
      IfaceDeletesAreHooks(ifaces[1..], at, ch, names);
    }
  }

  lemma {:induction false} HookDeletesAreHooks(list: seq<string>, ifaces: seq<string>, names: set<string>)
    requires forall n :: n in list ==> n in names
    ensures NatHooks(HookDeletes(list, ifaces), V4, names)
  {
    if list != [] {
      IfaceDeletesAreHooks(ifaces, NAT_PREROUTING, list[0], names);
      HookDeletesAreHooks(list[1..], ifaces, names);
      assert NatHooks(FixedDeletes(list[0]), V4, names);
    }
  }

  lemma {:induction false} ScriptDeletesAreHooks(list: seq<string>, ifaces: seq<string>, names: set<string>)
    requires forall n :: n in list ==> n in names
    ensures NatHooks(ScriptDeletes6(list, ifaces), V6, names)
  {
    if list != [] {
      IfaceDeletesAreHooks(ifaces, ChainId(V6, Nat, "PREROUTING"), list[0], names);
      ScriptDeletesAreHooks(list[1..], ifaces, names);
      assert NatHooks(ScriptFixedDeletes6(list[0]), V6, names);
    }
  }

  /** A program of hook deletions deletes nothing of another family and no rule without a jump. */
  lemma {:induction false} HooksDelete(p: Program, f: Family, names: set<string>, id: ChainId, r: Rule)
    requires NatHooks(p, f, names)
    ensures DeletesOnly(p)
    ensures Deletes(p, id, r) > 0 ==> id.family == f && r.target.Jump? && r.target.chain in names
  {
    DeletedRulesAre(p, id, r);
  }

  lemma {:induction false} LegacyUnderscores(prefix: string)
    ensures forall n :: n in LegacyNames(prefix) ==> '_' in n
  {
    var suffixes := ["_OUTPUT", "_PREROUTING", "_PROXY", "_DNS", "_HOTSPOT", "_HOTSPOT_DNS"];
    forall i | 0 <= i < 6 ensures '_' in LegacyNames(prefix)[i] {
      assert LegacyNames(prefix)[i] == prefix + suffixes[i];
      assert (prefix + suffixes[i])[|prefix|] == '_';
    }
  }

  function NameSet(names: seq<string>): set<string> {
    set n | n in names
  }

  lemma {:induction false} NatPhaseShape(prefix: string, ifaces: seq<string>)
    ensures NatHooks(NatPhase(prefix, ifaces).deletes, V4, NameSet(LegacyNames(prefix)))
    ensures DeletesOnly(NatPhase(prefix, ifaces).deletes)
    ensures forall c :: c in NatPhase(prefix, ifaces).chains ==> '_' in c.name && c.family == V4 && c.table == Nat
  {
    HookDeletesAreHooks(LegacyNames(prefix), ifaces, NameSet(LegacyNames(prefix)));
    LegacyUnderscores(prefix);
  }

  ghost predicate PhaseSeparated(ph: Phase) {
    && (forall j :: 0 <= j < |ph.deletes| ==>
         (DeleteStep(ph.deletes[j]) && HookPoint(DeleteOf(ph.deletes[j]).0) && (ph.deletes[j].WhileOk? ==> ph.deletes[j].times > 0)))
    && (forall c :: c in ph.chains ==> '_' in c.name)
  }

  lemma {:induction false} PhasesSeparated(cl: seq<Phase>)
    requires forall i :: 0 <= i < |cl| ==> PhaseSeparated(cl[i])
    ensures Deletions(cl) && Separated(cl)
  {
  }

  lemma {:induction false} NatPhaseSeparated(prefix: string, ifaces: seq<string>)
    ensures PhaseSeparated(NatPhase(prefix, ifaces))
  {
    var ph := NatPhase(prefix, ifaces);
    NatPhaseShape(prefix, ifaces);
    forall j | 0 <= j < |ph.deletes| ensures DeleteStep(ph.deletes[j]) && HookPoint(DeleteOf(ph.deletes[j]).0) && ph.deletes[j].FirstOk? {
      assert NatHook(ph.deletes[j], V4, NameSet(LegacyNames(prefix)));
    }
  }

  lemma {:induction false} FilterPhaseSeparated()
    ensures PhaseSeparated(FilterPhase())
  {
    var ph := FilterPhase();
    assert |ph.deletes| == 5 && ph.deletes[0] == ForwardDelete()[0];
    forall j | 0 < j < 5 ensures ph.deletes[j] == QuicDeletes()[j - 1] {
    }
  }

  lemma {:induction false} IPv6PhaseSeparated()
    ensures PhaseSeparated(EnableIPv6Phase())
  {
    assert DROP6.name[4] == '_';
  }

  lemma {:induction false} CleanupShape(cfg: Config)
    ensures Deletions(CleanupPhases(cfg)) && Separated(CleanupPhases(cfg))
    ensures Deletions(RulesPhases(cfg)) && Separated(RulesPhases(cfg))
  {
    NatPhaseSeparated(Prefix(cfg), Ifaces(cfg));
    FilterPhaseSeparated();
    IPv6PhaseSeparated();
    PhasesSeparated(CleanupPhases(cfg));
    PhasesSeparated(RulesPhases(cfg));
  }

  function Owned(cfg: Config): Footprint
  {
    CleanupShape(cfg);
    FootprintOf(CleanupPhases(cfg))
  }

  /** Nothing that Cleanup deletes is there, and the built-in chains are. */
  ghost predicate CleanStart(cfg: Config, s: Store) {
    Clean(Owned(cfg), s) && BUILTINS <= s.Keys
  }

  /** The built-in chains without a rule. */
  function EmptyTables(): Store {
    map id | id in BUILTINS :: []
  }

  lemma {:induction false} BuiltinsPlain()
    ensures forall id :: id in BUILTINS ==> '_' !in id.name
  {
    forall id | id in BUILTINS ensures '_' !in id.name {
      HookPointsPlain(id);
    }
  }

  lemma {:induction false} EmptyIsClean(fp: Footprint, s: Store)
    requires s == EmptyTables() && forall c :: c in fp.chains ==> '_' in c.name
    ensures Clean(fp, s) && BUILTINS <= s.Keys
  {
    BuiltinsPlain();
    forall c | c in fp.chains ensures c !in s {
      assert c in s ==> c in BUILTINS;
    }
  }

  /** Hooks in the first phase only lead to its chains, the second deletes no jump, the third works on IPv6. */
  ghost predicate GoShape(cl: seq<Phase>, names: set<string>) {
    && |cl| == 3 && Deletions(cl) && Repeats(cl)
    && NatHooks(cl[0].deletes, V4, names)
    && (forall c :: c in cl[0].chains ==> c.family == V4)
    && (forall j :: 0 <= j < |cl[1].deletes| ==> !DeleteOf(cl[1].deletes[j]).1.target.Jump?)
    && cl[1].chains == []
    && (forall j :: 0 <= j < |cl[2].deletes| ==> DeleteOf(cl[2].deletes[j]).0.family == V6)
    && (forall c :: c in cl[2].chains ==> c.family == V6)
  }

  lemma {:induction false} GoShapeFits(fp: Footprint, cl: seq<Phase>, names: set<string>, s: Store)
    requires GoShape(cl, names) && OwnerOf(fp, cl) && Bounded(fp, cl, s)
    ensures Fits(fp, cl, s)
  {
    forall i, id, r | 0 <= i < |cl| && (id, r) in fp.rules && r.target.Jump?
                      && ChainId(id.family, id.table, r.target.chain) in cl[i].chains
      ensures Count(s, id, r) <= Deletes(cl[i].deletes, id, r)
    {
      HooksDelete(cl[0].deletes, V4, names, id, r);
      DeletedRulesAre(cl[1].deletes, id, r);
      DeletedRulesAre(cl[2].deletes, id, r);
      ThreePhaseDeletes(cl, id, r);
    }
  }

  lemma {:induction false} CleanupFits(cfg: Config, s: Store)
    requires Deletions(CleanupPhases(cfg)) && OwnerOf(Owned(cfg), CleanupPhases(cfg))
    requires Bounded(Owned(cfg), CleanupPhases(cfg), s)
    ensures Fits(Owned(cfg), CleanupPhases(cfg), s)
  {
    CleanupGoShape(cfg);
    GoShapeFits(Owned(cfg), CleanupPhases(cfg), NameSet(LegacyNames(Prefix(cfg))), s);
  }

  lemma {:induction false} CleanupGoShape(cfg: Config)
    ensures GoShape(CleanupPhases(cfg), NameSet(LegacyNames(Prefix(cfg))))
  {
    NatPhaseShape(Prefix(cfg), Ifaces(cfg));
    CleanupShape(cfg);
    GoShapeOf(NatPhase(Prefix(cfg), Ifaces(cfg)), NameSet(LegacyNames(Prefix(cfg))));
  }

  lemma {:induction false} GoShapeOf(a: Phase, names: set<string>)
    requires NatHooks(a.deletes, V4, names)
    requires forall c :: c in a.chains ==> c.family == V4
    requires Deletions([a, FilterPhase(), EnableIPv6Phase()]) && Repeats([a, FilterPhase(), EnableIPv6Phase()])
    ensures GoShape([a, FilterPhase(), EnableIPv6Phase()], names)
  {
  }

  lemma {:induction false} ThreePhaseDeletes(cl: seq<Phase>, id: ChainId, r: Rule)
    requires |cl| == 3 && Deletions(cl)
    ensures AllDeletes(cl, id, r)
         == Deletes(cl[0].deletes, id, r) + Deletes(cl[1].deletes, id, r) + Deletes(cl[2].deletes, id, r)
  {
    assert cl[1..][1..] == cl[2..] && cl[2..][1..] == [];
    assert AllDeletes(cl[2..], id, r) == Deletes(cl[2].deletes, id, r) + AllDeletes(cl[2..][1..], id, r);
    assert AllDeletes(cl[1..], id, r) == Deletes(cl[1].deletes, id, r) + AllDeletes(cl[2..], id, r);
  }
}

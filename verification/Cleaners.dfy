/**
 Running a cleanup program without faults: which copies of a rule it takes out,
 when its chains go, and the exact condition under which nothing owned is left.
 */
module Cleaners {
  import opened Netfilter
  import opened Footprints

  function Minus(a: nat, b: nat): nat {
    if a <= b then 0 else a - b
  }

  // ----- deletions -----

  lemma {:induction false} RemovedCount(rules: seq<Rule>, r: Rule, x: Rule)
    ensures multiset(RemoveFirst(rules, r))[x] == Minus(multiset(rules)[x], if x == r then 1 else 0)
  {
    RemoveFirstMultiset(rules, r);
  }

  lemma {:induction false} TickDelete(env: Env, m: Machine, c: Command, id: ChainId, r: Rule)
    requires FaultFree(env) && c.Delete?
    ensures Count(Tick(env, m, c).store, id, r)
         == Minus(Count(m.store, id, r), if c == Delete(id, r) then 1 else 0)
    ensures Tick(env, m, c).store.Keys == m.store.Keys
    ensures Outcome(env, m, c).None? <==> Count(m.store, c.id, c.rule) > 0
  {
    if Outcome(env, m, c).None? {
      RemovedCount(m.store[c.id], c.rule, r);
    } else {
      assert Count(m.store, c.id, c.rule) == 0;
    }
  }

  lemma {:induction false} WhileOkDelete(env: Env, m: Machine, c: Command, n: nat, id: ChainId, r: Rule)
    requires FaultFree(env) && c.Delete?
    ensures Count(RunWhileOk(env, m, c, n).store, id, r)
         == Minus(Count(m.store, id, r), if c == Delete(id, r) then n else 0)
    ensures RunWhileOk(env, m, c, n).store.Keys == m.store.Keys
    decreases n
  {
    if n != 0 {
      TickDelete(env, m, c, id, r);
      if Outcome(env, m, c).None? {
        WhileOkDelete(env, Tick(env, m, c), c, n - 1, id, r);
      }
    }
  }

  lemma {:induction false} RunDeletes(env: Env, m: Machine, p: Program, id: ChainId, r: Rule)
    requires FaultFree(env) && DeletesOnly(p)
    ensures Count(Run(env, m, p).store, id, r) == Minus(Count(m.store, id, r), Deletes(p, id, r))
    ensures Run(env, m, p).store.Keys == m.store.Keys
    decreases p
  {
    if p != [] {
      assert DeleteStep(p[0]);
      match p[0] {
        case FirstOk(cs) =>
          BestIsTick(env, m, cs[0]);
          assert p[0] == Best(cs[0]);
          TickDelete(env, m, cs[0], id, r);
        case WhileOk(c, n) => WhileOkDelete(env, m, c, n, id, r);
      }
      RunDeletes(env, RunStep(env, m, p[0]), p[1..], id, r);
    }
  }

  // ----- removals -----

  lemma {:induction false} RunRemovalsHead(env: Env, m: Machine, chains: seq<ChainId>)
    requires chains != []
    ensures Run(env, m, Removals(chains))
         == Run(env, Tick(env, Tick(env, m, Flush(chains[0])), DeleteChain(chains[0])), Removals(chains[1..]))
  {
    var p := Removals(chains);
    var m1 := Tick(env, m, Flush(chains[0]));
    assert p[0] == Best(Flush(chains[0])) && p[1..][0] == Best(DeleteChain(chains[0]));
    assert p[1..][1..] == Removals(chains[1..]);
    BestIsTick(env, m, Flush(chains[0]));
    BestIsTick(env, m1, DeleteChain(chains[0]));
  }

  lemma {:induction false} BestIsTick(env: Env, m: Machine, c: Command)
    ensures RunStep(env, m, Best(c)) == Tick(env, m, c)
  {
    assert RunFirstOk(env, Tick(env, m, c), [c][1..]) == Tick(env, m, c);
  }

  /** Removing chains leaves every other chain alone, whatever fails. */
  lemma {:induction false} RemovalsFrame(env: Env, m: Machine, chains: seq<ChainId>)
    ensures var s := Run(env, m, Removals(chains)).store;
            && s.Keys <= m.store.Keys
            && (forall id :: id in m.store && id !in chains ==> id in s && s[id] == m.store[id])
    decreases chains
  {
    if chains != [] {
      RunRemovalsHead(env, m, chains);
      RemovalsFrame(env, Tick(env, Tick(env, m, Flush(chains[0])), DeleteChain(chains[0])), chains[1..]);
    }
  }

  /** With no fault, chains that nothing refers to are all removed. */
  lemma {:induction false} RemovalsRemove(env: Env, m: Machine, chains: seq<ChainId>)
    requires FaultFree(env)
    requires forall c :: c in chains ==> !Referenced(m.store, c)
    ensures forall c :: c in chains ==> c !in Run(env, m, Removals(chains)).store
    decreases chains
  {
    if chains != [] {
      var m1 := Tick(env, m, Flush(chains[0]));
      var m2 := Tick(env, m1, DeleteChain(chains[0]));
      RunRemovalsHead(env, m, chains);
      assert !Referenced(m1.store, chains[0]);
      assert chains[0] !in m2.store;
      assert forall c :: c in chains ==> !Referenced(m2.store, c);
      RemovalsRemove(env, m2, chains[1..]);
      RemovalsFrame(env, m2, chains[1..]);
    }
  }

  // ----- whole cleanups -----

  lemma {:induction false} RunCleanerHead(env: Env, m: Machine, cl: seq<Phase>)
    requires cl != []
    ensures var m1 := Run(env, m, cl[0].deletes);
            var m2 := Run(env, m1, Removals(cl[0].chains));
            Run(env, m, CleanerProgram(cl)) == Run(env, m2, CleanerProgram(cl[1..]))
  {
    RunConcat(env, m, PhaseProgram(cl[0]), CleanerProgram(cl[1..]));
    RunConcat(env, m, cl[0].deletes, Removals(cl[0].chains));
  }

  /** A fault-free cleanup takes out exactly as many copies as it has deletions for. */
  lemma {:induction false} CleanerCount(env: Env, m: Machine, cl: seq<Phase>, id: ChainId, r: Rule)
    requires FaultFree(env) && Deletions(cl)
    requires forall i :: 0 <= i < |cl| ==> id !in cl[i].chains
    ensures var s := Run(env, m, CleanerProgram(cl)).store;
            && Count(s, id, r) == Minus(Count(m.store, id, r), AllDeletes(cl, id, r))
            && s.Keys <= m.store.Keys
    decreases cl
  {
    if cl != [] {
      var m1 := Run(env, m, cl[0].deletes);
      var m2 := Run(env, m1, Removals(cl[0].chains));
      RunCleanerHead(env, m, cl);
      RunDeletes(env, m, cl[0].deletes, id, r);
      RemovalsFrame(env, m1, cl[0].chains);
      CleanerCount(env, m2, cl[1..], id, r);
    }
  }

  /** Each phase has a deletion for every hook that leads into the chains it removes. */
  ghost predicate Fits(fp: Footprint, cl: seq<Phase>, s: Store)
    requires Deletions(cl)
  {
    forall i, id, r :: 0 <= i < |cl| && (id, r) in fp.rules && r.target.Jump?
      && ChainId(id.family, id.table, r.target.chain) in cl[i].chains
      ==> Count(s, id, r) <= Deletes(cl[i].deletes, id, r)
  }

  /** The deletions of a phase that fits leave no reference to the chains it removes. */
  lemma {:induction false} PhaseUnreferences(env: Env, fp: Footprint, m: Machine, ph: Phase)
    requires FaultFree(env) && DeletesOnly(ph.deletes)
    requires Shape(fp, Run(env, m, ph.deletes).store)
    requires forall c :: c in ph.chains ==> c in fp.chains
    requires Fits(fp, [ph], m.store)
    ensures forall c :: c in ph.chains ==> !Referenced(Run(env, m, ph.deletes).store, c)
  {
    var s1 := Run(env, m, ph.deletes).store;
    assert [ph][0] == ph;
    forall c | c in ph.chains ensures !Referenced(s1, c) {
      if Referenced(s1, c) {
        var at :| at in s1 && exists r :: r in s1[at] && JumpsTo(at, r, c);
        var r :| r in s1[at] && JumpsTo(at, r, c);
        assert IntoOwned(fp, at, r);
        RunDeletes(env, m, ph.deletes, at, r);
      }
    }
  }

  /** What one phase that fits does, and that the later phases still fit. */
  lemma {:induction false} PhaseRemoves(env: Env, fp: Footprint, m: Machine, cl: seq<Phase>)
    requires FaultFree(env) && Deletions(cl) && cl != []
    requires Shape(fp, m.store)
    requires ProgramAll(c => Within(fp, c), PhaseProgram(cl[0]))
    requires forall c :: c in cl[0].chains ==> c in fp.chains
    requires Fits(fp, cl, m.store)
    requires forall id, r :: (id, r) in fp.rules ==> id !in fp.chains
    ensures var m1 := Run(env, m, cl[0].deletes);
            var m2 := Run(env, m1, Removals(cl[0].chains));
            && Shape(fp, m2.store) && Fits(fp, cl[1..], m2.store)
            && m2.store.Keys <= m.store.Keys
            && forall c :: c in cl[0].chains ==> c !in m2.store
  {
    var ph := cl[0];
    var m1 := Run(env, m, ph.deletes);
    var m2 := Run(env, m1, Removals(ph.chains));
    ProgramAllSplit(c => Within(fp, c), ph.deletes, Removals(ph.chains));
    RunKeepsForeign(env, fp, m, ph.deletes);
    RunKeepsForeign(env, fp, m1, Removals(ph.chains));
    assert [ph][0] == ph;
    PhaseUnreferences(env, fp, m, ph);
    RemovalsRemove(env, m1, ph.chains);
    RemovalsFrame(env, m1, ph.chains);
    RunDeletesKeys(env, m, ph.deletes);
    forall i, id, r | 0 <= i < |cl[1..]| && (id, r) in fp.rules && r.target.Jump?
                      && ChainId(id.family, id.table, r.target.chain) in cl[1..][i].chains
      ensures Count(m2.store, id, r) <= Deletes(cl[1..][i].deletes, id, r)
    {
      assert cl[1..][i] == cl[i + 1];
      RunDeletes(env, m, ph.deletes, id, r);
    }
  }

  lemma {:induction false} CleanerRemoves(env: Env, fp: Footprint, m: Machine, cl: seq<Phase>)
    requires FaultFree(env) && Deletions(cl)
    requires Shape(fp, m.store)
    requires ProgramAll(c => Within(fp, c), CleanerProgram(cl))
    requires forall i, c :: 0 <= i < |cl| && c in cl[i].chains ==> c in fp.chains
    requires forall id, r :: (id, r) in fp.rules ==> id !in fp.chains
    requires Fits(fp, cl, m.store)
    ensures forall i, c :: 0 <= i < |cl| && c in cl[i].chains ==> c !in Run(env, m, CleanerProgram(cl)).store
    ensures Run(env, m, CleanerProgram(cl)).store.Keys <= m.store.Keys
    decreases cl
  {
    if cl != [] {
      var m1 := Run(env, m, cl[0].deletes);
      var m2 := Run(env, m1, Removals(cl[0].chains));
      RunCleanerHead(env, m, cl);
      ProgramAllSplit(c => Within(fp, c), PhaseProgram(cl[0]), CleanerProgram(cl[1..]));
      PhaseRemoves(env, fp, m, cl);
      CleanerRemoves(env, fp, m2, cl[1..]);
      forall i, c | 0 <= i < |cl| && c in cl[i].chains ensures c !in Run(env, m, CleanerProgram(cl)).store {
        if i > 0 {
          assert cl[1..][i - 1] == cl[i];
        }
      }
    }
  }

  lemma {:induction false} RunDeletesKeys(env: Env, m: Machine, p: Program)
    requires FaultFree(env) && DeletesOnly(p)
    ensures Run(env, m, p).store.Keys == m.store.Keys
  {
    var id := ChainId(V4, Nat, "");
    RunDeletes(env, m, p, id, Plain(Return));
  }

  lemma {:induction false} ProgramAllSplit(allowed: Command -> bool, p: Program, q: Program)
    requires ProgramAll(allowed, p + q)
    ensures ProgramAll(allowed, p) && ProgramAll(allowed, q)
  {
    forall i | 0 <= i < |p| ensures StepAll(allowed, p[i]) {
      assert (p + q)[i] == p[i];
    }
    forall i | 0 <= i < |q| ensures StepAll(allowed, q[i]) {
      assert (p + q)[|p| + i] == q[i];
    }
  }

  // ----- a cleanup stays inside its own footprint -----

  lemma {:induction false} DeletesWithin(fp: Footprint, p: Program)
    requires DeletesOnly(p)
    requires forall id, r :: Deletes(p, id, r) > 0 ==> (id, r) in fp.rules && id !in fp.chains
    requires forall i :: 0 <= i < |p| && p[i].WhileOk? ==> p[i].times > 0
    ensures ProgramAll(c => Within(fp, c), p)
  {
    forall i | 0 <= i < |p| ensures StepAll(c => Within(fp, c), p[i]) {
      assert DeleteStep(p[i]);
      DeletesAt(p, i);
    }
  }

  lemma {:induction false} DeletesAt(p: Program, i: nat)
    requires DeletesOnly(p) && i < |p|
    requires p[i].WhileOk? ==> p[i].times > 0
    ensures Deletes(p, DeleteOf(p[i]).0, DeleteOf(p[i]).1) > 0
    decreases i
  {
    if i > 0 {
      DeletesAt(p[1..], i - 1);
    }
  }

  lemma {:induction false} RemovalsWithin(fp: Footprint, chains: seq<ChainId>)
    requires forall c :: c in chains ==> c in fp.chains
    ensures ProgramAll(c => Within(fp, c), Removals(chains))
  {
    if chains != [] {
      RemovalsWithin(fp, chains[1..]);
      var two := [Best(Flush(chains[0])), Best(DeleteChain(chains[0]))];
      assert ProgramAll(c => Within(fp, c), two);
      ProgramAllConcat(c => Within(fp, c), two, Removals(chains[1..]));
    }
  }

  /** The deletions of every phase lie in the footprint and repeat at least once. */
  ghost predicate CleanerInside(fp: Footprint, cl: seq<Phase>)
    requires Deletions(cl)
  {
    && (forall i, c :: 0 <= i < |cl| && c in cl[i].chains ==> c in fp.chains)
    && (forall i, id, r :: 0 <= i < |cl| && Deletes(cl[i].deletes, id, r) > 0 ==> (id, r) in fp.rules && id !in fp.chains)
    && (forall i, j :: 0 <= i < |cl| && 0 <= j < |cl[i].deletes| && cl[i].deletes[j].WhileOk? ==> cl[i].deletes[j].times > 0)
  }

  lemma {:induction false} CleanerWithin(fp: Footprint, cl: seq<Phase>)
    requires Deletions(cl) && CleanerInside(fp, cl)
    ensures ProgramAll(c => Within(fp, c), CleanerProgram(cl))
    decreases cl
  {
    if cl != [] {
      DeletesWithin(fp, cl[0].deletes);
      RemovalsWithin(fp, cl[0].chains);
      ProgramAllConcat(c => Within(fp, c), cl[0].deletes, Removals(cl[0].chains));
      assert CleanerInside(fp, cl[1..]) by {
        forall i, c | 0 <= i < |cl[1..]| && c in cl[1..][i].chains ensures c in fp.chains { assert cl[1..][i] == cl[i + 1]; }
        forall i, id, r | 0 <= i < |cl[1..]| && Deletes(cl[1..][i].deletes, id, r) > 0
          ensures (id, r) in fp.rules && id !in fp.chains { assert cl[1..][i] == cl[i + 1]; }
        forall i, j | 0 <= i < |cl[1..]| && 0 <= j < |cl[1..][i].deletes| && cl[1..][i].deletes[j].WhileOk?
          ensures cl[1..][i].deletes[j].times > 0 { assert cl[1..][i] == cl[i + 1]; }
      }
      CleanerWithin(fp, cl[1..]);
      ProgramAllConcat(c => Within(fp, c), PhaseProgram(cl[0]), CleanerProgram(cl[1..]));
    }
  }

  lemma {:induction false} AllDeletesAtLeast(cl: seq<Phase>, i: nat, id: ChainId, r: Rule)
    requires Deletions(cl) && i < |cl|
    ensures AllDeletes(cl, id, r) >= Deletes(cl[i].deletes, id, r)
    decreases i
  {
    if i > 0 {
      AllDeletesAtLeast(cl[1..], i - 1, id, r);
    }
  }

  lemma {:induction false} OwnerInside(fp: Footprint, cl: seq<Phase>)
    requires OwnerOf(fp, cl)
    requires forall i, j :: 0 <= i < |cl| && 0 <= j < |cl[i].deletes| && cl[i].deletes[j].WhileOk? ==> cl[i].deletes[j].times > 0
    ensures CleanerInside(fp, cl)
  {
    forall i, id, r | 0 <= i < |cl| && Deletes(cl[i].deletes, id, r) > 0
      ensures (id, r) in fp.rules && id !in fp.chains
    {
      AllDeletesAtLeast(cl, i, id, r);
    }
  }

  // ----- the exact condition -----

  /** No owned rule has more copies than the cleanup has deletions for it. */
  ghost predicate Bounded(fp: Footprint, cl: seq<Phase>, s: Store)
    requires Deletions(cl)
  {
    forall id, r :: (id, r) in fp.rules ==> Count(s, id, r) <= AllDeletes(cl, id, r)
  }

  /**
   A fault-free cleanup leaves exactly the foreign part if and only if no owned
   rule has more copies than the cleanup has deletions for.
   */
  lemma {:induction false} CleanerExact(env: Env, fp: Footprint, m: Machine, cl: seq<Phase>)
    requires FaultFree(env) && OwnerOf(fp, cl) && CleanerInside(fp, cl)
    requires Shape(fp, m.store)
    requires Bounded(fp, cl, m.store) ==> Fits(fp, cl, m.store)
    ensures Run(env, m, CleanerProgram(cl)).store == Foreign(fp, m.store) <==> Bounded(fp, cl, m.store)
  {
    var s' := Run(env, m, CleanerProgram(cl)).store;
    CleanerWithin(fp, cl);
    RunKeepsForeign(env, fp, m, CleanerProgram(cl));
    forall id, r | (id, r) in fp.rules
      ensures Count(s', id, r) == Minus(Count(m.store, id, r), AllDeletes(cl, id, r))
    {
      CleanerCount(env, m, cl, id, r);
    }
    if Bounded(fp, cl, m.store) {
      CleanerRemoves(env, fp, m, cl);
      forall id, r | id in s' && r in s'[id] ensures (id, r) !in fp.rules {
      }
      NothingOwned(fp, s');
    } else {
      var id, r :| (id, r) in fp.rules && Count(m.store, id, r) > AllDeletes(cl, id, r);
      assert Count(s', id, r) > 0;
      assert r in s'[id];
      if id in Foreign(fp, m.store) {
        KeepMembers(fp, id, m.store[id], r);
      }
    }
  }
}

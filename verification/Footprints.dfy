/**
 What a cleanup program owns, and the laws of running it: the foreign part of
 the store that owned commands never change, how many copies of a rule a run
 can add or remove, and when a cleanup leaves exactly the foreign part.
 */
module Footprints {
  import opened Netfilter

  /** The chains and the (chain, rule) pairs that belong to the daemon. */
  datatype Footprint = Footprint(chains: set<ChainId>, rules: set<(ChainId, Rule)>)

  /** The rules of a chain that are not owned, in their order. */
  function Keep(fp: Footprint, id: ChainId, rules: seq<Rule>): seq<Rule> {
    if rules == [] then []
    else if (id, rules[0]) in fp.rules then Keep(fp, id, rules[1..])
    else [rules[0]] + Keep(fp, id, rules[1..])
  }

  /** The store with everything owned taken out. */
  function Foreign(fp: Footprint, s: Store): Store {
    map id | id in s && id !in fp.chains :: Keep(fp, id, s[id])
  }

  ghost predicate IntoOwned(fp: Footprint, id: ChainId, r: Rule) {
    r.target.Jump? && ChainId(id.family, id.table, r.target.chain) in fp.chains
  }

  /** Every jump into an owned chain is an owned rule of a chain that is not owned. */
  ghost predicate Shape(fp: Footprint, s: Store) {
    forall id, r :: id in s && r in s[id] && IntoOwned(fp, id, r) ==> id !in fp.chains && (id, r) in fp.rules
  }

  /** Every jump has its target. */
  ghost predicate RefsClosed(s: Store) {
    forall id, r :: id in s && r in s[id] ==> TargetPresent(s, id, r)
  }

  /** A store in which nothing is owned. */
  ghost predicate Clean(fp: Footprint, s: Store) {
    && RefsClosed(s)
    && (forall c :: c in fp.chains ==> c !in s)
    && (forall id, r :: id in s && r in s[id] ==> (id, r) !in fp.rules)
  }

  /** The commands that stay inside the footprint. */
  ghost predicate Within(fp: Footprint, c: Command) {
    match c
    case New(id) => id in fp.chains
    case Flush(id) => id in fp.chains
    case DeleteChain(id) => id in fp.chains
    case Append(id, r) => WithinAdd(fp, id, r)
    case Insert(id, r) => WithinAdd(fp, id, r)
    case Delete(id, r) => id !in fp.chains && (id, r) in fp.rules
    case Check(_, _) => true
    case List(_) => true
  }

  ghost predicate WithinAdd(fp: Footprint, id: ChainId, r: Rule) {
    if id in fp.chains then !IntoOwned(fp, id, r) else (id, r) in fp.rules
  }

  // ----- lists of rules -----

  lemma {:induction false} KeepConcat(fp: Footprint, id: ChainId, a: seq<Rule>, b: seq<Rule>)
    ensures Keep(fp, id, a + b) == Keep(fp, id, a) + Keep(fp, id, b)
  {
    if a == [] {
      assert a + b == b;
    } else {
      assert (a + b)[0] == a[0] && (a + b)[1..] == a[1..] + b;
      KeepConcat(fp, id, a[1..], b);
    }
  }

  lemma {:induction false} KeepRemoveFirst(fp: Footprint, id: ChainId, rules: seq<Rule>, r: Rule)
    requires (id, r) in fp.rules
    ensures Keep(fp, id, RemoveFirst(rules, r)) == Keep(fp, id, rules)
  {
    if rules != [] && rules[0] != r {
      KeepRemoveFirst(fp, id, rules[1..], r);
      assert ([rules[0]] + RemoveFirst(rules[1..], r))[1..] == RemoveFirst(rules[1..], r);
    }
  }

  lemma {:induction false} KeepAll(fp: Footprint, id: ChainId, rules: seq<Rule>)
    requires forall r :: r in rules ==> (id, r) !in fp.rules
    ensures Keep(fp, id, rules) == rules
  {
    if rules != [] {
      KeepAll(fp, id, rules[1..]);
    }
  }

  lemma {:induction false} KeepMembers(fp: Footprint, id: ChainId, rules: seq<Rule>, r: Rule)
    ensures r in Keep(fp, id, rules) <==> r in rules && (id, r) !in fp.rules
  {
    if rules != [] {
      KeepMembers(fp, id, rules[1..], r);
    }
  }

  lemma {:induction false} RemoveFirstMultiset(rules: seq<Rule>, r: Rule)
    ensures multiset(RemoveFirst(rules, r)) == multiset(rules) - multiset{r}
    ensures forall x :: x in RemoveFirst(rules, r) ==> x in rules
  {
    if rules != [] {
      assert rules == [rules[0]] + rules[1..];
      if rules[0] != r {
        RemoveFirstMultiset(rules[1..], r);
      }
    }
  }

  /** With at most one copy there, removing the first one filters the rule out. */
  lemma {:induction false} RemoveFirstIsKeep(fp: Footprint, id: ChainId, rules: seq<Rule>, r: Rule)
    requires multiset(rules)[r] <= 1
    requires forall x :: x in rules ==> ((id, x) in fp.rules <==> x == r)
    ensures RemoveFirst(rules, r) == Keep(fp, id, rules)
  {
    if rules != [] {
      assert rules == [rules[0]] + rules[1..];
      if rules[0] == r {
        assert r !in multiset(rules[1..]);
        KeepAll(fp, id, rules[1..]);
      } else {
        RemoveFirstIsKeep(fp, id, rules[1..], r);
      }
    }
  }

  // ----- the foreign part never changes -----

  lemma {:induction false} KeepAdded(fp: Footprint, id: ChainId, rules: seq<Rule>, r: Rule)
    requires (id, r) in fp.rules
    ensures Keep(fp, id, rules + [r]) == Keep(fp, id, rules) == Keep(fp, id, [r] + rules)
  {
    KeepConcat(fp, id, rules, [r]);
    assert ([r] + rules)[1..] == rules;
  }

  /** No accepted command inside the footprint changes the foreign part or breaks the shape. */
  lemma {:induction false} WithinKeeps(k: Kernel, fp: Footprint, s: Store, c: Command)
    requires Within(fp, c) && Shape(fp, s) && Refusal(k, s, c).None?
    ensures Foreign(fp, Effect(k, s, c)) == Foreign(fp, s)
    ensures Shape(fp, Effect(k, s, c))
  {
    match c {
      case New(id) =>
      case Flush(id) =>
      case DeleteChain(id) =>
      case Append(id, r) => if id !in fp.chains { KeepAdded(fp, id, s[id], r); }
      case Insert(id, r) => if id !in fp.chains { KeepAdded(fp, id, s[id], r); }
      case Delete(id, r) =>
        KeepRemoveFirst(fp, id, s[id], r);
        RemoveFirstMultiset(s[id], r);
      case Check(_, _) =>
      case List(_) =>
    }
  }

  /** Whatever fails, a run inside the footprint keeps the foreign part and the shape. */
  lemma {:induction false} RunKeepsForeign(env: Env, fp: Footprint, m: Machine, p: Program)
    requires ProgramAll(c => Within(fp, c), p)
    requires Shape(fp, m.store)
    ensures Foreign(fp, Run(env, m, p).store) == Foreign(fp, m.store)
    ensures Shape(fp, Run(env, m, p).store)
  {
    var inv := (s: Store) => Shape(fp, s) && Foreign(fp, s) == Foreign(fp, m.store);
    var allowed := (c: Command) => Within(fp, c);
    forall s, c | inv(s) && allowed(c) && Refusal(env.kernel, s, c).None?
      ensures inv(Effect(env.kernel, s, c))
    {
      WithinKeeps(env.kernel, fp, s, c);
    }
    RunInvariant(env, m, p, inv, allowed);
  }

  lemma {:induction false} CleanIsForeign(fp: Footprint, s: Store)
    requires Clean(fp, s)
    ensures Foreign(fp, s) == s
    ensures Shape(fp, s)
  {
    forall id | id in s ensures Keep(fp, id, s[id]) == s[id] {
      KeepAll(fp, id, s[id]);
    }
    forall id, r | id in s && r in s[id] ensures !IntoOwned(fp, id, r) {
      assert TargetPresent(s, id, r);
    }
  }

  /** The foreign part is the whole store exactly when nothing owned is left. */
  lemma {:induction false} NothingOwned(fp: Footprint, s: Store)
    requires forall c :: c in fp.chains ==> c !in s
    requires forall id, r :: id in s && r in s[id] ==> (id, r) !in fp.rules
    ensures Foreign(fp, s) == s
  {
    forall id | id in s ensures Keep(fp, id, s[id]) == s[id] {
      KeepAll(fp, id, s[id]);
    }
  }

  // ----- counting copies of a rule -----

  function Count(s: Store, id: ChainId, r: Rule): nat {
    if id in s then multiset(s[id])[r] else 0
  }

  function CommandAdds(c: Command, id: ChainId, r: Rule): nat {
    if c == Append(id, r) || c == Insert(id, r) then 1 else 0
  }

  function CommandsAdd(cs: seq<Command>, id: ChainId, r: Rule): nat {
    if cs == [] then 0 else CommandAdds(cs[0], id, r) + CommandsAdd(cs[1..], id, r)
  }

  function StepAdds(step: Step, id: ChainId, r: Rule): nat {
    match step
    case Must(c) => CommandAdds(c, id, r)
    case FirstOk(cs) => CommandsAdd(cs, id, r)
    case WhileOk(c, n) => if CommandAdds(c, id, r) == 1 then n else 0
  }

  /** How many copies of the rule the program can add at most. */
  function Adds(p: Program, id: ChainId, r: Rule): nat {
    if p == [] then 0 else StepAdds(p[0], id, r) + Adds(p[1..], id, r)
  }

  lemma {:induction false} AddsConcat(p: Program, q: Program, id: ChainId, r: Rule)
    ensures Adds(p + q, id, r) == Adds(p, id, r) + Adds(q, id, r)
  {
    if p == [] {
      assert p + q == q;
    } else {
      assert (p + q)[0] == p[0] && (p + q)[1..] == p[1..] + q;
      AddsConcat(p[1..], q, id, r);
    }
  }

  lemma {:induction false} TickCount(env: Env, m: Machine, c: Command, id: ChainId, r: Rule)
    ensures Count(Tick(env, m, c).store, id, r) <= Count(m.store, id, r) + CommandAdds(c, id, r)
  {
    if Outcome(env, m, c).None? && c.Delete? {
      RemoveFirstMultiset(m.store[c.id], c.rule);
    }
  }

  lemma {:induction false} FirstOkCount(env: Env, m: Machine, cs: seq<Command>, id: ChainId, r: Rule)
    ensures Count(RunFirstOk(env, m, cs).store, id, r) <= Count(m.store, id, r) + CommandsAdd(cs, id, r)
    decreases cs
  {
    if cs != [] {
      TickCount(env, m, cs[0], id, r);
      if Outcome(env, m, cs[0]).Some? {
        FirstOkCount(env, Tick(env, m, cs[0]), cs[1..], id, r);
      }
    }
  }

  lemma {:induction false} CopiesAdded(n: nat, a: nat)
    requires n != 0
    ensures n * a == (n - 1) * a + a >= a
  {
  }

  lemma {:induction false} WhileOkCount(env: Env, m: Machine, c: Command, n: nat, id: ChainId, r: Rule)
    ensures Count(RunWhileOk(env, m, c, n).store, id, r) <= Count(m.store, id, r) + n * CommandAdds(c, id, r)
    decreases n
  {
    if n != 0 {
      TickCount(env, m, c, id, r);
      if Outcome(env, m, c).None? {
        WhileOkCount(env, Tick(env, m, c), c, n - 1, id, r);
        CopiesAdded(n, CommandAdds(c, id, r));
      }
    }
  }

  /** Whatever fails, a run leaves at most the copies it found plus those it can add. */
  lemma {:induction false} RunCount(env: Env, m: Machine, p: Program, id: ChainId, r: Rule)
    ensures Count(Run(env, m, p).store, id, r) <= Count(m.store, id, r) + Adds(p, id, r)
    decreases p
  {
    if p != [] {
      match p[0] {
        case Must(c) => TickCount(env, m, c, id, r);
        case FirstOk(cs) => FirstOkCount(env, m, cs, id, r);
        case WhileOk(c, n) => WhileOkCount(env, m, c, n, id, r);
      }
      RunCount(env, RunStep(env, m, p[0]), p[1..], id, r);
    }
  }

  // ----- cleanup programs -----

  /** Delete rules first, then flush and remove each chain in turn. */
  datatype Phase = Phase(deletes: Program, chains: seq<ChainId>)

  function Removals(chains: seq<ChainId>): Program {
    if chains == [] then []
    else [Best(Flush(chains[0])), Best(DeleteChain(chains[0]))] + Removals(chains[1..])
  }

  function PhaseProgram(ph: Phase): Program {
    ph.deletes + Removals(ph.chains)
  }

  function CleanerProgram(cl: seq<Phase>): Program {
    if cl == [] then [] else PhaseProgram(cl[0]) + CleanerProgram(cl[1..])
  }

  predicate DeleteStep(step: Step) {
    match step
    case Must(_) => false
    case FirstOk(cs) => |cs| == 1 && cs[0].Delete?
    case WhileOk(c, _) => c.Delete?
  }

  function DeleteOf(step: Step): (ChainId, Rule)
    requires DeleteStep(step)
  {
    if step.FirstOk? then (step.cmds[0].id, step.cmds[0].rule) else (step.cmd.id, step.cmd.rule)
  }

  predicate DeletesOnly(p: Program) {
    forall i :: 0 <= i < |p| ==> DeleteStep(p[i])
  }

  function StepDeletes(step: Step, id: ChainId, r: Rule): nat
    requires DeleteStep(step)
  {
    if DeleteOf(step) != (id, r) then 0 else if step.FirstOk? then 1 else step.times
  }

  /** How many copies of the rule the deletions can take out. */
  function Deletes(p: Program, id: ChainId, r: Rule): nat
    requires DeletesOnly(p)
  {
    if p == [] then 0 else StepDeletes(p[0], id, r) + Deletes(p[1..], id, r)
  }

  lemma {:induction false} DeletesConcat(p: Program, q: Program, id: ChainId, r: Rule)
    requires DeletesOnly(p) && DeletesOnly(q)
    ensures DeletesOnly(p + q)
    ensures Deletes(p + q, id, r) == Deletes(p, id, r) + Deletes(q, id, r)
  {
    if p == [] {
      assert p + q == q;
    } else {
      assert (p + q)[0] == p[0] && (p + q)[1..] == p[1..] + q;
      DeletesConcat(p[1..], q, id, r);
    }
  }

  ghost predicate Deletions(cl: seq<Phase>) {
    forall i :: 0 <= i < |cl| ==> DeletesOnly(cl[i].deletes)
  }

  function AllDeletes(cl: seq<Phase>, id: ChainId, r: Rule): nat
    requires forall i :: 0 <= i < |cl| ==> DeletesOnly(cl[i].deletes)
  {
    if cl == [] then 0 else Deletes(cl[0].deletes, id, r) + AllDeletes(cl[1..], id, r)
  }

  /** The footprint of a cleanup: what it deletes and the chains it removes. */
  ghost predicate OwnerOf(fp: Footprint, cl: seq<Phase>) {
    && Deletions(cl)
    && (forall c :: c in fp.chains <==> exists i :: 0 <= i < |cl| && c in cl[i].chains)
    && (forall id, r :: (id, r) in fp.rules <==> AllDeletes(cl, id, r) > 0)
    && (forall id, r :: (id, r) in fp.rules ==> id !in fp.chains)
  }
}

/**
 The rule tables of the kernel packet filter, the iptables commands that edit
 them, and the small command programs the daemon runs.

 A command either edits the store or is refused and leaves it alone. A fault
 oracle can fail any command at any point of a run, so "stop after some
 prefix" is the special case where every later command is failed.
 */
module Netfilter {
  import opened Common

  datatype Family = V4 | V6
  datatype Table = Nat | Filter | OtherTable(name: string)
  datatype ChainId = ChainId(family: Family, table: Table, name: string)

  datatype Proto = Tcp | Udp | OtherProto(number: nat)

  /** Destination match: the top `bits` bits of a 32-bit address. */
  datatype Cidr = Cidr(base: nat, bits: nat)

  datatype Target =
    | Jump(chain: string)
    | Return
    | Accept
    | Drop
    | Reject(how: string)
    | Redirect(port: int)
    | Dnat(addr: nat, toPort: int)
    | OtherVerdict(text: string)   // any other target that decides the packet
    | NoVerdict(text: string)      // LOG, MARK and the like: evaluation goes on

  /** `other` stands for every further match option, kept as text. */
  datatype Rule = Rule(
    proto: Option<Proto>,
    dst: Option<Cidr>,
    dport: Option<int>,
    uid: Option<nat>,
    inIface: Option<string>,
    outIface: Option<string>,
    other: Option<string>,
    target: Target)

  type Store = map<ChainId, seq<Rule>>

  /** A rule that matches every packet. */
  function Plain(t: Target): Rule {
    Rule(None, None, None, None, None, None, None, t)
  }

  // ----- commands -----

  datatype Command =
    | New(id: ChainId)                  // -N
    | Flush(id: ChainId)                // -F
    | DeleteChain(id: ChainId)          // -X
    | Append(id: ChainId, rule: Rule)   // -A
    | Insert(id: ChainId, rule: Rule)   // -I at position 1
    | Delete(id: ChainId, rule: Rule)   // -D
    | Check(id: ChainId, rule: Rule)    // -C
    | List(id: ChainId)                 // -L

  /** The kinds of error text that matter: the first three are the texts Apply swallows. */
  datatype Error =
    | ChainExists       // "Chain already exists"
    | NoSuchChain       // "No chain/target/match by that name"
    | NoSuchRule        // "does a matching rule exist in that chain?"
    | NotEmpty
    | InUse
    | NoTarget
    | BadSpec
    | OtherError(text: string)

  /** Whether the kernel has the REJECT target, per family. */
  datatype Kernel = Kernel(reject4: bool, reject6: bool)

  predicate ValidPort(p: int) {
    0 <= p <= 65535
  }

  predicate ValidRule(k: Kernel, f: Family, r: Rule) {
    && (r.dport.Some? ==> ValidPort(r.dport.value))
    && (r.target.Redirect? ==> ValidPort(r.target.port))
    && (r.target.Dnat? ==> ValidPort(r.target.toPort))
    && (r.target.Reject? ==> if f == V4 then k.reject4 else k.reject6)
  }

  /** Rule `r`, standing in chain `at`, jumps to chain `to`. */
  predicate JumpsTo(at: ChainId, r: Rule, to: ChainId) {
    r.target.Jump? && ChainId(at.family, at.table, r.target.chain) == to
  }

  predicate Referenced(s: Store, id: ChainId) {
    exists at :: at in s && exists r :: r in s[at] && JumpsTo(at, r, id)
  }

  predicate TargetPresent(s: Store, at: ChainId, r: Rule) {
    r.target.Jump? ==> ChainId(at.family, at.table, r.target.chain) in s
  }

  /** Why the kernel refuses the command in this store, if it does. */
  function Refusal(k: Kernel, s: Store, c: Command): Option<Error> {
    match c
    case New(id) => if id in s then Some(ChainExists) else None
    case Flush(id) => if id in s then None else Some(NoSuchChain)
    case DeleteChain(id) =>
      if id !in s then Some(NoSuchChain)
      else if s[id] != [] then Some(NotEmpty)
      else if Referenced(s, id) then Some(InUse)
      else None
    case Append(id, r) => AddRefusal(k, s, id, r)
    case Insert(id, r) => AddRefusal(k, s, id, r)
    case Delete(id, r) => if id in s && r in s[id] then None else Some(NoSuchRule)
    case Check(id, r) => if id in s && r in s[id] then None else Some(NoSuchRule)
    case List(id) => if id in s then None else Some(NoSuchChain)
  }

  function AddRefusal(k: Kernel, s: Store, id: ChainId, r: Rule): Option<Error> {
    if id !in s then Some(NoSuchChain)
    else if !TargetPresent(s, id, r) then Some(NoTarget)
    else if !ValidRule(k, id.family, r) then Some(BadSpec)
    else None
  }

  /** -D removes the first equal rule only. */
  function RemoveFirst(rules: seq<Rule>, r: Rule): seq<Rule> {
    if rules == [] then []
    else if rules[0] == r then rules[1..]
    else [rules[0]] + RemoveFirst(rules[1..], r)
  }

  /** What an accepted command does. */
  function Effect(k: Kernel, s: Store, c: Command): Store
    requires Refusal(k, s, c).None?
  {
    match c
    case New(id) => s[id := []]
    case Flush(id) => s[id := []]
    case DeleteChain(id) => s - {id}
    case Append(id, r) => s[id := s[id] + [r]]
    case Insert(id, r) => s[id := [r] + s[id]]
    case Delete(id, r) => s[id := RemoveFirst(s[id], r)]
    case Check(_, _) => s
    case List(_) => s
  }

  // ----- programs -----

  /** One step of a command program. */
  datatype Step =
    | Must(cmd: Command)                    // an error is recorded, the run goes on
    | FirstOk(cmds: seq<Command>)           // try in order until one succeeds
    | WhileOk(cmd: Command, times: nat)     // repeat, stop at the first failure

  type Program = seq<Step>

  function Best(c: Command): Step {
    FirstOk([c])
  }

  /** `faults(n)` fails the n-th command of a run with the given error. */
  datatype Env = Env(kernel: Kernel, faults: nat -> Option<Error>)

  datatype Machine = Machine(store: Store, clock: nat, errs: seq<Error>)

  ghost predicate FaultFree(env: Env) {
    forall n: nat :: env.faults(n).None?
  }

  function Outcome(env: Env, m: Machine, c: Command): Option<Error> {
    if env.faults(m.clock).Some? then env.faults(m.clock) else Refusal(env.kernel, m.store, c)
  }

  function Tick(env: Env, m: Machine, c: Command): Machine {
    Machine(if Outcome(env, m, c).None? then Effect(env.kernel, m.store, c) else m.store,
            m.clock + 1, m.errs)
  }

  function RunFirstOk(env: Env, m: Machine, cs: seq<Command>): Machine
    decreases cs
  {
    if cs == [] then m
    else if Outcome(env, m, cs[0]).None? then Tick(env, m, cs[0])
    else RunFirstOk(env, Tick(env, m, cs[0]), cs[1..])
  }

  function RunWhileOk(env: Env, m: Machine, c: Command, n: nat): Machine
    decreases n
  {
    if n == 0 then m
    else if Outcome(env, m, c).None? then RunWhileOk(env, Tick(env, m, c), c, n - 1)
    else Tick(env, m, c)
  }

  function RunStep(env: Env, m: Machine, step: Step): Machine {
    match step
    case Must(c) =>
      var e := Outcome(env, m, c);
      var m' := Tick(env, m, c);
      if e.Some? then m'.(errs := m'.errs + [e.value]) else m'
    case FirstOk(cs) => RunFirstOk(env, m, cs)
    case WhileOk(c, n) => RunWhileOk(env, m, c, n)
  }

  function Run(env: Env, m: Machine, p: Program): Machine
    decreases p
  {
    if p == [] then m else Run(env, RunStep(env, m, p[0]), p[1..])
  }

  lemma {:induction false} RunConcat(env: Env, m: Machine, p: Program, q: Program)
    ensures Run(env, m, p + q) == Run(env, Run(env, m, p), q)
    decreases p
  {
    if p == [] {
      assert p + q == q;
    } else {
      assert (p + q)[0] == p[0] && (p + q)[1..] == p[1..] + q;
      RunConcat(env, RunStep(env, m, p[0]), p[1..], q);
    }
  }

  // ----- what a program can touch -----

  ghost predicate StepAll(allowed: Command -> bool, step: Step) {
    match step
    case Must(c) => allowed(c)
    case FirstOk(cs) => forall i :: 0 <= i < |cs| ==> allowed(cs[i])
    case WhileOk(c, _) => allowed(c)
  }

  ghost predicate ProgramAll(allowed: Command -> bool, p: Program) {
    forall i :: 0 <= i < |p| ==> StepAll(allowed, p[i])
  }

  ghost predicate Inductive(k: Kernel, inv: Store -> bool, allowed: Command -> bool) {
    forall s, c :: inv(s) && allowed(c) && Refusal(k, s, c).None? ==> inv(Effect(k, s, c))
  }

  /** An invariant of the allowed commands survives every run of them, whatever fails. */
  lemma {:induction false} RunInvariant(env: Env, m: Machine, p: Program, inv: Store -> bool, allowed: Command -> bool)
    requires Inductive(env.kernel, inv, allowed)
    requires ProgramAll(allowed, p)
    requires inv(m.store)
    ensures inv(Run(env, m, p).store)
    decreases p
  {
    if p != [] {
      assert StepAll(allowed, p[0]);
      match p[0] {
        case Must(c) => TickInvariant(env, m, c, inv, allowed);
        case FirstOk(cs) => FirstOkInvariant(env, m, cs, inv, allowed);
        case WhileOk(c, n) => WhileOkInvariant(env, m, c, n, inv, allowed);
      }
      RunInvariant(env, RunStep(env, m, p[0]), p[1..], inv, allowed);
    }
  }

  lemma {:induction false} TickInvariant(env: Env, m: Machine, c: Command, inv: Store -> bool, allowed: Command -> bool)
    requires Inductive(env.kernel, inv, allowed)
    requires allowed(c) && inv(m.store)
    ensures inv(Tick(env, m, c).store)
  {
    if Outcome(env, m, c).None? {
      assert Refusal(env.kernel, m.store, c).None?;
    }
  }

  lemma {:induction false} FirstOkInvariant(env: Env, m: Machine, cs: seq<Command>, inv: Store -> bool, allowed: Command -> bool)
    requires Inductive(env.kernel, inv, allowed)
    requires forall i :: 0 <= i < |cs| ==> allowed(cs[i])
    requires inv(m.store)
    ensures inv(RunFirstOk(env, m, cs).store)
    decreases cs
  {
    if cs != [] {
      TickInvariant(env, m, cs[0], inv, allowed);
      if Outcome(env, m, cs[0]).Some? {
        FirstOkInvariant(env, Tick(env, m, cs[0]), cs[1..], inv, allowed);
      }
    }
  }

  lemma {:induction false} WhileOkInvariant(env: Env, m: Machine, c: Command, n: nat, inv: Store -> bool, allowed: Command -> bool)
    requires Inductive(env.kernel, inv, allowed)
    requires allowed(c) && inv(m.store)
    ensures inv(RunWhileOk(env, m, c, n).store)
    decreases n
  {
    if n != 0 {
      TickInvariant(env, m, c, inv, allowed);
      if Outcome(env, m, c).None? {
        WhileOkInvariant(env, Tick(env, m, c), c, n - 1, inv, allowed);
      }
    }
  }

  lemma {:induction false} ProgramAllConcat(allowed: Command -> bool, p: Program, q: Program)
    requires ProgramAll(allowed, p) && ProgramAll(allowed, q)
    ensures ProgramAll(allowed, p + q)
  {
  }
}

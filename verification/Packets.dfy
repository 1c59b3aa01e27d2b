/**
 What the rule tables do to a packet: match, first match wins, jump and RETURN.
 */
module Packets {
  import opened Common
  import opened Netfilter
  import opened Footprints
  import opened Firewall

  /** `uid` is the owner of a locally generated packet; forwarded packets have none. */
  datatype Packet = Packet(proto: Proto, dst: nat, dport: int, uid: Option<nat>, inIface: string, outIface: string)

  predicate ValidPacket(p: Packet) {
    p.dst < 0x1_0000_0000 && 0 <= p.dport <= 65535
  }

  /** The meaning of match options the model does not interpret. */
  type Ext = (string, Packet) -> bool

  function Pow2(n: nat): (r: nat)
    ensures r > 0
  {
    if n == 0 then 1 else 2 * Pow2(n - 1)
  }

  /** The top `bits` bits agree. */
  predicate CidrHas(c: Cidr, a: nat) {
    c.bits <= 32 && a / Pow2(32 - c.bits) == c.base / Pow2(32 - c.bits)
  }

  /** A pattern ending in '+' matches every name with that prefix. */
  predicate IfaceMatches(pattern: string, name: string) {
    if |pattern| > 0 && pattern[|pattern| - 1] == '+'
    then |name| >= |pattern| - 1 && name[..|pattern| - 1] == pattern[..|pattern| - 1]
    else pattern == name
  }

  predicate Matches(ext: Ext, r: Rule, p: Packet) {
    && (r.proto.Some? ==> r.proto.value == p.proto)
    && (r.dst.Some? ==> CidrHas(r.dst.value, p.dst))
    && (r.dport.Some? ==> r.dport.value == p.dport)
    && (r.uid.Some? ==> p.uid == r.uid)
    && (r.inIface.Some? ==> IfaceMatches(r.inIface.value, p.inIface))
    && (r.outIface.Some? ==> IfaceMatches(r.outIface.value, p.outIface))
    && (r.other.Some? ==> ext(r.other.value, p))
  }

  /**
   Walk a rule list. None means the list ended or a RETURN was hit. `avail`
   holds the chains not yet entered on this path; the kernel refuses loops.
   */
  function Eval(s: Store, ext: Ext, at: ChainId, avail: set<ChainId>, rules: seq<Rule>, p: Packet): Option<Target>
    decreases avail, rules
  {
    if rules == [] then None
    else if !Matches(ext, rules[0], p) then Eval(s, ext, at, avail, rules[1..], p)
    else
      match rules[0].target
      case Return => None
      case NoVerdict(_) => Eval(s, ext, at, avail, rules[1..], p)
      case Jump(ch) =>
        var to := ChainId(at.family, at.table, ch);
        if to in avail && to in s then
          var inner := Eval(s, ext, to, avail - {to}, s[to], p);
          if inner.Some? then inner else Eval(s, ext, at, avail, rules[1..], p)
        else Eval(s, ext, at, avail, rules[1..], p)
      case v => Some(v)
  }

  /** The verdict of a chain: None means the packet falls through to the policy. */
  function Verdict(s: Store, ext: Ext, id: ChainId, p: Packet): Option<Target> {
    if id in s then Eval(s, ext, id, s.Keys - {id}, s[id], p) else None
  }

  /** iptables does not let a rule jump to a built-in chain. */
  ghost predicate NoBuiltinJumps(s: Store) {
    forall id, r :: id in s && r in s[id] && r.target.Jump? ==> ChainId(id.family, id.table, r.target.chain) !in BUILTINS
  }

  ghost predicate ListedJumps(s: Store, at: ChainId, rules: seq<Rule>) {
    forall r :: r in rules ==>
      (TargetPresent(s, at, r) && (r.target.Jump? ==> ChainId(at.family, at.table, r.target.chain) !in BUILTINS))
  }

  /** Rules of the old store mean the same in a store that only adds chains and touches built-in ones. */
  lemma {:induction false} EvalSame(s0: Store, s1: Store, ext: Ext, at: ChainId, avail0: set<ChainId>, avail1: set<ChainId>,
                                    rules: seq<Rule>, p: Packet)
    requires RefsClosed(s0) && NoBuiltinJumps(s0)
    requires forall id :: id in s0 && id !in BUILTINS ==> id in s1 && s1[id] == s0[id]
    requires forall id :: id in s0 && id !in BUILTINS ==> (id in avail0 <==> id in avail1)
    requires ListedJumps(s0, at, rules)
    ensures Eval(s1, ext, at, avail1, rules, p) == Eval(s0, ext, at, avail0, rules, p)
    decreases avail0, rules
  {
    if rules != [] {
      EvalSame(s0, s1, ext, at, avail0, avail1, rules[1..], p);
      var r := rules[0];
      assert r in rules;
      if r.target.Jump? {
        var to := ChainId(at.family, at.table, r.target.chain);
        if to in avail0 {
          assert ListedJumps(s0, to, s0[to]);
          EvalSame(s0, s1, ext, to, avail0 - {to}, avail1 - {to}, s0[to], p);
        }
      }
    }
  }

  lemma {:induction false} VerdictSame(s0: Store, s1: Store, ext: Ext, id: ChainId, p: Packet)
    requires RefsClosed(s0) && NoBuiltinJumps(s0) && id in s0 && id in BUILTINS
    requires forall c :: c in s0 && c !in BUILTINS ==> c in s1 && s1[c] == s0[c]
    ensures Eval(s1, ext, id, s1.Keys - {id}, s0[id], p) == Verdict(s0, ext, id, p)
  {
    assert ListedJumps(s0, id, s0[id]);
    EvalSame(s0, s1, ext, id, s0.Keys - {id}, s1.Keys - {id}, s0[id], p);
  }

  /** A list of RETURNs ends the chain iff one of them matches. */
  lemma {:induction false} EvalReturns(s: Store, ext: Ext, at: ChainId, avail: set<ChainId>, rets: seq<Rule>, rest: seq<Rule>, p: Packet)
    requires forall r :: r in rets ==> r.target == Return
    ensures Eval(s, ext, at, avail, rets + rest, p)
         == if exists r :: r in rets && Matches(ext, r, p) then None else Eval(s, ext, at, avail, rest, p)
  {
    if rets == [] {
      assert rets + rest == rest;
    } else {
      assert (rets + rest)[0] == rets[0] && (rets + rest)[1..] == rets[1..] + rest;
      EvalReturns(s, ext, at, avail, rets[1..], rest, p);
      if Matches(ext, rets[0], p) {
        assert rets[0] in rets;
      } else if exists r :: r in rets && Matches(ext, r, p) {
        var r :| r in rets && Matches(ext, r, p);
        assert r in rets[1..];
      }
    }
  }

  /** A rule that does not match is skipped. */
  lemma {:induction false} EvalSkip(s: Store, ext: Ext, at: ChainId, avail: set<ChainId>, r: Rule, rest: seq<Rule>, p: Packet)
    ensures !Matches(ext, r, p) ==> Eval(s, ext, at, avail, [r] + rest, p) == Eval(s, ext, at, avail, rest, p)
    ensures Matches(ext, r, p) && r.target.Jump? && ChainId(at.family, at.table, r.target.chain) in avail
            && ChainId(at.family, at.table, r.target.chain) in s ==>
      var to := ChainId(at.family, at.table, r.target.chain);
      var inner := Eval(s, ext, to, avail - {to}, s[to], p);
      Eval(s, ext, at, avail, [r] + rest, p) == (if inner.Some? then inner else Eval(s, ext, at, avail, rest, p))
    ensures Matches(ext, r, p) && !r.target.Jump? && !r.target.Return? && !r.target.NoVerdict? ==>
      Eval(s, ext, at, avail, [r] + rest, p) == Some(r.target)
  {
    assert ([r] + rest)[0] == r && ([r] + rest)[1..] == rest;
  }

  /** Rules appended after a list are reached iff the list itself decides nothing and does not RETURN. */
  predicate Ends(s: Store, ext: Ext, at: ChainId, avail: set<ChainId>, rules: seq<Rule>, p: Packet)
  {
    if rules == [] then true
    else if !Matches(ext, rules[0], p) then Ends(s, ext, at, avail, rules[1..], p)
    else
      match rules[0].target
      case Return => false
      case NoVerdict(_) => Ends(s, ext, at, avail, rules[1..], p)
      case Jump(ch) =>
        var to := ChainId(at.family, at.table, ch);
        (to in avail && to in s ==> Eval(s, ext, to, avail - {to}, s[to], p).None?)
        && Ends(s, ext, at, avail, rules[1..], p)
      case _ => false
  }

  lemma {:induction false} EvalAppend(s: Store, ext: Ext, at: ChainId, avail: set<ChainId>, rules: seq<Rule>, tail: seq<Rule>, p: Packet)
    ensures Eval(s, ext, at, avail, rules + tail, p)
         == if Ends(s, ext, at, avail, rules, p) then Eval(s, ext, at, avail, tail, p) else Eval(s, ext, at, avail, rules, p)
    decreases rules
  {
    if rules == [] {
      assert rules + tail == tail;
    } else {
      assert (rules + tail)[0] == rules[0] && (rules + tail)[1..] == rules[1..] + tail;
      EvalAppend(s, ext, at, avail, rules[1..], tail, p);
    }
  }
}

/**
 State changes and their subscribers: `State.set`, `Subscribe`, `broadcast` and
 the events handler, as a transition system with one step per lock region or
 channel operation.

 A setter changes the state under one lock, then broadcasts under another,
 sending to one subscriber channel at a time. Each channel buffers one token;
 a full channel drops the send. A subscriber takes a token, then reads the
 whole state. The state is its version number.
 */
module Notify {
  import opened Common

  type Id = nat

  /**
   A registered subscriber: `since` is the version at registration, `seen` the
   last version it read; `busy` tells whether a setter had changed the state but
   not yet broadcast when it registered.
   */
  datatype Sub = Sub(token: bool, took: bool, seen: nat, since: nat, busy: bool)

  /** A setter between its two lock regions, or inside broadcast at position `next`. */
  datatype Setter = Mutated | Sending(next: nat)

  datatype Hub = Hub(
    version: nat,
    order: seq<Id>,           // the subs slice
    subs: map<Id, Sub>,
    setters: map<Id, Setter>, // the setters that are not idle
    lock: Option<Id>,         // the setter that holds subsMu
    greeted: map<Id, nat>)     // the version each events client was sent before subscribing

  datatype Action =
    | Mutate(t: Id)
    | Lock(t: Id)
    | Send(t: Id)
    | Unlock(t: Id)
    | Greet(c: Id)
    | Subscribe(c: Id)
    | Take(c: Id)
    | Snapshot(c: Id)
    | Unsubscribe(c: Id)

  const INIT := Hub(0, [], map[], map[], None, map[])

  predicate Enabled(s: Hub, a: Action) {
    match a
    case Mutate(t) => t !in s.setters
    case Lock(t) => t in s.setters && s.setters[t].Mutated? && s.lock.None?
    case Send(t) => t in s.setters && s.setters[t].Sending? && s.setters[t].next < |s.order| && s.order[s.setters[t].next] in s.subs
    case Unlock(t) => t in s.setters && s.setters[t].Sending? && s.setters[t].next >= |s.order|
    case Greet(c) => c !in s.greeted && c !in s.subs
    case Subscribe(c) => c in s.greeted && c !in s.subs && s.lock.None?
    case Take(c) => c in s.subs && s.subs[c].token && !s.subs[c].took
    case Snapshot(c) => c in s.subs && s.subs[c].took
    case Unsubscribe(c) => c in s.subs && s.lock.None?
  }

  function Without<T(==)>(order: seq<T>, c: T): seq<T> {
    if order == [] then [] else if order[0] == c then order[1..] else [order[0]] + Without(order[1..], c)
  }

  function Step(s: Hub, a: Action): Hub
    requires Enabled(s, a)
  {
    match a
    case Mutate(t) => s.(version := s.version + 1, setters := s.setters[t := Mutated])
    case Lock(t) => s.(setters := s.setters[t := Sending(0)], lock := Some(t))
    case Send(t) =>
      var c := s.order[s.setters[t].next];
      s.(subs := s.subs[c := s.subs[c].(token := true)], setters := s.setters[t := Sending(s.setters[t].next + 1)])
    case Unlock(t) => s.(setters := s.setters - {t}, lock := None)
    case Greet(c) => s.(greeted := s.greeted[c := s.version])
    case Subscribe(c) =>
      s.(order := s.order + [c], subs := s.subs[c := Sub(false, false, s.greeted[c], s.version, s.setters != map[])])
    case Take(c) => s.(subs := s.subs[c := s.subs[c].(token := false, took := true)])
    case Snapshot(c) => s.(subs := s.subs[c := s.subs[c].(took := false, seen := s.version)])
    case Unsubscribe(c) => s.(order := Without(s.order, c), subs := s.subs - {c})
  }

  ghost predicate Run(s: Hub, actions: seq<Action>, s': Hub)
    decreases actions
  {
    if actions == [] then s == s'
    else Enabled(s, actions[0]) && Run(Step(s, actions[0]), actions[1..], s')
  }

  // ----- the invariant -----

  /** Some setter has yet to send to the subscriber at position `k`. */
  ghost predicate OnTheWay(s: Hub, k: nat) {
    exists t :: t in s.setters && (s.setters[t].Mutated? || s.setters[t].next <= k)
  }

  ghost predicate Informed(s: Hub, k: nat)
    requires k < |s.order| && s.order[k] in s.subs
  {
    var sub := s.subs[s.order[k]];
    sub.seen == s.version || (sub.since == s.version && !sub.busy) || sub.token || sub.took || OnTheWay(s, k)
  }

  /** The slice holds exactly the subscribers. */
  ghost predicate Listed(s: Hub) {
    forall c :: c in s.subs <==> c in s.order
  }

  /** Nothing moves for a subscriber that registered in a pause which still lasts. */
  ghost predicate Calm(s: Hub, c: Id)
    requires c in s.subs
  {
    var sub := s.subs[c];
    && c in s.greeted && s.greeted[c] <= sub.seen
    && (sub.since == s.version && !sub.busy ==> s.setters == map[] && !sub.token && !sub.took && sub.seen == s.greeted[c])
  }

  ghost predicate Inv(s: Hub) {
    && (forall i, j :: 0 <= i < j < |s.order| ==> s.order[i] != s.order[j])
    && Listed(s)
    && (forall t :: t in s.setters && s.setters[t].Sending? ==> s.lock == Some(t) && s.setters[t].next <= |s.order|)
    && (s.lock.Some? ==> s.lock.value in s.setters && s.setters[s.lock.value].Sending?)
    && (forall c :: c in s.subs ==> s.subs[c].seen <= s.version && s.subs[c].since <= s.version)
    && (forall c :: c in s.greeted ==> s.greeted[c] <= s.version)
    && (forall c :: c in s.subs ==> Calm(s, c))
    && (forall k :: 0 <= k < |s.order| ==> Informed(s, k))
  }

  /** Removing a subscriber closes up the slice. */
  lemma {:induction false} WithoutAt<T>(order: seq<T>, c: T) returns (j: nat)
    requires c in order
    ensures j < |order|
    ensures order[j] == c
    ensures Without(order, c) == order[..j] + order[j + 1..]
  {
    if order[0] == c {
      j := 0;
    } else {
      j := WithoutAt(order[1..], c);
      j := j + 1;
      assert order[..j] == [order[0]] + order[1..][..j - 1];
      assert order[1..][j..] == order[j + 1..];
    }
  }

  /** Every enabled step keeps the invariant. */
  lemma {:induction false} StepKeepsInv(s: Hub, a: Action)
    requires Inv(s) && Enabled(s, a)
    ensures Inv(Step(s, a))
  {
    match a {
      case Mutate(t) => MutateKeeps(s, t);
      case Lock(t) => LockKeeps(s, t);
      case Send(t) => SendKeeps(s, t);
      case Unlock(t) => UnlockKeeps(s, t);
      case Greet(c) => QuietKeeps(s, Step(s, a));
      case Subscribe(c) => SubscribeKeeps(s, c);
      case Take(c) => ReaderKeeps(s, a, c);
      case Snapshot(c) => ReaderKeeps(s, a, c);
      case Unsubscribe(c) => UnsubscribeKeeps(s, c);
    }
  }

  lemma {:induction false} QuietKeeps(s: Hub, s': Hub)
    requires Inv(s) && s' == s.(greeted := s'.greeted) && forall c :: c in s'.greeted ==> s'.greeted[c] <= s.version
    requires forall c :: c in s.greeted ==> c in s'.greeted && s'.greeted[c] == s.greeted[c]
    ensures Inv(s')
  {
    forall k | 0 <= k < |s'.order| ensures Informed(s', k) {
      assert Informed(s, k);
    }
  }

  lemma {:induction false} MutateKeeps(s: Hub, t: Id)
    requires Inv(s) && Enabled(s, Mutate(t))
    ensures Inv(Step(s, Mutate(t)))
  {
    var s' := Step(s, Mutate(t));
    assert t in s'.setters && s'.setters[t].Mutated?;
  }

  lemma {:induction false} LockKeeps(s: Hub, t: Id)
    requires Inv(s) && Enabled(s, Lock(t))
    ensures Inv(Step(s, Lock(t)))
  {
    var s' := Step(s, Lock(t));
    forall k | 0 <= k < |s'.order| ensures Informed(s', k) {
      assert t in s'.setters && s'.setters[t].next <= k;
    }
  }

  lemma {:induction false} SendKeeps(s: Hub, t: Id)
    requires Inv(s) && Enabled(s, Send(t))
    ensures Inv(Step(s, Send(t)))
  {
    var s' := Step(s, Send(t));
    var i := s.setters[t].next;
    forall k | 0 <= k < |s'.order| ensures Informed(s', k) {
      assert Informed(s, k);
      if k != i && OnTheWay(s, k) {
        var u :| u in s.setters && (s.setters[u].Mutated? || s.setters[u].next <= k);
        assert u in s'.setters && (s'.setters[u].Mutated? || s'.setters[u].next <= k);
      }
    }
  }

  lemma {:induction false} UnlockKeeps(s: Hub, t: Id)
    requires Inv(s) && Enabled(s, Unlock(t))
    ensures Inv(Step(s, Unlock(t)))
  {
    var s' := Step(s, Unlock(t));
    forall k | 0 <= k < |s'.order| ensures Informed(s', k) {
      assert Informed(s, k);
      if OnTheWay(s, k) {
        var u :| u in s.setters && (s.setters[u].Mutated? || s.setters[u].next <= k);
        assert u in s'.setters;
      }
    }
  }

  lemma {:induction false} SubscribeKeeps(s: Hub, c: Id)
    requires Inv(s) && Enabled(s, Subscribe(c))
    ensures Inv(Step(s, Subscribe(c)))
  {
    var s' := Step(s, Subscribe(c));
    forall k | 0 <= k < |s'.order| ensures Informed(s', k) {
      if k < |s.order| {
        assert Informed(s, k);
        assert s.order[k] != c;
        if OnTheWay(s, k) {
          assert OnTheWay(s', k);
        }
      }
    }
  }

  lemma {:induction false} ReaderKeeps(s: Hub, a: Action, c: Id)
    requires Inv(s) && Enabled(s, a) && (a == Take(c) || a == Snapshot(c))
    ensures Inv(Step(s, a))
  {
    var s' := Step(s, a);
    forall k | 0 <= k < |s'.order| ensures Informed(s', k) {
      assert Informed(s, k);
      if OnTheWay(s, k) {
        assert OnTheWay(s', k);
      }
    }
  }

  lemma {:induction false} UnsubscribeOrder(s: Hub, c: Id) returns (j: nat)
    requires Inv(s) && Enabled(s, Unsubscribe(c))
    ensures var s' := Step(s, Unsubscribe(c));
      && j < |s.order| && |s'.order| == |s.order| - 1 && Listed(s')
      && (forall a, b :: 0 <= a < b < |s'.order| ==> s'.order[a] != s'.order[b])
      && (forall k :: 0 <= k < |s'.order| ==> s'.order[k] == s.order[if k < j then k else k + 1])
  {
    j := WithoutAt(s.order, c);
    Closed(s.order, j);
  }

  lemma {:induction false} UnsubscribeInformed(s: Hub, c: Id, i: nat, k: nat)
    requires Inv(s) && Enabled(s, Unsubscribe(c)) && i < |s.order|
    requires var s' := Step(s, Unsubscribe(c)); k < |s'.order| && s'.order[k] == s.order[i] && Listed(s')
    ensures Step(s, Unsubscribe(c)).order[k] in Step(s, Unsubscribe(c)).subs && Informed(Step(s, Unsubscribe(c)), k)
  {
    var s' := Step(s, Unsubscribe(c));
    assert s'.order[k] in s'.order;
    assert Informed(s, i);
    if OnTheWay(s, i) {
      MutatedStays(s, s', i, k);
    }
  }

  lemma {:induction false} UnsubscribeKeeps(s: Hub, c: Id)
    requires Inv(s) && Enabled(s, Unsubscribe(c))
    ensures Inv(Step(s, Unsubscribe(c)))
  {
    var s' := Step(s, Unsubscribe(c));
    var j := UnsubscribeOrder(s, c);
    forall x | x in s'.subs ensures Calm(s', x) {
      assert Calm(s, x);
    }
    forall k | 0 <= k < |s'.order| ensures s'.order[k] in s'.subs && Informed(s', k) {
      UnsubscribeInformed(s, c, if k < j then k else k + 1, k);
    }
  }

  lemma {:induction false} Closed(order: seq<Id>, j: nat)
    requires j < |order| && forall a, b :: 0 <= a < b < |order| ==> order[a] != order[b]
    ensures var short := order[..j] + order[j + 1..];
      && (forall a, b :: 0 <= a < b < |short| ==> short[a] != short[b])
      && (forall k :: 0 <= k < |short| ==> short[k] == if k < j then order[k] else order[k + 1])
      && (forall x :: x in short <==> x in order && x != order[j])
  {
    var short := order[..j] + order[j + 1..];
    forall x | x in order && x != order[j] ensures x in short {
      var i :| 0 <= i < |order| && order[i] == x;
      assert short[if i < j then i else i - 1] == x;
    }
  }

  /** While nobody holds the lock, a setter on the way has not started to send. */
  lemma {:induction false} MutatedStays(s: Hub, s': Hub, i: nat, k: nat)
    requires Inv(s) && s.lock.None? && s'.setters == s.setters && OnTheWay(s, i)
    ensures OnTheWay(s', k)
  {
    var u :| u in s.setters && (s.setters[u].Mutated? || s.setters[u].next <= i);
    assert s'.setters[u].Mutated?;
  }

  // ----- whole runs -----

  lemma {:induction false} RunKeepsInv(s: Hub, actions: seq<Action>, s': Hub)
    requires Inv(s) && Run(s, actions, s')
    ensures Inv(s')
    decreases actions
  {
    if actions != [] {
      StepKeepsInv(s, actions[0]);
      RunKeepsInv(Step(s, actions[0]), actions[1..], s');
    }
  }

  /**
   No lost update: in every reachable state, a subscriber that has not read the
   newest version, although it changed since the subscriber registered, has a
   token waiting, or holds a taken token with its read to come, or some setter
   has yet to send to it.
   */
  lemma {:induction false} NoLostUpdate(actions: seq<Action>, s: Hub, c: Id)
    requires Run(INIT, actions, s) && c in s.subs
    requires s.subs[c].seen < s.version && s.subs[c].since < s.version
    ensures s.subs[c].token || s.subs[c].took
         || exists k :: 0 <= k < |s.order| && s.order[k] == c && OnTheWay(s, k)
  {
    RunKeepsInv(INIT, actions, s);
    var k :| 0 <= k < |s.order| && s.order[k] == c;
    assert Informed(s, k);
  }

  ghost predicate Quiescent(s: Hub) {
    s.setters == map[] && forall c :: c in s.subs ==> !s.subs[c].token && !s.subs[c].took
  }

  /**
   At quiescence a subscriber has read the newest state if and only if the state
   changed after it registered, or had not changed since the snapshot it was sent
   first, or a setter was still to broadcast when it registered.
   */
  lemma {:induction false} QuiescentSubscribers(actions: seq<Action>, s: Hub, c: Id)
    requires Run(INIT, actions, s) && Quiescent(s) && c in s.subs
    ensures c in s.greeted
    ensures s.subs[c].seen == s.version
       <==> s.subs[c].since < s.version || s.greeted[c] == s.subs[c].since || s.subs[c].busy
  {
    RunKeepsInv(INIT, actions, s);
    assert Calm(s, c);
    var k :| 0 <= k < |s.order| && s.order[k] == c;
    assert Informed(s, k);
  }

  // ----- without setters -----

  ghost predicate NoMutate(actions: seq<Action>) {
    forall a :: a in actions ==> !a.Mutate?
  }

  /** The steps a subscriber still has to take: a token and the read behind it, or the read alone. */
  function Due(s: Hub, c: Id): nat {
    if c !in s.subs then 0 else (if s.subs[c].token then 2 else 0) + (if s.subs[c].took then 1 else 0)
  }

  function Steps(actions: seq<Action>, c: Id): nat {
    if actions == [] then 0 else (if actions[0] == Take(c) || actions[0] == Snapshot(c) then 1 else 0) + Steps(actions[1..], c)
  }

  /** Once the setters are done, every step of a subscriber is one of those it had to take, and nothing else moves it. */
  lemma {:induction false} ComesToRest(s: Hub, actions: seq<Action>, s': Hub, c: Id)
    requires Run(s, actions, s') && s.setters == map[] && NoMutate(actions) && Unsubscribe(c) !in actions
    ensures s'.setters == map[] && s'.version == s.version
    ensures Steps(actions, c) + Due(s', c) == Due(s, c)
    decreases actions
  {
    if actions != [] {
      assert actions[0] in actions;
      ComesToRest(Step(s, actions[0]), actions[1..], s', c);
    }
  }

  /** While some are left, one is enabled; a token is gone after one Take and one Snapshot, and the newest state is read. */
  lemma {:induction false} TokenIsTaken(s: Hub, c: Id)
    ensures Enabled(s, Take(c)) || Enabled(s, Snapshot(c)) <==> c in s.subs && (s.subs[c].token || s.subs[c].took)
    ensures (c in s.subs && s.subs[c].token && !s.subs[c].took) ==>
      (Enabled(s, Take(c)) && Enabled(Step(s, Take(c)), Snapshot(c))
       && var sub := Step(Step(s, Take(c)), Snapshot(c)).subs[c]; !sub.token && !sub.took && sub.seen == s.version)
  {
  }

  /** A subscriber that registers before the state changes again starts with the newest state. */
  lemma {:induction false} GreetedInTime(s: Hub, c: Id, actions: seq<Action>, s': Hub)
    requires Run(s, actions, s') && NoMutate(actions)
    requires c in s.greeted && s.greeted[c] == s.version && (c in s.subs ==> s.subs[c].seen == s.version)
    ensures c in s'.subs ==> s'.subs[c].seen == s'.version
    decreases actions
  {
    if actions != [] {
      assert actions[0] in actions;
      GreetedInTime(Step(s, actions[0]), c, actions[1..], s');
    }
  }

  lemma {:induction false} GreetThenSubscribe(s: Hub, c: Id, actions: seq<Action>, s': Hub)
    requires Enabled(s, Greet(c)) && Run(Step(s, Greet(c)), actions, s') && NoMutate(actions) && c in s'.subs
    ensures s'.subs[c].seen == s'.version == s.version
  {
    GreetedInTime(Step(s, Greet(c)), c, actions, s');
    VersionKept(Step(s, Greet(c)), actions, s');
  }

  lemma {:induction false} VersionKept(s: Hub, actions: seq<Action>, s': Hub)
    requires Run(s, actions, s') && NoMutate(actions)
    ensures s'.version == s.version
    decreases actions
  {
    if actions != [] {
      assert actions[0] in actions;
      VersionKept(Step(s, actions[0]), actions[1..], s');
    }
  }

  lemma {:induction false} RunFirst(s: Hub, a: Action, next: Hub, rest: seq<Action>, end: Hub)
    requires Enabled(s, a) && Step(s, a) == next && Run(next, rest, end)
    ensures Run(s, [a] + rest, end)
  {
    assert ([a] + rest)[1..] == rest;
  }

  /** A set that finishes between the first snapshot and Subscribe is never reported. */
  lemma {:induction false} GapRun(c: Id, t: Id)
    ensures Run(INIT, [Greet(c)] + ([Mutate(t)] + ([Lock(t)] + ([Unlock(t)] + ([Subscribe(c)] + [])))),
                Hub(1, [c], map[c := Sub(false, false, 0, 1, false)], map[], None, map[c := 0]))
  {
    var s1 := Hub(0, [], map[], map[], None, map[c := 0]);
    var s2 := Hub(1, [], map[], map[t := Mutated], None, map[c := 0]);
    var s3 := Hub(1, [], map[], map[t := Sending(0)], Some(t), map[c := 0]);
    var s4 := Hub(1, [], map[], map[], None, map[c := 0]);
    var s5 := Hub(1, [c], map[c := Sub(false, false, 0, 1, false)], map[], None, map[c := 0]);
    assert Step(s3, Unlock(t)) == s4;
    RunFirst(s4, Subscribe(c), s5, [], s5);
    RunFirst(s3, Unlock(t), s4, [Subscribe(c)] + [], s5);
    RunFirst(s2, Lock(t), s3, [Unlock(t)] + ([Subscribe(c)] + []), s5);
    RunFirst(s1, Mutate(t), s2, [Lock(t)] + ([Unlock(t)] + ([Subscribe(c)] + [])), s5);
    RunFirst(INIT, Greet(c), s1, [Mutate(t)] + ([Lock(t)] + ([Unlock(t)] + ([Subscribe(c)] + []))), s5);
  }

  /** The gap is real. */
  lemma {:induction false} FirstSnapshotGap(c: Id)
    ensures exists actions, s :: Run(INIT, actions, s) && Quiescent(s) && c in s.subs && s.subs[c].seen < s.version
  {
    GapRun(c, 1);
    var s := Hub(1, [c], map[c := Sub(false, false, 0, 1, false)], map[], None, map[c := 0]);
    assert Quiescent(s) && s.subs[c].seen < s.version;
  }

  /** A slow subscriber never stalls a setter: while one is active, some setter step is enabled. */
  lemma {:induction false} SettersNeverBlock(actions: seq<Action>, s: Hub, t: Id)
    requires Run(INIT, actions, s) && t in s.setters
    ensures s.setters[t].Sending? ==> Enabled(s, Send(t)) || Enabled(s, Unlock(t))
    ensures s.setters[t].Mutated? && s.lock.None? ==> Enabled(s, Lock(t))
    ensures s.lock.Some? ==> Enabled(s, Send(s.lock.value)) || Enabled(s, Unlock(s.lock.value))
  {
    RunKeepsInv(INIT, actions, s);
    forall u | u in s.setters && s.setters[u].Sending? ensures Enabled(s, Send(u)) || Enabled(s, Unlock(u)) {
      var i := s.setters[u].next;
      if i < |s.order| {
        assert s.order[i] in s.order;
      }
    }
  }

  // ----- one undisturbed broadcast -----

  function Marked(subs: map<Id, Sub>, who: seq<Id>): map<Id, Sub> {
    map c | c in subs :: if c in who then subs[c].(token := true) else subs[c]
  }

  /** The hub after setter `t` has sent to the first `n` subscribers. */
  function SentTo(s: Hub, t: Id, n: nat): Hub
    requires n <= |s.order|
  {
    s.(subs := Marked(s.subs, s.order[..n]), setters := s.setters[t := Sending(n)])
  }

  lemma {:induction false} MarkedGrows(subs: map<Id, Sub>, who: seq<Id>, c: Id)
    requires c in subs
    ensures Marked(subs, who + [c]) == Marked(subs, who)[c := Marked(subs, who)[c].(token := true)]
  {
  }

  lemma {:induction false} SendsFill(s: Hub, t: Id, n: nat)
    requires Listed(s) && s.lock == Some(t) && n < |s.order|
    ensures Enabled(SentTo(s, t, n), Send(t))
    ensures Step(SentTo(s, t, n), Send(t)) == SentTo(s, t, n + 1)
  {
    assert s.order[n] in s.order;
    assert s.order[..n + 1] == s.order[..n] + [s.order[n]];
    MarkedGrows(s.subs, s.order[..n], s.order[n]);
  }

  /** Every subscriber has a token and the setter is done. */
  function Filled(s: Hub, t: Id): Hub {
    s.(subs := map c | c in s.subs :: s.subs[c].(token := true), setters := s.setters - {t}, lock := None)
  }

  function Sends(n: nat, t: Id): seq<Action> {
    if n == 0 then [Unlock(t)] else [Send(t)] + Sends(n - 1, t)
  }

  /** Undisturbed, a broadcast leaves a token with every subscriber and nothing else changed. */
  lemma {:induction false} BroadcastFills(s: Hub, t: Id, n: nat)
    requires Listed(s) && s.lock == Some(t) && n <= |s.order|
    ensures Run(SentTo(s, t, n), Sends(|s.order| - n, t), Filled(s, t))
    decreases |s.order| - n
  {
    if n == |s.order| {
      assert [Unlock(t)][1..] == [];
    } else {
      SendsFill(s, t, n);
      BroadcastFills(s, t, n + 1);
      RunFirst(SentTo(s, t, n), Send(t), SentTo(s, t, n + 1), Sends(|s.order| - (n + 1), t), Filled(s, t));
    }
  }
}

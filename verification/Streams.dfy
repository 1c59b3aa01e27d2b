/**
 The handlers of SOCKS and transparent connections, interleaved with client
 replacement: one step per load of the client pointer, dial result, counter
 update or store. Each client counts its streams in an int32.
 */
module Streams {
  import opened Common

  type Id = nat

  /** `via` is the client the stream was dialled on, `on` the one it is counted on. */
  datatype Handler =
    | Accepted
    | Dialling(via: Id, tries: nat)
    | Dialled(via: Id)
    | Loaded(via: Id, on: Id)
    | Piping(via: Id, on: Id)
    | Closed(forwarded: bool)

  datatype System = System(
    current: Option<Id>,          // the client pointer
    active: map<Id, int>,         // the counter of every client there ever was
    handlers: map<Id, Handler>)

  datatype Action =
    | Store(c: Id)                // a new client after a successful login
    | StoreNil
    | Accept(h: Id)
    | LoadFirst(h: Id)
    | DialOk(h: Id)
    | DialFails(h: Id)            // an error that is not retried
    | DialRetries(h: Id)          // a retryable error: load the pointer again
    | LoadSecond(h: Id)
    | Add(h: Id)
    | Finish(h: Id)

  /** Two's complement wrap of a 32-bit counter. */
  function Wrap(x: int): int {
    (x + 0x8000_0000) % 0x1_0000_0000 - 0x8000_0000
  }

  const INIT := System(None, map[], map[])

  predicate Enabled(s: System, a: Action) {
    match a
    case Store(c) => c !in s.active
    case StoreNil => true
    case Accept(h) => h !in s.handlers
    case LoadFirst(h) => h in s.handlers && s.handlers[h].Accepted?
    case DialOk(h) => h in s.handlers && s.handlers[h].Dialling?
    case DialFails(h) => h in s.handlers && s.handlers[h].Dialling?
    case DialRetries(h) => h in s.handlers && s.handlers[h].Dialling?
    case LoadSecond(h) => h in s.handlers && s.handlers[h].Dialled?
    case Add(h) => h in s.handlers && s.handlers[h].Loaded? && s.handlers[h].on in s.active
    case Finish(h) => h in s.handlers && s.handlers[h].Piping? && s.handlers[h].on in s.active
  }

  function Step(s: System, a: Action): System
    requires Enabled(s, a)
  {
    match a
    case Store(c) => s.(current := Some(c), active := s.active[c := 0])
    case StoreNil => s.(current := None)
    case Accept(h) => s.(handlers := s.handlers[h := Accepted])
    case LoadFirst(h) =>
      s.(handlers := s.handlers[h := if s.current.None? then Closed(false) else Dialling(s.current.value, 0)])
    case DialOk(h) => s.(handlers := s.handlers[h := Dialled(s.handlers[h].via)])
    case DialFails(h) => s.(handlers := s.handlers[h := Closed(false)])
    case DialRetries(h) =>
      s.(handlers := s.handlers[h :=
        if s.handlers[h].tries >= 2 || s.current.None? then Closed(false)
        else Dialling(s.current.value, s.handlers[h].tries + 1)])
    case LoadSecond(h) =>
      s.(handlers := s.handlers[h := if s.current.None? then Closed(false) else Loaded(s.handlers[h].via, s.current.value)])
    case Add(h) =>
      var x := s.handlers[h];
      s.(handlers := s.handlers[h := Piping(x.via, x.on)], active := s.active[x.on := Wrap(s.active[x.on] + 1)])
    case Finish(h) =>
      var x := s.handlers[h];
      s.(handlers := s.handlers[h := Closed(true)], active := s.active[x.on := Wrap(s.active[x.on] - 1)])
  }

  ghost predicate Run(s: System, actions: seq<Action>, s': System)
    decreases actions
  {
    if actions == [] then s == s'
    else Enabled(s, actions[0]) && Run(Step(s, actions[0]), actions[1..], s')
  }

  // ----- the counters -----

  /** The handlers registered on a client that have not returned. */
  function Registered(s: System, c: Id): set<Id> {
    set h | h in s.handlers && s.handlers[h].Piping? && s.handlers[h].on == c
  }

  ghost predicate Referenced(s: System) {
    && (s.current.Some? ==> s.current.value in s.active)
    && (forall h :: h in s.handlers && (s.handlers[h].Loaded? || s.handlers[h].Piping?) ==> s.handlers[h].on in s.active)
  }

  ghost predicate Counted(s: System, c: Id)
    requires c in s.active
  {
    s.active[c] == Wrap(|Registered(s, c)|)
  }

  ghost predicate Inv(s: System) {
    Referenced(s) && forall c :: c in s.active ==> Counted(s, c)
  }

  lemma {:induction false} WrapStep(x: int, d: int)
    requires d == 1 || d == -1
    ensures Wrap(Wrap(x) + d) == Wrap(x + d)
  {
    var y := x + 0x8000_0000;
    assert (y % 0x1_0000_0000 + d) % 0x1_0000_0000 == (y + d) % 0x1_0000_0000;
  }

  lemma {:induction false} WrapSmall(x: int)
    requires -0x8000_0000 <= x < 0x8000_0000
    ensures Wrap(x) == x
  {
  }

  /** A step that does not touch this client's registrations keeps its count. */
  lemma {:induction false} SameRegistered(s: System, s': System, c: Id)
    requires forall h ::
      ((h in s'.handlers && s'.handlers[h].Piping? && s'.handlers[h].on == c)
       <==> (h in s.handlers && s.handlers[h].Piping? && s.handlers[h].on == c))
    ensures Registered(s', c) == Registered(s, c)
  {
  }

  /** The only difference in this client's registrations is that `h` was added. */
  lemma {:induction false} Entered(s: System, s': System, h: Id, c: Id)
    requires h in s'.handlers && s'.handlers[h].Piping? && s'.handlers[h].on == c
    requires h in s.handlers && !s.handlers[h].Piping?
    requires s'.handlers == s.handlers[h := s'.handlers[h]]
    ensures |Registered(s', c)| == |Registered(s, c)| + 1
  {
    assert Registered(s', c) == Registered(s, c) + {h};
  }

  lemma {:induction false} StepKeepsCount(s: System, a: Action, c: Id)
    requires Inv(s) && Enabled(s, a) && c in Step(s, a).active
    ensures Step(s, a).active[c] == Wrap(|Registered(Step(s, a), c)|)
  {
    var s' := Step(s, a);
    if a.Add? && s.handlers[a.h].on == c {
      Entered(s, s', a.h, c);
      WrapStep(|Registered(s, c)|, 1);
    } else if a.Finish? && s.handlers[a.h].on == c {
      Entered(s', s, a.h, c);
      WrapStep(|Registered(s, c)|, -1);
    } else if a.Store? && a.c == c {
      assert Registered(s', c) == {};
    } else {
      SameRegistered(s, s', c);
    }
  }

  lemma {:induction false} StepKeepsInv(s: System, a: Action)
    requires Inv(s) && Enabled(s, a)
    ensures Inv(Step(s, a))
  {
    forall c | c in Step(s, a).active ensures Counted(Step(s, a), c) {
      StepKeepsCount(s, a, c);
    }
  }

  lemma {:induction false} RunKeepsInv(s: System, actions: seq<Action>, s': System)
    requires Inv(s) && Run(s, actions, s')
    ensures Inv(s')
    decreases actions
  {
    if actions != [] {
      StepKeepsInv(s, actions[0]);
      RunKeepsInv(Step(s, actions[0]), actions[1..], s');
    }
  }

  /**
   Conservation: in every reachable state the counter of a client is the number
   of handlers registered on it that have not returned, as a 32-bit value; below
   two to the 31 of them it is that number, so it is never negative.
   */
  lemma {:induction false} StreamsConserved(actions: seq<Action>, s: System, c: Id)
    requires Run(INIT, actions, s) && c in s.active
    ensures -0x8000_0000 <= s.active[c] < 0x8000_0000 && (s.active[c] - |Registered(s, c)|) % 0x1_0000_0000 == 0
    ensures |Registered(s, c)| < 0x8000_0000 ==> s.active[c] == |Registered(s, c)| >= 0
    ensures (forall h :: h in s.handlers ==> !s.handlers[h].Piping?) ==> s.active[c] == 0
  {
    RunKeepsInv(INIT, actions, s);
    if |Registered(s, c)| < 0x8000_0000 {
      WrapSmall(|Registered(s, c)|);
    }
    if forall h :: h in s.handlers ==> !s.handlers[h].Piping? {
      assert Registered(s, c) == {};
    }
  }

  // ----- fail closed -----

  /** No new client is stored. */
  ghost predicate NoStore(actions: seq<Action>) {
    actions == [] || (!actions[0].Store? && NoStore(actions[1..]))
  }

  /** Not yet past the second load of the client pointer. */
  predicate Undecided(s: System, h: Id) {
    h !in s.handlers || (!s.handlers[h].Loaded? && !s.handlers[h].Piping? && s.handlers[h] != Closed(true))
  }

  /**
   While there is no client, no connection gets through: a handler that has not
   passed its second load of the pointer ends closed and unforwarded, whatever
   its dials on dead clients return.
   */
  lemma {:induction false} NoClientNoForward(s: System, actions: seq<Action>, s': System, h: Id)
    requires Run(s, actions, s') && s.current.None? && Undecided(s, h)
    requires NoStore(actions)
    ensures Undecided(s', h) && s'.current.None?
    decreases actions
  {
    if actions != [] {
      NoClientNoForward(Step(s, actions[0]), actions[1..], s', h);
    }
  }

  /** A handler that starts while there is no client dials nothing at all. */
  lemma {:induction false} NoClientNoDial(s: System, actions: seq<Action>, s': System, h: Id)
    requires Run(s, actions, s') && s.current.None?
    requires h !in s.handlers || s.handlers[h] == Accepted || s.handlers[h] == Closed(false)
    requires NoStore(actions)
    ensures h !in s'.handlers || s'.handlers[h] == Accepted || s'.handlers[h] == Closed(false)
    decreases actions
  {
    if actions != [] {
      NoClientNoDial(Step(s, actions[0]), actions[1..], s', h);
    }
  }

  /** The client is replaced between the dial and the second load. */
  lemma {:induction false} ReplacedWhileDialling(one: Id, two: Id, h: Id, a: seq<Action>)
    requires one != two
    requires a == [Store(one), Accept(h), LoadFirst(h), DialOk(h), Store(two), LoadSecond(h), Add(h)]
    ensures Run(INIT, a, System(Some(two), map[one := 0, two := 1], map[h := Piping(one, two)]))
  {
    var s4 := System(Some(one), map[one := 0], map[h := Dialled(one)]);
    var s5 := System(Some(two), map[one := 0, two := 0], map[h := Dialled(one)]);
    var s6 := System(Some(two), map[one := 0, two := 0], map[h := Loaded(one, two)]);
    var s7 := System(Some(two), map[one := 0, two := 1], map[h := Piping(one, two)]);
    assert Step(s4, Store(two)) == s5;
    assert Step(s6, Add(h)) == s7;
    RunBack(s6, a, 6, s7, s7);
    RunBack(s5, a, 5, s6, s7);
    RunBack(s4, a, 4, s5, s7);
    DialledFirst(one, h, a, s7);
  }

  lemma {:induction false} DialledFirst(one: Id, h: Id, a: seq<Action>, end: System)
    requires |a| > 4 && a[0] == Store(one) && a[1] == Accept(h) && a[2] == LoadFirst(h) && a[3] == DialOk(h)
    requires Run(System(Some(one), map[one := 0], map[h := Dialled(one)]), a[4..], end)
    ensures Run(INIT, a, end)
  {
    var s1 := System(Some(one), map[one := 0], map[]);
    var s2 := System(Some(one), map[one := 0], map[h := Accepted]);
    var s3 := System(Some(one), map[one := 0], map[h := Dialling(one, 0)]);
    var s4 := System(Some(one), map[one := 0], map[h := Dialled(one)]);
    assert Step(s3, DialOk(h)) == s4;
    RunBack(s3, a, 3, s4, end);
    assert Step(s2, LoadFirst(h)) == s3;
    RunBack(s2, a, 2, s3, end);
    RunBack(s1, a, 1, s2, end);
    RunBack(INIT, a, 0, s1, end);
    assert a[0..] == a;
  }

  // ----- retries and outcomes -----

  /** How often the handler's dial failed retryably. */
  function Retries(actions: seq<Action>, h: Id): nat {
    if actions == [] then 0 else (if actions[0] == DialRetries(h) then 1 else 0) + Retries(actions[1..], h)
  }

  /** How often the handler dialled with a result. */
  function Dials(actions: seq<Action>, h: Id): nat {
    if actions == [] then 0
    else (if actions[0] in [DialOk(h), DialFails(h), DialRetries(h)] then 1 else 0) + Dials(actions[1..], h)
  }

  ghost predicate RetriedBefore(s: System, h: Id, n: nat) {
    if h !in s.handlers || s.handlers[h].Accepted? then n == 0
    else s.handlers[h].Dialling? ==> s.handlers[h].tries == n <= 2
  }

  lemma {:induction false} TriesAreRetries(s: System, actions: seq<Action>, s': System, h: Id, n: nat)
    requires Run(s, actions, s') && RetriedBefore(s, h, n)
    ensures RetriedBefore(s', h, n + Retries(actions, h))
    decreases actions
  {
    if actions != [] {
      TriesAreRetries(Step(s, actions[0]), actions[1..], s', h, if actions[0] == DialRetries(h) then n + 1 else n);
    }
  }

  /** After a retryable failure the handler dials once more, on the client stored now, unless it is the third or there is no client. */
  lemma {:induction false} RetryDialsAgain(before: seq<Action>, s: System, h: Id)
    requires Run(INIT, before, s) && Enabled(s, DialRetries(h))
    ensures var x := Step(s, DialRetries(h)).handlers[h];
      if Retries(before, h) < 2 && s.current.Some? then x.Dialling? && x.via == s.current.value else x == Closed(false)
  {
    TriesAreRetries(INIT, before, s, h, 0);
  }

  /** The dials that a handler may still make. */
  function DialsLeft(s: System, h: Id): int {
    if h !in s.handlers || s.handlers[h].Accepted? then 3
    else if s.handlers[h].Dialling? then 3 - s.handlers[h].tries
    else 0
  }

  lemma {:induction false} DialsSpent(s: System, actions: seq<Action>, s': System, h: Id)
    requires Run(s, actions, s') && DialsLeft(s, h) >= 0
    requires h in s.handlers && s.handlers[h].Dialling? ==> s.handlers[h].tries <= 2
    ensures Dials(actions, h) <= DialsLeft(s, h)
    decreases actions
  {
    if actions != [] {
      DialsSpent(Step(s, actions[0]), actions[1..], s', h);
    }
  }

  /** No handler dials a fourth time. */
  lemma {:induction false} ThreeDialsAtMost(actions: seq<Action>, s: System, h: Id)
    requires Run(INIT, actions, s)
    ensures Dials(actions, h) <= 3
  {
    DialsSpent(INIT, actions, s, h);
  }

  lemma {:induction false} InTail(actions: seq<Action>)
    requires actions != []
    ensures forall a :: a in actions <==> a == actions[0] || a in actions[1..]
  {
  }

  lemma {:induction false} ClosedStays(s: System, actions: seq<Action>, s': System, h: Id)
    requires Run(s, actions, s') && h in s.handlers && s.handlers[h].Closed?
    ensures h in s'.handlers && s'.handlers[h] == s.handlers[h]
    ensures forall a :: a in actions ==> a != DialFails(h) && a != Finish(h)
    decreases actions
  {
    if actions != [] {
      InTail(actions);
      ClosedStays(Step(s, actions[0]), actions[1..], s', h);
    }
  }

  /** A connection was forwarded iff its handler finished a pipe, and a dial that is not retried ends it for good. */
  lemma {:induction false} Outcome(s: System, actions: seq<Action>, s': System, h: Id)
    requires Run(s, actions, s') && (h in s.handlers ==> !s.handlers[h].Closed?)
    ensures h in s'.handlers && s'.handlers[h] == Closed(true) <==> Finish(h) in actions
    ensures DialFails(h) in actions ==> h in s'.handlers && s'.handlers[h] == Closed(false)
    decreases actions
  {
    if actions != [] {
      InTail(actions);
      var s1 := Step(s, actions[0]);
      if h in s1.handlers && s1.handlers[h].Closed? {
        ClosedStays(s1, actions[1..], s', h);
      } else {
        Outcome(s1, actions[1..], s', h);
      }
    }
  }

  // ----- which client a stream is counted on -----

  lemma {:induction false} StepKeepsActive(s: System, a: Action)
    requires Enabled(s, a) && Referenced(s)
    ensures s.active.Keys <= Step(s, a).active.Keys
    ensures Referenced(Step(s, a))
  {
  }

  /** An id is stored once, so a client that was replaced never comes back. */
  lemma {:induction false} NeverBack(s: System, actions: seq<Action>, s': System, c: Id)
    requires Run(s, actions, s') && s.current != Some(c) && c in s.active && Referenced(s)
    ensures s'.current != Some(c)
    decreases actions
  {
    if actions != [] {
      StepKeepsActive(s, actions[0]);
      NeverBack(Step(s, actions[0]), actions[1..], s', c);
    }
  }

  lemma {:induction false} StaysNil(s: System, actions: seq<Action>, s': System)
    requires Run(s, actions, s') && s.current.None? && NoStore(actions)
    ensures s'.current.None?
    decreases actions
  {
    if actions != [] {
      StaysNil(Step(s, actions[0]), actions[1..], s');
    }
  }

  /** Between two loads that both find a client, they find the same one iff none was stored in between. */
  lemma {:induction false} SameClient(s: System, actions: seq<Action>, s': System, c: Id)
    requires Run(s, actions, s') && s.current == Some(c) && c in s.active && Referenced(s) && s'.current.Some?
    ensures s'.current == Some(c) <==> NoStore(actions)
    decreases actions
  {
    if actions != [] {
      var s1 := Step(s, actions[0]);
      StepKeepsActive(s, actions[0]);
      if s1.current == Some(c) {
        SameClient(s1, actions[1..], s', c);
      } else {
        NeverBack(s1, actions[1..], s', c);
        if NoStore(actions) {
          StaysNil(s1, actions[1..], s');
        }
      }
    }
  }

  /** The handler does not load the pointer again for another try. */
  ghost predicate NoRetry(actions: seq<Action>, h: Id) {
    actions == [] || (actions[0] != DialRetries(h) && NoRetry(actions[1..], h))
  }

  lemma {:induction false} ViaKept(s: System, actions: seq<Action>, s': System, h: Id, via: Id)
    requires Run(s, actions, s') && NoRetry(actions, h)
    requires h in s.handlers && !s.handlers[h].Accepted? && (s.handlers[h].Closed? || s.handlers[h].via == via)
    ensures h in s'.handlers && !s'.handlers[h].Accepted? && (s'.handlers[h].Closed? || s'.handlers[h].via == via)
    decreases actions
  {
    if actions != [] {
      ViaKept(Step(s, actions[0]), actions[1..], s', h, via);
    }
  }

  /**
   Exactly when a stream is counted on the client that carries it: the load it
   was dialled on and the second load find the same client iff no new client was
   stored between them.
   */
  lemma {:induction false} CountedWhereCarried(before: seq<Action>, s: System, load: Action, between: seq<Action>, t: System, h: Id)
    requires Run(INIT, before, s) && Enabled(s, load) && (load == LoadFirst(h) || load == DialRetries(h))
    requires Step(s, load).handlers[h].Dialling?
    requires Run(Step(s, load), between, t) && NoRetry(between, h) && Enabled(t, LoadSecond(h)) && t.current.Some?
    ensures var x := Step(t, LoadSecond(h)).handlers[h]; x.Loaded? && (x.via == x.on <==> NoStore(between))
  {
    RunKeepsInv(INIT, before, s);
    var s1 := Step(s, load);
    var via := s1.handlers[h].via;
    StepKeepsActive(s, load);
    ViaKept(s1, between, t, h, via);
    SameClient(s1, between, t, via);
  }

  /** The counter is per pointer load, not per stream: a stream may be counted on a client that does not carry it. */
  lemma {:induction false} CountedElsewhere(one: Id, two: Id, h: Id) returns (actions: seq<Action>, s: System)
    requires one != two
    ensures Run(INIT, actions, s)
    ensures h in s.handlers && s.handlers[h] == Piping(one, two)
  {
    actions := [Store(one), Accept(h), LoadFirst(h), DialOk(h), Store(two), LoadSecond(h), Add(h)];
    s := System(Some(two), map[one := 0, two := 1], map[h := Piping(one, two)]);
    ReplacedWhileDialling(one, two, h, actions);
  }

  lemma {:induction false} RunBack(s: System, a: seq<Action>, i: nat, next: System, end: System)
    requires i < |a| && Enabled(s, a[i]) && Step(s, a[i]) == next && Run(next, a[i + 1..], end)
    ensures Run(s, a[i..], end)
  {
    assert a[i..][1..] == a[i + 1..];
  }

  // ----- the counter object -----

  /** The counter of one client, updated by the step of the transition system that its caller takes. */
  class TunClient {
    var active: int

    constructor (ghost s: System, ghost c: Id)
      requires Inv(s) && Enabled(s, Store(c))
      ensures active == Step(s, Store(c)).active[c] == 0
    {
      active := 0;
    }

    /** Registering a handler leaves the number of handlers registered, as a 32-bit value. */
    method Add(ghost s: System, ghost h: Id)
      requires Inv(s) && Enabled(s, Action.Add(h)) && active == s.active[s.handlers[h].on]
      modifies this
      ensures active == Step(s, Action.Add(h)).active[s.handlers[h].on]
      ensures active == Wrap(|Registered(Step(s, Action.Add(h)), s.handlers[h].on)|)
    {
      StepKeepsCount(s, Action.Add(h), s.handlers[h].on);
      active := Wrap(active + 1);
    }

    /** And so does taking one out. */
    method Remove(ghost s: System, ghost h: Id)
      requires Inv(s) && Enabled(s, Finish(h)) && active == s.active[s.handlers[h].on]
      modifies this
      ensures active == Step(s, Finish(h)).active[s.handlers[h].on]
      ensures active == Wrap(|Registered(Step(s, Finish(h)), s.handlers[h].on)|)
    {
      StepKeepsCount(s, Finish(h), s.handlers[h].on);
      active := Wrap(active - 1);
    }
  }
}

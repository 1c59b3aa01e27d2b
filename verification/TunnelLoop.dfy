/**
 The connection manager: connect, bring listeners and rules up once, wait for
 the client to die, reconnect with the routing kept up, tear down on return.

 What the loop observes (cancellation, route, login, rule commands that fail,
 transport errors) is a script of rounds; the rule tables are those of the
 packet filter. A finite script stands for the run up to any moment.
 */
module TunnelLoop {
  import opened Common
  import opened Netfilter
  import opened Firewall
  import opened Iptables
  import opened Ownership
  import opened Undo
  import opened Packets
  import opened Verdicts
  import opened Idle
  import opened Disturbed
  import opened InForce
  import opened NoTrace
  import opened Reports
  import opened ConfigChange

  const BASE_DELAY: nat := 1
  const MAX_DELAY: nat := 30
  const OFFLINE_DELAY: nat := 5

  function NextDelay(cur: int, base: nat, max: nat): nat {
    if cur <= 0 then base
    else if cur * 2 > max then max
    else cur * 2
  }

  /** How the wait for the client ends, if the circuit breaker does not end it. */
  datatype Ending = ContextDone | ClientDied

  /** One turn of the loop, as the loop observes it. */
  datatype Round = Round(
    cancelled: bool,          // the context is done before the delay is over
    online: bool,
    authenticated: bool,
    transparent: bool,        // TransparentProxy.Enabled of this turn's config
    cfg: Config,
    bypass: BypassList,
    env: Env,
    transportErrors: seq<nat>, // the count read at each health tick
    ending: Ending)

  datatype Status = Starting | Paused | RetryBackoff | Connected | Reconnecting

  datatype Loop = Loop(
    listeners: bool,
    rulesUp: bool,
    client: Option<nat>,
    nextClient: nat,
    delay: nat,
    status: Status,
    tables: Store,
    starts: nat,    // calls of startListeners
    applies: nat,   // calls of Apply
    cleanups: nat)  // calls of Cleanup

  function Initial(tables: Store): Loop {
    Loop(false, false, None, 0, 0, Starting, tables, 0, 0, 0)
  }

  /** Whether the wait ends with the loop going on: the client died or the breaker tripped. */
  predicate GoesOn(ticks: seq<nat>, ending: Ending) {
    if ticks == [] then ending.ClientDied? else ticks[0] >= 5 || GoesOn(ticks[1..], ending)
  }

  /** What the Apply call of a round leaves and returns. */
  function Applied(s: Store, r: Round): Machine {
    Run(r.env, Begin(s), ApplyProgram(r.cfg, r.bypass))
  }

  predicate ApplySucceeds(s: Store, r: Round) {
    Fatal(Applied(s, r).errs) == []
  }

  /** Start the listeners and apply the rules, once; `left` is what Apply leaves. */
  function BringUp(s: Loop, transparent: bool, left: Machine): Loop {
    if s.listeners then s
    else if !transparent then s.(listeners := true, starts := s.starts + 1)
    else s.(listeners := true, starts := s.starts + 1, tables := left.store,
            applies := s.applies + 1, rulesUp := Fatal(left.errs) == [])
  }

  function Connect(s: Loop): Loop {
    s.(delay := BASE_DELAY, client := Some(s.nextClient), nextClient := s.nextClient + 1, status := Connected)
  }

  /** A turn after a successful login: bring everything up, wait for the client to die. */
  function Carried(s: Loop, transparent: bool, left: Machine, goesOn: bool): (Loop, bool) {
    var up := BringUp(Connect(s), transparent, left);
    if goesOn then (up.(client := None, status := Reconnecting, delay := BASE_DELAY), false)
    else (up.(client := None), true)
  }

  /** One turn; the second part says whether the loop returned. */
  function Turn(s: Loop, r: Round): (Loop, bool) {
    if r.cancelled then (s, true)
    else if !r.online then (s.(status := Paused, delay := OFFLINE_DELAY), false)
    else if !r.authenticated then (s.(status := RetryBackoff, delay := NextDelay(s.delay, BASE_DELAY, MAX_DELAY)), false)
    else Carried(s, r.transparent, Applied(s.tables, r), GoesOn(r.transportErrors, r.ending))
  }

  /** The state after the rounds, or after the one in which the loop returned. */
  function Turns(s: Loop, rounds: seq<Round>): Loop
    decreases rounds
  {
    if rounds == [] then s
    else if Turn(s, rounds[0]).1 then Turn(s, rounds[0]).0
    else Turns(Turn(s, rounds[0]).0, rounds[1..])
  }

  /** The deferred teardown, with the configuration read at that moment. */
  function Teardown(s: Loop, cfg: Config, env: Env): Loop {
    if s.rulesUp then
      s.(listeners := false, rulesUp := false, client := None, cleanups := s.cleanups + 1,
         tables := RunCall(cfg, s.tables, CleanupCall(env)))
    else s.(listeners := false, client := None)
  }

  function Session(tables: Store, rounds: seq<Round>, cfg: Config, env: Env): Loop {
    Teardown(Turns(Initial(tables), rounds), cfg, env)
  }

  // ----- when a turn ends the loop, and what it leaves -----

  /** The round in which the loop returns: the context ends it before the delay is over, or while a client lives on that no breaker trips. */
  predicate Stops(r: Round) {
    || r.cancelled
    || (r.online && r.authenticated && r.ending == ContextDone && forall i :: 0 <= i < |r.transportErrors| ==> r.transportErrors[i] < 5)
  }

  lemma {:induction false} GoesOnMeans(ticks: seq<nat>, ending: Ending)
    ensures GoesOn(ticks, ending) <==> ending == ClientDied || exists i :: 0 <= i < |ticks| && ticks[i] >= 5
  {
    if ticks != [] {
      GoesOnMeans(ticks[1..], ending);
      if i :| 0 <= i < |ticks[1..]| && ticks[1..][i] >= 5 {
        assert ticks[i + 1] >= 5;
      }
      if i :| 0 < i < |ticks| && ticks[i] >= 5 {
        assert ticks[1..][i - 1] >= 5;
      }
    }
  }

  /**
   Every turn: whether the loop returns, and what the daemon then shows. After a lost
   client it reconnects after one second, after a failed login after twice the last
   delay up to 30 seconds, offline it looks again after five.
   */
  lemma {:induction false} TurnMeans(s: Loop, r: Round)
    ensures Turn(s, r).1 <==> Stops(r)
    ensures r.cancelled ==> Turn(s, r).0 == s
    ensures !r.cancelled && !r.online ==> Turn(s, r).0 == s.(status := Paused, delay := 5)
    ensures !r.cancelled && r.online && !r.authenticated
        ==> Turn(s, r).0 == s.(status := RetryBackoff, delay := if s.delay == 0 then 1 else if s.delay > 15 then 30 else s.delay + s.delay)
    ensures !r.cancelled && r.online && r.authenticated
        ==> var e := Turn(s, r).0;
            && e.client == None && e.nextClient == s.nextClient + 1 && e.delay == 1 && e.listeners
            && e.status == (if Stops(r) then Connected else Reconnecting)
  {
    GoesOnMeans(r.transportErrors, r.ending);
  }

  /** While the loop waits, a new client is published, and traffic is carried. */
  lemma {:induction false} WhileCarried(s: Loop, transparent: bool, left: Machine)
    ensures var up := BringUp(Connect(s), transparent, left);
      && up.client == Some(s.nextClient) && up.nextClient == s.nextClient + 1 && up.status == Connected && up.listeners
      && (transparent && !s.listeners ==> up.tables == left.store && up.rulesUp == (Fatal(left.errs) == []))
      && (s.listeners ==> up.tables == s.tables && up.rulesUp == s.rulesUp)
  {
  }

  /** Rounds in which the loop does not return only lead to the next one. */
  lemma {:induction false} RunGoesOn(s: Loop, rounds: seq<Round>, rest: seq<Round>)
    requires forall i :: 0 <= i < |rounds| ==> !Stops(rounds[i])
    ensures Turns(s, rounds + rest) == Turns(Turns(s, rounds), rest)
    decreases rounds
  {
    if rounds == [] {
      assert rounds + rest == rest;
    } else {
      TurnMeans(s, rounds[0]);
      assert (rounds + rest)[0] == rounds[0] && (rounds + rest)[1..] == rounds[1..] + rest;
      RunGoesOn(Turn(s, rounds[0]).0, rounds[1..], rest);
    }
  }

  /** The run ends in the first round that stops it, whatever the script holds after it. */
  lemma {:induction false} RunStopsAt(s: Loop, rounds: seq<Round>, n: nat)
    requires n < |rounds| && Stops(rounds[n]) && forall i :: 0 <= i < n ==> !Stops(rounds[i])
    ensures Turns(s, rounds) == Turn(Turns(s, rounds[..n]), rounds[n]).0
  {
    RunGoesOn(s, rounds[..n], rounds[n..]);
    assert rounds[..n] + rounds[n..] == rounds && rounds[n..][0] == rounds[n];
    TurnMeans(Turns(s, rounds[..n]), rounds[n]);
  }

  /** How many of the rounds get a client. */
  function Logins(rounds: seq<Round>): nat {
    if rounds == [] then 0
    else (if !rounds[0].cancelled && rounds[0].online && rounds[0].authenticated then 1 else 0) + Logins(rounds[1..])
  }

  /** As long as the loop does not return, every login gets a client of its own. */
  lemma {:induction false} EveryLoginConnects(s: Loop, rounds: seq<Round>)
    requires forall i :: 0 <= i < |rounds| ==> !Stops(rounds[i])
    ensures Turns(s, rounds).nextClient == s.nextClient + Logins(rounds)
    decreases rounds
  {
    if rounds != [] {
      TurnMeans(s, rounds[0]);
      EveryLoginConnects(Turn(s, rounds[0]).0, rounds[1..]);
    }
  }

  // ----- once up, always up -----

  /** The round that brings everything up: the first one reached whose login succeeds. */
  function Bringing(rounds: seq<Round>): Option<Round> {
    if rounds == [] || rounds[0].cancelled then None
    else if rounds[0].online && rounds[0].authenticated then Some(rounds[0])
    else Bringing(rounds[1..])
  }

  /** What a run leaves of the routing that it found down: `r` is the round that brings it up. */
  ghost predicate Brought(s: Loop, r: Option<Round>, e: Loop) {
    && e.cleanups == s.cleanups && e.client.None?
    && e.listeners == r.Some? && e.starts == s.starts + (if r.Some? then 1 else 0)
    && if r.Some? && r.value.transparent
       then e.applies == s.applies + 1 && e.tables == Applied(s.tables, r.value).store && e.rulesUp == ApplySucceeds(s.tables, r.value)
       else e.applies == s.applies && e.tables == s.tables && !e.rulesUp
  }

  lemma {:induction false} TurnBrings(s: Loop, r: Round)
    requires !s.listeners && !s.rulesUp && s.client.None? && !r.cancelled && r.online && r.authenticated
    ensures Brought(s, Some(r), Turn(s, r).0)
  {
  }

  /** The routing is up and the same. */
  ghost predicate SameRouting(s: Loop, e: Loop) {
    && e.listeners && e.rulesUp == s.rulesUp && e.tables == s.tables && e.starts == s.starts && e.applies == s.applies
    && e.cleanups == s.cleanups && (s.client.None? ==> e.client.None?)
  }

  lemma {:induction false} CarriedLeaves(s: Loop, transparent: bool, left: Machine, goesOn: bool)
    requires s.listeners
    ensures SameRouting(s, Carried(s, transparent, left, goesOn).0)
  {
  }

  /** A turn after the listeners started leaves the routing alone, and the client pointer is nil behind it. */
  lemma {:induction false} TurnLeaves(s: Loop, r: Round)
    requires s.listeners
    ensures SameRouting(s, Turn(s, r).0)
  {
    CarriedLeaves(s, r.transparent, Applied(s.tables, r), GoesOn(r.transportErrors, r.ending));
  }

  /**
   Once the listeners run, no pause, failed login, breaker or reconnect touches
   them, the rules or the tables, and nothing is started or applied again.
   */
  lemma {:induction false} RulesStayUp(s: Loop, rounds: seq<Round>)
    requires s.listeners
    ensures Turns(s, rounds).listeners
    ensures Turns(s, rounds).rulesUp == s.rulesUp
    ensures Turns(s, rounds).tables == s.tables
    ensures Turns(s, rounds).cleanups == s.cleanups
    ensures Turns(s, rounds).applies == s.applies
    ensures Turns(s, rounds).starts == s.starts
    ensures s.client.None? ==> Turns(s, rounds).client.None?
    decreases rounds
  {
    if rounds != [] {
      TurnLeaves(s, rounds[0]);
      if !Turn(s, rounds[0]).1 {
        RulesStayUp(Turn(s, rounds[0]).0, rounds[1..]);
      }
    }
  }

  lemma {:induction false} RunBrings(s: Loop, rounds: seq<Round>)
    requires !s.listeners && !s.rulesUp && s.client.None?
    ensures Brought(s, Bringing(rounds), Turns(s, rounds))
    decreases rounds
  {
    if rounds != [] && !rounds[0].cancelled {
      var (s1, returned) := Turn(s, rounds[0]);
      if rounds[0].online && rounds[0].authenticated {
        TurnBrings(s, rounds[0]);
        if !returned {
          RulesStayUp(s1, rounds[1..]);
        }
      } else {
        RunBrings(s1, rounds[1..]);
      }
    }
  }

  /**
   Over every run: listeners start once, rules are applied once, in the first
   round whose login succeeds, and never again; the tables are the original ones
   or exactly what that one Apply left; no cleanup runs before the loop returns.
   */
  lemma {:induction false} UpAtMostOnce(s0: Store, rounds: seq<Round>)
    ensures var s, r := Turns(Initial(s0), rounds), Bringing(rounds);
      && s.cleanups == 0 && s.starts == (if r.Some? then 1 else 0)
      && s.applies == (if r.Some? && r.value.transparent then 1 else 0)
      && s.tables == (if s.applies == 1 then Applied(s0, r.value).store else s0)
      && (s.rulesUp <==> s.applies == 1 && ApplySucceeds(s0, r.value))
  {
    RunBrings(Initial(s0), rounds);
  }

  // ----- fail closed -----

  lemma {:induction false} UpIsApplied(s0: Store, rounds: seq<Round>, r: Round)
    requires Turns(Initial(s0), rounds).rulesUp && Bringing(rounds) == Some(r)
    ensures r.transparent && ApplySucceeds(s0, r) && Turns(Initial(s0), rounds).tables == Applied(s0, r).store
  {
    UpAtMostOnce(s0, rounds);
  }

  /**
   Fail closed: at every moment of a run after Apply has returned nil, whatever
   happened since, every TCP packet that is to be redirected is, if and only if
   that Apply's REDIRECT append and hook insertion were not failed, unless the
   original chain redirects everything by itself.
   */
  lemma {:induction false} FailClosed(s0: Store, rounds: seq<Round>, r: Round)
    requires Turns(Initial(s0), rounds).rulesUp && Bringing(rounds) == Some(r) && Start(r.cfg, s0)
    ensures AllDiverted(r.cfg, r.bypass, Turns(Initial(s0), rounds).tables)
       <==> Decided(r.env, Making(r.cfg), PlanOf(r.cfg, r.bypass)) || AllDiverted(r.cfg, r.bypass, s0)
  {
    UpIsApplied(s0, rounds, r);
    NilMeansRedirected(r.cfg, s0, r.env, r.bypass);
  }

  /** The packet is redirected as this round's configuration says, or treated as before. */
  ghost predicate RedirectedBy(r: Round, s0: Store, tables: Store, ext: Ext, p: Packet) {
    Verdict(tables, ext, NAT_OUTPUT, p)
      == if p.uid != Some(0) && !Exempt(r.cfg, r.bypass, p) then Some(Redirect(Port(r.cfg)))
         else Verdict(s0, ext, NAT_OUTPUT, p)
  }

  /** The fate of every single TCP packet at such a moment. */
  lemma {:induction false} PacketsAfterApply(s0: Store, rounds: seq<Round>, r: Round, ext: Ext, p: Packet)
    requires Turns(Initial(s0), rounds).rulesUp && Bringing(rounds) == Some(r) && Start(r.cfg, s0) && p.proto.Tcp?
    ensures Verdict(Turns(Initial(s0), rounds).tables, ext, NAT_OUTPUT, p)
         == if Decided(r.env, Making(r.cfg), PlanOf(r.cfg, r.bypass)) && !Shielded(r.env, Making(r.cfg), PlanOf(r.cfg, r.bypass), ext, p)
            then Some(Redirect(Port(r.cfg))) else Verdict(s0, ext, NAT_OUTPUT, p)
    ensures Verdict(Turns(Initial(s0), rounds).tables, ext, NAT_PREROUTING, p)
         == if HotspotDecided(r.env, Making(r.cfg), PlanOf(r.cfg, r.bypass), p.inIface)
               && !HotspotShielded(r.env, Making(r.cfg), PlanOf(r.cfg, r.bypass), ext, p)
            then Some(Redirect(Port(r.cfg))) else Verdict(s0, ext, NAT_PREROUTING, p)
    ensures PlainFaults(r.env) && ValidPacket(p) ==> RedirectedBy(r, s0, Turns(Initial(s0), rounds).tables, ext, p)
  {
    UpIsApplied(s0, rounds, r);
    NilVerdict(r.cfg, s0, r.env, r.bypass, ext, p);
    NilHotspotVerdict(r.cfg, s0, r.env, r.bypass, ext, p);
    if PlainFaults(r.env) && ValidPacket(p) {
      SuccessMeansRedirected(r.cfg, s0, r.env, r.bypass, ext, p);
    }
  }

  // ----- on return -----

  /** On return the client pointer is nil, listeners and rules are down, and one cleanup ran iff Apply had succeeded. */
  lemma {:induction false} ReturnedState(s0: Store, rounds: seq<Round>, cfg: Config, env: Env)
    ensures var s, e := Turns(Initial(s0), rounds), Session(s0, rounds, cfg, env);
      && e.client.None? && !e.listeners && !e.rulesUp
      && e.cleanups == (if s.rulesUp then 1 else 0)
      && (!s.rulesUp ==> e.tables == s.tables)
  {
    UpAtMostOnce(s0, rounds);
  }

  /** The call in which a round applied the rules, as a history. */
  lemma {:induction false} AppliedIsCall(s0: Store, r: Round)
    ensures Applied(s0, r).store == RunCall(r.cfg, s0, ApplyCall(r.env, r.bypass))
  {
  }

  /**
   The rounds whose Apply leaves rules that no teardown takes away: it returns an
   error and leaves a trace, both of which the oracle decides.
   */
  ghost predicate Stranding(r: Round) {
    r.transparent && !ReturnsNil(r.env, Making(r.cfg), PlanOf(r.cfg, r.bypass)) && !Suppressed(r.env, r.cfg, r.bypass)
  }

  /**
   What a session leaves behind, if the round that brings it up has the
   configuration of the teardown, and the last cleanup is not disturbed: the
   original tables, unless that round applied the rules, the failures made Apply
   return an error, and some command that a clean store takes was not failed.
   Nobody cleans up after such an Apply.
   */
  lemma {:induction false} SessionRestores(s0: Store, rounds: seq<Round>, cfg: Config, env: Env)
    requires CleanStart(cfg, s0) && FaultFree(env)
    requires Bringing(rounds).Some? ==> Bringing(rounds).value.cfg == cfg
    ensures Session(s0, rounds, cfg, env).tables == s0
       <==> !(Bringing(rounds).Some? && Stranding(Bringing(rounds).value))
  {
    UpAtMostOnce(s0, rounds);
    if Turns(Initial(s0), rounds).applies == 1 {
      var r := Bringing(rounds).value;
      AppliedIsCall(s0, r);
      NilExactly(cfg, s0, r.env, r.bypass);
      if ApplySucceeds(s0, r) {
        UndoPartialApply(cfg, s0, r.env, r.bypass, env);
      } else {
        ApplyLeavesNoTrace(cfg, s0, r.env, r.bypass);
      }
    }
  }

  /**
   Such a session, without a single failed command: a configured port above 65535
   makes Apply return an error, and its chains stay after the session ends.
   */
  lemma {:induction false} BadPortStrandsRules(s0: Store, rounds: seq<Round>, r: Round, env: Env)
    requires CleanStart(r.cfg, s0) && FaultFree(env) && FaultFree(r.env)
    requires Bringing(rounds) == Some(r) && r.transparent
    requires r.cfg.apiPort > 65535 || r.cfg.socksPort > 65535 || r.cfg.tcpPort > 65535 || r.cfg.dnsForwardPort > 65535
    ensures Session(s0, rounds, r.cfg, env).tables != s0
    ensures NatChain(OutName(Prefix(r.cfg))) in Session(s0, rounds, r.cfg, env).tables
  {
    FaultFreeResult(r.cfg, s0, r.env, r.bypass);
    UpAtMostOnce(s0, rounds);
    AppliedIsCall(s0, r);
    ChainInstalled(r.cfg, s0, r.env, r.bypass);
  }

  /**
   With a configuration that changed since, teardown after a successful Apply,
   disturbed or not, restores the tables exactly if the chains and hooks that this
   Apply made are ones the current configuration cleans up; the same prefix and
   covered hooks are enough, and needed if nothing failed in Apply.
   */
  lemma {:induction false} SessionWithOtherConfig(s0: Store, rounds: seq<Round>, r: Round, current: Config, env: Env)
    requires CleanStart(r.cfg, s0) && CleanStart(current, s0) && FaultFree(env)
    requires Turns(Initial(s0), rounds).rulesUp && Bringing(rounds) == Some(r)
    ensures Session(s0, rounds, current, env).tables == s0 <==> Restorable(r.env, Making(r.cfg), r.cfg, r.bypass, current)
    ensures Prefix(r.cfg) == Prefix(current) && HooksCovered(r.cfg, current) ==> Session(s0, rounds, current, env).tables == s0
    ensures FaultFree(r.env)
        ==> (Session(s0, rounds, current, env).tables == s0 <==> Prefix(r.cfg) == Prefix(current) && HooksCovered(r.cfg, current))
  {
    UpIsApplied(s0, rounds, r);
    AppliedIsCall(s0, r);
    TeardownWithOtherConfig(r.cfg, current, s0, r.env, env, r.bypass);
    CoveredIsRestorable(r.env, Making(r.cfg), r.cfg, r.bypass, current);
  }

  // ----- delays -----

  function Power(n: nat): nat {
    if n == 0 then 1 else 2 * Power(n - 1)
  }

  /** The delay after `n` failed logins in a row, starting from delay `d`. */
  function Backoff(d: nat, n: nat): nat {
    if n == 0 then d
    else
      var doubled := if d == 0 then Power(n - 1) else d * Power(n);
      if doubled > MAX_DELAY then MAX_DELAY else doubled
  }

  lemma {:induction false} PowerPositive(n: nat)
    ensures Power(n) >= 1
  {
    if n > 0 {
      PowerPositive(n - 1);
    }
  }

  lemma {:induction false} Doubling(d: nat, n: nat)
    requires n > 0
    ensures d * Power(n) == (2 * d) * Power(n - 1) >= 2 * d
  {
    PowerPositive(n - 1);
  }

  lemma {:induction false} BackoffStep(d: nat, n: nat)
    requires n > 0 && d <= MAX_DELAY
    ensures Backoff(NextDelay(d, BASE_DELAY, MAX_DELAY), n - 1) == Backoff(d, n)
  {
    Doubling(d, n);
    if n > 1 {
      PowerPositive(n - 1);
      Doubling(MAX_DELAY, n - 1);
    }
  }

  /** Every login of these rounds fails. */
  ghost predicate LoginsFail(rounds: seq<Round>) {
    rounds == [] || (!rounds[0].cancelled && rounds[0].online && !rounds[0].authenticated && LoginsFail(rounds[1..]))
  }

  /**
   Failed logins in a row double the delay up to 30 seconds, from whatever delay
   they start: 1, 2, 4, 8, 16, 30 at the beginning, 2, 4, 8, 16, 30 after a lost
   connection, 10, 20, 30 after an offline pause.
   */
  lemma {:induction false} BackoffIsCapped(s: Loop, rounds: seq<Round>)
    requires LoginsFail(rounds) && s.delay <= MAX_DELAY
    ensures Turns(s, rounds).delay == Backoff(s.delay, |rounds|)
    decreases rounds
  {
    if rounds != [] {
      BackoffStep(s.delay, |rounds|);
      BackoffIsCapped(Turn(s, rounds[0]).0, rounds[1..]);
    }
  }

  /** At the beginning: no delay, then 1, 2, 4, 8, 16 seconds, then 30. */
  lemma {:induction false} FirstDelays(s0: Store, rounds: seq<Round>)
    requires LoginsFail(rounds)
    ensures var d, n := Turns(Initial(s0), rounds).delay, |rounds|;
      d == if n == 0 then 0 else if n == 1 then 1 else if n == 2 then 2 else if n == 3 then 4 else if n == 4 then 8 else if n == 5 then 16 else 30
  {
    BackoffIsCapped(Initial(s0), rounds);
    FirstPowers(|rounds|);
  }

  lemma {:induction false} FirstPowers(n: nat)
    ensures Power(0) == 1 && Power(1) == 2 && Power(2) == 4 && Power(3) == 8 && Power(4) == 16
    ensures n > 5 ==> Power(n - 1) >= 32
  {
    if n > 6 {
      FirstPowers(n - 1);
    } else {
      assert Power(5) == 2 * Power(4);
    }
  }

  /** No wait is longer than the cap. */
  lemma {:induction false} DelayBounded(s: Loop, rounds: seq<Round>)
    requires s.delay <= MAX_DELAY
    ensures Turns(s, rounds).delay <= 30
    decreases rounds
  {
    if rounds != [] && !Turn(s, rounds[0]).1 {
      DelayBounded(Turn(s, rounds[0]).0, rounds[1..]);
    }
  }

  // ----- the loop -----

  /** Run Apply on the tables; true if it returned nil. */
  method ApplyRules(store: Store, r: Round) returns (left: Store, ok: bool)
    ensures left == Applied(store, r).store && ok == ApplySucceeds(store, r)
  {
    var tables := new Tables(r.env, store);
    var fatal := tables.Apply(r.cfg, r.bypass);
    left := tables.store;
    ok := |fatal| == 0;
  }

  method CleanRules(store: Store, cfg: Config, env: Env) returns (left: Store)
    ensures left == RunCall(cfg, store, CleanupCall(env))
  {
    var tables := new Tables(env, store);
    tables.Cleanup(cfg);
    left := tables.store;
  }

  /** Wait for the client to die, polling its health; true if the loop goes on. */
  method Wait(ticks: seq<nat>, ending: Ending) returns (goesOn: bool)
    ensures goesOn == GoesOn(ticks, ending)
    ensures goesOn <==> ending == ClientDied || exists i :: 0 <= i < |ticks| && ticks[i] >= 5
  {
    GoesOnMeans(ticks, ending);
    for i := 0 to |ticks|
      invariant GoesOn(ticks, ending) == GoesOn(ticks[i..], ending)
    {
      assert ticks[i..][1..] == ticks[i + 1..];
      if ticks[i] >= 5 {
        return true;
      }
    }
    return ending.ClientDied?;
  }

  class Engine {
    var run: Loop   // the variables of tunnelLoop and what it publishes

    constructor (store: Store)
      ensures run == Initial(store)
    {
      run := Initial(store);
    }

    method StartOnce(r: Round)
      modifies this
      ensures run == BringUp(old(run), r.transparent, Applied(old(run.tables), r))
    {
      if !run.listeners {
        run := run.(listeners := true, starts := run.starts + 1);
        if r.transparent {
          var left, ok := ApplyRules(run.tables, r);
          run := run.(tables := left, applies := run.applies + 1, rulesUp := ok);
        }
      }
    }

    /** One turn of the loop; true if the loop returns. */
    method Once(r: Round) returns (done: bool)
      modifies this
      ensures (run, done) == Turn(old(run), r)
    {
      if r.cancelled {
        return true;
      }
      if !r.online {
        run := run.(status := Paused, delay := OFFLINE_DELAY);
        return false;
      }
      if !r.authenticated {
        run := run.(status := RetryBackoff, delay := NextDelay(run.delay, BASE_DELAY, MAX_DELAY));
        return false;
      }
      run := run.(delay := BASE_DELAY, client := Some(run.nextClient), nextClient := run.nextClient + 1, status := Connected);
      StartOnce(r);
      var goesOn := Wait(r.transportErrors, r.ending);
      run := run.(client := None);
      if goesOn {
        run := run.(status := Reconnecting, delay := BASE_DELAY);
      }
      return !goesOn;
    }

    /** The deferred teardown: cancel the listeners, clean the rules if Apply succeeded, drop the client. */
    method TearDown(cfg: Config, env: Env)
      modifies this
      ensures run == Teardown(old(run), cfg, env)
    {
      run := run.(listeners := false);
      if run.rulesUp {
        var left := CleanRules(run.tables, cfg, env);
        run := run.(tables := left, rulesUp := false, cleanups := run.cleanups + 1);
      }
      run := run.(client := None);
    }

    /** tunnelLoop, up to its return or the end of the script, and the deferred teardown. */
    method Tunnel(rounds: seq<Round>, cfg: Config, env: Env)
      modifies this
      ensures run == Teardown(Turns(old(run), rounds), cfg, env)
    {
      var i := 0;
      assert rounds[0..] == rounds;
      while i < |rounds|
        invariant 0 <= i <= |rounds|
        invariant Turns(old(run), rounds) == Turns(run, rounds[i..])
      {
        var done := Once(rounds[i]);
        if done {
          break;
        }
        i := i + 1;
      }
      assert run == Turns(old(run), rounds);
      TearDown(cfg, env);
    }
  }
}

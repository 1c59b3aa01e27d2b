/**
 The cache of resolved hosts: bounded, oldest out, entries of a host evicted by
 the end of their key. Every operation holds the mutex, so every interleaving is
 a sequence of operations, and the clock is read under it. Times are in nanoseconds.
 */
module HostCache {
  import opened Common

  datatype Entry = Entry(ips: seq<string>, via: string, expires: int)

  type Entries = map<string, Entry>

  const CAPACITY: nat := 2000
  const TTL: int := 300_000_000_000

  // ----- keys -----

  function Key(mode: string, servers: string, host: string): string {
    mode + "|" + servers + "|" + host
  }

  function HostOf(given: string): string {
    Lower(TrimSpace(given))
  }

  predicate EndsWith(s: string, tail: string) {
    |tail| <= |s| && s[|s| - |tail|..] == tail
  }

  /** The text behind the last bar. */
  function Last(host: string): string {
    if host == "" then "" else if '|' in host then Last(host[1..]) else host
  }

  // ----- the operations -----

  /** An entry that none expires before. */
  predicate Oldest(m: Entries, k: string) {
    k in m && forall x :: x in m ==> m[k].expires <= m[x].expires
  }

  /** What `cache` may leave: some oldest entry goes if the cache is full, whether or not the key is new. */
  ghost predicate Inserted(m: Entries, key: string, e: Entry, m': Entries) {
    if |m| < CAPACITY then m' == m[key := e]
    else exists v :: Oldest(m, v) && m' == (m - {v})[key := e]
  }

  function Evicted(m: Entries, host: string): Entries {
    if host == "" then m else map k | k in m && !EndsWith(k, "|" + host) :: m[k]
  }

  function Hit(m: Entries, key: string, now: int): Option<Entry> {
    if key in m && now < m[key].expires then Some(m[key]) else None
  }

  // ----- eviction by host -----

  lemma {:induction false} LastBar(host: string)
    ensures '|' !in Last(host)
    ensures '|' !in host ==> Last(host) == host
    ensures '|' in host ==> EndsWith(host, "|" + Last(host))
  {
    if '|' in host {
      var t := host[1..];
      LastBar(t);
      if '|' in t {
        var tail := "|" + Last(t);
        assert host[|host| - |tail|..] == t[|t| - |tail|..];
      } else {
        assert host[0] == '|';
        assert host == "|" + t;
      }
    }
  }

  lemma {:induction false} NotLonger(s: string, a: string, b: string)
    requires EndsWith(s, "|" + a) && EndsWith(s, "|" + b) && '|' !in a
    ensures |a| <= |b|
  {
    BarAt(s, a);
    BarAt(s, b);
    forall y | |s| - |a| <= y < |s| ensures s[y] != '|' {
      assert s[y] == a[y - (|s| - |a|)];
    }
  }

  lemma {:induction false} SameTail(s: string, a: string, b: string)
    requires EndsWith(s, "|" + a) && EndsWith(s, "|" + b) && '|' !in a && '|' !in b
    ensures a == b
  {
    NotLonger(s, a, b);
    NotLonger(s, b, a);
    BarAt(s, a);
    BarAt(s, b);
  }

  lemma {:induction false} BarAt(s: string, a: string)
    requires EndsWith(s, "|" + a)
    ensures |s| > |a| && s[|s| - |a| - 1] == '|' && s[|s| - |a|..] == a
  {
    var n := |s| - |a| - 1;
    assert s[n..][0] == '|' && s[n..][1..] == a;
    assert s[n..][1..] == s[n + 1..];
  }

  /** A host without a bar matches a key exactly if it is what stands behind the last bar of the key's host. */
  lemma {:induction false} KeyMatches(mode: string, servers: string, host: string, evicted: string)
    requires '|' !in evicted
    ensures EndsWith(Key(mode, servers, host), "|" + evicted) <==> evicted == Last(host)
  {
    var k := Key(mode, servers, host);
    LastBar(host);
    assert k == (mode + "|" + servers) + ("|" + host);
    var tail := "|" + Last(host);
    if '|' in host {
      assert k == (mode + "|" + servers + "|") + host;
    } else {
      assert EndsWith("|" + host, tail);
    }
    if EndsWith(k, "|" + evicted) {
      SameTail(k, evicted, Last(host));
    }
  }

  // ----- what the key tells apart -----

  /** Neither case nor white space around a host matters, and nothing else is forgotten of it. */
  lemma {:induction false} SameHost(given: string, x: string, other: string, y: string)
    requires Lower(given) == Lower(other) && forall c :: c in x || c in y ==> White(c)
    ensures HostOf(x + given + y) == HostOf(other)
  {
    TrimSpaceOver(x, given, y);
    LowerTrim(given);
    LowerTrim(other);
  }

  /** A host is trimmed and in lower case, letter by letter. */
  lemma {:induction false} HostMeans(given: string) returns (x: string, t: string, y: string)
    ensures given == x + t + y && (forall c :: c in x || c in y ==> White(c)) && (t != "" ==> !White(t[0]) && !White(t[|t| - 1]))
    ensures |HostOf(given)| == |t|
    ensures forall i :: 0 <= i < |t| && 'A' <= t[i] <= 'Z' ==> HostOf(given)[i] as int == t[i] as int + 32
    ensures forall i :: 0 <= i < |t| && !('A' <= t[i] <= 'Z') ==> HostOf(given)[i] == t[i]
  {
    x, y := TrimSpaceMeans(given);
    t := TrimSpace(given);
    LowerMeans(t);
  }

  /** Server lists and hosts without a bar: another mode, another list or another host gives another key. */
  lemma {:induction false} KeyTells(mode: string, servers: string, host: string, mode': string, servers': string, host': string)
    requires '|' !in servers && '|' !in servers' && (host == host' || ('|' !in host && '|' !in host'))
    ensures Key(mode, servers, host) == Key(mode', servers', host') <==> mode == mode' && servers == servers' && host == host'
  {
    if Key(mode, servers, host) == Key(mode', servers', host') {
      Split(mode + "|" + servers, host, mode' + "|" + servers', host');
      Split(mode, servers, mode', servers');
    }
  }

  /** A bar before text without bars is found again. */
  lemma {:induction false} Split(a: string, b: string, a': string, b': string)
    requires a + "|" + b == a' + "|" + b' && (b == b' || ('|' !in b && '|' !in b'))
    ensures a == a' && b == b'
  {
    var s := a + "|" + b;
    assert s[|a|..] == "|" + b && s[|a'|..] == "|" + b';
    if b != b' {
      SameTail(s, b, b');
    }
    assert s[..|a|] == a && s[..|a'|] == a';
  }

  ghost predicate BuiltFor(key: string, host: string) {
    exists mode, servers :: key == Key(mode, servers, host)
  }

  /** Every key was built by cacheKey for a host without a bar. */
  ghost predicate Plain(m: Entries) {
    forall k :: k in m ==> exists host :: '|' !in host && BuiltFor(k, host)
  }

  /**
   Eviction is exact: of a cache of hosts without a bar it removes the entries
   whose key was built for that host, under every mode and server list, and no other.
   */
  lemma {:induction false} EvictionExact(m: Entries, host: string, k: string)
    requires Plain(m) && host != "" && '|' !in host && k in m
    ensures k in Evicted(m, host) <==> !BuiltFor(k, host)
    ensures k in Evicted(m, host) ==> Evicted(m, host)[k] == m[k]
    ensures Evicted(m, host).Keys <= m.Keys
  {
    var h :| '|' !in h && BuiltFor(k, h);
    var mode, servers :| k == Key(mode, servers, h);
    KeyMatches(mode, servers, h, host);
    LastBar(h);
    if BuiltFor(k, host) {
      var mode', servers' :| k == Key(mode', servers', host);
      KeyMatches(mode', servers', host, host);
      LastBar(host);
    }
  }

  /** A host with a bar is evicted along with the host behind its bar, and evicting it can miss nothing of its own. */
  lemma {:induction false} BarredHostEvicted(mode: string, servers: string, a: string, b: string)
    requires '|' !in b
    ensures EndsWith(Key(mode, servers, a + "|" + b), "|" + b) && a + "|" + b != b
    ensures EndsWith(Key(mode, servers, b), "|" + (servers + "|" + b))
    ensures servers + "|" + b != b
  {
    var h := a + "|" + b;
    assert EndsWith(h, "|" + b);
    assert Key(mode, servers, h) == (mode + "|" + servers + "|") + h;
    assert Key(mode, servers, b) == mode + ("|" + (servers + "|" + b));
    assert |h| > |b|;
  }

  // ----- an expiring map without bound, and runs -----

  datatype Op = Put(key: string, ips: seq<string>, via: string, now: int) | Evict(host: string)

  function Stamped(op: Op): Entry
    requires op.Put?
  {
    Entry(op.ips, op.via, op.now + TTL)
  }

  ghost predicate Step(m: Entries, op: Op, m': Entries) {
    match op
    case Put(key, _, _, _) => Inserted(m, key, Stamped(op), m')
    case Evict(host) => m' == Evicted(m, HostOf(host))
  }

  ghost predicate StepAt(states: seq<Entries>, ops: seq<Op>, i: nat)
    requires i < |ops| && |states| == |ops| + 1
  {
    Step(states[i], ops[i], states[i + 1])
  }

  /** The states of the cache along a run. */
  ghost predicate Run(states: seq<Entries>, ops: seq<Op>) {
    |states| == |ops| + 1 && states[0] == map[] && forall i :: 0 <= i < |ops| ==> StepAt(states, ops, i)
  }

  function RefStep(r: Entries, op: Op): Entries {
    match op
    case Put(key, _, _, _) => r[key := Stamped(op)]
    case Evict(host) => Evicted(r, HostOf(host))
  }

  /** The reference: what was put last and not evicted since. */
  function Reference(ops: seq<Op>): Entries {
    if ops == [] then map[] else RefStep(Reference(ops[..|ops| - 1]), ops[|ops| - 1])
  }

  /** The clock does not run backwards and has not passed `now`. */
  ghost predicate Clocked(ops: seq<Op>, now: int) {
    && (forall i :: 0 <= i < |ops| && ops[i].Put? ==> ops[i].now <= now)
    && (forall i, j :: 0 <= i < j < |ops| && ops[i].Put? && ops[j].Put? ==> ops[i].now <= ops[j].now)
  }

  ghost predicate Refines(m: Entries, r: Entries) {
    && |m| <= CAPACITY
    && (forall k :: k in m ==> k in r && m[k] == r[k])
    && (forall k, x :: k in r && k !in m && x in m ==> r[k].expires <= m[x].expires)
  }

  /** Adding an entry that expires last keeps the refinement. */
  lemma {:induction false} AddRefines(m: Entries, r: Entries, key: string, e: Entry)
    requires Refines(m, r) && |m| < CAPACITY
    requires forall k :: k in r ==> r[k].expires <= e.expires
    ensures Refines(m[key := e], r[key := e])
  {
    var m', r' := m[key := e], r[key := e];
    assert m'.Keys == m.Keys + {key};
    forall k, x | k in r' && k !in m' && x in m' ensures r'[k].expires <= m'[x].expires {
      assert k in r && k !in m;
    }
  }

  lemma {:induction false} InsertRefines(m: Entries, r: Entries, key: string, e: Entry, m': Entries)
    requires Refines(m, r) && Inserted(m, key, e, m')
    requires forall k :: k in r ==> r[k].expires <= e.expires
    ensures Refines(m', r[key := e])
  {
    if |m| >= CAPACITY {
      var v :| Oldest(m, v) && m' == (m - {v})[key := e];
      AddRefines(m - {v}, r, key, e);
    } else {
      AddRefines(m, r, key, e);
    }
  }

  lemma {:induction false} EvictRefines(m: Entries, r: Entries, host: string)
    requires Refines(m, r)
    ensures Refines(Evicted(m, host), Evicted(r, host))
  {
    SubsetCount(Evicted(m, host).Keys, m.Keys);
  }

  lemma {:induction false} ReferenceStamps(ops: seq<Op>, now: int)
    requires forall i :: 0 <= i < |ops| && ops[i].Put? ==> ops[i].now <= now
    ensures forall k :: k in Reference(ops) ==> Reference(ops)[k].expires <= now + TTL
  {
    if ops != [] {
      ReferenceStamps(ops[..|ops| - 1], now);
    }
  }

  lemma {:induction false} RunRefines(states: seq<Entries>, ops: seq<Op>, now: int, n: nat)
    requires Run(states, ops) && Clocked(ops, now) && n <= |ops|
    ensures Refines(states[n], Reference(ops[..n]))
  {
    if n > 0 {
      RunRefines(states, ops, now, n - 1);
      var op, r := ops[n - 1], Reference(ops[..n - 1]);
      assert ops[..n][..n - 1] == ops[..n - 1];
      assert StepAt(states, ops, n - 1);
      if op.Put? {
        ReferenceStamps(ops[..n - 1], op.now);
        InsertRefines(states[n - 1], r, op.key, Stamped(op), states[n]);
      } else {
        EvictRefines(states[n - 1], r, HostOf(op.host));
      }
    }
  }

  /**
   Over every sequence of operations with a clock that does not run backwards:
   the cache stays within its capacity, a hit is a hit of the unbounded map, with
   the same value, and when a live entry is missing everything still cached
   expires no earlier, so only the oldest were ever given up.
   */
  lemma {:induction false} CacheRefines(states: seq<Entries>, ops: seq<Op>, now: int, key: string)
    requires Run(states, ops) && Clocked(ops, now)
    ensures var m, r := states[|ops|], Reference(ops);
      && |m| <= 2000
      && (Hit(m, key, now).Some? ==> Hit(r, key, now) == Hit(m, key, now))
      && (Hit(r, key, now).Some? && Hit(m, key, now).None? ==> forall x :: x in m ==> r[key].expires <= m[x].expires)
  {
    RunRefines(states, ops, now, |ops|);
    assert ops[..|ops|] == ops;
  }

  predicate Touches(op: Op, key: string) {
    match op
    case Put(k, _, _, _) => k == key
    case Evict(host) => HostOf(host) != "" && EndsWith(key, "|" + HostOf(host))
  }

  ghost predicate LastPut(ops: seq<Op>, key: string, i: int) {
    && 0 <= i < |ops| && ops[i].Put? && ops[i].key == key
    && forall j :: i < j < |ops| ==> !Touches(ops[j], key)
  }

  /** The unbounded map holds a key exactly if it was put and not evicted since, with the value put last. */
  lemma {:induction false} ReferenceIsLastPut(ops: seq<Op>, key: string)
    ensures key in Reference(ops) <==> exists i :: LastPut(ops, key, i)
    ensures forall i :: LastPut(ops, key, i) ==> key in Reference(ops) && Reference(ops)[key] == Stamped(ops[i])
  {
    if ops != [] {
      var n := |ops| - 1;
      var before, op := ops[..n], ops[n];
      ReferenceIsLastPut(before, key);
      if Touches(op, key) {
        assert op.Put? ==> LastPut(ops, key, n);
        assert forall i :: LastPut(ops, key, i) ==> i == n by { assert ops[n] == op; }
      } else {
        forall i ensures LastPut(before, key, i) <==> LastPut(ops, key, i) {
          assert LastPut(before, key, i) ==> ops[i] == before[i];
          assert forall j :: 0 <= j < n ==> before[j] == ops[j];
        }
      }
    }
  }

  /** A hit returns the value put last, within its five minutes. */
  lemma {:induction false} HitIsLastPut(states: seq<Entries>, ops: seq<Op>, now: int, key: string) returns (i: nat)
    requires Run(states, ops) && Clocked(ops, now) && Hit(states[|ops|], key, now).Some?
    ensures LastPut(ops, key, i)
    ensures Hit(states[|ops|], key, now) == Some(Entry(ops[i].ips, ops[i].via, ops[i].now + 300_000_000_000))
    ensures now < ops[i].now + 300_000_000_000
  {
    CacheRefines(states, ops, now, key);
    ReferenceIsLastPut(ops, key);
    i :| LastPut(ops, key, i);
  }

  // ----- nothing is given up too early -----

  function Puts(ops: seq<Op>): nat {
    if ops == [] then 0 else Puts(ops[..|ops| - 1]) + if ops[|ops| - 1].Put? then 1 else 0
  }

  /** The other keys that expire no earlier than `t`: the scan may prefer `key` to them. */
  function Newer(m: Entries, key: string, t: int): set<string> {
    set x | x in m && x != key && m[x].expires >= t
  }

  /** The other keys that were put before at the very same instant. */
  function Ties(ops: seq<Op>, i: nat): set<string>
    requires i < |ops| && ops[i].Put?
  {
    set j | 0 <= j < i && ops[j].Put? && ops[j].now == ops[i].now && ops[j].key != ops[i].key :: ops[j].key
  }

  /** The entry is there, and at most `later` others expire no earlier. */
  ghost predicate Kept(m: Entries, key: string, e: Entry, later: nat) {
    key in m && m[key] == e && |Newer(m, key, e.expires)| <= later
  }

  lemma {:induction false} ReferenceSource(ops: seq<Op>, x: string) returns (j: nat)
    requires x in Reference(ops)
    ensures j < |ops|
    ensures ops[j].Put?
    ensures ops[j].key == x
    ensures Reference(ops)[x] == Stamped(ops[j])
  {
    ReferenceIsLastPut(ops, x);
    j :| LastPut(ops, x, j);
  }

  /** Every cached entry comes from a put of the run so far. */
  lemma {:induction false} CachedSource(states: seq<Entries>, ops: seq<Op>, now: int, n: nat, x: string) returns (j: nat)
    requires Run(states, ops) && Clocked(ops, now) && n <= |ops| && x in states[n]
    ensures j < n && ops[j].Put? && ops[j].key == x && states[n][x] == Stamped(ops[j])
  {
    RunRefines(states, ops, now, n);
    j := ReferenceSource(ops[..n], x);
  }

  lemma {:induction false} PutKept(states: seq<Entries>, ops: seq<Op>, now: int, i: nat)
    requires Run(states, ops) && Clocked(ops, now) && i < |ops| && ops[i].Put?
    ensures Kept(states[i + 1], ops[i].key, Stamped(ops[i]), |Ties(ops, i)|)
  {
    var m, e := states[i + 1], Stamped(ops[i]);
    assert StepAt(states, ops, i);
    forall x | x in Newer(m, ops[i].key, e.expires) ensures x in Ties(ops, i) {
      var j := CachedSource(states, ops, now, i + 1, x);
      assert j != i && ops[j].now == ops[i].now;
    }
    SubsetCount(Newer(m, ops[i].key, e.expires), Ties(ops, i));
  }

  lemma {:induction false} EvictKept(m: Entries, host: string, key: string, e: Entry, later: nat)
    requires Kept(m, key, e, later) && (host == "" || !EndsWith(key, "|" + host))
    ensures Kept(Evicted(m, host), key, e, later)
  {
    SubsetCount(Newer(Evicted(m, host), key, e.expires), Newer(m, key, e.expires));
  }

  /** Another put keeps the entry, or gives it up when nothing else is older. */
  lemma {:induction false} InsertKept(m: Entries, k: string, f: Entry, m': Entries, key: string, e: Entry, later: nat)
    requires Kept(m, key, e, later) && Inserted(m, k, f, m') && k != key
    ensures Kept(m', key, e, later + 1) || later + 1 >= CAPACITY
  {
    if |m| >= CAPACITY && key !in m' {
      assert Oldest(m, key);
      assert m.Keys == Newer(m, key, e.expires) + {key};
    } else {
      assert Newer(m', key, e.expires) <= Newer(m, key, e.expires) + {k};
      SubsetCount(Newer(m', key, e.expires), Newer(m, key, e.expires) + {k});
    }
  }

  function One(op: Op): nat {
    if op.Put? then 1 else 0
  }

  lemma {:induction false} PutsNext(ops: seq<Op>, a: nat, n: nat)
    requires a < n <= |ops|
    ensures Puts(ops[a..n]) == Puts(ops[a..n - 1]) + One(ops[n - 1])
  {
    assert ops[a..n][..n - 1 - a] == ops[a..n - 1];
  }

  /** What `put` stored is still there with at most `later` others that expire no earlier, or has been crowded out. */
  ghost predicate Survives(m: Entries, put: Op, later: nat)
    requires put.Put?
  {
    Kept(m, put.key, Stamped(put), later) || later >= CAPACITY
  }

  lemma {:induction false} StepSurvives(m: Entries, op: Op, m': Entries, put: Op, later: nat)
    requires put.Put? && Survives(m, put, later) && Step(m, op, m') && !Touches(op, put.key)
    ensures Survives(m', put, later + One(op))
  {
    if later < CAPACITY {
      match op {
        case Put(k, _, _, _) => InsertKept(m, k, Stamped(op), m', put.key, Stamped(put), later);
        case Evict(host) => EvictKept(m, HostOf(host), put.key, Stamped(put), later);
      }
    }
  }

  lemma {:induction false} KeptSoFar(states: seq<Entries>, ops: seq<Op>, now: int, i: nat, n: nat)
    requires Run(states, ops) && Clocked(ops, now) && i < n <= |ops|
    requires ops[i].Put? && LastPut(ops, ops[i].key, i)
    ensures Survives(states[n], ops[i], |Ties(ops, i)| + Puts(ops[i + 1..n]))
    decreases n
  {
    if n == i + 1 {
      PutKept(states, ops, now, i);
    } else {
      KeptSoFar(states, ops, now, i, n - 1);
      PutsNext(ops, i + 1, n);
      assert StepAt(states, ops, n - 1);
      assert !Touches(ops[n - 1], ops[i].key);
      StepSurvives(states[n - 1], ops[n - 1], states[n], ops[i], |Ties(ops, i)| + Puts(ops[i + 1..n - 1]));
    }
  }

  /**
   Nothing is given up too early: the last value put for a key is a hit until it
   expires, or 2000 others were put after it or before it at the same instant.
   */
  lemma {:induction false} LivesUntilCrowdedOut(states: seq<Entries>, ops: seq<Op>, now: int, i: nat)
    requires Run(states, ops) && Clocked(ops, now) && i < |ops|
    requires ops[i].Put? && LastPut(ops, ops[i].key, i)
    requires now < ops[i].now + 300_000_000_000 && |Ties(ops, i)| + Puts(ops[i + 1..]) < 2000
    ensures Hit(states[|ops|], ops[i].key, now) == Some(Entry(ops[i].ips, ops[i].via, ops[i].now + 300_000_000_000))
  {
    KeptSoFar(states, ops, now, i, |ops|);
    assert ops[i + 1..|ops|] == ops[i + 1..];
  }

  // ----- the cache -----

  class Cache {
    var entries: Entries

    constructor ()
      ensures entries == map[]
    {
      entries := map[];
    }

    /** The cache lookup of ResolveHost. */
    method Lookup(mode: string, servers: string, given: string, now: int) returns (e: Option<Entry>)
      ensures e == Hit(entries, Key(mode, servers, HostOf(given)), now)
    {
      var key := Key(mode, servers, HostOf(given));
      if key in entries && now < entries[key].expires {
        return Some(entries[key]);
      }
      e := None;
    }

    /** The key that the scan of a full cache settles on, in whatever order the map is walked. */
    method Scan() returns (oldestKey: string)
      requires "" !in entries && entries != map[]
      ensures Oldest(entries, oldestKey)
    {
      oldestKey := "";
      var oldestTime := 0;
      var left := entries.Keys;
      while left != {}
        invariant left <= entries.Keys
        invariant oldestKey == "" ==> left == entries.Keys
        invariant oldestKey != "" ==> oldestKey in entries && oldestTime == entries[oldestKey].expires
        invariant oldestKey != "" ==> forall x :: x in entries && x !in left ==> oldestTime <= entries[x].expires
        decreases left
      {
        var k :| k in left;
        if oldestKey == "" || entries[k].expires < oldestTime {
          oldestKey, oldestTime := k, entries[k].expires;
        }
        left := left - {k};
      }
      assert entries.Keys != {};
    }

    /** `cache`, with a key from cacheKey, which is never empty. */
    method Insert(key: string, ips: seq<string>, via: string, now: int)
      requires "" !in entries && key != ""
      modifies this
      ensures Step(old(entries), Put(key, ips, via, now), entries)
      ensures "" !in entries
    {
      if |entries| >= CAPACITY {
        var oldestKey := Scan();
        entries := entries - {oldestKey};
      }
      entries := entries[key := Entry(ips, via, now + TTL)];
    }

    method EvictHost(given: string)
      modifies this
      ensures Step(old(entries), Evict(given), entries)
      ensures entries.Keys <= old(entries).Keys
    {
      var host := HostOf(given);
      if host == "" {
        return;
      }
      var left := entries.Keys;
      while left != {}
        invariant left <= entries.Keys <= old(entries).Keys
        invariant forall k :: k in entries ==> entries[k] == old(entries)[k]
        invariant forall k :: k in old(entries) && k !in left ==> (k in entries <==> !EndsWith(k, "|" + host))
        invariant forall k :: k in left ==> k in entries
        decreases left
      {
        var key :| key in left;
        if EndsWith(key, "|" + host) {
          entries := entries - {key};
        }
        left := left - {key};
      }
      assert entries == Evicted(old(entries), host);
    }
  }
}

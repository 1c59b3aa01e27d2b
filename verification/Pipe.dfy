/**
 Copying between two connections: writeAll over short writes, one pump, and the
 pair of pumps with their channels, interleaved with the main loop of pipeBoth.
 One of the two connections is always a channel of the SSH connection. Closing it
 does not make its reads and writes fail at once: they depend on its peer.
 */
module Pipe {
  import opened Common
  import opened Probe

  // ----- writeAll -----

  /** One Write: how many bytes it may take and whether it returns an error. */
  datatype WriteEvent = WriteEvent(takes: nat, fails: bool)

  /** `out` is all that was delivered; a sink whose events are used up fails. */
  datatype Sink = Sink(out: string, events: seq<WriteEvent>)

  datatype Wrote = Wrote(total: nat, ok: bool, sink: Sink)

  function WriteOnce(k: Sink, b: string): (r: Wrote)
    ensures r.total <= |b|
  {
    if k.events == [] then Wrote(0, false, k)
    else
      var n := Least(k.events[0].takes, |b|);
      Wrote(n, !k.events[0].fails, Sink(k.out + b[..n], k.events[1..]))
  }

  function WriteAll(k: Sink, b: string): Wrote
    decreases |k.events|
  {
    if b == "" then Wrote(0, true, k)
    else
      var w := WriteOnce(k, b);
      if !w.ok || w.total == 0 then w.(ok := false)
      else
        var more := WriteAll(w.sink, b[w.total..]);
        more.(total := w.total + more.total)
  }

  /** What is delivered is the part it counts, all of it unless an error is returned. */
  lemma {:induction false} WriteAllDelivers(k: Sink, b: string)
    ensures var w := WriteAll(k, b); w.total <= |b| && w.sink.out == k.out + b[..w.total] && (w.ok ==> w.total == |b|)
    decreases |k.events|
  {
    if b != "" {
      var w := WriteOnce(k, b);
      if w.ok && w.total != 0 {
        var rest := b[w.total..];
        WriteAllDelivers(w.sink, rest);
        var m := WriteAll(w.sink, rest).total;
        assert b[..w.total] + rest[..m] == b[..w.total + m];
        Assoc(k.out, b[..w.total], rest[..m]);
      }
    }
  }

  /** What the first `n` writes take together. */
  function Sum(events: seq<WriteEvent>, n: nat): nat
    requires n <= |events|
  {
    if n == 0 then 0 else Sum(events, n - 1) + events[n - 1].takes
  }

  /** The first `n` writes neither fail nor take nothing. */
  ghost predicate Good(events: seq<WriteEvent>, n: nat)
    requires n <= |events|
  {
    forall i :: 0 <= i < n ==> !events[i].fails && events[i].takes > 0
  }

  lemma {:induction false} SumRest(events: seq<WriteEvent>, n: nat)
    requires 0 < n <= |events|
    ensures Sum(events, n) == events[0].takes + Sum(events[1..], n - 1)
    decreases n
  {
    if n > 1 {
      SumRest(events, n - 1);
    } else {
      assert Sum(events, 0) == 0;
    }
  }

  lemma {:induction false} GoodRest(events: seq<WriteEvent>, n: nat)
    requires 0 < n <= |events|
    ensures Good(events, n) <==> !events[0].fails && events[0].takes > 0 && Good(events[1..], n - 1)
  {
    if !events[0].fails && events[0].takes > 0 && Good(events[1..], n - 1) {
      forall i | 0 <= i < n ensures !events[i].fails && events[i].takes > 0 {
        assert i > 0 ==> events[i] == events[1..][i - 1];
      }
    }
    if Good(events, n) {
      forall i | 0 <= i < n - 1 ensures !events[1..][i].fails && events[1..][i].takes > 0 {
        assert events[1..][i] == events[i + 1];
      }
    }
  }

  /** `w` is what `n` writes make of sending `b`. */
  ghost predicate Explains(k: Sink, b: string, w: Wrote, n: nat) {
    && n <= |k.events| && w.sink.events == k.events[n..]
    && (w.ok ==> Good(k.events, n) && Sum(k.events, n) >= |b| && w.total == |b| && (n > 0 ==> Sum(k.events, n - 1) < |b|))
    && (!w.ok && n > 0 && !Good(k.events, n) ==> Good(k.events, n - 1) && Sum(k.events, n - 1) < |b| && w.total == Least(Sum(k.events, n), |b|))
    && (!w.ok && Good(k.events, n) ==> n == |k.events| && w.total == Sum(k.events, n) < |b|)
  }

  /** A good write that leaves something to send, before `m` more. */
  lemma {:induction false} OneMoreWrite(k: Sink, b: string, rest: string, first: nat, more: Wrote, k1: Sink, m: nat)
    requires k.events != [] && !k.events[0].fails && 0 < first == Least(k.events[0].takes, |b|) && rest == b[first..] && k1.events == k.events[1..]
    requires Explains(k1, rest, more, m) && (rest == "" ==> m == 0)
    ensures Explains(k, b, more.(total := first + more.total), m + 1)
  {
    var n := m + 1;
    SumRest(k.events, n);
    GoodRest(k.events, n);
    if m > 0 {
      SumRest(k.events, m);
      GoodRest(k.events, m);
    }
    assert k.events[1..][m..] == k.events[n..];
  }

  /**
   writeAll goes on over short writes: it succeeds as soon as the writes that it makes
   have taken everything, if none of them fails or takes nothing, and else it counts
   what was taken up to and with the first bad write, or by all of them.
   */
  lemma {:induction false} WriteAllMeans(k: Sink, b: string) returns (n: nat)
    ensures Explains(k, b, WriteAll(k, b), n) && (b == "" ==> n == 0)
    decreases |k.events|
  {
    n := 0;
    if b != "" && k.events != [] {
      var w := WriteOnce(k, b);
      n := 1;
      assert Sum(k.events, 1) == Sum(k.events, 0) + k.events[0].takes;
      if w.ok && w.total != 0 {
        var m := WriteAllMeans(w.sink, b[w.total..]);
        n := m + 1;
        OneMoreWrite(k, b, b[w.total..], w.total, WriteAll(w.sink, b[w.total..]), w.sink, m);
      }
    }
  }

  /** Exactly when it succeeds. */
  lemma {:induction false} WriteAllSucceeds(k: Sink, b: string)
    ensures WriteAll(k, b).ok <==> exists n :: 0 <= n <= |k.events| && Good(k.events, n) && Sum(k.events, n) >= |b|
  {
    var m := WriteAllMeans(k, b);
    if n :| 0 <= n <= |k.events| && Good(k.events, n) && Sum(k.events, n) >= |b| && !WriteAll(k, b).ok {
      if Good(k.events, m) {
        SumGrows(k.events, n, m);
      } else if n < m {
        SumGrows(k.events, n, m - 1);
      }
    }
  }

  lemma {:induction false} SumGrows(events: seq<WriteEvent>, m: nat, n: nat)
    requires m <= n <= |events|
    ensures Sum(events, m) <= Sum(events, n)
    decreases n
  {
    if m < n {
      SumGrows(events, m, n - 1);
    }
  }

  // ----- one pump -----

  datatype Pumped = Pumped(wire: Wire, sink: Sink, clean: bool)

  /** Copy until a read or a write fails; `clean` if it was the read. */
  function Pump(w: Wire, k: Sink, cap: nat): Pumped
    decreases |w.events|
  {
    var g := Take(w, cap);
    var sent := if g.data == "" then Wrote(0, true, k) else WriteAll(k, g.data);
    if !sent.ok then Pumped(g.wire, sent.sink, false)
    else if !g.fault.Fine? then Pumped(g.wire, sent.sink, true)
    else Pump(g.wire, sent.sink, cap)
  }

  /** How a pump splits what it read: what it delivered and what was lost in a failed write. */
  lemma {:induction false} PumpParts(w: Wire, k: Sink, cap: nat) returns (sent: string, lost: string)
    ensures var p := Pump(w, k, cap);
      && p.sink.out == k.out + sent && w.rest == sent + (lost + p.wire.rest)
      && |lost| <= cap && (p.clean ==> lost == "")
    decreases |w.events|
  {
    var g := Take(w, cap);
    assert w.rest == g.data + g.wire.rest;
    var put := if g.data == "" then Wrote(0, true, k) else WriteAll(k, g.data);
    WriteAllDelivers(k, g.data);
    sent, lost := g.data[..put.total], g.data[put.total..];
    if put.ok && g.fault.Fine? {
      assert sent == g.data;
      var more;
      more, lost := PumpParts(g.wire, put.sink, cap);
      Assoc(k.out, sent, more);
      Assoc(sent, more, lost + Pump(w, k, cap).wire.rest);
      sent := sent + more;
    } else {
      Assoc(sent, lost, g.wire.rest);
      assert g.data == sent + lost;
    }
  }

  /**
   Whatever the reads and writes do, the bytes delivered are a prefix of the
   bytes read: all of them if the pump ended on the read side, and else all but
   part of the last buffer.
   */
  lemma {:induction false} PumpIntegrity(w: Wire, k: Sink, cap: nat)
    ensures var p := Pump(w, k, cap);
      && |p.wire.rest| <= |w.rest| && k.out <= p.sink.out
      && var read, sent := w.rest[..|w.rest| - |p.wire.rest|], p.sink.out[|k.out|..];
         sent <= read && |read| - |sent| <= cap && (p.clean ==> sent == read) && w.rest == read + p.wire.rest
  {
    var sent, lost := PumpParts(w, k, cap);
    Assoc(sent, lost, Pump(w, k, cap).wire.rest);
  }

  lemma {:induction false} WantedRest(events: seq<Event>, n: nat, cap: nat)
    requires 0 < n <= |events|
    ensures Wanted(events, n, cap) == Least(events[0].want, cap) + Wanted(events[1..], n - 1, cap)
    decreases n
  {
    if n > 1 {
      WantedRest(events, n - 1, cap);
    } else {
      assert Wanted(events, 0, cap) == 0;
    }
  }

  /** What `n` reads leave, all but the last of them without an error. */
  ghost predicate Reads(w: Wire, cap: nat, n: nat, left: Wire) {
    && n <= |w.events| && (forall i :: 0 <= i < n - 1 ==> w.events[i].fault.Fine?)
    && left == Wire(w.rest[Least(Wanted(w.events, n, cap), |w.rest|)..], w.events[n..])
  }

  /** The last of them came with an end or an error, or the next one runs into the deadline. */
  ghost predicate Ended(w: Wire, n: nat)
    requires n <= |w.events|
  {
    (n > 0 && !w.events[n - 1].fault.Fine?) || n == |w.events|
  }

  lemma {:induction false} OneMoreRead(w: Wire, cap: nat, m: nat, left: Wire)
    requires w.events != [] && w.events[0].fault.Fine? && Reads(Take(w, cap).wire, cap, m, left)
    ensures Reads(w, cap, m + 1, left)
    ensures Ended(Take(w, cap).wire, m) ==> Ended(w, m + 1)
  {
    var g := Take(w, cap);
    LeftAfter(w.rest, w.events, cap, m, |g.data|);
    assert w.events[1..][m..] == w.events[m + 1..];
    forall i | 0 <= i < m ensures w.events[i].fault.Fine? {
      assert i > 0 ==> w.events[i] == g.wire.events[i - 1];
    }
  }

  lemma {:induction false} LeftAfter(rest: string, events: seq<Event>, cap: nat, m: nat, n: nat)
    requires m < |events| && n == Least(events[0].want, Least(cap, |rest|))
    ensures rest[n..][Least(Wanted(events[1..], m, cap), |rest| - n)..] == rest[Least(Wanted(events, m + 1, cap), |rest|)..]
  {
    WantedRest(events, m + 1, cap);
    SameLeast(events[0].want, cap, |rest|);
    RestOfRest(rest, Least(events[0].want, cap), Wanted(events[1..], m, cap));
  }

  lemma {:induction false} SameLeast(a: nat, b: nat, c: nat)
    ensures Least(a, Least(b, c)) == Least(Least(a, b), c)
  {
  }

  lemma {:induction false} RestOfRest(s: string, a: nat, b: nat)
    ensures s[Least(a, |s|)..][Least(b, |s| - Least(a, |s|))..] == s[Least(a + b, |s|)..]
  {
  }

  lemma {:induction false} OneRead(w: Wire, cap: nat)
    requires w.events != []
    ensures Reads(w, cap, 1, Take(w, cap).wire)
  {
    assert Wanted(w.events, 1, cap) == Wanted(w.events, 0, cap) + Least(w.events[0].want, cap);
  }

  /** A pump reads on until a read comes with an end or an error, and ends cleanly only there. */
  lemma {:induction false} PumpReads(w: Wire, k: Sink, cap: nat) returns (n: nat)
    ensures var p := Pump(w, k, cap); Reads(w, cap, n, p.wire) && (p.clean ==> Ended(w, n))
    decreases |w.events|
  {
    n := 0;
    if w.events == [] {
      assert w.rest[0..] == w.rest;
    } else {
      var g := Take(w, cap);
      var sent := if g.data == "" then Wrote(0, true, k) else WriteAll(k, g.data);
      n := 1;
      OneRead(w, cap);
      if sent.ok && g.fault.Fine? {
        var m := PumpReads(g.wire, sent.sink, cap);
        OneMoreRead(w, cap, m, Pump(w, k, cap).wire);
        n := m + 1;
      }
    }
  }

  /** A sink that takes every buffer at once, for so many buffers. */
  ghost predicate Takes(k: Sink, cap: nat, n: nat) {
    |k.events| >= n && forall i :: 0 <= i < n ==> !k.events[i].fails && k.events[i].takes >= cap
  }

  lemma {:induction false} TakesAll(k: Sink, cap: nat, n: nat, b: string)
    requires Takes(k, cap, n) && n > 0 && 0 < |b| <= cap
    ensures WriteAll(k, b).ok && WriteAll(k, b).sink == Sink(k.out + b, k.events[1..]) && Takes(WriteAll(k, b).sink, cap, n - 1)
  {
    var w := WriteOnce(k, b);
    assert w == Wrote(|b|, true, Sink(k.out + b, k.events[1..])) by { assert b[..|b|] == b; }
    assert b[|b|..] == "";
  }

  lemma {:induction false} PumpsClean(w: Wire, k: Sink, cap: nat)
    requires Takes(k, cap, |w.events|)
    ensures Pump(w, k, cap).clean
    decreases |w.events|
  {
    if w.events != [] {
      var g := Take(w, cap);
      if g.data != "" {
        TakesAll(k, cap, |w.events|, g.data);
        if g.fault.Fine? {
          PumpsClean(g.wire, WriteAll(k, g.data).sink, cap);
        }
      } else if g.fault.Fine? {
        PumpsClean(g.wire, k, cap);
      }
    }
  }

  /** Into a sink that takes everything, a pump delivers all that the reads bring up to the first end or error. */
  lemma {:induction false} PumpDelivers(w: Wire, k: Sink, cap: nat) returns (n: nat)
    requires Takes(k, cap, |w.events|)
    ensures n <= |w.events| && Ended(w, n) && forall i :: 0 <= i < n - 1 ==> w.events[i].fault.Fine?
    ensures Pump(w, k, cap).clean
    ensures Pump(w, k, cap).sink.out == k.out + w.rest[..Least(Wanted(w.events, n, cap), |w.rest|)]
  {
    n := PumpReads(w, k, cap);
    PumpsClean(w, k, cap);
    PumpIntegrity(w, k, cap);
    var p := Pump(w, k, cap);
    assert p.sink.out == k.out + p.sink.out[|k.out|..];
  }

  class SinkConn {
    var out: string
    var events: seq<WriteEvent>

    constructor (events: seq<WriteEvent>)
      ensures Now() == Sink("", events)
    {
      out, this.events := "", events;
    }

    function Now(): Sink
      reads this
    {
      Sink(out, events)
    }

    method Write(b: string) returns (n: nat, ok: bool)
      modifies this
      ensures Wrote(n, ok, Now()) == WriteOnce(old(Now()), b)
    {
      if events == [] {
        return 0, false;
      }
      n, ok := Least(events[0].takes, |b|), !events[0].fails;
      out, events := out + b[..n], events[1..];
    }
  }

  /** writeAll */
  method WriteAllTo(k: SinkConn, data: string) returns (total: nat, ok: bool)
    modifies k
    ensures Wrote(total, ok, k.Now()) == WriteAll(old(k.Now()), data)
  {
    var b := data;
    total := 0;
    while |b| > 0
      invariant var w := WriteAll(k.Now(), b); WriteAll(old(k.Now()), data) == w.(total := total + w.total)
      decreases |k.events|, |b|
    {
      ghost var before := k.Now();
      var n, fine := k.Write(b);
      if n > 0 {
        total, b := total + n, b[n..];
      }
      if !fine || n == 0 {
        return total, false;
      }
      assert before.events != [];
    }
    ok := true;
  }

  /** The pump goroutine up to its deferred signal. */
  method PumpTo(dst: SinkConn, src: Conn, cap: nat) returns (clean: bool)
    modifies dst, src
    ensures Pumped(src.Now(), dst.Now(), clean) == Pump(old(src.Now()), old(dst.Now()), cap)
  {
    while true
      invariant Pump(old(src.Now()), old(dst.Now()), cap) == Pump(src.Now(), dst.Now(), cap)
      decreases |src.events|
    {
      ghost var before := src.Now();
      var data, fault := src.Read(cap);
      if |data| > 0 {
        var _, ok := WriteAllTo(dst, data);
        if !ok {
          return false;
        }
      }
      if !fault.Fine? {
        return true;
      }
      assert before.events != [];
    }
  }

  // ----- both pumps and the main loop, interleaved -----

  /** `failed`: the read that brought the bytes also returned an error. */
  datatype Stage = Reading | Writing(left: string, failed: bool) | Ending(clean: bool) | Gone(clean: bool)

  datatype Side = Side(stage: Stage, source: string, consumed: string, delivered: string)

  datatype Main = Looping | Grace | Returned

  /** How the peer ended the channel: it may still be sending, have sent its last byte, or be gone. */
  datatype Peer = Sending | Finished | Left

  /** `b` of pipeBoth: the bytes that wait in its buffer, and how many the peer will take. */
  datatype Channel = Channel(buffered: nat, window: nat, peer: Peer)

  datatype Pair = Pair(sides: map<bool, Side>, done: nat, taken: nat, activity: nat, main: Main, ssh: Channel)

  const CAPACITY: nat := 2

  /** Side `false` copies from the TCP connection to the SSH channel, side `true` back. */
  function Start(a: string, b: string, window: nat): Pair {
    Pair(map[false := Side(Reading, a, "", ""), true := Side(Reading, b, "", "")], 0, 0, 0, Looping, Channel(0, window, Sending))
  }

  datatype Action =
    | ReadChunk(i: bool, n: nat, failed: bool)
    | WriteChunk(i: bool, n: nat, failed: bool)
    | Signal(i: bool)
    | SeeActivity
    | SeeDone
    | IdleTimeout
    | GraceOver
    | Arrive(n: nat)   // the peer's bytes come into the buffer
    | Adjust(n: nat)   // the peer takes more
    | PeerFinishes     // it sends no more
    | PeerLeaves       // it closes the channel, or the transport ends

  /** The main loop closes both connections before it returns. */
  predicate Closed(p: Pair) {
    p.main.Returned?
  }

  /**
   A read of the SSH channel returns what is buffered, closed or not, and waits
   while there is nothing, until the peer finishes or leaves.
   */
  predicate SshReads(p: Pair, n: nat, failed: bool) {
    if n > 0 then n <= p.ssh.buffered && (Closed(p) ==> !failed) else failed && p.ssh.buffered == 0 && !p.ssh.peer.Sending?
  }

  /** A write to it waits for window, until the peer leaves; closed, it then fails. One step is what one packet takes. */
  predicate SshWrites(p: Pair, n: nat, failed: bool) {
    if n > 0 then n <= p.ssh.window && !p.ssh.peer.Left? && !Closed(p) else failed && (p.ssh.window > 0 || p.ssh.peer.Left?)
  }

  /** A send on `done` waits while the channel is full; on a closed TCP connection every read and write fails at once. */
  predicate Enabled(p: Pair, a: Action)
    requires p.sides.Keys == {false, true}
  {
    match a
    case ReadChunk(i, n, failed) =>
      p.sides[i].stage.Reading? && n <= |p.sides[i].source| && if i then SshReads(p, n, failed) else Closed(p) ==> n == 0 && failed
    case WriteChunk(i, n, failed) =>
      p.sides[i].stage.Writing? && n <= |p.sides[i].stage.left| && if i then Closed(p) ==> n == 0 && failed else SshWrites(p, n, failed)
    case Signal(i) => p.sides[i].stage.Ending? && p.done < CAPACITY
    case SeeActivity => p.main.Looping? && p.activity > 0
    case SeeDone => (p.main.Looping? || p.main.Grace?) && p.done > 0
    case IdleTimeout => p.main.Looping?
    case GraceOver => p.main.Grace?
    case Arrive(n) => !p.ssh.peer.Left? && p.ssh.buffered + n <= |p.sides[true].source|
    case Adjust(_) => !p.ssh.peer.Left?
    case PeerFinishes => p.ssh.peer.Sending?
    case PeerLeaves => !p.ssh.peer.Left?
  }

  /** What a step of a pump takes from the buffer or the window of the channel. */
  function Used(c: Channel, a: Action): Channel {
    match a
    case ReadChunk(i, n, _) => if i && n <= c.buffered then c.(buffered := c.buffered - n) else c
    case WriteChunk(i, n, _) => if !i && n <= c.window then c.(window := c.window - n) else c
    case _ => c
  }

  function AfterRead(s: Side, n: nat, failed: bool): Side
    requires n <= |s.source|
  {
    Side(if n > 0 then Writing(s.source[..n], failed) else if failed then Ending(true) else Reading,
         s.source[n..], s.consumed + s.source[..n], s.delivered)
  }

  function AfterWrite(s: Side, n: nat, failed: bool): Side
    requires s.stage.Writing? && n <= |s.stage.left|
  {
    var left := s.stage.left[n..];
    s.(delivered := s.delivered + s.stage.left[..n],
       stage := if failed || n == 0 then Ending(false)
                else if left != "" then Writing(left, s.stage.failed)
                else if s.stage.failed then Ending(true) else Reading)
  }

  function Step(p: Pair, a: Action): Pair
    requires p.sides.Keys == {false, true} && Enabled(p, a)
  {
    match a
    case ReadChunk(i, n, failed) =>
      p.(sides := p.sides[i := AfterRead(p.sides[i], n, failed)], ssh := Used(p.ssh, a),
         activity := if n > 0 && p.activity < CAPACITY then p.activity + 1 else p.activity)
    case WriteChunk(i, n, failed) => p.(sides := p.sides[i := AfterWrite(p.sides[i], n, failed)], ssh := Used(p.ssh, a))
    case Signal(i) => p.(sides := p.sides[i := p.sides[i].(stage := Gone(p.sides[i].stage.clean))], done := p.done + 1)
    case SeeActivity => p.(activity := p.activity - 1)
    case SeeDone => p.(done := p.done - 1, taken := p.taken + 1, main := if p.main.Looping? then Grace else Returned)
    case IdleTimeout => p.(main := Returned)
    case GraceOver => p.(main := Returned)
    case Arrive(n) => p.(ssh := p.ssh.(buffered := p.ssh.buffered + n))
    case Adjust(n) => p.(ssh := p.ssh.(window := p.ssh.window + n))
    case PeerFinishes => p.(ssh := p.ssh.(peer := Finished))
    case PeerLeaves => p.(ssh := p.ssh.(peer := Left))
  }

  ghost predicate Run(p: Pair, actions: seq<Action>, p': Pair)
    requires p.sides.Keys == {false, true}
    decreases actions
  {
    if actions == [] then p == p'
    else Enabled(p, actions[0]) && Run(Step(p, actions[0]), actions[1..], p')
  }

  /** What was read is what was delivered and what is being written; `all` is what the source ever sends. */
  ghost predicate SideInv(s: Side, all: string) {
    && s.consumed + s.source == all
    && s.delivered <= s.consumed
    && (s.stage.Writing? ==> s.stage.left != "" && s.consumed == s.delivered + s.stage.left)
    && (s.stage.Reading? || ((s.stage.Ending? || s.stage.Gone?) && s.stage.clean) ==> s.delivered == s.consumed)
  }

  function Signalled(s: Side): nat {
    if s.stage.Gone? then 1 else 0
  }

  ghost predicate Inv(p: Pair, a: string, b: string) {
    && p.sides.Keys == {false, true}
    && SideInv(p.sides[false], a) && SideInv(p.sides[true], b)
    && p.done + p.taken == Signalled(p.sides[false]) + Signalled(p.sides[true])
    && p.activity <= CAPACITY && p.ssh.buffered <= |p.sides[true].source|
  }

  lemma {:induction false} ReadKeeps(s: Side, n: nat, failed: bool, all: string)
    requires SideInv(s, all) && s.stage.Reading? && n <= |s.source|
    ensures SideInv(AfterRead(s, n, failed), all)
  {
    assert s.source == s.source[..n] + s.source[n..];
    Assoc(s.consumed, s.source[..n], s.source[n..]);
  }

  lemma {:induction false} WriteKeeps(s: Side, n: nat, failed: bool, all: string)
    requires SideInv(s, all) && s.stage.Writing? && n <= |s.stage.left|
    ensures SideInv(AfterWrite(s, n, failed), all)
  {
    var left := s.stage.left;
    assert left == left[..n] + left[n..];
    Assoc(s.delivered, left[..n], left[n..]);
  }

  lemma {:induction false} StepKeepsInv(p: Pair, x: Action, a: string, b: string)
    requires Inv(p, a, b) && Enabled(p, x)
    ensures Inv(Step(p, x), a, b)
  {
    match x {
      case ReadChunk(i, n, failed) => ReadKeeps(p.sides[i], n, failed, if i then b else a);
      case WriteChunk(i, n, failed) => WriteKeeps(p.sides[i], n, failed, if i then b else a);
      case _ =>
    }
  }

  lemma {:induction false} RunKeepsInv(p: Pair, actions: seq<Action>, p': Pair, a: string, b: string)
    requires Inv(p, a, b) && Run(p, actions, p')
    ensures Inv(p', a, b)
    decreases actions
  {
    if actions != [] {
      StepKeepsInv(p, actions[0], a, b);
      RunKeepsInv(Step(p, actions[0]), actions[1..], p', a, b);
    }
  }

  /**
   In every interleaving and at every moment, the bytes delivered in a direction
   are a prefix of the bytes read, which are a prefix of what the source sends;
   a pump that ended without a write error has delivered all it read.
   */
  lemma {:induction false} PipeIntegrity(a: string, b: string, window: nat, actions: seq<Action>, p: Pair, i: bool)
    requires Run(Start(a, b, window), actions, p)
    ensures i in p.sides
    ensures var s := p.sides[i]; s.delivered <= s.consumed <= (if i then b else a)
    ensures var s := p.sides[i]; (s.stage.Ending? || s.stage.Gone?) && s.stage.clean ==> s.delivered == s.consumed
  {
    RunKeepsInv(Start(a, b, window), actions, p, a, b);
  }

  /**
   A pump that has ended can always signal, even after the main loop returned:
   its send never waits. It signals once, and the channel never holds more than
   the signals sent.
   */
  lemma {:induction false} SignalNeverBlocks(a: string, b: string, window: nat, actions: seq<Action>, p: Pair, i: bool)
    requires Run(Start(a, b, window), actions, p)
    ensures i in p.sides && p.sides.Keys == {false, true}
    ensures p.sides[i].stage.Ending? ==> Enabled(p, Signal(i))
    ensures p.sides[i].stage.Gone? ==> forall x: Action :: Enabled(p, x) ==> Step(p, x).sides[i] == p.sides[i]
    ensures p.done + p.taken == Signalled(p.sides[false]) + Signalled(p.sides[true]) <= CAPACITY
  {
    RunKeepsInv(Start(a, b, window), actions, p, a, b);
  }

  /** What the main loop has seen. */
  ghost predicate MainInv(p: Pair, actions: seq<Action>) {
    p.activity <= 2 &&
    match p.main
    case Looping => p.taken == 0
    case Grace => p.taken == 1
    case Returned => IdleTimeout in actions || (p.taken == 1 && GraceOver in actions) || p.taken == 2
  }

  lemma {:induction false} MainKept(done: seq<Action>, p: Pair, actions: seq<Action>, p': Pair)
    requires p.sides.Keys == {false, true} && MainInv(p, done) && Run(p, actions, p')
    ensures MainInv(p', done + actions)
    decreases actions
  {
    if actions == [] {
      assert done + actions == done;
    } else {
      assert done + actions == (done + [actions[0]]) + actions[1..];
      assert actions[0] in done + [actions[0]];
      MainKept(done + [actions[0]], Step(p, actions[0]), actions[1..], p');
    }
  }

  /**
   The connections are closed only after the idle time ran out, or a pump signalled
   and the grace time ran out, or both pumps signalled; with two signals taken they are.
   */
  lemma {:induction false} ClosedWhen(a: string, b: string, window: nat, actions: seq<Action>, p: Pair)
    requires Run(Start(a, b, window), actions, p)
    ensures Closed(p) ==> IdleTimeout in actions || (p.taken == 1 && GraceOver in actions) || p.taken == 2
    ensures p.taken == 2 ==> Closed(p)
    ensures p.activity <= 2
  {
    MainKept([], Start(a, b, window), actions, p);
    assert [] + actions == actions;
  }

  /** Every read that brings bytes leaves a notice that keeps the idle time from running out, and no other step does. */
  lemma {:induction false} ActivityNoted(p: Pair, x: Action)
    requires p.sides.Keys == {false, true} && Enabled(p, x)
    ensures x.ReadChunk? && x.n > 0 ==> Step(p, x).activity > 0
    ensures Step(p, x).activity > p.activity ==> x.ReadChunk? && x.n > 0
    ensures x == SeeActivity ==> Step(p, x).activity == p.activity - 1
  {
  }

  // ----- a connection that works -----

  /** Some run leads there without the idle time or the grace time running out. */
  ghost predicate Leads(p: Pair, q: Pair) {
    p.sides.Keys == {false, true} && exists actions :: Run(p, actions, q) && Untimed(actions)
  }

  ghost predicate Untimed(actions: seq<Action>) {
    IdleTimeout !in actions && GraceOver !in actions
  }

  lemma {:induction false} StepLeads(p: Pair, x: Action, q: Pair, end: Pair)
    requires p.sides.Keys == {false, true} && Enabled(p, x) && Step(p, x).sides == q.sides && Step(p, x).(sides := q.sides) == q
    requires Leads(q, end) && x != IdleTimeout && x != GraceOver
    ensures Leads(p, end)
  {
    var rest :| Run(q, rest, end) && Untimed(rest);
    assert ([x] + rest)[1..] == rest;
    assert Run(p, [x] + rest, end) && Untimed([x] + rest);
  }

  /** A connection whose first side stands at `x` and whose second at `y`. */
  function Midway(x: Side, y: Side, done: nat, taken: nat, activity: nat, main: Main, ssh: Channel): Pair {
    Pair(map[false := x, true := y], done, taken, activity, main, ssh)
  }

  /** The first side copies: its one read also brings the end, the peer takes no more than is sent. */
  lemma {:induction false} Uploads(a: string, y: Side, end: Pair)
    requires a != "" && Leads(Midway(Side(Ending(true), "", a, a), y, 0, 0, 0, Looping, Channel(0, 0, Sending)), end)
    ensures Leads(Midway(Side(Reading, a, "", ""), y, 0, 0, 0, Looping, Channel(0, 0, Sending)), end)
  {
    var w := Side(Writing(a, true), "", a, "");
    assert a[|a|..] == "" && "" + a[..|a|] == a && a[..|a|] == a;
    StepLeads(Midway(w, y, 0, 0, 0, Looping, Channel(0, |a|, Sending)), WriteChunk(false, |a|, false),
              Midway(Side(Ending(true), "", a, a), y, 0, 0, 0, Looping, Channel(0, 0, Sending)), end);
    StepLeads(Midway(w, y, 0, 0, 0, Looping, Channel(0, 0, Sending)), Adjust(|a|), Midway(w, y, 0, 0, 0, Looping, Channel(0, |a|, Sending)), end);
    StepLeads(Midway(w, y, 0, 0, 1, Looping, Channel(0, 0, Sending)), SeeActivity, Midway(w, y, 0, 0, 0, Looping, Channel(0, 0, Sending)), end);
    StepLeads(Midway(Side(Reading, a, "", ""), y, 0, 0, 0, Looping, Channel(0, 0, Sending)), ReadChunk(false, |a|, true),
              Midway(w, y, 0, 0, 1, Looping, Channel(0, 0, Sending)), end);
  }

  /** It signals, and the main loop sees it. */
  lemma {:induction false} FirstSignal(x: Side, y: Side, end: Pair)
    requires x.stage == Ending(true) && Leads(Midway(x.(stage := Gone(true)), y, 0, 1, 0, Grace, Channel(0, 0, Sending)), end)
    ensures Leads(Midway(x, y, 0, 0, 0, Looping, Channel(0, 0, Sending)), end)
  {
    var g := x.(stage := Gone(true));
    StepLeads(Midway(g, y, 1, 0, 0, Looping, Channel(0, 0, Sending)), SeeDone, Midway(g, y, 0, 1, 0, Grace, Channel(0, 0, Sending)), end);
    StepLeads(Midway(x, y, 0, 0, 0, Looping, Channel(0, 0, Sending)), Signal(false), Midway(g, y, 1, 0, 0, Looping, Channel(0, 0, Sending)), end);
  }

  /** The second side copies what the peer sends. */
  lemma {:induction false} Downloads(x: Side, b: string, end: Pair)
    requires b != "" && Leads(Midway(x, Side(Reading, "", b, b), 0, 1, 1, Grace, Channel(0, 0, Sending)), end)
    ensures Leads(Midway(x, Side(Reading, b, "", ""), 0, 1, 0, Grace, Channel(0, 0, Sending)), end)
  {
    var w, r := Side(Writing(b, false), "", b, ""), Side(Reading, b, "", "");
    assert b[|b|..] == "" && "" + b[..|b|] == b && b[..|b|] == b;
    StepLeads(Midway(x, w, 0, 1, 1, Grace, Channel(0, 0, Sending)), WriteChunk(true, |b|, false),
              Midway(x, Side(Reading, "", b, b), 0, 1, 1, Grace, Channel(0, 0, Sending)), end);
    StepLeads(Midway(x, r, 0, 1, 0, Grace, Channel(|b|, 0, Sending)), ReadChunk(true, |b|, false), Midway(x, w, 0, 1, 1, Grace, Channel(0, 0, Sending)), end);
    StepLeads(Midway(x, r, 0, 1, 0, Grace, Channel(0, 0, Sending)), Arrive(|b|), Midway(x, r, 0, 1, 0, Grace, Channel(|b|, 0, Sending)), end);
  }

  /** It sees the peer's end. */
  lemma {:induction false} SeesEnd(x: Side, b: string, end: Pair)
    requires Leads(Midway(x, Side(Ending(true), "", b, b), 0, 1, 1, Grace, Channel(0, 0, Finished)), end)
    ensures Leads(Midway(x, Side(Reading, "", b, b), 0, 1, 1, Grace, Channel(0, 0, Sending)), end)
  {
    var r := Side(Reading, "", b, b);
    assert ""[0..] == "" && b + ""[..0] == b;
    StepLeads(Midway(x, r, 0, 1, 1, Grace, Channel(0, 0, Finished)), ReadChunk(true, 0, true),
              Midway(x, Side(Ending(true), "", b, b), 0, 1, 1, Grace, Channel(0, 0, Finished)), end);
    StepLeads(Midway(x, r, 0, 1, 1, Grace, Channel(0, 0, Sending)), PeerFinishes, Midway(x, r, 0, 1, 1, Grace, Channel(0, 0, Finished)), end);
  }

  /** Its signal ends the main loop. */
  lemma {:induction false} SecondSignal(x: Side, y: Side, end: Pair)
    requires y.stage == Ending(true) && end == Midway(x, y.(stage := Gone(true)), 0, 2, 1, Returned, Channel(0, 0, Finished))
    ensures Leads(Midway(x, y, 0, 1, 1, Grace, Channel(0, 0, Finished)), end)
  {
    var g := y.(stage := Gone(true));
    assert Run(end, [], end) && Untimed([]);
    StepLeads(Midway(x, g, 1, 1, 1, Grace, Channel(0, 0, Finished)), SeeDone, end, end);
    StepLeads(Midway(x, y, 0, 1, 1, Grace, Channel(0, 0, Finished)), Signal(true), Midway(x, g, 1, 1, 1, Grace, Channel(0, 0, Finished)), end);
  }

  /**
   For any two texts some run copies both whole: both pumps end cleanly, and the
   connections are closed behind the second signal, before any time runs out.
   */
  lemma {:induction false} BothCopied(a: string, b: string)
    requires a != "" && b != ""
    ensures Leads(Start(a, b, 0), Pair(map[false := Side(Gone(true), "", a, a), true := Side(Gone(true), "", b, b)], 0, 2, 1, Returned, Channel(0, 0, Finished)))
  {
    var x, y := Side(Ending(true), "", a, a), Side(Ending(true), "", b, b);
    var g := x.(stage := Gone(true));
    var end := Midway(g, y.(stage := Gone(true)), 0, 2, 1, Returned, Channel(0, 0, Finished));
    SecondSignal(g, y, end);
    SeesEnd(g, b, end);
    Downloads(g, b, end);
    FirstSignal(x, Side(Reading, b, "", ""), end);
    Uploads(a, Side(Reading, b, "", ""), end);
  }

  // ----- how a pump ends -----

  predicate Over(s: Stage) {
    s.Ending? || s.Gone?
  }

  /** A write of this side that fails or takes nothing. */
  predicate BadWrite(i: bool, x: Action) {
    x.WriteChunk? && x.i == i && (x.failed || x.n == 0)
  }

  /** A read of this side that brings an end or an error. */
  predicate LastRead(i: bool, x: Action) {
    x.ReadChunk? && x.i == i && x.failed
  }

  lemma {:induction false} InTail(actions: seq<Action>)
    requires actions != []
    ensures forall x :: x in actions <==> x == actions[0] || x in actions[1..]
  {
  }

  lemma {:induction false} OverStays(i: bool, p: Pair, actions: seq<Action>, p': Pair)
    requires p.sides.Keys == {false, true} && Over(p.sides[i].stage) && Run(p, actions, p')
    ensures p'.sides.Keys == {false, true} && Over(p'.sides[i].stage) && p'.sides[i].stage.clean == p.sides[i].stage.clean
    ensures forall x :: x in actions ==> !BadWrite(i, x)
    decreases actions
  {
    if actions != [] {
      InTail(actions);
      OverStays(i, Step(p, actions[0]), actions[1..], p');
    }
  }

  lemma {:induction false} EndsAt(i: bool, p: Pair, x: Action)
    requires p.sides.Keys == {false, true} && !Over(p.sides[i].stage) && Enabled(p, x)
    ensures var s, t := p.sides[i].stage, Step(p, x).sides[i].stage;
      && (Over(t) && !t.clean <==> BadWrite(i, x))
      && (Over(t) && t.clean ==> (s.Writing? && s.failed) || LastRead(i, x))
      && (t.Writing? && t.failed ==> (s.Writing? && s.failed) || LastRead(i, x))
  {
  }

  /** A pump ends uncleanly exactly on a write that fails or takes nothing, and cleanly only behind a read that brought an end or an error. */
  lemma {:induction false} EndedHow(i: bool, p: Pair, actions: seq<Action>, p': Pair)
    requires p.sides.Keys == {false, true} && !Over(p.sides[i].stage) && Run(p, actions, p')
    ensures p'.sides.Keys == {false, true}
    ensures Over(p'.sides[i].stage) && !p'.sides[i].stage.clean <==> exists x :: x in actions && BadWrite(i, x)
    ensures Over(p'.sides[i].stage) && p'.sides[i].stage.clean
        ==> (p.sides[i].stage.Writing? && p.sides[i].stage.failed) || exists x :: x in actions && LastRead(i, x)
    decreases actions
  {
    if actions != [] {
      var q := Step(p, actions[0]);
      EndsAt(i, p, actions[0]);
      InTail(actions);
      if Over(q.sides[i].stage) {
        OverStays(i, q, actions[1..], p');
      } else {
        EndedHow(i, q, actions[1..], p');
      }
    }
  }

  /** The pump whose step it is. */
  predicate Owns(i: bool, x: Action) {
    match x
    case ReadChunk(j, _, _) => j == i
    case WriteChunk(j, _, _) => j == i
    case Signal(j) => j == i
    case _ => false
  }

  /** How many steps of its own a pump takes. */
  function OwnSteps(i: bool, actions: seq<Action>): nat {
    if actions == [] then 0 else (if Owns(i, actions[0]) then 1 else 0) + OwnSteps(i, actions[1..])
  }

  /** How many steps a pump still has to take at most once the connections are closed. */
  function StepsLeft(s: Stage): nat {
    match s
    case Reading => 3
    case Writing(_, _) => 2
    case Ending(_) => 1
    case Gone(_) => 0
  }

  /** The peer, not one of the two pumps or the main loop. */
  predicate OfPeer(x: Action) {
    x.Arrive? || x.Adjust? || x.PeerFinishes? || x.PeerLeaves?
  }

  lemma {:induction false} ClosedStep(p: Pair, x: Action, i: bool)
    requires p.sides.Keys == {false, true} && Closed(p) && Enabled(p, x)
    ensures Closed(Step(p, x)) && Step(p, x).sides.Keys == {false, true}
    ensures Step(p, x).sides[i].delivered == p.sides[i].delivered
    ensures if Owns(i, x) then StepsLeft(Step(p, x).sides[i].stage) < StepsLeft(p.sides[i].stage) else Step(p, x).sides[i] == p.sides[i]
  {
  }

  lemma {:induction false} ClosedRun(p: Pair, actions: seq<Action>, p': Pair, i: bool)
    requires p.sides.Keys == {false, true} && Closed(p) && Run(p, actions, p')
    ensures Closed(p') && p'.sides.Keys == {false, true}
    ensures p'.sides[i].delivered == p.sides[i].delivered
    ensures StepsLeft(p'.sides[i].stage) + OwnSteps(i, actions) <= StepsLeft(p.sides[i].stage)
    decreases actions
  {
    if actions != [] {
      ClosedStep(p, actions[0], i);
      ClosedRun(Step(p, actions[0]), actions[1..], p', i);
    }
  }

  /**
   What holds a pump up on closed connections: it reads an empty buffer of a peer
   that is still sending, or it waits for window from a peer that has not left.
   */
  predicate Waits(p: Pair, i: bool)
    requires p.sides.Keys == {false, true}
  {
    if i then p.sides[i].stage.Reading? && p.ssh.buffered == 0 && p.ssh.peer.Sending?
    else p.sides[i].stage.Writing? && p.ssh.window == 0 && !p.ssh.peer.Left?
  }

  /** The step of its own that a pump can take on closed connections, if it does not wait. */
  function NextStep(p: Pair, i: bool): Action
    requires p.sides.Keys == {false, true} && !p.sides[i].stage.Gone?
  {
    match p.sides[i].stage
    case Reading => if i && p.ssh.buffered > 0 then ReadChunk(i, p.ssh.buffered, false) else ReadChunk(i, 0, true)
    case Writing(_, _) => WriteChunk(i, 0, true)
    case Ending(_) => Signal(i)
  }

  /**
   On closed connections, in every run and whatever the others do: a pump delivers
   nothing more, takes at most three steps of its own, and is gone when it has; and
   some next step of it is possible exactly if it is not gone and does not wait for
   the peer of the SSH channel. Once that peer has left, nothing waits.
   */
  lemma {:induction false} PumpsEnd(a: string, b: string, window: nat, before: seq<Action>, p: Pair, actions: seq<Action>, p': Pair, i: bool)
    requires Run(Start(a, b, window), before, p) && Closed(p)
    requires p.sides.Keys == {false, true} && Run(p, actions, p')
    ensures p'.sides.Keys == {false, true}
    ensures p'.sides[i].delivered == p.sides[i].delivered
    ensures OwnSteps(i, actions) <= StepsLeft(p.sides[i].stage) <= 3
    ensures OwnSteps(i, actions) == StepsLeft(p.sides[i].stage) ==> p'.sides[i].stage.Gone?
    ensures (exists x :: Owns(i, x) && Enabled(p', x)) <==> !p'.sides[i].stage.Gone? && !Waits(p', i)
    ensures p'.ssh.peer.Left? ==> !Waits(p', i)
  {
    RunKeepsInv(Start(a, b, window), before, p, a, b);
    RunKeepsInv(p, actions, p', a, b);
    ClosedRun(p, actions, p', i);
    if !p'.sides[i].stage.Gone? && !Waits(p', i) {
      NextPossible(p', a, b, i);
    }
  }

  lemma {:induction false} NextPossible(p: Pair, a: string, b: string, i: bool)
    requires Inv(p, a, b) && Closed(p) && !p.sides[i].stage.Gone? && !Waits(p, i)
    ensures Owns(i, NextStep(p, i)) && Enabled(p, NextStep(p, i))
  {
  }

  /** A pump that waits does so for as long as the peer does nothing, whatever the rest of the daemon does. */
  lemma {:induction false} LeftWaiting(p: Pair, actions: seq<Action>, p': Pair, i: bool)
    requires p.sides.Keys == {false, true} && Closed(p) && Waits(p, i) && Run(p, actions, p')
    requires forall k :: 0 <= k < |actions| ==> !OfPeer(actions[k])
    ensures p'.sides.Keys == {false, true} && Waits(p', i) && p'.sides[i] == p.sides[i] && OwnSteps(i, actions) == 0
    decreases actions
  {
    if actions != [] {
      assert !OfPeer(actions[0]);
      LeftWaiting(Step(p, actions[0]), actions[1..], p', i);
    }
  }

  /** Neither pump is sure to end: here both wait for a silent peer behind closed connections. */
  lemma {:induction false} BothWait(b: string) returns (p: Pair)
    ensures Run(Start("x", b, 0), [ReadChunk(false, 1, false), IdleTimeout], p)
    ensures p.sides.Keys == {false, true} && Closed(p) && Waits(p, false) && Waits(p, true)
  {
    var s0 := Start("x", b, 0);
    var s1 := Step(s0, ReadChunk(false, 1, false));
    p := Step(s1, IdleTimeout);
    TwoSteps(s0, ReadChunk(false, 1, false), IdleTimeout);
  }

  lemma {:induction false} TwoSteps(p: Pair, x: Action, y: Action)
    requires p.sides.Keys == {false, true} && Enabled(p, x) && Step(p, x).sides.Keys == {false, true} && Enabled(Step(p, x), y)
    ensures Run(p, [x, y], Step(Step(p, x), y))
  {
    assert [x, y][1..] == [y] && [y][1..] == [];
    assert Run(Step(Step(p, x), y), [y][1..], Step(Step(p, x), y));
  }

  /** And the three steps can all be needed: a byte that came before the end is read, its write fails, and the pump signals. */
  lemma {:induction false} ThreeNeeded(a: string, window: nat) returns (p: Pair, p': Pair)
    ensures Run(Start(a, "x", window), [Arrive(1), IdleTimeout], p)
    ensures p.sides.Keys == {false, true} && Closed(p)
    ensures Run(p, [ReadChunk(true, 1, false), WriteChunk(true, 0, true), Signal(true)], p')
    ensures p'.sides.Keys == {false, true} && p'.sides[true] == Side(Gone(false), "", "x", "")
  {
    var s0, x, y, z := Start(a, "x", window), ReadChunk(true, 1, false), WriteChunk(true, 0, true), Signal(true);
    TwoSteps(s0, Arrive(1), IdleTimeout);
    p := Step(Step(s0, Arrive(1)), IdleTimeout);
    var p1 := Step(p, x);
    p' := Step(Step(p1, y), z);
    TwoSteps(p1, y, z);
    assert [x, y, z][1..] == [y, z];
  }
}

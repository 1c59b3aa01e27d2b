/**
 Reading the server's answer to the payload until the SSH banner shows up, and
 handing the connection to SSH so that it starts exactly at the banner.

 Bytes are characters. A server is the string of all bytes it sends and a list
 of events, one per Read: how many bytes are there and which error comes along.
 A connection whose events are used up runs into its deadline.
 */
module Probe {
  import opened Common

  datatype Fault = Fine | Timeout | Eof | Broken

  datatype Event = Event(want: nat, fault: Fault)

  datatype Wire = Wire(rest: string, events: seq<Event>)

  datatype Got = Got(data: string, fault: Fault, wire: Wire)

  const BANNER := "SSH-"
  const MAX_BYTES: nat := 65536
  const CHUNK: nat := 2048

  function Least(a: nat, b: nat): nat {
    if a <= b then a else b
  }

  /** One Read into a buffer of `cap` bytes. */
  function Take(w: Wire, cap: nat): Got {
    if w.events == [] then Got("", Timeout, w)
    else
      var n := Least(w.events[0].want, Least(cap, |w.rest|));
      Got(w.rest[..n], w.events[0].fault, Wire(w.rest[n..], w.events[1..]))
  }

  // ----- searching -----

  /** strings.Index: where `p` first occurs. */
  function Index(s: string, p: string): Option<nat> {
    if p <= s then Some(0)
    else if s == "" then None
    else
      var r := Index(s[1..], p);
      if r.Some? then Some(r.value + 1) else None
  }

  predicate At(s: string, p: string, i: nat) {
    i + |p| <= |s| && s[i..i + |p|] == p
  }

  ghost predicate FirstAt(s: string, p: string, n: nat) {
    At(s, p, n) && forall j: nat :: At(s, p, j) ==> n <= j
  }

  lemma {:induction false} IndexIsFirst(s: string, p: string)
    ensures Index(s, p).Some? ==> At(s, p, Index(s, p).value)
    ensures forall i: nat :: At(s, p, i) ==> Index(s, p).Some? && Index(s, p).value <= i
  {
    if !(p <= s) && s != "" {
      IndexIsFirst(s[1..], p);
      if Index(s[1..], p).Some? {
        var j := Index(s[1..], p).value;
        assert s[1..][j..j + |p|] == s[j + 1..j + 1 + |p|];
      }
      forall i: nat | At(s, p, i) ensures Index(s, p).Some? && Index(s, p).value <= i {
        assert i > 0;
        assert s[1..][i - 1..i - 1 + |p|] == s[i..i + |p|];
        assert At(s[1..], p, i - 1);
      }
    }
  }

  /** What is found in the part already read is what is first in the whole stream. */
  lemma {:induction false} IndexStable(s: string, t: string, p: string)
    requires Index(s, p).Some?
    ensures Index(s + t, p) == Index(s, p)
  {
    IndexIsFirst(s, p);
    IndexIsFirst(s + t, p);
    var i := Index(s, p).value;
    assert (s + t)[i..i + |p|] == s[i..i + |p|];
    assert At(s + t, p, i);
    var j := Index(s + t, p).value;
    assert (s + t)[j..j + |p|] == s[j..j + |p|];
    assert At(s, p, j);
  }

  // ----- readProbe -----

  datatype Probed = Probed(all: string, fault: Fault, wire: Wire)

  /** The loop of readProbe; a fault other than Fine is the error it returns. */
  function Collect(w: Wire, out: string): Probed
    decreases |w.events|
  {
    if |out| >= MAX_BYTES then Probed(out, Fine, w)
    else
      var g := Take(w, CHUNK);
      var all := out + g.data;
      if g.data != "" && Index(all, BANNER).Some? then Probed(all, Fine, g.wire)
      else if g.fault.Timeout? || g.fault.Eof? then Probed(all, Fine, g.wire)
      else if g.fault.Broken? then Probed(all, Broken, g.wire)
      else Collect(g.wire, all)
  }

  function ReadProbe(w: Wire): Probed {
    var p := Collect(w, "");
    if p.fault.Fine? && p.all == "" then p.(fault := Timeout) else p
  }

  lemma {:induction false} TakeConserves(w: Wire, cap: nat, out: string)
    ensures var g := Take(w, cap);
      |g.data| <= cap && (out + g.data) + g.wire.rest == out + w.rest && (w.events != [] ==> |g.wire.events| < |w.events|)
  {
    if w.events != [] {
      assert Take(w, cap).data + Take(w, cap).wire.rest == w.rest;
    }
  }

  /** Nothing is lost or repeated, and the buffer stays bounded. */
  lemma {:induction false} CollectConserves(w: Wire, out: string)
    requires |out| < MAX_BYTES + CHUNK
    ensures Collect(w, out).all + Collect(w, out).wire.rest == out + w.rest
    ensures out <= Collect(w, out).all && |Collect(w, out).all| < MAX_BYTES + CHUNK
    decreases |w.events|
  {
    if |out| < MAX_BYTES {
      var g := Take(w, CHUNK);
      TakeConserves(w, CHUNK, out);
      if g.fault.Fine? && (g.data == "" || Index(out + g.data, BANNER).None?) {
        CollectConserves(g.wire, out + g.data);
      }
    }
  }

  // ----- how far the probe reads -----

  /** What the first `n` reads into a buffer of `cap` bytes bring together, if the source has it. */
  function Wanted(events: seq<Event>, n: nat, cap: nat): nat
    requires n <= |events|
  {
    if n == 0 then 0 else Wanted(events, n - 1, cap) + Least(events[n - 1].want, cap)
  }

  /** The bytes that the first `n` reads bring. */
  function Brought(server: string, events: seq<Event>, n: nat): string
    requires n <= |events|
  {
    server[..Least(Wanted(events, n, 2048), |server|)]
  }

  ghost predicate HasBanner(s: string) {
    exists i: nat :: At(s, "SSH-", i)
  }

  /** Read number `i` brings neither an end nor an error, and the banner is not there yet. */
  ghost predicate GoesOn(server: string, events: seq<Event>, i: nat)
    requires i < |events|
  {
    events[i].fault.Fine? && !HasBanner(Brought(server, events, i + 1))
  }

  lemma {:induction false} IndexHas(s: string)
    ensures Index(s, BANNER).Some? <==> HasBanner(s)
  {
    IndexIsFirst(s, BANNER);
  }

  /** What the loop makes of the reads from number `n` on. */
  function From(server: string, events: seq<Event>, n: nat): Probed
    requires n <= |events|
  {
    Collect(Wire(server[|Brought(server, events, n)|..], events[n..]), Brought(server, events, n))
  }

  /** It ends here, after `n` reads. */
  ghost predicate Ends(server: string, events: seq<Event>, n: nat, p: Probed)
    requires n <= |events|
  {
    && p.all == Brought(server, events, n) && p.wire == Wire(server[|p.all|..], events[n..])
    && (n == |events| || |p.all| >= MAX_BYTES || (n > 0 && !GoesOn(server, events, n - 1)))
    && p.fault == if n > 0 && events[n - 1].fault.Broken? && !HasBanner(p.all) then Broken else Fine
  }

  /** From read number `n` up to `m` there is room for each, and each but the last goes on. */
  ghost predicate ReadsOn(server: string, events: seq<Event>, n: nat, m: nat)
    requires m <= |events|
  {
    forall i :: n <= i < m ==> |Brought(server, events, i)| < MAX_BYTES && (i < m - 1 ==> GoesOn(server, events, i))
  }

  lemma {:induction false} NextRead(server: string, events: seq<Event>, n: nat)
    requires n < |events|
    ensures var g := Take(Wire(server[|Brought(server, events, n)|..], events[n..]), CHUNK);
      && Brought(server, events, n) + g.data == Brought(server, events, n + 1) && g.fault == events[n].fault
      && g.wire == Wire(server[|Brought(server, events, n + 1)|..], events[n + 1..])
  {
    var out := Brought(server, events, n);
    var g := Take(Wire(server[|out|..], events[n..]), CHUNK);
    assert events[n..][0] == events[n] && events[n..][1..] == events[n + 1..];
    assert out + g.data == server[..|out| + |g.data|];
    assert |out| + |g.data| == Least(Wanted(events, n + 1, 2048), |server|);
    assert server[|out|..][|g.data|..] == server[|out| + |g.data|..];
  }

  lemma {:induction false} CollectOnce(w: Wire, out: string)
    requires |out| < MAX_BYTES && !HasBanner(out)
    ensures var g := Take(w, CHUNK);
      Collect(w, out) == if g.fault.Fine? && !HasBanner(out + g.data) then Collect(g.wire, out + g.data)
                         else Probed(out + g.data, if g.fault.Broken? && !HasBanner(out + g.data) then Broken else Fine, g.wire)
  {
    var g := Take(w, CHUNK);
    IndexHas(out + g.data);
    if g.data == "" {
      assert out + g.data == out;
    }
  }

  /** A turn of the loop reads once; it is the last one unless it goes on. */
  lemma {:induction false} OneTurn(server: string, events: seq<Event>, n: nat)
    requires n < |events| && |Brought(server, events, n)| < MAX_BYTES && !HasBanner(Brought(server, events, n))
    ensures if GoesOn(server, events, n) then From(server, events, n) == From(server, events, n + 1)
            else Ends(server, events, n + 1, From(server, events, n))
  {
    NextRead(server, events, n);
    CollectOnce(Wire(server[|Brought(server, events, n)|..], events[n..]), Brought(server, events, n));
  }

  lemma {:induction false} NoTurn(server: string, events: seq<Event>, n: nat)
    requires n <= |events| && (n == |events| || |Brought(server, events, n)| >= MAX_BYTES) && (n > 0 ==> GoesOn(server, events, n - 1))
    ensures Ends(server, events, n, From(server, events, n))
  {
    var out := Brought(server, events, n);
    assert out + "" == out;
  }

  lemma {:induction false} CollectReads(server: string, events: seq<Event>, n: nat) returns (m: nat)
    requires n <= |events| && !HasBanner(Brought(server, events, n)) && (n > 0 ==> GoesOn(server, events, n - 1))
    ensures n <= m <= |events|
    ensures Ends(server, events, m, From(server, events, n)) && ReadsOn(server, events, n, m)
    decreases |events| - n
  {
    m := n;
    if n < |events| && |Brought(server, events, n)| < MAX_BYTES {
      OneTurn(server, events, n);
      m := n + 1;
      if GoesOn(server, events, n) {
        m := CollectReads(server, events, n + 1);
      }
    } else {
      NoTurn(server, events, n);
    }
  }

  /**
   The probe reads on until the banner is there, an end or an error comes, or 64 KiB
   are read; it fails exactly on an error before the banner, or if nothing came.
   */
  lemma {:induction false} ProbeReads(server: string, events: seq<Event>) returns (n: nat)
    ensures n <= |events| && forall i :: 0 <= i < n ==> |Brought(server, events, i)| < 65536 && (i < n - 1 ==> GoesOn(server, events, i))
    ensures var p := ReadProbe(Wire(server, events));
      && p.all == Brought(server, events, n) && p.wire == Wire(server[|p.all|..], events[n..])
      && (n == |events| || |p.all| >= 65536 || (n > 0 && !GoesOn(server, events, n - 1)))
      && (p.fault.Fine? <==> p.all != "" && (HasBanner(p.all) || n == 0 || !events[n - 1].fault.Broken?))
  {
    assert server[0..] == server && events[0..] == events && server[..0] == "";
    assert !HasBanner("");
    n := CollectReads(server, events, 0);
  }

  /** So a banner among the first 64 KiB is found, if neither an end nor an error comes before it. */
  lemma {:induction false} ProbeFinds(server: string, events: seq<Event>, n: nat)
    requires 0 < n <= |events| && HasBanner(Brought(server, events, n)) && |Brought(server, events, n - 1)| < 65536
    requires forall i :: 0 <= i < n - 1 ==> events[i].fault.Fine?
    ensures var p := ReadProbe(Wire(server, events)); p.fault.Fine? && HasBanner(p.all)
  {
    var m := ProbeReads(server, events);
    var p := ReadProbe(Wire(server, events));
    if m >= n {
      BroughtGrows(server, events, n, m);
      if !HasBanner(p.all) {
        StillThere(Brought(server, events, n), p.all);
      }
    } else {
      BroughtGrows(server, events, m, n - 1);
      if m > 0 {
        assert events[m - 1].fault.Fine?;
      }
    }
    assert p.all != "";
  }

  lemma {:induction false} StillThere(s: string, t: string)
    requires HasBanner(s) && s <= t
    ensures HasBanner(t)
  {
    var i: nat :| At(s, "SSH-", i);
    assert t[i..i + 4] == s[i..i + 4];
    assert At(t, "SSH-", i);
  }

  lemma {:induction false} BroughtGrows(server: string, events: seq<Event>, m: nat, n: nat)
    requires m <= n <= |events|
    ensures Wanted(events, m, 2048) <= Wanted(events, n, 2048) && Brought(server, events, m) <= Brought(server, events, n)
  {
    if m < n {
      BroughtGrows(server, events, m, n - 1);
    }
  }

  // ----- what SSH reads -----

  datatype Prefixed = Prefixed(prefix: string, wire: Wire)

  function ReadOne(c: Prefixed, cap: nat): (string, Prefixed) {
    if c.prefix != "" then
      var n := Least(cap, |c.prefix|);
      (c.prefix[..n], c.(prefix := c.prefix[n..]))
    else
      var g := Take(c.wire, cap);
      (g.data, c.(wire := g.wire))
  }

  /** The bytes of several reads put together, and the connection after them. */
  function ReadMany(c: Prefixed, caps: seq<nat>): (string, Prefixed)
    decreases caps
  {
    if caps == [] then ("", c)
    else
      var (data, next) := ReadOne(c, caps[0]);
      var (more, last) := ReadMany(next, caps[1..]);
      (data + more, last)
  }

  function Pending(c: Prefixed): string {
    c.prefix + c.wire.rest
  }

  lemma {:induction false} ReadManyConserves(c: Prefixed, caps: seq<nat>)
    ensures ReadMany(c, caps).0 + Pending(ReadMany(c, caps).1) == Pending(c)
    decreases caps
  {
    if caps != [] {
      var (data, next) := ReadOne(c, caps[0]);
      assert data + Pending(next) == Pending(c);
      ReadManyConserves(next, caps[1..]);
      var (more, last) := ReadMany(next, caps[1..]);
      Assoc(data, more, Pending(last));
    }
  }

  /** A read of any size takes as much of the prefix as fits, and behind the prefix what the connection brings. */
  lemma {:induction false} ReadTakes(c: Prefixed, cap: nat)
    ensures |c.prefix| >= cap && cap > 0 ==> ReadOne(c, cap) == (c.prefix[..cap], Prefixed(c.prefix[cap..], c.wire))
    ensures 0 < |c.prefix| < cap ==> ReadOne(c, cap).0 == c.prefix && ReadOne(c, cap).1 == Prefixed("", c.wire)
    ensures c.prefix == "" && c.wire.events != []
        ==> |ReadOne(c, cap).0| == (if c.wire.events[0].want <= cap && c.wire.events[0].want <= |c.wire.rest| then c.wire.events[0].want
                                    else if cap <= |c.wire.rest| then cap else |c.wire.rest|)
  {
  }

  /** The rest of what was read, followed by what was not, is the stream from the first match. */
  lemma {:induction false} FromFirst(all: string, rest: string, p: string)
    requires Index(all, p).Some?
    ensures Index(all + rest, p) == Index(all, p) && Index(all, p).value <= |all|
    ensures all[Index(all, p).value..] + rest == (all + rest)[Index(all, p).value..]
  {
    IndexStable(all, rest, p);
    IndexIsFirst(all, p);
  }

  // ----- the branches of openPreparedSSHConn -----

  /** extractSSHBanner: up to the first "\r\n", else up to the first "\n", else 120 bytes. */
  function Banner(all: string): string {
    var i := Index(all, BANNER);
    if i.None? then ""
    else
      IndexIsFirst(all, BANNER);
      var tail := all[i.value..];
      var crlf, lf := Index(tail, "\r\n"), Index(tail, "\n");
      IndexIsFirst(tail, "\r\n");
      IndexIsFirst(tail, "\n");
      if crlf.Some? then TrimSpace(tail[..crlf.value])
      else if lf.Some? then TrimSpace(tail[..lf.value])
      else TrimSpace(tail[..Least(120, |tail|)])
  }

  datatype Prepared = Refused | Ready(conn: Prefixed)

  /** `statuses`: the answer holds HTTP status lines; `allowed`: the profile accepts them. */
  function Prepare(p: Probed, statuses: bool, allowed: bool): Prepared {
    if !p.fault.Fine? then Refused
    else if statuses && !allowed then Refused
    else if Banner(p.all) != "" && Index(p.all, BANNER).Some? then
      IndexIsFirst(p.all, BANNER);
      Ready(Prefixed(p.all[Index(p.all, BANNER).value..], p.wire))
    else if statuses then Ready(Prefixed("", p.wire))
    else Refused
  }

  lemma {:induction false} TrimRightKeeps(s: string, i: nat)
    requires i < |s| && !IsSpace(s[i])
    ensures s[..i + 1] <= TrimRight(s, IsSpace) <= s
  {
    if IsSpace(s[|s| - 1]) {
      TrimRightKeeps(s[..|s| - 1], i);
    }
  }

  /** The banner is empty only if there is no "SSH-": the two tests of the branch agree. */
  lemma {:induction false} BannerFound(all: string)
    ensures Banner(all) != "" <==> Index(all, BANNER).Some?
  {
    if Index(all, BANNER).Some? {
      IndexIsFirst(all, BANNER);
      var tail := all[Index(all, BANNER).value..];
      var crlf, lf := Index(tail, "\r\n"), Index(tail, "\n");
      IndexIsFirst(tail, "\r\n");
      IndexIsFirst(tail, "\n");
      var n := if crlf.Some? then crlf.value else if lf.Some? then lf.value else Least(120, |tail|);
      assert tail[0] == 'S';
      TrimRightKeeps(tail[..n], 0);
    }
  }

  /**
   What is done with the answer: an error of the probe and a status that is not allowed
   refuse it; otherwise the connection starts at the first "SSH-", or behind the
   answer where that holds only statuses, and is refused where it holds neither.
   */
  lemma {:induction false} PreparedWhen(p: Probed, statuses: bool, allowed: bool)
    ensures Prepare(p, statuses, allowed).Ready? <==> p.fault.Fine? && (statuses ==> allowed) && (statuses || HasBanner(p.all))
    ensures Prepare(p, statuses, allowed).Ready?
        ==> forall i: nat :: FirstAt(p.all, "SSH-", i) ==> i <= |p.all| && Prepare(p, statuses, allowed).conn == Prefixed(p.all[i..], p.wire)
    ensures Prepare(p, statuses, allowed).Ready? && !HasBanner(p.all) ==> Prepare(p, statuses, allowed).conn == Prefixed("", p.wire)
  {
    BannerFound(p.all);
    IndexHas(p.all);
    IndexIsFirst(p.all, BANNER);
  }

  /** The banner is the trimmed line: up to the first CRLF, without one up to the first LF, without either the first 120 bytes. */
  lemma {:induction false} BannerMeans(all: string, i: nat) returns (n: nat)
    requires FirstAt(all, "SSH-", i)
    ensures n <= |all| - i && Banner(all) == TrimSpace(all[i..i + n])
    ensures FirstAt(all[i..], "\r\n", n)
         || ((forall j: nat :: !At(all[i..], "\r\n", j)) && FirstAt(all[i..], "\n", n))
         || ((forall j: nat :: !At(all[i..], "\r\n", j) && !At(all[i..], "\n", j)) && n == if |all| - i < 120 then |all| - i else 120)
  {
    IndexIsFirst(all, "SSH-");
    var tail := all[i..];
    IndexIsFirst(tail, "\r\n");
    IndexIsFirst(tail, "\n");
    n := if Index(tail, "\r\n").Some? then Index(tail, "\r\n").value
         else if Index(tail, "\n").Some? then Index(tail, "\n").value else Least(120, |tail|);
    assert tail[..n] == all[i..i + n];
  }

  /**
   For every stream and every way it is cut into reads, when the banner is found
   the bytes SSH reads, in reads of any sizes, are the raw stream from its first
   "SSH-", none lost or repeated.
   */
  lemma {:induction false} BannerRealigned(server: string, events: seq<Event>, statuses: bool, allowed: bool, caps: seq<nat>)
    requires var p := ReadProbe(Wire(server, events)); Index(p.all, BANNER).Some? && Prepare(p, statuses, allowed).Ready?
    ensures Index(server, BANNER).Some? && Index(server, BANNER).value <= |server|
    ensures var c := Prepare(ReadProbe(Wire(server, events)), statuses, allowed).conn;
      ReadMany(c, caps).0 + Pending(ReadMany(c, caps).1) == server[Index(server, BANNER).value..]
  {
    var p := ReadProbe(Wire(server, events));
    CollectConserves(Wire(server, events), "");
    assert "" + server == server;
    BannerFound(p.all);
    FromFirst(p.all, p.wire.rest, BANNER);
    ReadManyConserves(Prepare(p, statuses, allowed).conn, caps);
  }

  // ----- the branch without a banner -----

  /** The text ends with a proper part of the banner's start. */
  predicate EndsInside(all: string, p: string) {
    exists n :: 0 < n < |p| && n <= |all| && all[|all| - n..] == p[..n]
  }

  /**
   Without a banner but with HTTP statuses, SSH reads on after all that was
   consumed. The banner still reaches it whole, whatever the server sends next,
   if and only if what was consumed does not end inside a banner.
   */
  lemma {:induction false} FallbackAligned(all: string, p: string)
    requires Index(all, p).None? && p != ""
    ensures (forall rest :: Index(all + rest, p).Some? ==> Index(all + rest, p).value >= |all|) <==> !EndsInside(all, p)
  {
    if EndsInside(all, p) {
      var n :| 0 < n < |p| && n <= |all| && all[|all| - n..] == p[..n];
      var rest := p[n..];
      var i := |all| - n;
      assert (all + rest)[i..i + |p|] == all[i..] + rest == p[..n] + p[n..] == p;
      assert At(all + rest, p, i);
      IndexIsFirst(all + rest, p);
    } else {
      forall rest | Index(all + rest, p).Some? ensures Index(all + rest, p).value >= |all| {
        IndexIsFirst(all + rest, p);
        IndexIsFirst(all, p);
        var i := Index(all + rest, p).value;
        if i < |all| {
          NotInside(all, rest, p, i);
        }
      }
    }
  }

  lemma {:induction false} NotInside(all: string, rest: string, p: string, i: nat)
    requires At(all + rest, p, i) && i < |all|
    ensures At(all, p, i) || EndsInside(all, p)
  {
    var s := all + rest;
    if i + |p| <= |all| {
      assert all[i..i + |p|] == s[i..i + |p|];
    } else {
      var n := |all| - i;
      assert all[|all| - n..] == s[i..i + n] == s[i..i + |p|][..n] == p[..n];
    }
  }

  /** A server whose first read ends inside the banner: SSH starts behind its first byte. */
  lemma {:induction false} BannerLost(head: string, tail: string)
    requires Index(head + "S", BANNER).None? && |head| < CHUNK
    ensures var server, p := head + "S" + ("SH-" + tail), ReadProbe(Wire(head + "S" + ("SH-" + tail), [Event(|head| + 1, Timeout)]));
      && p.all == head + "S" && EndsInside(p.all, BANNER)
      && Prepare(p, true, true) == Ready(Prefixed("", Wire("SH-" + tail, [])))
      && Index(server, BANNER).Some? && Index(server, BANNER).value < |p.all|
  {
    var all, rest := head + "S", "SH-" + tail;
    var w := Wire(all + rest, [Event(|head| + 1, Timeout)]);
    assert Take(w, CHUNK).data == all && Take(w, CHUNK).wire == Wire(rest, []) by {
      assert (all + rest)[..|all|] == all && (all + rest)[|all|..] == rest;
      assert w.events[1..] == [];
    }
    assert "" + all == all;
    BannerFound(all);
    var n := 1;
    assert all[|all| - n..] == BANNER[..n] == "S";
    assert (all + rest)[|head|..|head| + 4] == "SSH-";
    assert At(all + rest, BANNER, |head|);
    IndexIsFirst(all + rest, BANNER);
  }

  /** What SSH then reads: everything after the consumed bytes. */
  lemma {:induction false} FallbackReadsOn(server: string, events: seq<Event>, allowed: bool, caps: seq<nat>)
    requires var p := ReadProbe(Wire(server, events)); Index(p.all, BANNER).None? && Prepare(p, true, allowed).Ready?
    ensures var p := ReadProbe(Wire(server, events));
      var c := Prepare(p, true, allowed).conn;
      p.all <= server && ReadMany(c, caps).0 + Pending(ReadMany(c, caps).1) == server[|p.all|..]
  {
    var p := ReadProbe(Wire(server, events));
    CollectConserves(Wire(server, events), "");
    assert p.all + p.wire.rest == server;
    ReadManyConserves(Prepare(p, true, allowed).conn, caps);
  }

  // ----- the connections -----

  class Conn {
    var rest: string
    var events: seq<Event>

    constructor (server: string, events: seq<Event>)
      ensures Now() == Wire(server, events)
    {
      rest, this.events := server, events;
    }

    function Now(): Wire
      reads this
    {
      Wire(rest, events)
    }

    method Read(cap: nat) returns (data: string, fault: Fault)
      modifies this
      ensures Got(data, fault, Now()) == Take(old(Now()), cap)
    {
      if events == [] {
        return "", Timeout;
      }
      var n := Least(events[0].want, Least(cap, |rest|));
      data, fault := rest[..n], events[0].fault;
      rest, events := rest[n..], events[1..];
    }
  }

  class PrefixConn {
    const conn: Conn
    var prefix: string

    constructor (conn: Conn, prefix: string)
      ensures this.conn == conn && this.prefix == prefix
    {
      this.conn, this.prefix := conn, prefix;
    }

    function Now(): Prefixed
      reads this, conn
    {
      Prefixed(prefix, conn.Now())
    }

    method Read(cap: nat) returns (data: string, fault: Fault)
      modifies this, conn
      ensures (data, Now()) == ReadOne(old(Now()), cap)
      ensures fault == if old(prefix) != "" then Fine else Take(old(conn.Now()), cap).fault
    {
      if |prefix| > 0 {
        var n := Least(cap, |prefix|);
        data, prefix := prefix[..n], prefix[n..];
        return data, Fine;
      }
      data, fault := conn.Read(cap);
    }
  }

  /** readProbe; `ok` is false when it returns an error. */
  method Read(conn: Conn) returns (out: string, ok: bool)
    modifies conn
    ensures var p := ReadProbe(old(conn.Now())); out == p.all && ok == p.fault.Fine? && conn.Now() == p.wire
  {
    out := "";
    while |out| < MAX_BYTES
      invariant Collect(old(conn.Now()), "") == Collect(conn.Now(), out)
      decreases |conn.events|
    {
      ghost var before := conn.Now();
      var data, fault := conn.Read(CHUNK);
      out := out + data;
      if data != "" && Index(out, BANNER).Some? {
        return out, true;
      }
      if fault.Timeout? || fault.Eof? {
        break;
      }
      if fault.Broken? {
        return out, false;
      }
      assert before.events != [];
    }
    ok := |out| != 0;
  }
}

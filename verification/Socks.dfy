/**
 The SOCKS5 server handshake and the SOCKS5 client that talks to it (RFC 1928,
 sections 3 to 6). Every read is an io.ReadFull, so how the bytes are cut into
 packets does not show; a stream that ends early makes the read fail.
 */
module Socks {
  import opened Decimal

  newtype Byte = x: int | 0 <= x < 256

  type Bytes = seq<Byte>

  const COLON: Byte := 58
  const BUFFER: nat := 262

  function Ascii(s: string): (b: Bytes)
    ensures |b| == |s|
  {
    seq(|s|, i requires 0 <= i < |s| => ((s[i] as int) % 256) as Byte)
  }

  function Port(hi: Byte, lo: Byte): (port: nat)
    ensures port < 65536
  {
    hi as nat * 256 + lo as nat
  }

  /** net.JoinHostPort */
  function Join(host: Bytes, port: int): Bytes {
    (if COLON in host then [91] + host + [93] else host) + [COLON] + Ascii(Itoa(port))
  }

  function Dotted(b: Bytes): Bytes
    requires |b| == 4
  {
    Ascii(Itoa(b[0] as int) + "." + Itoa(b[1] as int) + "." + Itoa(b[2] as int) + "." + Itoa(b[3] as int))
  }

  // ----- the server -----

  /** The text form of 16 address bytes. */
  type Text6 = Bytes -> Bytes

  datatype Outcome = Target(target: Bytes) | Failed

  /** What the handshake returns, what it leaves unread and what it has sent. */
  datatype Session = Session(outcome: Outcome, rest: Bytes, sent: Bytes)

  function Reply(code: Byte): Bytes {
    [5, code, 0, 1, 0, 0, 0, 0, 0, 0]
  }

  /** The address of `n` bytes and the port. */
  function Address(input: Bytes, kind: Byte, n: nat, text6: Text6): Session
    requires kind == 1 ==> n == 4
  {
    if |input| < n + 2 then Session(Failed, [], [])
    else
      var b := input[..n];
      var host := if kind == 1 then Dotted(b) else if kind == 4 then text6(b) else b;
      Session(Target(Join(host, Port(input[n], input[n + 1]))), input[n + 2..], [])
  }

  function Request(input: Bytes, text6: Text6): Session {
    if |input| < 4 then Session(Failed, [], [])
    else
      var rest := input[4..];
      if input[0] != 5 then Session(Failed, rest, [])
      else if input[1] != 1 then Session(Failed, rest, Reply(7))
      else if input[3] == 1 then Address(rest, 1, 4, text6)
      else if input[3] == 4 then Address(rest, 4, 16, text6)
      else if input[3] != 3 then Session(Failed, rest, Reply(8))
      else if rest == [] then Session(Failed, [], [])
      else if rest[0] == 0 then Session(Failed, rest[1..], [])
      else Address(rest[1..], 3, rest[0] as nat, text6)
  }

  function Serve(input: Bytes, text6: Text6): Session {
    if |input| < 2 then Session(Failed, [], [])
    else if input[0] != 5 || input[1] == 0 then Session(Failed, input[2..], [])
    else if |input| < 2 + input[1] as nat then Session(Failed, [], [])
    else
      var s := Request(input[2 + input[1] as nat..], text6);
      s.(sent := [5, 0] + s.sent)
  }

  /** The same on a connection that takes `writes` more writes and then fails every one. */
  function ServeOver(input: Bytes, text6: Text6, writes: nat): Session {
    var s := Serve(input, text6);
    if s.sent == [] then s
    else if writes == 0 then Session(Failed, AfterChoice(input), [])
    else if writes == 1 then s.(sent := [5, 0])
    else s
  }

  /** What is unread when the method choice is written. */
  function AfterChoice(input: Bytes): Bytes {
    if |input| < 2 || |input| < 2 + input[1] as nat then [] else input[2 + input[1] as nat..]
  }

  // ----- the grammar of sections 3 to 5 -----

  datatype Addr = Ip4(b: Bytes) | Domain(b: Bytes) | Ip6(b: Bytes)

  predicate ValidAddr(a: Addr) {
    match a
    case Ip4(b) => |b| == 4
    case Domain(b) => 0 < |b| < 256
    case Ip6(b) => |b| == 16
  }

  function EncodeAddr(a: Addr): Bytes
    requires ValidAddr(a)
  {
    match a
    case Ip4(b) => [1] + b
    case Domain(b) => [3, |b| as Byte] + b
    case Ip6(b) => [4] + b
  }

  function HostText(a: Addr, text6: Text6): Bytes
    requires ValidAddr(a)
  {
    match a
    case Ip4(b) => Dotted(b)
    case Domain(b) => b
    case Ip6(b) => text6(b)
  }

  function EncodePort(port: nat): Bytes
    requires port < 65536
  {
    [(port / 256) as Byte, (port % 256) as Byte]
  }

  function Greeting(methods: Bytes): Bytes
    requires 0 < |methods| < 256
  {
    [5, |methods| as Byte] + methods
  }

  function Connect(rsv: Byte, a: Addr, port: nat): Bytes
    requires ValidAddr(a) && port < 65536
  {
    [5, 1, rsv] + EncodeAddr(a) + EncodePort(port)
  }

  lemma {:induction false} PortRoundTrip(port: nat)
    requires port < 65536
    ensures Port(EncodePort(port)[0], EncodePort(port)[1]) == port
  {
  }

  lemma {:induction false} Split(a: Bytes, b: Bytes)
    ensures (a + b)[..|a|] == a && (a + b)[|a|..] == b
  {
  }

  lemma {:induction false} AddressDecodes(b: Bytes, kind: Byte, port: nat, more: Bytes, text6: Text6)
    requires (kind == 1 ==> |b| == 4) && port < 65536
    ensures var host := if kind == 1 then Dotted(b) else if kind == 4 then text6(b) else b;
      Address(b + (EncodePort(port) + more), kind, |b|, text6) == Session(Target(Join(host, port)), more, [])
  {
    PortRoundTrip(port);
    var input := b + (EncodePort(port) + more);
    Split(b, EncodePort(port) + more);
    Split(EncodePort(port), more);
    assert input[|b|] == EncodePort(port)[0] && input[|b| + 1] == EncodePort(port)[1];
    assert input[|b| + 2..] == input[|b|..][2..];
  }

  /** The request after its four fixed bytes. */
  lemma {:induction false} RequestHead(rsv: Byte, kind: Byte, x: Bytes, text6: Text6)
    requires kind == 1 || kind == 3 || kind == 4
    ensures Request([5, 1, rsv, kind] + x, text6)
         == if kind == 1 then Address(x, 1, 4, text6)
            else if kind == 4 then Address(x, 4, 16, text6)
            else if x == [] then Session(Failed, [], [])
            else if x[0] == 0 then Session(Failed, x[1..], [])
            else Address(x[1..], 3, x[0] as nat, text6)
  {
    Split([5, 1, rsv, kind], x);
  }

  lemma {:induction false} Regroup(rsv: Byte, head: Bytes, b: Bytes, p: Bytes, more: Bytes)
    ensures [5, 1, rsv] + (head + b) + p + more == [5, 1, rsv] + head + (b + (p + more))
  {
  }

  lemma {:induction false} RequestDecodes(rsv: Byte, a: Addr, port: nat, more: Bytes, text6: Text6)
    requires ValidAddr(a) && port < 65536
    ensures Request(Connect(rsv, a, port) + more, text6) == Session(Target(Join(HostText(a, text6), port)), more, [])
  {
    var p := EncodePort(port);
    match a {
      case Ip4(b) =>
        Regroup(rsv, [1], b, p, more);
        assert [5, 1, rsv] + [1] == [5, 1, rsv, 1];
        RequestHead(rsv, 1, b + (p + more), text6);
        AddressDecodes(b, 1, port, more, text6);
      case Domain(b) =>
        NameRequest(rsv, |b| as Byte, b, p, more, text6);
        AddressDecodes(b, 3, port, more, text6);
      case Ip6(b) =>
        Regroup(rsv, [4], b, p, more);
        assert [5, 1, rsv] + [4] == [5, 1, rsv, 4];
        RequestHead(rsv, 4, b + (p + more), text6);
        AddressDecodes(b, 4, port, more, text6);
    }
  }

  lemma {:induction false} NameRequest(rsv: Byte, l: Byte, b: Bytes, p: Bytes, more: Bytes, text6: Text6)
    ensures Request([5, 1, rsv] + ([3, l] + b) + p + more, text6)
         == if l == 0 then Session(Failed, b + (p + more), []) else Address(b + (p + more), 3, l as nat, text6)
  {
    var x := b + (p + more);
    Regroup(rsv, [3, l], b, p, more);
    NameHead(rsv, l, x);
    RequestHead(rsv, 3, [l] + x, text6);
    Split([l], x);
  }

  /** The server accepts every well-formed dialogue, with exactly its target, and leaves what follows unread. */
  lemma {:induction false} ServeDecodes(methods: Bytes, rsv: Byte, a: Addr, port: nat, more: Bytes, text6: Text6)
    requires 0 < |methods| < 256 && ValidAddr(a) && port < 65536
    ensures Serve(Greeting(methods) + (Connect(rsv, a, port) + more), text6)
         == Session(Target(Join(HostText(a, text6), port)), more, [5, 0])
  {
    var input := Greeting(methods) + (Connect(rsv, a, port) + more);
    Split(Greeting(methods), Connect(rsv, a, port) + more);
    assert input[0] == 5 && input[1] == |methods| as Byte;
    assert 2 + input[1] as nat == |Greeting(methods)|;
    RequestDecodes(rsv, a, port, more, text6);
    assert [5, 0] + [] == [5, 0];
  }

  /** And it accepts nothing else. */
  lemma {:induction false} AcceptedIsWellFormed(input: Bytes, text6: Text6)
      returns (methods: Bytes, rsv: Byte, a: Addr, port: nat)
    requires Serve(input, text6).outcome.Target?
    ensures 0 < |methods| < 256 && ValidAddr(a) && port < 65536
    ensures input == Greeting(methods) + (Connect(rsv, a, port) + Serve(input, text6).rest)
    ensures Serve(input, text6).outcome.target == Join(HostText(a, text6), port)
  {
    var n := input[1] as nat;
    methods := input[2..2 + n];
    var req := input[2 + n..];
    assert input == Greeting(methods) + req;
    rsv, a, port := RequestIsWellFormed(req, text6);
  }

  /** A connection that breaks turns an acceptance into a failure exactly if it breaks before the method choice. */
  lemma {:induction false} BrokenConnection(input: Bytes, text6: Text6, writes: nat)
    ensures ServeOver(input, text6, writes).outcome.Target? <==> Serve(input, text6).outcome.Target? && writes > 0
    ensures ServeOver(input, text6, writes).outcome.Target? ==> ServeOver(input, text6, writes) == Serve(input, text6)
    ensures ServeOver(input, text6, writes).sent
         == (if writes == 0 || Serve(input, text6).sent == [] then [] else if writes == 1 then [5, 0] else Serve(input, text6).sent)
    ensures writes > 0 ==> ServeOver(input, text6, writes).rest == Serve(input, text6).rest
    ensures writes == 0 && Serve(input, text6).sent != []
        ==> |input| >= 2 + input[1] as nat && ServeOver(input, text6, writes).rest == input[2 + input[1] as nat..]
  {
    if Serve(input, text6).outcome.Target? {
      var s := Request(input[2 + input[1] as nat..], text6);
      assert s.sent == [] && [5, 0] + s.sent == [5, 0];
    }
  }

  lemma {:induction false} AddressIsWellFormed(x: Bytes, kind: Byte, n: nat, text6: Text6) returns (b: Bytes, port: nat)
    requires (kind == 1 ==> n == 4) && Address(x, kind, n, text6).outcome.Target?
    ensures |b| == n && port < 65536
    ensures x == b + (EncodePort(port) + Address(x, kind, n, text6).rest)
    ensures Address(x, kind, n, text6).outcome.target
         == Join(if kind == 1 then Dotted(b) else if kind == 4 then text6(b) else b, port)
  {
    b, port := x[..n], Port(x[n], x[n + 1]);
    assert EncodePort(port) == [x[n], x[n + 1]];
    assert x[n..] == [x[n], x[n + 1]] + x[n + 2..];
    assert x == x[..n] + x[n..];
  }

  lemma {:induction false} RequestIsWellFormed(req: Bytes, text6: Text6) returns (rsv: Byte, a: Addr, port: nat)
    requires Request(req, text6).outcome.Target?
    ensures ValidAddr(a) && port < 65536
    ensures req == Connect(rsv, a, port) + Request(req, text6).rest
    ensures Request(req, text6).outcome.target == Join(HostText(a, text6), port)
  {
    var kind, x := req[3], req[4..];
    rsv := req[2];
    assert req == [5, 1, rsv, kind] + x;
    RequestHead(rsv, kind, x, text6);
    if kind == 3 {
      a, port := NameIsWellFormed(rsv, x[0], x[1..], text6);
      assert x == [x[0]] + x[1..];
    } else {
      var b;
      b, port := AddressIsWellFormed(x, kind, if kind == 1 then 4 else 16, text6);
      a := if kind == 1 then Ip4(b) else Ip6(b);
      Regroup(rsv, [kind], b, EncodePort(port), Request(req, text6).rest);
      assert [5, 1, rsv] + [kind] == [5, 1, rsv, kind];
    }
  }

  lemma {:induction false} NameIsWellFormed(rsv: Byte, l: Byte, y: Bytes, text6: Text6) returns (a: Addr, port: nat)
    requires l != 0 && Address(y, 3, l as nat, text6).outcome.Target?
    ensures ValidAddr(a) && port < 65536
    ensures var s := Address(y, 3, l as nat, text6);
      [5, 1, rsv, 3] + ([l] + y) == Connect(rsv, a, port) + s.rest && s.outcome.target == Join(HostText(a, text6), port)
  {
    var b;
    b, port := AddressIsWellFormed(y, 3, l as nat, text6);
    a := Domain(b);
    assert EncodeAddr(a) == [3, l] + b;
    Regroup(rsv, [3, l], b, EncodePort(port), Address(y, 3, l as nat, text6).rest);
    NameHead(rsv, l, y);
  }

  lemma {:induction false} NameHead(rsv: Byte, l: Byte, y: Bytes)
    ensures [5, 1, rsv] + [3, l] + y == [5, 1, rsv, 3] + ([l] + y)
  {
  }

  // ----- the text form names one host and port -----

  lemma {:induction false} AsciiNoColon(n: int)
    ensures COLON !in Ascii(Itoa(n))
  {
    ItoaPlain(n);
    forall i | 0 <= i < |Itoa(n)| ensures Ascii(Itoa(n))[i] != COLON {
      assert Itoa(n)[i] in Itoa(n);
    }
  }

  lemma {:induction false} NoColonAfter(a: Bytes, b: Bytes, i: nat)
    requires COLON !in b && i < |a + [COLON] + b| && (a + [COLON] + b)[i] == COLON
    ensures i <= |a|
  {
  }

  lemma {:induction false} LastColon(a: Bytes, b: Bytes, c: Bytes, d: Bytes)
    requires a + [COLON] + b == c + [COLON] + d && COLON !in b && COLON !in d
    ensures a == c && b == d
  {
    var s := a + [COLON] + b;
    assert s[|a|] == COLON && (c + [COLON] + d)[|c|] == COLON;
    NoColonAfter(a, b, |c|);
    NoColonAfter(c, d, |a|);
    assert a == s[..|a|] == c && b == s[|a| + 1..] == d;
  }

  lemma {:induction false} AsciiSame(s: string, t: string)
    requires Ascii(s) == Ascii(t) && forall c :: c in s || c in t ==> (c as int) < 256
    ensures s == t
  {
    assert |s| == |Ascii(s)| == |t|;
    forall i | 0 <= i < |s| ensures s[i] == t[i] {
      assert s[i] in s && t[i] in t;
      assert Ascii(s)[i] == Ascii(t)[i];
    }
  }

  lemma {:induction false} ItoaSame(m: nat, n: nat)
    requires Ascii(Itoa(m)) == Ascii(Itoa(n))
    ensures m == n
  {
    DigitsValue(m);
    DigitsValue(n);
    AsciiSame(Itoa(m), Itoa(n));
  }

  /** Two targets are the same text only if they are the same host and port. */
  lemma {:induction false} TargetUnambiguous(h: Bytes, p: nat, h': Bytes, p': nat)
    requires Join(h, p) == Join(h', p')
    ensures h == h' && p == p'
  {
    AsciiNoColon(p);
    AsciiNoColon(p');
    var a := if COLON in h then [91] + h + [93] else h;
    var c := if COLON in h' then [91] + h' + [93] else h';
    LastColon(a, Ascii(Itoa(p)), c, Ascii(Itoa(p')));
    ItoaSame(p, p');
    if COLON in h {
      var i :| 0 <= i < |h| && h[i] == COLON;
      assert a[i + 1] == COLON && a[1..|a| - 1] == h;
    }
    if COLON in h' {
      var i :| 0 <= i < |h'| && h'[i] == COLON;
      assert c[i + 1] == COLON && c[1..|c| - 1] == h';
    }
  }

  // ----- reading a target back -----

  /** The numbers between the dots of a text, `cur` being the digits read so far. */
  function Numbers(t: Bytes, cur: int): seq<int> {
    if t == [] then [cur]
    else if t[0] == 46 then [cur] + Numbers(t[1..], 0)
    else Numbers(t[1..], 10 * cur + (t[0] as int - 48))
  }

  lemma {:induction false} AsciiConcat(s: string, t: string)
    ensures Ascii(s + t) == Ascii(s) + Ascii(t)
  {
  }

  lemma {:induction false} NumbersNext(c: char, rest: Bytes, cur: int)
    requires IsDigit(c)
    ensures Numbers(Ascii([c]) + rest, cur) == Numbers(rest, 10 * cur + (c as int - 48))
  {
    var t := Ascii([c]) + rest;
    assert t[0] == c as int as Byte && t[1..] == rest;
  }

  lemma {:induction false} DigitsRead(n: nat, rest: Bytes)
    ensures Numbers(Ascii(Digits(n)) + rest, 0) == Numbers(rest, n)
  {
    if n < 10 {
      NumbersNext(Digit(n), rest, 0);
    } else {
      var last := [Digit(n % 10)];
      AsciiConcat(Digits(n / 10), last);
      Regrouped(Ascii(Digits(n / 10)), Ascii(last), rest);
      DigitsRead(n / 10, Ascii(last) + rest);
      NumbersNext(Digit(n % 10), rest, n / 10);
    }
  }

  lemma {:induction false} Regrouped(a: Bytes, b: Bytes, c: Bytes)
    ensures (a + b) + c == a + (b + c)
  {
  }

  /** The dotted text of an address reads back as its four bytes, in order. */
  lemma {:induction false} DottedReads(b: Bytes)
    requires |b| == 4
    ensures Numbers(Dotted(b), 0) == [b[0] as int, b[1] as int, b[2] as int, b[3] as int]
    ensures 58 !in Dotted(b)
  {
    var dot: Bytes := [46];
    var x0, x1, x2, x3 := Ascii(Itoa(b[0] as int)), Ascii(Itoa(b[1] as int)), Ascii(Itoa(b[2] as int)), Ascii(Itoa(b[3] as int));
    DottedIs(b, x0, x1, x2, x3);
    DotNext(b[0] as int, x1 + (dot + (x2 + (dot + x3))));
    DotNext(b[1] as int, x2 + (dot + x3));
    DotNext(b[2] as int, x3);
    DigitsRead(b[3] as int, []);
    assert x3 + [] == x3;
    AsciiNoColon(b[0] as int);
    AsciiNoColon(b[1] as int);
    AsciiNoColon(b[2] as int);
    AsciiNoColon(b[3] as int);
  }

  lemma {:induction false} DottedIs(b: Bytes, x0: Bytes, x1: Bytes, x2: Bytes, x3: Bytes)
    requires |b| == 4 && x0 == Ascii(Itoa(b[0] as int)) && x1 == Ascii(Itoa(b[1] as int))
    requires x2 == Ascii(Itoa(b[2] as int)) && x3 == Ascii(Itoa(b[3] as int))
    ensures Dotted(b) == x0 + ([46] + (x1 + ([46] + (x2 + ([46] + x3)))))
  {
    var s0, s1, s2, s3 := Itoa(b[0] as int), Itoa(b[1] as int), Itoa(b[2] as int), Itoa(b[3] as int);
    AsciiConcat(s0 + "." + s1 + "." + s2 + ".", s3);
    AsciiConcat(s0 + "." + s1 + "." + s2, ".");
    AsciiConcat(s0 + "." + s1 + ".", s2);
    AsciiConcat(s0 + "." + s1, ".");
    AsciiConcat(s0 + ".", s1);
    AsciiConcat(s0, ".");
    assert Ascii(".") == [46];
    SixParts(x0, x1, x2, x3, [46]);
  }

  lemma {:induction false} SixParts(x0: Bytes, x1: Bytes, x2: Bytes, x3: Bytes, d: Bytes)
    ensures x0 + d + x1 + d + x2 + d + x3 == x0 + (d + (x1 + (d + (x2 + (d + x3)))))
  {
  }

  lemma {:induction false} DotNext(n: nat, rest: Bytes)
    ensures Numbers(Ascii(Itoa(n)) + ([46] + rest), 0) == [n] + Numbers(rest, 0)
  {
    DigitsRead(n, [46] + rest);
    assert ([46] + rest)[0] == 46 && ([46] + rest)[1..] == rest;
  }

  /** Different addresses have different texts. */
  lemma {:induction false} DottedUnambiguous(b: Bytes, c: Bytes)
    requires |b| == 4 && |c| == 4 && Dotted(b) == Dotted(c)
    ensures b == c
  {
    DottedReads(b);
    DottedReads(c);
    assert Numbers(Dotted(b), 0)[0] == b[0] as int && Numbers(Dotted(b), 0)[1] == b[1] as int;
    assert Numbers(Dotted(b), 0)[2] == b[2] as int && Numbers(Dotted(b), 0)[3] == b[3] as int;
  }

  /** The text names the host and the port: the host, in brackets iff it holds a colon, a colon, and the digits of the port. */
  ghost predicate Names(t: Bytes, host: Bytes, port: int) {
    exists digits: Bytes :: t == (if 58 in host then [91] + host + [93] else host) + [58] + digits && PortDigits(digits, port)
  }

  ghost predicate PortDigits(digits: Bytes, port: int) {
    digits != [] && (digits[0] == 48 ==> |digits| == 1) && (forall d :: d in digits ==> 48 <= d <= 57) && Numbers(digits, 0) == [port]
  }

  lemma {:induction false} PortReads(port: nat)
    ensures PortDigits(Ascii(Itoa(port)), port)
  {
    var d := Ascii(Itoa(port));
    DigitsRead(port, []);
    assert d + [] == d;
    ItoaShape(port);
    DigitsAreDigits(port);
    forall i | 0 <= i < |d| ensures 48 <= d[i] <= 57 {
      assert Itoa(port)[i] in Itoa(port);
    }
    assert IsDigit(Itoa(port)[0]) by { assert Itoa(port)[0] in Itoa(port); }
  }

  lemma {:induction false} JoinNames(host: Bytes, port: nat)
    ensures Names(Join(host, port), host, port)
  {
    PortReads(port);
  }

  /** What the host of an accepted target is: for an IPv4 address a text that reads back as its four bytes. */
  ghost predicate IsHost(host: Bytes, a: Addr, text6: Text6)
    requires ValidAddr(a)
  {
    match a
    case Ip4(b) => Numbers(host, 0) == [b[0] as int, b[1] as int, b[2] as int, b[3] as int] && 58 !in host
    case Domain(b) => host == b
    case Ip6(b) => host == text6(b)
  }

  /** In bytes: the target that the server takes from a request, with the port in network order. */
  lemma {:induction false} ServedTarget(methods: Bytes, rsv: Byte, a: Addr, hi: Byte, lo: Byte, more: Bytes, text6: Text6) returns (host: Bytes)
    requires 0 < |methods| < 256 && ValidAddr(a)
    ensures var head: Bytes := match a case Ip4(b) => [5, 1, rsv, 1] + b case Domain(b) => [5, 1, rsv, 3, |b| as Byte] + b case Ip6(b) => [5, 1, rsv, 4] + b;
      var s := Serve([5, |methods| as Byte] + methods + (head + [hi, lo] + more), text6);
      && s.sent == [5, 0] && s.rest == more && s.outcome.Target?
      && Names(s.outcome.target, host, 256 * hi as int + lo as int) && IsHost(host, a, text6)
  {
    var port := 256 * hi as int + lo as int;
    host := HostText(a, text6);
    var head: Bytes := match a case Ip4(b) => [5, 1, rsv, 1] + b case Domain(b) => [5, 1, rsv, 3, |b| as Byte] + b case Ip6(b) => [5, 1, rsv, 4] + b;
    HeadIs(rsv, a, head);
    assert EncodePort(port) == [hi, lo];
    ServeDecodes(methods, rsv, a, port, more, text6);
    JoinNames(host, port);
    if a.Ip4? {
      DottedReads(a.b);
    }
  }

  lemma {:induction false} HeadIs(rsv: Byte, a: Addr, head: Bytes)
    requires ValidAddr(a)
    requires head == match a case Ip4(b) => [5, 1, rsv, 1] + b case Domain(b) => [5, 1, rsv, 3, |b| as Byte] + b case Ip6(b) => [5, 1, rsv, 4] + b
    ensures [5, 1, rsv] + EncodeAddr(a) == head
  {
    match a {
      case Ip4(b) => assert [5, 1, rsv] + ([1] + b) == [5, 1, rsv, 1] + b;
      case Domain(b) => assert [5, 1, rsv] + ([3, |b| as Byte] + b) == [5, 1, rsv, 3, |b| as Byte] + b;
      case Ip6(b) => assert [5, 1, rsv] + ([4] + b) == [5, 1, rsv, 4] + b;
    }
  }

  // ----- what the server answers when it refuses -----

  /** A greeting of another version, or without methods, is refused without a word. */
  lemma {:induction false} GreetingRefused(version: Byte, methods: Byte, more: Bytes, text6: Text6)
    ensures version != 5 || methods == 0 ==> Serve([version, methods] + more, text6) == Session(Failed, more, [])
  {
    Split([version, methods], more);
  }

  /**
   Behind a good greeting: another version is refused after the method choice alone,
   another command with code 7, another address type with code 8, an empty name with none.
   */
  lemma {:induction false} RequestRefused(methods: Bytes, version: Byte, cmd: Byte, rsv: Byte, kind: Byte, more: Bytes, text6: Text6)
    requires 0 < |methods| < 256
    ensures var s := Serve([5, |methods| as Byte] + methods + ([version, cmd, rsv, kind] + more), text6);
      && (version != 5 ==> s == Session(Failed, more, [5, 0]))
      && (version == 5 && cmd != 1 ==> s == Session(Failed, more, [5, 0, 5, 7, 0, 1, 0, 0, 0, 0, 0, 0]))
      && (version == 5 && cmd == 1 && kind != 1 && kind != 3 && kind != 4 ==> s == Session(Failed, more, [5, 0, 5, 8, 0, 1, 0, 0, 0, 0, 0, 0]))
      && (version == 5 && cmd == 1 && kind == 3 && more != [] && more[0] == 0 ==> s == Session(Failed, more[1..], [5, 0]))
  {
    var g: Bytes := [5, |methods| as Byte] + methods;
    var req: Bytes := [version, cmd, rsv, kind] + more;
    Split(g, req);
    Split([version, cmd, rsv, kind], more);
    assert (g + req)[0] == 5 && (g + req)[1] == |methods| as Byte && 2 + |methods| == |g|;
    assert [5, 0] + Reply(7) == [5, 0, 5, 7, 0, 1, 0, 0, 0, 0, 0, 0];
    assert [5, 0] + Reply(8) == [5, 0, 5, 8, 0, 1, 0, 0, 0, 0, 0, 0];
    assert [5, 0] + [] == [5, 0];
  }

  // ----- the client -----

  /** The bytes the client sends after the greeting; the port is truncated to 16 bits. */
  function ClientRequest(host: Bytes, port: int): Bytes
    requires |host| <= 255
  {
    [5, 1, 0, 3, |host| as Byte] + host + EncodePort(port % 65536)
  }

  const CLIENT_GREETING: Bytes := [5, 1, 0]

  /** readSOCKS5ConnectReply: whether it succeeds and what is left unread. */
  function ReadReply(input: Bytes): (bool, Bytes) {
    if |input| < 4 then (false, [])
    else
      var rest := input[4..];
      if input[0] != 5 || input[1] != 0 then (false, rest)
      else if input[3] == 1 then Skip(rest, 4)
      else if input[3] == 4 then Skip(rest, 16)
      else if input[3] != 3 then (false, rest)
      else if rest == [] then (false, [])
      else Skip(rest[1..], rest[0] as nat)
  }

  /** Skip the bound address and port. */
  function Skip(input: Bytes, n: nat): (bool, Bytes) {
    if |input| < n + 2 then (false, []) else (true, input[n + 2..])
  }

  /**
   The two parties agree: for every host of at most 255 bytes and every port, the
   server reads exactly this target from the client's bytes and leaves the rest
   unread; only the empty host is turned down.
   */
  lemma {:induction false} PartiesAgree(host: Bytes, port: nat, more: Bytes, text6: Text6)
    requires |host| <= 255 && port < 65536
    ensures var s := Serve(CLIENT_GREETING + (ClientRequest(host, port) + more), text6);
      && s.sent == [5, 0]
      && (host != [] ==> s.outcome == Target(Join(host, port)) && s.rest == more)
      && (host == [] ==> s.outcome == Failed && s.rest == EncodePort(port) + more)
  {
    var methods: Bytes := [0];
    assert CLIENT_GREETING == Greeting(methods);
    if host != [] {
      assert ClientRequest(host, port) == Connect(0, Domain(host), port);
      ServeDecodes(methods, 0, Domain(host), port, more, text6);
    } else {
      var req := ClientRequest(host, port) + more;
      var input := CLIENT_GREETING + req;
      Split(CLIENT_GREETING, req);
      assert input[0] == 5 && input[1] == 1 && input[3..] == req;
      assert req[4..][1..] == EncodePort(port) + more;
      assert [5, 0] + [] == [5, 0];
    }
  }

  /** The client takes the success reply and nothing after it; any other code is an error. */
  lemma {:induction false} ReplyExact(code: Byte, more: Bytes)
    ensures |Reply(code)| == 10
    ensures code == 0 ==> ReadReply(Reply(code) + more) == (true, more)
    ensures ReadReply(Reply(code) + more).0 <==> code == 0
  {
    var input := Reply(code) + more;
    Split(Reply(code), more);
    assert input[4..][6..] == input[10..];
  }

  /** A port outside 16 bits is cut down to its low 16 bits, and that is what the server learns. */
  lemma {:induction false} PortTruncated(greeting: Bytes, host: Bytes, port: int, more: Bytes, text6: Text6)
    requires 0 < |host| <= 255 && greeting == [5, 1, 0]
    ensures Serve(greeting + (ClientRequest(host, port) + more), text6) == Session(Target(Join(host, port % 65536)), more, [5, 0])
  {
    SameRequest(host, port);
    PartiesAgree(host, port % 65536, more, text6);
  }

  lemma {:induction false} SameRequest(host: Bytes, port: int)
    requires |host| <= 255
    ensures ClientRequest(host, port) == ClientRequest(host, port % 65536)
  {
  }

  /** A success reply is taken with the bound address of any type and the port behind it; another type, version or code is refused. */
  lemma {:induction false} ReplyForms(version: Byte, code: Byte, rsv: Byte, kind: Byte, bound: Bytes, port: Bytes, more: Bytes)
    requires |port| == 2
    ensures var r := ReadReply([version, code, rsv, kind] + (bound + (port + more)));
      && (version == 5 && code == 0 && kind == 1 && |bound| == 4 ==> r == (true, more))
      && (version == 5 && code == 0 && kind == 4 && |bound| == 16 ==> r == (true, more))
      && (version == 5 && code == 0 && kind == 3 && bound != [] && |bound| == 1 + bound[0] as nat ==> r == (true, more))
      && (version != 5 || code != 0 || (kind != 1 && kind != 3 && kind != 4) ==> !r.0)
  {
    var rest := bound + (port + more);
    Split([version, code, rsv, kind], rest);
    Split(bound, port + more);
    Split(port, more);
    Skipped(bound, port, more);
    if bound != [] {
      Skipped(bound[1..], port, more);
      assert rest[1..] == bound[1..] + (port + more);
    }
  }

  lemma {:induction false} Skipped(bound: Bytes, port: Bytes, more: Bytes)
    requires |port| == 2
    ensures Skip(bound + (port + more), |bound|) == (true, more)
  {
    assert (bound + (port + more))[|bound| + 2..] == more;
  }

  // ----- the two parties on their connections -----

  /** A connection: what the peer still sends, what was sent to it, and how many writes it still takes. */
  class Peer {
    var rest: Bytes
    var sent: Bytes
    var writes: nat

    constructor (rest: Bytes, writes: nat)
      ensures this.rest == rest && sent == [] && this.writes == writes
    {
      this.rest, sent, this.writes := rest, [], writes;
    }

    /** io.ReadFull into the first `n` bytes of the buffer. */
    method ReadFull(buf: array<Byte>, n: nat) returns (ok: bool)
      requires n <= buf.Length
      modifies this, buf
      ensures sent == old(sent) && writes == old(writes) && ok == (n <= |old(rest)|)
      ensures rest == if ok then old(rest)[n..] else []
      ensures ok ==> buf[..n] == old(rest)[..n]
    {
      var got := if n <= |rest| then n else |rest|;
      for i := 0 to got
        invariant rest == old(rest) && sent == old(sent) && writes == old(writes)
        invariant forall j :: 0 <= j < i ==> buf[j] == rest[j]
      {
        buf[i] := rest[i];
      }
      ok := n <= |rest|;
      rest := rest[got..];
    }

    /** io.CopyN to nowhere. */
    method Discard(n: nat) returns (ok: bool)
      modifies this
      ensures sent == old(sent) && writes == old(writes) && ok == (n <= |old(rest)|)
      ensures rest == if ok then old(rest)[n..] else []
    {
      ok := n <= |rest|;
      rest := if n <= |rest| then rest[n..] else [];
    }

    /** A failed write sends nothing. */
    method Write(b: Bytes) returns (ok: bool)
      modifies this
      ensures ok == (old(writes) > 0) && writes == (if ok then old(writes) - 1 else 0)
      ensures rest == old(rest) && sent == old(sent) + if ok then b else []
    {
      ok := writes > 0;
      if ok {
        sent, writes := sent + b, writes - 1;
      }
    }
  }

  /** socks5Reply */
  method SendReply(c: Peer, code: Byte) returns (ok: bool)
    modifies c
    ensures ok == (old(c.writes) > 0)
    ensures c.rest == old(c.rest) && c.sent == old(c.sent) + if ok then Reply(code) else []
  {
    ok := c.Write([5, code, 0, 1, 0, 0, 0, 0, 0, 0]);
  }

  /** The end of socks5Handshake: the address, then the port. */
  method ReadAddress(c: Peer, buf: array<Byte>, kind: Byte, n: nat, text6: Text6) returns (r: Outcome)
    requires n + 2 <= buf.Length && (kind == 1 ==> n == 4)
    modifies c, buf
    ensures Session(r, c.rest, []) == Address(old(c.rest), kind, n, text6) && c.sent == old(c.sent)
  {
    ghost var input := c.rest;
    var ok := c.ReadFull(buf, n);
    if !ok {
      return Failed;
    }
    var b := buf[..n];
    var host := if kind == 1 then Dotted(b) else if kind == 4 then text6(b) else b;
    ok := c.ReadFull(buf, 2);
    if !ok {
      return Failed;
    }
    assert input[n..][..2] == [input[n], input[n + 1]] && input[n..][2..] == input[n + 2..];
    assert buf[0] == buf[..2][0] && buf[1] == buf[..2][1];
    r := Target(Join(host, Port(buf[0], buf[1])));
  }

  method ReadRequest(c: Peer, buf: array<Byte>, text6: Text6) returns (r: Outcome)
    requires buf.Length == BUFFER
    modifies c, buf
    ensures var s := Request(old(c.rest), text6);
      s == Session(r, c.rest, s.sent) && c.sent == old(c.sent) + if old(c.writes) > 0 then s.sent else []
  {
    ghost var input := c.rest;
    var ok := c.ReadFull(buf, 4);
    if !ok {
      return Failed;
    }
    assert forall i :: 0 <= i < 4 ==> buf[i] == buf[..4][i] == input[i];
    if buf[0] != 5 {
      return Failed;
    }
    if buf[1] != 1 {
      var _ := SendReply(c, 7);
      return Failed;
    }
    match buf[3]
    case 1 =>
      r := ReadAddress(c, buf, 1, 4, text6);
    case 4 =>
      r := ReadAddress(c, buf, 4, 16, text6);
    case 3 =>
      ok := c.ReadFull(buf, 1);
      if !ok {
        return Failed;
      }
      assert buf[0] == buf[..1][0];
      if buf[0] == 0 {
        return Failed;
      }
      r := ReadAddress(c, buf, 3, buf[0] as nat, text6);
    case _ =>
      var _ := SendReply(c, 8);
      return Failed;
  }

  /** The handshake from the method choice on. */
  lemma {:induction false} FromChoice(input: Bytes, n: nat, text6: Text6, writes: nat)
    requires |input| >= 2 + n && input[0] == 5 && input[1] as nat == n > 0
    ensures var s := Request(input[2 + n..], text6);
      ServeOver(input, text6, writes)
      == if writes == 0 then Session(Failed, input[2 + n..], [])
         else s.(sent := [5, 0] + if writes > 1 then s.sent else [])
  {
    assert [5, 0] + [] == [5, 0];
  }

  /** Before the method choice every refusal is silent. */
  lemma {:induction false} BeforeChoice(input: Bytes, text6: Text6, writes: nat)
    ensures |input| < 2 ==> ServeOver(input, text6, writes) == Session(Failed, [], [])
    ensures |input| >= 2 && (input[0] != 5 || input[1] == 0) ==> ServeOver(input, text6, writes) == Session(Failed, input[2..], [])
    ensures |input| >= 2 && input[0] == 5 && input[1] != 0 && |input| < 2 + input[1] as nat
        ==> ServeOver(input, text6, writes) == Session(Failed, [], [])
  {
  }

  /** The middle of socks5Handshake: the method choice, then the request. */
  method Choose(c: Peer, buf: array<Byte>, text6: Text6) returns (r: Outcome)
    requires buf.Length == BUFFER
    modifies c, buf
    ensures old(c.writes) == 0 ==> r == Failed && c.rest == old(c.rest) && c.sent == old(c.sent)
    ensures old(c.writes) > 0 ==> var s := Request(old(c.rest), text6);
      s == Session(r, c.rest, s.sent) && c.sent == old(c.sent) + ([5, 0] + if old(c.writes) > 1 then s.sent else [])
  {
    var ok := c.Write([5, 0]);
    if !ok {
      return Failed;
    }
    r := ReadRequest(c, buf, text6);
  }

  /** socks5Handshake */
  method Handshake(c: Peer, text6: Text6) returns (r: Outcome)
    modifies c
    ensures var s := ServeOver(old(c.rest), text6, old(c.writes)); s == Session(r, c.rest, s.sent) && c.sent == old(c.sent) + s.sent
  {
    ghost var input := c.rest;
    var buf := new Byte[BUFFER];
    BeforeChoice(input, text6, c.writes);
    var ok := c.ReadFull(buf, 2);
    if !ok {
      return Failed;
    }
    assert buf[0] == buf[..2][0] && buf[1] == buf[..2][1];
    if buf[0] != 5 {
      return Failed;
    }
    var n := buf[1] as nat;
    if n < 1 {
      return Failed;
    }
    ok := c.ReadFull(buf, n);
    if !ok {
      return Failed;
    }
    assert input[2..][n..] == input[2 + n..];
    FromChoice(input, n, text6, c.writes);
    r := Choose(c, buf, text6);
  }

  /** readSOCKS5ConnectReply */
  method ReadConnectReply(c: Peer) returns (ok: bool)
    modifies c
    ensures (ok, c.rest) == ReadReply(old(c.rest)) && c.sent == old(c.sent)
  {
    ghost var input := c.rest;
    var head := new Byte[4];
    ok := c.ReadFull(head, 4);
    if !ok {
      return;
    }
    assert forall i :: 0 <= i < 4 ==> head[i] == head[..4][i] == input[i];
    if head[0] != 5 || head[1] != 0 {
      return false;
    }
    var skip: nat;
    match head[3] {
      case 1 => skip := 4;
      case 4 => skip := 16;
      case 3 =>
        var l := new Byte[1];
        ok := c.ReadFull(l, 1);
        if !ok {
            return;
        }
        assert l[0] == l[..1][0] == input[4..][0];
        skip := l[0] as nat;
      case _ =>
        return false;
    }
    ghost var bound := c.rest;
    ok := c.Discard(skip);
    if ok {
      ok := c.Discard(2);
      assert |bound| >= skip + 2 ==> bound[skip..][2..] == bound[skip + 2..];
    }
  }

  /** What the client does with the server's bytes, and what it sends on the way. */
  function ClientRun(host: Bytes, port: int, input: Bytes, writes: nat): (bool, Bytes, Bytes) {
    if writes == 0 then (false, input, [])
    else if |input| < 2 then (false, [], CLIENT_GREETING)
    else if input[0] != 5 || input[1] != 0 || |host| > 255 || writes == 1 then (false, input[2..], CLIENT_GREETING)
    else
      var (ok, rest) := ReadReply(input[2..]);
      (ok, rest, CLIENT_GREETING + ClientRequest(host, port))
  }

  /** The SOCKS part of fetchHTTPViaLocalSOCKS. */
  method OpenThroughProxy(c: Peer, host: Bytes, port: int) returns (ok: bool)
    modifies c
    ensures var (r, rest, sent) := ClientRun(host, port, old(c.rest), old(c.writes));
      ok == r && c.rest == rest && c.sent == old(c.sent) + sent
  {
    ok := c.Write([5, 1, 0]);
    if !ok {
      return;
    }
    var reply := new Byte[2];
    ok := c.ReadFull(reply, 2);
    if !ok {
      return;
    }
    assert reply[0] == reply[..2][0] && reply[1] == reply[..2][1];
    if reply[0] != 5 || reply[1] != 0 || |host| > 255 {
      return false;
    }
    var req := [5, 1, 0, 3, |host| as Byte] + host;
    req := req + [((port / 256) % 256) as Byte, (port % 256) as Byte];
    Truncated(port);
    assert req == ClientRequest(host, port);
    ok := c.Write(req);
    if !ok {
      return;
    }
    ok := ReadConnectReply(c);
  }

  lemma {:induction false} HighByte(port: int)
    ensures (port / 256) % 256 == (port % 65536) / 256
    ensures port % 256 == (port % 65536) % 256
  {
    var q, m := port / 65536, port % 65536;
    assert port / 256 == q * 256 + m / 256;
  }

  lemma {:induction false} Truncated(port: int)
    ensures [((port / 256) % 256) as Byte, (port % 256) as Byte] == EncodePort(port % 65536)
  {
    HighByte(port);
  }

  /**
   What the client sends and when it succeeds, on a connection that takes `writes`
   writes: the request goes out only behind an accepted greeting, and nothing is read
   before the greeting is out.
   */
  lemma {:induction false} ClientOutcome(host: Bytes, port: int, input: Bytes, writes: nat)
    ensures var (ok, rest, sent) := ClientRun(host, port, input, writes);
      var chosen := writes > 0 && |input| >= 2 && input[0] == 5 && input[1] == 0 && |host| <= 255;
      && (ok <==> chosen && writes > 1 && ReadReply(input[2..]).0)
      && (ok ==> rest == ReadReply(input[2..]).1)
      && (sent == if writes == 0 then [] else if chosen && writes > 1 then [5, 1, 0] + ClientRequest(host, port) else [5, 1, 0])
      && (writes == 0 ==> rest == input)
  {
  }

  /**
   The whole dialogue: the bytes each party sends make the other one succeed, the
   server learns the client's target, and neither reads a byte too many.
   */
  lemma {:induction false} Dialogue(host: Bytes, port: nat, upload: Bytes, download: Bytes, text6: Text6)
    requires 0 < |host| <= 255 && port < 65536
    ensures var (ok, rest, sent) := ClientRun(host, port, [5, 0] + (Reply(0) + download), 2);
      ok && rest == download
      && Serve(sent + upload, text6) == Session(Target(Join(host, port)), upload, [5, 0])
  {
    Answered(host, port, download);
    PartiesAgree(host, port, upload, text6);
    Regrouped(CLIENT_GREETING, ClientRequest(host, port), upload);
  }

  lemma {:induction false} Answered(host: Bytes, port: nat, download: Bytes)
    requires |host| <= 255
    ensures ClientRun(host, port, [5, 0] + (Reply(0) + download), 2) == (true, download, CLIENT_GREETING + ClientRequest(host, port))
  {
    Split([5, 0], Reply(0) + download);
    ReplyExact(0, download);
  }
}

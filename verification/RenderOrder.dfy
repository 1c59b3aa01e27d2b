/**
 When the iteration order of the map shows in the rendered payload. Outside the
 hypotheses of Payload.OrderIndependent it can: exactly if the text that one
 replacement makes spells another placeholder.
 */
module RenderOrder {
  import opened Common
  import opened Decimal
  import opened Payload

  // ----- enumerations -----

  ghost predicate Keyed(m: map<string, string>) {
    forall k :: k in m ==> Key(k) && k != ""
  }

  /** Some placeholders of the map, in some order. */
  ghost predicate Listed(order: seq<string>, m: map<string, string>) {
    forall k :: k in order ==> k in m && Key(k) && k != ""
  }

  /** `x` stands before `y`. */
  predicate Before(order: seq<string>, x: string, y: string) {
    order != [] && (if order[0] == x then y in order[1..] else Before(order[1..], x, y))
  }

  lemma {:induction false} Listing(keys: set<string>) returns (order: seq<string>)
    ensures forall k :: k in order <==> k in keys
    ensures forall i, j :: 0 <= i < j < |order| ==> order[i] != order[j]
    decreases |keys|
  {
    order := [];
    if keys != {} {
      var k :| k in keys;
      var rest := Listing(keys - {k});
      order := [k] + rest;
    }
  }

  /** Any placeholder can come first. */
  lemma {:induction false} StartingWith(m: map<string, string>, x: string, y: string) returns (order: seq<string>)
    requires x in m && y in m && x != y
    ensures Enumerates(order, m) && Before(order, x, y) && !Before(order, y, x)
  {
    var rest := Listing(m.Keys - {x});
    order := [x] + rest;
    assert order[1..] == rest;
    NotBefore(rest, y, x);
  }

  lemma {:induction false} NotBefore(order: seq<string>, x: string, y: string)
    requires y !in order
    ensures !Before(order, x, y)
  {
    if order != [] {
      NotBefore(order[1..], x, y);
    }
  }

  // ----- single replacements -----

  lemma {:induction false} ReplaceNone(s: string, k: string, v: string)
    requires Key(k) && '[' !in s
    ensures ReplaceAll(s, k, v) == s
  {
    if s != "" {
      assert s[0] in s;
      assert !(k <= s);
      ReplaceNone(s[1..], k, v);
    }
  }

  lemma {:induction false} ReplaceHead(k: string, v: string, t: string)
    requires Key(k) && '[' !in t
    ensures ReplaceAll(k + t, k, v) == v + t
  {
    assert k <= k + t && (k + t)[|k|..] == t;
    ReplaceNone(t, k, v);
  }

  lemma {:induction false} ReplaceOther(w: string, k: string, v: string, t: string)
    requires Plain(w) && Key(k) && k != Named(w) && '[' !in t
    ensures ReplaceAll(Named(w) + t, k, v) == Named(w) + t
  {
    var s := Named(w) + t;
    KeyIsToken(k, s);
    KeyOf(w);
    KeyIsToken(Named(w), s);
    assert Named(w) <= s;
    assert '[' !in s[1..] by { assert s[1..] == w + "]" + t; }
    ReplaceNone(s[1..], k, v);
  }

  /** A placeholder is replaced by its own entry and by no other. */
  lemma {:induction false} ReplaceNamed(w: string, k: string, v: string)
    requires Plain(w) && Key(k)
    ensures ReplaceAll(Named(w), k, v) == if k == Named(w) then v else Named(w)
  {
    assert Named(w) + "" == Named(w) && v + "" == v;
    if k == Named(w) {
      ReplaceHead(k, v, "");
    } else {
      ReplaceOther(w, k, v, "");
    }
  }

  lemma {:induction false} ReplaceBehind(u: string, s: string, k: string, v: string)
    requires Plain(u) && Key(k)
    ensures ReplaceAll(u + s, k, v) == u + ReplaceAll(s, k, v)
  {
    if u == "" {
      assert u + s == s;
    } else {
      assert u[0] in u && (u + s)[1..] == u[1..] + s;
      ReplaceBehind(u[1..], s, k, v);
    }
  }

  // ----- plain text around -----

  /** The last character of a placeholder is a closing bracket. */
  lemma {:induction false} UpToEnds(s: string)
    requires Shut(s)
    ensures UpTo(s)[|UpTo(s)| - 1] == ']'
  {
    if s[0] != ']' {
      UpToEnds(s[1..]);
    }
  }

  lemma {:induction false} ReplaceBefore(s: string, y: string, k: string, v: string)
    requires Plain(y) && Key(k)
    ensures ReplaceAll(s + y, k, v) == ReplaceAll(s, k, v) + y
    decreases |s|
  {
    KeyFits(s, y, k);
    if s == "" {
      assert s + y == y;
      ReplaceNothing(y, k, v);
    } else if k <= s {
      assert (s + y)[|k|..] == s[|k|..] + y;
      ReplaceBefore(s[|k|..], y, k, v);
      Assoc(v, ReplaceAll(s[|k|..], k, v), y);
    } else {
      assert (s + y)[1..] == s[1..] + y;
      ReplaceBefore(s[1..], y, k, v);
      Assoc([s[0]], ReplaceAll(s[1..], k, v), y);
    }
  }

  lemma {:induction false} ReplaceNothing(y: string, k: string, v: string)
    requires Plain(y) && Key(k)
    ensures ReplaceAll(y, k, v) == y
  {
    assert '[' !in y by { assert Bracket('['); }
    ReplaceNone(y, k, v);
  }

  lemma {:induction false} NotShut(y: string, i: nat)
    requires Plain(y) && i < |y|
    ensures y[i] != ']'
  {
    assert y[i] in y && Bracket(']');
  }

  /** A placeholder does not reach into plain text behind. */
  lemma {:induction false} KeyFits(s: string, y: string, k: string)
    requires Plain(y) && Key(k)
    ensures k <= s + y <==> k <= s
  {
    UpToEnds(k[1..]);
    assert k[|k| - 1] == ']';
    if k <= s + y {
      if |s| < |k| {
        NotShut(y, |k| - 1 - |s|);
      }
      assert (s + y)[..|k|] == s[..|k|];
    }
  }

  /** Plain text around a template stays around what it renders to. */
  lemma {:induction false} RenderAround(x: string, s: string, y: string, order: seq<string>, m: map<string, string>)
    requires Plain(x) && Plain(y) && Listed(order, m)
    ensures Render(x + s + y, order, m) == x + Render(s, order, m) + y
    decreases order
  {
    if order != [] {
      var k := order[0];
      ListedRest(order, m);
      Assoc(x, s, y);
      ReplaceBehind(x, s + y, k, m[k]);
      ReplaceBefore(s, y, k, m[k]);
      Assoc(x, ReplaceAll(s, k, m[k]), y);
      RenderAround(x, ReplaceAll(s, k, m[k]), y, order[1..], m);
    }
  }

  // ----- a replacement that spells a placeholder -----

  lemma {:induction false} RenderStays(s: string, order: seq<string>, m: map<string, string>)
    requires forall k :: k in order ==> k in m && k != "" && ReplaceAll(s, k, m[k]) == s
    ensures Render(s, order, m) == s
    decreases order
  {
    if order != [] {
      assert order[0] in order;
      RenderStays(s, order[1..], m);
    }
  }

  lemma {:induction false} ListedRest(order: seq<string>, m: map<string, string>)
    requires Listed(order, m) && order != []
    ensures order[0] in m && order[0] != "" && Key(order[0]) && Listed(order[1..], m)
  {
    assert order[0] in order;
    forall k | k in order[1..] ensures k in order {
    }
  }

  /** From the placeholder `y` on: its entry is used if it is still to come. */
  lemma {:induction false} RenderNamed(b: string, order: seq<string>, m: map<string, string>)
    requires Plain(b) && Listed(order, m)
    requires Named(b) in m ==> Plain(m[Named(b)])
    ensures Render(Named(b), order, m) == if Named(b) in order then m[Named(b)] else Named(b)
    decreases order
  {
    if order != [] {
      var k := order[0];
      assert k in order;
      ReplaceNamed(b, k, m[k]);
      if k == Named(b) {
        forall x | x in order[1..] ensures ReplaceAll(m[k], x, m[x]) == m[k] {
          assert x in order;
          assert '[' !in m[k] by { assert Bracket('['); }
          ReplaceNone(m[k], x, m[x]);
        }
        RenderStays(m[k], order[1..], m);
      } else {
        RenderNamed(b, order[1..], m);
      }
    }
  }

  /** The text `s` waits for the entry of `x`, which turns it into the placeholder Named(b). */
  ghost predicate Waits(s: string, x: string, b: string, m: map<string, string>) {
    x in m && forall k :: k in m && k != "" ==> ReplaceAll(s, k, m[k]) == if k == x then Named(b) else s
  }

  lemma {:induction false} RenderWaiting(s: string, x: string, b: string, order: seq<string>, m: map<string, string>)
    requires Waits(s, x, b, m) && Plain(b) && x in order
    requires Listed(order, m)
    requires Named(b) in m ==> Plain(m[Named(b)])
    ensures Render(s, order, m) == if Named(b) in m && Before(order, x, Named(b)) then m[Named(b)] else Named(b)
    decreases order
  {
    ListedRest(order, m);
    if order[0] == x {
      RenderNamed(b, order[1..], m);
    } else {
      assert x in order[1..];
      RenderWaiting(s, x, b, order[1..], m);
    }
  }

  /** Every order renders the same. */
  ghost predicate Confluent(s: string, m: map<string, string>)
    requires Keyed(m)
  {
    forall a, b :: Enumerates(a, m) && Enumerates(b, m) ==> Render(s, a, m) == Render(s, b, m)
  }

  lemma {:induction false} NotBeforeItself(order: seq<string>, x: string)
    requires forall i, j :: 0 <= i < j < |order| ==> order[i] != order[j]
    ensures !Before(order, x, x)
  {
    if order != [] {
      NotBeforeItself(order[1..], x);
    }
  }

  lemma {:induction false} BeforeMember(order: seq<string>, x: string, y: string)
    requires Before(order, x, y)
    ensures y in order
  {
    if order[0] != x {
      BeforeMember(order[1..], x, y);
    }
  }

  lemma {:induction false} WaitingConfluent(s: string, x: string, b: string, m: map<string, string>)
    requires Waits(s, x, b, m) && Plain(b) && Keyed(m)
    requires Named(b) in m ==> Plain(m[Named(b)])
    ensures Confluent(s, m) <==> Named(b) !in m || Named(b) == x
  {
    var y := Named(b);
    if y in m && y != x {
      var one := StartingWith(m, x, y);
      var two := StartingWith(m, y, x);
      RenderWaiting(s, x, b, one, m);
      RenderWaiting(s, x, b, two, m);
      assert y[0] == '[' && Bracket(y[0]) && y[0] in y;
      assert Render(s, one, m) != Render(s, two, m);
    } else {
      forall order | Enumerates(order, m) ensures Render(s, order, m) == y {
        RenderWaiting(s, x, b, order, m);
        if Before(order, x, y) {
          BeforeMember(order, x, y);
          NotBeforeItself(order, x);
        }
      }
    }
  }

  /** So it does not matter for the order. */
  lemma {:induction false} ConfluentAround(x: string, s: string, y: string, m: map<string, string>)
    requires Plain(x) && Plain(y) && Keyed(m)
    ensures Confluent(x + s + y, m) <==> Confluent(s, m)
  {
    forall order | Enumerates(order, m) ensures Render(x + s + y, order, m) == x + Render(s, order, m) + y {
      assert Listed(order, m);
      RenderAround(x, s, y, order, m);
    }
    if Confluent(x + s + y, m) {
      forall a, b | Enumerates(a, m) && Enumerates(b, m) ensures Render(s, a, m) == Render(s, b, m) {
        SameMiddle(x, Render(s, a, m), Render(s, b, m), y);
      }
    }
  }

  lemma {:induction false} SameMiddle(x: string, s: string, t: string, y: string)
    ensures x + s + y == x + t + y ==> s == t
  {
    if x + s + y == x + t + y {
      assert (x + s + y)[|x|..|x + s + y| - |y|] == s;
      assert (x + t + y)[|x|..|x + t + y| - |y|] == t;
    }
  }

  // ----- nested placeholders -----

  /** One placeholder inside brackets, with plain text around it. */
  function Nested(u: string, a: string, v: string): string {
    "[" + (u + (Named(a) + (v + "]")))
  }

  lemma {:induction false} ReplaceFirst(a: string, tail: string, k: string, w: string)
    requires Plain(a) && Key(k) && '[' !in tail
    ensures ReplaceAll(Named(a) + tail, k, w) == (if k == Named(a) then w else Named(a)) + tail
  {
    if k == Named(a) {
      ReplaceHead(k, w, tail);
    } else {
      ReplaceOther(a, k, w, tail);
    }
  }

  lemma {:induction false} OuterClosed(u: string, w: string, v: string)
    ensures "[" + (u + (w + (v + "]"))) == Named(u + w + v)
  {
  }

  /** Only the inner placeholder is replaced. */
  lemma {:induction false} ReplaceInner(u: string, a: string, v: string, k: string, w: string)
    requires Plain(u) && Plain(a) && Plain(v) && Key(k)
    ensures ReplaceAll(Nested(u, a, v), k, w) == if k == Named(a) then Named(u + w + v) else Nested(u, a, v)
  {
    var t := Named(a) + (v + "]");
    NestedOpens(u, t, k, w);
    ReplaceBehind(u, t, k, w);
    assert Nested(u, a, v) == "[" + (u + t);
    assert '[' !in v + "]" by { assert Bracket('['); }
    ReplaceFirst(a, v + "]", k, w);
    OuterClosed(u, w, v);
  }

  /** No key is found at a bracket that is not closed before the next one. */
  lemma {:induction false} NestedOpens(u: string, t: string, k: string, w: string)
    requires Plain(u) && Key(k) && t != "" && t[0] == '['
    ensures ReplaceAll("[" + (u + t), k, w) == "[" + ReplaceAll(u + t, k, w)
  {
    assert !Shut(t);
    ShutConcat(u, t);
    assert ("[" + (u + t))[1..] == u + t;
    KeyIsToken(k, "[" + (u + t));
  }

  lemma {:induction false} NestedPair(u: string, a: string, v: string, m: map<string, string>)
    requires Replacements(m) && Named(a) in m && Plain(a) && Plain(u) && Plain(v)
    ensures var y := Named(u + m[Named(a)] + v);
      Confluent(Nested(u, a, v), m) <==> y !in m || y == Named(a)
  {
    forall k | k in m
      ensures ReplaceAll(Nested(u, a, v), k, m[k]) == if k == Named(a) then Named(u + m[Named(a)] + v) else Nested(u, a, v) {
      ReplaceInner(u, a, v, k, m[k]);
    }
    WaitingConfluent(Nested(u, a, v), Named(a), u + m[Named(a)] + v, m);
  }

  /**
   A template with one placeholder nested in brackets, and plain text around, renders
   the same in every order exactly if the text that the placeholder makes inside the
   brackets is not the name of another placeholder.
   */
  lemma {:induction false} NestedDependsOnOrder(x: string, u: string, a: string, v: string, y: string, m: map<string, string>)
    requires Replacements(m) && Named(a) in m && Plain(a) && Plain(u) && Plain(v) && Plain(x) && Plain(y)
    ensures var z := Named(u + m[Named(a)] + v);
      Keyed(m) && (Confluent(x + Nested(u, a, v) + y, m) <==> z !in m || z == Named(a))
  {
    NestedPair(u, a, v, m);
    ConfluentAround(x, Nested(u, a, v), y, m);
  }

  /** A placeholder in plain text whose value spells a placeholder has the same effect. */
  lemma {:induction false} BracketValueDependsOnOrder(x: string, a: string, y: string, b: string, m: map<string, string>)
    requires Keyed(m) && Named(a) in m && Plain(a) && Plain(x) && Plain(y)
    requires m[Named(a)] == Named(b) && Plain(b) && (Named(b) in m ==> Named(b) == Named(a) || Plain(m[Named(b)]))
    ensures Confluent(x + Named(a) + y, m) <==> Named(b) !in m || Named(b) == Named(a)
  {
    SpelledPlaceholder(a, b, m);
    ConfluentAround(x, Named(a), y, m);
  }

  lemma {:induction false} SpelledPlaceholder(a: string, b: string, m: map<string, string>)
    requires Keyed(m) && Named(a) in m && Plain(a)
    requires m[Named(a)] == Named(b) && Plain(b) && (Named(b) in m ==> Named(b) == Named(a) || Plain(m[Named(b)]))
    ensures Confluent(Named(a), m) <==> Named(b) !in m || Named(b) == Named(a)
  {
    forall k | k in m ensures ReplaceAll(Named(a), k, m[k]) == if k == Named(a) then Named(b) else Named(a) {
      ReplaceNamed(a, k, m[k]);
    }
    if Named(b) == Named(a) {
      forall order | Enumerates(order, m) ensures Render(Named(a), order, m) == Named(a) {
        RenderStays(Named(a), order, m);
      }
    } else {
      WaitingConfluent(Named(a), Named(a), b, m);
    }
  }

  // ----- for the nine replacements of a profile -----

  lemma {:induction false} Lookup(entries: seq<(string, string)>, i: nat)
    requires i < |entries| && forall j :: 0 <= j < i ==> entries[j].0 != entries[i].0
    ensures Named(entries[i].0) in MapOf(entries) && MapOf(entries)[Named(entries[i].0)] == entries[i].1
  {
    if i > 0 {
      Lookup(entries[1..], i - 1);
      NamedSame(entries[0].0, entries[i].0);
    }
  }

  lemma {:induction false} KeysAre(entries: seq<(string, string)>, k: string)
    ensures k in MapOf(entries) <==> exists i :: 0 <= i < |entries| && k == Named(entries[i].0)
  {
    if entries != [] {
      KeysAre(entries[1..], k);
      if i :| 0 <= i < |entries[1..]| && k == Named(entries[1..][i].0) {
        assert k == Named(entries[i + 1].0);
      }
      if i :| 0 < i < |entries| && k == Named(entries[i].0) {
        assert k == Named(entries[1..][i - 1].0);
      }
    }
  }

  /** The placeholders, in the order of the code. */
  function Placeholders(): seq<string> {
    ["crlf", "lf", "host", "port", "ssh_host", "ssh_port", "sni", "proxy_host", "proxy_port"]
  }

  lemma {:induction false} PlaceholdersDiffer(i: nat, j: nat)
    requires i < j < 9
    ensures Placeholders()[i] != Placeholders()[j]
  {
    var w := Placeholders();
    assert |w[0]| == 4 && |w[1]| == 2 && |w[2]| == 4 && |w[3]| == 4 && |w[4]| == 8 && |w[5]| == 8 && |w[6]| == 3 && |w[7]| == 10 && |w[8]| == 10;
    assert w[0][0] == 'c' && w[2][0] == 'h' && w[3][0] == 'p' && w[4][4] == 'h' && w[5][4] == 'p' && w[7][6] == 'h' && w[8][6] == 'p';
  }

  lemma {:induction false} ValueAt(p: Endpoint, i: nat)
    requires i < 9
    ensures Named(Placeholders()[i]) in Values(p) && Values(p)[Named(Placeholders()[i])] == Entries(p)[i].1
  {
    EntriesNamed(p);
    forall j | 0 <= j < i ensures Entries(p)[j].0 != Entries(p)[i].0 {
      PlaceholdersDiffer(j, i);
    }
    Lookup(Entries(p), i);
  }

  lemma {:induction false} EntriesNamed(p: Endpoint)
    ensures |Entries(p)| == 9 && forall i :: 0 <= i < 9 ==> Entries(p)[i].0 == Placeholders()[i]
  {
  }

  /** What stands behind each of the nine placeholders, and that there is no other. */
  lemma {:induction false} ValuesMean(p: Endpoint)
    ensures Value(p, "crlf", "\r\n") && Value(p, "lf", "\n")
    ensures Value(p, "host", p.host) && Value(p, "ssh_host", p.host)
    ensures Value(p, "port", Itoa(p.port)) && Value(p, "ssh_port", Itoa(p.port))
    ensures Value(p, "sni", if p.sni.Some? then p.sni.value else "")
    ensures Value(p, "proxy_host", if p.proxy.Some? then p.proxy.value.host else "")
    ensures Value(p, "proxy_port", if p.proxy.Some? then Itoa(p.proxy.value.port) else "")
    ensures forall k :: k in Values(p) ==> exists i :: 0 <= i < 9 && k == "[" + Placeholders()[i] + "]"
  {
    forall i: nat | i < 9 ensures Value(p, Placeholders()[i], Entries(p)[i].1) {
      ValueAt(p, i);
    }
    EntriesNamed(p);
    forall k | k in Values(p) ensures exists i :: 0 <= i < 9 && k == "[" + Placeholders()[i] + "]" {
      KeysAre(Entries(p), k);
    }
    var w := Placeholders();
    assert Value(p, w[0], Entries(p)[0].1) && Value(p, w[1], Entries(p)[1].1) && Value(p, w[2], Entries(p)[2].1) && Value(p, w[3], Entries(p)[3].1);
    assert Value(p, w[4], Entries(p)[4].1) && Value(p, w[5], Entries(p)[5].1) && Value(p, w[6], Entries(p)[6].1) && Value(p, w[7], Entries(p)[7].1);
    assert Value(p, w[8], Entries(p)[8].1);
  }

  ghost predicate Value(p: Endpoint, word: string, v: string) {
    "[" + word + "]" in Values(p) && Values(p)["[" + word + "]"] == v
  }

  /** In plain text and in every order, a placeholder of a plain endpoint is replaced by its value; any other bracketed word stays. */
  lemma {:induction false} PlaceholderRenders(p: Endpoint, order: seq<string>, x: string, w: string, y: string)
    requires PlainEndpoint(p) && Enumerates(order, Values(p)) && Plain(x) && Plain(w) && Plain(y)
    ensures forall k :: k in order ==> k in Values(p) && k != ""
    ensures Render(x + ("[" + w + "]") + y, order, Values(p))
         == x + (if "[" + w + "]" in Values(p) then Values(p)["[" + w + "]"] else "[" + w + "]") + y
  {
    ValuesAreReplacements(p);
    assert Listed(order, Values(p));
    RenderAround(x, Named(w), y, order, Values(p));
    RenderNamed(w, order, Values(p));
  }

  /** Two placeholders with plain text around and between: the two values, for every plain endpoint and every order. */
  lemma {:induction false} TwoValues(p: Endpoint, order: seq<string>, x: string, a: string, va: string, y: string, b: string, vb: string, z: string)
    requires PlainEndpoint(p) && Enumerates(order, Values(p)) && Plain(x) && Plain(a) && Plain(y) && Plain(b) && Plain(z)
    requires Value(p, a, va) && Value(p, b, vb)
    ensures forall k :: k in order ==> k in Values(p) && k != ""
    ensures Render(x + ("[" + a + "]" + (y + ("[" + b + "]" + z))), order, Values(p)) == x + (va + (y + (vb + z)))
  {
    ValuesAreReplacements(p);
    TwoPlaceholders(x, a, y, b, z, Values(p));
    OrderIndependent(x + ("[" + a + "]" + (y + ("[" + b + "]" + z))), order, Values(p));
  }

  lemma {:induction false} HostPortText(t: string, a: string, y: string, b: string)
    requires t == "[host]:[port]" && a == "host" && y == ":" && b == "port"
    ensures t == "" + ("[" + a + "]" + (y + ("[" + b + "]" + "")))
    ensures Plain("") && Plain(a) && Plain(y) && Plain(b)
  {
  }

  lemma {:induction false} HostPortValues(p: Endpoint, a: string, b: string)
    requires a == "host" && b == "port"
    ensures Value(p, a, p.host) && Value(p, b, Itoa(p.port))
  {
    ValuesMean(p);
  }

  lemma {:induction false} NoText(a: string, y: string, b: string)
    ensures "" + (a + (y + (b + ""))) == a + y + b
  {
  }

  lemma {:induction false} HostPortOf(p: Endpoint, order: seq<string>, t: string, a: string, y: string, b: string)
    requires PlainEndpoint(p) && Enumerates(order, Values(p))
    requires Plain("") && Plain(a) && Plain(y) && Plain(b) && Value(p, a, p.host) && Value(p, b, Itoa(p.port))
    requires t == "" + ("[" + a + "]" + (y + ("[" + b + "]" + "")))
    ensures forall k :: k in order ==> k in Values(p) && k != ""
    ensures Render(t, order, Values(p)) == p.host + y + Itoa(p.port)
  {
    TwoValues(p, order, "", a, p.host, y, b, Itoa(p.port), "");
    NoText(p.host, y, Itoa(p.port));
  }

  lemma {:induction false} HostThenPort(p: Endpoint, order: seq<string>, t: string, a: string, y: string, b: string)
    requires PlainEndpoint(p) && Enumerates(order, Values(p))
    requires t == "[host]:[port]" && a == "host" && y == ":" && b == "port"
    ensures forall k :: k in order ==> k in Values(p) && k != ""
    ensures Render(t, order, Values(p)) == p.host + y + Itoa(p.port)
  {
    HostPortText(t, a, y, b);
    HostPortValues(p, a, b);
    HostPortOf(p, order, t, a, y, b);
  }

  /** So "[host]:[port]" renders to the host, a colon and the port. */
  lemma {:induction false} HostAndPort(p: Endpoint, order: seq<string>)
    requires PlainEndpoint(p) && Enumerates(order, Values(p))
    ensures forall k :: k in order ==> k in Values(p) && k != ""
    ensures Render("[host]:[port]", order, Values(p)) == p.host + ":" + Itoa(p.port)
  {
    HostThenPort(p, order, "[host]:[port]", "host", ":", "port");
  }

  lemma {:induction false} NamedSame(a: string, b: string)
    ensures Named(a) == Named(b) ==> a == b
  {
    assert Named(a)[1..|Named(a)| - 1] == a && Named(b)[1..|Named(b)| - 1] == b;
  }

  lemma {:induction false} LineFeed(p: Endpoint)
    ensures Named("lf") in Values(p) && Values(p)[Named("lf")] == "\n"
  {
    assert |"lf"| != |"crlf"|;
    Lookup(Entries(p), 1);
  }

  lemma {:induction false} ServerName(p: Endpoint)
    requires p.sni.Some?
    ensures Named("sni") in Values(p) && Values(p)[Named("sni")] == p.sni.value
  {
    var e := Entries(p);
    assert forall j :: 0 <= j < 6 ==> |e[j].0| != 3;
    Lookup(e, 6);
  }

  lemma {:induction false} HostName(p: Endpoint)
    ensures Named("host") in Values(p) && Values(p)[Named("host")] == p.host
  {
    assert "crlf"[0] != "host"[0] && |"lf"| != |"host"|;
    Lookup(Entries(p), 2);
  }

  /** "[[sni]]" in plain text, with server name "lf": a line end in some orders, "[lf]" in others. */
  lemma {:induction false} NestedServerName(p: Endpoint, x: string, y: string)
    requires PlainEndpoint(p) && p.sni == Some("lf") && Plain(x) && Plain(y)
    ensures Keyed(Values(p)) && !Confluent(x + Nested("", "sni", "") + y, Values(p))
  {
    ValuesAreReplacements(p);
    LineFeed(p);
    ServerName(p);
    assert "" + "lf" + "" == "lf";
    assert |Named("lf")| != |Named("sni")|;
    NestedDependsOnOrder(x, "", "sni", "", y, Values(p));
  }

  /** "[host]" in plain text, with the host "[lf]". */
  lemma {:induction false} BracketedHost(p: Endpoint, x: string, y: string)
    requires p.host == Named("lf") && Plain(x) && Plain(y)
    ensures Keyed(Values(p)) && !Confluent(x + Named("host") + y, Values(p))
  {
    ValuesAreReplacements(p);
    LineFeed(p);
    HostName(p);
    assert |Named("lf")| != |Named("host")|;
    BracketValueDependsOnOrder(x, "host", y, "lf", Values(p));
  }
}

/**
 Rendering of the payload template. The replacements sit in a Go map, so they
 are applied in any order; each one replaces its placeholder everywhere.
 */
module Payload {
  import opened Common
  import opened Decimal

  // ----- placeholders -----

  predicate Bracket(c: char) {
    c == '[' || c == ']'
  }

  predicate Plain(s: string) {
    forall c :: c in s ==> !Bracket(c)
  }

  /** The first bracket of the text is a closing one. */
  predicate Shut(s: string) {
    s != "" && (s[0] == ']' || (s[0] != '[' && Shut(s[1..])))
  }

  /** The text up to and with its first bracket. */
  function UpTo(s: string): (r: string)
    requires Shut(s)
    ensures r <= s && r != ""
  {
    if s[0] == ']' then [s[0]]
    else
      assert s[1..][..|UpTo(s[1..])|] == s[1..1 + |UpTo(s[1..])|];
      [s[0]] + UpTo(s[1..])
  }

  /** The text starts with a placeholder: brackets around text without brackets. */
  predicate Opens(s: string) {
    s != "" && s[0] == '[' && Shut(s[1..])
  }

  function Token(s: string): (k: string)
    requires Opens(s)
    ensures k <= s && |k| > 1
  {
    assert s[1..][..|UpTo(s[1..])|] == s[1..1 + |UpTo(s[1..])|];
    [s[0]] + UpTo(s[1..])
  }

  predicate Key(s: string) {
    Opens(s) && Token(s) == s
  }

  function Named(w: string): string {
    "[" + w + "]"
  }

  /** One pass over the text that replaces every placeholder with an entry. */
  function Substitute(s: string, m: map<string, string>): string {
    if s == "" then ""
    else if Opens(s) && Token(s) in m then m[Token(s)] + Substitute(s[|Token(s)|..], m)
    else [s[0]] + Substitute(s[1..], m)
  }

  /** Reading the text bracket by bracket: nothing open, one open, more open, or open around a finished pair. */
  datatype Depth = Flat | One | More | Around

  function After(c: char, d: Depth): Option<Depth> {
    match c
    case '[' => Some(if d.Flat? then One else More)
    case ']' => if d.Around? then None else Some(if d.More? then Around else Flat)
    case _ => Some(d)
  }

  /** No pair of brackets stands inside another pair. */
  predicate Unnested(s: string, d: Depth) {
    s == "" || (After(s[0], d).Some? && Unnested(s[1..], After(s[0], d).value))
  }

  // ----- strings.ReplaceAll and the loop over the map -----

  function ReplaceAll(s: string, k: string, v: string): string
    requires k != ""
    decreases |s|
  {
    if s == "" then ""
    else if k <= s then v + ReplaceAll(s[|k|..], k, v)
    else [s[0]] + ReplaceAll(s[1..], k, v)
  }

  function Render(s: string, order: seq<string>, m: map<string, string>): string
    requires forall k :: k in order ==> k in m && k != ""
    decreases order
  {
    if order == [] then s
    else
      assert order[0] in order && forall k :: k in order[1..] ==> k in order;
      Render(ReplaceAll(s, order[0], m[order[0]]), order[1..], m)
  }

  ghost predicate Enumerates(order: seq<string>, m: map<string, string>) {
    (forall k :: k in order <==> k in m) && (forall i, j :: 0 <= i < j < |order| ==> order[i] != order[j])
  }

  predicate Replacements(m: map<string, string>) {
    forall k :: k in m ==> Key(k) && Plain(m[k])
  }

  // ----- lemmas on placeholders -----

  lemma {:induction false} ShutConcat(w: string, t: string)
    requires Plain(w)
    ensures Shut(w + t) == Shut(t)
    ensures Shut(t) ==> UpTo(w + t) == w + UpTo(t)
  {
    if w == "" {
      assert w + t == t;
    } else {
      assert w[0] in w && (w + t)[1..] == w[1..] + t;
      ShutConcat(w[1..], t);
    }
  }

  /** The part up to the first closing bracket does not depend on what follows it. */
  lemma {:induction false} UpToLocal(s: string, t: string)
    requires Shut(s)
    ensures Shut(s + t) && UpTo(s + t) == UpTo(s)
  {
    assert (s + t)[1..] == s[1..] + t;
    if s[0] != ']' {
      UpToLocal(s[1..], t);
    }
  }

  /** A placeholder is a prefix of a text iff it is the one the text starts with. */
  lemma {:induction false} KeyIsToken(k: string, s: string)
    requires Key(k)
    ensures k <= s <==> Opens(s) && Token(s) == k
  {
    if k <= s {
      assert s == k + s[|k|..] && s[1..] == k[1..] + s[|k|..];
      UpToLocal(k[1..], s[|k|..]);
    }
  }

  lemma {:induction false} KeyOf(w: string)
    requires Plain(w)
    ensures Key("[" + w + "]")
  {
    var k := "[" + w + "]";
    assert k[1..] == w + "]";
    ShutConcat(w, "]");
    assert "]"[1..] == "";
  }

  lemma {:induction false} SubstitutePlain(v: string, s: string, m: map<string, string>)
    requires Plain(v)
    ensures Substitute(v + s, m) == v + Substitute(s, m)
  {
    if v == "" {
      assert v + s == s;
    } else {
      assert v[0] in v && (v + s)[1..] == v[1..] + s;
      SubstitutePlain(v[1..], s, m);
    }
  }

  /** A bracketed word is replaced if it is a placeholder, and stays if it is not. */
  lemma {:induction false} SubstituteNamed(w: string, s: string, m: map<string, string>)
    requires Plain(w)
    ensures Substitute("[" + w + "]" + s, m) == (if "[" + w + "]" in m then m["[" + w + "]"] else "[" + w + "]") + Substitute(s, m)
  {
    var k := "[" + w + "]";
    var t := k + s;
    KeyOf(w);
    KeyIsToken(k, t);
    assert t[|k|..] == s;
    if k !in m {
      assert t[1..] == w + ("]" + s);
      SubstitutePlain(w, "]" + s, m);
      SubstituteShut(s, m);
      BracketsAround(w, Substitute(s, m));
    }
  }

  lemma {:induction false} SubstituteShut(s: string, m: map<string, string>)
    ensures Substitute("]" + s, m) == "]" + Substitute(s, m)
  {
    assert ("]" + s)[0] == ']' && ("]" + s)[1..] == s;
  }

  lemma {:induction false} BracketsAround(w: string, s: string)
    ensures ['['] + (w + ("]" + s)) == "[" + w + "]" + s
  {
  }

  lemma {:induction false} UnnestedPlain(x: string, s: string, d: Depth)
    requires Plain(x)
    ensures Unnested(x + s, d) <==> Unnested(s, d)
  {
    if x == "" {
      assert x + s == s;
    } else {
      assert x[0] in x && (x + s)[0] == x[0] && (x + s)[1..] == x[1..] + s;
      UnnestedPlain(x[1..], s, d);
    }
  }

  /** A bracketed word in the open does not nest. */
  lemma {:induction false} UnnestedNamed(w: string, s: string)
    requires Plain(w)
    ensures Unnested("[" + w + "]" + s, Flat) <==> Unnested(s, Flat)
  {
    var t := "[" + w + "]" + s;
    assert t[0] == '[' && t[1..] == w + ("]" + s);
    UnnestedPlain(w, "]" + s, After('[', Flat).value);
    assert ("]" + s)[0] == ']' && ("]" + s)[1..] == s;
  }

  /** Placeholders between plain parts are each replaced by their value. */
  lemma {:induction false} TwoPlaceholders(x: string, a: string, y: string, b: string, z: string, m: map<string, string>)
    requires Plain(x) && Plain(a) && Plain(y) && Plain(b) && Plain(z) && "[" + a + "]" in m && "[" + b + "]" in m
    ensures var t := x + ("[" + a + "]" + (y + ("[" + b + "]" + z)));
      Unnested(t, Flat) && Substitute(t, m) == x + (m["[" + a + "]"] + (y + (m["[" + b + "]"] + z)))
  {
    var u := y + ("[" + b + "]" + z);
    SubstitutePlain(x, "[" + a + "]" + u, m);
    SubstituteNamed(a, u, m);
    SubstitutePlain(y, "[" + b + "]" + z, m);
    SubstituteNamed(b, z, m);
    PlainStays(z, m);
    UnnestedPlain(x, "[" + a + "]" + u, Flat);
    UnnestedNamed(a, u);
    UnnestedPlain(y, "[" + b + "]" + z, Flat);
    UnnestedNamed(b, z);
  }

  lemma {:induction false} PlainStays(z: string, m: map<string, string>)
    requires Plain(z)
    ensures Substitute(z, m) == z && Unnested(z, Flat)
  {
    SubstitutePlain(z, "", m);
    UnnestedPlain(z, "", Flat);
    assert z + "" == z;
  }

  lemma {:induction false} SubstituteNothing(s: string)
    ensures Substitute(s, map[]) == s
  {
    if s != "" {
      SubstituteNothing(s[1..]);
    }
  }

  // ----- one replacement -----

  /** The depth after a placeholder that starts at depth `d`. */
  function Past(d: Depth): Depth {
    if d.Flat? then Flat else Around
  }

  lemma {:induction false} UnnestedPastShut(s: string, d: Depth)
    requires Shut(s) && !d.Around? && Unnested(s, d)
    ensures Unnested(s[|UpTo(s)|..], if d.More? then Around else Flat)
  {
    if s[0] != ']' {
      UnnestedPastShut(s[1..], d);
      assert s[1..][|UpTo(s[1..])|..] == s[|UpTo(s)|..];
    }
  }

  lemma {:induction false} UnnestedPast(s: string, d: Depth)
    requires Opens(s) && Unnested(s, d)
    ensures Unnested(s[|Token(s)|..], Past(d))
  {
    UnnestedPastShut(s[1..], After('[', d).value);
    assert s[1..][|UpTo(s[1..])|..] == s[|Token(s)|..];
  }

  /** Around a finished pair no closing bracket comes first, before or after the replacement. */
  lemma {:induction false} StaysOpen(s: string, k: string, v: string)
    requires Key(k) && Plain(v) && Unnested(s, Around)
    ensures !Shut(ReplaceAll(s, k, v))
    decreases |s|
  {
    if s != "" {
      KeyIsToken(k, s);
      if k <= s {
        UnnestedPast(s, Around);
        StaysOpen(s[|k|..], k, v);
        ShutConcat(v, ReplaceAll(s[|k|..], k, v));
      } else if s[0] != '[' {
        StaysOpen(s[1..], k, v);
      }
    }
  }

  /** Inside an open bracket the replacement neither makes nor breaks a placeholder. */
  lemma {:induction false} SameToken(s: string, k: string, v: string, d: Depth)
    requires Key(k) && Plain(v) && (d.One? || d.More?) && Unnested(s, d)
    ensures Shut(ReplaceAll(s, k, v)) == Shut(s)
    ensures Shut(s) ==> ReplaceAll(s, k, v) == UpTo(s) + ReplaceAll(s[|UpTo(s)|..], k, v)
    ensures Shut(s) ==> UpTo(ReplaceAll(s, k, v)) == UpTo(s)
    decreases |s|, 1
  {
    if s != "" {
      KeyIsToken(k, s);
      if k <= s {
        UnnestedPast(s, d);
        StaysOpen(s[|k|..], k, v);
        ShutConcat(v, ReplaceAll(s[|k|..], k, v));
      } else if !Bracket(s[0]) {
        SameTokenBehind(s, k, v, d);
      } else {
        assert ReplaceAll(s, k, v) == [s[0]] + ReplaceAll(s[1..], k, v);
      }
    }
  }

  lemma {:induction false} SameTokenBehind(s: string, k: string, v: string, d: Depth)
    requires Key(k) && Plain(v) && (d.One? || d.More?) && Unnested(s, d)
    requires s != "" && !Bracket(s[0])
    ensures Shut(ReplaceAll(s, k, v)) == Shut(s)
    ensures Shut(s) ==> ReplaceAll(s, k, v) == UpTo(s) + ReplaceAll(s[|UpTo(s)|..], k, v)
    ensures Shut(s) ==> UpTo(ReplaceAll(s, k, v)) == UpTo(s)
    decreases |s|, 0
  {
    var t, r := s[1..], ReplaceAll(s[1..], k, v);
    SameToken(t, k, v, d);
    assert [s[0]] + t == s;
    if Shut(t) {
      var rest := ReplaceAll(t[|UpTo(t)|..], k, v);
      InFront(s[0], t, r, rest);
      assert t[|UpTo(t)|..] == s[|UpTo(s)|..];
    } else {
      ShutConcat([s[0]], t);
      ShutConcat([s[0]], r);
    }
  }

  lemma {:induction false} InFront(c: char, t: string, r: string, rest: string)
    requires !Bracket(c) && Shut(t) && Shut(r) && r == UpTo(t) + rest && UpTo(r) == UpTo(t)
    ensures Shut([c] + t)
    ensures Shut([c] + r)
    ensures UpTo([c] + r) == UpTo([c] + t) == [c] + UpTo(t)
    ensures [c] + r == UpTo([c] + t) + rest
  {
    ShutConcat([c], t);
    ShutConcat([c], r);
    Assoc([c], UpTo(t), rest);
  }

  /** Replacing one placeholder first and the others in one pass is one pass over all of them. */
  lemma {:induction false} ReplaceThenSubstitute(s: string, k: string, v: string, m: map<string, string>, d: Depth)
    requires Key(k) && Plain(v) && k !in m && Replacements(m) && Unnested(s, d)
    ensures Substitute(ReplaceAll(s, k, v), m) == Substitute(s, m[k := v])
    decreases |s|
  {
    if s != "" {
      KeyIsToken(k, s);
      if k <= s {
        UnnestedPast(s, d);
        ReplaceThenSubstitute(s[|k|..], k, v, m, Past(d));
        SubstitutePlain(v, ReplaceAll(s[|k|..], k, v), m);
      } else if s[0] == '[' {
        OtherBracket(s, k, v, d);
        if Opens(s) {
          UnnestedPast(s, d);
          ReplaceThenSubstitute(s[|Token(s)|..], k, v, m, Past(d));
        }
        ReplaceThenSubstitute(s[1..], k, v, m, After(s[0], d).value);
      } else {
        ReplaceThenSubstitute(s[1..], k, v, m, After(s[0], d).value);
      }
    }
  }

  /** An opening bracket that does not start `k` starts the same placeholder, or none, afterwards. */
  lemma {:induction false} OtherBracket(s: string, k: string, v: string, d: Depth)
    requires Key(k) && Plain(v) && Unnested(s, d) && s != "" && s[0] == '[' && !(k <= s)
    ensures var r := ReplaceAll(s, k, v);
      && r == [s[0]] + r[1..] && r[1..] == ReplaceAll(s[1..], k, v) && Opens(r) == Opens(s)
      && (Opens(s) ==> Token(r) == Token(s) && r[|Token(s)|..] == ReplaceAll(s[|Token(s)|..], k, v))
  {
    var t, q := s[1..], ReplaceAll(s[1..], k, v);
    SameToken(t, k, v, After('[', d).value);
    if Opens(s) {
      var n := |UpTo(t)|;
      assert t[n..] == s[n + 1..];
      assert q[n..] == ([s[0]] + q)[n + 1..];
    }
  }

  /** The depth can only shrink when a placeholder is replaced. */
  predicate Below(a: Depth, b: Depth) {
    a == b || (b.Around? && !a.Flat?)
  }

  lemma {:induction false} ReplaceKeepsUnnested(s: string, k: string, v: string, a: Depth, b: Depth)
    requires Key(k) && Plain(v) && Below(a, b) && Unnested(s, b)
    ensures Unnested(ReplaceAll(s, k, v), a)
    decreases |s|
  {
    if s != "" {
      KeyIsToken(k, s);
      if k <= s {
        UnnestedPast(s, b);
        ReplaceKeepsUnnested(s[|k|..], k, v, a, Past(b));
        UnnestedPlain(v, ReplaceAll(s[|k|..], k, v), a);
      } else {
        assert ReplaceAll(s, k, v)[1..] == ReplaceAll(s[1..], k, v);
        ReplaceKeepsUnnested(s[1..], k, v, After(s[0], a).value, After(s[0], b).value);
      }
    }
  }

  // ----- all replacements, in any order -----

  lemma {:induction false} RenderRest(s: string, order: seq<string>, m: map<string, string>, rest: map<string, string>)
    requires Replacements(m) && Enumerates(order, rest) && Unnested(s, Flat)
    requires forall k :: k in rest ==> k in m && rest[k] == m[k]
    ensures Render(s, order, m) == Substitute(s, rest)
    decreases order
  {
    if order == [] {
      assert rest == map[] by { assert forall k :: k !in rest; }
      SubstituteNothing(s);
    } else {
      var k := order[0];
      var others := map x | x in rest && x != k :: rest[x];
      assert Enumerates(order[1..], others) by {
        assert forall x :: x in order[1..] <==> x in order && x != k;
      }
      ReplaceThenSubstitute(s, k, m[k], others, Flat);
      assert others[k := m[k]] == rest;
      ReplaceKeepsUnnested(s, k, m[k], Flat, Flat);
      RenderRest(ReplaceAll(s, k, m[k]), order[1..], m, others);
    }
  }

  /**
   Whatever the iteration order of the map, a template without nested brackets
   renders to the one-pass substitution of all placeholders at once.
   */
  lemma {:induction false} OrderIndependent(s: string, order: seq<string>, m: map<string, string>)
    requires Replacements(m) && Enumerates(order, m) && Unnested(s, Flat)
    ensures Render(s, order, m) == Substitute(s, m)
  {
    RenderRest(s, order, m, m);
  }

  // ----- the replacements of a profile -----

  datatype Proxy = Proxy(host: string, port: int)

  /** What renderPayload reads of a profile. */
  datatype Endpoint = Endpoint(host: string, port: int, sni: Option<string>, proxy: Option<Proxy>)

  function Entries(p: Endpoint): seq<(string, string)> {
    [("crlf", "\r\n"), ("lf", "\n"),
     ("host", p.host), ("port", Itoa(p.port)),
     ("ssh_host", p.host), ("ssh_port", Itoa(p.port)),
     ("sni", if p.sni.Some? then p.sni.value else ""),
     ("proxy_host", if p.proxy.Some? then p.proxy.value.host else ""),
     ("proxy_port", if p.proxy.Some? then Itoa(p.proxy.value.port) else "")]
  }

  function MapOf(entries: seq<(string, string)>): map<string, string> {
    if entries == [] then map[] else MapOf(entries[1..])[Named(entries[0].0) := entries[0].1]
  }

  function Values(p: Endpoint): map<string, string> {
    MapOf(Entries(p))
  }

  predicate PlainEndpoint(p: Endpoint) {
    && Plain(p.host)
    && (p.sni.Some? ==> Plain(p.sni.value))
    && (p.proxy.Some? ==> Plain(p.proxy.value.host))
  }

  lemma {:induction false} MapOfKeys(entries: seq<(string, string)>)
    requires forall i :: 0 <= i < |entries| ==> Plain(entries[i].0)
    ensures forall k :: k in MapOf(entries) ==> Key(k)
    ensures (forall i :: 0 <= i < |entries| ==> Plain(entries[i].1)) ==> Replacements(MapOf(entries))
  {
    if entries != [] {
      KeyOf(entries[0].0);
      MapOfKeys(entries[1..]);
    }
  }

  lemma {:induction false} EntriesPlain(p: Endpoint)
    ensures forall i :: 0 <= i < |Entries(p)| ==> Plain(Entries(p)[i].0)
    ensures PlainEndpoint(p) ==> forall i :: 0 <= i < |Entries(p)| ==> Plain(Entries(p)[i].1)
  {
    ItoaPlain(p.port);
    if p.proxy.Some? {
      ItoaPlain(p.proxy.value.port);
    }
  }

  lemma {:induction false} ValuesAreReplacements(p: Endpoint)
    ensures forall k :: k in Values(p) ==> Key(k)
    ensures PlainEndpoint(p) ==> Replacements(Values(p))
  {
    EntriesPlain(p);
    MapOfKeys(Entries(p));
  }

  /** renderPayload; `order` is the iteration order the runtime happened to choose. */
  method RenderPayload(t: string, p: Endpoint) returns (out: string, ghost order: seq<string>)
    ensures Enumerates(order, Values(p)) && (forall k :: k in order ==> k != "")
    ensures out == Render(t, order, Values(p))
    ensures Unnested(t, Flat) && PlainEndpoint(p) ==> out == Substitute(t, Values(p))
  {
    var repl := Values(p);
    ValuesAreReplacements(p);
    out, order := t, [];
    var left := repl.Keys;
    while left != {}
      invariant left <= repl.Keys
      invariant forall k :: k in order <==> k in repl && k !in left
      invariant forall i, j :: 0 <= i < j < |order| ==> order[i] != order[j]
      invariant forall k :: k in order ==> k != ""
      invariant out == Render(t, order, repl)
      decreases left
    {
      var k :| k in left;
      RenderSnoc(t, order, k, repl);
      out := ReplaceAll(out, k, repl[k]);
      left, order := left - {k}, order + [k];
    }
    if Unnested(t, Flat) && PlainEndpoint(p) {
      OrderIndependent(t, order, repl);
    }
  }

  lemma {:induction false} RenderSnoc(s: string, order: seq<string>, k: string, m: map<string, string>)
    requires (forall x :: x in order ==> x in m && x != "") && k in m && k != ""
    ensures Render(s, order + [k], m) == ReplaceAll(Render(s, order, m), k, m[k])
    decreases order
  {
    if order == [] {
      assert order + [k] == [k] && [k][1..] == [];
    } else {
      assert (order + [k])[0] == order[0] && (order + [k])[1..] == order[1..] + [k];
      RenderSnoc(ReplaceAll(s, order[0], m[order[0]]), order[1..], k, m);
    }
  }
}

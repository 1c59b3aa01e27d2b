/** Identifiers of profiles: slugs of names, and a slug that no profile has yet. Text is ASCII. */
module ProfileIds {
  import opened Common
  import opened Decimal

  // ----- strings.Trim(s, "-") -----

  predicate IsDash(c: char) {
    c == '-'
  }

  function TrimDash(s: string): string {
    TrimRight(TrimLeft(s, IsDash), IsDash)
  }

  // ----- slugify -----

  predicate Letter(c: char) {
    'a' <= c <= 'z' || '0' <= c <= '9'
  }

  /** The loop of slugify: letters and digits stay, each run of others becomes one dash. */
  function Squeeze(s: string, lastDash: bool): string {
    if s == "" then ""
    else if Letter(s[0]) then [s[0]] + Squeeze(s[1..], false)
    else if lastDash then Squeeze(s[1..], true)
    else "-" + Squeeze(s[1..], true)
  }

  function Slug(s: string): string {
    TrimDash(Squeeze(Lower(TrimSpace(s)), false))
  }

  /** Letters and dashes, no two dashes next to each other. */
  predicate Spaced(s: string) {
    && (forall i :: 0 <= i < |s| ==> Letter(s[i]) || s[i] == '-')
    && (forall i :: 0 < i < |s| && s[i] == '-' ==> s[i - 1] != '-')
  }

  /** Letters and digits with single dashes between them. */
  predicate Slugged(s: string) {
    Spaced(s) && (s != "" ==> s[0] != '-' && s[|s| - 1] != '-')
  }

  /** The letters and digits of a text. */
  function Letters(s: string): string {
    if s == "" then "" else (if Letter(s[0]) then [s[0]] else "") + Letters(s[1..])
  }

  lemma {:induction false} SqueezeShape(s: string, lastDash: bool)
    ensures var r := Squeeze(s, lastDash);
      && Spaced(r)
      && (lastDash && r != "" ==> r[0] != '-')
      && Letters(r) == Letters(s)
  {
    if s != "" {
      SqueezeShape(s[1..], !Letter(s[0]));
      var r, t := Squeeze(s, lastDash), Squeeze(s[1..], !Letter(s[0]));
      if Letter(s[0]) {
        assert r[1..] == t;
      } else if !lastDash {
        assert r[1..] == t;
      }
    }
  }

  lemma {:induction false} TrimLeftSlice(s: string) returns (i: nat)
    ensures i <= |s| && TrimLeft(s, IsDash) == s[i..] && (i < |s| ==> s[i] != '-')
    ensures Letters(TrimLeft(s, IsDash)) == Letters(s)
  {
    i := 0;
    if s != "" && IsDash(s[0]) {
      i := TrimLeftSlice(s[1..]);
      i := i + 1;
    }
  }

  lemma {:induction false} LettersSnoc(s: string, c: char)
    ensures Letters(s + [c]) == Letters(s) + if Letter(c) then [c] else ""
  {
    var tail := if Letter(c) then [c] else "";
    if s == "" {
      assert "" + [c] == [c] && [c][1..] == "";
    } else {
      assert (s + [c])[1..] == s[1..] + [c];
      LettersSnoc(s[1..], c);
      Assoc(if Letter(s[0]) then [s[0]] else "", Letters(s[1..]), tail);
    }
  }

  lemma {:induction false} TrimRightSlice(s: string) returns (n: nat)
    ensures n <= |s| && TrimRight(s, IsDash) == s[..n] && (n > 0 ==> s[n - 1] != '-')
    ensures Letters(TrimRight(s, IsDash)) == Letters(s)
  {
    n := |s|;
    if s != "" && IsDash(s[|s| - 1]) {
      var t := s[..|s| - 1];
      n := TrimRightSlice(t);
      LettersSnoc(t, s[|s| - 1]);
      assert s == t + [s[|s| - 1]];
    }
  }

  lemma {:induction false} SpacedSlice(s: string, i: nat, n: nat)
    requires Spaced(s) && i + n <= |s|
    ensures Spaced(s[i..][..n])
  {
    var r := s[i..][..n];
    assert forall j :: 0 <= j < |r| ==> r[j] == s[i + j];
  }

  lemma {:induction false} TrimDashShape(s: string)
    requires Spaced(s)
    ensures Slugged(TrimDash(s)) && Letters(TrimDash(s)) == Letters(s)
  {
    var i := TrimLeftSlice(s);
    var n := TrimRightSlice(s[i..]);
    SpacedSlice(s, i, n);
    if n > 0 {
      assert s[i..][..n][0] == s[i] && s[i..][..n][n - 1] == s[i..][n - 1];
    }
  }

  /** A slug is made of letters, digits and single inner dashes, and keeps every letter and digit of the name in order. */
  lemma {:induction false} SlugShape(s: string)
    ensures Slugged(Slug(s)) && Letters(Slug(s)) == Letters(Lower(TrimSpace(s)))
  {
    var t := Lower(TrimSpace(s));
    SqueezeShape(t, false);
    TrimDashShape(Squeeze(t, false));
  }

  /** The words of a text: its runs of lower-case letters and digits; `cur` is the one being read. */
  function Words(s: string, cur: string): seq<string> {
    if s == "" then Closed(cur)
    else if 'a' <= s[0] <= 'z' || '0' <= s[0] <= '9' then Words(s[1..], cur + [s[0]])
    else Closed(cur) + Words(s[1..], "")
  }

  function Closed(cur: string): seq<string> {
    if cur == "" then [] else [cur]
  }

  lemma {:induction false} SqueezeWords(s: string, lastDash: bool, cur: string)
    requires lastDash ==> cur == ""
    ensures Words(Squeeze(s, lastDash), cur) == Words(s, cur)
  {
    if s != "" {
      var r := Squeeze(s, lastDash);
      if Letter(s[0]) {
        assert r[0] == s[0] && r[1..] == Squeeze(s[1..], false);
        SqueezeWords(s[1..], false, cur + [s[0]]);
      } else {
        SqueezeWords(s[1..], true, "");
        if !lastDash {
          assert r[0] == '-' && r[1..] == Squeeze(s[1..], true);
        } else {
          assert [] + Words(s[1..], "") == Words(s[1..], "");
        }
      }
    }
  }

  /** What stands before or behind a word and is not part of one does not matter. */
  lemma {:induction false} WordsBehind(x: string, s: string)
    requires forall c :: c in x ==> !Letter(c)
    ensures Words(x + s, "") == Words(s, "")
  {
    if x == "" {
      assert x + s == s;
    } else {
      assert x[0] in x && (x + s)[0] == x[0] && (x + s)[1..] == x[1..] + s;
      WordsBehind(x[1..], s);
      assert [] + Words(s, "") == Words(s, "");
    }
  }

  lemma {:induction false} WordsBefore(s: string, y: string, cur: string)
    requires forall c :: c in y ==> !Letter(c)
    ensures Words(s + y, cur) == Words(s, cur)
  {
    if s == "" {
      assert s + y == y;
      if y != "" {
        assert y[0] in y;
        WordsBefore("", y[1..], "");
        assert "" + y[1..] == y[1..];
        assert Closed(cur) + [] == Closed(cur);
      }
    } else {
      assert (s + y)[0] == s[0] && (s + y)[1..] == s[1..] + y;
      WordsBefore(s[1..], y, if Letter(s[0]) then cur + [s[0]] else "");
    }
  }

  lemma {:induction false} TrimWords(s: string, drop: char -> bool)
    requires forall c :: drop(c) ==> !Letter(c)
    ensures Words(TrimRight(TrimLeft(s, drop), drop), "") == Words(s, "")
  {
    var t := TrimLeft(s, drop);
    var x := TrimLeftMeans(s, drop);
    var y := TrimRightMeans(t, drop);
    WordsBehind(x, t);
    WordsBefore(TrimRight(t, drop), y, "");
  }

  /** Slugging keeps the words of the lower-case name, in order, and by its shape sets one dash between any two. */
  lemma {:induction false} SlugWords(s: string)
    ensures Words(Slug(s), "") == Words(Lower(s), "")
  {
    var t := Lower(TrimSpace(s));
    TrimWords(Squeeze(t, false), IsDash);
    SqueezeWords(t, false, "");
    var x, y := TrimSpaceMeans(s);
    LowerParts(x, TrimSpace(s), y);
    LowerWhite(x);
    LowerWhite(y);
    WordsBefore(Lower(x) + t, Lower(y), "");
    WordsBehind(Lower(x), t);
  }

  lemma {:induction false} LowerParts(x: string, s: string, y: string)
    ensures Lower(x + s + y) == Lower(x) + Lower(s) + Lower(y)
  {
  }

  lemma {:induction false} LowerWhite(x: string)
    requires forall c :: c in x ==> White(c)
    ensures forall c :: c in Lower(x) ==> !Letter(c)
  {
    forall c | c in Lower(x) ensures !Letter(c) {
      var i :| 0 <= i < |x| && Lower(x)[i] == c;
      assert x[i] in x;
    }
  }

  lemma {:induction false} SqueezeSlugged(s: string, lastDash: bool)
    requires Spaced(s)
    requires lastDash && s != "" ==> s[0] != '-'
    ensures Squeeze(s, lastDash) == s
  {
    if s != "" {
      assert forall i :: 0 < i < |s[1..]| && s[1..][i] == '-' ==> s[1..][i - 1] != '-' by {
        forall i | 0 < i < |s[1..]| && s[1..][i] == '-' ensures s[1..][i - 1] != '-' {
          assert s[i + 1] == '-';
        }
      }
      SqueezeSlugged(s[1..], s[0] == '-');
    }
  }

  lemma {:induction false} TrimNothing(s: string, drop: char -> bool)
    requires s != "" ==> !drop(s[0]) && !drop(s[|s| - 1])
    ensures TrimRight(TrimLeft(s, drop), drop) == s
  {
  }

  lemma {:induction false} LowerSlugged(s: string)
    requires forall i :: 0 <= i < |s| ==> Letter(s[i]) || s[i] == '-'
    ensures Lower(s) == s
  {
  }

  lemma {:induction false} SluggedIsFixed(s: string)
    requires Slugged(s)
    ensures TrimDash(s) == s && Slug(s) == s
  {
    TrimNothing(s, IsSpace);
    TrimNothing(s, IsDash);
    LowerSlugged(s);
    SqueezeSlugged(s, false);
  }

  /** Slugs are stable: the second slugify and the Trim in uniqueProfileID change nothing. */
  lemma {:induction false} SlugTwice(s: string)
    ensures TrimDash(Slug(Slug(s))) == Slug(s)
  {
    SlugShape(s);
    SluggedIsFixed(Slug(s));
  }

  lemma {:induction false} SqueezeStep(s: string, i: nat, b: string, lastDash: bool)
    requires i < |s|
    ensures b + Squeeze(s[i..], lastDash)
         == (b + if Letter(s[i]) then [s[i]] else if lastDash then "" else "-") + Squeeze(s[i + 1..], !Letter(s[i]))
  {
    assert s[i..][1..] == s[i + 1..];
  }

  method Slugify(name: string) returns (r: string)
    ensures r == Slug(name)
  {
    var s := Lower(TrimSpace(name));
    r := SqueezeLoop(s);
    r := TrimDash(r);
  }

  method SqueezeLoop(s: string) returns (b: string)
    ensures b == Squeeze(s, false)
  {
    var lastDash := false;
    b := "";
    for i := 0 to |s|
      invariant Squeeze(s, false) == b + Squeeze(s[i..], lastDash)
    {
      SqueezeStep(s, i, b, lastDash);
      if Letter(s[i]) {
        b, lastDash := b + [s[i]], false;
        continue;
      }
      if !lastDash {
        b, lastDash := b + "-", true;
      }
    }
  }

  // ----- uniqueProfileID -----

  const LIMIT: nat := 10000

  function Base(name: string): string {
    var b := TrimDash(Slug(name));
    if b == "" then "profile" else b
  }

  function Numbered(base: string, n: int): string {
    base + "-" + Itoa(n)
  }

  /** The first free candidate from number `i` on, or the one with the time in it. */
  function FirstFree(used: set<string>, base: string, i: nat, limit: nat, now: int): string
    decreases limit - i
  {
    if i >= limit then Numbered(base, now)
    else if Numbered(base, i) !in used then Numbered(base, i)
    else FirstFree(used, base, i + 1, limit, now)
  }

  function UniqueId(used: set<string>, name: string, now: int): string {
    if Base(name) !in used then Base(name) else FirstFree(used, Base(name), 2, LIMIT, now)
  }

  /** The base and the candidates numbered 2 up to `n`. */
  ghost function Candidates(base: string, n: nat): set<string> {
    if n < 2 then {base} else Candidates(base, n - 1) + {Numbered(base, n)}
  }

  lemma {:induction false} NumberedApart(base: string, m: nat, n: nat)
    requires m != n
    ensures Numbered(base, m) != Numbered(base, n) && Numbered(base, m) != base
  {
    DigitsValue(m);
    DigitsValue(n);
    assert Numbered(base, m)[|base| + 1..] == Digits(m) && Numbered(base, n)[|base| + 1..] == Digits(n);
    assert |Numbered(base, m)| > |base|;
  }

  lemma {:induction false} CandidatesAre(base: string, n: nat, x: string)
    ensures x in Candidates(base, n) <==> x == base || exists i: nat :: 2 <= i <= n && x == Numbered(base, i)
  {
    if n >= 2 {
      CandidatesAre(base, n - 1, x);
    }
  }

  lemma {:induction false} CandidatesCount(base: string, n: nat)
    requires n >= 1
    ensures |Candidates(base, n)| == n
  {
    if n >= 2 {
      CandidatesCount(base, n - 1);
      NumberedIsNew(base, n);
    }
  }

  lemma {:induction false} NumberedIsNew(base: string, n: nat)
    requires n >= 2
    ensures Numbered(base, n) !in Candidates(base, n - 1)
  {
    CandidatesAre(base, n - 1, Numbered(base, n));
    NumberedApart(base, n, 0);
    forall i: nat | 2 <= i <= n - 1 ensures Numbered(base, n) != Numbered(base, i) {
      NumberedApart(base, n, i);
    }
  }

  lemma {:induction false} FirstFreeIs(used: set<string>, base: string, i: nat, limit: nat, now: int)
    requires 2 <= i <= limit && Candidates(base, i - 1) <= used
    ensures var id := FirstFree(used, base, i, limit, now);
      if Candidates(base, limit - 1) <= used then id == Numbered(base, now) else id in Candidates(base, limit - 1) - used
    decreases limit - i
  {
    if i < limit {
      var c := Numbered(base, i);
      assert Candidates(base, i) == Candidates(base, i - 1) + {c};
      CandidatesAre(base, limit - 1, c);
      if c in used {
        FirstFreeIs(used, base, i + 1, limit, now);
      }
    }
  }

  /** The id is a candidate that no profile has if there is one, and else the one made from the clock. */
  lemma {:induction false} UniqueIdIs(used: set<string>, name: string, now: int)
    ensures var id, all := UniqueId(used, name, now), Candidates(Base(name), LIMIT - 1);
      if all <= used then id == Numbered(Base(name), now) else id in all - used
  {
    var b := Base(name);
    CandidatesAre(b, LIMIT - 1, b);
    if b in used {
      assert Candidates(b, 1) == {b};
      FirstFreeIs(used, b, 2, LIMIT, now);
    }
  }

  /** Pigeonhole: with fewer than 9999 profiles the id is new, and no clock is needed for it. */
  lemma {:induction false} FreshId(used: set<string>, name: string, now: int)
    requires |used| < LIMIT - 1
    ensures UniqueId(used, name, now) !in used
    ensures UniqueId(used, name, now) in Candidates(Base(name), LIMIT - 1)
  {
    UniqueIdIs(used, name, now);
    CandidatesCount(Base(name), LIMIT - 1);
    if Candidates(Base(name), LIMIT - 1) <= used {
      SubsetCount(Candidates(Base(name), LIMIT - 1), used);
    }
  }

  /** The base of an id: the slug, or "profile" where the name has no letter and no digit. */
  lemma {:induction false} BaseMeans(name: string)
    ensures Base(name) == if Words(Lower(name), "") == [] then "profile" else Slug(name)
  {
    SlugShape(name);
    SluggedIsFixed(Slug(name));
    SlugWords(name);
    if Slug(name) != "" {
      HasWord(Slug(name), "");
    }
  }

  lemma {:induction false} HasWord(s: string, cur: string)
    requires cur != "" || (s != "" && Letter(s[0]))
    ensures Words(s, cur) != []
  {
    if s != "" && Letter(s[0]) {
      HasWord(s[1..], cur + [s[0]]);
    }
  }

  /**
   A new id is the base if that is free, else the base with the least number from 2 to
   9999 behind a dash that is free, else the base with the time.
   */
  lemma {:induction false} FirstFreeId(used: set<string>, name: string, now: int)
    ensures var b, id := Base(name), UniqueId(used, name, now);
      if b !in used then id == b
      else if forall m :: 2 <= m <= 9999 ==> b + "-" + Itoa(m) in used then id == b + "-" + Itoa(now)
      else exists n :: 2 <= n <= 9999 && id == b + "-" + Itoa(n) && id !in used && forall m :: 2 <= m < n ==> b + "-" + Itoa(m) in used
  {
    if Base(name) in used {
      LeastFree(used, Base(name), 2, now);
    }
  }

  lemma {:induction false} LeastFree(used: set<string>, b: string, i: nat, now: int)
    requires 2 <= i <= 10000 && forall m :: 2 <= m < i ==> b + "-" + Itoa(m) in used
    ensures var id := FirstFree(used, b, i, LIMIT, now);
      if forall m :: 2 <= m <= 9999 ==> b + "-" + Itoa(m) in used then id == b + "-" + Itoa(now)
      else exists n :: 2 <= n <= 9999 && id == b + "-" + Itoa(n) && id !in used && forall m :: 2 <= m < n ==> b + "-" + Itoa(m) in used
    decreases 10000 - i
  {
    if i < 10000 && b + "-" + Itoa(i) in used {
      LeastFree(used, b, i + 1, now);
    }
  }

  /** In general the id is taken exactly if all 9999 candidates are and the one made from the clock is too. */
  lemma {:induction false} TakenId(used: set<string>, name: string, now: int)
    ensures UniqueId(used, name, now) in used
       <==> Candidates(Base(name), LIMIT - 1) <= used && Numbered(Base(name), now) in used
  {
    UniqueIdIs(used, name, now);
  }

  lemma {:induction false} UniqueIdNotBlank(used: set<string>, name: string, now: int)
    ensures UniqueId(used, name, now) != ""
    ensures TrimSpace(UniqueId(used, name, now)) == UniqueId(used, name, now)
  {
    UniqueIdIs(used, name, now);
    var b, id := Base(name), UniqueId(used, name, now);
    CandidatesAre(b, LIMIT - 1, id);
    BaseNotBlank(name);
    if id == b {
      TrimNothing(b, IsSpace);
    } else {
      var n: int :| id == Numbered(b, n);
      NumberedNotBlank(b, n);
    }
  }

  lemma {:induction false} BaseNotBlank(name: string)
    ensures var b := Base(name); b != "" && !IsSpace(b[0]) && !IsSpace(b[|b| - 1])
  {
    SlugTwice(name);
    SlugShape(name);
  }

  lemma {:induction false} NumberedNotBlank(b: string, n: int)
    requires b != "" && !IsSpace(b[0])
    ensures TrimSpace(Numbered(b, n)) == Numbered(b, n) != ""
  {
    var t, id := Itoa(n), Numbered(b, n);
    ItoaPlain(n);
    assert t[|t| - 1] in t;
    assert id[0] == b[0] && id[|id| - 1] == t[|t| - 1];
    TrimNothing(id, IsSpace);
  }

  /** uniqueProfileID */
  method UniqueProfileId(ids: seq<string>, name: string, now: int) returns (id: string)
    ensures id == UniqueId((set x | x in ids), name, now)
  {
    var base := Slugify(name);
    base := TrimDash(base);
    if base == "" {
      base := "profile";
    }
    var used: set<string> := {};
    for i := 0 to |ids|
      invariant used == set x | x in ids[..i]
    {
      assert ids[..i + 1] == ids[..i] + [ids[i]];
      used := used + {ids[i]};
    }
    assert ids[..|ids|] == ids;
    if base !in used {
      return base;
    }
    for i := 2 to LIMIT
      invariant UniqueId(used, name, now) == FirstFree(used, base, i, LIMIT, now)
    {
      var candidate := Numbered(base, i);
      if candidate !in used {
        return candidate;
      }
    }
    return Numbered(base, now);
  }
}

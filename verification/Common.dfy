/** Datatypes shared by every part of the model. */
module Common {

  datatype Option<+T> = None | Some(value: T)

  /** White space as Go's strings.TrimSpace sees it, over ASCII. */
  predicate IsSpace(c: char) {
    c == ' ' || '\t' <= c <= '\r'
  }

  /** True iff trimming the string leaves nothing. */
  predicate Blank(s: string) {
    forall i :: 0 <= i < |s| ==> IsSpace(s[i])
  }

  // ----- strings.ToLower, strings.Trim -----

  function LowerChar(c: char): char {
    if 'A' <= c <= 'Z' then c - 'A' + 'a' else c
  }

  function Lower(s: string): string {
    seq(|s|, i requires 0 <= i < |s| => LowerChar(s[i]))
  }

  function TrimLeft(s: string, drop: char -> bool): string {
    if s != "" && drop(s[0]) then TrimLeft(s[1..], drop) else s
  }

  function TrimRight(s: string, drop: char -> bool): string {
    if s != "" && drop(s[|s| - 1]) then TrimRight(s[..|s| - 1], drop) else s
  }

  function TrimSpace(s: string): string {
    TrimRight(TrimLeft(s, IsSpace), IsSpace)
  }

  lemma {:induction false} TrimLeftMeans(s: string, drop: char -> bool) returns (x: string)
    ensures s == x + TrimLeft(s, drop) && forall c :: c in x ==> drop(c)
    ensures TrimLeft(s, drop) != "" ==> !drop(TrimLeft(s, drop)[0])
  {
    x := "";
    if s != "" && drop(s[0]) {
      x := TrimLeftMeans(s[1..], drop);
      x := [s[0]] + x;
    }
  }

  lemma {:induction false} TrimRightMeans(s: string, drop: char -> bool) returns (y: string)
    ensures s == TrimRight(s, drop) + y && forall c :: c in y ==> drop(c)
    ensures TrimRight(s, drop) != "" ==> !drop(TrimRight(s, drop)[|TrimRight(s, drop)| - 1])
  {
    y := "";
    if s != "" && drop(s[|s| - 1]) {
      y := TrimRightMeans(s[..|s| - 1], drop);
      y := y + [s[|s| - 1]];
    }
  }

  predicate White(c: char) {
    c == ' ' || c == '\t' || c == '\n' || c == 11 as char || c == 12 as char || c == '\r'
  }

  lemma {:induction false} BlankMeans(s: string)
    ensures Blank(s) <==> forall c :: c in s ==> White(c)
  {
    if !Blank(s) {
      var i :| 0 <= i < |s| && !IsSpace(s[i]);
      assert s[i] in s;
    }
  }

  /** Trimming takes white space off both ends and nothing else. */
  lemma {:induction false} TrimSpaceMeans(s: string) returns (x: string, y: string)
    ensures s == x + TrimSpace(s) + y && (forall c :: c in x || c in y ==> White(c))
    ensures var t := TrimSpace(s); t != "" ==> !White(t[0]) && !White(t[|t| - 1])
  {
    var t := TrimLeft(s, IsSpace);
    x := TrimLeftMeans(s, IsSpace);
    y := TrimRightMeans(t, IsSpace);
    assert TrimRight(t, IsSpace) != "" ==> TrimRight(t, IsSpace)[0] == t[0];
    Assoc(x, TrimSpace(s), y);
  }

  lemma {:induction false} TrimLeftOver(x: string, s: string)
    requires forall c :: c in x ==> White(c)
    ensures TrimLeft(x + s, IsSpace) == TrimLeft(s, IsSpace)
  {
    if x == "" {
      assert x + s == s;
    } else {
      assert x[0] in x && (x + s)[0] == x[0] && (x + s)[1..] == x[1..] + s;
      TrimLeftOver(x[1..], s);
    }
  }

  lemma {:induction false} TrimRightOver(s: string, y: string)
    requires forall c :: c in y ==> White(c)
    ensures TrimRight(s + y, IsSpace) == TrimRight(s, IsSpace)
  {
    if y == "" {
      assert s + y == s;
    } else {
      var n := |y| - 1;
      assert y[n] in y && (s + y)[|s + y| - 1] == y[n] && (s + y)[..|s + y| - 1] == s + y[..n];
      TrimRightOver(s, y[..n]);
    }
  }

  lemma {:induction false} TrimLeftInFront(s: string, y: string)
    ensures TrimLeft(s, IsSpace) != "" ==> TrimLeft(s + y, IsSpace) == TrimLeft(s, IsSpace) + y
    ensures TrimLeft(s, IsSpace) == "" ==> TrimLeft(s + y, IsSpace) == TrimLeft(y, IsSpace)
  {
    if s == "" {
      assert s + y == y;
    } else if IsSpace(s[0]) {
      assert (s + y)[1..] == s[1..] + y;
      TrimLeftInFront(s[1..], y);
    }
  }

  lemma {:induction false} TrimLeftWhite(y: string)
    requires forall c :: c in y ==> White(c)
    ensures TrimLeft(y, IsSpace) == ""
  {
    assert y + "" == y;
    TrimLeftOver(y, "");
  }

  /** White space around a text does not show after trimming. */
  lemma {:induction false} TrimSpaceOver(x: string, s: string, y: string)
    requires forall c :: c in x || c in y ==> White(c)
    ensures TrimSpace(x + s + y) == TrimSpace(s)
  {
    Assoc(x, s, y);
    TrimLeftOver(x, s + y);
    TrimLeftInFront(s, y);
    TrimLeftWhite(y);
    TrimRightOver(TrimLeft(s, IsSpace), y);
  }

  lemma {:induction false} LowerTrimLeft(s: string)
    ensures Lower(TrimLeft(s, IsSpace)) == TrimLeft(Lower(s), IsSpace)
  {
    if s != "" && IsSpace(s[0]) {
      assert Lower(s)[1..] == Lower(s[1..]);
      LowerTrimLeft(s[1..]);
    }
  }

  lemma {:induction false} LowerTrimRight(s: string)
    ensures Lower(TrimRight(s, IsSpace)) == TrimRight(Lower(s), IsSpace)
  {
    if s != "" && IsSpace(s[|s| - 1]) {
      assert Lower(s)[..|s| - 1] == Lower(s[..|s| - 1]);
      LowerTrimRight(s[..|s| - 1]);
    }
  }

  /** Trimming and lowering can change places. */
  lemma {:induction false} LowerTrim(s: string)
    ensures Lower(TrimSpace(s)) == TrimSpace(Lower(s))
  {
    LowerTrimLeft(s);
    LowerTrimRight(TrimLeft(s, IsSpace));
  }

  /** It leaves nothing exactly of a text that is white space throughout. */
  lemma {:induction false} TrimsToNothing(s: string)
    ensures TrimSpace(s) == "" <==> forall c :: c in s ==> White(c)
  {
    var x, y := TrimSpaceMeans(s);
    if TrimSpace(s) != "" {
      assert TrimSpace(s)[0] in s;
    }
  }

  /** Lower case, letter by letter. */
  lemma {:induction false} LowerMeans(s: string)
    ensures |Lower(s)| == |s|
    ensures forall i :: 0 <= i < |s| && 'A' <= s[i] <= 'Z' ==> Lower(s)[i] as int == s[i] as int + 32
    ensures forall i :: 0 <= i < |s| && !('A' <= s[i] <= 'Z') ==> Lower(s)[i] == s[i]
  {
  }

  lemma {:induction false} Assoc<T>(a: seq<T>, b: seq<T>, c: seq<T>)
    ensures (a + b) + c == a + (b + c)
  {
  }

  lemma {:induction false} SubsetCount<T>(a: set<T>, b: set<T>)
    requires a <= b
    ensures |a| <= |b|
  {
    assert b == a + (b - a);
  }
}

/** The operations of Go's strings package that the operator uses, on sequences of characters. */
module Text {

  /** `unicode.IsSpace`. */
  predicate IsSpace(c: char) {
    || c == ' ' || '\t' <= c <= '\r' || c == '\U{85}' || c == '\U{A0}' || c == '\U{1680}'
    || '\U{2000}' <= c <= '\U{200a}' || c == '\U{2028}' || c == '\U{2029}' || c == '\U{202f}'
    || c == '\U{205f}' || c == '\U{3000}'
  }

  function Split(s: string, sep: char): (parts: seq<string>)
    ensures |parts| > 0
  {
    if s == "" then [""] else Glue(s[0], Split(s[1..], sep), sep)
  }

  /** One more character in front of split text. */
  function Glue(c: char, parts: seq<string>, sep: char): (r: seq<string>)
    requires parts != []
    ensures r != []
  {
    if c == sep then [""] + parts else [[c] + parts[0]] + parts[1..]
  }

  function Join(parts: seq<string>, sep: char): (s: string) {
    if parts == [] then ""
    else if |parts| == 1 then parts[0]
    else parts[0] + [sep] + Join(parts[1..], sep)
  }

  /** `strings.SplitN(s, sep, 2)[0]`. */
  function Before(s: string, sep: char): (r: string) {
    if s == "" || s[0] == sep then "" else [s[0]] + Before(s[1..], sep)
  }

  function TrimLeft(s: string): (r: string) {
    if s != "" && IsSpace(s[0]) then TrimLeft(s[1..]) else s
  }

  function TrimRight(s: string): (r: string) {
    if s != "" && IsSpace(s[|s| - 1]) then TrimRight(s[..|s| - 1]) else s
  }

  function TrimSpace(s: string): (r: string) {
    TrimRight(TrimLeft(s))
  }

  predicate IsBracket(c: char) { c == '[' || c == ']' }

  /** `strings.Trim(s, "[]")`. */
  function TrimBrackets(s: string): (r: string)
    decreases |s|
  {
    if s != "" && IsBracket(s[0]) then TrimBrackets(s[1..])
    else if s != "" && IsBracket(s[|s| - 1]) then TrimBrackets(s[..|s| - 1])
    else s
  }

  predicate HasPrefix(s: string, p: string) { p <= s }

  predicate HasSuffix(s: string, p: string) {
    |p| <= |s| && s[|s| - |p|..] == p
  }

  // ---------------------------------------------------------------- split and join

  predicate Free(s: string, c: char) { c !in s }

  predicate AllFree(parts: seq<string>, c: char) {
    forall i :: 0 <= i < |parts| ==> Free(parts[i], c)
  }

  lemma {:induction false} SplitFree(s: string, sep: char)
    requires Free(s, sep)
    ensures Split(s, sep) == [s]
  {
    if s != "" {
      SplitFree(s[1..], sep);
      assert [s[0]] + s[1..] == s;
    }
  }

  lemma {:induction false} SplitParts(s: string, sep: char)
    ensures AllFree(Split(s, sep), sep)
  {
    if s != "" { SplitParts(s[1..], sep); }
  }

  lemma GlueAppend(c: char, a: seq<string>, b: seq<string>, sep: char)
    requires a != []
    ensures Glue(c, a + b, sep) == Glue(c, a, sep) + b
  {
  }

  lemma {:induction false} SplitAppend(a: string, b: string, sep: char)
    ensures Split(a + [sep] + b, sep) == Split(a, sep) + Split(b, sep)
  {
    var t := a + [sep] + b;
    if a == "" {
      assert t[0] == sep && t[1..] == b;
    } else {
      SplitAppend(a[1..], b, sep);
      assert t[0] == a[0] && t[1..] == a[1..] + [sep] + b;
      GlueAppend(a[0], Split(a[1..], sep), Split(b, sep), sep);
    }
  }

  lemma {:induction false} JoinSplit(s: string, sep: char)
    ensures Join(Split(s, sep), sep) == s
  {
    if s != "" {
      var rest := Split(s[1..], sep);
      JoinSplit(s[1..], sep);
      if s[0] == sep {
        assert ([""] + rest)[1..] == rest;
        assert s == [sep] + s[1..];
      } else {
        var parts := [[s[0]] + rest[0]] + rest[1..];
        assert parts[1..] == rest[1..];
        assert s == [s[0]] + s[1..];
        if |rest| > 1 {
          assert parts[0] + [sep] + Join(rest[1..], sep) == [s[0]] + (rest[0] + [sep] + Join(rest[1..], sep));
        }
      }
    }
  }

  /** Joining and splitting again gives the parts back exactly when no part contains the separator. */
  lemma {:induction false} SplitJoin(parts: seq<string>, sep: char)
    requires parts != []
    ensures AllFree(parts, sep) <==> Split(Join(parts, sep), sep) == parts
  {
    if AllFree(parts, sep) {
      SplitJoinFree(parts, sep);
    } else {
      SplitParts(Join(parts, sep), sep);
    }
  }

  lemma {:induction false} SplitJoinFree(parts: seq<string>, sep: char)
    requires parts != [] && AllFree(parts, sep)
    ensures Split(Join(parts, sep), sep) == parts
  {
    SplitFree(parts[0], sep);
    if |parts| == 1 {
      assert parts == [parts[0]];
    } else {
      SplitJoinFree(parts[1..], sep);
      SplitAppend(parts[0], Join(parts[1..], sep), sep);
      assert [parts[0]] + parts[1..] == parts;
    }
  }

  /** A separator inside a part joins like two parts. */
  lemma {:induction false} JoinInner(a: seq<string>, x: string, y: string, b: seq<string>, sep: char)
    ensures Join(a + [x + [sep] + y] + b, sep) == Join(a + [x, y] + b, sep)
  {
    var p, q := a + [x + [sep] + y] + b, a + [x, y] + b;
    if a == [] {
      assert p[1..] == b && q[1..] == [y] + b && q[1..][1..] == b;
      if b != [] {
        assert x + [sep] + y + [sep] + Join(b, sep) == x + [sep] + (y + [sep] + Join(b, sep));
      }
    } else {
      JoinInner(a[1..], x, y, b, sep);
      assert p[1..] == a[1..] + [x + [sep] + y] + b && q[1..] == a[1..] + [x, y] + b;
    }
  }

  // ---------------------------------------------------------------- trimming

  lemma {:induction false} BeforeFree(p: string, y: string, sep: char)
    requires Free(p, sep)
    ensures Before(p, sep) == p && Before(p + [sep] + y, sep) == p
  {
    if p == "" {
      assert p + [sep] + y == [sep] + y;
    } else {
      BeforeFree(p[1..], y, sep);
      assert (p + [sep] + y)[1..] == p[1..] + [sep] + y;
      assert [p[0]] + p[1..] == p;
    }
  }

  lemma {:induction false} TrimRightAfter(p: string, y: string)
    requires p != "" && !IsSpace(p[|p| - 1])
    ensures TrimRight(p + y) == p + TrimRight(y)
  {
    if y == "" {
      assert p + y == p;
    } else if IsSpace(y[|y| - 1]) {
      TrimRightAfter(p, y[..|y| - 1]);
      assert (p + y)[..|p + y| - 1] == p + y[..|y| - 1];
    }
  }

  /** Neither end is a space. */
  predicate Tight(s: string) { s != "" && !IsSpace(s[0]) && !IsSpace(s[|s| - 1]) }

  lemma TrimTight(s: string)
    requires Tight(s)
    ensures TrimSpace(s) == s
  {
  }

  predicate Spaces(s: string) {
    forall i :: 0 <= i < |s| ==> IsSpace(s[i])
  }

  /** The spaces are the 25 characters with the property White_Space. */
  lemma SpacesExact(c: char)
    ensures IsSpace(c) <==>
              c in "\t\n\U{b}\U{c}\r \U{85}\U{a0}\U{1680}" + "\U{2000}\U{2001}\U{2002}\U{2003}\U{2004}\U{2005}"
                   + "\U{2006}\U{2007}\U{2008}\U{2009}\U{200a}" + "\U{2028}\U{2029}\U{202f}\U{205f}\U{3000}"
  {
  }

  lemma {:induction false} TrimLeftSpaces(a: string, s: string)
    requires Spaces(a) && (s != "" ==> !IsSpace(s[0]))
    ensures TrimLeft(a + s) == s
  {
    if a == "" {
      assert a + s == s;
    } else {
      TrimLeftSpaces(a[1..], s);
      assert (a + s)[1..] == a[1..] + s;
    }
  }

  lemma {:induction false} TrimRightSpaces(b: string)
    requires Spaces(b)
    ensures TrimRight(b) == ""
  {
    if b != "" { TrimRightSpaces(b[..|b| - 1]); }
  }

  /** A suffix without the separator lies behind the separator. */
  lemma SuffixAfter(p: string, sep: char, z: string, suffix: string)
    requires Free(suffix, sep)
    ensures HasSuffix(p + [sep] + z, suffix) <==> HasSuffix(z, suffix)
  {
    var s := p + [sep] + z;
    if |suffix| <= |z| {
      assert s[|s| - |suffix|..] == z[|z| - |suffix|..];
    } else if |suffix| <= |s| {
      var k := |p| - (|s| - |suffix|);
      assert s[|s| - |suffix|..][k] == s[|p|] == sep && suffix[k] != sep;
    }
  }

  predicate Brackets(s: string) {
    forall i :: 0 <= i < |s| ==> IsBracket(s[i])
  }

  /** Trimming brackets cuts them off both ends, all of them and nothing else. */
  lemma {:induction false} TrimBracketsExact(s: string) returns (a: string, b: string)
    ensures s == a + TrimBrackets(s) + b && Brackets(a) && Brackets(b)
    ensures var r := TrimBrackets(s); r != "" ==> !IsBracket(r[0]) && !IsBracket(r[|r| - 1])
    decreases |s|
  {
    a, b := "", "";
    if s != "" && IsBracket(s[0]) {
      a, b := TrimBracketsExact(s[1..]);
      assert s == [s[0]] + s[1..];
      a := [s[0]] + a;
    } else if s != "" && IsBracket(s[|s| - 1]) {
      a, b := TrimBracketsExact(s[..|s| - 1]);
      assert s == s[..|s| - 1] + [s[|s| - 1]];
      b := b + [s[|s| - 1]];
    }
  }

  lemma {:induction false} TrimLeftExact(s: string) returns (a: string)
    ensures s == a + TrimLeft(s) && Spaces(a)
    ensures TrimLeft(s) != "" ==> !IsSpace(TrimLeft(s)[0])
  {
    a := "";
    if s != "" && IsSpace(s[0]) {
      a := TrimLeftExact(s[1..]);
      assert s == [s[0]] + s[1..];
      a := [s[0]] + a;
    }
  }

  lemma {:induction false} TrimRightExact(s: string) returns (b: string)
    ensures s == TrimRight(s) + b && Spaces(b)
    ensures TrimRight(s) != "" ==> !IsSpace(TrimRight(s)[|TrimRight(s)| - 1])
  {
    b := "";
    if s != "" && IsSpace(s[|s| - 1]) {
      b := TrimRightExact(s[..|s| - 1]);
      assert s == s[..|s| - 1] + [s[|s| - 1]];
      b := b + [s[|s| - 1]];
    }
  }

  /** Trimming cuts spaces off both ends, all of them and nothing else. */
  lemma TrimSpaceExact(s: string)
    ensures exists a, b :: s == a + TrimSpace(s) + b && Spaces(a) && Spaces(b)
    ensures TrimSpace(s) == "" || Tight(TrimSpace(s))
  {
    var t := TrimLeft(s);
    var a := TrimLeftExact(s);
    var b := TrimRightExact(t);
    assert s == a + TrimSpace(s) + b;
    if TrimSpace(s) != "" { assert t[0] == TrimSpace(s)[0]; }
  }

  /** Cutting at a separator gives what stands before the first one, or all. */
  lemma {:induction false} BeforeExact(s: string, sep: char)
    ensures Free(Before(s, sep), sep)
    ensures Before(s, sep) == s || (Before(s, sep) + [sep] <= s)
  {
    if s != "" && s[0] != sep {
      BeforeExact(s[1..], sep);
      assert s == [s[0]] + s[1..];
    }
  }

  lemma TrimBracketsInner(name: string)
    requires name != "" ==> !IsBracket(name[0]) && !IsBracket(name[|name| - 1])
    ensures TrimBrackets(['['] + name + [']']) == name
  {
    var s, t := ['['] + name + [']'], name + [']'];
    assert s[0] == '[' && s[1..] == t;
    assert TrimBrackets(name) == name;
    if name == "" {
      assert t[1..] == name;
    } else {
      assert t[0] == name[0] && t[|t| - 1] == ']' && t[..|t| - 1] == name;
    }
    assert TrimBrackets(t) == name;
  }

  /** Nothing that trims or cuts invents characters. */
  predicate Within(r: string, s: string) {
    forall c <- r :: c in s
  }

  lemma {:induction false} BeforeWithin(s: string, sep: char)
    ensures Within(Before(s, sep), s)
  {
    if s != "" && s[0] != sep { BeforeWithin(s[1..], sep); }
  }

  lemma {:induction false} TrimLeftWithin(s: string)
    ensures Within(TrimLeft(s), s)
  {
    if s != "" && IsSpace(s[0]) { TrimLeftWithin(s[1..]); }
  }

  lemma {:induction false} TrimRightWithin(s: string)
    ensures Within(TrimRight(s), s)
  {
    if s != "" && IsSpace(s[|s| - 1]) { TrimRightWithin(s[..|s| - 1]); }
  }

  lemma TrimSpaceWithin(s: string)
    ensures Within(TrimSpace(s), s)
  {
    TrimLeftWithin(s);
    TrimRightWithin(TrimLeft(s));
  }

  lemma {:induction false} TrimBracketsWithin(s: string)
    ensures Within(TrimBrackets(s), s)
    decreases |s|
  {
    if s != "" && IsBracket(s[0]) {
      TrimBracketsWithin(s[1..]);
    } else if s != "" && IsBracket(s[|s| - 1]) {
      TrimBracketsWithin(s[..|s| - 1]);
    }
  }
}
